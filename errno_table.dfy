/**
 * errno/const.go: the service's table of error values. In Go each entry is a
 * package-level `*Err`; here each is the record it points to.
 */
module ErrnoTable {
  import opened Common
  import opened GoStrings
  import opened GoFmt
  import opened Errno

  /** The net/http status codes the table uses. */
  const StatusOK := 200
  const StatusBadRequest := 400
  const StatusForbidden := 403
  const StatusNotFound := 404
  const StatusMethodNotAllowed := 405
  const StatusInternalServerError := 500

  // Long messages are written as concatenations of short pieces: the values
  // are the source's messages, and each piece can be checked on its own.

  /** Success carries no ErrType. */
  const Success := Err(StatusOK, "", "Success", "Success", None)

  // Server errors
  const ErrInternalRequest := Err(StatusInternalServerError, ErrTypeServer, "InternalError", "Internal service " + "request failed.", None)
  const ErrInternalServer := Err(StatusInternalServerError, ErrTypeServer, "ServiceUnavailable", "Internal server " + "error.", None)
  const ErrServiceTimeout := Err(StatusInternalServerError, ErrTypeServer, "ServiceTimeout", "Internal service " + "is unavailable " + "because of time " + "out.", None)
  const ErrExecTimeout := Err(StatusInternalServerError, ErrTypeServer, "ExecTimeout", "Service " + "execution timed " + "out.", None)
  const ErrDatabase := Err(StatusInternalServerError, ErrTypeServer, "ServiceException", "Data operation " + "exception.", None)
  const ErrInvalidDBConnection := Err(StatusInternalServerError, ErrTypeServer, "ServiceException", "Data operation " + "exception.", None)
  const ErrPanicException := Err(StatusInternalServerError, ErrTypeServer, "OperateException", "An abnormal " + "behavior " + "occurred during " + "the operation.", None)

  // API common errors
  const ErrUnauthorized := Err(StatusForbidden, ErrTypeSender, "Unauthorized", "Unauthorized " + "account.", None)
  const ErrPermissionDenied := Err(StatusForbidden, ErrTypeSender, "PermissionDenied", "Permission " + "denied.", None)
  const ErrNoSuchEntity := Err(StatusNotFound, ErrTypeSender, "NoSuchEntity", "The request was " + "rejected because " + "it referenced a " + "non-existent " + "`InnerApi`.", None)
  const ErrInvalidMethod := Err(StatusMethodNotAllowed, ErrTypeSender, "InvalidMethod", "Method Not " + "Allowed.", None)
  const ErrInvalidAction := Err(StatusBadRequest, ErrTypeSender, "InvalidAction", "Request was " + "rejected because " + "it referenced an " + "'Action' that " + "does not exist.", None)
  const ErrNoSuchVersion := Err(StatusBadRequest, ErrTypeSender, "NoSuchVersion", "Request was " + "rejected because " + "it referenced an " + "'Version' that " + "does not exist.", None)
  const ErrTokenInvalid := Err(StatusBadRequest, ErrTypeSender, "InvalidToken", "Invalid " + "`AccessToken`.", None)
  const ErrCancelRequest := Err(StatusBadRequest, ErrTypeSender, "CancelRequest", "User cancel " + "request.", None)
  const ErrUnsupportedRegion := Err(StatusBadRequest, ErrTypeSender, "UnsupportedRegion", "The region does " + "not provide the " + "corresponding " + "service.", None)
  const ErrNotFoundRegion := Err(StatusNotFound, ErrTypeSender, "NotFoundRegion", "The region not " + "found.", None)
  const ErrMissingHeader := Err(StatusBadRequest, ErrTypeSender, "MissingHeader", "Request `" + "%s" + "` is missing in Header.", None)
  const ErrMissingParameter := Err(StatusBadRequest, ErrTypeSender, "MissingParameter", "Parameter " + "%s" + " must be required.", None)
  const ErrInvalidParameter := Err(StatusBadRequest, ErrTypeSender, "InvalidParameter", "Invalid " + "parameter, " + "incorrect " + "parameter format " + "or value type.", None)
  const ErrInvalidParameterValue := Err(StatusBadRequest, ErrTypeSender, "InvalidParameterValue", "%s", None)

  // Business errors
  const ErrNotFound := Err(StatusNotFound, ErrTypeSender, "NotFound", "%s", None)
  const ErrExceedsLimit := Err(StatusBadRequest, ErrTypeSender, "ExceedsLimit", "%s", None)
  const ErrNotFoundResource := Err(StatusNotFound, ErrTypeSender, "NotFoundResource", "The specified resource " + "%s" + " is not found.", None)
  const ErrOperateFailed := Err(StatusBadRequest, ErrTypeServer, "OperateFailed", "%s", None)

  const ServerErrors := [ErrInternalRequest, ErrInternalServer, ErrServiceTimeout, ErrExecTimeout,
                         ErrDatabase, ErrInvalidDBConnection, ErrPanicException]

  const ApiCommonErrors := [ErrUnauthorized, ErrPermissionDenied, ErrNoSuchEntity, ErrInvalidMethod,
                            ErrInvalidAction, ErrNoSuchVersion, ErrTokenInvalid, ErrCancelRequest,
                            ErrUnsupportedRegion, ErrNotFoundRegion, ErrMissingHeader, ErrMissingParameter,
                            ErrInvalidParameter, ErrInvalidParameterValue]

  const BusinessErrors := [ErrNotFound, ErrExceedsLimit, ErrNotFoundResource, ErrOperateFailed]

  /** The entries whose message is a one-argument template. */
  const TemplatedErrors := [ErrMissingHeader, ErrMissingParameter, ErrInvalidParameterValue,
                            ErrNotFound, ErrExceedsLimit, ErrNotFoundResource, ErrOperateFailed]

  const AllErrors := [Success] + ServerErrors + ApiCommonErrors + BusinessErrors

  /** The success value: HTTP 200, code "Success", and no error type. */
  lemma SuccessIsOk()
    ensures Success.httpCode == 200 && Success.code == "Success" && Success.message == "Success"
    ensures Success.errType == "" && Success.rawErr == None
  {
  }

  /** Every server error is an HTTP 500 of type "server". */
  lemma ServerErrorsAre500()
    ensures forall e :: e in ServerErrors ==> e.httpCode == StatusInternalServerError && e.errType == ErrTypeServer
  {
  }

  /** Every API-common error is a sender error with a 4xx code among 400, 403, 404 and 405. */
  lemma ApiCommonErrorsAreSender()
    ensures forall e :: e in ApiCommonErrors ==>
      e.errType == ErrTypeSender && e.httpCode in {StatusBadRequest, StatusForbidden, StatusNotFound, StatusMethodNotAllowed}
  {
  }

  /** ErrOperateFailed is a "server" error with a client status, so the type does not determine the class. */
  lemma ErrTypeDoesNotDetermineStatus()
    ensures ErrOperateFailed.errType == ErrTypeServer && ErrOperateFailed.httpCode == StatusBadRequest
    ensures ErrOperateFailed.errType == ErrInternalServer.errType && ErrOperateFailed.httpCode != ErrInternalServer.httpCode
  {
  }

  /** The two database errors are indistinguishable to the client. */
  lemma DatabaseErrorsAlias()
    ensures ErrDatabase.code == ErrInvalidDBConnection.code && ErrDatabase.message == ErrInvalidDBConnection.message
    ensures ErrDatabase == ErrInvalidDBConnection
  {
  }

  /** A template given by the text on each side of its verb. */
  lemma TemplateOf(m: string, p: string, q: string)
    requires m == p + "%s" + q && '%' !in p && '%' !in q
    ensures Templated(m)
  {
  }

  /** Text made of pieces without `%` has no `%`. */
  lemma Plain(m: string, a: string, b: string, c: string, d: string, e: string, f: string)
    requires m == a + b + c + d + e + f
    requires '%' !in a && '%' !in b && '%' !in c && '%' !in d && '%' !in e && '%' !in f
    ensures '%' !in m
  {
  }

  lemma SuccessIsPlain()
    ensures '%' !in Success.message
  {
    Plain(Success.message, "Success", "", "", "", "", "");
  }

  lemma InternalRequestIsPlain()
    ensures '%' !in ErrInternalRequest.message
  {
    Plain(ErrInternalRequest.message, "Internal service ", "request failed.", "", "", "", "");
  }

  lemma InternalServerIsPlain()
    ensures '%' !in ErrInternalServer.message
  {
    Plain(ErrInternalServer.message, "Internal server ", "error.", "", "", "", "");
  }

  lemma ServiceTimeoutIsPlain()
    ensures '%' !in ErrServiceTimeout.message
  {
    Plain(ErrServiceTimeout.message, "Internal service ", "is unavailable ", "because of time ", "out.", "", "");
  }

  lemma ExecTimeoutIsPlain()
    ensures '%' !in ErrExecTimeout.message
  {
    Plain(ErrExecTimeout.message, "Service ", "execution timed ", "out.", "", "", "");
  }

  lemma DatabaseIsPlain()
    ensures '%' !in ErrDatabase.message
  {
    Plain(ErrDatabase.message, "Data operation ", "exception.", "", "", "", "");
  }

  lemma PanicExceptionIsPlain()
    ensures '%' !in ErrPanicException.message
  {
    Plain(ErrPanicException.message, "An abnormal ", "behavior ", "occurred during ", "the operation.", "", "");
  }

  lemma UnauthorizedIsPlain()
    ensures '%' !in ErrUnauthorized.message
  {
    Plain(ErrUnauthorized.message, "Unauthorized ", "account.", "", "", "", "");
  }

  lemma PermissionDeniedIsPlain()
    ensures '%' !in ErrPermissionDenied.message
  {
    Plain(ErrPermissionDenied.message, "Permission ", "denied.", "", "", "", "");
  }

  lemma NoSuchEntityIsPlain()
    ensures '%' !in ErrNoSuchEntity.message
  {
    Plain(ErrNoSuchEntity.message, "The request was ", "rejected because ", "it referenced a ", "non-existent ", "`InnerApi`.", "");
  }

  lemma InvalidMethodIsPlain()
    ensures '%' !in ErrInvalidMethod.message
  {
    Plain(ErrInvalidMethod.message, "Method Not ", "Allowed.", "", "", "", "");
  }

  lemma InvalidActionIsPlain()
    ensures '%' !in ErrInvalidAction.message
  {
    Plain(ErrInvalidAction.message, "Request was ", "rejected because ", "it referenced an ", "'Action' that ", "does not exist.", "");
  }

  lemma NoSuchVersionIsPlain()
    ensures '%' !in ErrNoSuchVersion.message
  {
    Plain(ErrNoSuchVersion.message, "Request was ", "rejected because ", "it referenced an ", "'Version' that ", "does not exist.", "");
  }

  lemma TokenInvalidIsPlain()
    ensures '%' !in ErrTokenInvalid.message
  {
    Plain(ErrTokenInvalid.message, "Invalid ", "`AccessToken`.", "", "", "", "");
  }

  lemma CancelRequestIsPlain()
    ensures '%' !in ErrCancelRequest.message
  {
    Plain(ErrCancelRequest.message, "User cancel ", "request.", "", "", "", "");
  }

  lemma UnsupportedRegionIsPlain()
    ensures '%' !in ErrUnsupportedRegion.message
  {
    Plain(ErrUnsupportedRegion.message, "The region does ", "not provide the ", "corresponding ", "service.", "", "");
  }

  lemma NotFoundRegionIsPlain()
    ensures '%' !in ErrNotFoundRegion.message
  {
    Plain(ErrNotFoundRegion.message, "The region not ", "found.", "", "", "", "");
  }

  lemma InvalidParameterIsPlain()
    ensures '%' !in ErrInvalidParameter.message
  {
    Plain(ErrInvalidParameter.message, "Invalid ", "parameter, ", "incorrect ", "parameter format ", "or value type.", "");
  }

  lemma MissingHeaderIsTemplate()
    ensures Templated(ErrMissingHeader.message)
  {
    TemplateOf(ErrMissingHeader.message, "Request `", "` is missing in Header.");
  }

  lemma MissingParameterIsTemplate()
    ensures Templated(ErrMissingParameter.message)
  {
    TemplateOf(ErrMissingParameter.message, "Parameter ", " must be required.");
  }

  lemma NotFoundResourceIsTemplate()
    ensures Templated(ErrNotFoundResource.message)
  {
    TemplateOf(ErrNotFoundResource.message, "The specified resource ", " is not found.");
  }

  /** The bare `%s` messages. */
  lemma BareTemplates()
    ensures Templated("%s")
  {
    TemplateOf("%s", "", "");
  }

  /** The templated entries: each message is one `%s` in text without `%`. */
  lemma TemplatedEntries()
    ensures forall e :: e in TemplatedErrors ==> Templated(e.message)
  {
    MissingHeaderIsTemplate();
    MissingParameterIsTemplate();
    NotFoundResourceIsTemplate();
    BareTemplates();
  }

  /** Every other entry's message has no `%` at all. */
  lemma PlainEntries()
    ensures forall e :: e in AllErrors && e !in TemplatedErrors ==> '%' !in e.message
  {
    SuccessIsPlain();
    InternalRequestIsPlain();
    InternalServerIsPlain();
    ServiceTimeoutIsPlain();
    ExecTimeoutIsPlain();
    DatabaseIsPlain();
    PanicExceptionIsPlain();
    UnauthorizedIsPlain();
    PermissionDeniedIsPlain();
    NoSuchEntityIsPlain();
    InvalidMethodIsPlain();
    InvalidActionIsPlain();
    NoSuchVersionIsPlain();
    TokenInvalidIsPlain();
    CancelRequestIsPlain();
    UnsupportedRegionIsPlain();
    NotFoundRegionIsPlain();
    InvalidParameterIsPlain();
  }

  /**
   * Exactly the templated entries hold one `%s` and no other `%`: WithFmt
   * fills those, and on every other entry it appends an extra-argument report.
   */
  lemma TemplatesExactly()
    ensures forall e :: e in AllErrors ==> (Templated(e.message) <==> e in TemplatedErrors)
  {
    TemplatedEntries();
    PlainEntries();
    forall e | e in AllErrors && e !in TemplatedErrors
      ensures !Templated(e.message)
    {
      PlainIsNotTemplated(e.message);
    }
  }

  /** ErrMissingHeader with a header name, as the commented-out header check would have built it. */
  lemma MissingHeaderMessage(k: string)
    ensures SimpleFormat(ErrMissingHeader.message)
    ensures WithFmt(ErrMissingHeader, k).message == "Request `" + k + "` is missing in Header."
  {
    TemplateSubst("Request `", "` is missing in Header.", k);
  }
}
