/**
 * errno/errno.go: the service's error record and the builders that copy it
 * with one or two fields changed, plus the two that change it in place.
 *
 * A Go `error` is represented by its `Error()` text; a nil error is `None`.
 * Format arguments are strings (the only kind the service passes).
 */
module Errno {
  import opened Common
  import opened GoFmt

  const ErrTypeSender := "sender"
  const ErrTypeServer := "server"

  /** errno.Err. */
  datatype Err = Err(httpCode: int, errType: string, code: string, message: string, rawErr: Option<string>)

  /** errno.New: always a sender error. */
  function New(httpCode: int, errCode: string, msg: string, err: Option<string>): (e: Err)
    ensures e.errType == ErrTypeSender
    ensures e.httpCode == httpCode && e.code == errCode && e.message == msg && e.rawErr == err
  {
    Err(httpCode, ErrTypeSender, errCode, msg, err)
  }

  /** WithFmt: a copy without raw error whose message is the receiver's message applied to `f`. */
  function WithFmt(e: Err, f: string): (r: Err)
    requires SimpleFormat(e.message)
    ensures r.httpCode == e.httpCode && r.errType == e.errType && r.code == e.code
    ensures r.rawErr == None
    ensures r.message == Sprintf(e.message, [f])
  {
    Err(e.httpCode, e.errType, e.code, Sprintf(e.message, [f]), None)
  }

  /** WithRawErr: a copy that carries `err`. */
  function WithRawErr(e: Err, err: Option<string>): (r: Err)
    ensures r.httpCode == e.httpCode && r.errType == e.errType && r.code == e.code && r.message == e.message
    ensures r.rawErr == err
  {
    Err(e.httpCode, e.errType, e.code, e.message, err)
  }

  /** WithFmtAndRawErr. */
  function WithFmtAndRawErr(e: Err, f: string, err: Option<string>): (r: Err)
    requires SimpleFormat(e.message)
    ensures r.httpCode == e.httpCode && r.errType == e.errType && r.code == e.code
    ensures r.rawErr == err
    ensures r.message == Sprintf(e.message, [f])
  {
    Err(e.httpCode, e.errType, e.code, Sprintf(e.message, [f]), err)
  }

  /** WithCodeAndMessage: the raw error is a new error whose text is the message. */
  function WithCodeAndMessage(e: Err, code: string, msg: string): (r: Err)
    ensures r.httpCode == e.httpCode && r.errType == e.errType
    ensures r.code == code && r.message == msg && r.rawErr == Some(msg)
  {
    Err(e.httpCode, e.errType, code, msg, Some(msg))
  }

  /** WithFmtAndRawErr is WithFmt followed by WithRawErr. */
  lemma FmtAndRawErrComposes(e: Err, f: string, err: Option<string>)
    requires SimpleFormat(e.message)
    ensures WithFmtAndRawErr(e, f, err) == WithRawErr(WithFmt(e, f), err)
  {
  }

  /** The raw error never affects what the client sees: WithRawErr changes no serialised field. */
  lemma RawErrIsHidden(e: Err, err: Option<string>)
    ensures WithRawErr(e, err).(rawErr := e.rawErr) == e
  {
  }

  /** On a template, WithFmt puts its argument in place of the verb and keeps the rest of the message. */
  lemma WithFmtFillsTemplate(e: Err, f: string) returns (p: string, q: string)
    requires Templated(e.message)
    ensures SimpleFormat(e.message)
    ensures e.message == p + "%s" + q && WithFmt(e, f).message == p + f + q
  {
    p, q := TemplateApply(e.message, f);
  }

  /** On a message without `%`, WithFmt keeps the message and appends Go's extra-argument report. */
  lemma WithFmtOnPlainMessage(e: Err, f: string)
    requires '%' !in e.message
    ensures SimpleFormat(e.message)
    ensures WithFmt(e, f).message == e.message + "%!(EXTRA string=" + f + ")"
  {
    NoVerbExtra(e.message, f);
  }

  /** A `*Err`: the two pointer-receiver methods change the record in place. */
  class ErrRef {
    var err: Err

    constructor (e: Err)
      ensures err == e
    {
      err := e;
    }

    /** WrapError: sets the raw error and returns the receiver itself. */
    method WrapError(raw: Option<string>) returns (self: ErrRef)
      modifies this`err
      ensures self == this
      ensures err == old(err).(rawErr := raw)
    {
      err := err.(rawErr := raw);
      self := this;
    }

    /** WithFormat: replaces the message by the formatted text and returns the receiver itself. */
    method WithFormat(format: string, args: seq<string>) returns (self: ErrRef)
      requires SimpleFormat(format)
      modifies this`err
      ensures self == this
      ensures err == old(err).(message := Sprintf(format, args))
    {
      err := err.(message := Sprintf(format, args));
      self := this;
    }
  }
}
