/**
 * pkg/speech/listener.go: the records exchanged with the client and the
 * StreamListener that turns the recognition engine's callbacks into outbound
 * status frames, queued results and completion signalling.
 *
 * The WebSocket connection is a `Conn` object that logs every frame handed to
 * WriteJSON; channels are sequences the callbacks append to, and closing the
 * `Complete` channel is a flag.
 */
module Listener {
  import opened Common

  /** One per-word entry of the engine's answer (`soe.WordRsp`), kept opaque. */
  datatype WordRsp = WordRsp(word: string, pronAccuracy: real, pronFluency: real)

  /** The part of the engine's `SpeakingAssessmentResponse` the listener reads. */
  datatype SentenceInfo = SentenceInfo(
    suggestedScore: real,
    words: seq<WordRsp>,
    pronAccuracy: real,
    pronFluency: real,
    pronCompletion: real)

  datatype EngineResponse = EngineResponse(voiceId: string, result: SentenceInfo)

  /** AssessmentRequest: the client's configuration frame. */
  datatype AssessmentRequest = AssessmentRequest(
    refText: string,
    serverEngineType: string,
    scoreCoeff: real,
    evalMode: int,
    textMode: int,
    isSaveAudioFile: bool)

  /** SOEResult: the scores forwarded to the client. */
  datatype SOEResult = SOEResult(
    overallScore: real,
    words: seq<WordRsp>,
    pronAccuracy: real,
    pronFluency: real,
    pronCompletion: real)

  /** AssessmentResponse: one outbound frame; `error` is "" when the frame carries no error. */
  datatype AssessmentResponse = AssessmentResponse(status: string, result: Option<SOEResult>, error: string)

  const StatusStart := "start"
  const StatusIntermediate := "intermediate"
  const StatusComplete := "complete"
  const StatusError := "error"

  /** Capacities of ResultChan and ErrorChan. */
  const ResultChanCapacity: nat := 10
  const ErrorChanCapacity: nat := 1

  /** A frame that ends a session for the client. */
  predicate Terminal(r: AssessmentResponse)
  {
    r.status == StatusComplete || r.status == StatusError
  }

  /** The number of terminal frames in a log. */
  function TerminalCount(log: seq<AssessmentResponse>): nat
  {
    if log == [] then 0
    else TerminalCount(log[..|log| - 1]) + (if Terminal(log[|log| - 1]) then 1 else 0)
  }

  /** Appending a frame adds one to the terminal count exactly when the frame is terminal. */
  lemma TerminalCountAppend(log: seq<AssessmentResponse>, from: nat, r: AssessmentResponse)
    requires from <= |log|
    ensures TerminalCount((log + [r])[from..]) == TerminalCount(log[from..]) + (if Terminal(r) then 1 else 0)
  {
    assert (log + [r])[from..] == log[from..] + [r];
    assert (log[from..] + [r])[..|log[from..] + [r]| - 1] == log[from..];
  }

  /** The SOEResult the listener builds from an engine answer: the five scores, copied. */
  function ResultOf(info: SentenceInfo): (r: SOEResult)
    ensures r.overallScore == info.suggestedScore && r.words == info.words
    ensures r.pronAccuracy == info.pronAccuracy && r.pronFluency == info.pronFluency
    ensures r.pronCompletion == info.pronCompletion
  {
    SOEResult(info.suggestedScore, info.words, info.pronAccuracy, info.pronFluency, info.pronCompletion)
  }

  /** The frame sendResponse builds: the error text is present exactly when there is an error. */
  function ResponseOf(status: string, result: Option<SOEResult>, err: Option<string>): (r: AssessmentResponse)
    ensures r.status == status && r.result == result
    ensures err.None? ==> r.error == ""
    ensures err.Some? ==> r.error == err.value
  {
    AssessmentResponse(status, result, if err.Some? then err.value else "")
  }

  /** The client side of the WebSocket connection: every WriteJSON call is logged. */
  class Conn {
    /** Frames handed to WriteJSON, in order. */
    var sent: seq<AssessmentResponse>
    /** The outcome of every write (an injected transport failure). */
    const writeError: Option<string>

    constructor (writeError: Option<string>)
      ensures sent == [] && this.writeError == writeError
    {
      sent := [];
      this.writeError := writeError;
    }

    /** WriteJSON: one frame per call; a failure is reported to the caller. */
    method WriteJSON(r: AssessmentResponse) returns (err: Option<string>)
      modifies this`sent
      ensures sent == old(sent) + [r]
      ensures err == writeError
    {
      sent := sent + [r];
      err := writeError;
    }
  }

  class StreamListener {
    var conn: Conn?
    /** ResultChan's buffered contents. */
    var results: seq<SOEResult>
    /** ErrorChan's buffered contents. */
    var errors: seq<string>
    /** Whether `Complete` has been closed. */
    var completeClosed: bool
    const resultCapacity: nat
    const errorCapacity: nat

    /** The length of the connection's log when the listener was made. */
    ghost const sentBefore: nat

    /**
     * Listener frames on the connection: at most one terminal frame, and none
     * before `Complete` is closed.
     */
    ghost predicate Valid()
      reads this, conn
    {
      conn != null ==>
        && sentBefore <= |conn.sent|
        && TerminalCount(conn.sent[sentBefore..]) <= (if completeClosed then 1 else 0)
    }

    /** NewStreamListener. */
    constructor (conn: Conn?)
      ensures this.conn == conn && Valid()
      ensures results == [] && errors == [] && !completeClosed
      ensures resultCapacity == ResultChanCapacity && errorCapacity == ErrorChanCapacity
    {
      this.conn := conn;
      results := [];
      errors := [];
      completeClosed := false;
      resultCapacity := ResultChanCapacity;
      errorCapacity := ErrorChanCapacity;
      sentBefore := if conn == null then 0 else |conn.sent|;
    }

    /** sendResponse: one write attempt when there is a connection, none otherwise; failures are only logged. */
    method SendResponse(status: string, result: Option<SOEResult>, err: Option<string>)
      modifies conn
      ensures conn != null ==> conn.sent == old(conn.sent) + [ResponseOf(status, result, err)]
    {
      if conn == null {
        return;
      }
      var response := ResponseOf(status, result, err);
      var writeErr := conn.WriteJSON(response);
      // a failed write is logged and otherwise ignored
    }

    /** `ErrorChan <- err`. */
    method SendError(err: string)
      modifies this`errors
      ensures errors == old(errors) + [err]
    {
      errors := errors + [err];
    }

    /** OnRecognitionStart: a single "start" frame without result or error. */
    method OnRecognitionStart(response: EngineResponse)
      requires Valid()
      modifies conn
      ensures Valid()
      ensures conn != null ==> conn.sent == old(conn.sent) + [AssessmentResponse(StatusStart, None, "")]
    {
      SendResponse(StatusStart, None, None);
      if conn != null {
        TerminalCountAppend(old(conn.sent), sentBefore, AssessmentResponse(StatusStart, None, ""));
      }
    }

    /** OnIntermediateResults: with words, queue the result and send it; without, do nothing. */
    method OnIntermediateResults(response: EngineResponse)
      requires Valid()
      modifies this`results, conn
      ensures Valid()
      ensures response.result.words == [] ==> results == old(results) && (conn != null ==> conn.sent == old(conn.sent))
      ensures response.result.words != [] ==>
        && results == old(results) + [ResultOf(response.result)]
        && (conn != null ==> conn.sent == old(conn.sent) + [AssessmentResponse(StatusIntermediate, Some(ResultOf(response.result)), "")])
    {
      if |response.result.words| > 0 {
        var result := ResultOf(response.result);
        results := results + [result];
        SendResponse(StatusIntermediate, Some(result), None);
        if conn != null {
          TerminalCountAppend(old(conn.sent), sentBefore, AssessmentResponse(StatusIntermediate, Some(result), ""));
        }
      }
    }

    /** OnRecognitionComplete: a "complete" frame only when there are words; always closes `Complete`. */
    method OnRecognitionComplete(response: EngineResponse)
      requires Valid() && !completeClosed
      modifies this`results, this`completeClosed, conn
      ensures Valid() && completeClosed
      ensures response.result.words == [] ==> results == old(results) && (conn != null ==> conn.sent == old(conn.sent))
      ensures response.result.words != [] ==>
        && results == old(results) + [ResultOf(response.result)]
        && (conn != null ==> conn.sent == old(conn.sent) + [AssessmentResponse(StatusComplete, Some(ResultOf(response.result)), "")])
    {
      if |response.result.words| > 0 {
        var result := ResultOf(response.result);
        results := results + [result];
        SendResponse(StatusComplete, Some(result), None);
        completeClosed := true;
        if conn != null {
          TerminalCountAppend(old(conn.sent), sentBefore, AssessmentResponse(StatusComplete, Some(result), ""));
        }
      }
      completeClosed := true;
    }

    /** OnFail: queue the error, send an "error" frame with its text, close `Complete`. */
    method OnFail(response: EngineResponse, err: string)
      requires Valid() && !completeClosed
      modifies this`errors, this`completeClosed, conn
      ensures Valid() && completeClosed
      ensures errors == old(errors) + [err]
      ensures conn != null ==> conn.sent == old(conn.sent) + [AssessmentResponse(StatusError, None, err)]
    {
      SendError(err);
      SendResponse(StatusError, None, Some(err));
      completeClosed := true;
      if conn != null {
        TerminalCountAppend(old(conn.sent), sentBefore, AssessmentResponse(StatusError, None, err));
      }
    }
  }
}
