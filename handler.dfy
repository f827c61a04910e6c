/**
 * api/handler/soe.go: the word-versus-sentence heuristic, the normalisation of
 * the configuration frame, the inbound frame loop of StreamAssessment and the
 * session's early exits.
 *
 * The recognition engine (the Tencent SDK recognizer) is a `Recognizer` object
 * that records every Start, Write and Stop call and answers them with
 * injected outcomes. Inbound WebSocket reads are a finite sequence of
 * `Inbound` values; running out of them means the reader is still waiting.
 */
module Handler {
  import opened Common
  import opened GoStrings
  import opened Listener

  // ---------------------------------------------------------------------
  // isSentence

  /** The sentence-ending characters isSentence looks for. */
  const SentencePunctuation: string := ".?!"

  /** The text reads as a sentence: punctuation, a space, or an upper-case rune after the first. */
  predicate Sentence(s: string)
  {
    || ContainsAny(s, SentencePunctuation)
    || ' ' in s
    || exists i :: 1 <= i < |s| && IsUpper(s[i])
  }

  /** isSentence. */
  method IsSentence(s: string) returns (b: bool)
    ensures b == Sentence(s)
  {
    if ContainsAny(s, SentencePunctuation) {
      return true;
    }
    if ' ' in s {
      return true;
    }
    var runes := s;
    if |runes| > 1 {
      for i := 1 to |runes|
        invariant forall k :: 1 <= k < i ==> !IsUpper(runes[k])
      {
        if IsUpper(runes[i]) {
          return true;
        }
      }
    }
    return false;
  }

  /** A run of lower-case letters (or an empty text) is a word, whatever its length. */
  lemma LowercaseIsWord(s: string)
    requires forall k :: 0 <= k < |s| ==> IsLower(s[k])
    ensures !Sentence(s)
  {
  }

  /** An upper-case first letter alone does not make a sentence; one further on does. */
  lemma SentenceExamples()
    ensures !Sentence("cat") && !Sentence("Cat") && !Sentence("")
    ensures Sentence("iPhone") && Sentence("The cat sat.")
  {
    assert IsUpper("iPhone"[1]);
    assert "The cat sat."[3] == ' ';
  }

  // ---------------------------------------------------------------------
  // Normalisation of the configuration frame

  /** The request after the handler's two overrides. */
  function Normalized(req: AssessmentRequest): (r: AssessmentRequest)
    ensures r.scoreCoeff > 0.0
    ensures req.scoreCoeff > 0.0 ==> r.scoreCoeff == req.scoreCoeff
    ensures req.scoreCoeff <= 0.0 ==> r.scoreCoeff == 1.0
    ensures Sentence(req.refText) ==> r.evalMode == 1
    ensures !Sentence(req.refText) ==> r.evalMode == req.evalMode
    ensures r.(scoreCoeff := req.scoreCoeff, evalMode := req.evalMode) == req
  {
    req.(scoreCoeff := if req.scoreCoeff <= 0.0 then 1.0 else req.scoreCoeff,
         evalMode := if Sentence(req.refText) then 1 else req.evalMode)
  }

  /** Normalising twice changes nothing more. */
  lemma NormalizedIdempotent(req: AssessmentRequest)
    ensures Normalized(Normalized(req)) == Normalized(req)
  {
  }

  /** Lines 71-77 of the handler: the request fields are overridden in place. */
  method NormalizeRequest(req: AssessmentRequest) returns (r: AssessmentRequest)
    ensures r == Normalized(req)
  {
    r := req;
    if r.scoreCoeff <= 0.0 {
      r := r.(scoreCoeff := 1.0);
    }
    var sentence := IsSentence(r.refText);
    if sentence {
      r := r.(evalMode := 1);
    }
  }

  // ---------------------------------------------------------------------
  // The recognition engine

  /** The recognizer fields the handler sets from the request. */
  datatype EngineSettings = EngineSettings(
    refText: string,
    serverEngineType: string,
    scoreCoeff: real,
    evalMode: int,
    textMode: int)

  function SettingsOf(req: AssessmentRequest): EngineSettings
  {
    EngineSettings(req.refText, req.serverEngineType, req.scoreCoeff, req.evalMode, req.textMode)
  }

  /** The outcome of the `k`-th Write: scripted, and success beyond the script. */
  function WriteOutcome(script: seq<Option<string>>, k: nat): Option<string>
  {
    if k < |script| then script[k] else None
  }

  /** The engine's recognizer: records the calls it receives. */
  class Recognizer {
    var settings: Option<EngineSettings>
    var started: bool
    /** Every audio frame handed to Write, in order. */
    var writes: seq<Bytes>
    var stopCalls: nat
    /** Injected outcomes: of Start, and of the successive Writes. */
    const startError: Option<string>
    const writeScript: seq<Option<string>>

    /** soe.NewSpeechRecognizer. */
    constructor (startError: Option<string>, writeScript: seq<Option<string>>)
      ensures settings == None && !started && writes == [] && stopCalls == 0
      ensures this.startError == startError && this.writeScript == writeScript
    {
      settings := None;
      started := false;
      writes := [];
      stopCalls := 0;
      this.startError := startError;
      this.writeScript := writeScript;
    }

    method Configure(s: EngineSettings)
      modifies this`settings
      ensures settings == Some(s)
    {
      settings := Some(s);
    }

    method Start() returns (err: Option<string>)
      modifies this`started
      ensures err == startError && started == startError.None?
    {
      err := startError;
      started := startError.None?;
    }

    method Write(data: Bytes) returns (err: Option<string>)
      modifies this`writes
      ensures writes == old(writes) + [data]
      ensures err == WriteOutcome(writeScript, |old(writes)|)
    {
      err := WriteOutcome(writeScript, |writes|);
      writes := writes + [data];
    }

    /** Stop tolerates being called more than once: every call is only counted. */
    method Stop()
      modifies this`stopCalls
      ensures stopCalls == old(stopCalls) + 1
    {
      stopCalls := stopCalls + 1;
    }
  }

  // ---------------------------------------------------------------------
  // The inbound frame loop

  /** gorilla/websocket's message types: the RFC 6455 opcodes of text and binary frames. */
  const TextMessage: int := 1
  const BinaryMessage: int := 2

  /** One `conn.ReadMessage()` result. */
  datatype Inbound = Message(kind: int, payload: Bytes) | ReadFailure(err: string)

  /** How the reader loop ended; `Reading` means it is still waiting for a frame. */
  datatype ReaderExit = Reading | EndOfStream | ReadFailed(err: string) | WriteFailed(err: string)

  /**
   * The loop's observable state: frames consumed, `totalBytes`, `audioChunks`,
   * Stop calls and ErrorChan sends made by the loop, and how it ended.
   */
  datatype Reader = Reader(
    consumed: nat,
    totalBytes: nat,
    chunks: seq<Bytes>,
    stops: nat,
    errors: seq<string>,
    exit: ReaderExit)

  const ReaderStart := Reader(0, 0, [], 0, [], Reading)

  /**
   * One iteration of the loop. `isEnd` is the decoding of a text frame as
   * `{"type":"end"}`; `base` is the number of Writes made before the loop.
   */
  function Step(st: Reader, f: Inbound, isEnd: Bytes -> bool, script: seq<Option<string>>, base: nat): Reader
    requires st.exit == Reading
  {
    match f
    case ReadFailure(e) =>
      st.(consumed := st.consumed + 1, errors := st.errors + [e], exit := ReadFailed(e))
    case Message(kind, data) =>
      if kind == TextMessage then
        if isEnd(data) then st.(consumed := st.consumed + 1, stops := st.stops + 1, exit := EndOfStream)
        else st.(consumed := st.consumed + 1)
      else if kind != BinaryMessage then st.(consumed := st.consumed + 1)
      else
        var next := st.(consumed := st.consumed + 1, totalBytes := st.totalBytes + |data|, chunks := st.chunks + [data]);
        match WriteOutcome(script, base + |st.chunks|)
        case Some(e) => next.(errors := st.errors + [e], exit := WriteFailed(e))
        case None => next
  }

  /** The loop from frame `i` on, in state `st`. */
  function Run(frames: seq<Inbound>, i: nat, st: Reader, isEnd: Bytes -> bool, script: seq<Option<string>>, base: nat): Reader
    requires i <= |frames|
    decreases |frames| - i
  {
    if i == |frames| || st.exit != Reading then st
    else Run(frames, i + 1, Step(st, frames[i], isEnd, script, base), isEnd, script, base)
  }

  /** The reader loop over a whole sequence of reads. */
  function ReadLoop(frames: seq<Inbound>, isEnd: Bytes -> bool, script: seq<Option<string>>, base: nat): Reader
  {
    Run(frames, 0, ReaderStart, isEnd, script, base)
  }

  /** The payloads of the binary frames among `frames`, in order. */
  function Binaries(frames: seq<Inbound>): seq<Bytes>
  {
    if frames == [] then []
    else
      var last := frames[|frames| - 1];
      Binaries(frames[..|frames| - 1])
      + (if last.Message? && last.kind == BinaryMessage then [last.payload] else [])
  }

  /** A text frame that decodes to the end message. */
  predicate IsEndFrame(f: Inbound, isEnd: Bytes -> bool)
  {
    f.Message? && f.kind == TextMessage && isEnd(f.payload)
  }

  /** The Writes numbered `base` to `base + n - 1` all succeed. */
  predicate WritesSucceeded(script: seq<Option<string>>, base: nat, n: nat)
  {
    forall k :: base <= k < base + n ==> WriteOutcome(script, k).None?
  }

  /** What the loop has done after consuming `frames[..st.consumed]`. */
  predicate Inv(frames: seq<Inbound>, st: Reader, isEnd: Bytes -> bool, script: seq<Option<string>>, base: nat)
  {
    var n := st.consumed;
    && n <= |frames|
    && st.chunks == Binaries(frames[..n])
    && st.totalBytes == TotalLength(st.chunks)
    && (st.exit == Reading ==>
          && st.stops == 0 && st.errors == []
          && (forall k :: 0 <= k < n ==> !frames[k].ReadFailure? && !IsEndFrame(frames[k], isEnd))
          && WritesSucceeded(script, base, |st.chunks|))
    && (st.exit == EndOfStream ==>
          n > 0 && IsEndFrame(frames[n - 1], isEnd) && st.stops == 1 && st.errors == []
          && WritesSucceeded(script, base, |st.chunks|))
    && (st.exit.ReadFailed? ==>
          n > 0 && frames[n - 1] == ReadFailure(st.exit.err) && st.stops == 0 && st.errors == [st.exit.err]
          && WritesSucceeded(script, base, |st.chunks|))
    && (st.exit.WriteFailed? ==>
          && n > 0 && st.chunks != [] && frames[n - 1] == Message(BinaryMessage, st.chunks[|st.chunks| - 1])
          && WriteOutcome(script, base + |st.chunks| - 1) == Some(st.exit.err)
          && WritesSucceeded(script, base, |st.chunks| - 1)
          && st.stops == 0 && st.errors == [st.exit.err])
  }

  /** A binary frame adds its payload to the chunks and is written. */
  lemma StepKeepsBinary(frames: seq<Inbound>, st: Reader, isEnd: Bytes -> bool, script: seq<Option<string>>, base: nat)
    requires Inv(frames, st, isEnd, script, base) && st.exit == Reading && st.consumed < |frames|
    requires frames[st.consumed].Message? && frames[st.consumed].kind == BinaryMessage
    ensures var next := Step(st, frames[st.consumed], isEnd, script, base);
      next.consumed == st.consumed + 1 && Inv(frames, next, isEnd, script, base)
  {
    if WriteOutcome(script, base + |st.chunks|).None? {
      StepKeepsWritten(frames, st, isEnd, script, base);
    } else {
      StepKeepsWriteFailed(frames, st, isEnd, script, base);
    }
  }

  /** The payloads read so far, after one more binary frame, and their total length. */
  lemma BinariesSnoc(frames: seq<Inbound>, n: nat)
    requires n < |frames| && frames[n].Message? && frames[n].kind == BinaryMessage
    ensures Binaries(frames[..n + 1]) == Binaries(frames[..n]) + [frames[n].payload]
    ensures TotalLength(Binaries(frames[..n + 1])) == TotalLength(Binaries(frames[..n])) + |frames[n].payload|
  {
    assert frames[..n + 1][..n] == frames[..n] && frames[..n + 1][n] == frames[n];
    var chunks := Binaries(frames[..n + 1]);
    assert chunks[..|chunks| - 1] == Binaries(frames[..n]);
  }

  /** One step on a binary frame: the payload is recorded, and a failed Write ends the loop. */
  lemma StepOnBinary(st: Reader, data: Bytes, isEnd: Bytes -> bool, script: seq<Option<string>>, base: nat)
    requires st.exit == Reading
    ensures var grown := st.(consumed := st.consumed + 1, totalBytes := st.totalBytes + |data|, chunks := st.chunks + [data]);
      var w := WriteOutcome(script, base + |st.chunks|);
      Step(st, Message(BinaryMessage, data), isEnd, script, base)
        == if w.Some? then grown.(errors := st.errors + [w.value], exit := WriteFailed(w.value)) else grown
  {
  }

  /** A binary frame whose Write succeeds keeps the loop reading. */
  lemma StepKeepsWritten(frames: seq<Inbound>, st: Reader, isEnd: Bytes -> bool, script: seq<Option<string>>, base: nat)
    requires Inv(frames, st, isEnd, script, base) && st.exit == Reading && st.consumed < |frames|
    requires frames[st.consumed].Message? && frames[st.consumed].kind == BinaryMessage
    requires WriteOutcome(script, base + |st.chunks|).None?
    ensures var next := Step(st, frames[st.consumed], isEnd, script, base);
      next.consumed == st.consumed + 1 && Inv(frames, next, isEnd, script, base)
  {
    var n := st.consumed;
    var data := frames[n].payload;
    BinariesSnoc(frames, n);
    var next := st.(consumed := n + 1, totalBytes := st.totalBytes + |data|, chunks := st.chunks + [data]);
    assert frames[n] == Message(BinaryMessage, data);
    StepOnBinary(st, data, isEnd, script, base);
    assert next.chunks == Binaries(frames[..n + 1]) && next.totalBytes == TotalLength(next.chunks);
    NoStopBefore(frames, n, isEnd);
    WritesExtend(script, base, |st.chunks|);
    InvOfReading(frames, next, isEnd, script, base);
  }

  /** A binary frame neither fails a read nor ends the stream. */
  lemma NoStopBefore(frames: seq<Inbound>, n: nat, isEnd: Bytes -> bool)
    requires n < |frames| && frames[n].Message? && frames[n].kind == BinaryMessage
    requires forall k :: 0 <= k < n ==> !frames[k].ReadFailure? && !IsEndFrame(frames[k], isEnd)
    ensures forall k :: 0 <= k < n + 1 ==> !frames[k].ReadFailure? && !IsEndFrame(frames[k], isEnd)
  {
  }

  /** One more successful Write. */
  lemma WritesExtend(script: seq<Option<string>>, base: nat, m: nat)
    requires WritesSucceeded(script, base, m) && WriteOutcome(script, base + m).None?
    ensures WritesSucceeded(script, base, m + 1)
  {
  }

  /** The invariant of a loop that is still reading, from its parts. */
  lemma InvOfReading(frames: seq<Inbound>, r: Reader, isEnd: Bytes -> bool, script: seq<Option<string>>, base: nat)
    requires r.exit == Reading && r.stops == 0 && r.errors == [] && r.consumed <= |frames|
    requires r.chunks == Binaries(frames[..r.consumed]) && r.totalBytes == TotalLength(r.chunks)
    requires forall k :: 0 <= k < r.consumed ==> !frames[k].ReadFailure? && !IsEndFrame(frames[k], isEnd)
    requires WritesSucceeded(script, base, |r.chunks|)
    ensures Inv(frames, r, isEnd, script, base)
  {
  }

  /** A binary frame whose Write fails ends the loop with that error. */
  lemma StepKeepsWriteFailed(frames: seq<Inbound>, st: Reader, isEnd: Bytes -> bool, script: seq<Option<string>>, base: nat)
    requires Inv(frames, st, isEnd, script, base) && st.exit == Reading && st.consumed < |frames|
    requires frames[st.consumed].Message? && frames[st.consumed].kind == BinaryMessage
    requires WriteOutcome(script, base + |st.chunks|).Some?
    ensures var next := Step(st, frames[st.consumed], isEnd, script, base);
      next.consumed == st.consumed + 1 && Inv(frames, next, isEnd, script, base)
  {
    var n := st.consumed;
    var data := frames[n].payload;
    var e := WriteOutcome(script, base + |st.chunks|).value;
    BinariesSnoc(frames, n);
    var next := st.(consumed := n + 1, totalBytes := st.totalBytes + |data|, chunks := st.chunks + [data],
                    errors := [e], exit := WriteFailed(e));
    assert frames[n] == Message(BinaryMessage, data);
    StepOnBinary(st, data, isEnd, script, base);
    assert next.chunks == Binaries(frames[..n + 1]) && next.totalBytes == TotalLength(next.chunks);
    assert next.chunks[|next.chunks| - 1] == data;
  }

  /** Any other frame leaves the chunks as they are. */
  lemma StepKeepsOther(frames: seq<Inbound>, st: Reader, isEnd: Bytes -> bool, script: seq<Option<string>>, base: nat)
    requires Inv(frames, st, isEnd, script, base) && st.exit == Reading && st.consumed < |frames|
    requires !(frames[st.consumed].Message? && frames[st.consumed].kind == BinaryMessage)
    ensures var next := Step(st, frames[st.consumed], isEnd, script, base);
      next.consumed == st.consumed + 1 && Inv(frames, next, isEnd, script, base)
  {
    var n := st.consumed;
    assert frames[..n + 1][..n] == frames[..n] && frames[..n + 1][n] == frames[n];
    assert Binaries(frames[..n + 1]) == st.chunks;
  }

  lemma StepKeeps(frames: seq<Inbound>, st: Reader, isEnd: Bytes -> bool, script: seq<Option<string>>, base: nat)
    requires Inv(frames, st, isEnd, script, base) && st.exit == Reading && st.consumed < |frames|
    ensures var next := Step(st, frames[st.consumed], isEnd, script, base);
      next.consumed == st.consumed + 1 && Inv(frames, next, isEnd, script, base)
  {
    if frames[st.consumed].Message? && frames[st.consumed].kind == BinaryMessage {
      StepKeepsBinary(frames, st, isEnd, script, base);
    } else {
      StepKeepsOther(frames, st, isEnd, script, base);
    }
  }

  lemma {:induction false} RunKeeps(frames: seq<Inbound>, i: nat, st: Reader, isEnd: Bytes -> bool, script: seq<Option<string>>, base: nat)
    requires i <= |frames| && st.consumed == i && Inv(frames, st, isEnd, script, base)
    ensures var r := Run(frames, i, st, isEnd, script, base);
      Inv(frames, r, isEnd, script, base) && (r.exit == Reading ==> r.consumed == |frames|)
    decreases |frames| - i
  {
    if i < |frames| && st.exit == Reading {
      StepKeeps(frames, st, isEnd, script, base);
      RunKeeps(frames, i + 1, Step(st, frames[i], isEnd, script, base), isEnd, script, base);
    }
  }

  /**
   * Binary frames reach Write unmodified and in arrival order: the chunks are
   * exactly the binary payloads read, and `totalBytes` is their total length.
   */
  lemma ReaderForwardsBinaryFrames(frames: seq<Inbound>, isEnd: Bytes -> bool, script: seq<Option<string>>, base: nat)
    ensures var r := ReadLoop(frames, isEnd, script, base);
      r.consumed <= |frames| && r.chunks == Binaries(frames[..r.consumed]) && r.totalBytes == TotalLength(r.chunks)
  {
    RunKeeps(frames, 0, ReaderStart, isEnd, script, base);
  }

  /**
   * The loop ends at the first end frame (one Stop, no error), at the first
   * read error or at the first failing Write (the error is sent to ErrorChan
   * and the failing frame has already been counted); otherwise it has read
   * every frame and is still waiting.
   */
  lemma ReaderExits(frames: seq<Inbound>, isEnd: Bytes -> bool, script: seq<Option<string>>, base: nat)
    ensures var r := ReadLoop(frames, isEnd, script, base);
      && r.consumed <= |frames|
      && (r.exit == Reading ==> r.consumed == |frames| && r.stops == 0 && r.errors == [])
      && (r.exit == Reading ==> forall k :: 0 <= k < |frames| ==> !frames[k].ReadFailure? && !IsEndFrame(frames[k], isEnd))
      && (r.exit == EndOfStream ==> r.consumed > 0 && IsEndFrame(frames[r.consumed - 1], isEnd) && r.stops == 1 && r.errors == [])
      && (r.exit.ReadFailed? ==> r.consumed > 0 && frames[r.consumed - 1] == ReadFailure(r.exit.err) && r.stops == 0 && r.errors == [r.exit.err])
      && (r.exit.WriteFailed? ==>
            && r.consumed > 0 && r.chunks != []
            && frames[r.consumed - 1] == Message(BinaryMessage, r.chunks[|r.chunks| - 1])
            && WriteOutcome(script, base + |r.chunks| - 1) == Some(r.exit.err)
            && r.stops == 0 && r.errors == [r.exit.err])
      && (r.exit != Reading ==> WritesSucceeded(script, base, |r.chunks| - (if r.exit.WriteFailed? then 1 else 0)))
  {
    RunKeeps(frames, 0, ReaderStart, isEnd, script, base);
  }

  /** Before the frame that ends the loop, no frame could have ended it. */
  lemma {:induction false} RunStopsAtFirstTerminal(frames: seq<Inbound>, i: nat, st: Reader, isEnd: Bytes -> bool, script: seq<Option<string>>, base: nat)
    requires i <= |frames| && st.consumed == i && Inv(frames, st, isEnd, script, base)
    ensures var r := Run(frames, i, st, isEnd, script, base);
      r.consumed <= |frames| && (r.exit.WriteFailed? ==> r.chunks != []) &&
      (st.exit == Reading && r.exit != Reading ==>
        forall k :: 0 <= k < r.consumed - 1 ==> !frames[k].ReadFailure? && !IsEndFrame(frames[k], isEnd)) &&
      (st.exit == Reading && r.exit != Reading ==>
        WritesSucceeded(script, base, |r.chunks| - (if r.exit.WriteFailed? then 1 else 0)))
    decreases |frames| - i
  {
    RunKeeps(frames, i, st, isEnd, script, base);
    if i < |frames| && st.exit == Reading {
      StepKeeps(frames, st, isEnd, script, base);
      var next := Step(st, frames[i], isEnd, script, base);
      RunStopsAtFirstTerminal(frames, i + 1, next, isEnd, script, base);
    }
  }

  /** Once the loop has ended, nothing further is read: later frames change nothing. */
  lemma {:induction false} RunIgnoresLaterFrames(frames: seq<Inbound>, more: seq<Inbound>, i: nat, st: Reader, isEnd: Bytes -> bool, script: seq<Option<string>>, base: nat)
    requires i <= |frames|
    requires Run(frames, i, st, isEnd, script, base).exit != Reading
    ensures Run(frames + more, i, st, isEnd, script, base) == Run(frames, i, st, isEnd, script, base)
    decreases |frames| - i
  {
    if st.exit == Reading {
      assert i < |frames|;
      assert (frames + more)[i] == frames[i];
      RunIgnoresLaterFrames(frames, more, i + 1, Step(st, frames[i], isEnd, script, base), isEnd, script, base);
    }
  }

  /** After an end frame, a read error or a failed Write, no further frame is read. */
  lemma ReaderEndsForGood(frames: seq<Inbound>, more: seq<Inbound>, isEnd: Bytes -> bool, script: seq<Option<string>>, base: nat)
    requires ReadLoop(frames, isEnd, script, base).exit != Reading
    ensures ReadLoop(frames + more, isEnd, script, base) == ReadLoop(frames, isEnd, script, base)
  {
    RunIgnoresLaterFrames(frames, more, 0, ReaderStart, isEnd, script, base);
  }

  /** The goroutine in StreamAssessment that reads frames until the session's end. */
  method ReaderLoop(frames: seq<Inbound>, isEnd: Bytes -> bool, recognizer: Recognizer, listener: StreamListener)
    returns (consumed: nat, totalBytes: nat, audioChunks: seq<Bytes>, exit: ReaderExit)
    modifies recognizer`writes, recognizer`stopCalls, listener`errors
    ensures var r := ReadLoop(frames, isEnd, recognizer.writeScript, |old(recognizer.writes)|);
      && consumed == r.consumed && totalBytes == r.totalBytes && audioChunks == r.chunks && exit == r.exit
      && recognizer.writes == old(recognizer.writes) + r.chunks
      && recognizer.stopCalls == old(recognizer.stopCalls) + r.stops
      && listener.errors == old(listener.errors) + r.errors
  {
    ghost var base := |recognizer.writes|;
    ghost var script := recognizer.writeScript;
    consumed, totalBytes, audioChunks, exit := 0, 0, [], Reading;
    while consumed < |frames|
      invariant consumed <= |frames|
      invariant ReadLoop(frames, isEnd, script, base)
        == Run(frames, consumed, Reader(consumed, totalBytes, audioChunks, 0, [], Reading), isEnd, script, base)
      invariant recognizer.writes == old(recognizer.writes) + audioChunks
      invariant recognizer.stopCalls == old(recognizer.stopCalls)
      invariant listener.errors == old(listener.errors)
      invariant exit == Reading
      decreases |frames| - consumed
    {
      var frame := frames[consumed];
      consumed := consumed + 1;
      match frame
      case ReadFailure(err) =>
        listener.SendError(err);
        exit := ReadFailed(err);
        return;
      case Message(messageType, message) =>
        if messageType == TextMessage {
          if isEnd(message) {
            recognizer.Stop();
            exit := EndOfStream;
            return;
          }
          continue;
        }
        if messageType != BinaryMessage {
          continue;
        }
        totalBytes := totalBytes + |message|;
        audioChunks := audioChunks + [message];
        var err := recognizer.Write(message);
        if err.Some? {
          listener.SendError(err.value);
          exit := WriteFailed(err.value);
          return;
        }
    }
  }

  // ---------------------------------------------------------------------
  // The session

  /** How StreamAssessment ended. */
  datatype SessionEnd =
    | InitialReadFailed(err: string)
    | ConfigRejected
    | StartFailed(err: string)
    | Streamed(exit: ReaderExit)

  const InvalidConfiguration := "Invalid configuration"

  /**
   * StreamAssessment after the WebSocket upgrade, with the goroutine's loop run
   * to its end and the deferred Stop applied. `decodeConfig` is the JSON
   * decoding of the configuration frame; `startError` and `writeScript` are the
   * recognizer's injected outcomes.
   */
  method StreamAssessment(
    conn: Conn, first: Inbound, decodeConfig: Bytes -> Option<AssessmentRequest>,
    startError: Option<string>, writeScript: seq<Option<string>>,
    frames: seq<Inbound>, isEnd: Bytes -> bool)
    returns (outcome: SessionEnd, recognizer: Recognizer?, listener: StreamListener?)
    modifies conn
    ensures first.ReadFailure? ==>
      outcome == InitialReadFailed(first.err) && recognizer == null && conn.sent == old(conn.sent)
    ensures first.Message? && decodeConfig(first.payload).None? ==>
      && outcome == ConfigRejected && recognizer == null
      && conn.sent == old(conn.sent) + [AssessmentResponse(StatusError, None, InvalidConfiguration)]
    ensures first.Message? && decodeConfig(first.payload).Some? ==>
      && recognizer != null && fresh(recognizer) && listener != null && fresh(listener)
      && listener.conn == conn
      && recognizer.settings == Some(SettingsOf(Normalized(decodeConfig(first.payload).value)))
    ensures first.Message? && decodeConfig(first.payload).Some? && startError.Some? ==>
      && outcome == StartFailed(startError.value) && recognizer != null
      && conn.sent == old(conn.sent) + [AssessmentResponse(StatusError, None, startError.value)]
      && recognizer.writes == [] && recognizer.stopCalls == 0
    ensures first.Message? && decodeConfig(first.payload).Some? && startError.None? ==>
      var r := ReadLoop(frames, isEnd, writeScript, 0);
      && outcome == Streamed(r.exit) && recognizer != null && listener != null
      && recognizer.writes == r.chunks
      && recognizer.stopCalls == r.stops + 1
      && (r.exit == EndOfStream ==> recognizer.stopCalls == 2)
      && (r.exit != EndOfStream ==> recognizer.stopCalls == 1)
      && listener.errors == r.errors
      && conn.sent == old(conn.sent)
  {
    recognizer, listener := null, null;
    if first.ReadFailure? {
      return InitialReadFailed(first.err), recognizer, listener;
    }
    var parsed := decodeConfig(first.payload);
    if parsed.None? {
      var _ := conn.WriteJSON(AssessmentResponse(StatusError, None, InvalidConfiguration));
      return ConfigRejected, recognizer, listener;
    }
    var req := NormalizeRequest(parsed.value);

    listener := new StreamListener(conn);
    recognizer := new Recognizer(startError, writeScript);
    recognizer.Configure(SettingsOf(req));

    var err := recognizer.Start();
    if err.Some? {
      var _ := conn.WriteJSON(AssessmentResponse(StatusError, None, err.value));
      return StartFailed(err.value), recognizer, listener;
    }

    var consumed, totalBytes, audioChunks, exit := ReaderLoop(frames, isEnd, recognizer, listener);
    ReaderExits(frames, isEnd, writeScript, 0);
    // the deferred cleanup
    recognizer.Stop();
    outcome := Streamed(exit);
  }
}
