# Lingolift core, modelled in Dafny

Lingolift is a Go web service that scores a learner's spoken English. The
audio is streamed over a WebSocket to the Tencent speaking-assessment engine.
This project models the service's own logic around that engine and proves
properties of it:

- **Evaluation-mode detection** (`pkg/speech/types.go`, module `EvalMode`).
  The reference text's language is detected, its words are counted, and the
  first rule of `modeRules` that accepts it is returned. Go's map iteration
  order is unspecified, so the order is a parameter, and the proofs hold for
  every order.
- **The stream listener** (`pkg/speech/listener.go`, module `Listener`). The
  engine's callbacks become frames sent to the client, queued results and
  errors, and the closing of `Complete`.
- **The assessment handler** (`api/handler/soe.go`, module `Handler`). This
  covers the word-versus-sentence heuristic `isSentence`, the normalisation of
  the configuration frame, the session's early exits and the inbound frame
  loop. The loop stops the engine on an end frame, reports a read error,
  forwards binary frames to the engine unmodified and stops at the first
  failing Write.
- **Error values** (`errno/errno.go` and `errno/const.go`, modules `Errno`,
  `ErrnoTable` and `GoFmt`). This covers the `Err` record and its builders,
  and the table of predefined errors with their status codes, types and
  message templates. It also includes enough of `fmt.Sprintf` (`%s`, `%%`,
  missing and extra arguments) to state what `WithFmt` produces.
- **The request middleware** (`api/middleware/action.go`, module
  `Middleware`). This covers the parameter extraction for the access log, the
  Action/Version context keys, the paths that skip authentication and the
  disabled header check.
- **Configuration loading** (`config/config.go`, module `Config`). This
  covers resolving the server IP, defaulting the HTTP timeouts, and
  publishing the configuration as `G` and `ServerNodeIP` only after the check
  succeeds.
- **Logger construction** (`pkg/log/logger.go`, module `Log`). This covers the
  option defaults and the ordered setters, the log-file names, the output
  paths, and which core accepts which level. It includes zap's `int8` level
  arithmetic.

The support modules are:

- `Common`: `Option`, bytes, and the total length of a list of chunks.
- `GoStrings`: Go's `strings.Contains`, `ContainsAny`, `TrimSpace` and
  `Fields` counting, plus deletion of a byte.

Foreign calls become inputs:

- the WebSocket reads;
- the JSON decoding of the configuration and end frames;
- gjson's lookup of a key in a body;
- the YAML decoding;
- `os.ReadFile` and `net.IntranetIP`;
- the outcomes of the engine's `Start` and `Write`.

The engine's recognizer is an object that records the calls it receives.
Channels are sequences that the code appends to.

## Model

| member | source | states |
|---|---|---|
| EvalMode.DetectLanguage | pkg/speech/types.go:140-150 | The rune scan returns the language of the first rune that is Han ("zh") or a lower-case letter ("en"), and "" when there is none. |
| EvalMode.LanguageOfFirstDecisive | pkg/speech/types.go:141-147 | The first Han or lower-case rune decides the language, whatever comes after it. |
| EvalMode.LanguageOfNoDecisive | pkg/speech/types.go:149 | A text without a Han or lower-case rune has language "". |
| EvalMode.LanguageOfRange | pkg/speech/types.go:140-150 | The language is always "zh", "en" or "". |
| EvalMode.CountWords | pkg/speech/types.go:153-160 | English counts `strings.Fields`, Chinese counts runes, any other language counts 0. The count never exceeds the text's length. |
| EvalMode.CheckWordCount | pkg/speech/types.go:163-171 | A count is rejected exactly when it is below a positive minimum or above a positive maximum. A bound of 0 means "no bound". |
| EvalMode.Candidates | pkg/speech/types.go:85-91 | The candidate modes are those of the iteration order whose rule has the text's language. |
| EvalMode.RuleAccepts | pkg/speech/types.go:97-133 | One pass of the scan returns true exactly when no `continue` fires: word count, space, real-time, branch and free-talk conditions. |
| EvalMode.FirstVerdict | pkg/speech/types.go:94-136 | The result is 0 or a candidate whose rule accepts. It is 0 when no candidate accepts. |
| EvalMode.DetectEvalMode | pkg/speech/types.go:71-137 | For every iteration order over `modeRules`, the method returns the first candidate, in that order, whose rule accepts the trimmed text, and 0 otherwise. |
| EvalMode.CandidatesEnglish | pkg/speech/types.go:34-68 | Only the four English rules exist, so a non-English text has no candidate. Every candidate is mode 0, 1, 2 or 3. |
| EvalMode.CandidatesComplete | pkg/speech/types.go:85-91 | Every mode of the text's language appears among the candidates. |
| EvalMode.CandidatesOrder | pkg/speech/types.go:85-91 | The candidates keep the relative order of the map iteration. |
| EvalMode.CandidatesHead | pkg/speech/types.go:85-91 | If the first mode iterated has the text's language, it is the first candidate. |
| EvalMode.DetectRange | pkg/speech/types.go:71-137 | The result is always 0, 1, 2 or 3, and it is 0 for any text that is not English. |
| EvalMode.DetectSound | pkg/speech/types.go:94-133 | A non-zero result is a mode whose rule accepts the text. |
| EvalMode.DetectZero | pkg/speech/types.go:133-136 | If the result is 0 but some other rule accepts, then EngWord (also 0) accepted first in the iteration order. |
| EvalMode.FirstVerdictFirst | pkg/speech/types.go:94-134 | When the candidate at position i is accepted and none before it is, the scan returns that candidate. |
| EvalMode.FirstVerdictBefore | pkg/speech/types.go:94-136 | If the scan yields 0 while a non-zero candidate accepts, mode 0 accepted at an earlier position. |
| EvalMode.DetectSentence | pkg/speech/types.go:52-57 | Result 1 (EngSentence) implies that the trimmed text holds a space and 2 to 30 words. |
| EvalMode.DetectParagraph | pkg/speech/types.go:58-63 | Result 2 (EngParagraph) implies that the trimmed text holds a space and 31 to 120 words. |
| EvalMode.DetectFreeTalk | pkg/speech/types.go:124-130 | Result 3 (EngFreeTalk) implies that the trimmed text holds no '/', '\\' or '\|'. |
| EvalMode.DetectFirst | pkg/speech/types.go:85-134 | The first mode in the iteration order whose rule accepts the text is the result, whatever modes of other languages or rejected modes come before it. |
| EvalMode.LowercaseWordMatches | pkg/speech/types.go:45-67 | A single word of lower-case letters is accepted by both the EngWord and the EngFreeTalk rules. |
| EvalMode.RuleKeys | pkg/speech/types.go:34-68 | `modeRules` holds exactly EngWord, EngSentence, EngParagraph and EngFreeTalk. |
| EvalMode.OrdersValid | pkg/speech/types.go:34-68 | Word-first and free-talk-first are both valid iteration orders of `modeRules`. |
| EvalMode.OrderDecides | pkg/speech/types.go:86-94 | A text accepted by both EngWord and EngFreeTalk gets 0 under one iteration order and 3 under another, so the result depends on map order. |
| EvalMode.UppercaseHasNoLanguage | pkg/speech/types.go:140-150 | "CAT" has language "" and is classified 0 under every order. |
| Listener.TerminalCountAppend | pkg/speech/listener.go:125-129 | Appending a frame adds one terminal ("complete"/"error") frame exactly when that frame is terminal. |
| Listener.ResultOf | pkg/speech/listener.go:40-46 | The forwarded result copies the suggested score as the overall score, together with the words, accuracy, fluency and completion. |
| Listener.ResponseOf | pkg/speech/listener.go:91-97 | The frame carries the status and the result. Its error text is the error's text, or empty when there is no error. |
| Listener.Conn.WriteJSON | pkg/speech/listener.go:99 | Each call appends one frame to the connection's log and reports the transport's outcome. |
| Listener.StreamListener.constructor | pkg/speech/listener.go:19-26 | A new listener has empty ResultChan (capacity 10) and ErrorChan (capacity 1), and an open `Complete`. |
| Listener.StreamListener.SendResponse | pkg/speech/listener.go:80-108 | Without a connection nothing is sent. Otherwise exactly one frame is written, and a write failure is only logged. |
| Listener.StreamListener.SendError | pkg/speech/listener.go:75 | The error is appended to ErrorChan. |
| Listener.StreamListener.OnRecognitionStart | pkg/speech/listener.go:28-31 | One "start" frame with no result and no error. At most one terminal frame remains on the connection. |
| Listener.StreamListener.OnIntermediateResults | pkg/speech/listener.go:33-50 | With words, the result is queued and one "intermediate" frame carries it. Without words nothing happens. |
| Listener.StreamListener.OnRecognitionComplete | pkg/speech/listener.go:52-71 | With words, the result is queued and one "complete" frame is sent. `Complete` is closed in every case, and at most one terminal frame is ever sent. |
| Listener.StreamListener.OnFail | pkg/speech/listener.go:73-78 | The error is queued, an "error" frame carries its text and `Complete` is closed. At most one terminal frame is ever sent. |
| Handler.IsSentence | api/handler/soe.go:221-243 | The text is a sentence exactly when it holds '.', '?' or '!', a space, or an upper-case rune after the first. |
| Handler.LowercaseIsWord | api/handler/soe.go:221-243 | A text of lower-case letters only is never a sentence. |
| Handler.SentenceExamples | api/handler/soe.go:232-240 | "cat", "Cat" and "" are words, while "iPhone" and "The cat sat." are sentences. An upper-case first letter alone does not count. |
| Handler.Normalized | api/handler/soe.go:71-77 | A non-positive score coefficient becomes 1 and a positive one is kept. A sentence forces eval mode 1. Every other field is unchanged. |
| Handler.NormalizedIdempotent | api/handler/soe.go:71-77 | Normalising an already normalised request changes nothing. |
| Handler.NormalizeRequest | api/handler/soe.go:71-77 | The in-place overrides yield exactly the normalised request. |
| Handler.Recognizer.Write | api/handler/soe.go:194 | Each audio frame is recorded in order, and the k-th Write returns its injected outcome. |
| Handler.Recognizer.Stop | api/handler/soe.go:166 | Every Stop call is counted. |
| Handler.StepKeeps | api/handler/soe.go:143-198 | One iteration of the reader loop keeps the loop invariant: chunks are the binary payloads read, `totalBytes` is their total length, and each exit kind has its cause. |
| Handler.StepKeepsBinary | api/handler/soe.go:179-198 | A binary frame is appended to the chunks and written. A failing Write ends the loop and reports its error. |
| Handler.StepKeepsOther | api/handler/soe.go:144-177 | A read error, a text frame or any other non-binary frame leaves the chunks as they are. |
| Handler.RunKeeps | api/handler/soe.go:143-199 | The loop invariant holds when the loop stops. If the loop is still reading, every frame was consumed. |
| Handler.ReaderForwardsBinaryFrames | api/handler/soe.go:179-194 | The frames handed to Write are exactly the binary payloads read, in order and unmodified. `totalBytes` is their total length. |
| Handler.ReaderExits | api/handler/soe.go:143-199 | Each way the loop can end is listed with its effects. An end frame gives one Stop and no error. A read error or a failed Write gives its error on ErrorChan and no Stop. Every Write before the exit succeeded, so a failed Write is the first one to fail. Otherwise every frame is read and nothing ended the loop. |
| Handler.RunStopsAtFirstTerminal | api/handler/soe.go:143-199 | No frame before the one that ends the loop could have ended it: no earlier read failed, no earlier text frame was an end frame, and every earlier binary frame's Write succeeded. |
| Handler.RunIgnoresLaterFrames | api/handler/soe.go:150-197 | Once the loop has returned, later frames change nothing. |
| Handler.ReaderEndsForGood | api/handler/soe.go:150-197 | After an end frame, a read error or a failed Write, no further frame is read. |
| Handler.ReaderLoop | api/handler/soe.go:143-199 | The loop's counters, chunks and exit, the recognizer's Writes and Stops, and the ErrorChan sends are exactly those of the reader specification. |
| Handler.StreamAssessment | api/handler/soe.go:53-114 | The session covers five cases. A failed initial read sends nothing. Undecodable configuration sends one "Invalid configuration" error frame. The engine gets the normalised request. A failed Start sends one error frame and writes no audio. Otherwise the loop runs, and the deferred Stop adds one more Stop: the engine is stopped twice after an end frame and once after any other exit. |
| Errno.New | errno/errno.go:23-31 | A new error is always of type "sender" and carries the given status, code, message and raw error. |
| Errno.WithFmt | errno/errno.go:46-56 | The copy keeps status, type and code. It has no raw error, and its message is `fmt.Sprintf(message, f)`. |
| Errno.WithRawErr | errno/errno.go:59-67 | The copy keeps every client-visible field and carries the given raw error. |
| Errno.WithFmtAndRawErr | errno/errno.go:70-81 | This is WithFmt with the raw error set. |
| Errno.WithCodeAndMessage | errno/errno.go:84-92 | The copy keeps status and type, replaces code and message, and its raw error's text is the message. |
| Errno.FmtAndRawErrComposes | errno/errno.go:70-81 | WithFmtAndRawErr equals WithFmt followed by WithRawErr. |
| Errno.RawErrIsHidden | errno/errno.go:59-67 | WithRawErr changes nothing but the raw error. |
| Errno.WithFmtFillsTemplate | errno/errno.go:46-56 | On a one-`%s` template, WithFmt puts its argument in place of the verb and keeps the rest of the message. |
| Errno.WithFmtOnPlainMessage | errno/errno.go:46-56 | On a message without `%`, WithFmt keeps the message and appends Go's `%!(EXTRA string=…)` report. |
| Errno.ErrRef.WrapError | errno/errno.go:34-37 | Only the receiver's raw error changes, in place, and the same pointer is returned. |
| Errno.ErrRef.WithFormat | errno/errno.go:40-43 | Only the receiver's message changes, to the formatted text, in place, and the same pointer is returned. |
| ErrnoTable.SuccessIsOk | errno/const.go:6 | Success is HTTP 200 with code and message "Success", no error type and no raw error. |
| ErrnoTable.ServerErrorsAre500 | errno/const.go:9-65 | Every server error is HTTP 500 of type "server". |
| ErrnoTable.ApiCommonErrorsAreSender | errno/const.go:68-180 | Every API-common error is of type "sender" with status 400, 403, 404 or 405. |
| ErrnoTable.ErrTypeDoesNotDetermineStatus | errno/const.go:208-213 | ErrOperateFailed is of type "server" but HTTP 400, so the type does not determine the status class. |
| ErrnoTable.DatabaseErrorsAlias | errno/const.go:43-56 | ErrDatabase and ErrInvalidDBConnection are the same value, with the same code and message. |
| ErrnoTable.TemplatedEntries | errno/const.go:150-212 | The seven templated errors each hold one `%s` and no other `%`. |
| ErrnoTable.PlainEntries | errno/const.go:6-172 | Every other entry's message contains no `%`. |
| ErrnoTable.TemplatesExactly | errno/const.go:6-214 | Over the whole table, a message is a one-argument template if and only if its entry is one of the seven templated errors. |
| ErrnoTable.MissingHeaderMessage | errno/const.go:150-156 | ErrMissingHeader filled with header k reads "Request \`k\` is missing in Header.". |
| Middleware.Strip | api/middleware/action.go:60-61 | The body loses every space and line feed, and every other byte is kept with its count. A clean body is unchanged. |
| Middleware.StripAppend | api/middleware/action.go:60-61 | Stripping distributes over concatenation, so the remaining bytes keep their order. |
| Middleware.StripIdempotent | api/middleware/action.go:60-61 | Stripping twice changes nothing more. |
| Middleware.Truncate | api/middleware/action.go:76-78 | A text longer than the limit keeps its first `limit` bytes followed by "...". A shorter text is kept whole. |
| Middleware.BodyParamsClean | api/middleware/action.go:54-81 | The logged body holds no space and no line feed and is at most 4099 bytes long. A short stripped body is logged whole. |
| Middleware.ActionVersion | api/middleware/action.go:63-74 | A query Action wins, together with the query Version. Otherwise both values come from the stripped body. |
| Middleware.QueryVersionIgnoredWithoutAction | api/middleware/action.go:63-69 | Without a query Action, the query's Version is discarded. |
| Middleware.Context.QueryParam | api/middleware/action.go:63-64 | A missing query parameter reads as "". |
| Middleware.ParseParamsFromBody | api/middleware/action.go:54-81 | The body is restored byte for byte. The result is the stripped, truncated body, and Action and Version are stored by precedence. |
| Middleware.ParseParamsFromQuery | api/middleware/action.go:84-97 | The result is the raw query truncated at 512 bytes. Action and Version are stored from the query. |
| Middleware.ParseParamsFromRequest | api/middleware/action.go:44-51 | POST requests are read from the body and every other method from the query. The body always ends up unchanged. For POST, Action and Version are stored by the query-first precedence over the stripped body; otherwise both come from the query. |
| Middleware.IgnoreAuthIff | api/middleware/action.go:100-108 | A path skips authentication if and only if "debug/pprof", "health" or "metrics" occurs in it at some offset. |
| Middleware.IgnoreAuthOverreach | api/middleware/action.go:101-105 | The match is by substring, so "/api/unhealthy" skips authentication too. |
| Middleware.ValidatorHeaders | api/middleware/action.go:111-119 | The header check is disabled: every request gets Success (HTTP 200). |
| Config.Defaulted | config/config.go:146-158 | A defaulted timeout is always positive. A positive setting is kept and a non-positive one becomes the default. |
| Config.DefaultedIdempotent | config/config.go:146-158 | Defaulting twice changes nothing more. |
| Config.HTTPServerConfig.FillDefault | config/config.go:146-158 | Idle, read and write timeouts of 0 or less become 60, 15 and 60 seconds. Positive values, the address and the header limit are unchanged. |
| Config.ResolveError | config/config.go:121-134 | A lookup failure yields "failed to get intranet IPs: " followed by its text. No address yields "not resolve to the intranet IP.". Otherwise there is no error. |
| Config.AppConfig.ParseLocalServeIntranetIP | config/config.go:121-134 | On success the server IP becomes the first address found. On error it is unchanged. |
| Config.AppConfig.Check | config/config.go:108-118 | A configured IP is kept and no lookup happens. A failed lookup returns before the HTTP defaults are filled. On success the timeouts are defaulted. |
| Config.LingoLiftConfig.FillDefault | config/config.go:79-81 | `ServerNodeIP` mirrors the server IP. |
| Config.LingoLiftConfig.LoadFile | config/config.go:43-66 | The file name is recorded before any I/O. A read, decode or check error is returned and leaves `G` and `ServerNodeIP` untouched. A read error leaves the App and Speech sections unchanged. On success `G` is this configuration, and `ServerNodeIP` is the configured server IP, or the first intranet address when none is configured. The region, metrics and pprof settings, the address and the header limit are those decoded, and each timeout is the decoded one or its default. |
| Log.Wrap8 | pkg/log/logger.go:234 | The `int8` reduction agrees with the exact value in range and is congruent modulo 256. |
| Log.Apply | pkg/log/logger.go:159-223 | A setter writes its own field with its value and leaves every other field and the output paths unchanged. |
| Log.LaterSetterOverrides | pkg/log/logger.go:95-97 | A later setter of the same field overrides an earlier one. |
| Log.ApplyAllSnoc | pkg/log/logger.go:95-97 | Applying a list and then one more setter is applying the longer list. |
| Log.LastSetterWins | pkg/log/logger.go:95-97 | After all setters, each field holds the value of its last setter, or keeps its starting value when no setter names it. |
| Log.ApplyAllKeepsPaths | pkg/log/logger.go:158-223 | No setter touches the embedded output paths. |
| Log.ZapOutputPaths | pkg/log/logger.go:116-121 | Empty error output paths give ["stderr"], overwriting the earlier "stdout". |
| Log.OutputPathsAlwaysStderr | pkg/log/logger.go:116-121 | Whatever the setters, the output paths end up as ["stderr"]. |
| Log.FilePathsDistinct | pkg/log/logger.go:141-154 | Distinct file names give distinct paths. |
| Log.DefaultPathsDistinct | pkg/log/logger.go:84-88 | The four default level files are four different files. |
| Log.SinkFor | pkg/log/logger.go:141-150 | Each sink takes its path and the size, backup and age limits from the options. It is uncompressed and uses local time. |
| Log.PriorityIff | pkg/log/logger.go:233-244 | Where the subtraction does not wrap, a core accepts a level exactly when it is the core's own level and the configured level is at most that level. |
| Log.ErrorPriorityWraps | pkg/log/logger.go:234 | With configured level -126 the `int8` subtraction wraps, and the error file rejects errors. |
| Log.FileCores | pkg/log/logger.go:245-250 | There are four file cores, in the order error, warn, info, debug. |
| Log.Cores | pkg/log/logger.go:245-258 | Console cores are added only in development mode: error to stderr, and warn, info and debug to stdout. |
| Log.AtMostOneFileCore | pkg/log/logger.go:233-250 | Each entry reaches at most one file core, and a level above Error reaches no core at all. |
| Log.FileRouting | pkg/log/logger.go:233-258 | Without wrap-around, every core, file or console, accepts exactly its own level when the configured level allows it. |
| Log.Logger.SetSyncers | pkg/log/logger.go:140-156 | The four package-level syncers are set to the sinks of the error, warn, info and debug file names. |
| Log.Logger.Init | pkg/log/logger.go:130-138 | The syncers are set, and the core list is built from them. |
| Log.NewLogger | pkg/log/logger.go:75-128 | The options are the defaults with the setters applied in order. The level is the options' level, the output paths are ["stderr"], the cores are built, and the `initd` guard never returns nil. |
| Log.NoSettersKeepDefaults | pkg/log/logger.go:84-93 | The defaults are error.log, warn.log, info.log and debug.log, Debug level, MaxSize 512, MaxBackups 100 and MaxAge 10. |

## Left out

- Concurrency: the goroutine, `select` and `sync.WaitGroup` of
  `StreamAssessment`, and blocking on full channels.
  - The reader goroutine is run to its end before the deferred Stop.
  - ResultChan and ErrorChan are unbounded sequences; their capacities are
    recorded as constants only.
- The race between ErrorChan and `Complete`, which decides when
  `StreamAssessment` returns, is not modelled.
- The WebSocket upgrade, write deadlines, close-error classification and all
  logging are I/O with no effect on the state modelled.
- The Tencent SDK recognizer is a foreign library. It is the `Recognizer`
  object with injected outcomes, and its callbacks into the listener are not
  driven by it.
- Audio-file saving and `generateUniqueFilename` are file I/O and the clock.
  - In the source, line 120 declares a new `audioFile` that shadows the outer
    one, so the writes at lines 185-189 never happen.
- The estimated-duration computation (`api/handler/soe.go:160`) is floating
  point used only in a log line.
- `AssessmentRequest.Validator` always returns nil and is never called.
  - The `validate:"required"` and `default:` tags are not applied by the code
    shown.
  - An empty `ref_text` is accepted.
- Handler.IsSentence, EvalMode.DetectLanguage: `unicode.IsUpper`,
  `unicode.IsLower` and `unicode.IsLetter` are restricted to ASCII, and
  `unicode.Is(Han)` to the CJK Unified Ideographs blocks. Go strings are
  sequences of runes, with no UTF-8 encoding.
- Errno.WithFmt, Errno.WithFmtAndRawErr, Errno.ErrRef.WithFormat: only
  formats whose verbs are `%s` and `%%`, with string arguments, are modelled.
  These are the only formats in the error table. Other verbs are out of scope.
- `Err.Error()` and the JSON serialisation of `Err` are not modelled.
  - A Go `error` is represented by its text.
  - `WrapError` on a table entry mutates the shared package-level value; the
    model shows the in-place update on one `ErrRef`.
- Middleware.ParseParamsFromBody: gjson's lookup is an injected function, and
  `io.ReadAll` never fails in the model.
- api/middleware/recover.go, api/middleware/logger.go, api/api.go,
  pkg/mime/mime.go, job/health.go, cmd/app/main.go and server/http.go are not
  part of this model. They are wiring, panic recovery, file decoding and
  polling.
- Listener.StreamListener.OnRecognitionComplete, Listener.StreamListener.OnFail:
  - Both require that `Complete` is still open. A second call closes a
    closed channel, which panics in Go; that panic is not modelled.
  - OnFail takes its error as text, so a nil error is not modelled. In Go it
    queues nil on ErrorChan and sends an "error" frame with an empty error
    text.
- Config.LingoLiftConfig.LoadFile:
  - YAML decoding is an injected outcome.
  - A partial decode before an error is not modelled.
  - `AppConfig.Log` is not modelled, because only the logger reads it.
  - The `fmt.Println(G.Speech)` output is not modelled.
- Config.AppConfig.Check: its precondition excludes the nil dereference the
  source would panic on. That is a nil `HTTP` section reached after a
  successful IP resolution, or a nil `App` section in LoadFile.
- Log.NewLogger:
  - zap's `Build`, the encoders, the time formats, lumberjack's rotation and
    the `Sync` call are foreign calls.
  - The path separator is a parameter.
  - The mutex is not modelled, because the logger is freshly allocated.
  - The unused `timeUnixNano` is not modelled.

## Notes on the code

- The code has no padding of odd-length audio frames. Frames reach `Write`
  exactly as received.
- On an end frame the recognizer's `Stop` is called twice: once by the loop
  and once by the deferred cleanup.
- `Success` has an empty `ErrType`.
- `IsIgnoreAuthRequest` matches by substring anywhere in the path.
