# iamtestapp core, modelled in Dafny

The service in `main.go` is a small Go HTTP server. Around its two routes sit three pieces of
sequential logic, and this project models those three:

- **`responseWriter`** (module `ResponseCapture`). This wrapper embeds the real
  `http.ResponseWriter`. The first `WriteHeader(code)` stores the code in `status`, forwards
  it once to the embedded writer and sets `wroteHeader`. Every later call does nothing. Body
  writes go straight to the embedded writer. The wrapper is the class `ResponseWriter`, and
  the real writer is the class `Sink`, which records the header codes and body bytes it
  receives. The same behaviour is also written as functions on values (`CallStep`, `Replay`).
  The class methods are proved against those functions, and the lemmas reason about the
  functions.
- **`errorHandler`** (module `ErrorEnvelope`). It maps an AWS error or a plain error to
  `JSONError{Error: err.Error()}` and encodes that onto the writer in one write. It never
  sets a status.
- **`loggingMiddleware`** (module `Logging`). It builds an `HTTPRequestInfo` from the
  request and runs the handler on a fresh wrapper. Then it takes one of three exits:
  - after a panic, it sends 500 to the *original* writer and logs `{"err"}`;
  - after `panic(nil)`, which `recover()` reports as nil before Go 1.21, it sends nothing
    more and logs nothing;
  - when marshalling the record fails, it sends 500 and logs nothing;
  - otherwise it logs the marshalled record as one line.

  The method `LoggingMiddleware` is proved equal in effect to the function `Serve`. The
  lemmas about `Serve` state each exit.

How the outside world is abstracted:
- The handler is described by the calls it makes on its writer before it returns, panics
  with a value, or panics with nil (`HandlerRun`). `RunHandler` performs those calls on the wrapper.
- `json.Marshal` is a function parameter that may fail (`Option`).
- The JSON encoder of `errorHandler` is a total function parameter.
- The elapsed time that `time.Since` measures is a `real` parameter.
- The log stream is the class `Logger`, one entry per `log.Print`/`log.Printf`.

Three behaviours of the code as written, which the model keeps:
- The record's `Status` is never assigned, so it is always logged as 0 (see Findings).
- A body write without a prior `WriteHeader` leaves the wrapper's status at 0. The wrapper
  does not capture the implicit 200 lazily.
- A panicking request logs the fixed line `{"err"}`, not a request record. A request whose
  record fails to marshal logs nothing.

## Model

| member | source | states |
|---|---|---|
| `ResponseCapture.CallStep` | main.go:60-68 | A latched wrapper ignores a header code. An unlatched one takes the code as its status, latches and forwards exactly that code. A body write leaves the fields alone and passes its bytes through. At most one code is forwarded per call. |
| `ResponseCapture.Replay` | main.go:60-68 | Over any sequence of calls at most one code is forwarded. A latched wrapper neither changes nor forwards. The wrapper ends latched exactly when it was already latched or forwarded a code. |
| `ResponseCapture.ReplayLatched` | main.go:61-63 | Once `wroteHeader` is set, any sequence of calls leaves the fields unchanged and forwards nothing. Only the body bytes pass through. |
| `ResponseCapture.ReplayFromUnwrapped` | main.go:52-68 | For a fresh wrapper and any calls, the final status is the first code written (0 when none was written), the only code forwarded is that first code, and the body is every written byte in order. The first code wins. |
| `ResponseCapture.ForwardedIsStatus` | main.go:56-68 | After any calls on a fresh wrapper, either nothing was forwarded and the status is 0, or exactly one code was forwarded and it equals the status. |
| `ResponseCapture.ReplayAppend` | main.go:60-68 | Performing one more call extends the trace by that call's own step. This is what lets the handler's calls be performed one at a time. |
| `ResponseCapture.Sink.WriteHeader` | main.go:66 | The embedded writer records each header code it receives, in order, and its body is unchanged. |
| `ResponseCapture.Sink.Write` | main.go:47 | The embedded writer appends the written bytes to the body, and its headers are unchanged. |
| `ResponseCapture.ResponseWriter.constructor` | main.go:52-54 | `wrapResponseWriter(w)` wraps `w` with `status == 0`, `wroteHeader == false` and nothing forwarded. |
| `ResponseCapture.ResponseWriter.Status` | main.go:56-58 | `Status()` is the one code forwarded to the embedded writer, or 0 while no header was written. |
| `ResponseCapture.ResponseWriter.WriteHeader` | main.go:60-68 | The new fields and the codes forwarded to the embedded writer are exactly those of `CallStep`. The object invariant holds that at most one code is forwarded and that it equals `status`. The body is untouched. |
| `ResponseCapture.ResponseWriter.Write` | main.go:46-47 | A body write through the wrapper reaches the embedded writer unchanged and changes neither `status` nor `wroteHeader`. |
| `ErrorEnvelope.ErrorCall` | main.go:34 | `errorHandler` makes exactly one call on its writer: a single body write of the encoded envelope of the full message. |
| `ErrorEnvelope.MapError` | main.go:24-33 | The envelope's `error` is the error's full message, for AWS and plain errors alike. |
| `ErrorEnvelope.EnvelopeIgnoresCode` | main.go:26-30 | The switch on the AWS code has only `default`. Two AWS errors with the same message map to the same envelope, and that envelope is the one a plain error with that message gets. |
| `ErrorEnvelope.ErrorCallSetsNoStatus` | main.go:24-35 | The call `errorHandler` makes writes only the encoded envelope. It leaves the wrapper's fields unchanged and forwards no status, whatever state the wrapper is in. |
| `ErrorEnvelope.ErrorHandler` | main.go:24-35 | `errorHandler` appends the encoded envelope of the full message to the body in one write. It sends no header and leaves the wrapper's fields unchanged. |
| `Logging.Serve` | main.go:70-96 | Each request logs at most one line. A panic with a value logs exactly `{"err"}`. Nothing is logged exactly when the handler panicked with nil, or returned and marshalling failed. |
| `Logging.RequestInfo` | main.go:80-85 | The record built before the handler runs copies the request's method and URL. Its referer and user agent are the first value of those headers, or "" when the header is absent or empty. Status and duration are zero. |
| `Logging.LoggedRecord` | main.go:80-88 | The record handed to `json.Marshal` differs from the one built before the handler only in its duration, which is the measured one. Its status stays 0. |
| `Logging.NormalReturn` | main.go:79-94 | On a normal return with a successful marshal, exactly the marshalled record is logged. The record's method, URL, referer and user agent are the request's, its status is 0, and its duration is the measured one. The real writer gets the handler's first code (if any) and its body bytes, and nothing more. |
| `Logging.MarshalFailure` | main.go:89-93 | When marshalling fails, the real writer gets the handler's first code (if any) and then 500, and nothing is logged. |
| `Logging.Panic` | main.go:72-77 | After a panic, the original writer gets the handler's first code (if any) and then 500, and only `{"err"}` is logged. |
| `Logging.NilPanic` | main.go:72-73 | After `panic(nil)`, which `recover()` reports as nil, the writer gets only the handler's first code (if any) and its body. No 500 is sent and nothing is logged. |
| `Logging.PanicBeforeHeader` | main.go:72-77 | A handler that panics before writing any header leaves 500 as the only status sent. |
| `Logging.PanicAfterHeader` | main.go:72-77 | A handler that writes a code and then panics sends that code first and 500 after it. The 500 bypasses the wrapper. |
| `Logging.ErrorResponseHasNoStatus` | main.go:24-35 | Take a handler that only calls `errorHandler` and returns normally, and whose record marshals. No header code reaches the writer, and the body is the envelope. |
| `Logging.LoggedStatusIgnoresHandler` | main.go:80-88 | For one handler that writes 404, the wrapper ends at 404 and the intended record carries 404, yet the record as written has status 0. |
| `Logging.IntendedRecordReportsStatus` | main.go:42 | With `Status` copied from the wrapper, the record carries the handler's first code, or 0 when it wrote none, and otherwise equals the record as written. |
| `Logging.Logger.Print` | main.go:94 | Each `log.Print` appends exactly one line to the log. |
| `Logging.RunHandler` | main.go:86-87 | Running the handler's calls on the wrapper leaves the wrapper, the real writer's headers and its body exactly as `Replay` describes, and keeps the wrapper's invariant. |
| `Logging.LoggingMiddleware` | main.go:70-96 | One request changes the real writer's headers and body and the log exactly as `Serve` describes. |

## Left out

- The `main` lifecycle (server start, interrupt handling, the shutdown goroutine, `ListenAndServe`, `Shutdown`) is left out because it is concurrency and OS and network I/O.
- The AWS session and the STS `GetCallerIdentity` call are not modelled. They are foreign SDK calls. An error they return enters the model only as an `ErrorEnvelope.Error`.
- The `ServeMux` routing and the `/` handler that writes `WORKING` are left out. Routing is library behaviour, and the handler is described only by the calls it makes.
- `ErrorEnvelope.Message` models the opaque `err.Error()`; its text is taken as given, because the SDK's formatting of an AWS error's code, message and cause is not part of this model.
- `Logging.LoggingMiddleware`: the duration is an abstract `real` supplied by the caller. `time.Now`, `time.Since` and the `float64` division are not modelled.
- The internals of `json.Marshal` and `json.Encoder`, such as escaping and the trailing newline, are left out. `json.Marshal` is a fallible function parameter and the encoder a total one.
- The `log` package's timestamp prefix and newline are not modelled. A log entry is the string printed.
- Parsing `AWS_LOG_LEVEL` with `strconv.Atoi`, whose error is ignored, is left out. It only configures the SDK's logger.
- `ResponseCapture.Sink.WriteHeader`: the sink records every code it is sent. The model does not include net/http's own handling of a superfluous or invalid `WriteHeader`: ignoring a second call, panicking on codes outside 100-999, or sending an implicit 200 on the first body write.
- `Logging.Request`: `Header.Get` is modelled as the first value under the exact key, with key canonicalisation not modelled. `URL.String()` is taken as the request's URL string.
- `Logging.Serve`: which Go release runs the service is not modelled. Both panic outcomes are kept. Before Go 1.21, `panic(nil)` is recovered as nil and neither answers 500 nor logs (`PanickedNil`). From Go 1.21 on, it carries a non-nil `*runtime.PanicNilError` and behaves as any other panic (`Panicked`).
- Concurrent requests and the order of log lines between them are left out. Each request is modelled on its own.

## Findings

| source | as written | input that shows it | evidently intended | confidence | as-written member | corrected member |
|---|---|---|---|---|---|---|
| main.go:80-94 | `info.Status` is never assigned, so every logged record has status 0. The wrapper's `Status()` is never read. | A handler that calls `WriteHeader(404)` and returns: the wrapper holds 404, the record says 0. | `info.Status = wrapped.Status()` before marshalling, so the record carries the first code the handler wrote. | high; not executed | `Logging.LoggedStatusIgnoresHandler` (on `Logging.LoggedRecord`) | `Logging.IntendedRecord`, proved by `Logging.IntendedRecordReportsStatus` |

The middleware model (`Serve`, `LoggingMiddleware`) keeps the record as written, with status
0, because that is what the service logs. `IntendedRecord` gives the corrected record next to it.
