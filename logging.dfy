/**
 * The per-request logging middleware of main.go (`loggingMiddleware`): it
 * builds an `HTTPRequestInfo` from the request, runs the wrapped handler on
 * a fresh `responseWriter`, and then either recovers from a panic, answers
 * 500 when the record cannot be marshalled, or logs the record as one line.
 *
 * The handler is given by what it does to the writer (`HandlerRun`), the
 * clock by the elapsed time it measures, and `json.Marshal` by a function
 * that may fail.
 */
module Logging {
  import opened Wrappers
  import opened ResponseCapture
  import opened ErrorEnvelope

  /** `http.StatusInternalServerError`. */
  const InternalServerError := 500

  /** The line logged when a handler panics. */
  const PanicLine := "{\"err\"}"

  /**
   * The parts of an `*http.Request` the middleware reads. `verb` is Go's
   * `r.Method` (`method` is a keyword in Dafny).
   */
  datatype Request = Request(verb: string, url: string, header: map<string, seq<string>>)

  /** `Header.Get`: the first value under `key`, or "" when there is none. */
  function HeaderGet(header: map<string, seq<string>>, key: string): string
  {
    if key in header && header[key] != [] then header[key][0] else ""
  }

  /** `r.Referer()`. */
  function Referer(r: Request): string
  {
    HeaderGet(r.header, "Referer")
  }

  /** `r.UserAgent()`. */
  function UserAgent(r: Request): string
  {
    HeaderGet(r.header, "User-Agent")
  }

  /**
   * `HTTPRequestInfo`; `verb` is its `Method` field and `duration` the
   * elapsed time in seconds.
   */
  datatype HttpRequestInfo = HttpRequestInfo(
    verb: string, url: string, referer: string, userAgent: string,
    status: int, duration: real)

  /** The record as built before the handler runs; the other fields are zero. */
  function RequestInfo(r: Request): (info: HttpRequestInfo)
    ensures info.verb == r.verb && info.url == r.url
    ensures info.referer == (if "Referer" in r.header && r.header["Referer"] != []
                             then r.header["Referer"][0] else "")
    ensures info.userAgent == (if "User-Agent" in r.header && r.header["User-Agent"] != []
                               then r.header["User-Agent"][0] else "")
    ensures info.status == 0 && info.duration == 0.0
  {
    HttpRequestInfo(r.verb, r.url, Referer(r), UserAgent(r), 0, 0.0)
  }

  /**
   * How the wrapped handler ends, after making the given calls on the writer
   * it was handed: it returns, it panics with a value, or it calls
   * `panic(nil)`, for which `recover()` returns nil before Go 1.21 (from Go
   * 1.21 on that panic carries a non-nil `*runtime.PanicNilError` and is a
   * `Panicked` run).
   */
  datatype HandlerRun =
    | Returned(calls: seq<Call>)
    | Panicked(calls: seq<Call>)
    | PanickedNil(calls: seq<Call>)

  /** What one request leaves behind: on the real writer, and in the log. */
  datatype Effect = Effect(headers: seq<int>, body: seq<byte>, lines: seq<string>)

  /**
   * The record handed to `json.Marshal` on a normal return: only the
   * duration is filled in after the handler; `Status` is never assigned.
   */
  function LoggedRecord(r: Request, duration: real): (info: HttpRequestInfo)
    ensures info.duration == duration
    ensures info.status == 0
    ensures info.(duration := 0.0) == RequestInfo(r)
  {
    RequestInfo(r).(duration := duration)
  }

  /** The whole effect of `loggingMiddleware` on one request. */
  function Serve(r: Request, run: HandlerRun, duration: real,
                 marshal: HttpRequestInfo -> Option<string>): (e: Effect)
    ensures |e.lines| <= 1
    ensures run.Panicked? ==> e.lines == [PanicLine]
    ensures e.lines == [] <==>
              run.PanickedNil? || (run.Returned? && marshal(LoggedRecord(r, duration)).None?)
  {
    var t := Replay(Unwrapped, run.calls);
    match run
    case Panicked(_) =>
      Effect(t.forwarded + [InternalServerError], t.body, [PanicLine])
    case PanickedNil(_) =>
      Effect(t.forwarded, t.body, [])
    case Returned(_) =>
      match marshal(LoggedRecord(r, duration))
      case None => Effect(t.forwarded + [InternalServerError], t.body, [])
      case Some(line) => Effect(t.forwarded, t.body, [line])
  }

  /**
   * On a normal return the one logged line is the marshalled record, whose
   * method, URL, referer and user agent are the request's and whose status
   * is 0 whatever the handler wrote; the writer receives the handler's first
   * status code, if any, and its body bytes.
   */
  lemma NormalReturn(r: Request, calls: seq<Call>, duration: real,
                     marshal: HttpRequestInfo -> Option<string>)
    requires marshal(LoggedRecord(r, duration)).Some?
    ensures var e := Serve(r, Returned(calls), duration, marshal);
            var info := LoggedRecord(r, duration);
            && e == Effect(First(HeaderCodes(calls)), Bodies(calls), [marshal(info).value])
            && info.verb == r.verb && info.url == r.url
            && info.referer == Referer(r) && info.userAgent == UserAgent(r)
            && info.status == 0 && info.duration == duration
  {
    ReplayFromUnwrapped(calls);
  }

  /**
   * When marshalling fails, the real writer is sent 500 after whatever code
   * the handler wrote, and nothing is logged.
   */
  lemma MarshalFailure(r: Request, calls: seq<Call>, duration: real,
                       marshal: HttpRequestInfo -> Option<string>)
    requires marshal(LoggedRecord(r, duration)).None?
    ensures Serve(r, Returned(calls), duration, marshal) ==
            Effect(First(HeaderCodes(calls)) + [InternalServerError], Bodies(calls), [])
  {
    ReplayFromUnwrapped(calls);
  }

  /**
   * When the handler panics, the unwrapped writer is sent 500 after whatever
   * code the handler wrote, and only the fixed panic line is logged.
   */
  lemma Panic(r: Request, calls: seq<Call>, duration: real,
              marshal: HttpRequestInfo -> Option<string>)
    ensures Serve(r, Panicked(calls), duration, marshal) ==
            Effect(First(HeaderCodes(calls)) + [InternalServerError], Bodies(calls), [PanicLine])
  {
    ReplayFromUnwrapped(calls);
  }

  /**
   * A nil panic is recovered but not reported: the writer gets only what the
   * handler itself wrote, no 500 is sent and nothing is logged.
   */
  lemma NilPanic(r: Request, calls: seq<Call>, duration: real,
                 marshal: HttpRequestInfo -> Option<string>)
    ensures Serve(r, PanickedNil(calls), duration, marshal) ==
            Effect(First(HeaderCodes(calls)), Bodies(calls), [])
  {
    ReplayFromUnwrapped(calls);
  }

  /** A handler that panics before writing any header yields status 500. */
  lemma PanicBeforeHeader(r: Request, calls: seq<Call>, duration: real,
                          marshal: HttpRequestInfo -> Option<string>)
    requires HeaderCodes(calls) == []
    ensures Serve(r, Panicked(calls), duration, marshal).headers == [InternalServerError]
  {
    Panic(r, calls, duration, marshal);
  }

  /**
   * A handler that writes a code and then panics: the code it wrote reaches
   * the writer first, the 500 only after it.
   */
  lemma PanicAfterHeader(r: Request, code: int, calls: seq<Call>, duration: real,
                         marshal: HttpRequestInfo -> Option<string>)
    ensures Serve(r, Panicked([WriteHeaderCall(code)] + calls), duration, marshal).headers
            == [code, InternalServerError]
  {
    ReplayLatched(Capture(code, true), calls);
  }

  /**
   * A handler that only reports an error through `errorHandler` writes the
   * envelope but no status: on a normal return no header code reaches the
   * writer through the middleware at all.
   */
  lemma ErrorResponseHasNoStatus(r: Request, err: Error, encode: JsonError -> seq<byte>,
                                 duration: real, marshal: HttpRequestInfo -> Option<string>)
    requires marshal(LoggedRecord(r, duration)).Some?
    ensures var e := Serve(r, Returned([ErrorCall(err, encode)]), duration, marshal);
            e.headers == [] && e.body == encode(JsonError(Message(err)))
  {
    NormalReturn(r, [ErrorCall(err, encode)], duration, marshal);
  }

  /**
   * As written, the logged status ignores the handler: a handler that
   * writes 404 still produces a record with status 0.
   */
  lemma LoggedStatusIgnoresHandler(r: Request, duration: real)
    ensures var calls := [WriteHeaderCall(404)];
            && Replay(Unwrapped, calls).after.status == 404
            && IntendedRecord(r, calls, duration).status == 404
            && LoggedRecord(r, duration).status == 0
  {
  }

  /** The record with `Status` taken from the wrapper, as the field intends. */
  function IntendedRecord(r: Request, calls: seq<Call>, duration: real): HttpRequestInfo
  {
    RequestInfo(r).(status := Replay(Unwrapped, calls).after.status, duration := duration)
  }

  /**
   * The intended record carries the handler's first status code, or 0 when
   * the handler wrote none, and otherwise agrees with the record as written.
   */
  lemma {:induction false} IntendedRecordReportsStatus(r: Request, calls: seq<Call>, duration: real)
    ensures var info := IntendedRecord(r, calls, duration);
            && info.status == (if HeaderCodes(calls) == [] then 0 else HeaderCodes(calls)[0])
            && info.(status := 0) == LoggedRecord(r, duration)
  {
    ReplayFromUnwrapped(calls);
  }

  /** The process's log stream, one entry per `log.Print`/`log.Printf`. */
  class Logger {
    var lines: seq<string>

    constructor ()
      ensures lines == []
    {
      lines := [];
    }

    method Print(line: string)
      modifies this
      ensures lines == old(lines) + [line]
    {
      lines := lines + [line];
    }
  }

  /** `h.ServeHTTP(wrapped, r)`: the handler makes its calls on the wrapper. */
  method RunHandler(w: ResponseWriter, calls: seq<Call>)
    requires w.Valid()
    modifies w, w.inner
    ensures w.Valid()
    ensures var t := Replay(old(w.State()), calls);
            && w.State() == t.after
            && w.inner.headers == old(w.inner.headers) + t.forwarded
            && w.inner.body == old(w.inner.body) + t.body
  {
    var i := 0;
    while i < |calls|
      invariant 0 <= i <= |calls|
      invariant w.Valid()
      invariant var t := Replay(old(w.State()), calls[..i]);
                && w.State() == t.after
                && w.inner.headers == old(w.inner.headers) + t.forwarded
                && w.inner.body == old(w.inner.body) + t.body
    {
      ReplayAppend(old(w.State()), calls[..i], calls[i]);
      assert calls[..i + 1] == calls[..i] + [calls[i]];
      match calls[i] {
        case WriteHeaderCall(code) => w.WriteHeader(code);
        case WriteCall(data) => w.Write(data);
      }
      i := i + 1;
    }
    assert calls[..i] == calls;
  }

  /** `loggingMiddleware(h)` serving one request `r` on the real writer `rw`. */
  method LoggingMiddleware(rw: Sink, logger: Logger, r: Request, run: HandlerRun,
                           duration: real, marshal: HttpRequestInfo -> Option<string>)
    modifies rw, logger
    ensures var e := Serve(r, run, duration, marshal);
            && rw.headers == old(rw.headers) + e.headers
            && rw.body == old(rw.body) + e.body
            && logger.lines == old(logger.lines) + e.lines
  {
    var info := RequestInfo(r);
    var wrapped := new ResponseWriter(rw);
    RunHandler(wrapped, run.calls);
    if run.PanickedNil? {
      // recover() returned nil: the deferred function does nothing more
      return;
    }
    if run.Panicked? {
      // the deferred recover: 500 on the original writer, not the wrapper
      rw.WriteHeader(InternalServerError);
      logger.Print(PanicLine);
      return;
    }
    info := info.(duration := duration);
    var b := marshal(info);
    if b.None? {
      rw.WriteHeader(InternalServerError);
      return;
    }
    logger.Print(b.value);
  }
}
