/**
 * The status-capturing response wrapper of main.go: a `responseWriter` embeds
 * the real `http.ResponseWriter`, remembers the first status code written
 * through it and forwards that code, once, to the writer it wraps.
 *
 * The behaviour is given twice: as values (`Capture`, `CallStep`, `Replay`),
 * which the lemmas reason about, and as the classes `Sink` and
 * `ResponseWriter`, whose methods are proved against those functions.
 */
module ResponseCapture {

  newtype byte = x: int | 0 <= x < 256

  /** The two fields of a `responseWriter`. */
  datatype Capture = Capture(status: int, wroteHeader: bool)

  /** What `wrapResponseWriter` returns: both fields at their zero values. */
  const Unwrapped := Capture(0, false)

  /** One call a handler makes on the writer it is given. */
  datatype Call = WriteHeaderCall(code: int) | WriteCall(data: seq<byte>)

  /**
   * The effect of some calls on a wrapper: its fields afterwards, the header
   * codes passed on to the wrapped writer and the body bytes passed on.
   */
  datatype Trace = Trace(after: Capture, forwarded: seq<int>, body: seq<byte>)

  /** One call on a wrapper in state `c`. */
  function CallStep(c: Capture, call: Call): (t: Trace)
    // a header is forwarded at most once, and only by an unlatched wrapper
    ensures |t.forwarded| <= 1
    ensures c.wroteHeader ==> t.after == c && t.forwarded == []
    ensures call.WriteHeaderCall? && !c.wroteHeader ==>
              t.after == Capture(call.code, true) && t.forwarded == [call.code]
    // body writes go to the embedded writer and leave the fields alone
    ensures call.WriteCall? ==> t.after == c && t.forwarded == [] && t.body == call.data
    ensures call.WriteHeaderCall? ==> t.body == []
  {
    match call
    case WriteHeaderCall(code) =>
      if c.wroteHeader then Trace(c, [], [])
      else Trace(Capture(code, true), [code], [])
    case WriteCall(data) => Trace(c, [], data)
  }

  /** A sequence of calls, in order. */
  function Replay(c: Capture, calls: seq<Call>): (t: Trace)
    ensures |t.forwarded| <= 1
    ensures c.wroteHeader ==> t.after == c && t.forwarded == []
    ensures t.after.wroteHeader == (c.wroteHeader || |t.forwarded| == 1)
    decreases |calls|
  {
    if calls == [] then Trace(c, [], [])
    else
      var s := CallStep(c, calls[0]);
      var t := Replay(s.after, calls[1..]);
      Trace(t.after, s.forwarded + t.forwarded, s.body + t.body)
  }

  /** The status codes among the calls, in order. */
  function HeaderCodes(calls: seq<Call>): seq<int>
    decreases |calls|
  {
    if calls == [] then []
    else (if calls[0].WriteHeaderCall? then [calls[0].code] else []) + HeaderCodes(calls[1..])
  }

  /** All body bytes among the calls, concatenated in order. */
  function Bodies(calls: seq<Call>): seq<byte>
    decreases |calls|
  {
    if calls == [] then []
    else (if calls[0].WriteCall? then calls[0].data else []) + Bodies(calls[1..])
  }

  /** The first element of `s`, as a sequence of length at most one. */
  function First(s: seq<int>): seq<int>
  {
    if s == [] then [] else [s[0]]
  }

  /**
   * Reference behaviour of a fresh wrapper: the first status code wins, and
   * with none the status stays at the unset value 0.
   */
  function FirstWins(codes: seq<int>): Capture
  {
    if codes == [] then Unwrapped else Capture(codes[0], true)
  }

  /** A wrapper that already wrote its header ignores every later code. */
  lemma {:induction false} ReplayLatched(c: Capture, calls: seq<Call>)
    requires c.wroteHeader
    ensures Replay(c, calls) == Trace(c, [], Bodies(calls))
    decreases |calls|
  {
    if calls != [] {
      ReplayLatched(c, calls[1..]);
    }
  }

  /**
   * Over any calls, a fresh wrapper ends with the first status code (or 0),
   * hands exactly that one code to the writer it wraps, and passes every body
   * byte through unchanged.
   */
  lemma {:induction false} ReplayFromUnwrapped(calls: seq<Call>)
    ensures Replay(Unwrapped, calls) ==
            Trace(FirstWins(HeaderCodes(calls)), First(HeaderCodes(calls)), Bodies(calls))
    decreases |calls|
  {
    if calls != [] {
      var rest := calls[1..];
      match calls[0]
      case WriteCall(_) =>
        ReplayFromUnwrapped(rest);
      case WriteHeaderCall(code) =>
        ReplayLatched(Capture(code, true), rest);
    }
  }

  /** The status a wrapper reports is the one code it forwarded, if any. */
  lemma {:induction false} ForwardedIsStatus(calls: seq<Call>)
    ensures var t := Replay(Unwrapped, calls);
            (t.forwarded == [] && t.after.status == 0) || t.forwarded == [t.after.status]
  {
    ReplayFromUnwrapped(calls);
  }

  /** Replaying one more call extends the trace by that call's step. */
  lemma {:induction false} ReplayAppend(c: Capture, calls: seq<Call>, call: Call)
    ensures var t := Replay(c, calls);
            var s := CallStep(t.after, call);
            Replay(c, calls + [call]) == Trace(s.after, t.forwarded + s.forwarded, t.body + s.body)
    decreases |calls|
  {
    if calls == [] {
      assert [] + [call] == [call];
    } else {
      var s := CallStep(c, calls[0]);
      assert (calls + [call])[1..] == calls[1..] + [call];
      ReplayAppend(s.after, calls[1..], call);
    }
  }

  /** The real `http.ResponseWriter`, observed: what it was sent, in order. */
  class Sink {
    var headers: seq<int>
    var body: seq<byte>

    constructor ()
      ensures headers == [] && body == []
    {
      headers := [];
      body := [];
    }

    method WriteHeader(code: int)
      modifies this
      ensures headers == old(headers) + [code] && body == old(body)
    {
      headers := headers + [code];
    }

    method Write(data: seq<byte>)
      modifies this
      ensures body == old(body) + data && headers == old(headers)
    {
      body := body + data;
    }
  }

  /** `responseWriter`: the embedded writer and the two capture fields. */
  class ResponseWriter {
    const inner: Sink
    var status: int
    var wroteHeader: bool
    /** The header codes this wrapper has passed on to `inner`. */
    ghost var forwarded: seq<int>

    /** The wrapper passes on at most one code, and that code is its status. */
    ghost predicate Valid()
      reads this
    {
      if wroteHeader then forwarded == [status] else forwarded == [] && status == 0
    }

    function State(): Capture
      reads this
    {
      Capture(status, wroteHeader)
    }

    /** `wrapResponseWriter(w)`. */
    constructor (w: Sink)
      ensures Valid() && inner == w && State() == Unwrapped && forwarded == []
    {
      inner := w;
      status := 0;
      wroteHeader := false;
      forwarded := [];
    }

    /** `Status()`: the captured code, or 0 while no header was written. */
    function Status(): (s: int)
      reads this
      requires Valid()
      ensures wroteHeader ==> forwarded == [s]
      ensures !wroteHeader ==> s == 0 && forwarded == []
    {
      status
    }

    /** `WriteHeader(code)`: record and forward the first code; ignore the rest. */
    method WriteHeader(code: int)
      requires Valid()
      modifies this, inner
      ensures Valid()
      ensures var t := CallStep(old(State()), WriteHeaderCall(code));
              State() == t.after && forwarded == old(forwarded) + t.forwarded &&
              inner.headers == old(inner.headers) + t.forwarded
      ensures inner.body == old(inner.body)
    {
      if wroteHeader {
        return;
      }
      status := code;
      inner.WriteHeader(code);
      wroteHeader := true;
      forwarded := forwarded + [code];
    }

    /** `Write(data)`, promoted from the embedded writer: the fields stay as they are. */
    method Write(data: seq<byte>)
      modifies inner
      ensures inner.body == old(inner.body) + data && inner.headers == old(inner.headers)
      ensures State() == old(State())
    {
      inner.Write(data);
    }
  }
}
