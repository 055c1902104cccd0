/**
 * The error envelope of main.go: `errorHandler` turns any error into a
 * `JSONError` and encodes it onto the response body.
 */
module ErrorEnvelope {
  import opened ResponseCapture

  /**
   * An error as the handler sees it: an AWS SDK error (`awserr.Error`, with a
   * code) or any other Go error. `text` is what the error's `Error()` method
   * returns.
   */
  datatype Error = AwsError(code: string, text: string) | PlainError(text: string)

  /** `JSONError`, encoded as `{"error": ...}`. */
  datatype JsonError = JsonError(error: string)

  /** Go's `err.Error()`: the error's full message, taken as given. */
  function Message(err: Error): string
  {
    err.text
  }

  /**
   * The envelope `errorHandler` builds. The AWS branch switches on the code
   * but has only a `default` case, so both branches use the full message.
   */
  function MapError(err: Error): (je: JsonError)
    ensures je.error == Message(err)
  {
    match err
    case AwsError(_, text) => JsonError(text)
    case PlainError(_) => JsonError(Message(err))
  }

  /** No code is treated specially: two AWS errors with one message map alike. */
  lemma EnvelopeIgnoresCode(code1: string, code2: string, text: string)
    ensures MapError(AwsError(code1, text)) == MapError(AwsError(code2, text))
    ensures MapError(AwsError(code1, text)) == MapError(PlainError(text))
  {
  }

  /** The one call `errorHandler` makes on its writer: a single body write. */
  function ErrorCall(err: Error, encode: JsonError -> seq<byte>): (call: Call)
    ensures call == WriteCall(encode(JsonError(Message(err))))
  {
    WriteCall(encode(MapError(err)))
  }

  /**
   * Writing an envelope never sets a status: the wrapper's fields stay as
   * they are and no header code is forwarded, whatever state it is in.
   */
  lemma ErrorCallSetsNoStatus(c: Capture, err: Error, encode: JsonError -> seq<byte>)
    ensures var t := CallStep(c, ErrorCall(err, encode));
            t.after == c && t.forwarded == [] && t.body == encode(JsonError(Message(err)))
  {
  }

  /**
   * `errorHandler(w, err)`: encodes the envelope onto `w` in one write and
   * sets no HTTP status.
   */
  method ErrorHandler(w: ResponseWriter, err: Error, encode: JsonError -> seq<byte>)
    modifies w.inner
    ensures w.inner.body == old(w.inner.body) + encode(JsonError(Message(err)))
    ensures w.inner.headers == old(w.inner.headers)
    ensures w.State() == old(w.State())
  {
    var je := MapError(err);
    w.Write(encode(je));
  }
}
