/** Go's ways of saying "maybe": `Option` is a value that may be nil (an
    `error` in particular), `Result` is a `(value, error)` return pair, and
    `Wrap` is the message `errors.Wrap` builds. */
module Wrappers {

  datatype Option<+T> = None | Some(value: T)

  datatype Result<+T, +E> = Success(value: T) | Failure(error: E)

  /** `errors.Wrap`: the context, a colon and the cause. */
  function Wrap(context: string, cause: string): (message: string)
    ensures |message| == |context| + 2 + |cause|
    ensures context + ": " <= message && message[|context| + 2..] == cause
  {
    context + ": " + cause
  }
}
