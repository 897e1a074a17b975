/**
 * The values that flow between the adapters and the orchestrator of app.py:
 * raised Python exceptions, the outcome of a call the model does not see,
 * and the `(text, error)` pair every transcription function returns.
 */
module Outcomes {
  import opened Wrappers

  /**
   * The exception classes the `except` clauses of `transcribe_speech` tell
   * apart. `ValueError` stands for that class and its subclasses; every other
   * class derived from `Exception` is `OtherException`.
   */
  datatype ExceptionClass = UnknownValueError | RequestError | ValueError | OtherException

  /** A raised exception: its class and `str(e)`, an opaque string. */
  datatype PyException = PyException(cls: ExceptionClass, message: string)

  /**
   * What a call into a vendor SDK or the audio library did: return a value
   * or raise an exception. Such calls are inputs of the model.
   */
  datatype Call<+T> = Returns(value: T) | Raises(exception: PyException)

  /**
   * What a transcription function returns: the pair `(text, error)`, or
   * Python `None` itself when the Microsoft adapter falls off its branches.
   */
  datatype Reply = Reply(text: Option<string>, error: Option<string>) | NoReply {

    /** A pair holds exactly one of a text and an error message. */
    predicate ExactlyOne() {
      Reply? ==> (text.Some? <==> error.None?)
    }
  }

  /** The pair `(t, None)`. */
  function TextReply(t: string): Reply {
    Reply(Some(t), None)
  }

  /** The pair `(None, m)`. */
  function ErrorReply(m: string): Reply {
    Reply(None, Some(m))
  }
}
