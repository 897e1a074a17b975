/**
 * The result-shaping part of `transcribe_with_microsoft` (app.py:34-49): the
 * outcome of the blocking single-utterance recognition is an input, and the
 * adapter maps its reason to a reply.
 */
module MicrosoftAdapter {
  import opened Wrappers
  import opened Outcomes

  /** The vendor's result reason; the three the code tests, and every other one. */
  datatype ResultReason = RecognizedSpeech | NoMatch | Canceled | UnlistedReason(name: string)

  /**
   * What `recognize_once_async().get()` returned: its reason, its text, and
   * what building `CancellationDetails` from it and formatting its `reason`
   * gives (a vendor call that may itself raise).
   */
  datatype SpeechResult = SpeechResult(reason: ResultReason, text: string, cancellation: Call<string>)

  const ErrorPrefix := "Erreur Microsoft : "
  const NoMatchMessage := "Aucune correspondance trouvée."
  const CanceledPrefix := "Annulation : "

  /**
   * `transcribe_with_microsoft`: never raises; it returns a pair except for a
   * reason it does not test, where it returns Python `None`.
   */
  function TranscribeWithMicrosoft(call: Call<SpeechResult>): (r: Reply)
    ensures r.NoReply? <==> call.Returns? && call.value.reason.UnlistedReason?
    ensures r.ExactlyOne()
    ensures r.Reply? && r.text.Some? <==> call.Returns? && call.value.reason.RecognizedSpeech?
    ensures r.Reply? && r.text.Some? ==> r.text.value == call.value.text
  {
    match call
    case Raises(e) => ErrorReply(ErrorPrefix + e.message)
    case Returns(result) =>
      match result.reason
      case RecognizedSpeech => TextReply(result.text)
      case NoMatch => ErrorReply(NoMatchMessage)
      case Canceled =>
        (match result.cancellation
         case Returns(reason) => ErrorReply(CanceledPrefix + reason)
         case Raises(e) => ErrorReply(ErrorPrefix + e.message))
      case UnlistedReason(_) => NoReply
  }

  /** The reason table of app.py:41-49, row by row. */
  lemma MicrosoftReasonTable(text: string, cancellation: Call<string>, name: string, e: PyException)
    ensures TranscribeWithMicrosoft(Returns(SpeechResult(RecognizedSpeech, text, cancellation))) == TextReply(text)
    ensures TranscribeWithMicrosoft(Returns(SpeechResult(NoMatch, text, cancellation)))
         == ErrorReply("Aucune correspondance trouvée.")
    ensures cancellation.Returns? ==>
      TranscribeWithMicrosoft(Returns(SpeechResult(Canceled, text, cancellation)))
         == ErrorReply("Annulation : " + cancellation.value)
    ensures cancellation.Raises? ==>
      TranscribeWithMicrosoft(Returns(SpeechResult(Canceled, text, cancellation)))
         == ErrorReply("Erreur Microsoft : " + cancellation.exception.message)
    ensures TranscribeWithMicrosoft(Raises(e)) == ErrorReply("Erreur Microsoft : " + e.message)
    ensures TranscribeWithMicrosoft(Returns(SpeechResult(UnlistedReason(name), text, cancellation))) == NoReply
  {
  }
}
