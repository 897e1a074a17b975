/**
 * `transcribe_speech` (app.py:52-79): load the audio, dispatch on the provider
 * string and the presence of a client handle, and turn every exception raised
 * on the way into an error pair.
 */
module Orchestrator {
  import opened Wrappers
  import opened Outcomes
  import opened IbmAdapter
  import opened MicrosoftAdapter

  /** What opening the file and recording it into one segment did (app.py:54-56). */
  datatype AudioLoad = Recorded | LoadFailed(exception: PyException)

  /**
   * A configured IBM or Microsoft client. The handle is opaque: the dispatch
   * only asks whether one is present, and any present handle is truthy.
   */
  datatype ClientHandle = ClientHandle

  /**
   * What each adapter's vendor call would do with the recorded audio: the
   * Google recognizer's text, the IBM response, the Microsoft result.
   */
  datatype Vendors = Vendors(google: Call<string>, ibm: Call<IbmResponse>, microsoft: Call<SpeechResult>)

  /** The three adapters. */
  datatype Provider = Google | Ibm | Microsoft

  const IbmNotConfigured := "Client IBM non configuré correctement."
  const MicrosoftNotConfigured := "Client Microsoft non configuré correctement."
  const UnsupportedApi := "API non supportée"
  const UnintelligibleMessage := "L'API de reconnaissance vocale n'a pas pu comprendre l'audio."
  const RequestErrorPrefix := "Erreur de la demande à l'API de reconnaissance vocale : "
  const UnknownErrorPrefix := "Erreur inconnue : "

  /**
   * The body of the `try` block: what it returns, or the exception it lets
   * out. Only three things raise: the audio load (first), the Google
   * recognizer, and an unsupported provider string. The IBM and Microsoft
   * adapters and the missing-client branches always return.
   */
  function TryBody(audio: AudioLoad, apiChoice: string, ibmClient: Option<ClientHandle>,
                   microsoftClient: Option<ClientHandle>, vendors: Vendors): (r: Call<Reply>)
    ensures audio.LoadFailed? ==> r == Raises(audio.exception)
    ensures r.Raises? <==>
      || audio.LoadFailed?
      || (apiChoice == "Google" && vendors.google.Raises?)
      || (apiChoice != "Google" && apiChoice != "IBM" && apiChoice != "Microsoft")
    ensures audio.Recorded? && apiChoice == "Google" && vendors.google.Raises? ==>
      r == Raises(vendors.google.exception)
  {
    match audio
    case LoadFailed(e) => Raises(e)
    case Recorded =>
      if apiChoice == "Google" then
        match vendors.google
        case Returns(t) => Returns(TextReply(t))
        case Raises(e) => Raises(e)
      else if apiChoice == "IBM" then
        if ibmClient.Some? then Returns(TranscribeWithIbm(vendors.ibm))
        else Returns(ErrorReply(IbmNotConfigured))
      else if apiChoice == "Microsoft" then
        if microsoftClient.Some? then Returns(TranscribeWithMicrosoft(vendors.microsoft))
        else Returns(ErrorReply(MicrosoftNotConfigured))
      else Raises(PyException(ValueError, UnsupportedApi))
  }

  /** The four `except` clauses (app.py:72-79): every exception becomes an error pair. */
  function Handle(e: PyException): (r: Reply)
    ensures r.Reply? && r.text.None? && r.error.Some?
    ensures e.cls == ValueError ==> r.error.value == e.message
  {
    match e.cls
    case UnknownValueError => ErrorReply(UnintelligibleMessage)
    case RequestError => ErrorReply(RequestErrorPrefix + e.message)
    case ValueError => ErrorReply(e.message)
    case OtherException => ErrorReply(UnknownErrorPrefix + e.message)
  }

  /** The Microsoft adapter fell off its branches, so `transcribe_speech` returns `None`. */
  predicate MicrosoftFallThrough(audio: AudioLoad, apiChoice: string,
                                 microsoftClient: Option<ClientHandle>, vendors: Vendors)
  {
    && audio.Recorded?
    && apiChoice == "Microsoft"
    && microsoftClient.Some?
    && vendors.microsoft.Returns?
    && vendors.microsoft.value.reason.UnlistedReason?
  }

  /**
   * `transcribe_speech`: it never raises; it returns a pair with exactly one
   * of text and error, except on the Microsoft fall-through, whose `None` it
   * passes on.
   */
  function TranscribeSpeech(audio: AudioLoad, apiChoice: string, ibmClient: Option<ClientHandle>,
                            microsoftClient: Option<ClientHandle>, vendors: Vendors): (r: Reply)
    ensures r.ExactlyOne()
    ensures r.NoReply? <==> MicrosoftFallThrough(audio, apiChoice, microsoftClient, vendors)
  {
    match TryBody(audio, apiChoice, ibmClient, microsoftClient, vendors)
    case Returns(reply) => reply
    case Raises(e) => Handle(e)
  }

  /** The Google recognizer is called and raises a `ValueError`. */
  predicate GoogleRaisesValueError(audio: AudioLoad, apiChoice: string, vendors: Vendors) {
    audio.Recorded? && apiChoice == "Google" && vendors.google.Raises? && vendors.google.exception.cls == ValueError
  }

  /** A `ValueError` that reaches the handlers carries a non-empty message. */
  predicate ValueErrorsHaveText(audio: AudioLoad, apiChoice: string, vendors: Vendors) {
    && (audio.LoadFailed? && audio.exception.cls == ValueError ==> |audio.exception.message| > 0)
    && (GoogleRaisesValueError(audio, apiChoice, vendors) ==> |vendors.google.exception.message| > 0)
  }

  /**
   * Every error message is non-empty, provided that no `ValueError` with an
   * empty message reaches the handler that returns `str(e)`: every other
   * message is a fixed text or starts with a fixed tag.
   */
  lemma ErrorIsNonEmpty(audio: AudioLoad, apiChoice: string, ibmClient: Option<ClientHandle>,
                        microsoftClient: Option<ClientHandle>, vendors: Vendors)
    requires ValueErrorsHaveText(audio, apiChoice, vendors)
    ensures var r := TranscribeSpeech(audio, apiChoice, ibmClient, microsoftClient, vendors);
      r.Reply? && r.error.Some? ==> |r.error.value| > 0
  {
  }

  /**
   * Without that proviso the message can be empty: a `ValueError` with an
   * empty `str(e)` raised by the audio load gives `(None, "")`.
   */
  lemma EmptyValueErrorGivesEmptyMessage(apiChoice: string, ibmClient: Option<ClientHandle>,
                                         microsoftClient: Option<ClientHandle>, vendors: Vendors)
    ensures TranscribeSpeech(LoadFailed(PyException(ValueError, "")), apiChoice, ibmClient, microsoftClient, vendors)
         == ErrorReply("")
  {
  }

  /** The adapter whose vendor call `transcribe_speech` makes, if any. */
  function Invoked(audio: AudioLoad, apiChoice: string, ibmClient: Option<ClientHandle>,
                   microsoftClient: Option<ClientHandle>): Option<Provider>
  {
    if audio.LoadFailed? then None
    else if apiChoice == "Google" then Some(Google)
    else if apiChoice == "IBM" && ibmClient.Some? then Some(Ibm)
    else if apiChoice == "Microsoft" && microsoftClient.Some? then Some(Microsoft)
    else None
  }

  /** Two sets of vendor outcomes that agree on what the adapter `p` would see. */
  predicate AgreeOn(p: Option<Provider>, v1: Vendors, v2: Vendors) {
    match p
    case None => true
    case Some(Google) => v1.google == v2.google
    case Some(Ibm) => v1.ibm == v2.ibm
    case Some(Microsoft) => v1.microsoft == v2.microsoft
  }

  /**
   * Only the invoked adapter's outcome can affect the reply: when none is
   * invoked, the reply is the same whatever the vendors would have done.
   */
  lemma OnlyInvokedAdapterMatters(audio: AudioLoad, apiChoice: string, ibmClient: Option<ClientHandle>,
                                  microsoftClient: Option<ClientHandle>, v1: Vendors, v2: Vendors)
    requires AgreeOn(Invoked(audio, apiChoice, ibmClient, microsoftClient), v1, v2)
    ensures TranscribeSpeech(audio, apiChoice, ibmClient, microsoftClient, v1)
         == TranscribeSpeech(audio, apiChoice, ibmClient, microsoftClient, v2)
  {
  }

  /** A failed load is reported whatever the provider, the clients or the vendors. */
  lemma LoadFailureComesFirst(e: PyException, apiChoice: string, ibmClient: Option<ClientHandle>,
                              microsoftClient: Option<ClientHandle>, vendors: Vendors)
    ensures Invoked(LoadFailed(e), apiChoice, ibmClient, microsoftClient) == None
    ensures TranscribeSpeech(LoadFailed(e), apiChoice, ibmClient, microsoftClient, vendors) == Handle(e)
  {
  }

  /** Google: the recognizer's text is passed through as it is; what it raises is handled. */
  lemma GoogleReply(ibmClient: Option<ClientHandle>, microsoftClient: Option<ClientHandle>, vendors: Vendors)
    ensures vendors.google.Returns? ==>
      TranscribeSpeech(Recorded, "Google", ibmClient, microsoftClient, vendors) == TextReply(vendors.google.value)
    ensures vendors.google.Raises? ==>
      TranscribeSpeech(Recorded, "Google", ibmClient, microsoftClient, vendors) == Handle(vendors.google.exception)
  {
  }

  /** A missing IBM client gives the fixed message and invokes no adapter. */
  lemma IbmClientMissing(microsoftClient: Option<ClientHandle>, vendors: Vendors)
    ensures Invoked(Recorded, "IBM", None, microsoftClient) == None
    ensures TranscribeSpeech(Recorded, "IBM", None, microsoftClient, vendors)
         == ErrorReply("Client IBM non configuré correctement.")
  {
  }

  /** A missing Microsoft client gives the fixed message and invokes no adapter. */
  lemma MicrosoftClientMissing(ibmClient: Option<ClientHandle>, vendors: Vendors)
    ensures Invoked(Recorded, "Microsoft", ibmClient, None) == None
    ensures TranscribeSpeech(Recorded, "Microsoft", ibmClient, None, vendors)
         == ErrorReply("Client Microsoft non configuré correctement.")
  {
  }

  /**
   * Any other provider string raises `ValueError("API non supportée")`, which
   * the `ValueError` clause turns into its own message; no adapter is invoked.
   */
  lemma UnsupportedProvider(apiChoice: string, ibmClient: Option<ClientHandle>,
                            microsoftClient: Option<ClientHandle>, vendors: Vendors)
    requires apiChoice != "Google" && apiChoice != "IBM" && apiChoice != "Microsoft"
    ensures TryBody(Recorded, apiChoice, ibmClient, microsoftClient, vendors)
         == Raises(PyException(ValueError, "API non supportée"))
    ensures Invoked(Recorded, apiChoice, ibmClient, microsoftClient) == None
    ensures TranscribeSpeech(Recorded, apiChoice, ibmClient, microsoftClient, vendors)
         == ErrorReply("API non supportée")
  {
  }

  /**
   * With a client, the IBM adapter's reply is returned as it is: its errors
   * never reach the handlers of `transcribe_speech`.
   */
  lemma IbmRepliesDirectly(client: ClientHandle, microsoftClient: Option<ClientHandle>, vendors: Vendors)
    ensures TryBody(Recorded, "IBM", Some(client), microsoftClient, vendors).Returns?
    ensures TranscribeSpeech(Recorded, "IBM", Some(client), microsoftClient, vendors)
         == TranscribeWithIbm(vendors.ibm)
  {
  }

  /** With a client, the Microsoft adapter's reply, `None` included, is returned as it is. */
  lemma MicrosoftRepliesDirectly(client: ClientHandle, ibmClient: Option<ClientHandle>, vendors: Vendors)
    ensures TryBody(Recorded, "Microsoft", ibmClient, Some(client), vendors).Returns?
    ensures TranscribeSpeech(Recorded, "Microsoft", ibmClient, Some(client), vendors)
         == TranscribeWithMicrosoft(vendors.microsoft)
  {
  }

  /** The exception table of app.py:72-79. */
  lemma ExceptionTable(message: string)
    ensures Handle(PyException(UnknownValueError, message))
         == ErrorReply("L'API de reconnaissance vocale n'a pas pu comprendre l'audio.")
    ensures Handle(PyException(RequestError, message))
         == ErrorReply("Erreur de la demande à l'API de reconnaissance vocale : " + message)
    ensures Handle(PyException(ValueError, message)) == ErrorReply(message)
    ensures Handle(PyException(OtherException, message)) == ErrorReply("Erreur inconnue : " + message)
  {
  }
}
