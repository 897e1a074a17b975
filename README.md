# Speech-to-text dispatch of `vocale`, modelled in Dafny

`vocale` is a small web form. A user uploads an audio file, picks Google, IBM or
Microsoft, and gets back either a transcript or an error message in French. This
project models the decision and result-shaping logic of `app.py`:

- `transcribe_speech` loads the audio first. It then dispatches on the provider
  string and on whether the IBM or Microsoft client handle is present. Every
  exception raised on the way becomes a `(None, message)` pair.
- `transcribe_with_ibm` joins the top alternative of every result segment with
  single spaces. It turns every failure into an error tagged `"Erreur IBM : "`.
- `transcribe_with_microsoft` maps the recognizer's result reason to a reply.
  For a reason it does not test, it returns Python `None`.

Each vendor call, and the audio loading, is an input value `Call<T>` in the model:
it either returned a value or raised an exception. An exception is its class and
its `str(e)`, which is an opaque string. The classes are the four that the
`except` clauses tell apart. The result of a transcription function is a `Reply`:
the pair `(text, error)`, or `NoReply` for Python `None`.

Modules: `Wrappers` (Option, Result), `Outcomes` (exceptions, calls, replies),
`Strings` (`' '.join` and its partner `split(' ')`), `IbmAdapter`,
`MicrosoftAdapter` and `Orchestrator`.

One might expect a few things of this code that it does not do. The model
follows the code:

- One might expect the orchestrator always to return a result. In the code,
  an unlisted Microsoft reason makes `transcribe_speech` return `None`, and the
  model returns `NoReply` there (`Orchestrator.TranscribeSpeech` states exactly
  when).
- One might expect successful text to be non-empty. In the code, an IBM
  response with no segments gives the empty text `""`
  (`IbmAdapter.IbmNoSegments`), and the Google and Microsoft texts are passed
  on without inspection.
- One might expect every error message to be non-empty. In the code, a
  `ValueError` whose `str(e)` is empty, raised by the audio load or by the
  Google recognizer, gives `(None, "")` through app.py:76-77
  (`Orchestrator.EmptyValueErrorGivesEmptyMessage`). Every other error message
  is non-empty (`Orchestrator.ErrorIsNonEmpty`).
- One might expect the Google adapter to turn its own failures into error
  messages. In the code, `recognize_google` raises, and the orchestrator's
  handlers map what it raises.

## Model

| member | source | states |
|---|---|---|
| `Strings.Join` | app.py:29 | `' '.join`: no parts give `""`; otherwise the text starts with the first part and is as long as all parts together plus one space per pair of neighbours |
| `Strings.JoinSplit` | app.py:29 | a fact about Python's `join`/`split(' ')` pair rather than about the program: splitting any string on single spaces and joining it again gives the string back |
| `Strings.SplitJoin` | app.py:29 | a fact about Python's `join`/`split(' ')` pair rather than about the program: a join of one or more space-free parts splits back into exactly those parts; real transcripts, which contain spaces, are not covered |
| `IbmAdapter.TopTranscript` | app.py:29 | `result['alternatives'][0]['transcript']` succeeds iff the segment has a first alternative with a transcript, and then it yields that transcript |
| `IbmAdapter.TopTranscriptErrors` | app.py:29 | the three lookup failures of a segment give `str(e)`: `"'alternatives'"` for a missing key, `"list index out of range"` for an empty alternatives list, and `"'transcript'"` for a missing transcript |
| `IbmAdapter.TopTranscripts` | app.py:29 | the generator succeeds iff every segment has a first alternative with a transcript; then it yields those transcripts, one per segment, in order; otherwise its error is that of the first segment that fails |
| `IbmAdapter.AssembleTranscript` | app.py:29 | a missing `results` key gives `"'results'"`; otherwise the expression succeeds iff every segment's lookup succeeds, and its error is that of the first failing segment |
| `IbmAdapter.TranscribeWithIbm` | app.py:21-31 | always returns a pair with exactly one of text and error; every error carries the "Erreur IBM : " tag; text is present iff the vendor call returned and the assembly succeeded |
| `IbmAdapter.IbmTextIsJoin` | app.py:29 | when every segment has a first alternative with a transcript, the text is those transcripts joined with single spaces, in segment order, and there is no error |
| `IbmAdapter.IbmNoSegments` | app.py:29 | an empty `results` list gives the empty text and no error |
| `IbmAdapter.IbmTwoSegments` | app.py:29 | the segments "hello" and "world" give "hello world"; lower-ranked alternatives are ignored |
| `IbmAdapter.IbmFirstFailureWins` | app.py:29-31 | when segment k is the first whose lookup fails, the reply is that segment's error, tagged, with no text |
| `IbmAdapter.IbmEmptyAlternatives` | app.py:29-31 | a segment with an empty alternatives list, after well-formed ones, gives `(None, "Erreur IBM : list index out of range")` |
| `IbmAdapter.IbmMissingResults` | app.py:29-31 | a response without a `results` key gives `(None, "Erreur IBM : 'results'")` |
| `IbmAdapter.IbmCallRaises` | app.py:22-31 | a vendor call that raises gives `(None, "Erreur IBM : " + str(e))` |
| `MicrosoftAdapter.TranscribeWithMicrosoft` | app.py:34-49 | returns `None` iff the call returned an unlisted reason; otherwise a pair with exactly one of text and error; text is present iff the reason is RecognizedSpeech, and it is the recognizer's text |
| `MicrosoftAdapter.MicrosoftReasonTable` | app.py:41-49 | RecognizedSpeech gives `(text, None)`; NoMatch gives `(None, "Aucune correspondance trouvée.")`; Canceled gives `(None, "Annulation : " + reason)`, or the tagged Microsoft error if reading the cancellation details raises; a raised call gives `(None, "Erreur Microsoft : " + str(e))`; any other reason gives `None` |
| `Orchestrator.TryBody` | app.py:53-71 | a failed load raises its exception before anything else; the `try` body raises iff the load fails, the Google recognizer raises, or the provider string is unsupported; the IBM and Microsoft adapters and the missing-client branches always return |
| `Orchestrator.Handle` | app.py:72-79 | every exception becomes an error pair with no text; a `ValueError` gives exactly `str(e)` |
| `Orchestrator.ExceptionTable` | app.py:72-79 | UnknownValueError gives the fixed "could not understand" message; RequestError gives the request-error prefix plus the cause; ValueError gives `str(e)`; anything else gives "Erreur inconnue : " plus the cause |
| `Orchestrator.TranscribeSpeech` | app.py:52-79 | never raises; returns a pair with exactly one of text and error, except that it returns `None` iff the audio loaded, the choice is "Microsoft", the client is present and the recognizer returned an unlisted reason |
| `Orchestrator.ErrorIsNonEmpty` | app.py:52-79 | every error message is non-empty, provided that any `ValueError` from the audio load or the Google recognizer has a non-empty message |
| `Orchestrator.EmptyValueErrorGivesEmptyMessage` | app.py:53-77 | a `ValueError` with an empty `str(e)` raised by the audio load gives `(None, "")` whatever the provider |
| `Orchestrator.OnlyInvokedAdapterMatters` | app.py:53-71 | the reply depends on the vendors only through the one adapter the dispatch invokes; when none is invoked, the reply is the same whatever the vendors would do |
| `Orchestrator.LoadFailureComesFirst` | app.py:53-56 | a failed audio load invokes no adapter and yields its mapped error, whatever the provider and client state |
| `Orchestrator.GoogleReply` | app.py:58-59 | with "Google", the recognizer's text is returned unchanged as `(text, None)`; what the recognizer raises is mapped by the handlers |
| `Orchestrator.IbmClientMissing` | app.py:60-64 | "IBM" without a client gives `(None, "Client IBM non configuré correctement.")` and invokes no adapter |
| `Orchestrator.MicrosoftClientMissing` | app.py:65-69 | "Microsoft" without a client gives `(None, "Client Microsoft non configuré correctement.")` and invokes no adapter |
| `Orchestrator.UnsupportedProvider` | app.py:70-77 | any other provider string raises `ValueError("API non supportée")`; the handler returns `(None, "API non supportée")`; no adapter is invoked |
| `Orchestrator.IbmRepliesDirectly` | app.py:60-62 | with a client, the IBM adapter's reply is returned as it is and never goes through the handlers |
| `Orchestrator.MicrosoftRepliesDirectly` | app.py:65-67 | with a client, the Microsoft adapter's reply, `None` included, is returned as it is |

## Left out

- The Streamlit user interface in `main` (app.py:87-141), including the credential checks at app.py:101 and app.py:111. Clients are optional inputs of the dispatch.
- `initialize_ibm_client` and `initialize_microsoft_client` (app.py:9-14): they only call SDK constructors. A present client is always truthy in the model.
- The vendor calls `recognize_google`, `recognize(...).get_result()` and `recognize_once_async().get()`, and the `CancellationDetails` constructor: network and SDK calls. Their outcomes are inputs. The async future is one blocking outcome.
- Audio decoding (`sr.AudioFile`, `record`, `get_wav_data`): a foreign library. Loading is "recorded" or "raised". The WAV conversion inside each adapter is part of that adapter's vendor outcome.
- The language tag, the fixed IBM request parameters (`audio/wav`, `en-US_BroadbandModel`) and the audio bytes: they only reach vendor calls, whose outcomes are inputs.
- `save_text_to_file` (app.py:82-84): file I/O only.
- The contents of exception messages: they are opaque strings.
- IBM responses whose values have the wrong type (a `results` value that is not a list, or a transcript that is not a string): the vendor's schema. Missing keys and empty alternative lists are modelled.
- Exceptions that do not derive from `Exception` (such as `KeyboardInterrupt`): they escape every handler and are not modelled.
