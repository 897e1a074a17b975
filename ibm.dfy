/**
 * The result-shaping part of `transcribe_with_ibm` (app.py:21-31): the
 * recognition response is the outcome of the vendor call, and the adapter
 * joins the top alternative of every result segment with single spaces.
 */
module IbmAdapter {
  import opened Wrappers
  import opened Outcomes
  import opened Strings

  /** One ranked alternative of a segment; `transcript` is absent when the key is. */
  datatype Alternative = Alternative(transcript: Option<string>)

  /** One element of `response['results']`; `alternatives` is absent when the key is. */
  datatype ResultSegment = ResultSegment(alternatives: Option<seq<Alternative>>)

  /** The dictionary `get_result()` returns; `results` is absent when the key is. */
  datatype IbmResponse = IbmResponse(results: Option<seq<ResultSegment>>)

  const ErrorPrefix := "Erreur IBM : "

  /** `str(e)` of the `IndexError` raised by `[][0]`. */
  const IndexErrorMessage := "list index out of range"

  /** `str(e)` of the `KeyError` raised by a missing key: the key, quoted. */
  function KeyErrorMessage(key: string): string {
    "'" + key + "'"
  }

  /**
   * `result['alternatives'][0]['transcript']`, or `str(e)` of what it raises:
   * it succeeds exactly when the segment has a first alternative with a
   * transcript, and then yields that transcript.
   */
  function TopTranscript(segment: ResultSegment): (r: Result<string, string>)
    ensures r.Ok? <==>
      && segment.alternatives.Some?
      && |segment.alternatives.value| > 0
      && segment.alternatives.value[0].transcript.Some?
    ensures r.Ok? ==> Some(r.value) == segment.alternatives.value[0].transcript
  {
    match segment.alternatives
    case None => Err(KeyErrorMessage("alternatives"))
    case Some(alternatives) =>
      if |alternatives| == 0 then Err(IndexErrorMessage)
      else
        match alternatives[0].transcript
        case None => Err(KeyErrorMessage("transcript"))
        case Some(t) => Ok(t)
  }

  /** The three lookup failures of one segment, with the text `str(e)` gives for each. */
  lemma TopTranscriptErrors(alternatives: seq<Alternative>)
    ensures TopTranscript(ResultSegment(None)) == Err("'alternatives'")
    ensures TopTranscript(ResultSegment(Some([]))) == Err("list index out of range")
    ensures |alternatives| > 0 && alternatives[0].transcript.None? ==>
      TopTranscript(ResultSegment(Some(alternatives))) == Err("'transcript'")
  {
    assert KeyErrorMessage("alternatives") == "'alternatives'";
    assert KeyErrorMessage("transcript") == "'transcript'";
  }

  /** Segment `k` is the first one whose lookup fails, and it fails with `message`. */
  ghost predicate FirstFailureAt(segments: seq<ResultSegment>, k: int, message: string) {
    && 0 <= k < |segments|
    && (forall i :: 0 <= i < k ==> TopTranscript(segments[i]).Ok?)
    && TopTranscript(segments[k]) == Err(message)
  }

  /**
   * The generator of app.py:29, consumed in segment order: the top transcript
   * of every segment, or the error of the first segment whose lookup fails.
   */
  function TopTranscripts(segments: seq<ResultSegment>): (r: Result<seq<string>, string>)
    ensures r.Ok? <==> forall i :: 0 <= i < |segments| ==> TopTranscript(segments[i]).Ok?
    ensures r.Ok? ==> |r.value| == |segments|
    ensures r.Ok? ==> forall i :: 0 <= i < |segments| ==> r.value[i] == TopTranscript(segments[i]).value
    ensures r.Err? ==> exists k :: FirstFailureAt(segments, k, r.error)
  {
    if |segments| == 0 then Ok([])
    else
      match TopTranscript(segments[0])
      case Err(m) =>
        assert FirstFailureAt(segments, 0, m);
        Err(m)
      case Ok(t) =>
        match TopTranscripts(segments[1..])
        case Err(m) =>
          assert forall k :: FirstFailureAt(segments[1..], k, m) ==> FirstFailureAt(segments, k + 1, m);
          Err(m)
        case Ok(ts) => Ok([t] + ts)
  }

  /**
   * The expression of app.py:29: the joined text, or `str(e)` of what it
   * raises. A missing `results` key fails first; otherwise it succeeds iff
   * every segment's lookup does, and its error is the first failing segment's.
   */
  function AssembleTranscript(response: IbmResponse): (r: Result<string, string>)
    ensures response.results.None? ==> r == Err(KeyErrorMessage("results"))
    ensures response.results.Some? ==>
      (r.Ok? <==> forall i :: 0 <= i < |response.results.value| ==> TopTranscript(response.results.value[i]).Ok?)
    ensures response.results.Some? && r.Err? ==>
      exists k :: FirstFailureAt(response.results.value, k, r.error)
  {
    match response.results
    case None => Err(KeyErrorMessage("results"))
    case Some(segments) =>
      match TopTranscripts(segments)
      case Ok(ts) => Ok(Join(ts))
      case Err(m) => Err(m)
  }

  /**
   * `transcribe_with_ibm`: every failure, of the vendor call or of the
   * assembly, becomes an error pair tagged "Erreur IBM : "; it never raises
   * and always returns a pair.
   */
  function TranscribeWithIbm(call: Call<IbmResponse>): (r: Reply)
    ensures r.Reply? && r.ExactlyOne()
    ensures r.error.Some? ==> ErrorPrefix <= r.error.value
    ensures r.text.Some? <==> call.Returns? && AssembleTranscript(call.value).Ok?
  {
    match call
    case Raises(e) => ErrorReply(ErrorPrefix + e.message)
    case Returns(response) =>
      match AssembleTranscript(response)
      case Ok(t) => TextReply(t)
      case Err(m) => ErrorReply(ErrorPrefix + m)
  }

  /**
   * When every segment has a first alternative with a transcript, the text
   * is those transcripts, in segment order, joined with single spaces.
   */
  lemma IbmTextIsJoin(segments: seq<ResultSegment>, transcripts: seq<string>)
    requires |transcripts| == |segments|
    requires forall i :: 0 <= i < |segments| ==>
      && segments[i].alternatives.Some?
      && |segments[i].alternatives.value| > 0
      && segments[i].alternatives.value[0].transcript == Some(transcripts[i])
    ensures TranscribeWithIbm(Returns(IbmResponse(Some(segments)))) == TextReply(Join(transcripts))
  {
    var r := TopTranscripts(segments);
    assert forall i :: 0 <= i < |segments| ==> TopTranscript(segments[i]) == Ok(transcripts[i]);
    assert r.Ok?;
    assert r.value == transcripts;
  }

  /** No segments at all: the empty text and no error. */
  lemma IbmNoSegments()
    ensures TranscribeWithIbm(Returns(IbmResponse(Some([])))) == TextReply("")
  {
  }

  /** The two segments "hello" and "world" give "hello world". */
  lemma IbmTwoSegments()
    ensures TranscribeWithIbm(Returns(IbmResponse(Some([
      ResultSegment(Some([Alternative(Some("hello"))])),
      ResultSegment(Some([Alternative(Some("world")), Alternative(Some("word"))]))
    ])))) == TextReply("hello world")
  {
    var segments := [
      ResultSegment(Some([Alternative(Some("hello"))])),
      ResultSegment(Some([Alternative(Some("world")), Alternative(Some("word"))]))
    ];
    var words := ["hello", "world"];
    IbmTextIsJoin(segments, words);
    assert words[1..] == ["world"];
    assert Join(words) == "hello" + " " + "world" == "hello world";
  }

  /**
   * When segment `k` is the first whose lookup fails, the adapter returns
   * that segment's error, tagged, and no text.
   */
  lemma IbmFirstFailureWins(segments: seq<ResultSegment>, k: nat)
    requires k < |segments|
    requires forall i :: 0 <= i < k ==> TopTranscript(segments[i]).Ok?
    requires TopTranscript(segments[k]).Err?
    ensures TranscribeWithIbm(Returns(IbmResponse(Some(segments))))
         == ErrorReply(ErrorPrefix + TopTranscript(segments[k]).error)
  {
  }

  /** A segment with an empty alternatives list, after well-formed ones, gives the IndexError text. */
  lemma IbmEmptyAlternatives(segments: seq<ResultSegment>, k: nat)
    requires k < |segments|
    requires forall i :: 0 <= i < k ==> TopTranscript(segments[i]).Ok?
    requires segments[k].alternatives == Some([])
    ensures TranscribeWithIbm(Returns(IbmResponse(Some(segments))))
         == ErrorReply("Erreur IBM : list index out of range")
  {
    IbmFirstFailureWins(segments, k);
    assert ErrorPrefix + IndexErrorMessage == "Erreur IBM : list index out of range";
  }

  /** A response without a `results` key gives the KeyError text. */
  lemma IbmMissingResults()
    ensures TranscribeWithIbm(Returns(IbmResponse(None))) == ErrorReply("Erreur IBM : 'results'")
  {
    assert ErrorPrefix + KeyErrorMessage("results") == "Erreur IBM : 'results'";
  }

  /** A raised vendor call gives its message, tagged. */
  lemma IbmCallRaises(e: PyException)
    ensures TranscribeWithIbm(Raises(e)) == ErrorReply("Erreur IBM : " + e.message)
  {
  }
}
