/**
 * The two POST handlers once the model gateway has answered: checking the
 * parsed JSON object the model returned and building the typed response.
 */
module Handlers {
  import opened Wrappers
  import opened JsonValues
  import opened Rounding
  import opened Prompts

  /**
   * What the gateway makes of one prompt: the parsed JSON object, a reply
   * that is not valid JSON, or any other failure of the call, with its message.
   */
  datatype GatewayOutcome =
    | Parsed(data: map<string, Json>)
    | ModelOutputFormatError
    | ModelGatewayError(message: string)

  /** Every way a handler fails; each one reaches the caller as status 500. */
  datatype Failure =
    | InvalidJson                     // the gateway's reply was not valid JSON
    | GatewayFailed(message: string)  // the gateway call itself failed
    | MissingKey(key: string)         // a required key of the score reply is absent
    | MissingCoverLetterText          // the cover-letter reply has no `cover_letter_text`
    | ScoreNotNumeric                 // `float` or `round` raised on `match_score`
    | InvalidField(field: string)     // the response model rejected a value

  /**
   * The `detail` the caller sees. Failures raised as `HTTPException` carry
   * one; the others escape the handler and get the framework's generic body.
   * The longer literals are split into short pieces so that the verifier can
   * index their characters in `DetailShape`.
   */
  function Detail(f: Failure): Option<string> {
    match f
    case InvalidJson => Some("OpenAI did not return valid JSON." + " Check the prompt or response.")
    case GatewayFailed(m) => Some("Error while calling OpenAI: " + m)
    case MissingKey(k) => Some("Missing key in OpenAI response: " + k)
    case MissingCoverLetterText => Some("Missing 'cover_letter_text'" + " in OpenAI response")
    case ScoreNotNumeric => None
    case InvalidField(_) => None
  }

  datatype ScoreResumeResponse = ScoreResumeResponse(
    matchScore: int,
    topKeywords: seq<string>,
    missingOrWeakKeywords: seq<string>,
    suggestedResumeEdits: string)

  datatype GenerateCLResponse = GenerateCLResponse(
    coverLetterText: string,
    summary: Option<string>)

  /** The keys the score reply must hold, in the order they are checked. */
  const RequiredScoreKeys: seq<string> :=
    ["match_score", "top_keywords", "missing_or_weak_keywords", "suggested_resume_edits"]

  /** `k` is absent from `data` and is the first of `keys` that is. */
  ghost predicate FirstAbsent(data: map<string, Json>, keys: seq<string>, k: string) {
    exists i :: 0 <= i < |keys| && keys[i] == k && k !in data
      && forall j :: 0 <= j < i ==> keys[j] in data
  }

  /** The loop over the required keys, stopping at the first one missing. */
  function FirstMissing(data: map<string, Json>, keys: seq<string>): (r: Option<string>)
    ensures r.None? <==> forall k :: k in keys ==> k in data
    ensures r.Some? ==> FirstAbsent(data, keys, r.value)
  {
    if |keys| == 0 then None
    else if keys[0] !in data then Some(keys[0])
    else FirstMissing(data, keys[1..])
  }

  /**
   * `int(round(float(v)))` on the `match_score` value. `floatOfString` is
   * Python's `float` on a string, `None` where it raises or gives a
   * non-finite value (on which `round` raises).
   */
  function CoerceScore(v: Json, floatOfString: string -> Option<real>): (r: Option<int>)
    ensures v.JNumber? ==> r.Some? && IsRoundHalfEven(v.x, r.value)
    ensures v.JBool? ==> r == Some(if v.b then 1 else 0)
    ensures v.JString? ==> (r.Some? <==> floatOfString(v.s).Some?)
    ensures v.JString? && r.Some? ==> IsRoundHalfEven(floatOfString(v.s).value, r.value)
    ensures v.JNull? || v.JNonFinite? || v.JArray? || v.JObject? ==> r.None?
  {
    match v
    case JNumber(x) => Some(RoundHalfEven(x))
    case JBool(b) => Some(if b then 1 else 0)
    case JString(s) =>
      (match floatOfString(s)
       case Some(x) => Some(RoundHalfEven(x))
       case None => None)
    case _ => None
  }

  /** `ScoreResumeResponse(...)`: the model checks its fields in declaration order. */
  function BuildScoreResponse(score: int, top: Json, missing: Json, edits: Json): Result<ScoreResumeResponse, Failure> {
    match (StringList(top), StringList(missing), Str(edits))
    case (None, _, _) => Err(InvalidField("top_keywords"))
    case (_, None, _) => Err(InvalidField("missing_or_weak_keywords"))
    case (_, _, None) => Err(InvalidField("suggested_resume_edits"))
    case (Some(t), Some(m), Some(e)) => Ok(ScoreResumeResponse(score, t, m, e))
  }

  /**
   * The score handler after the gateway returned `data`: a missing key is
   * reported first, then an unusable score, then an ill-typed field; on
   * success the list and text fields are the object's own values.
   */
  function ValidateScore(data: map<string, Json>, floatOfString: string -> Option<real>): (r: Result<ScoreResumeResponse, Failure>)
    ensures (r.Err? && r.error.MissingKey?) <==> exists k :: k in RequiredScoreKeys && k !in data
    ensures r.Err? && r.error.MissingKey? ==> FirstAbsent(data, RequiredScoreKeys, r.error.key)
    ensures r.Ok? <==>
      && (forall k :: k in RequiredScoreKeys ==> k in data)
      && CoerceScore(data["match_score"], floatOfString).Some?
      && StringList(data["top_keywords"]).Some?
      && StringList(data["missing_or_weak_keywords"]).Some?
      && data["suggested_resume_edits"].JString?
    ensures r.Ok? ==>
      && CoerceScore(data["match_score"], floatOfString) == Some(r.value.matchScore)
      && data["top_keywords"] == JArray(JStrings(r.value.topKeywords))
      && data["missing_or_weak_keywords"] == JArray(JStrings(r.value.missingOrWeakKeywords))
      && data["suggested_resume_edits"] == JString(r.value.suggestedResumeEdits)
  {
    match FirstMissing(data, RequiredScoreKeys)
    case Some(k) => Err(MissingKey(k))
    case None =>
      match CoerceScore(data["match_score"], floatOfString)
      case None => Err(ScoreNotNumeric)
      case Some(score) =>
        BuildScoreResponse(
          score,
          Get(data, "top_keywords", JArray([])),
          Get(data, "missing_or_weak_keywords", JArray([])),
          Get(data, "suggested_resume_edits", JString("")))
  }

  /** `GenerateCLResponse(...)`: `cover_letter_text` must be a string, `summary` a string or null. */
  function BuildCoverLetterResponse(text: Json, summary: Json): Result<GenerateCLResponse, Failure> {
    match (Str(text), OptionalStr(summary))
    case (None, _) => Err(InvalidField("cover_letter_text"))
    case (_, None) => Err(InvalidField("summary"))
    case (Some(t), Some(s)) => Ok(GenerateCLResponse(t, s))
  }

  /**
   * The cover-letter handler after the gateway returned `data`: it is refused
   * for a missing `cover_letter_text` and nothing else that is absent; an
   * absent or null `summary` gives no summary.
   */
  function ValidateCoverLetter(data: map<string, Json>): (r: Result<GenerateCLResponse, Failure>)
    ensures r == Err(MissingCoverLetterText) <==> "cover_letter_text" !in data
    ensures r.Ok? <==>
      && "cover_letter_text" in data
      && data["cover_letter_text"].JString?
      && ("summary" in data ==> data["summary"].JNull? || data["summary"].JString?)
    ensures r.Ok? ==> data["cover_letter_text"] == JString(r.value.coverLetterText)
    ensures r.Ok? ==> (r.value.summary.Some? <==> "summary" in data && data["summary"].JString?)
    ensures r.Ok? && r.value.summary.Some? ==> data["summary"] == JString(r.value.summary.value)
  {
    if "cover_letter_text" !in data then Err(MissingCoverLetterText)
    else BuildCoverLetterResponse(Get(data, "cover_letter_text", JString("")), Get(data, "summary", JNull))
  }

  /** A gateway failure becomes the handler's failure unchanged. */
  function GatewayFailure(outcome: GatewayOutcome): Failure
    requires !outcome.Parsed?
  {
    if outcome.ModelOutputFormatError? then InvalidJson else GatewayFailed(outcome.message)
  }

  /**
   * POST /score-resume, with the gateway and Python's `float` on strings as
   * parameters. A gateway failure is passed on with no partial response; a
   * missing key is the first one the model's reply to this request's prompt
   * lacks; a response carries that reply's lists and text as they were.
   */
  function ScoreResume(req: ScoreResumeRequest, gateway: string -> GatewayOutcome, floatOfString: string -> Option<real>): (r: Result<ScoreResumeResponse, Failure>)
    ensures var outcome := gateway(ScorePrompt(req.job, req.resume));
      && (!outcome.Parsed? ==> r == Err(GatewayFailure(outcome)))
      && (outcome.Parsed? ==> r == ValidateScore(outcome.data, floatOfString))
      && (r.Err? && r.error.MissingKey? ==> outcome.Parsed? && FirstAbsent(outcome.data, RequiredScoreKeys, r.error.key))
      && (r.Ok? ==>
          && outcome.Parsed?
          && (forall k :: k in RequiredScoreKeys ==> k in outcome.data)
          && outcome.data["top_keywords"] == JArray(JStrings(r.value.topKeywords))
          && outcome.data["missing_or_weak_keywords"] == JArray(JStrings(r.value.missingOrWeakKeywords))
          && outcome.data["suggested_resume_edits"] == JString(r.value.suggestedResumeEdits))
  {
    match gateway(ScorePrompt(req.job, req.resume))
    case Parsed(data) => ValidateScore(data, floatOfString)
    case outcome => Err(GatewayFailure(outcome))
  }

  /**
   * POST /generate-cover-letter, with the gateway as a parameter. A gateway
   * failure is passed on; the reply to this request's prompt is refused for
   * lacking `cover_letter_text`, and a response carries that text as it was.
   */
  function GenerateCoverLetter(req: GenerateCLRequest, gateway: string -> GatewayOutcome): (r: Result<GenerateCLResponse, Failure>)
    ensures var outcome := gateway(CoverLetterPrompt(req));
      && (!outcome.Parsed? ==> r == Err(GatewayFailure(outcome)))
      && (outcome.Parsed? ==> r == ValidateCoverLetter(outcome.data))
      && (r == Err(MissingCoverLetterText) <==> outcome.Parsed? && "cover_letter_text" !in outcome.data)
      && (r.Ok? ==> outcome.Parsed? && outcome.data["cover_letter_text"] == JString(r.value.coverLetterText))
  {
    match gateway(CoverLetterPrompt(req))
    case Parsed(data) => ValidateCoverLetter(data)
    case outcome => Err(GatewayFailure(outcome))
  }

  /** Distinct failures that carry a detail carry distinct details. */
  lemma DetailsDistinct(f1: Failure, f2: Failure)
    requires Detail(f1).Some? && Detail(f1) == Detail(f2)
    ensures f1 == f2
  {
    DetailShape(f1);
    DetailShape(f2);
    var d := Detail(f1).value;
    if f1.GatewayFailed? && f2.GatewayFailed? {
      assert f1.message == d[|"Error while calling OpenAI: "|..] == f2.message;
    } else if f1.MissingKey? && f2.MissingKey? {
      assert f1.key == d[|"Missing key in OpenAI response: "|..] == f2.key;
    }
  }

  /** The characters that tell the four details apart. */
  lemma DetailShape(f: Failure)
    ensures Detail(f).Some? ==> |Detail(f).value| > 8
    ensures f.InvalidJson? ==> Detail(f).value[0] == 'O'
    ensures f.GatewayFailed? ==> Detail(f).value[0] == 'E'
    ensures f.MissingKey? ==> Detail(f).value[0] == 'M' && Detail(f).value[8] == 'k'
    ensures f.MissingCoverLetterText? ==> Detail(f).value[0] == 'M' && Detail(f).value[8] == '\''
  {
  }

  /** The JSON object a well-behaved model returns for a given score response. */
  function ScoreReply(resp: ScoreResumeResponse): map<string, Json> {
    map[
      "match_score" := JNumber(resp.matchScore as real),
      "top_keywords" := JArray(JStrings(resp.topKeywords)),
      "missing_or_weak_keywords" := JArray(JStrings(resp.missingOrWeakKeywords)),
      "suggested_resume_edits" := JString(resp.suggestedResumeEdits)]
  }

  /** The JSON object a well-behaved model returns for a given cover-letter response. */
  function CoverLetterReply(resp: GenerateCLResponse): map<string, Json> {
    map["cover_letter_text" := JString(resp.coverLetterText)]
      + (if resp.summary.Some? then map["summary" := JString(resp.summary.value)] else map[])
  }

  /**
   * When the model replies with exactly the fields of a response (an integral
   * score), the score handler returns that response.
   */
  lemma ScoreResumeRoundTrip(req: ScoreResumeRequest, resp: ScoreResumeResponse, floatOfString: string -> Option<real>)
    ensures ScoreResume(req, _ => Parsed(ScoreReply(resp)), floatOfString) == Ok(resp)
  {
    var data := ScoreReply(resp);
    RoundIntegral(resp.matchScore);
    StringListRoundTrip(data["top_keywords"], resp.topKeywords);
    StringListRoundTrip(data["missing_or_weak_keywords"], resp.missingOrWeakKeywords);
    var r := ValidateScore(data, floatOfString);
    assert r.Ok?;
    JStringsInjective(resp.topKeywords, r.value.topKeywords);
    JStringsInjective(resp.missingOrWeakKeywords, r.value.missingOrWeakKeywords);
  }

  lemma JStringsInjective(xs: seq<string>, ys: seq<string>)
    requires JStrings(xs) == JStrings(ys)
    ensures xs == ys
  {
  }

  /** When the model replies with exactly the fields of a response, the cover-letter handler returns it. */
  lemma CoverLetterRoundTrip(req: GenerateCLRequest, resp: GenerateCLResponse)
    ensures GenerateCoverLetter(req, _ => Parsed(CoverLetterReply(resp))) == Ok(resp)
  {
  }

  /** An integral score is returned unchanged. */
  lemma IntegralScorePassesThrough(n: int, floatOfString: string -> Option<real>)
    ensures CoerceScore(JNumber(n as real), floatOfString) == Some(n)
  {
  }

  /**
   * With both `top_keywords` and `suggested_resume_edits` absent, the failure
   * names `top_keywords`, the earlier of the two in the checking order.
   */
  lemma FirstMissingKeyReported(floatOfString: string -> Option<real>)
    ensures ValidateScore(map["match_score" := JNumber(50.0), "missing_or_weak_keywords" := JArray([])], floatOfString)
      == Err(MissingKey("top_keywords"))
  {
  }

  /**
   * A request for "Engineer" at "Acme" whose model reply scores 82.6: the
   * response scores 83 and keeps both keyword lists as they were.
   */
  lemma AcmeScenario(floatOfString: string -> Option<real>)
    ensures var req := ScoreResumeRequest(
        JobInfo("Acme", "Engineer", None, "Python, SQL", None),
        ResumeInfo("A", "5 years Python"));
      var reply := map[
        "match_score" := JNumber(82.6),
        "top_keywords" := JArray([JString("Python"), JString("SQL")]),
        "missing_or_weak_keywords" := JArray([JString("SQL")]),
        "suggested_resume_edits" := JString("Add SQL examples.")];
      ScoreResume(req, _ => Parsed(reply), floatOfString)
        == Ok(ScoreResumeResponse(83, ["Python", "SQL"], ["SQL"], "Add SQL examples."))
  {
    RoundHalfEvenUnique(82.6, 83);
    assert [JString("Python"), JString("SQL")] == JStrings(["Python", "SQL"]);
    assert [JString("SQL")] == JStrings(["SQL"]);
    StringListRoundTrip(JArray(JStrings(["Python", "SQL"])), ["Python", "SQL"]);
    StringListRoundTrip(JArray(JStrings(["SQL"])), ["SQL"]);
  }
}
