/**
 * The request records and the two prompts the handlers send to the model:
 * the resume-scoring prompt and the cover-letter prompt.
 */
module Prompts {
  import opened Wrappers
  import opened Text

  datatype JobInfo = JobInfo(
    company: string,
    roleTitle: string,
    location: Option<string>,
    jobDescription: string,
    jobUrl: Option<string>)

  datatype ResumeInfo = ResumeInfo(name: string, text: string)

  /**
   * Cover-letter options after request validation. A field the caller leaves
   * out holds its default; a field the caller sets to `null` holds `None`.
   */
  datatype ExtrasInfo = ExtrasInfo(
    tone: Option<string>,
    length: Option<string>,
    focusPoints: Option<seq<string>>)

  datatype ScoreResumeRequest = ScoreResumeRequest(job: JobInfo, resume: ResumeInfo)

  datatype GenerateCLRequest = GenerateCLRequest(
    job: JobInfo,
    resume: ResumeInfo,
    extras: Option<ExtrasInfo>)

  const DefaultTone: string := "professional but conversational"
  const DefaultLength: string := "3 paragraphs"

  /** `ExtrasInfo()` with every field at its default. */
  const DefaultExtras: ExtrasInfo := ExtrasInfo(Some(DefaultTone), Some(DefaultLength), None)

  /** `payload.extras or ExtrasInfo()`: a given extras object is always truthy. */
  function EffectiveExtras(extras: Option<ExtrasInfo>): ExtrasInfo {
    extras.GetOr(DefaultExtras)
  }

  const FocusPrefix: string := "Focus on these points: "

  /** The focus clause: empty unless there is at least one focus point. */
  function FocusClause(focusPoints: Option<seq<string>>): (r: string)
    ensures r == "" <==> focusPoints.None? || focusPoints.value == []
    ensures r != "" ==> r == FocusPrefix + Join(", ", focusPoints.value)
  {
    if focusPoints.Some? && |focusPoints.value| > 0 then
      FocusPrefix + Join(", ", focusPoints.value)
    else ""
  }

  /** `job.location or "N/A"`: `None` and the empty string are both falsy. */
  function LocationText(location: Option<string>): string {
    match location
    case Some(l) => if l == "" then "N/A" else l
    case None => "N/A"
  }

  /** How an f-string renders an `Optional[str]`: `None` prints as `None`. */
  function Render(o: Option<string>): string {
    match o
    case Some(s) => s
    case None => "None"
  }

  // Fixed fragments of the scoring prompt, before, between and after its two
  // fields; the long ones are verbatim literals, whose line breaks are "\n".
  const ScoreHead: string := @"
You are acting as an ATS style resume evaluator.

Job description:
"
  const ScoreMid: string := "\n\nCandidate resume:\n"
  const ScoreTail: string := @"

Tasks:
1. Give an overall match score from 0 to 100, where 100 means the resume is an excellent match.
2. List the 10 to 15 most important skills, keywords, or phrases from the job description that a hiring manager would expect in a strong resume for this role.
3. Identify which of those keywords or skills are missing or only weakly represented in the resume.
4. Suggest specific edits to the resume that would improve the match, including examples of bullet point changes or additions.

Respond in valid JSON only, with this structure:

{
  ""match_score"": number,
  ""top_keywords"": [ ""keyword1"", ""keyword2"", ... ],
  ""missing_or_weak_keywords"": [ ""kwA"", ""kwB"", ... ],
  ""suggested_resume_edits"": ""string with concrete suggestions""
}
"

  const ScoreFragments: seq<string> := [ScoreHead, ScoreMid, ScoreTail]

  /** The fields of the scoring prompt, in template order. */
  function ScoreFields(job: JobInfo, resume: ResumeInfo): seq<string> {
    [job.jobDescription, resume.text]
  }

  function ScorePrompt(job: JobInfo, resume: ResumeInfo): string {
    Fill(ScoreFragments, ScoreFields(job, resume))
  }

  // Fixed fragments of the cover-letter prompt, around its eight fields.
  const CoverHead: string := @"
You are a job application assistant that writes tailored cover letters.

Job description:
"
  const CompanyLabel: string := "\n\nCompany: "
  const RoleLabel: string := "\nRole title: "
  const LocationLabel: string := "\nLocation: "
  const ResumeLabel: string := "\n\nCandidate resume:\n"
  const ToneLabel: string := @"

Write a cover letter with the following guidelines:
- Tone: "
  const LengthLabel: string := "\n- Length: "
  const FocusLabel: string := "\n- "
  const CoverTail: string := @"

The cover letter should highlight the candidate's most relevant experience and skills for this specific role and company. It should sound natural and professional.

Respond in valid JSON only, with this structure:

{
  ""cover_letter_text"": ""full cover letter text here"",
  ""summary"": ""one sentence summary of why this candidate is a strong fit""
}
"

  const CoverFragments: seq<string> := [
    CoverHead, CompanyLabel, RoleLabel, LocationLabel, ResumeLabel,
    ToneLabel, LengthLabel, FocusLabel, CoverTail]

  /** The fields of the cover-letter prompt, in template order. */
  function CoverFields(req: GenerateCLRequest): seq<string> {
    var extras := EffectiveExtras(req.extras);
    [ req.job.jobDescription, req.job.company, req.job.roleTitle, LocationText(req.job.location),
      req.resume.text, Render(extras.tone), Render(extras.length), FocusClause(extras.focusPoints) ]
  }

  function CoverLetterPrompt(req: GenerateCLRequest): string {
    Fill(CoverFragments, CoverFields(req))
  }

  /**
   * The scoring prompt embeds the job description verbatim right after the
   * "Job description:" heading, and the resume text verbatim right after the
   * "Candidate resume:" heading that follows it.
   */
  lemma ScorePromptEmbeds(job: JobInfo, resume: ResumeInfo)
    ensures OccursAt(ScorePrompt(job, resume), job.jobDescription, |ScoreHead|)
    ensures OccursAt(ScorePrompt(job, resume), resume.text, |ScoreHead| + |job.jobDescription| + |ScoreMid|)
    ensures OccursAt(ScorePrompt(job, resume), ScoreHead + job.jobDescription + ScoreMid, 0)
    ensures Contains(ScorePrompt(job, resume), ScoreMid + resume.text + ScoreTail)
  {
    var fields := ScoreFields(job, resume);
    assert ScoreFragments[0] == ScoreHead && ScoreFragments[1] == ScoreMid;
    assert ScoreFragments[1..][0] == ScoreMid && ScoreFragments[2] == ScoreTail;
    FillEmbeds(ScoreFragments, fields, 0);
    FillEmbeds(ScoreFragments, fields, 1);
    var k := FieldOffset(ScoreFragments, fields, 1);
    assert k == |ScoreHead| + |job.jobDescription| + FieldOffset(ScoreFragments[1..], fields[1..], 0);
    assert OccursAt(ScorePrompt(job, resume), ScoreMid + resume.text + ScoreTail, k - |ScoreMid|);
  }

  /**
   * The scoring prompt is determined by the job description and the resume
   * text alone, and, between fields of the same lengths, it differs whenever
   * either of them differs.
   */
  lemma ScorePromptInputs(job1: JobInfo, resume1: ResumeInfo, job2: JobInfo, resume2: ResumeInfo)
    ensures job1.jobDescription == job2.jobDescription && resume1.text == resume2.text
      ==> ScorePrompt(job1, resume1) == ScorePrompt(job2, resume2)
    ensures |job1.jobDescription| == |job2.jobDescription| && |resume1.text| == |resume2.text|
      && ScorePrompt(job1, resume1) == ScorePrompt(job2, resume2)
      ==> job1.jobDescription == job2.jobDescription && resume1.text == resume2.text
  {
    var f1, f2 := ScoreFields(job1, resume1), ScoreFields(job2, resume2);
    if |f1[0]| == |f2[0]| && |f1[1]| == |f2[1]| {
      FillDeterminesFields(ScoreFragments, f1, f2);
    }
  }

  /**
   * Every field of the cover-letter prompt appears verbatim between the fixed
   * fragments around it.
   */
  lemma CoverLetterPromptEmbeds(req: GenerateCLRequest)
    ensures var p, extras := CoverLetterPrompt(req), EffectiveExtras(req.extras);
      && OccursAt(p, CoverHead + req.job.jobDescription + CompanyLabel, 0)
      && Contains(p, CompanyLabel + req.job.company + RoleLabel)
      && Contains(p, RoleLabel + req.job.roleTitle + LocationLabel)
      && Contains(p, LocationLabel + LocationText(req.job.location) + ResumeLabel)
      && Contains(p, ResumeLabel + req.resume.text + ToneLabel)
      && Contains(p, ToneLabel + Render(extras.tone) + LengthLabel)
      && Contains(p, LengthLabel + Render(extras.length) + FocusLabel)
      && Contains(p, FocusLabel + FocusClause(extras.focusPoints) + CoverTail)
  {
    assert CoverFragments[0] == CoverHead && CoverFragments[1] == CompanyLabel;
    assert CoverFragments[2] == RoleLabel && CoverFragments[3] == LocationLabel;
    assert CoverFragments[4] == ResumeLabel && CoverFragments[5] == ToneLabel;
    assert CoverFragments[6] == LengthLabel && CoverFragments[7] == FocusLabel;
    assert CoverFragments[8] == CoverTail;
    FillEmbeds(CoverFragments, CoverFields(req), 0);
    CoverFieldEmbedded(req, 1);
    CoverFieldEmbedded(req, 2);
    CoverFieldEmbedded(req, 3);
    CoverFieldEmbedded(req, 4);
    CoverFieldEmbedded(req, 5);
    CoverFieldEmbedded(req, 6);
    CoverFieldEmbedded(req, 7);
  }

  lemma CoverFieldEmbedded(req: GenerateCLRequest, i: nat)
    requires i < 8
    ensures Contains(CoverLetterPrompt(req), CoverFragments[i] + CoverFields(req)[i] + CoverFragments[i + 1])
  {
    var fields := CoverFields(req);
    FillEmbeds(CoverFragments, fields, i);
    var k := FieldOffset(CoverFragments, fields, i) - |CoverFragments[i]|;
    assert OccursAt(CoverLetterPrompt(req), CoverFragments[i] + fields[i] + CoverFragments[i + 1], k);
  }

  /**
   * The cover-letter prompt is determined by the eight rendered fields; in
   * particular the job URL and the candidate's name never reach it.
   */
  lemma CoverLetterPromptInputs(req: GenerateCLRequest, url: Option<string>, name: string)
    ensures forall req' :: CoverFields(req') == CoverFields(req) ==> CoverLetterPrompt(req') == CoverLetterPrompt(req)
    ensures CoverLetterPrompt(req.(job := req.job.(jobUrl := url), resume := req.resume.(name := name)))
      == CoverLetterPrompt(req)
  {
  }

  /** The location line reads "N/A" for a missing or empty location, else the location itself. */
  lemma LocationFallback(req: GenerateCLRequest)
    ensures req.job.location.None? || req.job.location == Some("")
      ==> Contains(CoverLetterPrompt(req), LocationLabel + "N/A" + ResumeLabel)
    ensures req.job.location.Some? && req.job.location.value != ""
      ==> Contains(CoverLetterPrompt(req), LocationLabel + req.job.location.value + ResumeLabel)
  {
    CoverLetterPromptEmbeds(req);
  }

  /**
   * Without extras the prompt is the one for `ExtrasInfo()`: the default tone
   * and length, and a bare "- " bullet line with no focus clause after it.
   */
  lemma DefaultExtrasPrompt(job: JobInfo, resume: ResumeInfo)
    ensures CoverLetterPrompt(GenerateCLRequest(job, resume, None))
      == CoverLetterPrompt(GenerateCLRequest(job, resume, Some(DefaultExtras)))
    ensures var p := CoverLetterPrompt(GenerateCLRequest(job, resume, None));
      && Contains(p, ToneLabel + "professional but conversational" + LengthLabel)
      && Contains(p, LengthLabel + "3 paragraphs" + FocusLabel)
      && Contains(p, FocusLabel + CoverTail)
  {
    var req := GenerateCLRequest(job, resume, None);
    CoverLetterPromptEmbeds(req);
    assert FocusLabel + FocusClause(None) + CoverTail == FocusLabel + CoverTail;
  }

  /**
   * A non-empty focus list is rendered after the prefix as its items in
   * order, separated by ", ": splitting there gives the items back whenever
   * no item itself contains ", ". A single item is rendered alone.
   */
  lemma FocusClauseItems(items: seq<string>)
    requires |items| >= 1
    requires forall i :: 0 <= i < |items| ==> !Contains(items[i], ", ")
    ensures |FocusPrefix| <= |FocusClause(Some(items))|
    ensures FocusClause(Some(items))[..|FocusPrefix|] == FocusPrefix
    ensures Split(FocusClause(Some(items))[|FocusPrefix|..], ", ") == items
    ensures |items| == 1 ==> FocusClause(Some(items)) == FocusPrefix + items[0]
  {
    var joined := Join(", ", items);
    assert (FocusPrefix + joined)[|FocusPrefix|..] == joined;
    SplitJoin(items);
  }

  /** Three focus points are rendered as the prefix and "a, b, c". */
  lemma FocusClauseExample()
    ensures FocusClause(Some(["a", "b", "c"])) == "Focus on these points: a, b, c"
  {
  }
}
