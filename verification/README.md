# Job Helper API — a Dafny model of its request handling

The Job Helper API is a small HTTP service with two endpoints. `POST /score-resume` scores a resume against a job posting. `POST /generate-cover-letter` drafts a cover letter. Each handler follows the same steps:

1. It fills a fixed prompt template with fields of the request.
2. It sends the prompt to a language model through a gateway, which returns either a parsed JSON object or one of two failures.
3. It checks that the object holds the keys it needs.
4. It builds a typed response from the object.

This project models steps 1, 3 and 4 as pure Dafny functions. Step 2 is modelled only as an abstract outcome. The model then proves what those functions promise.

- `wrappers.dfy`: `Option` (Python's `None`) and `Result` (a response or a failure).
- `json_values.dfy`: the parsed JSON value, Python's `dict.get`, and how the response types accept a JSON value: `str`, `List[str]` and `Optional[str]`.
- `text.dfy`: an f-string as a template (`Fill`: fixed fragments interleaved with rendered fields), Python's `str.join`, and `str.split` as its inverse.
- `rounding.dfy`: Python's `round`, which rounds to the nearest integer and breaks ties towards the even one.
- `prompts.dfy`: the request records and the `ExtrasInfo` defaults. It also holds the focus clause, the `"N/A"` location fallback, the rendering of an `Optional[str]` inside an f-string (`None` prints as `None`), and the two prompts.
- `handlers.dfy`: the gateway outcome, the failures and their `detail` strings, and the search for the first missing required key. It also holds the `match_score` coercion, the construction of both responses, and both handlers.

Each handler takes the gateway as a function from prompt to outcome, so it is tied to the prompt it actually sends. The score handler also takes Python's `float` on strings as a function, because that conversion is library code.

Behaviour of the code that is easy to miss, and that the model keeps:

- When `top_keywords`, `missing_or_weak_keywords` or `suggested_resume_edits` is `null`, it gets no default. The key check passes, and `data.get` returns `None` because the key is present. The response model rejects `None`, so the handler fails with `InvalidField`. A `null` `match_score` is read with `data["match_score"]`, and `float(None)` raises, which gives `ScoreNotNumeric`.
- Only an absent `cover_letter_text` gives `MissingCoverLetterText`. The response model also rejects a `cover_letter_text` that is not a string, and a `summary` that is neither a string nor `null`; each gives `InvalidField`.
- An `extras` object whose `tone` or `length` is explicitly `null` renders as `None` in the prompt. Only an absent field takes its default.
- Every failure reaches the caller with status 500. Failures raised as `HTTPException` carry a `detail`. A `match_score` that cannot be converted and an ill-typed field instead raise an exception the handler does not catch, so they get the framework's generic body (`Detail` is `None`).

## Model

| member | source | states |
|---|---|---|
| `Handlers.FirstMissing` | main.py:144-149 | The search over the required keys returns nothing exactly when every key is present. Otherwise it returns a key that is absent and that comes before every other absent key in the checking order. |
| `Handlers.ValidateScore` | main.py:138-158 | After a successful gateway call, the reply fails with `MissingKey` exactly when one of the four required keys is absent, and names the first one missing in the order `match_score`, `top_keywords`, `missing_or_weak_keywords`, `suggested_resume_edits`. It succeeds exactly when all four are present, the score converts and the three other fields have their declared types. On success the `.get` defaults are never used: both lists equal the reply's arrays item for item, in order, and the edits equal the reply's string. |
| `Handlers.FirstMissingKeyReported` | main.py:144-149 | With `top_keywords` and `suggested_resume_edits` both absent, the failure names `top_keywords`. |
| `Handlers.CoerceScore` | main.py:151 | A JSON number becomes an integer nearest to it, the even one on a tie. A boolean becomes 1 or 0. A string converts exactly when Python's `float` accepts it as a finite value. `null`, NaN or infinity, arrays and objects fail. |
| `Handlers.IntegralScorePassesThrough` | main.py:151 | An integral `match_score` is returned unchanged. |
| `Handlers.ValidateCoverLetter` | main.py:203-212 | The reply fails with `MissingCoverLetterText` exactly when `cover_letter_text` is absent. It succeeds exactly when that key holds a string and `summary` is absent, `null` or a string. The letter text is the reply's string. There is a summary exactly when the reply's `summary` is a string, and then it is that string. |
| `Handlers.ScoreResume` | main.py:107-158 | The gateway is asked with this request's scoring prompt, and a gateway failure is passed on with no partial response. A `MissingKey` names the first required key absent from that reply. After a parsed reply, the result is exactly `Handlers.ValidateScore` of that reply, so the score is the coerced `match_score`. A response means all four keys were present and carries the reply's lists and text unchanged. |
| `Handlers.GenerateCoverLetter` | main.py:164-212 | The gateway is asked with this request's cover-letter prompt, and a gateway failure is passed on. `MissingCoverLetterText` happens exactly when that reply lacks the key. After a parsed reply, the result is exactly `Handlers.ValidateCoverLetter` of that reply, which fixes the summary too. A response carries the reply's letter text unchanged. |
| `Handlers.DetailsDistinct` | main.py:92-101 | Two failures with the same `detail` string are the same failure, so the message names the missing key (main.py:148) or the gateway error unambiguously. This holds for the two gateway messages and for the handlers' messages at main.py:148 and main.py:206. |
| `Handlers.ScoreResumeRoundTrip` | main.py:136-158 | If the model replies with exactly the four fields of a response (integral score), the score handler returns that response. |
| `Handlers.CoverLetterRoundTrip` | main.py:201-212 | If the model replies with exactly the fields of a cover-letter response (no `summary` key when there is no summary), the handler returns that response. |
| `Handlers.AcmeScenario` | main.py:151-158 | For the "Engineer at Acme" request and a reply scoring 82.6, the response has score 83 and the keyword lists and edits exactly as replied. |
| `Rounding.RoundHalfEven` | main.py:151 | The result is within one half of the input, and it is even when the input lies exactly halfway between two integers. |
| `Rounding.RoundHalfEvenUnique` | main.py:151 | Only one integer meets that rule, so it defines the rounding. |
| `Rounding.RoundIntegral` | main.py:151 | An integral value rounds to itself. |
| `Rounding.RoundingExamples` | main.py:151 | 82.6 rounds to 83. 2.5 rounds to 2, 3.5 to 4, -2.5 to -2 and -0.5 to 0. |
| `JsonValues.StringsOf` | main.py:53-54 | A JSON list is accepted as a list of strings exactly when every item is a string. The strings are then the items' own, in order. |
| `JsonValues.StringListRoundTrip` | main.py:155-156 | A JSON value reads as a given list of strings exactly when it is the JSON array of those strings in that order. |
| `Prompts.FocusClause` | main.py:169-171 | The clause is empty exactly when the focus points are absent or the empty list. Otherwise it is `"Focus on these points: "` followed by the items joined with `", "`. |
| `Prompts.FocusClauseItems` | main.py:169-171 | After the prefix, splitting the clause on `", "` gives back the focus points in order, whenever no point itself contains `", "`. A single point is rendered alone, with no separator. |
| `Prompts.FocusClauseExample` | main.py:171 | The points `a`, `b`, `c` give `"Focus on these points: a, b, c"`. |
| `Text.SplitJoin` | main.py:171 | Splitting a `", "`-joined list on `", "` gives the items back, in order, when no item contains `", "`. |
| `Text.FillEmbeds` | main.py:111-134 | In a filled f-string template, every field appears verbatim at its offset, between the fixed fragment before it and the one after it. |
| `Text.FillDeterminesFields` | main.py:173-199 | Two fillings of one template whose fields have the same lengths are equal exactly when their fields are equal. |
| `Prompts.ScorePromptEmbeds` | main.py:111-134 | The scoring prompt holds the job description verbatim right after the "Job description:" heading. It holds the resume text verbatim right after the "Candidate resume:" heading that follows it. |
| `Prompts.ScorePromptInputs` | main.py:111-134 | The scoring prompt depends only on the job description and the resume text. For fields of equal lengths, it changes whenever either of them changes. |
| `Prompts.CoverLetterPromptEmbeds` | main.py:173-199 | The cover-letter prompt holds, each verbatim between its fixed neighbours: the description, the company, the role title, the location text, the resume text, the tone, the length and the focus clause. |
| `Prompts.CoverLetterPromptInputs` | main.py:173-199 | The cover-letter prompt is determined by those eight rendered fields. Changing the job URL or the candidate's name never changes it. |
| `Prompts.LocationFallback` | main.py:181 | The location line reads `N/A` when the location is absent or the empty string, and the location verbatim otherwise. |
| `Prompts.DefaultExtrasPrompt` | main.py:167-189 | Without `extras`, the prompt is the one built with `ExtrasInfo()`, whose defaults are at main.py:40-43. The tone is "professional but conversational" and the length "3 paragraphs". The `"- "` bullet line is still emitted, with nothing after it before the closing text. |
| `Prompts.ScorePrompt` | main.py:111-134 | The scoring prompt: the fixed fragments with the job description and resume text between them. Its properties are stated by `Prompts.ScorePromptEmbeds` and `Prompts.ScorePromptInputs`. |
| `Prompts.CoverLetterPrompt` | main.py:173-199 | The cover-letter prompt: the fixed fragments with the eight rendered fields between them. Its properties are stated by `Prompts.CoverLetterPromptEmbeds`, `Prompts.CoverLetterPromptInputs`, `Prompts.LocationFallback` and `Prompts.DefaultExtrasPrompt`. |
| `Prompts.LocationText` | main.py:181 | `job.location or "N/A"`. Its property is stated by `Prompts.LocationFallback`. |
| `Prompts.EffectiveExtras` | main.py:167 | `payload.extras or ExtrasInfo()`. Its property is stated by `Prompts.DefaultExtrasPrompt`. |
| `Prompts.Render` | main.py:187-188 | An `Optional[str]` in an f-string, with `None` printed as `None`. Its use is stated by `Prompts.CoverLetterPromptEmbeds`. |
| `Handlers.Detail` | main.py:92-101 | The `detail` strings at main.py:95, 100, 148 and 206. Their property is stated by `Handlers.DetailsDistinct`. |
| `Handlers.BuildScoreResponse` | main.py:153-158 | Building `ScoreResumeResponse` with its type checks. Its property is stated by `Handlers.ValidateScore`. |
| `Handlers.BuildCoverLetterResponse` | main.py:209-212 | Building `GenerateCLResponse` with its type checks. Its property is stated by `Handlers.ValidateCoverLetter`. |
| `Text.Join` | main.py:171 | Python's `", ".join`. Its property is stated by `Text.SplitJoin` and `Prompts.FocusClauseItems`. |
| `JsonValues.Get` | main.py:155-157 | `data.get(key, default)`. `Handlers.ValidateScore` states that after the key check the defaults are never used. |
| `JsonValues.Str` | main.py:210 | The `str` field check. Its property is stated by `Handlers.ValidateScore` and `Handlers.ValidateCoverLetter`. |
| `JsonValues.OptionalStr` | main.py:65-66 | The `Optional[str]` field check on `summary`. Its property is stated by `Handlers.ValidateCoverLetter`. |
| `Handlers.GatewayFailure` | main.py:92-101 | Which failure each unsuccessful gateway outcome becomes: a reply that is not valid JSON gives `InvalidJson`, and any other error gives `GatewayFailed` with its message. `Handlers.ScoreResume` and `Handlers.GenerateCoverLetter` state that this failure is passed on with no partial response, and `Handlers.DetailsDistinct` states that the two details can be told apart. |
| `JsonValues.StringList` | main.py:53-54 | How a `List[str]` field accepts a JSON value, used at main.py:155-156. `JsonValues.StringListRoundTrip` states that a value reads as a list of strings exactly when it is the JSON array of those strings, in order. |
| `Text.Fill` | main.py:111-134 | An f-string as fixed fragments interleaved with rendered fields, used for both prompts (also main.py:173-199). `Text.FillEmbeds` states that every field sits verbatim between its neighbouring fragments, and `Text.FillDeterminesFields` that fields of equal lengths determine the filling. |

## Left out

- The call to the OpenAI client, the extraction of `response.output[0].content[0].text` and the `str(response)` fallback (main.py:76-86) are a foreign network library. The gateway is an abstract function from prompt to outcome: a parsed object, a reply that is not valid JSON, or any other failure with its message.
- `json.loads` (main.py:89) is a library parser. The model starts from the parsed object. A reply that parses to a list or a scalar is not modelled.
- `Handlers.CoerceScore`: JSON numbers are exact reals, and the rounding applies to the exact value. Python first converts to a binary double. The results differ for a value whose nearest double lies on the other side of a halfway point, for integers beyond 2^53 that a double cannot hold exactly, and for integers too large for a double (Python raises `OverflowError`). They also differ for number literals beyond the double range, such as `1e400`. `json.loads` reads such a literal as infinity, so `round` raises `OverflowError`, where the model, which reads the literal as a `JNumber`, returns a score. A reply value already parsed to `JNonFinite` fails as in Python. Python's `float` on a string is the parameter `floatOfString`.
- JsonValues.Str, JsonValues.StringsOf, JsonValues.OptionalStr: these follow Pydantic v2 in lax mode, where a `str` field accepts only a string. main.py does not say which Pydantic version it needs. Pydantic v1 would turn numbers and booleans into strings, both for `str` fields and for the items of `List[str]`. Under v1, `"suggested_resume_edits": 5` would give a response rather than `InvalidField`.
- The response models' type checks are modelled only for the JSON values a reply can hold: `str` accepts a string, `List[str]` an array of strings, `Optional[str]` a string or `null`. Pydantic reports every invalid field at once. The model names only the first one, in declaration order.
- Loading `.env`, reading `OPENAI_API_KEY` and the startup `RuntimeError` (main.py:11-17) are process configuration.
- FastAPI routing, the request-side schema validation and the `GET /` health check with its constant body (main.py:19-23, 106, 163, 217-219) hold no decisions. The model starts from already validated request records. Status codes reduce to the one constant 500.
