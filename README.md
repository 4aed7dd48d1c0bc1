# Resume maker backend: a Dafny model of its deterministic core

The backend of the resume maker answers a handful of JSON endpoints. The model covers their
deterministic parts:

- **Generation** (`/api/generate`). The request needs a role. It is routed to the configured AI
  provider (OpenAI or Anthropic). When no client exists, or the call or the parsing of its reply
  fails, a fallback generator fills one of four canned templates chosen by experience level.
- **Improvement** (`/api/improve`). This is a stub that prefixes the text with `[Enhanced] `.
- **Templates**. The export picks a template name: a requested one that exists, otherwise
  `modern`. The listing returns the template names and the default.
- **Skill suggestions**. The first category key that occurs in the lowercased role chooses a
  fixed list. Skills the user already has are removed, and at most ten are returned.
- **ATS analysis**. A keyword-overlap score against a job description, penalties for a short
  text and for missing section headers, and the suggestions that explain them.
- **Document extraction**. Empty content is refused. With an OpenAI client, the parsed model
  reply is returned. Otherwise a line-based heuristic finds the name, e-mail, phone, a summary
  section and a skills section.
- **Configuration**. `AI_PROVIDER`, the API keys and whether the client libraries import decide
  whether an AI client exists.

Modules:

- `Wrappers`: `Option` and the endpoint reply `Reply` (a success value, or an HTTP status and
  error text).
- `Seqs`: Python list slicing, the first-match `for … break` scan and filtering.
- `Text`: Python's `str.isspace`, `lower`, `strip`, `split`, `join` and `in`.
- `AppConfig`: the configuration read from the environment and the client it allows.
- `Generator`: the fallback generator and the provider routing.
- `Endpoints`: the request validation of the generate, improve and export endpoints, and the
  template listing.
- `SkillSuggestion`, `AtsScorer` and `FieldExtractor`: the skill, ATS and extraction endpoints.

Where the source computes with a loop, the model has a method with that loop, proved equal to a
specification function. The properties are proved about that function. Examples are
`SkillSuggestion.SuggestSkills`, `AtsScorer.ScoreEvidence` and `FieldExtractor.ExtractHeuristic`.

Things outside the deterministic logic become parameters:

- An AI provider's parsed reply is an `Option`. `None` means the call or the JSON parsing failed.
- The e-mail and phone regular-expression searches are `Option<string>` inputs: the matched text
  or `None`.
- A JSON request body is a `map<string, string>`.

## Model

| member | source | states |
|---|---|---|
| Generator.JuniorTemplate | backend/app.py:189-199 | The junior summary opens with "Motivated " and holds the role and the keywords, or "modern technologies" without them. The first bullet opens with "Developed and maintained features using " and names the keywords, or "industry-standard tools". The other four bullets are the fixed junior ones. |
| Generator.MidTemplate | backend/app.py:200-210 | The mid summary opens with "Experienced " and holds the role, the industry (or "technology") and the keywords (or "full-stack development"). The first bullet opens with "Led development of key features using " and names the keywords, or "modern tech stack". The other four bullets are the fixed mid ones. |
| Generator.SeniorTemplate | backend/app.py:211-221 | The senior summary opens with "Senior " and holds the role and the keywords, or "enterprise solutions". The first bullet opens with "Architected enterprise solutions using " and names the keywords, or "cloud technologies". The other four bullets are the fixed senior ones. |
| Generator.ExecutiveTemplate | backend/app.py:222-233 | The executive summary opens with "Visionary technology executive and " and holds the role and the keywords, or "digital innovation". The five bullets are the fixed executive ones; none names the keywords. |
| Generator.TemplateFor | backend/app.py:235 | Every level gets five bullets and a summary naming the role, opening with its level's opening text. Any level outside the four gets exactly the "mid" template. |
| Generator.MockSkills | backend/app.py:237-242 | Without keywords: the ten base skills. With keywords: the first up to five comma-separated pieces, each stripped and in order, then the first five base skills (6 to 10 skills in all). |
| Generator.Achievements | backend/app.py:244-248 | Three achievements. The second says "5+" projects exactly for "junior" and "15+" for every other level. |
| Generator.MockContent | backend/app.py:183-255 | The fallback summary names the role, or "Professional" when the role is empty. It opens with the level's opening text. Five bullets, three achievements, at most ten skills. |
| Generator.UnknownLevelIsMid | backend/app.py:235 | A request with a level outside junior/mid/senior/executive gets exactly the content of the same request at "mid". |
| Generator.LevelSummariesDiffer | backend/app.py:188-235 | The four levels give four different summaries for any request. |
| Generator.MockIgnoresCompanyAndTone | backend/app.py:183-255 | Company and tone do not influence the fallback content. |
| Generator.CleanKeywordsKept | backend/app.py:240-242 | Keywords written as comma-joined names without surrounding whitespace come back as the first five names, in order, followed by the first five base skills. |
| Generator.GenerateWithProvider | backend/app.py:107-180 | With a client and a parsed reply, a provider wrapper answers the reply. Without a client, or when the call or parsing failed, it answers the fallback content. |
| Generator.Generate | backend/app.py:257-265 | The provider's reply is used exactly when a client exists and the reply parsed. Otherwise the answer is the fallback content. |
| Generator.EnvironmentDecidesRouting | backend/app.py:62-81 | Generation from the configuration read from the environment. A provider name other than "openai" or "anthropic" always gives the fallback, and so does an environment with neither API key set. Without AI_PROVIDER, an importable OpenAI library with its key set and a parsed reply gives that reply. |
| Endpoints.GenerateContent | backend/app.py:404-425 | A missing or empty role is refused with 400 "Role is required", and only then. An accepted request gets the provider reply when one is used, otherwise the fallback for the request built from the body. |
| Endpoints.FallbackNamesRole | backend/app.py:411-423 | When the fallback answers an accepted request, the summary contains the requested role. |
| Endpoints.MissingLevelIsMid | backend/app.py:418 | A body without experience_level is answered exactly as one asking for "mid". |
| Endpoints.ImproveContent | backend/app.py:431-445 | A missing or empty text is refused with 400 "Text is required", and only then. |
| Endpoints.ImprovedKeepsOriginal | backend/app.py:443 | The improved text is "[Enhanced] " followed by the original, which can be recovered from it. It is 11 characters longer. |
| Endpoints.SelectTemplate | backend/app.py:457-459 | The chosen template is always a known one. It is the requested one when that exists, otherwise "modern". |
| Endpoints.TemplateListing | backend/app.py:481-486 | The listing holds two distinct names, and the default is one of them. |
| Endpoints.ListingCoversExport | backend/app.py:457-459 | Every template the export can choose is listed. The export's choice for an empty body is the listed default. |
| SkillSuggestion.SuggestSkills | backend/app.py:497-515 | The scan with early exit over the table, the filter and the cut to ten compute exactly the suggestion function. |
| SkillSuggestion.FirstMatchWins | backend/app.py:505-511 | The table entry whose key is the first (in table order) to occur in the lowercased role decides the list. A role matching no key gets the default list. |
| SkillSuggestion.ChosenFromTable | backend/app.py:497-511 | Every role gets one of the table's lists. |
| SkillSuggestion.CategoryIsShort | backend/app.py:497-503 | No chosen list has more than seven skills. |
| SkillSuggestion.SuggestionsAreMissingSkills | backend/app.py:513-515 | The suggestions are exactly the chosen skills the user does not list, in table order (a subsequence). The cut to ten never removes one. |
| SkillSuggestion.NothingRepeated | backend/app.py:513 | No skill the user already lists is suggested. |
| SkillSuggestion.SoftwareRoleGetsSoftwareSkills | backend/app.py:498-511 | A role containing "software" (in any case), for a user without skills, gets the whole software list. |
| AtsScorer.ScoreEvidence | backend/app.py:530-554 | The step-by-step scoring and suggestion appends give exactly the report function. |
| AtsScorer.AnalyzeAts | backend/app.py:527-554 | The report equals the analysis of the text and job description. The score lies in 45..100. The status is Good exactly when the score is at least 70. |
| AtsScorer.OverlapScoreRange | backend/app.py:536-537 | The score with a job description lies between 70 and 100 before penalties. |
| AtsScorer.EvidenceIsConsistent | backend/app.py:534-536 | The shared words are never more than the job words. |
| AtsScorer.KeywordScoreRange | backend/app.py:530-537 | Before penalties: 75 without a job description, 70..100 with one. |
| AtsScorer.RawScoreRange | backend/app.py:530-553 | The score after penalties lies in 45..100, so the clamp to 0..100 never changes it. The status is Good exactly when the reported score is at least 70. |
| AtsScorer.AnalysisIsUnclamped | backend/app.py:551 | For every text and job description, the reported score is the unclamped score and lies in 45..100. |
| AtsScorer.HintsExplainPenalties | backend/app.py:539-548 | Each suggestion is present exactly when its check fails: keyword overlap below 30%, text under 300 characters, no section header. None appears twice. |
| AtsScorer.FullOverlap | backend/app.py:536-540 | A resume containing every one of at least one job word scores 100 before penalties and gets no keyword hint. |
| AtsScorer.NoOverlap | backend/app.py:536-540 | A resume sharing no job word scores 70 before penalties and gets the keyword hint. |
| AtsScorer.ShortHeaderlessReport | backend/app.py:530-553 | Without a job description, a short report without headers scores 50 with the two hints, needing improvement. |
| AtsScorer.ShortHeaderlessText | backend/app.py:527-553 | Without a job description, any text under 300 characters that names no section header gets score 50, the short and header suggestions in that order, and needs improvement. |
| AtsScorer.EmptyResume | backend/app.py:527-553 | The empty text without a job description gets that report. |
| FieldExtractor.ScanName | backend/app.py:633-636 | The name loop with early exit computes the stripped first name-like line, or "". |
| FieldExtractor.CollectNonBlank | backend/app.py:643-646 | The inner loop keeps exactly the stripped non-blank lines, in order. |
| FieldExtractor.ScanSummary | backend/app.py:639-648 | The summary loop computes the section after the first summary header, or "" without a header. |
| FieldExtractor.ScanSkills | backend/app.py:651-659 | The skills loop computes the pieces after the first skills header, or none without a header. |
| FieldExtractor.ExtractHeuristic | backend/app.py:605-665 | The heuristic's loops and the fallback summary compute exactly the heuristic profile function. |
| FieldExtractor.ExtractFromDocument | backend/app.py:566-603 | Empty content is refused with 400 "No content provided", and only empty content. With an OpenAI client and a parsed reply, the answer is the reply. Otherwise it is the heuristic profile. |
| FieldExtractor.NameLineStripsClean | backend/app.py:634 | A line passing the name test strips to a name shorter than 50 characters, with non-space ends and without "@", "http" or "www". |
| FieldExtractor.NameFound | backend/app.py:606-636 | No name is found exactly when no line passes the name test. A found name is clean and holds no line break. |
| FieldExtractor.FallbackKeepsFirstWords | backend/app.py:662-663 | The fallback summary splits back into the first hundred words of the content. It is empty exactly for all-whitespace content. |
| FieldExtractor.SummaryChoice | backend/app.py:639-663 | A non-empty section summary is used and has at most 500 characters. Otherwise the summary's words are the content's first hundred. Content that is not all whitespace always gets a non-empty summary. |
| FieldExtractor.SkillPiecesAreClean | backend/app.py:658 | Kept pieces are at most as many as the pieces. Each is stripped, longer than 10 and shorter than 30 characters, and has no delimiter when the pieces have none. |
| FieldExtractor.SectionSkillsAreClean | backend/app.py:655-658 | The skills cut from one section's text are at most fifteen clean pieces. |
| FieldExtractor.SkillsAreClean | backend/app.py:651-659 | At most fifteen skills, each 11..29 characters, non-space at both ends and free of every delimiter. There are none without a skills header. |
| Seqs.Without | backend/app.py:513 | The filtered list holds exactly the elements of the first list that are not in the second, and is no longer. |
| Text.WordsOfJoin | backend/app.py:663 | Words joined by single spaces split back into the same words. |
| Text.SplitJoin | backend/app.py:241 | Splitting a comma join of comma-free parts gives back the parts. |

## Left out

- Flask itself is not modelled: routing, CORS, rate limiting, logging, the frontend file
  serving, the error handlers and `/health`. None of them computes resume content.
- The catch-all `except` branches that answer 500 are not modelled. They fire only on exceptions
  the model cannot raise: a body that is not JSON, or a field that is not a string.
- The AI calls themselves (prompts, network, model names, JSON parsing) are left out. Each is an
  `Option` reply parameter.
- The e-mail and phone regular expressions are left out. Their first matches are parameters.
- The rendering of the HTML templates (Jinja) and the PDF conversion are left out. Only the
  choice of template is modelled.
- `Text.Lower`: only ASCII letters are lowercased. Python's full Unicode case mapping is not
  modelled.
- `AtsScorer.ScoreEvidence`: the source computes floating point `int(70 + match_rate * 30)`.
  The model uses the exact rational floor `70 + (30 * common) / total`. The two can differ by
  one where the floating-point product rounds below an integer.
- `AtsScorer.AnalyzeAts`: the suggestions are the datatype `Hint`. `AtsScorer.Message` gives the
  text sent for each one.
- `FieldExtractor.ExtractHeuristic`: the title, location, experience and education fields are
  always left empty, as the source leaves them.
- `FieldExtractor.SummaryChoice`: the fallback is the first hundred whitespace-separated words.
  The source's comment at backend/app.py:661 speaks of 500 characters. The model follows the code.
- `FieldExtractor.SkillDelimiters`: the source's character class at backend/app.py:657 holds the
  mis-decoded bytes of the bullet and middle dot. The model has those characters, so a real
  bullet (U+2022) does not split skills.
- `Endpoints.ImproveContent`: the section field is read but never used, so it is not modelled.
- `MAX_RESUME_LENGTH`, `CACHE_TTL` and `SECRET_KEY` are configuration values nothing in the core
  reads, so they are not modelled.
