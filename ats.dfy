/** The ATS compatibility score (analyze_ats): a keyword-overlap score against an optional job
    description, penalties for a short text and for missing section headers, and the list of
    suggestions that explains them. Fractions are kept as integers: the overlap score is
    70 + floor(30 * common / |job words|) and "match rate below 0.3" is 10 * common < 3 * |job words|. */
module AtsScorer {
  import opened Text

  datatype Status = Good | NeedsImprovement

  /** The three suggestions the analysis can make. */
  datatype Hint = KeywordHint | ShortHint | HeaderHint

  datatype AtsReport = AtsReport(score: int, suggestions: seq<Hint>, status: Status)

  /** The text the endpoint sends for each suggestion. */
  function Message(h: Hint): string
  {
    match h
    case KeywordHint => "Add more keywords from the job description"
    case ShortHint => "Resume seems too short. Add more detail."
    case HeaderHint => "Include standard section headers"
  }

  /** The score when no job description is given. */
  const BaseScore: int := 75
  /** Texts shorter than this many characters are penalised. */
  const MinLength: nat := 300
  const ShortPenalty: int := 10
  const HeaderPenalty: int := 15

  /** `set(s.lower().split())`. */
  function WordSet(s: string): set<string>
  {
    set w | w in Words(Lower(s))
  }

  /** `match_rate * 30` truncated to an integer, where match_rate is common / total, or 0 when
      total is 0. */
  function MatchPoints(common: nat, total: nat): int
  {
    if total == 0 then 0 else (30 * common) / total
  }

  /** The score for `common` of `total` job-description words found in the resume: 70 plus
      thirty times their share, rounded down. */
  function OverlapScore(common: nat, total: nat): int
  {
    70 + MatchPoints(common, total)
  }

  /** Fewer than 30% of the job words are found (or there are none). */
  predicate LowOverlap(common: nat, total: nat)
  {
    total == 0 || 10 * common < 3 * total
  }

  /** What the analysis looks at in a resume and a job description: whether a description was
      given, how many distinct words it has and how many of them the resume has too, the
      resume's length and whether it names a section header. */
  datatype Evidence = Evidence(hasJob: bool, jobWords: nat, commonWords: nat, length: nat, hasHeader: bool)

  /** Evidence whose counts can come from real texts: the shared words are among the job words. */
  predicate Consistent(e: Evidence)
  {
    e.commonWords <= e.jobWords
  }

  /** One of the three standard section headers occurs in a lowercased text. */
  predicate HasHeader(lower: string)
  {
    Contains(lower, "experience") || Contains(lower, "education") || Contains(lower, "skills")
  }

  function EvidenceOf(text: string, jobDescription: string): Evidence
  {
    var job := WordSet(jobDescription);
    Evidence(jobDescription != "", |job|, |job * WordSet(text)|, |text|, HasHeader(Lower(text)))
  }

  /** The score before penalties: 75 without a job description, the overlap score with one. */
  function KeywordScore(e: Evidence): int
  {
    if e.hasJob then OverlapScore(e.commonWords, e.jobWords) else BaseScore
  }

  /** A job description was given and its words overlap the resume's too little. */
  predicate NeedsKeywords(e: Evidence)
  {
    e.hasJob && LowOverlap(e.commonWords, e.jobWords)
  }

  predicate TooShort(e: Evidence)
  {
    e.length < MinLength
  }

  /** The score after the penalties, before it is clamped to 0..100. */
  function RawScore(e: Evidence): int
  {
    KeywordScore(e)
    - (if TooShort(e) then ShortPenalty else 0)
    - (if e.hasHeader then 0 else HeaderPenalty)
  }

  /** The suggestions, in the order the checks run. */
  function Hints(e: Evidence): seq<Hint>
  {
    (if NeedsKeywords(e) then [KeywordHint] else [])
    + (if TooShort(e) then [ShortHint] else [])
    + (if e.hasHeader then [] else [HeaderHint])
  }

  function Clamp(score: int): int
  {
    if score < 0 then 0 else if score > 100 then 100 else score
  }

  /** The report: the clamped score, the suggestions, and a status decided on the raw score. */
  function Report(e: Evidence): AtsReport
  {
    var raw := RawScore(e);
    AtsReport(Clamp(raw), Hints(e), if raw >= 70 then Good else NeedsImprovement)
  }

  /** What analyze_ats answers for a resume text and a job description ("" when absent). */
  function Analysis(text: string, jobDescription: string): AtsReport
  {
    Report(EvidenceOf(text, jobDescription))
  }

  /** The endpoint's scoring steps on the evidence: start from 75, replace it by the overlap
      score when a job description is given, and subtract the penalties while appending the
      suggestions in order. */
  method ScoreEvidence(e: Evidence) returns (report: AtsReport)
    ensures report == Report(e)
  {
    var score := BaseScore;
    var suggestions: seq<Hint> := [];
    if e.hasJob {
      score := 70 + MatchPoints(e.commonWords, e.jobWords);
      if e.jobWords == 0 || 10 * e.commonWords < 3 * e.jobWords {
        suggestions := suggestions + [KeywordHint];
      }
    }
    if e.length < MinLength {
      suggestions := suggestions + [ShortHint];
      score := score - ShortPenalty;
    }
    if !e.hasHeader {
      suggestions := suggestions + [HeaderHint];
      score := score - HeaderPenalty;
    }
    report := AtsReport(Clamp(score), suggestions, if score >= 70 then Good else NeedsImprovement);
  }

  /** analyze_ats: gather the word sets, the length and the header test, then score them. The
      score always lies in 0..100 and the status is Good exactly when the score is at least 70. */
  method AnalyzeAts(text: string, jobDescription: string) returns (report: AtsReport)
    ensures report == Analysis(text, jobDescription)
    ensures 45 <= report.score <= 100
    ensures report.status == Good <==> report.score >= 70
  {
    var jobWords := WordSet(jobDescription);
    var resumeWords := WordSet(text);
    var evidence := Evidence(jobDescription != "", |jobWords|, |jobWords * resumeWords|, |text|,
      HasHeader(Lower(text)));
    report := ScoreEvidence(evidence);
    EvidenceIsConsistent(text, jobDescription);
    RawScoreRange(evidence);
  }

  /** The words two sets share are at most the words of the first. */
  lemma CommonIsSmaller(job: set<string>, resume: set<string>)
    ensures |job * resume| <= |job|
  {
    var common := job * resume;
    assert job == common + (job - common);
    assert common * (job - common) == {};
  }

  /** Thirty times a share of at most one, rounded down, lies in 0..30; it is 30 for a full
      share. */
  lemma ShareBound(common: int, total: int)
    requires 0 <= common <= total && 0 < total
    ensures 0 <= (30 * common) / total <= 30
    ensures common == total ==> (30 * common) / total == 30
  {
    assert 30 * common <= 30 * total;
    if common == total {
      assert 30 * common == 30 * total;
    }
  }

  /** The overlap score lies between 70 and 100. */
  lemma OverlapScoreRange(common: nat, total: nat)
    requires common <= total
    ensures 70 <= OverlapScore(common, total) <= 100
  {
    if total > 0 {
      ShareBound(common, total);
    }
  }

  /** The counts taken from two texts are consistent. */
  lemma EvidenceIsConsistent(text: string, jobDescription: string)
    ensures Consistent(EvidenceOf(text, jobDescription))
  {
    CommonIsSmaller(WordSet(jobDescription), WordSet(text));
  }

  /** Without a job description the keyword score is 75; with one it lies between 70 and 100. */
  lemma KeywordScoreRange(e: Evidence)
    requires Consistent(e)
    ensures !e.hasJob ==> KeywordScore(e) == 75
    ensures e.hasJob ==> 70 <= KeywordScore(e) <= 100
  {
    OverlapScoreRange(e.commonWords, e.jobWords);
  }

  /** The raw score never leaves 45..100, so clamping it changes nothing and the status is
      Good exactly when the reported score is at least 70. */
  lemma RawScoreRange(e: Evidence)
    requires Consistent(e)
    ensures 45 <= RawScore(e) <= 100
    ensures Report(e).score == RawScore(e)
    ensures Report(e).status == Good <==> Report(e).score >= 70
  {
    KeywordScoreRange(e);
  }

  /** For every resume and job description the reported score is the unclamped one. */
  lemma AnalysisIsUnclamped(text: string, jobDescription: string)
    ensures Analysis(text, jobDescription).score == RawScore(EvidenceOf(text, jobDescription))
    ensures 45 <= Analysis(text, jobDescription).score <= 100
  {
    EvidenceIsConsistent(text, jobDescription);
    RawScoreRange(EvidenceOf(text, jobDescription));
  }

  /** Each suggestion is present exactly when its check fails, and each comes once. */
  lemma HintsExplainPenalties(e: Evidence)
    ensures KeywordHint in Report(e).suggestions <==> NeedsKeywords(e)
    ensures ShortHint in Report(e).suggestions <==> TooShort(e)
    ensures HeaderHint in Report(e).suggestions <==> !e.hasHeader
    ensures forall i, j :: 0 <= i < j < |Report(e).suggestions| ==>
      Report(e).suggestions[i] != Report(e).suggestions[j]
  {
  }

  /** A resume holding every one of at least one job word scores the full 100 before
      penalties and gets no keyword hint. */
  lemma FullOverlap(job: set<string>, resume: set<string>)
    requires |job| > 0 && job <= resume
    ensures OverlapScore(|job * resume|, |job|) == 100
    ensures !LowOverlap(|job * resume|, |job|)
  {
    assert job * resume == job;
    ShareBound(|job|, |job|);
  }

  /** A resume sharing no word with the job words scores 70 before penalties and gets the
      keyword hint. */
  lemma NoOverlap(job: set<string>, resume: set<string>)
    requires job * resume == {}
    ensures OverlapScore(|job * resume|, |job|) == 70
    ensures LowOverlap(|job * resume|, |job|)
  {
  }

  /** Without a job description, a text under 300 characters that names no section header
      scores 75 - 10 - 15 = 50 and needs improvement. */
  lemma ShortHeaderlessText(text: string)
    requires |text| < MinLength && !HasHeader(Lower(text))
    ensures Analysis(text, "") == AtsReport(50, [ShortHint, HeaderHint], NeedsImprovement)
  {
    ShortHeaderlessReport(EvidenceOf(text, ""));
  }

  lemma ShortHeaderlessReport(e: Evidence)
    requires !e.hasJob && e.length < MinLength && !e.hasHeader
    ensures Report(e) == AtsReport(50, [ShortHint, HeaderHint], NeedsImprovement)
  {
  }

  /** The empty text without a job description is such a text. */
  lemma EmptyResume()
    ensures Analysis("", "") == AtsReport(50, [ShortHint, HeaderHint], NeedsImprovement)
  {
    assert !HasHeader(Lower(""));
    ShortHeaderlessText("");
  }
}
