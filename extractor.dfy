/** Field extraction from pasted resume text (extract_from_document). Empty content is refused;
    with an OpenAI client the parsed model reply is returned; otherwise, or when that call fails,
    a line-based heuristic fills name, e-mail, phone, summary and skills. The two regular
    expression searches are inputs: the text of the first match, or None. */
module FieldExtractor {
  import opened Wrappers
  import opened Seqs
  import opened Text
  import opened AppConfig

  /** The extracted record. Title, location, experience and education are never filled by the
      heuristic; experience and education entries are string maps. */
  datatype Profile = Profile(
    name: string,
    title: string,
    email: string,
    phone: string,
    location: string,
    summary: string,
    skills: seq<string>,
    experience: seq<map<string, string>>,
    education: seq<map<string, string>>)

  const SummaryKeywords: seq<string> := ["summary", "objective", "profile", "about"]
  const SkillsKeywords: seq<string> := ["skills", "technologies", "competencies", "expertise"]

  /** The characters of the skills delimiter class `[,;â€¢Â·|]`: the source file spells the
      bullet and middle dot in a mis-decoded form, so the class holds their mojibake
      characters one by one. */
  const SkillDelimiters: set<char> :=
    {',', ';', '\U{E2}', '\U{20AC}', '\U{A2}', '\U{C2}', '\U{B7}', '|'}

  const MaxNameLength: nat := 50
  const MaxSummaryLength: nat := 500
  const SummaryLookahead: nat := 3
  const SkillsLookahead: nat := 4
  const MaxSkills: nat := 15
  const FallbackWords: nat := 100

  /** A line that can be the name: not blank, shorter than 50 characters once stripped, and
      without "@", "http" or "www" anywhere in the unstripped line. */
  predicate IsNameLine(line: string)
  {
    var t := Strip(line);
    t != [] && |t| < MaxNameLength
    && !Contains(line, "@") && !Contains(line, "http") && !Contains(line, "www")
  }

  /** The lowercased line contains one of the keywords. */
  predicate Mentions(line: string, keywords: seq<string>)
  {
    exists k :: 0 <= k < |keywords| && Contains(Lower(line), keywords[k])
  }

  predicate IsSummaryHeader(line: string)
  {
    Mentions(line, SummaryKeywords)
  }

  predicate IsSkillsHeader(line: string)
  {
    Mentions(line, SkillsKeywords)
  }

  /** The stripped non-blank lines, in order. */
  function NonBlank(lines: seq<string>): seq<string>
  {
    if lines == [] then []
    else
      var last := Strip(lines[|lines| - 1]);
      NonBlank(lines[..|lines| - 1]) + (if last != "" then [last] else [])
  }

  /** One more line adds its strip when that is not blank. */
  lemma NonBlankStep(lines: seq<string>, j: nat)
    requires j < |lines|
    ensures NonBlank(lines[..j + 1]) == NonBlank(lines[..j]) + (if Strip(lines[j]) != "" then [Strip(lines[j])] else [])
  {
    assert lines[..j + 1][..j] == lines[..j];
  }

  /** The lines after header line k, at most `count` of them (Python's `lines[k+1:k+1+count]`). */
  function After(lines: seq<string>, k: nat, count: nat): seq<string>
    requires k < |lines|
  {
    lines[k + 1..Min(k + 1 + count, |lines|)]
  }

  /** The summary section: up to three non-blank lines after the header, stripped, joined by
      spaces and cut to 500 characters. */
  function SectionSummary(lines: seq<string>, k: nat): string
    requires k < |lines|
  {
    Take(Join(NonBlank(After(lines, k, SummaryLookahead)), " "), MaxSummaryLength)
  }

  /** The fallback summary: the first hundred whitespace-separated words, joined by spaces. */
  function FallbackSummary(content: string): string
  {
    Join(Take(Words(content), FallbackWords), " ")
  }

  /** The summary: the section after the first summary header when that is not empty,
      otherwise the fallback. */
  function SummaryOf(content: string, lines: seq<string>): string
  {
    var k := FirstFrom(lines, IsSummaryHeader, 0);
    var section := if k < |lines| then SectionSummary(lines, k) else "";
    if section != "" then section else FallbackSummary(content)
  }

  /** Stripped pieces longer than 10 and shorter than 30 characters, in order. */
  function SkillPieces(pieces: seq<string>): seq<string>
  {
    if pieces == [] then []
    else
      var s := Strip(pieces[0]);
      (if 10 < |s| < 30 then [s] else []) + SkillPieces(pieces[1..])
  }

  /** The skills after header line k: the next four lines joined by spaces, split on the
      delimiter class, filtered by length, at most fifteen. */
  function SectionSkills(lines: seq<string>, k: nat): seq<string>
    requires k < |lines|
  {
    Take(SkillPieces(Split(Join(After(lines, k, SkillsLookahead), " "), SkillDelimiters)), MaxSkills)
  }

  /** The skills: from the first skills header, or none. */
  function SkillsOf(lines: seq<string>): seq<string>
  {
    var k := FirstFrom(lines, IsSkillsHeader, 0);
    if k < |lines| then SectionSkills(lines, k) else []
  }

  /** The name: the first name-like line, stripped, or "". */
  function NameOf(lines: seq<string>): string
  {
    var k := FirstFrom(lines, IsNameLine, 0);
    if k < |lines| then Strip(lines[k]) else ""
  }

  function MatchOrEmpty(m: Option<string>): string
  {
    if m.Some? then m.value else ""
  }

  /** The record the heuristic builds from the content and the two regular-expression matches. */
  function Heuristic(content: string, emailMatch: Option<string>, phoneMatch: Option<string>): Profile
  {
    var lines := Split(content, {'\n'});
    Profile(NameOf(lines), "", MatchOrEmpty(emailMatch), MatchOrEmpty(phoneMatch), "",
      SummaryOf(content, lines), SkillsOf(lines), [], [])
  }

  /** The name scan: the first line that can be the name, stripped. */
  method ScanName(lines: seq<string>) returns (name: string)
    ensures name == NameOf(lines)
  {
    name := "";
    var i := 0;
    while i < |lines|
      invariant 0 <= i <= |lines|
      invariant FirstFrom(lines, IsNameLine, i) == FirstFrom(lines, IsNameLine, 0)
      invariant name == ""
    {
      if IsNameLine(lines[i]) {
        name := Strip(lines[i]);
        return;
      }
      i := i + 1;
    }
  }

  /** The stripped non-blank lines among the given ones. */
  method CollectNonBlank(lines: seq<string>) returns (kept: seq<string>)
    ensures kept == NonBlank(lines)
  {
    kept := [];
    var j := 0;
    while j < |lines|
      invariant 0 <= j <= |lines|
      invariant kept == NonBlank(lines[..j])
    {
      NonBlankStep(lines, j);
      var t := Strip(lines[j]);
      if t != "" {
        kept := kept + [t];
      }
      j := j + 1;
    }
    assert lines[..j] == lines;
  }

  /** The summary scan: the section after the first summary header, or "" without one. */
  method ScanSummary(lines: seq<string>) returns (summary: string)
    ensures var k := FirstFrom(lines, IsSummaryHeader, 0);
      summary == if k < |lines| then SectionSummary(lines, k) else ""
  {
    summary := "";
    var i := 0;
    while i < |lines|
      invariant 0 <= i <= |lines|
      invariant FirstFrom(lines, IsSummaryHeader, i) == FirstFrom(lines, IsSummaryHeader, 0)
      invariant summary == ""
    {
      if IsSummaryHeader(lines[i]) {
        var summaryLines := CollectNonBlank(After(lines, i, SummaryLookahead));
        summary := Take(Join(summaryLines, " "), MaxSummaryLength);
        return;
      }
      i := i + 1;
    }
  }

  /** The skills scan: the pieces after the first skills header, or none without one. */
  method ScanSkills(lines: seq<string>) returns (skills: seq<string>)
    ensures skills == SkillsOf(lines)
  {
    skills := [];
    var i := 0;
    while i < |lines|
      invariant 0 <= i <= |lines|
      invariant FirstFrom(lines, IsSkillsHeader, i) == FirstFrom(lines, IsSkillsHeader, 0)
      invariant skills == []
    {
      if IsSkillsHeader(lines[i]) {
        var skillsText := Join(After(lines, i, SkillsLookahead), " ");
        skills := Take(SkillPieces(Split(skillsText, SkillDelimiters)), MaxSkills);
        return;
      }
      i := i + 1;
    }
  }

  /** The heuristic as the endpoint runs it: one scan with early exit per field, then the
      fallback summary when the section gave nothing. */
  method ExtractHeuristic(content: string, emailMatch: Option<string>, phoneMatch: Option<string>)
    returns (p: Profile)
    ensures p == Heuristic(content, emailMatch, phoneMatch)
  {
    var lines := Split(content, {'\n'});
    var name := ScanName(lines);
    var email := if emailMatch.Some? then emailMatch.value else "";
    var phone := if phoneMatch.Some? then phoneMatch.value else "";
    var summary := ScanSummary(lines);
    var skills := ScanSkills(lines);
    if summary == "" {
      summary := Join(Take(Words(content), FallbackWords), " ");
    }
    p := Profile(name, "", email, phone, "", summary, skills, [], []);
  }

  /** extract_from_document: refuse empty content; use the OpenAI reply when there is an OpenAI
      client and the reply parsed (aiReply is None when the call or the parsing failed);
      otherwise run the heuristic. */
  method ExtractFromDocument(content: string, config: Config, aiReply: Option<Profile>,
                             emailMatch: Option<string>, phoneMatch: Option<string>)
    returns (r: Reply<Profile>)
    ensures content == "" <==> r.Failure?
    ensures r.Failure? ==> r.status == 400 && r.error == "No content provided"
    ensures content != "" && HasClient(config) && config.provider == "openai" && aiReply.Some? ==>
      r == Success(aiReply.value)
    ensures content != "" && !(HasClient(config) && config.provider == "openai" && aiReply.Some?) ==>
      r == Success(Heuristic(content, emailMatch, phoneMatch))
  {
    if content == "" {
      return Failure(400, "No content provided");
    }
    if HasClient(config) && config.provider == "openai" && aiReply.Some? {
      return Success(aiReply.value);
    }
    var p := ExtractHeuristic(content, emailMatch, phoneMatch);
    r := Success(p);
  }

  /** No character of s is in delims. */
  predicate NoDelimiter(s: string, delims: set<char>)
  {
    forall j :: 0 <= j < |s| ==> s[j] !in delims
  }

  /** A slice of a string without delimiters has none either. */
  lemma SliceHasNoDelimiter(s: string, i: nat, n: nat, delims: set<char>)
    requires i + n <= |s| && NoDelimiter(s, delims)
    ensures NoDelimiter(s[i..i + n], delims)
  {
    var t := s[i..i + n];
    assert forall j :: 0 <= j < n ==> t[j] == s[i + j];
  }

  /** The strip of a string without delimiters has none either. */
  lemma StripHasNoDelimiter(s: string, delims: set<char>)
    requires NoDelimiter(s, delims)
    ensures NoDelimiter(Strip(s), delims)
  {
    var i := StripIsSlice(s);
    SliceHasNoDelimiter(s, i, |Strip(s)|, delims);
  }

  /** The pieces of a split hold no delimiter. */
  lemma PiecesHaveNoDelimiter(s: string, delims: set<char>)
    ensures forall p :: p in Split(s, delims) ==> NoDelimiter(p, delims)
  {
    SplitPiecesHaveNoDelimiter(s, delims);
    forall p | p in Split(s, delims)
      ensures NoDelimiter(p, delims)
    {
      var i :| 0 <= i < |Split(s, delims)| && Split(s, delims)[i] == p;
    }
  }

  /** What the name test guarantees about the stripped line. */
  predicate CleanName(name: string)
  {
    name != [] && |name| < MaxNameLength && !IsSpace(name[0]) && !IsSpace(name[|name| - 1])
    && !Contains(name, "@") && !Contains(name, "http") && !Contains(name, "www")
  }

  /** A line that can be the name strips to a clean name. */
  lemma NameLineStripsClean(line: string)
    requires IsNameLine(line)
    ensures CleanName(Strip(line))
  {
    StripKeepsAbsent(line, "@");
    StripKeepsAbsent(line, "http");
    StripKeepsAbsent(line, "www");
  }

  /** What does not occur in a line does not occur in its strip. */
  lemma StripKeepsAbsent(line: string, sub: string)
    requires !Contains(line, sub)
    ensures !Contains(Strip(line), sub)
  {
    var i := StripIsSlice(line);
    if Contains(Strip(line), sub) {
      ContainedInSlice(line, i, i + |Strip(line)|, sub);
    }
  }

  /** No name is found exactly when no line can be the name. A name that is found is shorter
      than 50 characters, starts and ends with a non-space, holds no line break and none of
      "@", "http", "www". */
  lemma NameFound(content: string)
    ensures var lines := Split(content, {'\n'});
      NameOf(lines) == "" <==> forall j :: 0 <= j < |lines| ==> !IsNameLine(lines[j])
    ensures var name := NameOf(Split(content, {'\n'}));
      name != "" ==> CleanName(name) && NoDelimiter(name, {'\n'})
  {
    var lines := Split(content, {'\n'});
    var k := FirstFrom(lines, IsNameLine, 0);
    if k < |lines| {
      NameLineStripsClean(lines[k]);
      PiecesHaveNoDelimiter(content, {'\n'});
      assert lines[k] in lines;
      StripHasNoDelimiter(lines[k], {'\n'});
    }
  }

  /** The fallback summary holds the first hundred words of the content, and nothing else. */
  lemma FallbackKeepsFirstWords(content: string)
    ensures Words(FallbackSummary(content)) == Take(Words(content), FallbackWords)
    ensures FallbackSummary(content) == "" <==> AllSpace(content)
  {
    var ws := Take(Words(content), FallbackWords);
    assert forall w :: w in ws ==> w in Words(content);
    WordsOfJoin(ws);
    if !AllSpace(content) {
      assert ws[0] in ws;
      JoinNonEmpty(ws, " ");
    }
  }

  /** The summary is the section after the first summary header, cut to 500 characters, when
      that section is not empty; otherwise it is the first hundred words of the content. It is
      empty only for content that is all whitespace. */
  lemma SummaryChoice(content: string, emailMatch: Option<string>, phoneMatch: Option<string>)
    ensures var lines := Split(content, {'\n'});
      var k := FirstFrom(lines, IsSummaryHeader, 0);
      var summary := Heuristic(content, emailMatch, phoneMatch).summary;
      (k < |lines| && SectionSummary(lines, k) != "" ==>
        summary == SectionSummary(lines, k) && |summary| <= MaxSummaryLength)
      && (!(k < |lines| && SectionSummary(lines, k) != "") ==>
        Words(summary) == Take(Words(content), FallbackWords))
    ensures !AllSpace(content) ==> Heuristic(content, emailMatch, phoneMatch).summary != ""
  {
    FallbackKeepsFirstWords(content);
  }

  /** A piece the skills filter keeps. */
  predicate CleanSkill(s: string, delims: set<char>)
  {
    10 < |s| < 30 && !IsSpace(s[0]) && !IsSpace(s[|s| - 1]) && NoDelimiter(s, delims)
  }

  /** Every kept piece is longer than 10 and shorter than 30 characters, has no surrounding
      whitespace and holds no delimiter when its unsplit pieces hold none. */
  lemma {:induction false} SkillPiecesAreClean(pieces: seq<string>, delims: set<char>)
    requires forall p :: p in pieces ==> NoDelimiter(p, delims)
    ensures |SkillPieces(pieces)| <= |pieces|
    ensures forall s :: s in SkillPieces(pieces) ==> CleanSkill(s, delims)
  {
    if pieces != [] {
      assert pieces[0] in pieces;
      KeptPieceIsClean(pieces[0], delims);
      assert forall q :: q in pieces[1..] ==> q in pieces;
      SkillPiecesAreClean(pieces[1..], delims);
    }
  }

  lemma KeptPieceIsClean(p: string, delims: set<char>)
    requires NoDelimiter(p, delims)
    ensures 10 < |Strip(p)| < 30 ==> CleanSkill(Strip(p), delims)
  {
    StripHasNoDelimiter(p, delims);
  }

  /** The skills cut from one section's text are at most fifteen clean pieces. */
  lemma SectionSkillsAreClean(text: string)
    ensures var skills := Take(SkillPieces(Split(text, SkillDelimiters)), MaxSkills);
      |skills| <= MaxSkills && forall s :: s in skills ==> CleanSkill(s, SkillDelimiters)
  {
    var pieces := Split(text, SkillDelimiters);
    PiecesHaveNoDelimiter(text, SkillDelimiters);
    SkillPiecesAreClean(pieces, SkillDelimiters);
    TakeKeepsClean(SkillPieces(pieces));
  }

  lemma TakeKeepsClean(kept: seq<string>)
    requires forall s :: s in kept ==> CleanSkill(s, SkillDelimiters)
    ensures forall s :: s in Take(kept, MaxSkills) ==> CleanSkill(s, SkillDelimiters)
  {
    var r := Take(kept, MaxSkills);
    assert forall j :: 0 <= j < |r| ==> r[j] == kept[j];
  }

  /** At most fifteen skills are kept, each longer than 10 and shorter than 30 characters,
      without surrounding whitespace and without a delimiter; there are none without a skills
      header. */
  lemma SkillsAreClean(lines: seq<string>)
    ensures |SkillsOf(lines)| <= MaxSkills
    ensures forall s :: s in SkillsOf(lines) ==> CleanSkill(s, SkillDelimiters)
    ensures FirstFrom(lines, IsSkillsHeader, 0) == |lines| ==> SkillsOf(lines) == []
  {
    var k := FirstFrom(lines, IsSkillsHeader, 0);
    if k < |lines| {
      SectionSkillsAreClean(Join(After(lines, k, SkillsLookahead), " "));
    }
  }
}
