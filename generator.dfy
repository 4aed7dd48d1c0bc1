/** The content generation router: a resume request is answered by the configured AI provider
    or, when there is none or its call fails, by the deterministic fallback generator that
    fills one of four canned templates chosen by experience level. */
module Generator {
  import opened Wrappers
  import opened Seqs
  import opened Text
  import opened AppConfig

  /** A generation request. Absent optional fields are None. */
  datatype ResumeRequest = ResumeRequest(
    role: string,
    company: Option<string>,
    keywords: Option<string>,
    experienceLevel: string,
    industry: Option<string>,
    tone: string)

  /** Generated resume content. */
  datatype ResumeContent = ResumeContent(
    summary: string,
    experienceBullets: seq<string>,
    skills: seq<string>,
    achievements: Option<seq<string>>)

  /** The summary and bullets of one experience level. */
  datatype LevelTemplate = LevelTemplate(summary: string, bullets: seq<string>)

  /** Python's `value or default` on an optional string: None and "" both give the default. */
  function OrDefault(value: Option<string>, default: string): string
  {
    if value.Some? && value.value != "" then value.value else default
  }

  predicate Given(value: Option<string>)
  {
    value.Some? && value.value != ""
  }

  const Levels: seq<string> := ["junior", "mid", "senior", "executive"]

  // The fixed text of the four templates. The first bullet names the keywords, except in the
  // executive template.
  const JuniorOpening := "Motivated "
  const JuniorMiddle := " with strong foundation in "
  const JuniorClosing := ". Eager to contribute to innovative projects and grow expertise in a collaborative environment."
  const JuniorLead := "Developed and maintained features using "
  const JuniorBullets := [
    "Collaborated with senior developers to implement best practices",
    "Participated in code reviews and technical documentation",
    "Assisted in debugging and resolving technical issues",
    "Completed all assigned tasks on schedule"]

  const MidOpening := "Experienced "
  const MidMiddle := " with proven track record in "
  const MidSkilled := ". Skilled in "
  const MidClosing := " with focus on quality and performance."
  const MidLead := "Led development of key features using "
  const MidBullets := [
    "Mentored junior developers and conducted code reviews",
    "Architected scalable solutions handling 10K+ users",
    "Collaborated with product managers on requirements",
    "Improved deployment efficiency by 40%"]

  const SeniorOpening := "Senior "
  const SeniorMiddle := " with extensive expertise in "
  const SeniorClosing := ". Proven leader in driving technical innovation and delivering complex projects."
  const SeniorLead := "Architected enterprise solutions using "
  const SeniorBullets := [
    "Led team of 8+ developers delivering critical projects",
    "Established coding standards adopted organization-wide",
    "Reduced operational costs by 35% through optimization",
    "Presented strategies to C-level executives"]

  const ExecutiveOpening := "Visionary technology executive and "
  const ExecutiveMiddle := " with track record of transformation. Expert in "
  const ExecutiveClosing := " and team building."
  const ExecutiveBullets := [
    "Directed technology strategy driving 50% efficiency increase",
    "Built engineering organization from 10 to 100+ professionals",
    "Secured $10M+ in cost savings through optimization",
    "Launched products generating $25M+ revenue",
    "Established strategic technology partnerships"]

  // Each summary is an opening, the role, and the rest of the sentence with the keywords
  // (and, for "mid", the industry) filled in, or their defaults. Every template has five
  // bullets: a first one that names the keywords (except for "executive") and four fixed ones.

  function JuniorTemplate(role: string, keywords: Option<string>): (t: LevelTemplate)
    ensures JuniorOpening <= t.summary && Contains(t.summary, role)
    ensures Contains(t.summary, OrDefault(keywords, "modern technologies"))
    ensures |t.bullets| == 5 && t.bullets[1..] == JuniorBullets
    ensures JuniorLead <= t.bullets[0] && Contains(t.bullets[0], OrDefault(keywords, "industry-standard tools"))
  {
    var kw := OrDefault(keywords, "modern technologies");
    var tools := OrDefault(keywords, "industry-standard tools");
    FivePieces(JuniorOpening, role, JuniorMiddle, kw, JuniorClosing);
    LeadNamesTools(JuniorLead, tools);
    LevelTemplate(JuniorOpening + role + JuniorMiddle + kw + JuniorClosing, [JuniorLead + tools] + JuniorBullets)
  }

  function MidTemplate(role: string, keywords: Option<string>, industry: Option<string>): (t: LevelTemplate)
    ensures MidOpening <= t.summary && Contains(t.summary, role)
    ensures Contains(t.summary, OrDefault(industry, "technology"))
    ensures Contains(t.summary, OrDefault(keywords, "full-stack development"))
    ensures |t.bullets| == 5 && t.bullets[1..] == MidBullets
    ensures MidLead <= t.bullets[0] && Contains(t.bullets[0], OrDefault(keywords, "modern tech stack"))
  {
    var ind := OrDefault(industry, "technology");
    var kw := OrDefault(keywords, "full-stack development");
    var tools := OrDefault(keywords, "modern tech stack");
    SevenPieces(MidOpening, role, MidMiddle, ind, MidSkilled, kw, MidClosing);
    LeadNamesTools(MidLead, tools);
    LevelTemplate(MidOpening + role + MidMiddle + ind + MidSkilled + kw + MidClosing, [MidLead + tools] + MidBullets)
  }

  function SeniorTemplate(role: string, keywords: Option<string>): (t: LevelTemplate)
    ensures SeniorOpening <= t.summary && Contains(t.summary, role)
    ensures Contains(t.summary, OrDefault(keywords, "enterprise solutions"))
    ensures |t.bullets| == 5 && t.bullets[1..] == SeniorBullets
    ensures SeniorLead <= t.bullets[0] && Contains(t.bullets[0], OrDefault(keywords, "cloud technologies"))
  {
    var kw := OrDefault(keywords, "enterprise solutions");
    var tools := OrDefault(keywords, "cloud technologies");
    FivePieces(SeniorOpening, role, SeniorMiddle, kw, SeniorClosing);
    LeadNamesTools(SeniorLead, tools);
    LevelTemplate(SeniorOpening + role + SeniorMiddle + kw + SeniorClosing, [SeniorLead + tools] + SeniorBullets)
  }

  function ExecutiveTemplate(role: string, keywords: Option<string>): (t: LevelTemplate)
    ensures ExecutiveOpening <= t.summary && Contains(t.summary, role)
    ensures Contains(t.summary, OrDefault(keywords, "digital innovation"))
    ensures t.bullets == ExecutiveBullets && |t.bullets| == 5
  {
    var kw := OrDefault(keywords, "digital innovation");
    FivePieces(ExecutiveOpening, role, ExecutiveMiddle, kw, ExecutiveClosing);
    LevelTemplate(ExecutiveOpening + role + ExecutiveMiddle + kw + ExecutiveClosing, ExecutiveBullets)
  }

  /** A sentence of fixed text around two filled-in values starts with its opening and holds
      both values. */
  lemma FivePieces(a: string, b: string, c: string, d: string, e: string)
    ensures a <= a + b + c + d + e
    ensures Contains(a + b + c + d + e, b) && Contains(a + b + c + d + e, d)
  {
    PrefixOfConcat(a, b + c + d + e);
    assert a + b + c + d + e == a + (b + c + d + e);
    ContainsMiddle(a, b, c + d + e);
    assert a + b + c + d + e == a + b + (c + d + e);
    ContainsMiddle(a + b + c, d, e);
  }

  /** The same for three filled-in values. */
  lemma SevenPieces(a: string, b: string, c: string, d: string, e: string, f: string, g: string)
    ensures a <= a + b + c + d + e + f + g
    ensures Contains(a + b + c + d + e + f + g, b)
    ensures Contains(a + b + c + d + e + f + g, d)
    ensures Contains(a + b + c + d + e + f + g, f)
  {
    FivePieces(a, b, c, d, e + f + g);
    assert a + b + c + d + e + f + g == a + b + c + d + (e + f + g);
    ContainsMiddle(a + b + c + d + e, f, g);
  }

  lemma PrefixOfConcat(a: string, b: string)
    ensures a <= a + b
  {
    assert (a + b)[..|a|] == a;
  }

  /** A first bullet starts with its lead-in and names what follows it. */
  lemma LeadNamesTools(lead: string, tools: string)
    ensures lead <= lead + tools && Contains(lead + tools, tools)
  {
    PrefixOfConcat(lead, tools);
    ContainsTail(lead, tools);
  }

  /** The opening of each level's summary. */
  function Opening(level: string): string
  {
    if level == "junior" then JuniorOpening
    else if level == "senior" then SeniorOpening
    else if level == "executive" then ExecutiveOpening
    else MidOpening
  }

  /** The first character of each level's summary: the four templates open differently. */
  function Initial(level: string): char
  {
    if level == "junior" then 'M' else if level == "senior" then 'S' else if level == "executive" then 'V' else 'E'
  }

  /** `templates.get(level, templates["mid"])`: every level other than the four named ones
      gets the "mid" template. */
  function TemplateFor(level: string, role: string, keywords: Option<string>, industry: Option<string>): (t: LevelTemplate)
    ensures |t.bullets| == 5
    ensures Opening(level) <= t.summary && Contains(t.summary, role)
    ensures t.summary != [] && t.summary[0] == Initial(level)
    ensures level !in Levels ==> t == MidTemplate(role, keywords, industry)
  {
    if level == "junior" then JuniorTemplate(role, keywords)
    else if level == "senior" then SeniorTemplate(role, keywords)
    else if level == "executive" then ExecutiveTemplate(role, keywords)
    else MidTemplate(role, keywords, industry)
  }

  const BaseSkills: seq<string> :=
    ["Python", "JavaScript", "React", "Node.js", "AWS", "Docker", "Git", "Agile", "Leadership", "Communication"]

  /** `[s.strip() for s in parts]`. */
  function StripAll(parts: seq<string>): (r: seq<string>)
    ensures |r| == |parts|
    ensures forall i :: 0 <= i < |parts| ==> r[i] == Strip(parts[i])
  {
    seq(|parts|, i requires 0 <= i < |parts| => Strip(parts[i]))
  }

  /** The skill list: without keywords the ten base skills; with keywords, up to five
      comma-separated keywords (stripped, in their order) followed by the first five base skills. */
  function MockSkills(keywords: Option<string>): (skills: seq<string>)
    ensures !Given(keywords) ==> skills == BaseSkills
    ensures Given(keywords) ==>
      var pieces := Split(keywords.value, {','});
      var n := Min(5, |pieces|);
      6 <= |skills| == n + 5 <= 10
      && (forall i :: 0 <= i < n ==> skills[i] == Strip(pieces[i]))
      && skills[n..] == BaseSkills[..5]
  {
    if Given(keywords) then Take(StripAll(Split(keywords.value, {','})), 5) + BaseSkills[..5]
    else BaseSkills
  }

  /** The second achievement, for a project count written as text. */
  function DeliveredLine(count: string): (line: string)
    ensures |line| == 31 + |count|
  {
    "Delivered " + count + "+ successful projects"
  }

  /** Three achievements; only the second depends on the level, "5+" projects for "junior"
      and "15+" for every other level. */
  function Achievements(level: string): (a: seq<string>)
    ensures |a| == 3
    ensures a[1] == DeliveredLine("5") <==> level == "junior"
    ensures level != "junior" ==> a[1] == DeliveredLine("15")
  {
    ["Increased team productivity by 25%",
     DeliveredLine(if level == "junior" then "5" else "15"),
     "Received excellence award for outstanding performance"]
  }

  /** The deterministic fallback generator. */
  function MockContent(request: ResumeRequest): (c: ResumeContent)
    ensures Contains(c.summary, if request.role != "" then request.role else "Professional")
    ensures Opening(request.experienceLevel) <= c.summary
    ensures c.summary != [] && c.summary[0] == Initial(request.experienceLevel)
    ensures |c.experienceBullets| == 5
    ensures c.achievements.Some? && |c.achievements.value| == 3
    ensures |c.skills| <= 10
  {
    var role := if request.role != "" then request.role else "Professional";
    var level := request.experienceLevel;
    var template := TemplateFor(level, role, request.keywords, request.industry);
    ResumeContent(template.summary, template.bullets, MockSkills(request.keywords), Some(Achievements(level)))
  }

  /** A level outside junior, mid, senior and executive gives exactly the "mid" content. */
  lemma UnknownLevelIsMid(request: ResumeRequest)
    requires request.experienceLevel !in Levels
    ensures MockContent(request) == MockContent(request.(experienceLevel := "mid"))
  {
  }

  /** The four levels give four different summaries, whatever the other fields are: each
      level's summary opens with its own letter. */
  lemma LevelSummariesDiffer(request: ResumeRequest, l1: string, l2: string)
    requires l1 in Levels && l2 in Levels && l1 != l2
    ensures MockContent(request.(experienceLevel := l1)).summary != MockContent(request.(experienceLevel := l2)).summary
  {
    InitialsDiffer(l1, l2);
  }

  lemma InitialsDiffer(l1: string, l2: string)
    requires l1 in Levels && l2 in Levels && l1 != l2
    ensures Initial(l1) != Initial(l2)
  {
  }

  /** Company and tone do not influence the fallback content. */
  lemma MockIgnoresCompanyAndTone(request: ResumeRequest, company: Option<string>, tone: string)
    ensures MockContent(request.(company := company, tone := tone)) == MockContent(request)
  {
  }

  /** Keywords written as clean comma-separated names come back as skills in their order:
      the first five of them, then the first five base skills. */
  lemma {:induction false} CleanKeywordsKept(names: seq<string>)
    requires names != [] && names[0] != []
    requires forall p :: p in names ==> ',' !in p
    requires forall p :: p in names ==> p != [] && !IsSpace(p[0]) && !IsSpace(p[|p| - 1])
    ensures MockSkills(Some(Join(names, [',']))) == Take(names, 5) + BaseSkills[..5]
  {
    JoinNonEmpty(names, [',']);
    SplitJoin(names, ',');
    forall i | 0 <= i < |names|
      ensures Strip(names[i]) == names[i]
    {
      assert names[i] in names;
      StripUnchanged(names[i]);
    }
    assert StripAll(names) == names;
    assert MockSkills(Some(Join(names, [',']))) == Take(StripAll(names), 5) + BaseSkills[..5];
  }

  /** The routing rule shared by both provider wrappers: without a client, or when the call or
      the parsing of its reply fails (reply None), the fallback content is returned. */
  function GenerateWithProvider(config: Config, request: ResumeRequest, reply: Option<ResumeContent>): (c: ResumeContent)
    ensures HasClient(config) && reply.Some? ==> c == reply.value
    ensures !(HasClient(config) && reply.Some?) ==> c == MockContent(request)
  {
    if !HasClient(config) then MockContent(request)
    else if reply.Some? then reply.value
    else MockContent(request)
  }

  /** The router: the provider's content is used exactly when the configured provider is OpenAI
      or Anthropic, its client exists and its reply could be parsed; otherwise the fallback. */
  function Generate(config: Config, request: ResumeRequest, reply: Option<ResumeContent>): (c: ResumeContent)
    ensures UsesProvider(config, reply) ==> c == reply.value
    ensures !UsesProvider(config, reply) ==> c == MockContent(request)
  {
    if config.provider == "openai" then GenerateWithProvider(config, request, reply)
    else if config.provider == "anthropic" then GenerateWithProvider(config, request, reply)
    else MockContent(request)
  }

  predicate UsesProvider(config: Config, reply: Option<ResumeContent>)
  {
    HasClient(config) && reply.Some?
  }

  /** What the environment decides about generation: a provider name other than "openai" or
      "anthropic" (such as "mock") always gives the fallback; so does an environment with
      neither API key set; without AI_PROVIDER, an importable OpenAI library, a set OpenAI key
      and a parsed reply give that reply. */
  lemma EnvironmentDecidesRouting(env: map<string, string>, openaiInstalled: bool, anthropicInstalled: bool,
                                  request: ResumeRequest, reply: Option<ResumeContent>)
    ensures var config := ConfigFromEnvironment(env, openaiInstalled, anthropicInstalled);
      "AI_PROVIDER" in env && env["AI_PROVIDER"] != "openai" && env["AI_PROVIDER"] != "anthropic" ==>
        Generate(config, request, reply) == MockContent(request)
    ensures var config := ConfigFromEnvironment(env, openaiInstalled, anthropicInstalled);
      !IsSet(env, "OPENAI_API_KEY") && !IsSet(env, "ANTHROPIC_API_KEY") ==>
        Generate(config, request, reply) == MockContent(request)
    ensures var config := ConfigFromEnvironment(env, openaiInstalled, anthropicInstalled);
      "AI_PROVIDER" !in env && openaiInstalled && IsSet(env, "OPENAI_API_KEY") && reply.Some? ==>
        Generate(config, request, reply) == reply.value
  {
  }
}
