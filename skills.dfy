/** Skill suggestions for a role (suggest_skills): the first category whose key occurs in the
    lowercased role chooses a fixed list of skills, the skills the user already has are removed
    and at most ten are returned. */
module SkillSuggestion {
  import opened Seqs
  import opened Text

  /** One entry of the category table: a key looked for in the role, and its skills. */
  datatype Category = Category(key: string, skills: seq<string>)

  const SoftwareSkills: seq<string> :=
    ["Python", "JavaScript", "React", "Node.js", "Git", "Docker", "AWS"]
  const DataSkills: seq<string> :=
    ["Python", "SQL", "Pandas", "NumPy", "Tableau", "Machine Learning"]
  const DesignSkills: seq<string> := ["Figma", "Adobe Creative Suite", "UI/UX", "Wireframing"]
  const MarketingSkills: seq<string> :=
    ["SEO", "Google Analytics", "Content Strategy", "Social Media"]
  const DefaultSkills: seq<string> := ["Communication", "Problem Solving", "Leadership", "Teamwork"]

  /** The table in the order the scan visits it; the "default" entry is an ordinary entry too. */
  const SkillMap: seq<Category> := [
    Category("software", SoftwareSkills),
    Category("data", DataSkills),
    Category("design", DesignSkills),
    Category("marketing", MarketingSkills),
    Category("default", DefaultSkills)
  ]

  /** The most suggestions returned. */
  const MaxSuggestions: nat := 10

  /** The test the scan applies to each entry: its key occurs in the lowercased role. */
  function KeyIn(roleLower: string): Category -> bool
  {
    (c: Category) => Contains(roleLower, c.key)
  }

  /** The list chosen for a lowercased role: the first matching entry's, or the default list. */
  function CategoryFor(roleLower: string): seq<string>
  {
    var k := FirstFrom(SkillMap, KeyIn(roleLower), 0);
    if k < |SkillMap| then SkillMap[k].skills else DefaultSkills
  }

  /** What suggest_skills answers for a role and the skills already listed. */
  function Suggestions(role: string, currentSkills: seq<string>): seq<string>
  {
    Take(Without(CategoryFor(Lower(role)), currentSkills), MaxSuggestions)
  }

  /** The endpoint's computation, with its scan over the table and its early exit. */
  method SuggestSkills(role: string, currentSkills: seq<string>) returns (suggestions: seq<string>)
    ensures suggestions == Suggestions(role, currentSkills)
  {
    var roleLower := Lower(role);
    var suggested := DefaultSkills;
    var i := 0;
    while i < |SkillMap|
      invariant 0 <= i <= |SkillMap|
      invariant FirstFrom(SkillMap, KeyIn(roleLower), i) == FirstFrom(SkillMap, KeyIn(roleLower), 0)
      invariant suggested == DefaultSkills
    {
      if Contains(roleLower, SkillMap[i].key) {
        suggested := SkillMap[i].skills;
        break;
      }
      i := i + 1;
    }
    suggestions := Take(Without(suggested, currentSkills), MaxSuggestions);
  }

  /** The entry whose key occurs first in the table wins; a role that matches no key gets
      the default list. */
  lemma {:induction false} FirstMatchWins(roleLower: string, k: nat)
    requires k <= |SkillMap|
    requires k < |SkillMap| ==> Contains(roleLower, SkillMap[k].key)
    requires forall j :: 0 <= j < k ==> !Contains(roleLower, SkillMap[j].key)
    ensures FirstFrom(SkillMap, KeyIn(roleLower), 0) == k
    ensures CategoryFor(roleLower) == if k < |SkillMap| then SkillMap[k].skills else DefaultSkills
  {
  }

  /** Every role gets one of the table's lists. */
  lemma ChosenFromTable(roleLower: string)
    ensures exists k :: 0 <= k < |SkillMap| && CategoryFor(roleLower) == SkillMap[k].skills
  {
    var k := FirstFrom(SkillMap, KeyIn(roleLower), 0);
    if k < |SkillMap| {
      assert CategoryFor(roleLower) == SkillMap[k].skills;
    } else {
      assert CategoryFor(roleLower) == SkillMap[4].skills;
    }
  }

  /** No list in the table is longer than seven skills. */
  lemma CategoryIsShort(roleLower: string)
    ensures |CategoryFor(roleLower)| <= 7
  {
    var k := FirstFrom(SkillMap, KeyIn(roleLower), 0);
    if k < |SkillMap| {
      assert SkillMap[k] in SkillMap;
    }
  }

  /** The suggestions are exactly the chosen skills the user does not have yet, in the order
      of the table: the cut to ten never removes anything. */
  lemma {:induction false} SuggestionsAreMissingSkills(role: string, currentSkills: seq<string>)
    ensures Suggestions(role, currentSkills) == Without(CategoryFor(Lower(role)), currentSkills)
    ensures |Suggestions(role, currentSkills)| <= MaxSuggestions
    ensures forall s :: s in Suggestions(role, currentSkills) <==>
      s in CategoryFor(Lower(role)) && s !in currentSkills
    ensures IsSubsequence(Suggestions(role, currentSkills), CategoryFor(Lower(role)))
  {
    CategoryIsShort(Lower(role));
    WithoutIsSubsequence(CategoryFor(Lower(role)), currentSkills);
  }

  /** Nothing the user already lists is suggested again. */
  lemma NothingRepeated(role: string, currentSkills: seq<string>)
    ensures forall s :: s in currentSkills ==> s !in Suggestions(role, currentSkills)
  {
    SuggestionsAreMissingSkills(role, currentSkills);
  }

  /** A role mentioning "software", for a user who lists no skills, gets the whole software
      list. */
  lemma SoftwareRoleGetsSoftwareSkills(role: string)
    requires Contains(Lower(role), "software")
    ensures Suggestions(role, []) == SoftwareSkills
  {
    FirstMatchWins(Lower(role), 0);
    SuggestionsAreMissingSkills(role, []);
    WithoutNothing(SoftwareSkills);
  }
}
