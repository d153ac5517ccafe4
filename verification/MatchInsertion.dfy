/** One more text anywhere in a candidate's evidence: when it can cost a skill, coverage,
    points or the match. Joining drops the gaps between texts, so neighbours can form a
    term together, and a text put between them takes the term apart. */
module MatchInsertion {
  import opened Common
  import opened Text
  import opened MatchScore

  // ----- the joined text of two parts ---------------------------------------

  function Whole(values: seq<string>): string {
    Normalize(Join(values))
  }

  function SkillsIn(text: string): set<nat> {
    set k: nat | k < |SKILLS| && HasSkill(text, k)
  }

  lemma SpaceVanishes()
    ensures Normalize(" ") == ""
  {
    ReplaceIsDead(" ");
    assert CaseFold(" ") == " ";
    assert RemoveSpaces(" ") == [];
  }

  lemma EmptyVanishes()
    ensures Normalize("") == ""
  {}

  lemma WholeOf(text: string, rest: seq<string>)
    ensures Whole([text] + rest) == Normalize(text) + Whole(rest)
  {
    hide Normalize;
    assert ([text] + rest)[1..] == rest;
    if rest == [] {
      EmptyVanishes();
      assert [text] + rest == [text];
    } else {
      SpaceVanishes();
      NormalizeConcat(text + " ", Join(rest));
      NormalizeConcat(text, " ");
    }
  }

  /** The normal form of a joined list is that of its parts, one after the other. */
  lemma {:induction false} WholeConcat(a: seq<string>, b: seq<string>)
    ensures Whole(a + b) == Whole(a) + Whole(b)
  {
    hide Normalize;
    if a == [] {
      EmptyVanishes();
      assert a + b == b && Whole(a) == "";
    } else {
      hide Whole;
      assert a + b == [a[0]] + (a[1..] + b) && a == [a[0]] + a[1..];
      WholeOf(a[0], a[1..] + b);
      WholeOf(a[0], a[1..]);
      WholeConcat(a[1..], b);
    }
  }

  lemma ExtractIsSkillsIn(values: seq<string>)
    ensures ExtractSkills(values) == SkillsIn(Whole(values))
  {
    hide Normalize, Join, HasSkill;
  }

  // ----- occurrences in a concatenation -------------------------------------

  lemma ContainsAround(before: string, text: string, after: string, token: string)
    ensures Contains(text, token) ==> Contains(before + text + after, token)
  {
    if i :| 0 <= i <= |text| && OccursAt(text, token, i) {
      assert (before + text + after)[|before| + i..|before| + i + |token|] == text[i..i + |token|];
      assert OccursAt(before + text + after, token, |before| + i);
    }
  }

  lemma SkillsAround(before: string, text: string, after: string)
    ensures SkillsIn(text) <= SkillsIn(before + text + after)
  {
    hide Contains, Normalize;
    forall k: nat | k < |SKILLS| && HasSkill(text, k) ensures HasSkill(before + text + after, k) {
      var a :| 0 <= a < |SKILLS[k].aliases| && Contains(text, Normalize(SKILLS[k].aliases[a]));
      ContainsAround(before, text, after, Normalize(SKILLS[k].aliases[a]));
    }
  }

  const HASH: char := '#'

  /** A character of no token cannot be inside an occurrence. */
  lemma NotAcross(left: string, right: string, token: string)
    requires HASH !in token
    ensures Contains(left + [HASH] + right, token) ==> Contains(left, token) || Contains(right, token)
  {
    var text := left + [HASH] + right;
    assert text[|left|] == HASH;
    if i :| 0 <= i <= |text| && OccursAt(text, token, i) {
      assert forall m :: 0 <= m < |token| ==> text[i + m] == token[m];
      if i + |token| <= |left| {
        assert left[i..i + |token|] == text[i..i + |token|];
        assert OccursAt(left, token, i);
      } else if i > |left| {
        var n := i - |left| - 1;
        assert right[n..n + |token|] == text[i..i + |token|];
        assert OccursAt(right, token, n);
      } else {
        assert text[i + (|left| - i)] == token[|left| - i];
      }
    }
  }

  // ----- the alias table ----------------------------------------------------

  /** Two characters that stay, and no `#`. */
  predicate Clean(alias: string) {
    |alias| >= 2 && !IsSpace(alias[0]) && !IsSpace(alias[1]) && HASH !in alias
  }

  lemma AliasesAreClean(k: nat, a: nat)
    requires k < |SKILLS| && a < |SKILLS[k].aliases|
    ensures Clean(SKILLS[k].aliases[a])
  {
    if k < 9 { FirstAliases(k, a); } else if k < 18 { MiddleAliases(k, a); } else { LastAliases(k, a); }
  }

  lemma FirstAliases(k: nat, a: nat)
    requires k < 9 && a < |SKILLS[k].aliases|
    ensures Clean(SKILLS[k].aliases[a])
  {}

  lemma MiddleAliases(k: nat, a: nat)
    requires 9 <= k < 18 && a < |SKILLS[k].aliases|
    ensures Clean(SKILLS[k].aliases[a])
  {}

  lemma LastAliases(k: nat, a: nat)
    requires 18 <= k < |SKILLS| && a < |SKILLS[k].aliases|
    ensures Clean(SKILLS[k].aliases[a])
  {}

  lemma {:induction false} KeptCharacters(s: string)
    ensures forall c :: c in RemoveSpaces(s) ==> c in s
  {
    if s != [] { KeptCharacters(s[1..]); }
  }

  lemma NormalizeKeepsClean(alias: string)
    requires Clean(alias)
    ensures HASH !in Normalize(alias) && |Normalize(alias)| >= 2
  {
    ReplaceIsDead(alias);
    var folded := CaseFold(alias);
    KeptCharacters(folded);
    assert forall i :: 0 <= i < |folded| ==> folded[i] == Fold(alias[i]) && alias[i] != HASH;
    assert folded == [folded[0]] + ([folded[1]] + folded[2..]);
    RemoveSpacesConcat([folded[0]], [folded[1]] + folded[2..]);
    RemoveSpacesConcat([folded[1]], folded[2..]);
  }

  lemma TokensAreClean(k: nat, a: nat)
    requires k < |SKILLS| && a < |SKILLS[k].aliases|
    ensures var token := Normalize(SKILLS[k].aliases[a]); HASH !in token && |token| >= 2
  {
    hide Normalize;
    AliasesAreClean(k, a);
    NormalizeKeepsClean(SKILLS[k].aliases[a]);
  }

  lemma ShortTextHasNoSkill(text: string)
    requires |text| < 2
    ensures SkillsIn(text) == {}
  {
    hide Normalize;
    forall k: nat | k < |SKILLS| ensures !HasSkill(text, k) {
      forall a: nat | a < |SKILLS[k].aliases| ensures !Contains(text, Normalize(SKILLS[k].aliases[a])) {
        TokensAreClean(k, a);
      }
    }
  }

  lemma SkillsApart(left: string, right: string)
    ensures SkillsIn(left + [HASH] + right) == SkillsIn(left) + SkillsIn(right)
  {
    hide Contains, Normalize;
    var text := left + [HASH] + right;
    assert text == "" + left + ([HASH] + right);
    assert text == left + [HASH] + right + "";
    SkillsAround("", left, [HASH] + right);
    SkillsAround(left + [HASH], right, "");
    forall k: nat | k < |SKILLS| && HasSkill(text, k) ensures HasSkill(left, k) || HasSkill(right, k) {
      var a :| 0 <= a < |SKILLS[k].aliases| && Contains(text, Normalize(SKILLS[k].aliases[a]));
      TokensAreClean(k, a);
      NotAcross(left, right, Normalize(SKILLS[k].aliases[a]));
    }
  }

  // ----- the extractor ------------------------------------------------------

  lemma PartsKept(left: string, middle: string, right: string)
    ensures SkillsIn(left) + SkillsIn(right) <= SkillsIn(left + middle + right)
  {
    hide SkillsIn;
    assert left + middle + right == "" + left + (middle + right);
    SkillsAround("", left, middle + right);
    assert left + middle + right == (left + middle) + right + "";
    SkillsAround(left + middle, right, "");
  }

  /** What is found in the parts is found whatever stands between them. */
  lemma InsertionKeepsParts(pre: seq<string>, t: string, post: seq<string>)
    ensures ExtractSkills(pre) + ExtractSkills(post) <= ExtractSkills(pre + [t] + post)
    ensures ExtractSkills(pre) + ExtractSkills(post) <= ExtractSkills(pre + post)
  {
    hide Whole, SkillsIn, ExtractSkills;
    WholeConcat(pre + [t], post);
    WholeConcat(pre, [t]);
    WholeConcat(pre, post);
    ExtractIsSkillsIn(pre);
    ExtractIsSkillsIn(post);
    ExtractIsSkillsIn(pre + post);
    ExtractIsSkillsIn(pre + [t] + post);
    PartsKept(Whole(pre), Whole([t]), Whole(post));
    assert Whole(pre) + "" == Whole(pre);
    PartsKept(Whole(pre), "", Whole(post));
  }

  lemma WholeHash()
    ensures Whole(["#"]) == [HASH]
  {
    ReplaceIsDead("#");
    assert CaseFold("#") == "#";
    assert RemoveSpaces("#") == ['#'] + RemoveSpaces([]);
  }

  /** A lone `#` leaves exactly what the parts hold by themselves. */
  lemma HashParts(pre: seq<string>, post: seq<string>)
    ensures ExtractSkills(pre + ["#"] + post) == ExtractSkills(pre) + ExtractSkills(post)
  {
    hide Whole, SkillsIn;
    WholeConcat(pre + ["#"], post);
    WholeConcat(pre, ["#"]);
    WholeHash();
    ExtractIsSkillsIn(pre);
    ExtractIsSkillsIn(post);
    ExtractIsSkillsIn(pre + ["#"] + post);
    SkillsApart(Whole(pre), Whole(post));
  }

  /** No text put between the parts can cost a skill if and only if no skill of the
      list needs both parts. */
  lemma InsertionNeverHurtsIff(pre: seq<string>, post: seq<string>)
    ensures (forall t: string :: ExtractSkills(pre + post) <= ExtractSkills(pre + [t] + post))
      <==> ExtractSkills(pre + post) == ExtractSkills(pre) + ExtractSkills(post)
  {
    hide ExtractSkills;
    HashParts(pre, post);
    InsertionKeepsParts(pre, "#", post);
    forall t: string ensures ExtractSkills(pre) + ExtractSkills(post) <= ExtractSkills(pre + [t] + post) {
      InsertionKeepsParts(pre, t, post);
    }
  }

  // ----- the coverage -------------------------------------------------------

  lemma {:induction false} BelowSize(n: nat, s: set<nat>)
    requires forall k :: k in s ==> k < n
    ensures |s| <= n
  {
    if n == 0 { assert s == {}; } else {
      BelowSize(n - 1, s - {n - 1});
      assert n - 1 in s ==> |s - {n - 1}| == |s| - 1;
      assert n - 1 !in s ==> s - {n - 1} == s;
    }
  }

  lemma ShareGap(part: nat, more: nat, whole: nat)
    requires part < more && 0 < whole <= 27
    ensures more as real / whole as real * 100.0 - part as real / whole as real * 100.0 >= 3.7
  {
    Gap(part as real, more as real, whole as real);
  }

  lemma Gap(part: real, more: real, whole: real)
    requires part + 1.0 <= more && 0.0 < whole <= 27.0
    ensures more / whole * 100.0 - part / whole * 100.0 >= 3.7
  {
    var d := more / whole - part / whole;
    assert more / whole * whole == more && part / whole * whole == part;
    assert d * whole == more - part;
    assert d >= 0.037 by {
      if d < 0.037 { Smaller(d, 0.037, whole); }
    }
  }

  lemma Smaller(x: real, y: real, whole: real)
    requires x < y && whole > 0.0
    ensures x * whole < y * whole
  {}

  /** A required skill lost and none gained costs at least 3.7 points of coverage. */
  lemma CoverageDrops(required: set<nat>, fewer: set<nat>, more: set<nat>)
    requires fewer <= more && |required| <= 27 && !(required * more <= fewer)
    ensures Coverage(required, fewer) <= Coverage(required, more) - 3.7
  {
    SubsetSize(required * fewer, required * more);
    assert required * fewer == required * more ==> required * more <= fewer;
    ShareGap(|required * fewer|, |required * more|, |required|);
    if fewer == {} {
      assert required * fewer == {};
    }
  }

  lemma CoverageSees(required: set<nat>, available: set<nat>)
    ensures Coverage(required, available) == Coverage(required, required * available)
  {
    assert required * (required * available) == required * available;
    if available == {} { assert required * available == {}; }
    if required * available == {} { assert |required * available| == 0; }
  }

  /** No text between the parts can lower the coverage of `required` if and only if
      every required skill of the list is in one of the parts. */
  lemma CoverageNeverFallsIff(required: set<nat>, pre: seq<string>, post: seq<string>)
    requires |required| <= 27
    ensures (forall t: string :: Coverage(required, ExtractSkills(pre + post)) <= Coverage(required, ExtractSkills(pre + [t] + post)))
      <==> required * ExtractSkills(pre + post) <= ExtractSkills(pre) + ExtractSkills(post)
  {
    hide ExtractSkills, Coverage;
    var parts, all := ExtractSkills(pre) + ExtractSkills(post), ExtractSkills(pre + post);
    HashParts(pre, post);
    InsertionKeepsParts(pre, "#", post);
    if required * all <= parts {
      forall t: string ensures Coverage(required, all) <= Coverage(required, ExtractSkills(pre + [t] + post)) {
        InsertionKeepsParts(pre, t, post);
        CoverageSees(required, all);
        CoverageGrows(required, required * all, ExtractSkills(pre + [t] + post));
      }
    } else {
      CoverageDrops(required, parts, all);
    }
  }

  // ----- the evidence of a candidate ----------------------------------------

  /** The lists of the evidence, in the order of `_skill_score`. */
  datatype Section =
    Skills | ExperienceTitles | ExperienceSummaries | ExperienceHighlights
    | ProjectTechnologies | ProjectSummaries | ProjectHighlights

  function ListOf(c: Candidate, section: Section): seq<string> {
    match section
    case Skills => c.skills
    case ExperienceTitles => c.experienceTitles
    case ExperienceSummaries => c.experienceSummaries
    case ExperienceHighlights => c.experienceHighlights
    case ProjectTechnologies => c.projectTechnologies
    case ProjectSummaries => c.projectSummaries
    case ProjectHighlights => c.projectHighlights
  }

  function SetList(c: Candidate, section: Section, values: seq<string>): Candidate {
    match section
    case Skills => c.(skills := values)
    case ExperienceTitles => c.(experienceTitles := values)
    case ExperienceSummaries => c.(experienceSummaries := values)
    case ExperienceHighlights => c.(experienceHighlights := values)
    case ProjectTechnologies => c.(projectTechnologies := values)
    case ProjectSummaries => c.(projectSummaries := values)
    case ProjectHighlights => c.(projectHighlights := values)
  }

  /** The role score and the level read these two lists as well. */
  predicate ReadByRole(section: Section) {
    section == ExperienceTitles || section == ExperienceSummaries
  }

  /** The candidate with `t` put into the list before position `i`. */
  function Insert(c: Candidate, section: Section, i: nat, t: string): Candidate
    requires i <= |ListOf(c, section)|
  {
    var values := ListOf(c, section);
    SetList(c, section, values[..i] + [t] + values[i..])
  }

  /** The candidate whose evidence ends, or begins, at that position. */
  function Upto(c: Candidate, section: Section, i: nat): seq<string>
    requires i <= |ListOf(c, section)|
  {
    Earlier(c, section) + ListOf(c, section)[..i]
  }

  function Onward(c: Candidate, section: Section, i: nat): seq<string>
    requires i <= |ListOf(c, section)|
  {
    ListOf(c, section)[i..] + Later(c, section)
  }

  function Earlier(c: Candidate, section: Section): seq<string> {
    match section
    case Skills => []
    case ExperienceTitles => c.skills
    case ExperienceSummaries => c.skills + c.experienceTitles
    case ExperienceHighlights => c.skills + c.experienceTitles + c.experienceSummaries
    case ProjectTechnologies => c.skills + c.experienceTitles + c.experienceSummaries + c.experienceHighlights
    case ProjectSummaries =>
      c.skills + c.experienceTitles + c.experienceSummaries + c.experienceHighlights + c.projectTechnologies
    case ProjectHighlights =>
      c.skills + c.experienceTitles + c.experienceSummaries + c.experienceHighlights + c.projectTechnologies + c.projectSummaries
  }

  function Later(c: Candidate, section: Section): seq<string> {
    match section
    case Skills =>
      c.experienceTitles + c.experienceSummaries + c.experienceHighlights + c.projectTechnologies + c.projectSummaries + c.projectHighlights
    case ExperienceTitles =>
      c.experienceSummaries + c.experienceHighlights + c.projectTechnologies + c.projectSummaries + c.projectHighlights
    case ExperienceSummaries => c.experienceHighlights + c.projectTechnologies + c.projectSummaries + c.projectHighlights
    case ExperienceHighlights => c.projectTechnologies + c.projectSummaries + c.projectHighlights
    case ProjectTechnologies => c.projectSummaries + c.projectHighlights
    case ProjectSummaries => c.projectHighlights
    case ProjectHighlights => []
  }

  lemma EvidenceOfList(c: Candidate, section: Section, values: seq<string>)
    ensures Evidence(SetList(c, section, values)) == Earlier(c, section) + values + Later(c, section)
  {}

  lemma EvidenceSplits(c: Candidate, section: Section, i: nat, t: string)
    requires i <= |ListOf(c, section)|
    ensures Evidence(c) == Upto(c, section, i) + Onward(c, section, i)
    ensures Evidence(Insert(c, section, i, t)) == Upto(c, section, i) + [t] + Onward(c, section, i)
  {
    hide Earlier, Later, Evidence;
    var values := ListOf(c, section);
    assert SetList(c, section, values) == c;
    EvidenceOfList(c, section, values);
    EvidenceOfList(c, section, values[..i] + [t] + values[i..]);
    assert values == values[..i] + values[i..];
  }

  lemma RequiredIsSmall(job: JobText)
    ensures |ExtractSkills(job.sections)| <= 27
  {
    hide HasSkill, Normalize, Join;
    assert |SKILLS| == 27;
    BelowSize(27, ExtractSkills(job.sections));
  }

  /** Every required skill of the evidence is found on one side of the position alone. */
  ghost predicate Unglued(job: JobText, c: Candidate, section: Section, i: nat)
    requires i <= |ListOf(c, section)|
  {
    ExtractSkills(job.sections) * ExtractSkills(Evidence(c))
    <= ExtractSkills(Upto(c, section, i)) + ExtractSkills(Onward(c, section, i))
  }

  /** A text put anywhere into the evidence can lower the skill score of a job if and
      only if a required skill is found across that very position only. */
  lemma SkillScoreNeverFallsIff(job: JobText, c: Candidate, section: Section, i: nat)
    requires i <= |ListOf(c, section)|
    ensures (forall t: string :: SkillScore(job, c) <= SkillScore(job, Insert(c, section, i, t)))
      <==> Unglued(job, c, section, i)
  {
    var required, pre, post := ExtractSkills(job.sections), Upto(c, section, i), Onward(c, section, i);
    hide ExtractSkills, Coverage, Evidence, Insert, Upto, Onward;
    RequiredIsSmall(job);
    forall t: string
      ensures SkillScore(job, Insert(c, section, i, t)) == Coverage(required, ExtractSkills(pre + [t] + post))
      ensures Evidence(c) == pre + post
    {
      EvidenceSplits(c, section, i, t);
    }
    assert Evidence(c) == pre + post by { EvidenceSplits(c, section, i, ""); }
    assert SkillScore(job, c) == Coverage(required, ExtractSkills(pre + post));
    CoverageNeverFallsIff(required, pre, post);
  }

  // ----- the total and the match --------------------------------------------

  /** The total before and after differ by the skill score alone. */
  lemma TotalFollowsSkill(job: JobText, c: Candidate, d: Candidate, inputs: Inputs)
    requires RoleText(c) == RoleText(d) && c.years == d.years && FilterReason(job, inputs) == None
    ensures var x, y := Evaluate(job, c, inputs), Evaluate(job, d, inputs);
      && x.Scored? && y.Scored?
      && (SkillScore(job, c) <= SkillScore(job, d) ==> x.total <= y.total && (x.matched ==> y.matched))
      && (SkillScore(job, c) <= SkillScore(job, d) - 3.7 ==> x.total < y.total)
  {
    hide FilterReason, RoleScore, LevelScore, JobLevel, CandidateLevel, SkillScore, Round;
    SameDirection(job, c, d, inputs.similarTitle);
    var role := RoleScore(job, c, inputs.similarTitle);
    var level := LevelScore(JobLevel(job), CandidateLevel(c));
    var low, high := Weighted(role, level, SkillScore(job, c)), Weighted(role, level, SkillScore(job, d));
    if SkillScore(job, c) <= SkillScore(job, d) { RoundIsMonotone(low, high); }
    RoundIsNearest(low);
    RoundIsNearest(high);
  }

  lemma RoleIsUntouched(c: Candidate, section: Section, i: nat, t: string)
    requires i <= |ListOf(c, section)| && !ReadByRole(section)
    ensures RoleText(Insert(c, section, i, t)) == RoleText(c) && Insert(c, section, i, t).years == c.years
  {}

  /** The worst text is a lone `#`: it leaves the coverage of the parts. */
  lemma HashIsWorst(job: JobText, c: Candidate, section: Section, i: nat, t: string)
    requires i <= |ListOf(c, section)|
    ensures SkillScore(job, Insert(c, section, i, "#")) <= SkillScore(job, Insert(c, section, i, t))
    ensures SkillScore(job, Insert(c, section, i, "#")) ==
      Coverage(ExtractSkills(job.sections), ExtractSkills(Upto(c, section, i)) + ExtractSkills(Onward(c, section, i)))
  {
    hide ExtractSkills, Coverage, Evidence, Insert, Upto, Onward;
    EvidenceSplits(c, section, i, t);
    EvidenceSplits(c, section, i, "#");
    HashParts(Upto(c, section, i), Onward(c, section, i));
    InsertionKeepsParts(Upto(c, section, i), t, Onward(c, section, i));
    CoverageGrows(ExtractSkills(job.sections), ExtractSkills(Evidence(Insert(c, section, i, "#"))),
                  ExtractSkills(Evidence(Insert(c, section, i, t))));
  }

  lemma SkillDropsByHash(job: JobText, c: Candidate, section: Section, i: nat)
    requires i <= |ListOf(c, section)| && !Unglued(job, c, section, i)
    ensures SkillScore(job, Insert(c, section, i, "#")) <= SkillScore(job, c) - 3.7
  {
    var required, pre, post := ExtractSkills(job.sections), Upto(c, section, i), Onward(c, section, i);
    hide ExtractSkills, Coverage, Evidence, Insert, Upto, Onward;
    RequiredIsSmall(job);
    EvidenceSplits(c, section, i, "#");
    HashParts(pre, post);
    InsertionKeepsParts(pre, "#", post);
    CoverageDrops(required, ExtractSkills(pre) + ExtractSkills(post), ExtractSkills(pre + post));
  }

  /** The rounded total of a scored job, with a text put into a list the role score
      does not read: no text can lower it if and only if no required skill is found
      across that position only. */
  lemma TotalNeverFallsIff(job: JobText, c: Candidate, inputs: Inputs, section: Section, i: nat)
    requires i <= |ListOf(c, section)| && !ReadByRole(section) && FilterReason(job, inputs) == None
    ensures Evaluate(job, c, inputs).Scored? && forall t :: Evaluate(job, Insert(c, section, i, t), inputs).Scored?
    ensures (forall t :: Evaluate(job, c, inputs).total <= Evaluate(job, Insert(c, section, i, t), inputs).total)
      <==> Unglued(job, c, section, i)
  {
    SkillScoreNeverFallsIff(job, c, section, i);
    hide FilterReason, Evaluate, SkillScore, Insert, Unglued, RoleText;
    forall t: string
      ensures Evaluate(job, c, inputs).Scored? && Evaluate(job, Insert(c, section, i, t), inputs).Scored?
      ensures SkillScore(job, c) <= SkillScore(job, Insert(c, section, i, t)) ==>
        Evaluate(job, c, inputs).total <= Evaluate(job, Insert(c, section, i, t), inputs).total
    {
      RoleIsUntouched(c, section, i, t);
      TotalFollowsSkill(job, c, Insert(c, section, i, t), inputs);
    }
    assert Evaluate(job, c, inputs).Scored? by { TotalFollowsSkill(job, c, c, inputs); }
    if !Unglued(job, c, section, i) {
      SkillDropsByHash(job, c, section, i);
      RoleIsUntouched(c, section, i, "#");
      TotalFollowsSkill(job, Insert(c, section, i, "#"), c, inputs);
    }
  }

  /** The match itself survives every text at that position if and only if it survives
      a lone `#`, that is, if the parts alone cover enough. */
  lemma MatchSurvivesIff(job: JobText, c: Candidate, inputs: Inputs, section: Section, i: nat)
    requires i <= |ListOf(c, section)| && !ReadByRole(section) && FilterReason(job, inputs) == None
    ensures forall t :: Evaluate(job, Insert(c, section, i, t), inputs).Scored?
    ensures (forall t :: Evaluate(job, Insert(c, section, i, t), inputs).matched)
      <==> Round(Weighted(RoleScore(job, c, inputs.similarTitle), LevelScore(JobLevel(job), CandidateLevel(c)),
        Coverage(ExtractSkills(job.sections), ExtractSkills(Upto(c, section, i)) + ExtractSkills(Onward(c, section, i))))) >= MATCH_THRESHOLD
  {
    hide FilterReason, SkillScore, Insert, RoleText, RoleScore, LevelScore, JobLevel, CandidateLevel, Round, Weighted,
      Coverage, ExtractSkills, Upto, Onward;
    forall t: string
      ensures Evaluate(job, Insert(c, section, i, t), inputs).Scored?
      ensures Evaluate(job, Insert(c, section, i, "#"), inputs).matched ==> Evaluate(job, Insert(c, section, i, t), inputs).matched
    {
      RoleIsUntouched(c, section, i, t);
      RoleIsUntouched(c, section, i, "#");
      HashIsWorst(job, c, section, i, t);
      TotalFollowsSkill(job, Insert(c, section, i, "#"), Insert(c, section, i, t), inputs);
    }
    RoleIsUntouched(c, section, i, "#");
    SameDirection(job, c, Insert(c, section, i, "#"), inputs.similarTitle);
    HashIsWorst(job, c, section, i, "#");
  }

  // ----- a match that is lost -----------------------------------------------

  const LOST_JOB := JobText("ai开发", ["js"])
  const LOST_CANDIDATE := Candidate(["ai"], ["j"], [], [], ["s"], [], [], [], "")
  const LOST_INPUTS := Inputs(false, false, false)

  predicate Plain(s: string) {
    forall i :: 0 <= i < |s| ==> !IsSpace(s[i]) && Fold(s[i]) == s[i]
  }

  lemma {:induction false} NothingToRemove(s: string)
    requires forall i :: 0 <= i < |s| ==> !IsSpace(s[i])
    ensures RemoveSpaces(s) == s
  {
    if s != [] { NothingToRemove(s[1..]); }
  }

  lemma NormalizePlain(s: string)
    requires Plain(s)
    ensures Normalize(s) == s
  {
    ReplaceIsDead(s);
    assert CaseFold(s) == s;
    NothingToRemove(s);
  }

  lemma ContainsAt(text: string, term: string, i: nat)
    requires OccursAt(text, term, i)
    ensures Contains(text, term)
  {}

  lemma LostIsScored()
    ensures FilterReason(LOST_JOB, LOST_INPUTS) == None
  {
    hide Normalize;
    NormalizePlain("ai开发");
    assert AI_TERMS[0] == "ai" && DEVELOPMENT_TERMS[0] == "开发";
    ContainsAt("ai开发", "ai", 0);
    ContainsAt("ai开发", "开发", 2);
  }

  lemma LostRole()
    ensures RoleScore(LOST_JOB, LOST_CANDIDATE, false) == 80.0
  {
    hide Normalize;
    NormalizePlain("ai");
    assert RoleText(LOST_CANDIDATE) == ["ai"] && Join(["ai"]) == "ai";
    assert AI_TERMS[0] == "ai";
    ContainsAt("ai", "ai", 0);
    forall i | 0 <= i < |CLOSE_TERMS| ensures !Contains("ai", CLOSE_TERMS[i]) {
      assert |CLOSE_TERMS[i]| > 2;
    }
  }

  /** `javascript` is asked for, and found across the two lists only. */
  lemma LostSkill()
    ensures SkillScore(LOST_JOB, LOST_CANDIDATE) == 100.0
    ensures ExtractSkills(Upto(LOST_CANDIDATE, Skills, 1)) == {} == ExtractSkills(Onward(LOST_CANDIDATE, Skills, 1))
  {
    hide Normalize, ExtractSkills, Join, SkillsIn, Coverage;
    LostTexts();
    ExtractIsSkillsIn(LOST_JOB.sections);
    ExtractIsSkillsIn(Evidence(LOST_CANDIDATE));
    ExtractIsSkillsIn(["j"]);
    ExtractIsSkillsIn(["s"]);
    ShortTextHasNoSkill("j");
    ShortTextHasNoSkill("s");
    JavascriptInJs();
    CoverageInRange(SkillsIn("js"), SkillsIn("js"));
    assert LOST_CANDIDATE.skills[..1] == ["j"] && LOST_CANDIDATE.skills[1..] == [];
    assert Upto(LOST_CANDIDATE, Skills, 1) == ["j"] && Onward(LOST_CANDIDATE, Skills, 1) == ["s"];
  }

  lemma LostTexts()
    ensures Whole(LOST_JOB.sections) == "js" && Whole(["j"]) == "j" && Whole(["s"]) == "s"
    ensures Evidence(LOST_CANDIDATE) == ["j"] + ["s"] && Whole(Evidence(LOST_CANDIDATE)) == "js"
  {
    hide Normalize;
    NormalizePlain("js");
    NormalizePlain("j");
    NormalizePlain("s");
    WholeConcat(["j"], ["s"]);
    assert Evidence(LOST_CANDIDATE) == ["j"] + ["s"];
  }

  lemma JavascriptInJs()
    ensures 1 in SkillsIn("js")
  {
    assert SKILLS[1].aliases == ["javascript", "js"];
    hide Normalize, Contains;
    NormalizePlain("js");
    ContainsAt("js", "js", 0);
    assert Contains("js", Normalize(SKILLS[1].aliases[1]));
    assert HasSkill("js", 1);
  }

  lemma RoundOf(n: nat, x: real)
    ensures x >= n as real ==> Round(x) >= n as real
    ensures x <= n as real ==> Round(x) <= n as real
  {
    RoundKeepsHundredths(100 * n);
    assert (100 * n) as real / 100.0 == n as real;
    if x >= n as real { RoundIsMonotone(n as real, x); }
    if x <= n as real { RoundIsMonotone(x, n as real); }
  }

  /** The skills "j" and the highlight "s" read as "js". A further skill "#" costs the
      candidate the only required skill, 40 points of the total and the match. */
  lemma AnotherSkillLosesTheMatch()
    ensures var before := Evaluate(LOST_JOB, LOST_CANDIDATE, LOST_INPUTS);
      var after := Evaluate(LOST_JOB, LOST_CANDIDATE.(skills := ["j", "#"]), LOST_INPUTS);
      && before.Scored? && before.matched && before.total >= 68.0
      && after.Scored? && !after.matched && after.total <= 53.0
  {
    hide FilterReason, RoleScore, LevelScore, JobLevel, CandidateLevel, SkillScore, Round, ExtractSkills, Coverage;
    LostIsScored();
    LostRole();
    LostSkill();
    var after := Insert(LOST_CANDIDATE, Skills, 1, "#");
    assert LOST_CANDIDATE.skills[..1] + ["#"] + LOST_CANDIDATE.skills[1..] == ["j", "#"];
    assert after == LOST_CANDIDATE.(skills := ["j", "#"]);
    RoleIsUntouched(LOST_CANDIDATE, Skills, 1, "#");
    SameDirection(LOST_JOB, LOST_CANDIDATE, after, false);
    HashIsWorst(LOST_JOB, LOST_CANDIDATE, Skills, 1, "#");
    NothingCovers(ExtractSkills(LOST_JOB.sections));
    var level := LevelScore(JobLevel(LOST_JOB), CandidateLevel(LOST_CANDIDATE));
    RoundOf(68, Weighted(80.0, level, 100.0));
    RoundOf(53, Weighted(80.0, level, 0.0));
  }

  lemma NothingCovers(required: set<nat>)
    ensures Coverage(required, {} + {}) == 0.0
  {}
}
