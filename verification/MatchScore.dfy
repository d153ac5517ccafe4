/** The matching algorithm v0.1: three weighted scores, rounded to two decimals. Scores
    are real numbers; title similarity and the parsed goal filters are inputs. */
module MatchScore {
  import opened Common
  import opened Text
  import opened Experience
  import opened ExperienceLevel

  const ROLE_WEIGHT: real := 0.35
  const LEVEL_WEIGHT: real := 0.25
  const SKILL_WEIGHT: real := 0.40
  const MATCH_THRESHOLD: real := 60.0

  const AI_TERMS: seq<string> := [
    "ai", "人工智能", "大模型", "大语言模型", "llm", "agent", "智能体",
    "rag", "aigc", "机器学习", "深度学习", "nlp", "mcp"]
  const DEVELOPMENT_TERMS: seq<string> := [
    "开发", "工程", "软件", "应用", "后端", "前端", "全栈", "架构",
    "developer", "engineer", "software", "backend", "frontend", "fullstack"]
  const HIGH_TERMS: seq<string> := ["高级", "资深", "专家", "负责人", "lead", "principal", "staff", "总监"]
  const LOW_TERMS: seq<string> := ["初级", "助理", "实习", "junior", "entry"]
  const CLOSE_TERMS: seq<string> := ["agent", "智能体", "rag", "llm", "大模型"]
  const GENERAL_TERMS: seq<string> := ["开发", "软件", "后端", "前端", "工程"]

  datatype Skill = Skill(name: string, aliases: seq<string>)

  const SKILLS: seq<Skill> := [
    Skill("python", ["python"]), Skill("javascript", ["javascript", "js"]),
    Skill("typescript", ["typescript", "ts"]), Skill("java", ["java"]),
    Skill("go", ["golang", "go语言"]), Skill("c++", ["c++"]), Skill("react", ["react"]),
    Skill("vue", ["vue"]), Skill("node.js", ["node.js", "nodejs", "node"]),
    Skill("fastapi", ["fastapi"]), Skill("langchain", ["langchain"]),
    Skill("langgraph", ["langgraph"]), Skill("llm", ["llm", "大模型", "大语言模型"]),
    Skill("agent", ["agent", "智能体"]), Skill("rag", ["rag", "检索增强生成"]),
    Skill("function_calling", ["function calling", "函数调用", "tool calling", "工具调用"]),
    Skill("prompt", ["prompt", "提示词"]), Skill("memory", ["memory", "记忆管理"]),
    Skill("context", ["context", "上下文管理"]), Skill("mysql", ["mysql"]),
    Skill("postgresql", ["postgresql", "postgres"]), Skill("redis", ["redis"]),
    Skill("docker", ["docker", "容器化"]), Skill("kubernetes", ["kubernetes", "k8s"]),
    Skill("mcp", ["mcp"]), Skill("api", ["api", "接口服务"]),
    Skill("async_tasks", ["异步任务", "celery"])]

  datatype Candidate = Candidate(
    targetTitles: seq<string>, skills: seq<string>,
    experienceTitles: seq<string>, experienceSummaries: seq<string>, experienceHighlights: seq<string>,
    projectTechnologies: seq<string>, projectSummaries: seq<string>, projectHighlights: seq<string>,
    years: string)

  /** `sections`: the items of responsibilities and requirements. */
  datatype JobText = JobText(title: string, sections: seq<string>)

  /** What the goal filters and the title comparison contribute. */
  datatype Inputs = Inputs(excludedLocation: bool, salaryBelowMinimum: bool, similarTitle: bool)

  datatype Reason = ExcludedLocation | SalaryBelowMinimum | UnsupportedJobFamily

  datatype Result =
    | FilteredOut(reason: Reason)
    | Scored(matched: bool, role: real, level: real, skill: real, total: real)

  // ----- normalisation ------------------------------------------------------

  /** Case folding of the letters the term tables use, full-width ones included. */
  function Fold(c: char): char {
    if 0x41 <= c as int <= 0x5a || 0xff21 <= c as int <= 0xff3a then (c as int + 32) as char else c
  }

  function CaseFold(s: string): (r: string)
    ensures |r| == |s| && forall i :: 0 <= i < |s| ==> r[i] == Fold(s[i])
  {
    if s == [] then [] else [Fold(s[0])] + CaseFold(s[1..])
  }

  /** `replace("ＡＩ", "ai")`. */
  function ReplaceWideAi(s: string): string {
    if |s| < 2 then s
    else if s[0] as int == 0xff21 && s[1] as int == 0xff29 then "ai" + ReplaceWideAi(s[2..])
    else [s[0]] + ReplaceWideAi(s[1..])
  }

  function Normalize(s: string): string {
    RemoveSpaces(ReplaceWideAi(CaseFold(s)))
  }

  /** The replacement never fires: folding has already lowered the full-width letters. */
  lemma ReplaceIsDead(s: string)
    ensures ReplaceWideAi(CaseFold(s)) == CaseFold(s)
  {
    NothingToReplace(CaseFold(s));
  }

  lemma {:induction false} NothingToReplace(s: string)
    requires forall i :: 0 <= i < |s| ==> s[i] as int != 0xff21
    ensures ReplaceWideAi(s) == s
  {
    if |s| >= 2 { NothingToReplace(s[1..]); }
  }

  lemma FoldConcat(s: string, t: string)
    ensures CaseFold(s + t) == CaseFold(s) + CaseFold(t)
  {
    hide Fold;
  }

  lemma NormalizeConcat(s: string, t: string)
    ensures Normalize(s + t) == Normalize(s) + Normalize(t)
  {
    hide CaseFold, ReplaceWideAi, RemoveSpaces;
    ReplaceIsDead(s);
    ReplaceIsDead(t);
    ReplaceIsDead(s + t);
    FoldConcat(s, t);
    RemoveSpacesConcat(CaseFold(s), CaseFold(t));
  }

  /** `" ".join(values)`. */
  function Join(values: seq<string>): string {
    if values == [] then "" else if |values| == 1 then values[0] else values[0] + " " + Join(values[1..])
  }

  lemma {:induction false} JoinAppends(values: seq<string>, text: string)
    ensures exists gap :: Blank(gap) && Join(values + [text]) == Join(values) + gap + text
  {
    if values == [] {
      assert Join(values + [text]) == Join(values) + "" + text;
    } else {
      assert (values + [text])[1..] == values[1..] + [text];
      if |values| == 1 {
        assert values[1..] + [text] == [text];
        assert Join(values + [text]) == Join(values) + " " + text;
      } else {
        JoinAppends(values[1..], text);
        var gap :| Blank(gap) && Join(values[1..] + [text]) == Join(values[1..]) + gap + text;
        assert Join(values + [text]) == Join(values) + gap + text;
      }
    }
  }

  predicate Mentions(text: string, terms: seq<string>) {
    exists i :: 0 <= i < |terms| && Contains(text, terms[i])
  }

  // ----- the three scores ---------------------------------------------------

  predicate AiSoftwareJob(title: string) {
    Mentions(Normalize(title), AI_TERMS) && Mentions(Normalize(title), DEVELOPMENT_TERMS)
  }

  function RoleText(c: Candidate): seq<string> {
    c.targetTitles + c.experienceTitles + c.experienceSummaries
  }

  function RoleScore(job: JobText, c: Candidate, similarTitle: bool): (r: real)
    ensures r in {0.0, 40.0, 80.0, 100.0}
  {
    var title := Normalize(job.title);
    var text := Normalize(Join(RoleText(c)));
    if text == "" then 0.0
    else if similarTitle then 100.0
    else if Mentions(text, AI_TERMS) then
      if exists i :: 0 <= i < |CLOSE_TERMS| && Contains(title, CLOSE_TERMS[i]) && Contains(text, CLOSE_TERMS[i]) then 100.0
      else 80.0
    else if Mentions(text, GENERAL_TERMS) then 40.0
    else 0.0
  }

  function JobLevel(job: JobText): Level {
    var title := Normalize(job.title);
    var text := Normalize(Join(job.sections));
    if Mentions(title, HIGH_TERMS) || Mentions(text, HIGH_TERMS) then High
    else if Mentions(title, LOW_TERMS) || Mentions(text, LOW_TERMS) then Low
    else LevelFromYears(ExtractYears(text))
  }

  function CandidateLevel(c: Candidate): Level {
    var text := Normalize(Join(RoleText(c)));
    if Mentions(text, HIGH_TERMS) then High
    else if Mentions(text, LOW_TERMS) then Low
    else LevelFromYears(ExtractYears(c.years))
  }

  function Index(level: Level): int {
    match level case Low => 0 case Mid => 1 case High => 2
  }

  function LevelScore(job: Level, candidate: Level): (r: real)
    ensures r in {0.0, 60.0, 100.0}
  {
    var distance := Index(job) - Index(candidate);
    if distance == 0 then 100.0 else if distance == 1 || distance == -1 then 60.0 else 0.0
  }

  predicate HasSkill(text: string, k: nat)
    requires k < |SKILLS|
  {
    exists a :: 0 <= a < |SKILLS[k].aliases| && Contains(text, Normalize(SKILLS[k].aliases[a]))
  }

  /** The skills found, by their place in the table. */
  function ExtractSkills(values: seq<string>): set<nat> {
    var text := Normalize(Join(values));
    set k: nat | k < |SKILLS| && HasSkill(text, k)
  }

  /** `_extract_skills` as a loop over the alias table. */
  method CollectSkills(values: seq<string>) returns (result: set<nat>)
    ensures result == ExtractSkills(values)
  {
    hide HasSkill, Normalize, Join;
    var text := Normalize(Join(values));
    result := {};
    for k := 0 to |SKILLS|
      invariant forall m: nat :: m in result <==> m < k && HasSkill(text, m)
    {
      if HasSkill(text, k) {
        result := result + {k};
      }
    }
  }

  function Evidence(c: Candidate): seq<string> {
    c.skills + c.experienceTitles + c.experienceSummaries + c.experienceHighlights
    + c.projectTechnologies + c.projectSummaries + c.projectHighlights
  }

  function Coverage(required: set<nat>, available: set<nat>): real {
    if required == {} then 0.0
    else if available == {} then 0.0
    else |required * available| as real / |required| as real * 100.0
  }

  // ----- rounding and the total ---------------------------------------------

  /** `round(x, 2)`: to the nearest hundredth, ties to the even one. */
  function Round(x: real): real {
    var scaled := x * 100.0;
    var floor := scaled.Floor;
    var rest := scaled - floor as real;
    var units := if rest < 0.5 then floor else if rest > 0.5 then floor + 1 else if floor % 2 == 0 then floor else floor + 1;
    units as real / 100.0
  }

  lemma RoundIsMonotone(x: real, y: real)
    requires x <= y
    ensures Round(x) <= Round(y)
  {
    assert (x * 100.0).Floor <= (y * 100.0).Floor;
  }

  lemma RoundIsNearest(x: real)
    ensures -0.005 <= Round(x) - x <= 0.005
  {}

  lemma RoundKeepsHundredths(n: int)
    ensures Round(n as real / 100.0) == n as real / 100.0
  {
    assert n as real / 100.0 * 100.0 == n as real;
  }

  function Weighted(role: real, level: real, skill: real): real {
    role * ROLE_WEIGHT + level * LEVEL_WEIGHT + skill * SKILL_WEIGHT
  }

  function FilterReason(job: JobText, inputs: Inputs): Option<Reason> {
    if inputs.excludedLocation then Some(ExcludedLocation)
    else if inputs.salaryBelowMinimum then Some(SalaryBelowMinimum)
    else if !AiSoftwareJob(job.title) then Some(UnsupportedJobFamily)
    else None
  }

  function SkillScore(job: JobText, c: Candidate): real {
    Coverage(ExtractSkills(job.sections), ExtractSkills(Evidence(c)))
  }

  /** `evaluate`. */
  function Evaluate(job: JobText, c: Candidate, inputs: Inputs): Result {
    var reason := FilterReason(job, inputs);
    if reason.Some? then FilteredOut(reason.value)
    else
      var role := RoleScore(job, c, inputs.similarTitle);
      var level := LevelScore(JobLevel(job), CandidateLevel(c));
      var skill := SkillScore(job, c);
      var total := Round(Weighted(role, level, skill));
      Scored(total >= MATCH_THRESHOLD, Round(role), Round(level), Round(skill), total)
  }

  // ----- the properties -----------------------------------------------------

  lemma CoverageInRange(required: set<nat>, available: set<nat>)
    ensures 0.0 <= Coverage(required, available) <= 100.0
    ensures required != {} ==> (Coverage(required, available) == 100.0 <==> required <= available)
  {
    if required != {} {
      var both := required * available;
      SubsetSize(both, required);
      assert both == required <==> required <= available;
      Share(|both| as real, |required| as real);
    }
  }

  lemma Share(part: real, whole: real)
    requires 0.0 <= part <= whole && whole > 0.0
    ensures 0.0 <= part / whole * 100.0 <= 100.0
    ensures part / whole * 100.0 == 100.0 <==> part == whole
  {
    assert part / whole * whole == part;
  }

  lemma {:induction false} SubsetSize<T>(s: set<T>, t: set<T>)
    requires s <= t
    ensures |s| <= |t| && (|s| == |t| ==> s == t)
  {
    if s != {} {
      var x :| x in s;
      SubsetSize(s - {x}, t - {x});
      assert s == (s - {x}) + {x} && t == (t - {x}) + {x};
    }
  }

  /** Every score is between 0 and 100, and an unfiltered job is matched exactly when
      its total reaches 60. */
  lemma ScoresInRange(job: JobText, c: Candidate, inputs: Inputs)
    ensures var r := Evaluate(job, c, inputs);
      r.Scored? ==>
        && 0.0 <= r.role <= 100.0 && 0.0 <= r.level <= 100.0 && 0.0 <= r.skill <= 100.0 && 0.0 <= r.total <= 100.0
        && (r.matched <==> r.total >= 60.0)
        && -0.005 <= r.total - Weighted(RoleScore(job, c, inputs.similarTitle), LevelScore(JobLevel(job), CandidateLevel(c)), SkillScore(job, c)) <= 0.005
  {
    hide RoleScore, LevelScore, FilterReason, JobLevel, CandidateLevel, ExtractSkills, Evidence, Coverage, Round;
    CoverageInRange(ExtractSkills(job.sections), ExtractSkills(Evidence(c)));
    var role := RoleScore(job, c, inputs.similarTitle);
    var level := LevelScore(JobLevel(job), CandidateLevel(c));
    var skill := SkillScore(job, c);
    RoundInRange(role);
    RoundInRange(level);
    RoundInRange(skill);
    RoundInRange(Weighted(role, level, skill));
    RoundIsNearest(Weighted(role, level, skill));
  }

  lemma RoundInRange(x: real)
    requires 0.0 <= x <= 100.0
    ensures 0.0 <= Round(x) <= 100.0
  {
    RoundKeepsHundredths(0);
    RoundKeepsHundredths(10000);
    RoundIsMonotone(0.0, x);
    RoundIsMonotone(x, 100.0);
  }

  lemma SkillsGrow(values: seq<string>, text: string)
    ensures ExtractSkills(values) <= ExtractSkills(values + [text])
  {
    JoinAppends(values, text);
    var gap :| Blank(gap) && Join(values + [text]) == Join(values) + gap + text;
    var more := gap + text;
    assert Join(values) + gap + text == Join(values) + more;
    NormalizeConcat(Join(values), more);
    var shorter := Normalize(Join(values));
    hide Normalize;
    forall k: nat | k < |SKILLS| && HasSkill(shorter, k) ensures HasSkill(Normalize(Join(values + [text])), k) {
      var a :| 0 <= a < |SKILLS[k].aliases| && Contains(shorter, Normalize(SKILLS[k].aliases[a]));
      ContainsGrows(shorter, Normalize(more), Normalize(SKILLS[k].aliases[a]));
    }
  }

  lemma CoverageGrows(required: set<nat>, s: set<nat>, t: set<nat>)
    requires s <= t
    ensures Coverage(required, s) <= Coverage(required, t)
  {
    if required != {} && s != {} {
      SubsetSize(required * s, required * t);
      var whole := |required| as real;
      DivideBoth(|required * s| as real, |required * t| as real, whole);
    } else if required != {} {
      CoverageInRange(required, t);
    }
  }

  lemma DivideBoth(x: real, y: real, whole: real)
    requires x <= y && whole > 0.0
    ensures x / whole * 100.0 <= y / whole * 100.0
  {}

  lemma SameDirection(job: JobText, c: Candidate, d: Candidate, similarTitle: bool)
    requires RoleText(c) == RoleText(d) && c.years == d.years
    ensures RoleScore(job, c, similarTitle) == RoleScore(job, d, similarTitle) && CandidateLevel(c) == CandidateLevel(d)
  {}

  /** One more project highlight, whatever its text, never lowers the rounded total
      and never undoes a match. */
  lemma HighlightNeverHurts(job: JobText, c: Candidate, inputs: Inputs, text: string)
    ensures var before := Evaluate(job, c, inputs);
      var after := Evaluate(job, c.(projectHighlights := c.projectHighlights + [text]), inputs);
      && (after.FilteredOut? <==> before.FilteredOut?)
      && (before.Scored? ==> after.total >= before.total && (before.matched ==> after.matched))
  {
    hide FilterReason, RoleScore, LevelScore, JobLevel, ExtractSkills, Coverage, Round;
    var more := c.(projectHighlights := c.projectHighlights + [text]);
    SameDirection(job, c, more, inputs.similarTitle);
    assert Evidence(more) == Evidence(c) + [text];
    SkillsGrow(Evidence(c), text);
    CoverageGrows(ExtractSkills(job.sections), ExtractSkills(Evidence(c)), ExtractSkills(Evidence(more)));
    var role := RoleScore(job, c, inputs.similarTitle);
    var level := LevelScore(JobLevel(job), CandidateLevel(c));
    RoundIsMonotone(Weighted(role, level, SkillScore(job, c)), Weighted(role, level, SkillScore(job, more)));
  }

  /** The level of a candidate whose years were derived from a work history: a level
      word decides, the higher ones first, and otherwise the distinct months do. */
  lemma CandidateLevelIff(c: Candidate, entries: seq<Entry>, today: int)
    requires c.years == ExperienceText(entries, today)
    ensures var text := Normalize(Join(c.targetTitles + c.experienceTitles + c.experienceSummaries));
      var high, low := Mentions(text, HIGH_TERMS), Mentions(text, LOW_TERMS);
      var known, n := Intervals(entries, today) != [], |Months(Intervals(entries, today))|;
      && (CandidateLevel(c) == High <==> high || (!low && known && n >= 66))
      && (CandidateLevel(c) == Low <==> !high && (low || (known && n <= 29)))
      && (CandidateLevel(c) == Mid <==> !high && !low && (!known || 30 <= n <= 65))
  {
    hide ExtractYears, ExperienceText, Months, Intervals, Mentions, Normalize, Join;
    LevelOfExperience(entries, today);
  }

  // ----- what each score means ----------------------------------------------

  /** An AI term of the close ones in the title and in the candidate's text alike. */
  predicate Shares(title: string, text: string) {
    exists i :: 0 <= i < |CLOSE_TERMS| && Contains(title, CLOSE_TERMS[i]) && Contains(text, CLOSE_TERMS[i])
  }

  /** The role score, value by value: nothing known or nothing in common, general
      development, AI development, and the same direction or a similar title. */
  lemma RoleScoreIff(job: JobText, c: Candidate, similarTitle: bool)
    ensures var r, title, text := RoleScore(job, c, similarTitle), Normalize(job.title), Normalize(Join(c.targetTitles + c.experienceTitles + c.experienceSummaries));
      var ai, general := Mentions(text, AI_TERMS), Mentions(text, GENERAL_TERMS);
      && (r == 100.0 <==> text != "" && (similarTitle || (ai && Shares(title, text))))
      && (r == 80.0 <==> text != "" && !similarTitle && ai && !Shares(title, text))
      && (r == 40.0 <==> text != "" && !similarTitle && !ai && general)
      && (r == 0.0 <==> text == "" || (!similarTitle && !ai && !general))
  {
    hide Normalize, Join, Mentions;
  }

  /** The level of a job: level words in the title or the sections, the higher ones
      first, then the years asked for, up to two, up to five, or more. */
  lemma JobLevelIff(job: JobText)
    ensures var title, text := Normalize(job.title), Normalize(Join(job.sections));
      var high, low :=
        Mentions(title, HIGH_TERMS) || Mentions(text, HIGH_TERMS), Mentions(title, LOW_TERMS) || Mentions(text, LOW_TERMS);
      var years := ExtractYears(text);
      && (JobLevel(job) == High <==> high || (!low && years.Some? && years.value > 5.0))
      && (JobLevel(job) == Low <==> !high && (low || (years.Some? && years.value <= 2.0)))
      && (JobLevel(job) == Mid <==> !high && !low && (years.None? || 2.0 < years.value <= 5.0))
  {
    hide Normalize, Join, Mentions, ExtractYears;
  }

  /** Equal levels score 100, neighbours 60, low against high nothing, either way. */
  lemma LevelScoreIff(job: Level, candidate: Level)
    ensures var r := LevelScore(job, candidate);
      && (r == 100.0 <==> job == candidate)
      && (r == 0.0 <==> (job == Low && candidate == High) || (job == High && candidate == Low))
      && (r == 60.0 <==> job != candidate && (job == Mid || candidate == Mid))
      && r == LevelScore(candidate, job)
  {}

  /** The share of the required skills that are available, in percent. */
  lemma CoverageIsTheShare(required: set<nat>, available: set<nat>)
    ensures Coverage(required, available) * |required| as real == 100.0 * |required * available| as real
  {
    if required == {} {
      assert required * available == {};
    } else {
      var part, whole := |required * available| as real, |required| as real;
      assert part / whole * whole == part;
      if available == {} { assert required * available == {}; }
    }
  }

  /** Whether a job is scored at all, and within half a hundredth of which number. */
  lemma TotalIsWeighted(job: JobText, c: Candidate, inputs: Inputs)
    ensures var r := Evaluate(job, c, inputs);
      && (r.Scored? <==> !inputs.excludedLocation && !inputs.salaryBelowMinimum
                         && Mentions(Normalize(job.title), AI_TERMS) && Mentions(Normalize(job.title), DEVELOPMENT_TERMS))
      && (r.FilteredOut? ==>
            r.reason == if inputs.excludedLocation then ExcludedLocation
                        else if inputs.salaryBelowMinimum then SalaryBelowMinimum else UnsupportedJobFamily)
      && (r.Scored? ==>
            && (r.matched <==> r.total >= 60.0)
            && -0.005 <= r.total - (0.35 * RoleScore(job, c, inputs.similarTitle) + 0.25 * LevelScore(JobLevel(job), CandidateLevel(c))
                                    + 0.4 * SkillScore(job, c)) <= 0.005)
  {
    hide Normalize, Mentions, RoleScore, LevelScore, JobLevel, CandidateLevel, SkillScore, Round;
    RoundIsNearest(Weighted(RoleScore(job, c, inputs.similarTitle), LevelScore(JobLevel(job), CandidateLevel(c)), SkillScore(job, c)));
  }
}
