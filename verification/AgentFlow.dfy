/** Goals, agent runs, matches, applications, conversations and progress events on top
    of the parsing tables, and every transaction that writes them. */
module AgentFlow {
  import opened Common
  import opened Tasks
  import opened Readiness

  // ----- tables -------------------------------------------------------------

  datatype GoalStatus = GoalActive | GoalAchieved | GoalAbandoned

  datatype Goal = Goal(candidate: nat, offerTarget: nat, title: string, filters: string, status: GoalStatus)

  datatype RunStatus = RunRunning | RunFinished

  datatype FinishReason = NoMatch | OfferTargetReached

  datatype AgentRun = AgentRun(
    candidate: nat, goal: nat, resume: nat, profile: nat, createdAt: int, status: RunStatus, reason: Option<FinishReason>)

  datatype MatchStatus = FilteredOut | NotMatched | Matched | ApplicationCreated

  datatype Match = Match(run: nat, candidate: nat, job: nat, status: MatchStatus)

  datatype AppStatus =
    Submitted | Screening | WrittenTest | Interview1 | Interview2 | Interview3 | HrInterview | Offer | Terminated

  datatype App = App(run: nat, match_: nat, candidate: nat, job: nat, status: AppStatus)

  /** One row of progress_events; the table only ever grows. */
  datatype Event = Event(app: nat, from: Option<AppStatus>, to: AppStatus)

  datatype World = World(
    db: Db, goals: map<nat, Goal>, runs: map<nat, AgentRun>, matches: map<nat, Match>, apps: map<nat, App>,
    conversations: map<nat, nat>, events: seq<Event>)

  // ----- goals --------------------------------------------------------------

  predicate HasRun(runs: map<nat, AgentRun>, candidate: nat) {
    exists r :: r in runs && runs[r].candidate == candidate
  }

  ghost function GoalOf(goals: map<nat, Goal>, candidate: nat): (g: Option<nat>)
    ensures g.Some? ==> g.value in goals && goals[g.value].candidate == candidate
    ensures g.None? ==> forall h :: h in goals ==> goals[h].candidate != candidate
  {
    if g :| g in goals && goals[g].candidate == candidate then Some(g) else None
  }

  /** `save_current`: refused once the candidate has a run or the goal is not active. */
  ghost function SaveGoal(w: World, candidate: nat, target: nat, title: string, filters: string): (World, bool) {
    var g := GoalOf(w.goals, candidate);
    if HasRun(w.runs, candidate) then (w, false)
    else if g.Some? && w.goals[g.value].status != GoalActive then (w, false)
    else if g.Some? then
      (w.(goals := w.goals[g.value := w.goals[g.value].(offerTarget := target, title := title, filters := filters)]), true)
    else
      (w.(db := w.db.(next := w.db.next + 1),
          goals := w.goals[w.db.next := Goal(candidate, target, title, filters, GoalActive)]), true)
  }

  // ----- starting a run -----------------------------------------------------

  ghost function RunOf(runs: map<nat, AgentRun>, candidate: nat, goal: nat): (r: Option<nat>)
    ensures r.Some? ==> r.value in runs && runs[r.value].candidate == candidate && runs[r.value].goal == goal
    ensures r.None? ==> forall s :: s in runs ==> runs[s].candidate != candidate || runs[s].goal != goal
  {
    if r :| r in runs && runs[r].candidate == candidate && runs[r].goal == goal then Some(r) else None
  }

  ghost function ProfileOf(profiles: map<nat, Profile>, r: nat): (p: Option<nat>)
    ensures p.Some? ==> p.value in profiles && profiles[p.value].resume == r
    ensures p.None? ==> forall q :: q in profiles ==> profiles[q].resume != r
  {
    if p :| p in profiles && profiles[p].resume == r then Some(p) else None
  }

  predicate CurrentResume(db: Db, candidate: nat) {
    candidate in db.current && db.current[candidate] in db.resumes
    && db.resumes[db.current[candidate]].candidate == candidate && !db.resumes[db.current[candidate]].deleted
  }

  predicate ReadyProfile(profiles: map<nat, Profile>, p: Option<nat>) {
    p.Some? && p.value in profiles && profiles[p.value].ready
  }

  /** `_has_prerequisites`. */
  ghost predicate Prerequisites(w: World, candidate: nat) {
    var g := GoalOf(w.goals, candidate);
    && g.Some? && w.goals[g.value].status == GoalActive
    && CurrentResume(w.db, candidate) && w.db.resumes[w.db.current[candidate]].status == ParseSucceeded
    && ReadyProfile(w.db.profiles, ProfileOf(w.db.profiles, w.db.current[candidate]))
    && EligibleIn(w.db, Active(w.db)) != {}
  }

  function AppsOf(apps: map<nat, App>, run: nat): set<nat> {
    set a | a in apps && apps[a].run == run
  }

  predicate Restartable(w: World, run: nat)
    requires run in w.runs
  {
    w.runs[run].status == RunFinished && w.runs[run].reason == Some(NoMatch)
    && CountApps(w, run, w.runs[run].candidate) == 0
  }

  /** `Rejected`: the insert hits uq_agent_run_candidate_goal and is rolled back. */
  datatype Started = Existing(run: nat) | Fresh(run: nat) | NotReady | Rejected

  /** The first transaction of `start`. */
  ghost function StartRun(w: World, candidate: nat): (World, Started) {
    var g := GoalOf(w.goals, candidate);
    var r := if g.Some? then RunOf(w.runs, candidate, g.value) else None;
    if r.Some? && !(Restartable(w, r.value) && Prerequisites(w, candidate)) then (w, Existing(r.value))
    else if !Prerequisites(w, candidate) then (w, NotReady)
    else if r.Some? then (w, Rejected)
    else
      var resume := w.db.current[candidate];
      var profile := ProfileOf(w.db.profiles, resume).value;
      (w.(db := w.db.(next := w.db.next + 1),
          runs := w.runs[w.db.next := AgentRun(candidate, g.value, resume, profile, w.db.now, RunRunning, None)]),
       Fresh(w.db.next))
  }

  // ----- the matching round -------------------------------------------------

  datatype Verdict = Filtered | Below | Suitable

  function StatusOf(verdict: Verdict): MatchStatus {
    match verdict case Filtered => FilteredOut case Below => NotMatched case Suitable => Matched
  }

  ghost function MatchOf(matches: map<nat, Match>, run: nat, job: nat): (m: Option<nat>)
    ensures m.Some? ==> m.value in matches && matches[m.value].run == run && matches[m.value].job == job
    ensures m.None? ==> forall n :: n in matches ==> matches[n].run != run || matches[n].job != job
  {
    if m :| m in matches && matches[m].run == run && matches[m].job == job then Some(m) else None
  }

  ghost function AppOf(apps: map<nat, App>, run: nat, job: nat): (a: Option<nat>)
    ensures a.Some? ==> a.value in apps && apps[a.value].run == run && apps[a.value].job == job
    ensures a.None? ==> forall b :: b in apps ==> apps[b].run != run || apps[b].job != job
  {
    if a :| a in apps && apps[a].run == run && apps[a].job == job then Some(a) else None
  }

  predicate HasConversation(conversations: map<nat, nat>, a: nat) {
    exists c :: c in conversations && conversations[c] == a
  }

  function EnsureConversation(w: World, a: nat): World {
    if HasConversation(w.conversations, a) then w
    else w.(db := w.db.(next := w.db.next + 1), conversations := w.conversations[w.db.next := a])
  }

  function SetMatch(w: World, m: nat, status: MatchStatus): World
    requires m in w.matches
  {
    w.(matches := w.matches[m := w.matches[m].(status := status)])
  }

  /** `ensure_application`. */
  ghost function EnsureApplication(w: World, m: nat): World
    requires m in w.matches
  {
    var row := w.matches[m];
    var existing := AppOf(w.apps, row.run, row.job);
    if existing.Some? then
      EnsureConversation(if row.status == Matched then SetMatch(w, m, ApplicationCreated) else w, existing.value)
    else
      var a := w.db.next;
      var w1 := w.(db := w.db.(next := a + 1),
                   apps := w.apps[a := App(row.run, m, row.candidate, row.job, Submitted)],
                   events := w.events + [Event(a, None, Submitted)]);
      EnsureConversation(SetMatch(w1, m, ApplicationCreated), a)
  }

  /** One turn of the loop of `execute`. */
  ghost function MatchJob(w: World, run: nat, candidate: nat, job: nat, verdict: Verdict): World {
    var existing := MatchOf(w.matches, run, job);
    if existing.Some? then
      if w.matches[existing.value].status == Matched then EnsureApplication(w, existing.value) else w
    else
      var m := w.db.next;
      var w1 := w.(db := w.db.(next := m + 1), matches := w.matches[m := Match(run, candidate, job, StatusOf(verdict))]);
      if verdict == Suitable then EnsureApplication(w1, m) else w1
  }

  function VerdictOn(verdicts: map<nat, Verdict>, job: nat): Verdict {
    if job in verdicts then verdicts[job] else Below
  }

  ghost function MatchAll(w: World, run: nat, candidate: nat, jobs: seq<nat>, verdicts: map<nat, Verdict>): World {
    if jobs == [] then w
    else
      var n := |jobs| - 1;
      MatchJob(MatchAll(w, run, candidate, jobs[..n], verdicts), run, candidate, jobs[n], VerdictOn(verdicts, jobs[n]))
  }

  /** `load_run_input` finds the run, its goal and its profile. */
  predicate Loadable(w: World, run: nat, candidate: nat) {
    && run in w.runs && w.runs[run].candidate == candidate
    && w.runs[run].goal in w.goals && w.goals[w.runs[run].goal].candidate == candidate
    && w.runs[run].profile in w.db.profiles && w.db.profiles[w.runs[run].profile].resume == w.runs[run].resume
  }

  function FinishRun(w: World, run: nat, reason: FinishReason): World
    requires run in w.runs
  {
    w.(runs := w.runs[run := w.runs[run].(status := RunFinished, reason := Some(reason))])
  }

  function CountApps(w: World, run: nat, candidate: nat): nat {
    |set a | a in w.apps && w.apps[a].run == run && w.apps[a].candidate == candidate|
  }

  /** `execute`. */
  ghost function Execute(w: World, run: nat, candidate: nat, verdicts: map<nat, Verdict>): World {
    if !Loadable(w, run, candidate) || w.runs[run].status != RunRunning then w
    else
      var w1 := MatchAll(w, run, candidate, JobInputs(w.db), verdicts);
      if CountApps(w1, run, candidate) == 0 && run in w1.runs && w1.runs[run].status == RunRunning
      then FinishRun(w1, run, NoMatch) else w1
  }

  // ----- application progress -----------------------------------------------

  function Stage(status: AppStatus): nat {
    match status
    case Submitted => 0
    case Screening => 1
    case WrittenTest => 2
    case Interview1 => 3
    case Interview2 => 4
    case Interview3 => 5
    case HrInterview => 6
    case Offer => 7
    case Terminated => 8
  }

  /** `_is_valid_transition`; `terminated` has no place in the stage order. */
  predicate ValidTransition(current: AppStatus, next: AppStatus) {
    if current == Offer || current == Terminated then false
    else next == Terminated || Stage(next) > Stage(current)
  }

  /** `created_at DESC, id DESC` over all runs, whoever's they are. */
  function RunRank(runs: map<nat, AgentRun>): map<nat, Rank> {
    map r | r in runs :: Rank(-runs[r].createdAt, -(r as int), 0)
  }

  function LatestRun(runs: map<nat, AgentRun>): Option<nat> {
    assert DistinctRanks(runs.Keys, RunRank(runs));
    Top(runs.Keys, RunRank(runs))
  }

  predicate Named(profile: Profile) {
    profile.facts.fullName.Some? && profile.facts.fullName.value != ""
  }

  /** The joins and filters shared by the HR list and `get_for_hr_update`. */
  predicate HrSees(w: World, a: nat, hr: nat) {
    && a in w.apps && w.apps[a].job in w.db.jobs && w.apps[a].run in w.runs
    && w.apps[a].job in w.db.snapshots
    && w.runs[w.apps[a].run].profile in w.db.profiles
    && VisibleJob(w.db, hr, w.apps[a].job)
    && w.apps[a].candidate == w.runs[w.apps[a].run].candidate
    && w.db.profiles[w.runs[w.apps[a].run].profile].resume == w.runs[w.apps[a].run].resume
    && LatestRun(w.runs) == Some(w.apps[a].run)
    && Named(w.db.profiles[w.runs[w.apps[a].run].profile])
  }

  predicate HrRecord(w: World, a: nat, hr: nat) {
    && HrSees(w, a, hr) && w.runs[w.apps[a].run].goal in w.goals
    && w.goals[w.runs[w.apps[a].run].goal].candidate == w.runs[w.apps[a].run].candidate
  }

  function Offers(apps: map<nat, App>, run: nat, candidate: nat): set<nat> {
    set a | a in apps && apps[a].run == run && apps[a].candidate == candidate && apps[a].status == Offer
  }

  datatype Updated = NotFound | Conflict | Unchanged | Changed

  function Moved(w: World, a: nat, status: AppStatus): World
    requires a in w.apps
  {
    w.(apps := w.apps[a := w.apps[a].(status := status)],
       events := w.events + [Event(a, Some(w.apps[a].status), status)])
  }

  /** `finish_for_offer_target` after the count of offers. */
  function SettleOffer(w: World, a: nat): World
    requires a in w.apps && w.apps[a].run in w.runs && w.runs[w.apps[a].run].goal in w.goals
  {
    var run := w.apps[a].run;
    var goal := w.runs[run].goal;
    if w.runs[run].status == RunRunning && |Offers(w.apps, run, w.apps[a].candidate)| >= w.goals[goal].offerTarget then
      FinishRun(w, run, OfferTargetReached).(goals := w.goals[goal := w.goals[goal].(status := GoalAchieved)])
    else w
  }

  /** `update_status`. */
  function UpdateStatus(w: World, a: nat, hr: nat, status: AppStatus): (World, Updated) {
    if !HrRecord(w, a, hr) then (w, NotFound)
    else if w.apps[a].status == status then (w, Unchanged)
    else if !ValidTransition(w.apps[a].status, status) then (w, Conflict)
    else
      var w1 := Moved(w, a, status);
      (if status == Offer then SettleOffer(w1, a) else w1, Changed)
  }

  // ----- the transition system ----------------------------------------------

  /** `_job_has_matching_reference`. */
  predicate Referenced(w: World, j: nat) {
    (exists m :: m in w.matches && w.matches[m].job == j) || (exists a :: a in w.apps && w.apps[a].job == j)
  }

  datatype WorldStep =
    | TaskStep(op: Op)
    | SaveGoalStep(candidate: nat, target: nat, title: string, filters: string)
    | StartStep(candidate: nat)
    | ExecuteStep(run: nat, candidate: nat, verdicts: map<nat, Verdict>)
    | UpdateStep(app: nat, hr: nat, status: AppStatus)

  /** The parsing transactions look at these tables through their guards only. */
  predicate Guarded(w: World, op: Op) {
    match op
    case RetryJobOp(_, j, _, matched) => matched == Referenced(w, j)
    case DeleteJobOp(_, j, matched) => matched == Referenced(w, j)
    case DeleteResumeOp(candidate, _, started) => started == HasRun(w.runs, candidate)
    case _ => true
  }

  ghost predicate Permitted(w: World, step: WorldStep) {
    match step
    case TaskStep(op) => Tasks.Enabled(w.db, op) && Guarded(w, op)
    case SaveGoalStep(_, target, title, _) => 1 <= target <= 10 && title != ""
    case _ => true
  }

  ghost function Perform(w: World, step: WorldStep): World {
    match step
    case TaskStep(op) => w.(db := Tasks.Apply(w.db, op))
    case SaveGoalStep(candidate, target, title, filters) => SaveGoal(w, candidate, target, title, filters).0
    case StartStep(candidate) => StartRun(w, candidate).0
    case ExecuteStep(run, candidate, verdicts) => Execute(w, run, candidate, verdicts)
    case UpdateStep(a, hr, status) => UpdateStatus(w, a, hr, status).0
  }

  function Later(w: World, now: int): World {
    w.(db := w.db.(now := now))
  }

  ghost predicate Transition(w: World, step: WorldStep, w': World) {
    Permitted(w, step) && w'.db.now > w.db.now && w' == Later(Perform(w, step), w'.db.now)
  }

  const Nothing := World(Empty, map[], map[], map[], map[], map[], [])

  ghost predicate Trace(ws: seq<World>, steps: seq<WorldStep>) {
    && |ws| == |steps| + 1
    && ws[0] == Nothing
    && forall i :: 0 <= i < |steps| ==> Transition(ws[i], steps[i], ws[i + 1])
  }
}
