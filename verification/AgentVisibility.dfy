/** The HR list and the status update look at the latest run of all candidates only.
    What that means for every older run. */
module AgentVisibility {
  import opened Common
  import opened Tasks
  import TaskInvariant
  import opened Readiness
  import opened AgentFlow
  import opened AgentInvariant
  import opened AgentFacts
  import opened AgentTheorems

  // ----- the order of runs --------------------------------------------------

  /** `s` is listed before `r`: created later, or at the same time under a greater id. */
  predicate Newer(runs: map<nat, AgentRun>, s: nat, r: nat) {
    r in runs && s in runs && Before(RunRank(runs)[s], RunRank(runs)[r])
  }

  lemma NewerHides(runs: map<nat, AgentRun>, s: nat, r: nat)
    requires Newer(runs, s, r)
    ensures LatestRun(runs) != Some(r)
  {}

  lemma NewerStays(runs: map<nat, AgentRun>, runs': map<nat, AgentRun>, s: nat, r: nat)
    requires Newer(runs, s, r) && RunsKept(runs, runs')
    ensures Newer(runs', s, r)
  {}

  /** No HR sees an application of the run, and every update of one is "not found". */
  ghost predicate Invisible(w: World, r: nat) {
    && LatestRun(w.runs) != Some(r)
    && forall a, hr :: a in w.apps && w.apps[a].run == r ==> !HrSees(w, a, hr) && Unreachable(w, a, hr)
  }

  ghost predicate Unreachable(w: World, a: nat, hr: nat) {
    forall status :: UpdateStatus(w, a, hr, status) == (w, NotFound)
  }

  lemma HiddenIsInvisible(w: World, r: nat)
    requires LatestRun(w.runs) != Some(r)
    ensures Invisible(w, r)
  {
    hide LatestRun, Named;
    forall a, hr | a in w.apps && w.apps[a].run == r ensures !HrSees(w, a, hr) && Unreachable(w, a, hr) {
      assert !HrRecord(w, a, hr);
    }
  }

  /** From the moment a newer run exists, whoever's it is, the applications of a run are
      invisible to every HR and beyond every status update, for ever. */
  lemma OlderRunsAreInvisible(ws: seq<World>, steps: seq<WorldStep>, i: nat, j: nat, r: nat, s: nat)
    requires Trace(ws, steps) && i <= j < |ws| && Newer(ws[i].runs, s, r)
    ensures Invisible(ws[j], r)
  {
    TraceExtends(ws, steps, i, j);
    NewerStays(ws[i].runs, ws[j].runs, s, r);
    NewerHides(ws[j].runs, s, r);
    HiddenIsInvisible(ws[j], r);
  }

  // ----- a new run is the newest --------------------------------------------

  ghost predicate Dated(w: World) {
    forall r :: r in w.runs ==> w.runs[r].createdAt <= w.db.now && r < w.db.next
  }

  /** Runs come from `start` only, dated by its transaction. */
  lemma OnlyStartAddsRuns(w: World, step: WorldStep)
    requires WInv(w)
    ensures var w' := Perform(w, step);
      forall r :: r in w'.runs && r !in w.runs ==>
        step.StartStep? && r == w.db.next && w'.runs[r].createdAt == w.db.now && w'.db.next == w.db.next + 1
  {
    hide WInv, Execute, SaveGoal, Tasks.Apply, LatestRun, Prerequisites, Restartable;
    match step {
      case TaskStep(op) =>
      case SaveGoalStep(candidate, target, title, filters) => SavingKeepsRuns(w, candidate, target, title, filters);
      case StartStep(candidate) =>
      case ExecuteStep(run, candidate, verdicts) => ExecuteAddsNoRun(w, run, candidate, verdicts);
      case UpdateStep(a, hr, status) =>
    }
  }

  lemma ExecuteAddsNoRun(w: World, run: nat, candidate: nat, verdicts: map<nat, Verdict>)
    requires WInv(w)
    ensures Execute(w, run, candidate, verdicts).runs.Keys == w.runs.Keys
  {
    hide WInv, JobInputs, MatchAll, CountApps;
    if Loadable(w, run, candidate) && w.runs[run].status == RunRunning {
      RoundKeepsRuns(w, run, candidate, verdicts);
    }
  }

  lemma StepKeepsDated(w: World, step: WorldStep, w': World)
    requires WInv(w) && Dated(w) && Transition(w, step, w')
    ensures Dated(w')
  {
    OnlyStartAddsRuns(w, step);
    StepExtends(w, step, w');
    hide WInv, Perform, Permitted;
  }

  lemma Moves(ws: seq<World>, steps: seq<WorldStep>, i: nat)
    requires Trace(ws, steps) && i + 1 < |ws|
    ensures i < |steps| && Transition(ws[i], steps[i], ws[i + 1])
  {
    hide Transition;
  }

  lemma DatedFirst(ws: seq<World>, steps: seq<WorldStep>)
    requires Trace(ws, steps)
    ensures ws != [] && Dated(ws[0])
  {
    hide Transition;
  }

  lemma {:induction false} TraceDated(ws: seq<World>, steps: seq<WorldStep>, n: nat)
    requires Trace(ws, steps) && n < |ws|
    ensures Dated(ws[n])
  {
    hide Trace, WInv, Transition, Dated;
    if n == 0 {
      DatedFirst(ws, steps);
    } else {
      TraceDated(ws, steps, n - 1);
      TraceKeeps(ws, steps, n - 1);
      Moves(ws, steps, n - 1);
      StepKeepsDated(ws[n - 1], steps[n - 1], ws[n]);
    }
  }

  lemma FreshIsNewest(w: World, candidate: nat, r: nat)
    requires Dated(w) && r in w.runs && StartRun(w, candidate).1.Fresh?
    ensures Newer(StartRun(w, candidate).0.runs, w.db.next, r)
  {
    hide Prerequisites, Restartable;
  }

  /** A run just started hides the runs of all candidates at once and for ever. */
  lemma StartHidesEveryRun(ws: seq<World>, steps: seq<WorldStep>, n: nat, j: nat, candidate: nat, r: nat)
    requires Trace(ws, steps) && n < |steps| && n < j < |ws| && steps[n] == StartStep(candidate)
    requires StartRun(ws[n], candidate).1.Fresh? && r in ws[n].runs
    ensures Invisible(ws[j], r)
  {
    TraceDated(ws, steps, n);
    FreshIsNewest(ws[n], candidate, r);
    Moves(ws, steps, n);
    assert ws[n + 1].runs == StartRun(ws[n], candidate).0.runs;
    hide Invisible, Transition, StartRun, Trace, Newer;
    OlderRunsAreInvisible(ws, steps, n + 1, j, r, ws[n].db.next);
  }

  // ----- what freezes with it -----------------------------------------------

  ghost predicate AppsSame(apps: map<nat, App>, apps': map<nat, App>) {
    forall a :: a in apps ==> a in apps' && apps'[a] == apps[a]
  }

  lemma MatchJobKeepsApps(w: World, run: nat, candidate: nat, job: nat, verdict: Verdict)
    requires WInv(w)
    ensures AppsSame(w.apps, MatchJob(w, run, candidate, job, verdict).apps)
  {
    hide WInv, MatchJob, Ids, Matches, MatchJobs, Apps, Talks, Log, Outcomes, Goals, RunGoals, GoalsReached, RunsBacked,
      MatchOf, TaskInvariant.Inv;
    Tables(w);
    FreeId(w);
    FreeIds(w);
    MatchJobShape(w, run, candidate, job, verdict);
  }

  lemma {:induction false} MatchAllKeepsApps(w: World, run: nat, candidate: nat, jobs: seq<nat>, verdicts: map<nat, Verdict>)
    requires WInv(w) && forall j :: j in jobs ==> Matchable(w, run, candidate, j)
    ensures AppsSame(w.apps, MatchAll(w, run, candidate, jobs, verdicts).apps)
  {
    hide WInv, MatchJob, Matchable;
    if jobs != [] {
      var n := |jobs| - 1;
      MatchAllKeeps(w, run, candidate, jobs[..n], verdicts);
      MatchAllKeepsApps(w, run, candidate, jobs[..n], verdicts);
      MatchJobKeepsApps(MatchAll(w, run, candidate, jobs[..n], verdicts), run, candidate, jobs[n], VerdictOn(verdicts, jobs[n]));
    }
  }

  lemma ExecuteKeepsApps(w: World, run: nat, candidate: nat, verdicts: map<nat, Verdict>)
    requires WInv(w)
    ensures AppsSame(w.apps, Execute(w, run, candidate, verdicts).apps)
  {
    InputsAreMatchable(w.db);
    hide WInv, JobInputs, MatchAll, CountApps;
    if Loadable(w, run, candidate) && w.runs[run].status == RunRunning {
      MatchAllKeepsApps(w, run, candidate, JobInputs(w.db), verdicts);
    }
  }

  /** Only a status update that is not "not found" changes an application. */
  lemma StepKeepsApps(w: World, step: WorldStep, w': World, r: nat)
    requires WInv(w) && Invisible(w, r) && Transition(w, step, w')
    ensures forall a :: a in w.apps && w.apps[a].run == r ==> a in w'.apps && w'.apps[a] == w.apps[a]
  {
    hide WInv, Execute, SaveGoal, StartRun, Tasks.Apply, Permitted, LatestRun, HrSees;
    match step {
      case TaskStep(op) =>
      case SaveGoalStep(candidate, target, title, filters) => SavingKeepsApps(w, candidate, target, title, filters);
      case StartStep(candidate) => StartingKeepsApps(w, candidate);
      case ExecuteStep(run, candidate, verdicts) => ExecuteKeepsApps(w, run, candidate, verdicts);
      case UpdateStep(b, hr, status) =>
        UpdateKeepsOthers(w, b, hr, status);
    }
  }

  lemma SavingKeepsApps(w: World, candidate: nat, target: nat, title: string, filters: string)
    ensures SaveGoal(w, candidate, target, title, filters).0.apps == w.apps
  {}

  lemma StartingKeepsApps(w: World, candidate: nat)
    ensures StartRun(w, candidate).0.apps == w.apps
  {
    hide Prerequisites, Restartable;
  }

  lemma UpdateKeepsOthers(w: World, b: nat, hr: nat, status: AppStatus)
    ensures var w' := UpdateStatus(w, b, hr, status).0;
      && (forall a :: a in w.apps && a != b ==> a in w'.apps && w'.apps[a] == w.apps[a])
      && (b !in w.apps ==> w' == w)
  {
    hide LatestRun, Named, Offers, ValidTransition;
  }

  /** The applications of a hidden run keep their status for ever. */
  lemma {:induction false} HiddenAppsAreFrozen(ws: seq<World>, steps: seq<WorldStep>, i: nat, j: nat, r: nat, s: nat, a: nat)
    requires Trace(ws, steps) && i <= j < |ws| && Newer(ws[i].runs, s, r)
    requires a in ws[i].apps && ws[i].apps[a].run == r
    ensures a in ws[j].apps && ws[j].apps[a] == ws[i].apps[a]
  {
    hide Trace, WInv, Invisible, Newer, Transition;
    if i < j {
      HiddenAppsAreFrozen(ws, steps, i, j - 1, r, s, a);
      OlderRunsAreInvisible(ws, steps, i, j - 1, r, s);
      TraceKeeps(ws, steps, j - 1);
      Moves(ws, steps, j - 1);
      StepKeepsApps(ws[j - 1], steps[j - 1], ws[j], r);
    }
  }

  predicate Short(w: World, r: nat) {
    r in w.runs && w.runs[r].reason != Some(OfferTargetReached)
  }

  /** A run still short of its target when a newer run appears never reaches it. */
  lemma {:induction false} HiddenRunNeverReaches(ws: seq<World>, steps: seq<WorldStep>, i: nat, j: nat, r: nat, s: nat)
    requires Trace(ws, steps) && i <= j < |ws| && Newer(ws[i].runs, s, r) && Short(ws[i], r)
    ensures Short(ws[j], r)
  {
    hide Trace, WInv, Invisible, Newer, Transition, Short;
    if i < j {
      HiddenRunNeverReaches(ws, steps, i, j - 1, r, s);
      OlderRunsAreInvisible(ws, steps, i, j - 1, r, s);
      TraceKeeps(ws, steps, j - 1);
      Moves(ws, steps, j - 1);
      HiddenStep(ws[j - 1], steps[j - 1], ws[j], r);
    }
  }

  lemma HiddenStep(w: World, step: WorldStep, w': World, r: nat)
    requires WInv(w) && Transition(w, step, w') && Short(w, r) && Invisible(w, r)
    ensures Short(w', r)
  {
    StepExtends(w, step, w');
    hide WInv, LatestRun, HrSees, Permitted;
    if w.runs[r].status == RunRunning && w'.runs[r].reason == Some(OfferTargetReached) {
      OnlyOffersReach(w, step, w', r);
      NotFoundChangesNothing(w, step, r);
      assert false;
    }
  }

  lemma NotFoundChangesNothing(w: World, step: WorldStep, r: nat)
    requires Invisible(w, r) && step.UpdateStep? && step.app in w.apps && w.apps[step.app].run == r
    ensures Perform(w, step) == w
  {
    hide LatestRun, HrSees;
  }
}
