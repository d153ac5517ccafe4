/** The main results about runs, matching, applications and offers. */
module AgentTheorems {
  import opened Common
  import opened Tasks
  import TaskInvariant
  import opened Readiness
  import opened AgentFlow
  import opened AgentInvariant
  import opened AgentFacts

  // ----- the basis of a run is frozen ---------------------------------------

  /** A job with a match stays undeleted with an unchanged snapshot for ever. */
  lemma MatchedJobIsFrozen(ws: seq<World>, steps: seq<WorldStep>, i: nat, j: nat, m: nat)
    requires Trace(ws, steps) && i <= j < |ws| && m in ws[i].matches
    ensures m in ws[j].matches && SameMatch(ws[i].matches[m], ws[j].matches[m])
    ensures var job := ws[i].matches[m].job;
      && job in ws[i].db.snapshots && job in ws[j].db.snapshots && ws[j].db.snapshots[job] == ws[i].db.snapshots[job]
      && job in ws[j].db.jobs && !ws[j].db.jobs[job].deleted
  {
    TraceKeeps(ws, steps, i);
    TraceKeeps(ws, steps, j);
    TraceExtends(ws, steps, i, j);
    Tables(ws[i]);
    Tables(ws[j]);
    hide WInv, Trace, Transition;
  }

  /** A run keeps its candidate, goal, resume and profile; the resume is never deleted,
      the profile never removed, and the terms of the goal never change. */
  lemma RunBasisIsFrozen(ws: seq<World>, steps: seq<WorldStep>, i: nat, j: nat, r: nat)
    requires Trace(ws, steps) && i <= j < |ws| && r in ws[i].runs
    ensures r in ws[j].runs && SameBasis(ws[i].runs[r], ws[j].runs[r])
    ensures Backed(ws[j].runs[r], ws[j].db.resumes, ws[j].db.profiles)
    ensures ws[i].runs[r].goal in ws[i].goals && ws[i].runs[r].goal in ws[j].goals
    ensures SameTerms(ws[i].goals[ws[i].runs[r].goal], ws[j].goals[ws[i].runs[r].goal])
    ensures ws[i].runs[r].status == RunFinished ==> ws[j].runs[r] == ws[i].runs[r]
  {
    TraceKeeps(ws, steps, i);
    TraceKeeps(ws, steps, j);
    TraceExtends(ws, steps, i, j);
    Tables(ws[i]);
    Tables(ws[j]);
    hide WInv, Trace, Transition;
  }

  // ----- the lists drop nothing ---------------------------------------------

  /** The rows of `list_current_applications`, with its three inner joins. */
  function CandidateRows(w: World, candidate: nat, run: nat): set<nat> {
    set a | a in w.apps && w.apps[a].candidate == candidate && w.apps[a].run == run
            && w.apps[a].job in w.db.jobs && w.apps[a].job in w.db.snapshots && w.apps[a].match_ in w.matches
  }

  function HrRows(w: World, hr: nat): set<nat> {
    set a | a in w.apps && HrSees(w, a, hr)
  }

  /** Everything an application joins with is there. */
  lemma AppJoins(w: World, a: nat)
    requires WInv(w) && a in w.apps
    ensures w.apps[a].match_ in w.matches && w.apps[a].run in w.runs
    ensures w.apps[a].candidate == w.runs[w.apps[a].run].candidate
    ensures w.apps[a].job in w.db.jobs && !w.db.jobs[w.apps[a].job].deleted && w.apps[a].job in w.db.snapshots
    ensures var run := w.runs[w.apps[a].run];
      run.profile in w.db.profiles && w.db.profiles[run.profile].resume == run.resume && Named(w.db.profiles[run.profile])
  {
    AppRun(w, a);
    Tables(w);
    ProfileIsNamed(w, w.apps[a].run);
    hide WInv, Goals, RunGoals, GoalsReached, Matches, Apps, Talks, Log, Outcomes, TaskInvariant.Inv;
  }

  lemma ProfileIsNamed(w: World, r: nat)
    requires WInv(w) && r in w.runs
    ensures w.runs[r].profile in w.db.profiles && Named(w.db.profiles[w.runs[r].profile])
  {
    Tables(w);
    ReadyIsNamed(w.db, w.runs[r].profile);
    hide WInv, Goals, RunGoals, GoalsReached, Matches, MatchJobs, Apps, Talks, Log, Outcomes, TaskInvariant.Inv;
  }

  lemma ReadyIsNamed(db: Db, p: nat)
    requires TaskInvariant.Inv(db)
    ensures p in db.profiles && db.profiles[p].ready ==> Named(db.profiles[p])
  {
    hide HasProfile;
  }

  lemma ListedIff(w: World, a: nat, r: nat)
    requires WInv(w) && a in w.apps && r in w.runs
    ensures a in CandidateRows(w, w.runs[r].candidate, r) <==> w.apps[a].run == r
  {
    hide WInv, LatestRun, Named;
    AppJoins(w, a);
  }

  lemma SeenIff(w: World, a: nat, r: nat, hr: nat)
    requires WInv(w) && a in w.apps && r in w.runs && LatestRun(w.runs) == Some(r)
    ensures HrSees(w, a, hr) <==> w.apps[a].run == r && w.apps[a].job in w.db.jobs && w.db.jobs[w.apps[a].job].hr == hr
  {
    hide WInv, LatestRun, Named;
    AppJoins(w, a);
  }

  /** The applications of the latest run that are for one HR's jobs. */
  function JobsOf(w: World, r: nat, hr: nat): set<nat> {
    set a | a in w.apps && w.apps[a].run == r && w.apps[a].job in w.db.jobs && w.db.jobs[w.apps[a].job].hr == hr
  }

  lemma CandidateListComplete(w: World, r: nat)
    requires WInv(w) && r in w.runs
    ensures CandidateRows(w, w.runs[r].candidate, r) == AppsOf(w.apps, r)
  {
    hide WInv;
    forall a | a in w.apps ensures a in CandidateRows(w, w.runs[r].candidate, r) <==> w.apps[a].run == r {
      ListedIff(w, a, r);
    }
  }

  lemma HrListComplete(w: World, r: nat, hr: nat)
    requires WInv(w) && r in w.runs && LatestRun(w.runs) == Some(r)
    ensures HrRows(w, hr) == JobsOf(w, r, hr)
  {
    hide WInv, LatestRun, HrSees;
    forall a | a in w.apps
      ensures HrSees(w, a, hr) <==> w.apps[a].run == r && w.apps[a].job in w.db.jobs && w.db.jobs[w.apps[a].job].hr == hr
    {
      SeenIff(w, a, r, hr);
    }
  }

  /** The inner joins of the candidate's list and of the HR list drop no application
      of the run, and of the latest run with that HR's jobs. */
  lemma ListsAreComplete(ws: seq<World>, steps: seq<WorldStep>, n: nat, r: nat, hr: nat)
    requires Trace(ws, steps) && n < |ws| && r in ws[n].runs
    ensures CandidateRows(ws[n], ws[n].runs[r].candidate, r) == AppsOf(ws[n].apps, r)
    ensures LatestRun(ws[n].runs) == Some(r) ==> HrRows(ws[n], hr) == JobsOf(ws[n], r, hr)
  {
    hide WInv, LatestRun, HrRows, JobsOf, CandidateRows, AppsOf;
    TraceKeeps(ws, steps, n);
    CandidateListComplete(ws[n], r);
    if LatestRun(ws[n].runs) == Some(r) { HrListComplete(ws[n], r, hr); }
  }

  // ----- one run per candidate ----------------------------------------------

  lemma OneRun(w: World, r: nat, s: nat)
    requires WInv(w) && r in w.runs && s in w.runs && w.runs[r].candidate == w.runs[s].candidate
    ensures r == s
  {
    Tables(w);
    hide WInv, GoalsReached, RunsBacked, Matches, MatchJobs, Apps, Talks, Log, Outcomes;
  }

  /** A candidate never gets a second run: `start` hands back the existing one, and
      the restart after a round without matches, which the code goes on to try, is
      rejected by the unique constraint whenever its own guard lets it through. */
  lemma NeverRestarted(ws: seq<World>, steps: seq<WorldStep>, n: nat, r: nat)
    requires Trace(ws, steps) && n < |ws| && r in ws[n].runs
    ensures var candidate := ws[n].runs[r].candidate; var (w', outcome) := StartRun(ws[n], candidate);
      && w' == ws[n]
      && outcome == (if Restartable(ws[n], r) && Prerequisites(ws[n], candidate) then Rejected else Existing(r))
  {
    TraceKeeps(ws, steps, n);
    var w := ws[n];
    hide Trace, Prerequisites, Restartable;
    Tables(w);
    hide WInv, GoalsReached, RunsBacked, Matches, MatchJobs, Apps, Talks, Log, Outcomes;
    var candidate := w.runs[r].candidate;
    var g := GoalOf(w.goals, candidate).value;
    assert g == w.runs[r].goal;
    OneRun(w, r, RunOf(w.runs, candidate, g).value);
  }

  // ----- offers -------------------------------------------------------------

  /** A running run has fewer offers than its target; a goal is achieved exactly when
      its run finished by reaching the target; a run without match has no application. */
  lemma OffersAddUp(ws: seq<World>, steps: seq<WorldStep>, n: nat, r: nat)
    requires Trace(ws, steps) && n < |ws| && r in ws[n].runs
    ensures ws[n].runs[r].goal in ws[n].goals
    ensures var run := ws[n].runs[r]; var goal := ws[n].goals[run.goal]; var offers := |Offers(ws[n].apps, r, run.candidate)|;
      && (run.status == RunRunning ==> offers < goal.offerTarget)
      && (run.reason == Some(OfferTargetReached) ==> offers >= goal.offerTarget)
      && (goal.status == GoalAchieved <==> run.reason == Some(OfferTargetReached))
      && (run.reason == Some(NoMatch) ==> AppsOf(ws[n].apps, r) == {})
      && (run.status == RunFinished <==> run.reason.Some?)
  {
    TraceKeeps(ws, steps, n);
    var w := ws[n];
    hide Trace;
    Tables(w);
    hide WInv, RunsBacked, Matches, MatchJobs, Apps, Talks, Log, Goals;
    assert OutcomeOk(r, w.runs[r], w.goals, w.apps);
    ReachedByItsRun(w.runs, w.goals, r);
  }

  lemma ReachedByItsRun(runs: map<nat, AgentRun>, goals: map<nat, Goal>, r: nat)
    requires RunGoals(runs, goals) && r in runs
    ensures ReachedBy(runs, runs[r].goal) <==> runs[r].reason == Some(OfferTargetReached)
  {}

  /** The update that finishes a run is an offer, and it is the one that makes the
      count of offers equal to the target. */
  lemma FinishesAtTheTarget(ws: seq<World>, steps: seq<WorldStep>, n: nat, r: nat)
    requires Trace(ws, steps) && n < |steps| && n + 1 < |ws| && r in ws[n].runs
    requires ws[n].runs[r].status == RunRunning
    ensures r in ws[n + 1].runs && ws[n].runs[r].goal in ws[n].goals
    ensures var target := ws[n].goals[ws[n].runs[r].goal].offerTarget; var candidate := ws[n].runs[r].candidate;
      ws[n + 1].runs[r].reason == Some(OfferTargetReached) ==>
        && steps[n].UpdateStep? && steps[n].status == Offer
        && |Offers(ws[n].apps, r, candidate)| == target - 1 && |Offers(ws[n + 1].apps, r, candidate)| == target
  {
    TraceKeeps(ws, steps, n);
    TraceExtends(ws, steps, n, n + 1);
    OffersAddUp(ws, steps, n, r);
    var w, w' := ws[n], ws[n + 1];
    Tables(w);
    assert Transition(w, steps[n], w');
    hide WInv, Trace, Offers, Goals, RunsBacked, Matches, MatchJobs, Apps, Talks, Log, GoalsReached;
    if w'.runs[r].reason == Some(OfferTargetReached) {
      OnlyOffersReach(w, steps[n], w', r);
      var a := steps[n].app;
      OfferArrives(w, a);
    }
  }

  lemma OnlyOffersReach(w: World, step: WorldStep, w': World, r: nat)
    requires WInv(w) && Transition(w, step, w') && r in w.runs && r in w'.runs && w.runs[r].status == RunRunning
    requires w'.runs[r].reason == Some(OfferTargetReached)
    ensures step.UpdateStep? && step.status == Offer
    ensures step.app in w.apps && ValidTransition(w.apps[step.app].status, Offer) && w.apps[step.app].run == r
    ensures w'.apps == Moved(w, step.app, Offer).apps
    ensures w.runs[r].goal in w.goals
    ensures |Offers(w'.apps, r, w.apps[step.app].candidate)| >= w.goals[w.runs[r].goal].offerTarget
  {
    hide WInv, UpdateStatus, Execute, SaveGoal, StartRun, Tasks.Apply, Permitted, Offers, ValidTransition, Moved;
    NotReached(w, r);
    if step.UpdateStep? {
      ReachedByUpdate(w, step.app, step.hr, step.status, r);
    } else {
      OthersDoNotReach(w, step, r);
    }
  }

  lemma NotReached(w: World, r: nat)
    requires WInv(w) && r in w.runs && w.runs[r].status == RunRunning
    ensures w.runs[r].reason.None?
  {
    Tables(w);
    hide WInv;
  }

  lemma ReachedByUpdate(w: World, a: nat, hr: nat, status: AppStatus, r: nat)
    requires r in w.runs && w.runs[r].reason.None?
    ensures var w' := UpdateStatus(w, a, hr, status).0;
      r in w'.runs && w'.runs[r].reason == Some(OfferTargetReached) ==>
        && status == Offer && a in w.apps && ValidTransition(w.apps[a].status, Offer) && w.apps[a].run == r
        && w'.apps == Moved(w, a, Offer).apps
        && w.runs[r].goal in w.goals && |Offers(w'.apps, r, w.apps[a].candidate)| >= w.goals[w.runs[r].goal].offerTarget
  {
    hide Offers, ValidTransition, LatestRun;
  }

  lemma SavingKeepsRuns(w: World, candidate: nat, target: nat, title: string, filters: string)
    ensures SaveGoal(w, candidate, target, title, filters).0.runs == w.runs
  {}

  lemma StartingKeepsOthers(w: World, candidate: nat, r: nat)
    requires r in w.runs && r != w.db.next
    ensures var runs := StartRun(w, candidate).0.runs; r in runs && runs[r] == w.runs[r]
  {
    hide Prerequisites, Restartable;
  }

  lemma OthersDoNotReach(w: World, step: WorldStep, r: nat)
    requires WInv(w) && r in w.runs && w.runs[r].reason.None? && !step.UpdateStep?
    ensures var w' := Perform(w, step); r in w'.runs && w'.runs[r].reason != Some(OfferTargetReached)
  {
    hide WInv, Execute, SaveGoal, StartRun, Tasks.Apply;
    Tables(w);
    FreeId(w);
    match step {
      case TaskStep(op) =>
      case SaveGoalStep(candidate, target, title, filters) => SavingKeepsRuns(w, candidate, target, title, filters);
      case StartStep(candidate) => StartingKeepsOthers(w, candidate, r);
      case ExecuteStep(run, candidate, verdicts) => ExecuteKeepsOthers(w, run, candidate, verdicts, r);
    }
  }

  lemma ExecuteKeepsOthers(w: World, run: nat, candidate: nat, verdicts: map<nat, Verdict>, r: nat)
    requires WInv(w) && r in w.runs
    ensures var w' := Execute(w, run, candidate, verdicts); r in w'.runs && (w'.runs[r] == w.runs[r] || w'.runs[r].reason == Some(NoMatch))
  {
    hide WInv, JobInputs, MatchAll, CountApps, EligibleIn;
    if Loadable(w, run, candidate) && w.runs[run].status == RunRunning {
      RoundKeepsRuns(w, run, candidate, verdicts);
    }
  }

  lemma RoundKeepsRuns(w: World, run: nat, candidate: nat, verdicts: map<nat, Verdict>)
    requires WInv(w) && Loadable(w, run, candidate) && w.runs[run].status == RunRunning
    ensures var w1 := MatchAll(w, run, candidate, JobInputs(w.db), verdicts); WInv(w1) && w1.runs == w.runs
  {
    InputsAreMatchable(w.db);
    hide WInv, JobInputs, MatchAll;
    MatchAllKeeps(w, run, candidate, JobInputs(w.db), verdicts);
  }
}
