/** What follows for the agent flow in every reachable state and over every run. */
module AgentFacts {
  import opened Common
  import opened Tasks
  import TaskInvariant
  import TaskFrame
  import opened Readiness
  import opened AgentFlow
  import opened AgentInvariant

  // ----- what stays once it is there ----------------------------------------

  predicate SameBasis(r: AgentRun, s: AgentRun) {
    && r.candidate == s.candidate && r.goal == s.goal && r.resume == s.resume && r.profile == s.profile
    && r.createdAt == s.createdAt
  }

  predicate SameMatch(m: Match, n: Match) {
    m.run == n.run && m.candidate == n.candidate && m.job == n.job
  }

  ghost predicate RunsKept(runs: map<nat, AgentRun>, runs': map<nat, AgentRun>) {
    forall r :: r in runs ==>
      r in runs' && SameBasis(runs[r], runs'[r]) && (runs[r].status == RunFinished ==> runs'[r] == runs[r])
  }

  predicate SameTerms(g: Goal, h: Goal) {
    g.candidate == h.candidate && g.offerTarget == h.offerTarget && g.title == h.title && g.filters == h.filters
  }

  /** A goal is locked once a run refers to it. */
  ghost predicate TermsKept(runs: map<nat, AgentRun>, goals: map<nat, Goal>, goals': map<nat, Goal>) {
    forall r :: r in runs && runs[r].goal in goals ==>
      runs[r].goal in goals' && SameTerms(goals[runs[r].goal], goals'[runs[r].goal])
  }

  ghost predicate MatchesKept(matches: map<nat, Match>, matches': map<nat, Match>) {
    forall m :: m in matches ==> m in matches' && SameMatch(matches[m], matches'[m])
  }

  ghost predicate SnapshotsKept(matches: map<nat, Match>, snapshots: map<nat, Snapshot>, snapshots': map<nat, Snapshot>) {
    forall m :: m in matches && matches[m].job in snapshots ==>
      matches[m].job in snapshots' && snapshots'[matches[m].job] == snapshots[matches[m].job]
  }

  predicate SameApp(a: App, b: App) {
    a.run == b.run && a.match_ == b.match_ && a.candidate == b.candidate && a.job == b.job
  }

  ghost predicate AppsKept(apps: map<nat, App>, apps': map<nat, App>) {
    forall a :: a in apps ==> a in apps' && SameApp(apps[a], apps'[a])
  }

  ghost predicate TalksKept(conversations: map<nat, nat>, conversations': map<nat, nat>) {
    forall c :: c in conversations ==> c in conversations' && conversations'[c] == conversations[c]
  }

  /** Runs keep their basis and goal, matches their job, matched jobs their snapshot,
      applications their run and job, conversations their application, and the
      progress log only grows. */
  ghost predicate Extends(w: World, w': World) {
    && RunsKept(w.runs, w'.runs) && TermsKept(w.runs, w.goals, w'.goals)
    && MatchesKept(w.matches, w'.matches) && SnapshotsKept(w.matches, w.db.snapshots, w'.db.snapshots)
    && AppsKept(w.apps, w'.apps) && TalksKept(w.conversations, w'.conversations)
    && w.events <= w'.events && w.db.next <= w'.db.next
  }

  lemma ExtendsItself(w: World, now: int)
    ensures Extends(w, Later(w, now))
  {}

  lemma RunsOn(u: World, v: World, w: World)
    requires RunsKept(u.runs, v.runs) && RunsKept(v.runs, w.runs)
    requires TermsKept(u.runs, u.goals, v.goals) && TermsKept(v.runs, v.goals, w.goals)
    ensures RunsKept(u.runs, w.runs) && TermsKept(u.runs, u.goals, w.goals)
  {
    forall r | r in u.runs && u.runs[r].goal in u.goals
      ensures u.runs[r].goal in w.goals && SameTerms(u.goals[u.runs[r].goal], w.goals[u.runs[r].goal])
    {
      assert SameBasis(u.runs[r], v.runs[r]);
    }
  }

  lemma MatchesOn(u: World, v: World, w: World)
    requires MatchesKept(u.matches, v.matches) && MatchesKept(v.matches, w.matches)
    requires SnapshotsKept(u.matches, u.db.snapshots, v.db.snapshots)
    requires SnapshotsKept(v.matches, v.db.snapshots, w.db.snapshots)
    ensures MatchesKept(u.matches, w.matches) && SnapshotsKept(u.matches, u.db.snapshots, w.db.snapshots)
  {
    forall m | m in u.matches && u.matches[m].job in u.db.snapshots
      ensures u.matches[m].job in w.db.snapshots && w.db.snapshots[u.matches[m].job] == u.db.snapshots[u.matches[m].job]
    {
      assert SameMatch(u.matches[m], v.matches[m]);
    }
  }

  lemma AppsOn(u: World, v: World, w: World)
    requires AppsKept(u.apps, v.apps) && AppsKept(v.apps, w.apps)
    requires TalksKept(u.conversations, v.conversations) && TalksKept(v.conversations, w.conversations)
    ensures AppsKept(u.apps, w.apps) && TalksKept(u.conversations, w.conversations)
  {
    forall a | a in u.apps ensures a in w.apps && SameApp(u.apps[a], w.apps[a]) {
      assert SameApp(u.apps[a], v.apps[a]) && SameApp(v.apps[a], w.apps[a]);
    }
  }

  lemma ExtendsOn(u: World, v: World, w: World)
    requires Extends(u, v) && Extends(v, w)
    ensures Extends(u, w)
  {
    hide RunsKept, TermsKept, MatchesKept, SnapshotsKept, AppsKept, TalksKept;
    RunsOn(u, v, w);
    MatchesOn(u, v, w);
    AppsOn(u, v, w);
  }

  lemma KeepsApps(apps: map<nat, App>, conversations: map<nat, nat>)
    ensures AppsKept(apps, apps) && TalksKept(conversations, conversations)
  {}

  lemma KeepsRuns(runs: map<nat, AgentRun>, goals: map<nat, Goal>)
    ensures RunsKept(runs, runs) && TermsKept(runs, goals, goals)
  {}

  lemma KeepsMatches(matches: map<nat, Match>, snapshots: map<nat, Snapshot>)
    ensures MatchesKept(matches, matches) && SnapshotsKept(matches, snapshots, snapshots)
  {}

  lemma TaskExtends(w: World, op: Op, db': Db)
    requires WInv(w) && Tasks.Step(w.db, op, db') && Guarded(w, op)
    ensures Extends(w, w.(db := db'))
  {
    hide WInv, TaskInvariant.Inv, Tasks.Step, Guarded, RunsKept, AppsKept, TalksKept, TermsKept, MatchesKept, MatchJobs;
    Tables(w);
    TaskKeepsMatches(w, op, db');
    MatchedHaveSnapshots(w);
    TaskKeepsJobs(w, op, db');
    TaskFrame.CounterGrows(w.db, op, db');
    KeepsRuns(w.runs, w.goals);
    KeepsMatches(w.matches, w.db.snapshots);
    KeepsApps(w.apps, w.conversations);
  }

  lemma MatchedHaveSnapshots(w: World)
    requires MatchJobs(w.matches, w.db.jobs, w.db.snapshots)
    ensures forall m :: m in w.matches ==> w.matches[m].job in w.db.snapshots
  {}

  lemma TaskKeepsJobs(w: World, op: Op, db': Db)
    requires MatchJobs(w.matches, db'.jobs, db'.snapshots)
    ensures forall m :: m in w.matches ==> w.matches[m].job in db'.snapshots
  {}

  lemma GoalRewritten(runs: map<nat, AgentRun>, goals: map<nat, Goal>, g: nat, goal: Goal)
    requires RunGoals(runs, goals) && !HasRun(runs, goal.candidate)
    requires g in goals ==> goals[g].candidate == goal.candidate
    ensures TermsKept(runs, goals, goals[g := goal])
  {
    forall r | r in runs ensures runs[r].goal == g ==> g !in goals {}
  }

  lemma SaveGoalExtends(w: World, candidate: nat, target: nat, title: string, filters: string)
    requires WInv(w)
    ensures Extends(w, SaveGoal(w, candidate, target, title, filters).0)
  {
    hide WInv, RunsKept, AppsKept, TalksKept, TermsKept, MatchesKept, SnapshotsKept, RunGoals, HasRun;
    Tables(w);
    KeepsRuns(w.runs, w.goals);
    KeepsMatches(w.matches, w.db.snapshots);
    KeepsApps(w.apps, w.conversations);
    var g := GoalOf(w.goals, candidate);
    if SaveGoal(w, candidate, target, title, filters).1 {
      if g.Some? {
        GoalRewritten(w.runs, w.goals, g.value, w.goals[g.value].(offerTarget := target, title := title, filters := filters));
      } else {
        FreeId(w);
        GoalRewritten(w.runs, w.goals, w.db.next, Goal(candidate, target, title, filters, GoalActive));
      }
    }
  }

  lemma RunAdded(runs: map<nat, AgentRun>, r: nat, run: AgentRun)
    requires r !in runs
    ensures RunsKept(runs, runs[r := run])
  {}

  lemma StartExtends(w: World, candidate: nat)
    requires WInv(w)
    ensures Extends(w, StartRun(w, candidate).0)
  {
    hide WInv, RunsKept, AppsKept, TalksKept, TermsKept, MatchesKept, SnapshotsKept, Restartable, EligibleIn;
    Tables(w);
    FreeId(w);
    KeepsRuns(w.runs, w.goals);
    KeepsMatches(w.matches, w.db.snapshots);
    KeepsApps(w.apps, w.conversations);
    if StartRun(w, candidate).1.Fresh? {
      RunAdded(w.runs, w.db.next, StartRun(w, candidate).0.runs[w.db.next]);
    }
  }

  lemma MatchAdded(matches: map<nat, Match>, m: nat, row: Match)
    requires m !in matches
    ensures MatchesKept(matches, matches[m := row])
  {}

  lemma AppAdded(apps: map<nat, App>, a: nat, app: App)
    requires a !in apps
    ensures AppsKept(apps, apps[a := app])
  {}

  lemma TalkAdded(conversations: map<nat, nat>, c: nat, a: nat)
    requires c !in conversations
    ensures TalksKept(conversations, conversations[c := a])
  {}

  lemma MatchJobExtends(w: World, run: nat, candidate: nat, job: nat, verdict: Verdict)
    requires WInv(w)
    ensures Extends(w, MatchJob(w, run, candidate, job, verdict))
  {
    hide WInv, RunsKept, AppsKept, TalksKept, TermsKept, MatchesKept, SnapshotsKept, MatchJob;
    Tables(w);
    FreeId(w);
    FreeIds(w);
    MatchJobShape(w, run, candidate, job, verdict);
    AppAdded(w.apps, w.db.next + 1, App(run, w.db.next, candidate, job, Submitted));
    TalkAdded(w.conversations, w.db.next + 2, w.db.next + 1);
    KeepsRuns(w.runs, w.goals);
    KeepsMatches(w.matches, w.db.snapshots);
    KeepsApps(w.apps, w.conversations);
    MatchAdded(w.matches, w.db.next, Match(run, candidate, job, ApplicationCreated));
    MatchAdded(w.matches, w.db.next, Match(run, candidate, job, StatusOf(verdict)));
  }

  lemma {:induction false} MatchAllExtends(w: World, run: nat, candidate: nat, jobs: seq<nat>, verdicts: map<nat,
        Verdict>)
    requires WInv(w) && forall j :: j in jobs ==> Matchable(w, run, candidate, j)
    ensures Extends(w, MatchAll(w, run, candidate, jobs, verdicts))
  {
    hide WInv, MatchJob, Extends, Matchable;
    if jobs == [] {
      ExtendsItself(w, w.db.now);
      assert Later(w, w.db.now) == w;
    } else {
      var n := |jobs| - 1;
      var w1 := MatchAll(w, run, candidate, jobs[..n], verdicts);
      MatchAllExtends(w, run, candidate, jobs[..n], verdicts);
      MatchAllKeeps(w, run, candidate, jobs[..n], verdicts);
      MatchJobExtends(w1, run, candidate, jobs[n], VerdictOn(verdicts, jobs[n]));
      ExtendsOn(w, w1, MatchAll(w, run, candidate, jobs, verdicts));
    }
  }

  lemma RunFinishes(runs: map<nat, AgentRun>, run: nat, reason: FinishReason)
    requires run in runs && runs[run].status == RunRunning
    ensures RunsKept(runs, runs[run := runs[run].(status := RunFinished, reason := Some(reason))])
  {}

  lemma FinishExtends(w: World, run: nat, reason: FinishReason)
    requires run in w.runs && w.runs[run].status == RunRunning
    ensures Extends(w, FinishRun(w, run, reason))
  {
    hide RunsKept, AppsKept, TalksKept, TermsKept, MatchesKept, SnapshotsKept;
    KeepsRuns(w.runs, w.goals);
    KeepsMatches(w.matches, w.db.snapshots);
    KeepsApps(w.apps, w.conversations);
    RunFinishes(w.runs, run, reason);
  }

  lemma ExecuteExtends(w: World, run: nat, candidate: nat, verdicts: map<nat, Verdict>)
    requires WInv(w)
    ensures Extends(w, Execute(w, run, candidate, verdicts))
  {
    if Loadable(w, run, candidate) && w.runs[run].status == RunRunning {
      InputsAreMatchable(w.db);
      hide WInv, JobInputs, MatchAll, CountApps, Extends;
      var w1 := MatchAll(w, run, candidate, JobInputs(w.db), verdicts);
      MatchAllExtends(w, run, candidate, JobInputs(w.db), verdicts);
      MatchAllKeeps(w, run, candidate, JobInputs(w.db), verdicts);
      if CountApps(w1, run, candidate) == 0 {
        FinishExtends(w1, run, NoMatch);
        ExtendsOn(w, w1, FinishRun(w1, run, NoMatch));
      }
    } else {
      hide Extends;
      ExtendsItself(w, w.db.now);
      assert Later(w, w.db.now) == w;
    }
  }

  lemma GoalAchievedKeepsTerms(runs: map<nat, AgentRun>, goals: map<nat, Goal>, g: nat)
    requires g in goals
    ensures TermsKept(runs, goals, goals[g := goals[g].(status := GoalAchieved)])
  {}

  lemma AppMoved(apps: map<nat, App>, a: nat, status: AppStatus)
    requires a in apps
    ensures AppsKept(apps, apps[a := apps[a].(status := status)])
  {}

  lemma UpdateExtends(w: World, a: nat, hr: nat, status: AppStatus)
    ensures Extends(w, UpdateStatus(w, a, hr, status).0)
  {
    hide RunsKept, AppsKept, TalksKept, TermsKept, MatchesKept, SnapshotsKept, Offers, LatestRun, ValidTransition;
    KeepsRuns(w.runs, w.goals);
    KeepsMatches(w.matches, w.db.snapshots);
    KeepsApps(w.apps, w.conversations);
    if UpdateStatus(w, a, hr, status).1 == Changed {
      var run := w.apps[a].run;
      if w.runs[run].status == RunRunning { RunFinishes(w.runs, run, OfferTargetReached); }
      GoalAchievedKeepsTerms(w.runs, w.goals, w.runs[run].goal);
      AppMoved(w.apps, a, status);
    }
  }

  lemma StepExtends(w: World, step: WorldStep, w': World)
    requires WInv(w) && Transition(w, step, w')
    ensures Extends(w, w')
  {
    hide WInv, SaveGoal, StartRun, Execute, UpdateStatus, Extends;
    match step {
      case TaskStep(op) => TaskExtends(w, op, w'.db);
      case SaveGoalStep(candidate, target, title, filters) => SaveGoalExtends(w, candidate, target, title, filters);
      case StartStep(candidate) => StartExtends(w, candidate);
      case ExecuteStep(run, candidate, verdicts) => ExecuteExtends(w, run, candidate, verdicts);
      case UpdateStep(a, hr, status) => UpdateExtends(w, a, hr, status);
    }
    if !step.TaskStep? {
      ExtendsItself(Perform(w, step), w'.db.now);
      ExtendsOn(w, Perform(w, step), w');
    }
  }

  lemma {:induction false} TraceExtends(ws: seq<World>, steps: seq<WorldStep>, i: nat, j: nat)
    requires Trace(ws, steps) && i <= j < |ws|
    ensures Extends(ws[i], ws[j])
  {
    hide WInv, Transition, Extends;
    if i == j {
      ExtendsItself(ws[i], ws[i].db.now);
      assert Later(ws[i], ws[i].db.now) == ws[i];
    } else {
      TraceExtends(ws, steps, i, j - 1);
      TraceKeeps(ws, steps, j - 1);
      StepExtends(ws[j - 1], steps[j - 1], ws[j]);
      ExtendsOn(ws[i], ws[j - 1], ws[j]);
    }
  }
}
