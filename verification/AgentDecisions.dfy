/** How the agent flow answers its requests, stated on the tables: the status update, the
    goal and the start of a run. */
module AgentDecisions {
  import opened Common
  import opened Tasks
  import TaskInvariant
  import TaskDecisions
  import TaskProvenance
  import opened Readiness
  import opened AgentFlow
  import opened AgentInvariant
  import opened AgentFacts
  import opened AgentTheorems
  import opened AgentVisibility

  // ----- the status update --------------------------------------------------

  /** The order of the stages; `terminated` is outside it. */
  function Order(): (r: seq<AppStatus>)
    ensures |r| == 8
  {
    [Submitted, Screening, WrittenTest, Interview1, Interview2, Interview3, HrInterview, Offer]
  }

  predicate At(i: nat, status: AppStatus) {
    i < |Order()| && Order()[i] == status
  }

  ghost predicate ComesAfter(current: AppStatus, next: AppStatus) {
    exists i: nat, j: nat :: i < j && At(i, current) && At(j, next)
  }

  /** From any open status to `terminated` or to any later stage, skipping as many as one
      likes. */
  ghost predicate MayBecome(current: AppStatus, next: AppStatus) {
    current != Offer && current != Terminated && (next == Terminated || ComesAfter(current, next))
  }

  lemma AtIff(i: nat, status: AppStatus)
    ensures At(i, status) <==> status != Terminated && i == Stage(status)
  {}

  lemma ComesAfterIff(current: AppStatus, next: AppStatus)
    ensures ComesAfter(current, next) <==> current != Terminated && next != Terminated && Stage(current) < Stage(next)
  {
    hide At, Stage;
    forall i: nat ensures (At(i, current) <==> current != Terminated && i == Stage(current)) {
      AtIff(i, current);
    }
    forall j: nat ensures (At(j, next) <==> next != Terminated && j == Stage(next)) {
      AtIff(j, next);
    }
    if current != Terminated && next != Terminated && Stage(current) < Stage(next) {
      assert At(Stage(current), current) && At(Stage(next), next);
    }
  }

  lemma MayBecomeIff(current: AppStatus, next: AppStatus)
    ensures MayBecome(current, next) <==> ValidTransition(current, next)
  {
    hide ComesAfter;
    ComesAfterIff(current, next);
  }

  /** No run was created later, or at the same time under a greater id. */
  predicate IsNewestRun(runs: map<nat, AgentRun>, r: nat) {
    r in runs && forall s :: s in runs && s != r ==>
      runs[s].createdAt < runs[r].createdAt || (runs[s].createdAt == runs[r].createdAt && s < r)
  }

  lemma NewestIsLatest(runs: map<nat, AgentRun>, r: nat)
    ensures IsNewestRun(runs, r) <==> LatestRun(runs) == Some(r)
  {
    assert DistinctRanks(runs.Keys, RunRank(runs));
    if IsNewestRun(runs, r) {
      assert Leads(r, runs.Keys, RunRank(runs));
      LeaderIsUnique(r, LatestRun(runs).value, runs.Keys, RunRank(runs));
    }
  }

  /** The application is of the newest run and for a job of this HR. */
  predicate InView(w: World, a: nat, hr: nat) {
    a in w.apps && IsNewestRun(w.runs, w.apps[a].run) && w.apps[a].job in w.db.jobs && w.db.jobs[w.apps[a].job].hr == hr
  }

  lemma InViewIff(w: World, a: nat, hr: nat)
    requires WInv(w)
    ensures InView(w, a, hr) <==> HrRecord(w, a, hr)
  {
    if a in w.apps {
      AppRun(w, a);
      Tables(w);
      NewestIsLatest(w.runs, w.apps[a].run);
      GoalOfRun(w, w.apps[a].run);
      hide WInv, LatestRun, IsNewestRun, HrSees;
      if LatestRun(w.runs) == Some(w.apps[a].run) {
        SeenIff(w, a, w.apps[a].run, hr);
      } else {
        HiddenIsInvisible(w, w.apps[a].run);
      }
    }
  }

  lemma GoalOfRun(w: World, r: nat)
    requires WInv(w) && r in w.runs
    ensures w.runs[r].goal in w.goals && w.goals[w.runs[r].goal].candidate == w.runs[r].candidate
  {
    Tables(w);
    hide WInv;
  }

  /** The new status, one event more, and nothing else outside runs and goals. */
  predicate Updates(w: World, w': World, a: nat, status: AppStatus) {
    && a in w.apps
    && w' == w.(apps := w.apps[a := App(w.apps[a].run, w.apps[a].match_, w.apps[a].candidate, w.apps[a].job, status)],
                events := w.events + [Event(a, Some(w.apps[a].status), status)], runs := w'.runs, goals := w'.goals)
  }

  /** The run is finished and its goal achieved, and no other run or goal changes. */
  predicate Finishes(w: World, w': World, r: nat) {
    && r in w.runs && w.runs[r].goal in w.goals
    && w'.runs == w.runs[r := w.runs[r].(status := RunFinished, reason := Some(OfferTargetReached))]
    && w'.goals == w.goals[w.runs[r].goal := w.goals[w.runs[r].goal].(status := GoalAchieved)]
  }

  function OffersOf(w: World, r: nat): set<nat> {
    set a | a in w.apps && w.apps[a].run == r && w.apps[a].status == Offer
  }

  predicate TargetMet(w: World, w': World, r: nat) {
    r in w.runs && w.runs[r].goal in w.goals && |OffersOf(w', r)| >= w.goals[w.runs[r].goal].offerTarget
  }

  lemma MovingUpdates(w: World, a: nat, status: AppStatus)
    requires a in w.apps
    ensures Updates(w, Moved(w, a, status), a, status)
  {}

  lemma SettlingKeepsApps(w: World, a: nat)
    requires a in w.apps && w.apps[a].run in w.runs && w.runs[w.apps[a].run].goal in w.goals
    ensures var w' := SettleOffer(w, a); w' == w.(runs := w'.runs, goals := w'.goals)
  {
    hide Offers;
  }

  lemma UpdateByTables(w: World, a: nat, hr: nat, status: AppStatus)
    requires WInv(w)
    ensures var (w', answer) := UpdateStatus(w, a, hr, status);
      && (answer == NotFound <==> !InView(w, a, hr))
      && (InView(w, a, hr) ==>
            && (answer == Unchanged <==> status == w.apps[a].status)
            && (answer == Changed <==> status != w.apps[a].status && MayBecome(w.apps[a].status, status)))
      && (if answer == Changed then Updates(w, w', a, status) else w' == w)
  {
    hide WInv, InView, HrSees, Offers, MayBecome, ValidTransition, SettleOffer, Moved, Updates;
    InViewIff(w, a, hr);
    if InView(w, a, hr) {
      InViewIsThere(w, a, hr);
      AppRun(w, a);
      MayBecomeIff(w.apps[a].status, status);
      MovingUpdates(w, a, status);
      UpdatesAfter(w, a, status);
    }
  }

  lemma UpdatesAfter(w: World, a: nat, status: AppStatus)
    requires a in w.apps && w.apps[a].run in w.runs && w.runs[w.apps[a].run].goal in w.goals
    ensures var w1 := Moved(w, a, status); a in w1.apps && w1.apps[a].run in w1.runs && w1.runs[w1.apps[a].run].goal in w1.goals
    ensures Updates(w, SettleOffer(Moved(w, a, status), a), a, status)
  {
    hide SettleOffer;
    SettlingKeepsApps(Moved(w, a, status), a);
  }

  lemma InViewIsThere(w: World, a: nat, hr: nat)
    ensures InView(w, a, hr) ==> a in w.apps
  {
    hide IsNewestRun;
  }

  lemma OffersAreTheRuns(w: World, w': World, a: nat, status: AppStatus)
    requires WInv(w) && Updates(w, w', a, status)
    ensures Offers(w'.apps, w.apps[a].run, w.apps[a].candidate) == OffersOf(w', w.apps[a].run)
  {
    hide WInv;
    forall b | b in w.apps && w.apps[b].run == w.apps[a].run ensures w.apps[b].candidate == w.apps[a].candidate {
      AppRun(w, a);
      AppRun(w, b);
    }
  }

  /** What `SettleOffer` does, with the offers counted on the run alone. */
  lemma SettlingFinishes(w: World, a: nat)
    requires a in w.apps && w.apps[a].run in w.runs && w.runs[w.apps[a].run].goal in w.goals
    requires Offers(w.apps, w.apps[a].run, w.apps[a].candidate) == OffersOf(w, w.apps[a].run)
    ensures var w', r := SettleOffer(w, a), w.apps[a].run;
      if w.runs[r].status == RunRunning && TargetMet(w, w, r) then Finishes(w, w', r) else w' == w
  {
    hide Offers, OffersOf;
  }

  lemma ChangedIs(w: World, a: nat, hr: nat, status: AppStatus)
    requires UpdateStatus(w, a, hr, status).1 == Changed
    ensures a in w.apps && w.apps[a].run in w.runs && w.runs[w.apps[a].run].goal in w.goals
    ensures var w1 := Moved(w, a, status);
      && a in w1.apps && w1.apps[a].run in w1.runs && w1.runs[w1.apps[a].run].goal in w1.goals
      && UpdateStatus(w, a, hr, status).0 == if status == Offer then SettleOffer(w1, a) else w1
  {
    hide LatestRun, Named, SettleOffer, ValidTransition;
  }

  lemma FinishByTables(w: World, a: nat, hr: nat, status: AppStatus)
    requires WInv(w) && UpdateStatus(w, a, hr, status).1 == Changed
    ensures var w' := UpdateStatus(w, a, hr, status).0;
      && a in w.apps && w.apps[a].run in w.runs
      && if status == Offer && w.runs[w.apps[a].run].status == RunRunning && TargetMet(w, w', w.apps[a].run)
         then Finishes(w, w', w.apps[a].run) else w'.runs == w.runs && w'.goals == w.goals
  {
    hide WInv, UpdateStatus, Offers, OffersOf, Finishes, TargetMet, SettleOffer;
    ChangedIs(w, a, hr, status);
    var w', w1, r := UpdateStatus(w, a, hr, status).0, Moved(w, a, status), w.apps[a].run;
    MovingUpdates(w, a, status);
    OffersAreTheRuns(w, w1, a, status);
    if status == Offer {
      SettlingFinishes(w1, a);
      SettlingKeepsApps(w1, a);
      SameRunTables(w, w1, w', r);
    }
  }

  /** The change of the application itself touches no run and no goal. */
  lemma SameRunTables(w: World, w1: World, w': World, r: nat)
    requires w1.runs == w.runs && w1.goals == w.goals && w'.apps == w1.apps
    ensures TargetMet(w1, w1, r) <==> TargetMet(w, w', r)
    ensures Finishes(w1, w', r) <==> Finishes(w, w', r)
  {
    assert OffersOf(w', r) == OffersOf(w1, r);
  }

  /** The status update, in every reachable state: not found unless the application is of
      the newest run and for a job of this HR; unchanged at the same status; changed to
      `terminated` or to any later stage, and otherwise a conflict. A change sets exactly
      the new status and adds one event; nothing else answers with a change. */
  lemma StatusUpdateIff(ws: seq<World>, steps: seq<WorldStep>, n: nat, a: nat, hr: nat, status: AppStatus)
    requires Trace(ws, steps) && n < |ws|
    ensures var w := ws[n]; var (w', answer) := UpdateStatus(w, a, hr, status);
      && (answer == NotFound <==> !InView(w, a, hr))
      && (InView(w, a, hr) ==>
            && (answer == Unchanged <==> status == w.apps[a].status)
            && (answer == Changed <==> status != w.apps[a].status && MayBecome(w.apps[a].status, status)))
      && (if answer == Changed then Updates(w, w', a, status) else w' == w)
  {
    hide WInv, UpdateStatus, InView, MayBecome, Updates;
    TraceKeeps(ws, steps, n);
    UpdateByTables(ws[n], a, hr, status);
  }

  /** The run finishes, and its goal is achieved, exactly when the change is an offer that
      makes the offers of a running run reach the target. */
  lemma UpdateFinishesIff(ws: seq<World>, steps: seq<WorldStep>, n: nat, a: nat, hr: nat, status: AppStatus)
    requires Trace(ws, steps) && n < |ws| && UpdateStatus(ws[n], a, hr, status).1 == Changed
    ensures var w := ws[n]; var w' := UpdateStatus(w, a, hr, status).0;
      && a in w.apps && w.apps[a].run in w.runs
      && if status == Offer && w.runs[w.apps[a].run].status == RunRunning && TargetMet(w, w', w.apps[a].run)
         then Finishes(w, w', w.apps[a].run) else w'.runs == w.runs && w'.goals == w.goals
  {
    hide WInv, UpdateStatus, TargetMet, Finishes;
    TraceKeeps(ws, steps, n);
    FinishByTables(ws[n], a, hr, status);
  }

  // ----- the goal -----------------------------------------------------------

  ghost predicate NoneAbandoned(w: World) {
    forall g :: g in w.goals ==> w.goals[g].status != GoalAbandoned
  }

  lemma StepAbandonsNone(w: World, step: WorldStep)
    requires WInv(w) && NoneAbandoned(w)
    ensures NoneAbandoned(Perform(w, step))
  {
    hide WInv, Execute, Tasks.Apply, LatestRun, HrSees, Prerequisites, Restartable, Offers, ValidTransition;
    if step.ExecuteStep? { RoundKeepsRest(w, step.run, step.candidate, step.verdicts); }
  }

  /** Goals and resumes as they were. */
  predicate SameRest(w: World, w': World) {
    w'.goals == w.goals && w'.db.resumes == w.db.resumes && w'.db.current == w.db.current
  }

  lemma EnsureKeepsRest(w: World, m: nat)
    requires m in w.matches
    ensures SameRest(w, EnsureApplication(w, m))
  {
    hide HasConversation, AppOf;
  }

  lemma MatchJobKeepsRest(w: World, run: nat, candidate: nat, job: nat, verdict: Verdict)
    ensures SameRest(w, MatchJob(w, run, candidate, job, verdict))
  {
    hide EnsureApplication;
    var existing := MatchOf(w.matches, run, job);
    if existing.Some? {
      EnsureKeepsRest(w, existing.value);
    } else {
      var m := w.db.next;
      EnsureKeepsRest(w.(db := w.db.(next := m + 1), matches := w.matches[m := Match(run, candidate, job, StatusOf(verdict))]), m);
    }
  }

  lemma {:induction false} MatchAllKeepsRest(w: World, run: nat, candidate: nat, jobs: seq<nat>, verdicts: map<nat, Verdict>)
    ensures SameRest(w, MatchAll(w, run, candidate, jobs, verdicts))
  {
    hide MatchJob;
    if jobs != [] {
      var n := |jobs| - 1;
      MatchAllKeepsRest(w, run, candidate, jobs[..n], verdicts);
      MatchJobKeepsRest(MatchAll(w, run, candidate, jobs[..n], verdicts), run, candidate, jobs[n], VerdictOn(verdicts, jobs[n]));
    }
  }

  lemma RoundKeepsRest(w: World, run: nat, candidate: nat, verdicts: map<nat, Verdict>)
    ensures SameRest(w, Execute(w, run, candidate, verdicts))
  {
    hide JobInputs, MatchAll, CountApps;
    MatchAllKeepsRest(w, run, candidate, JobInputs(w.db), verdicts);
  }

  lemma {:induction false} NoGoalIsAbandoned(ws: seq<World>, steps: seq<WorldStep>, n: nat)
    requires Trace(ws, steps) && n < |ws|
    ensures NoneAbandoned(ws[n])
  {
    hide Trace, WInv, Permitted, Perform, NoneAbandoned;
    if n == 0 {
      NothingAbandoned(ws, steps);
    } else {
      NoGoalIsAbandoned(ws, steps, n - 1);
      TraceKeeps(ws, steps, n - 1);
      AgentVisibility.Moves(ws, steps, n - 1);
      StepAbandonsNone(ws[n - 1], steps[n - 1]);
      SameGoals(Perform(ws[n - 1], steps[n - 1]), ws[n]);
    }
  }

  lemma SameGoals(w: World, w': World)
    requires NoneAbandoned(w) && w'.goals == w.goals
    ensures NoneAbandoned(w')
  {}

  lemma NothingAbandoned(ws: seq<World>, steps: seq<WorldStep>)
    requires Trace(ws, steps)
    ensures ws != [] && NoneAbandoned(ws[0])
  {
    hide Transition;
  }

  ghost predicate OnlyGoal(goals: map<nat, Goal>, g: nat, candidate: nat) {
    g in goals && goals[g].candidate == candidate && forall h :: h in goals && goals[h].candidate == candidate ==> h == g
  }

  /** The candidate's one goal now has these terms and is active; nothing else changed,
      except the id drawn for a first goal. */
  ghost predicate Saves(w: World, w': World, g: nat, candidate: nat, target: nat, title: string, filters: string) {
    && OnlyGoal(w'.goals, g, candidate)
    && w' == w.(db := w.db.(next := w'.db.next), goals := w.goals[g := Goal(candidate, target, title, filters, GoalActive)])
    && (if g in w.goals then w'.db.next == w.db.next else g == w.db.next && w'.db.next == g + 1)
  }

  lemma AchievedHasRun(runs: map<nat, AgentRun>, goals: map<nat, Goal>, g: nat)
    requires GoalsReached(goals, runs) && RunGoals(runs, goals) && g in goals && goals[g].status == GoalAchieved
    ensures HasRun(runs, goals[g].candidate)
  {
    var r :| r in runs && runs[r].goal == g && runs[r].reason == Some(OfferTargetReached);
    assert runs[r].candidate == goals[g].candidate;
  }

  lemma FreeGoalIsActive(w: World, candidate: nat, g: nat)
    requires WInv(w) && NoneAbandoned(w) && g in w.goals && w.goals[g].candidate == candidate
    requires !HasRun(w.runs, candidate)
    ensures w.goals[g].status == GoalActive
  {
    hide WInv, HasRun, RunGoals, GoalsReached, Goals;
    Tables(w);
    if w.goals[g].status == GoalAchieved { AchievedHasRun(w.runs, w.goals, g); }
  }

  lemma OneGoalSaved(goals: map<nat, Goal>, candidate: nat, g: nat, goal: Goal)
    requires Goals(goals) && goal.candidate == candidate
    requires if g in goals then goals[g].candidate == candidate else forall h :: h in goals ==> goals[h].candidate != candidate
    ensures OnlyGoal(goals[g := goal], g, candidate)
  {}

  lemma SavingByTables(w: World, candidate: nat, target: nat, title: string, filters: string)
    requires WInv(w) && NoneAbandoned(w)
    ensures var (w', ok) := SaveGoal(w, candidate, target, title, filters);
      && (ok <==> !HasRun(w.runs, candidate))
      && (if ok then exists g: nat :: Saves(w, w', g, candidate, target, title, filters) else w' == w)
  {
    hide WInv, HasRun, OnlyGoal, Goals, NoneAbandoned;
    Tables(w);
    FreeId(w);
    var found := GoalOf(w.goals, candidate);
    if !HasRun(w.runs, candidate) {
      if found.Some? { FreeGoalIsActive(w, candidate, found.value); }
      var g := if found.Some? then found.value else w.db.next;
      OneGoalSaved(w.goals, candidate, g, Goal(candidate, target, title, filters, GoalActive));
      assert Saves(w, SaveGoal(w, candidate, target, title, filters).0, g, candidate, target, title, filters);
    }
  }

  /** In every reachable state the goal can be saved exactly until the candidate has a
      run, and a save leaves the candidate with one goal, of exactly these terms. */
  lemma GoalIsSavedIff(ws: seq<World>, steps: seq<WorldStep>, n: nat, candidate: nat, target: nat, title: string, filters: string)
    requires Trace(ws, steps) && n < |ws|
    ensures var (w', ok) := SaveGoal(ws[n], candidate, target, title, filters);
      && (ok <==> forall r :: r in ws[n].runs ==> ws[n].runs[r].candidate != candidate)
      && (if ok then exists g: nat :: Saves(ws[n], w', g, candidate, target, title, filters) else w' == ws[n])
  {
    hide WInv, NoneAbandoned, SaveGoal, Saves;
    TraceKeeps(ws, steps, n);
    NoGoalIsAbandoned(ws, steps, n);
    hide Trace;
    SavingByTables(ws[n], candidate, target, title, filters);
  }

  // ----- the start ----------------------------------------------------------

  lemma StepKeepsCurrentResume(w: World, step: WorldStep, w': World)
    requires WInv(w) && Transition(w, step, w') && TaskDecisions.CurrentOk(w.db.resumes, w.db.current)
    ensures TaskDecisions.CurrentOk(w'.db.resumes, w'.db.current)
  {
    hide WInv, TaskInvariant.Inv, TaskDecisions.CurrentOk, Execute, SaveGoal, StartRun, UpdateStatus, Tasks.Apply, Tasks.Enabled;
    Tables(w);
    match step {
      case TaskStep(op) => TaskDecisions.StepKeepsCurrent(w.db, op, w'.db);
      case SaveGoalStep(candidate, target, title, filters) => SavingKeepsResumes(w, candidate, target, title, filters);
      case StartStep(candidate) => StartingKeepsResumes(w, candidate);
      case ExecuteStep(run, candidate, verdicts) => RoundKeepsRest(w, run, candidate, verdicts);
      case UpdateStep(a, hr, status) => UpdateKeepsResumes(w, a, hr, status);
    }
  }

  predicate SameResumes(w: World, w': World) {
    w'.db.resumes == w.db.resumes && w'.db.current == w.db.current
  }

  lemma SavingKeepsResumes(w: World, candidate: nat, target: nat, title: string, filters: string)
    ensures SameResumes(w, SaveGoal(w, candidate, target, title, filters).0)
  {}

  lemma StartingKeepsResumes(w: World, candidate: nat)
    ensures SameResumes(w, StartRun(w, candidate).0)
  {
    hide Prerequisites, Restartable;
  }

  lemma UpdateKeepsResumes(w: World, a: nat, hr: nat, status: AppStatus)
    ensures SameResumes(w, UpdateStatus(w, a, hr, status).0)
  {
    hide HrSees, Offers, ValidTransition;
  }

  lemma {:induction false} CurrentIsNewestHere(ws: seq<World>, steps: seq<WorldStep>, n: nat)
    requires Trace(ws, steps) && n < |ws|
    ensures TaskDecisions.CurrentOk(ws[n].db.resumes, ws[n].db.current)
  {
    hide Trace, WInv, Transition, TaskDecisions.CurrentOk;
    if n == 0 {
      NoResumes(ws, steps);
      TaskDecisions.NothingCurrent();
    } else {
      CurrentIsNewestHere(ws, steps, n - 1);
      TraceKeeps(ws, steps, n - 1);
      AgentVisibility.Moves(ws, steps, n - 1);
      StepKeepsCurrentResume(ws[n - 1], steps[n - 1], ws[n]);
    }
  }

  lemma NoResumes(ws: seq<World>, steps: seq<WorldStep>)
    requires Trace(ws, steps)
    ensures ws != [] && ws[0].db.resumes == map[] && ws[0].db.current == map[]
  {
    hide Transition;
  }

  /** The profile `p` of the candidate's last uploaded resume `r`, which is undeleted, has
      a name, a contact, an education, and work or a project. */
  ghost predicate ReadyWith(w: World, candidate: nat, r: nat, p: nat) {
    && TaskDecisions.Newest(w.db.resumes, candidate, r) && !w.db.resumes[r].deleted
    && p in w.db.profiles && w.db.profiles[p].resume == r && TaskProvenance.MayMatch(w.db.profiles[p].facts)
  }

  ghost predicate HasGoal(w: World, candidate: nat, g: nat) {
    g in w.goals && w.goals[g].candidate == candidate
  }

  /** A running run of the candidate on that goal, resume and profile. */
  predicate Starts(w: World, w': World, candidate: nat, g: nat, r: nat, p: nat) {
    && w.db.next !in w.runs
    && w' == w.(db := w.db.(next := w.db.next + 1),
                runs := w.runs[w.db.next := AgentRun(candidate, g, r, p, w.db.now, RunRunning, None)])
  }

  lemma ReadyMeans(db: Db, p: nat)
    requires TaskInvariant.Inv(db) && p in db.profiles
    ensures db.profiles[p].ready <==> TaskProvenance.MayMatch(db.profiles[p].facts)
    ensures db.profiles[p].resume in db.resumes && db.resumes[db.profiles[p].resume].status == ParseSucceeded
    ensures forall q :: q in db.profiles && db.profiles[q].resume == db.profiles[p].resume ==> q == p
  {
    hide HasProfile;
  }

  lemma CurrentMeans(w: World, candidate: nat, r: nat)
    requires TaskDecisions.CurrentOk(w.db.resumes, w.db.current)
    ensures TaskDecisions.Newest(w.db.resumes, candidate, r) && !w.db.resumes[r].deleted <==>
      CurrentResume(w.db, candidate) && w.db.current[candidate] == r
  {}

  lemma ProfileIs(db: Db, p: nat, r: nat)
    requires TaskInvariant.Inv(db) && p in db.profiles && db.profiles[p].resume == r
    ensures ProfileOf(db.profiles, r) == Some(p)
  {
    hide TaskInvariant.Inv;
    ReadyMeans(db, p);
  }

  lemma GoalIs(goals: map<nat, Goal>, g: nat)
    requires Goals(goals) && g in goals
    ensures GoalOf(goals, goals[g].candidate) == Some(g)
  {}

  lemma PrerequisitesMean(w: World, candidate: nat, g: nat, r: nat, p: nat)
    requires WInv(w) && TaskDecisions.CurrentOk(w.db.resumes, w.db.current)
    requires HasGoal(w, candidate, g) && w.goals[g].status == GoalActive && ReadyWith(w, candidate, r, p)
    requires w.db.snapshots != map[]
    ensures Prerequisites(w, candidate)
  {
    hide WInv, TaskInvariant.Inv, EligibleIn, Active, TaskDecisions.CurrentOk, TaskDecisions.Newest, Goals, GoalOf, ProfileOf,
      TaskProvenance.MayMatch;
    Tables(w);
    CurrentMeans(w, candidate, r);
    ReadyMeans(w.db, p);
    ProfileIs(w.db, p, r);
    GoalIs(w.goals, g);
    AddsUp(w.db);
    SomeSnapshot(w.db);
  }

  lemma SomeSnapshot(db: Db)
    ensures db.snapshots != map[] <==> db.snapshots.Keys != {}
  {
    if db.snapshots != map[] { var j :| j in db.snapshots; assert j in db.snapshots.Keys; }
  }

  lemma PrerequisitesGive(w: World, candidate: nat)
    requires WInv(w) && TaskDecisions.CurrentOk(w.db.resumes, w.db.current) && Prerequisites(w, candidate)
    ensures var g := GoalOf(w.goals, candidate); g.Some? && HasGoal(w, candidate, g.value)
    ensures candidate in w.db.current
    ensures var r := w.db.current[candidate]; var p := ProfileOf(w.db.profiles, r); p.Some? && ReadyWith(w, candidate, r, p.value)
    ensures w.db.snapshots != map[]
  {
    hide WInv, TaskInvariant.Inv, EligibleIn, Active, TaskDecisions.CurrentOk, TaskDecisions.Newest, TaskProvenance.MayMatch;
    Tables(w);
    var r := w.db.current[candidate];
    var p := ProfileOf(w.db.profiles, r).value;
    CurrentMeans(w, candidate, r);
    ReadyMeans(w.db, p);
    AddsUp(w.db);
    SomeSnapshot(w.db);
  }

  lemma RunOfHasRun(runs: map<nat, AgentRun>, candidate: nat, g: nat)
    ensures RunOf(runs, candidate, g).Some? ==> HasRun(runs, candidate)
  {}

  lemma StartUnfolds(w: World, candidate: nat)
    requires !HasRun(w.runs, candidate) && w.db.next !in w.runs && (Prerequisites(w, candidate) ==> candidate in w.db.current)
    requires Prerequisites(w, candidate) ==> GoalOf(w.goals, candidate).Some?
    requires Prerequisites(w, candidate) ==> ProfileOf(w.db.profiles, w.db.current[candidate]).Some?
    ensures var (w', answer) := StartRun(w, candidate);
      if Prerequisites(w, candidate) then
        var r := w.db.current[candidate];
        answer.Fresh? && Starts(w, w', candidate, GoalOf(w.goals, candidate).value, r, ProfileOf(w.db.profiles, r).value)
      else answer == NotReady && w' == w
  {
    hide Prerequisites, HasRun, GoalOf, ProfileOf;
    if GoalOf(w.goals, candidate).Some? { RunOfHasRun(w.runs, candidate, GoalOf(w.goals, candidate).value); }
  }

  lemma StartByTables(w: World, candidate: nat)
    requires WInv(w) && NoneAbandoned(w) && TaskDecisions.CurrentOk(w.db.resumes, w.db.current) && !HasRun(w.runs, candidate)
    ensures var (w', answer) := StartRun(w, candidate);
      && (answer.Fresh? <==>
            w.db.snapshots != map[] && exists g: nat, r: nat, p: nat :: HasGoal(w, candidate, g) && ReadyWith(w, candidate, r, p))
      && (answer.Fresh? ==> exists g: nat, r: nat, p: nat ::
            HasGoal(w, candidate, g) && ReadyWith(w, candidate, r, p) && Starts(w, w', candidate, g, r, p))
      && (!answer.Fresh? ==> answer == NotReady && w' == w)
  {
    hide WInv, Prerequisites, ReadyWith, HasRun, Starts, NoneAbandoned, TaskDecisions.CurrentOk, StartRun, GoalOf, ProfileOf;
    Tables(w);
    FreeId(w);
    if w.db.snapshots != map[] {
      if g: nat, r: nat, p: nat :| HasGoal(w, candidate, g) && ReadyWith(w, candidate, r, p) {
        FreeGoalIsActive(w, candidate, g);
        PrerequisitesMean(w, candidate, g, r, p);
      }
    }
    if Prerequisites(w, candidate) { PrerequisitesGive(w, candidate); }
    StartUnfolds(w, candidate);
  }

  /** In every reachable state a candidate without a run is given one exactly when there is
      a goal, the last uploaded resume is undeleted with a profile that may match, and some
      job has a snapshot. The run is on exactly these. */
  lemma StartsIff(ws: seq<World>, steps: seq<WorldStep>, n: nat, candidate: nat)
    requires Trace(ws, steps) && n < |ws| && forall r :: r in ws[n].runs ==> ws[n].runs[r].candidate != candidate
    ensures var w := ws[n]; var (w', answer) := StartRun(w, candidate);
      && (answer.Fresh? <==>
            w.db.snapshots != map[] && exists g: nat, r: nat, p: nat :: HasGoal(w, candidate, g) && ReadyWith(w, candidate, r, p))
      && (answer.Fresh? ==> exists g: nat, r: nat, p: nat ::
            HasGoal(w, candidate, g) && ReadyWith(w, candidate, r, p) && Starts(w, w', candidate, g, r, p))
      && (!answer.Fresh? ==> answer == NotReady && w' == w)
  {
    hide WInv, NoneAbandoned, TaskDecisions.CurrentOk, StartRun, HasGoal, ReadyWith, Starts;
    TraceKeeps(ws, steps, n);
    NoGoalIsAbandoned(ws, steps, n);
    CurrentIsNewestHere(ws, steps, n);
    hide Trace;
    StartByTables(ws[n], candidate);
  }

  lemma NoMatchMeansRestartable(w: World, r: nat)
    requires WInv(w) && r in w.runs
    ensures Restartable(w, r) <==> w.runs[r].reason == Some(NoMatch)
  {
    hide WInv, Goals, GoalsReached, RunsBacked, Matches, MatchJobs, Apps, Talks, Log, Offers;
    Tables(w);
    assert OutcomeOk(r, w.runs[r], w.goals, w.apps);
    if w.runs[r].reason == Some(NoMatch) { NoAppsCounted(w, r, w.runs[r].candidate); }
  }

  lemma NoAppsCounted(w: World, r: nat, candidate: nat)
    requires AppsOf(w.apps, r) == {}
    ensures CountApps(w, r, candidate) == 0
  {
    forall a | a in w.apps ensures w.apps[a].run != r { assert a !in AppsOf(w.apps, r); }
    assert (set a | a in w.apps && w.apps[a].run == r && w.apps[a].candidate == candidate) == {};
  }

  ghost predicate MayStart(w: World, candidate: nat) {
    w.db.snapshots != map[] && exists r: nat, p: nat :: ReadyWith(w, candidate, r, p)
  }

  lemma PrerequisitesIff(w: World, candidate: nat, g: nat)
    requires WInv(w) && TaskDecisions.CurrentOk(w.db.resumes, w.db.current)
    requires HasGoal(w, candidate, g) && w.goals[g].status == GoalActive
    ensures Prerequisites(w, candidate) <==> MayStart(w, candidate)
  {
    hide WInv, Prerequisites, ReadyWith, HasGoal, TaskDecisions.CurrentOk, GoalOf, ProfileOf;
    if Prerequisites(w, candidate) { PrerequisitesGive(w, candidate); }
    if w.db.snapshots != map[] {
      if r: nat, p: nat :| ReadyWith(w, candidate, r, p) { PrerequisitesMean(w, candidate, g, r, p); }
    }
  }

  lemma GoalOfUnreachedRun(w: World, r: nat)
    requires WInv(w) && NoneAbandoned(w) && r in w.runs && w.runs[r].reason != Some(OfferTargetReached)
    ensures HasGoal(w, w.runs[r].candidate, w.runs[r].goal) && w.goals[w.runs[r].goal].status == GoalActive
  {
    hide WInv, Goals, RunsBacked, Matches, MatchJobs, Apps, Talks, Log, Outcomes, RunGoals, ReachedBy;
    Tables(w);
    GoalOfRun(w, r);
    AgentTheorems.ReachedByItsRun(w.runs, w.goals, r);
  }

  /** A second start, in every reachable state: the existing run is handed back, unless it
      ended without a match and a run might start; then the restart is tried and rejected.
      Nothing changes either way. */
  lemma StartAgainIff(ws: seq<World>, steps: seq<WorldStep>, n: nat, r: nat)
    requires Trace(ws, steps) && n < |ws| && r in ws[n].runs
    ensures var w, candidate := ws[n], ws[n].runs[r].candidate;
      StartRun(w, candidate) == (w, if w.runs[r].reason == Some(NoMatch) && MayStart(w, candidate) then Rejected else Existing(r))
  {
    hide WInv, NoneAbandoned, TaskDecisions.CurrentOk, StartRun, Restartable, Prerequisites, MayStart, HasGoal;
    TraceKeeps(ws, steps, n);
    NoGoalIsAbandoned(ws, steps, n);
    CurrentIsNewestHere(ws, steps, n);
    NeverRestarted(ws, steps, n, r);
    hide Trace;
    var w := ws[n];
    NoMatchMeansRestartable(w, r);
    if w.runs[r].reason == Some(NoMatch) {
      GoalOfUnreachedRun(w, r);
      PrerequisitesIff(w, w.runs[r].candidate, w.runs[r].goal);
    }
  }

  // ----- the round ----------------------------------------------------------

  /** A new match is of this run, for a job that was read, with the status of its verdict;
      matches that were there keep theirs. */
  ghost predicate RoundOnly(w: World, w': World, run: nat, candidate: nat, jobs: seq<nat>, verdicts: map<nat, Verdict>) {
    && (forall m :: m in w.matches ==> m in w'.matches && w'.matches[m] == w.matches[m])
    && (forall m :: m in w'.matches && m !in w.matches ==>
          && w'.matches[m].job in jobs
          && w'.matches[m] == Match(run, candidate, w'.matches[m].job, ResultFor(verdicts, w'.matches[m].job)))
  }

  /** A job nobody judged is not matched. */
  function ResultFor(verdicts: map<nat, Verdict>, job: nat): MatchStatus {
    if job in verdicts then ResultOf(verdicts[job]) else NotMatched
  }

  function ResultOf(verdict: Verdict): MatchStatus {
    match verdict
    case Filtered => FilteredOut
    case Below => NotMatched
    case Suitable => ApplicationCreated
  }

  predicate AddsMatch(v: World, w: World, run: nat, candidate: nat, job: nat, verdict: Verdict) {
    w.matches == v.matches
    || (v.db.next !in v.matches && w.matches == v.matches[v.db.next := Match(run, candidate, job, ResultOf(verdict))])
  }

  lemma RoundOnlyNext(u: World, v: World, w: World, run: nat, candidate: nat, jobs: seq<nat>, job: nat, verdicts: map<nat, Verdict>)
    requires RoundOnly(u, v, run, candidate, jobs, verdicts) && AddsMatch(v, w, run, candidate, job, VerdictOn(verdicts, job))
    ensures RoundOnly(u, w, run, candidate, jobs + [job], verdicts)
  {}

  lemma RoundOnlyNone(w: World, run: nat, candidate: nat, verdicts: map<nat, Verdict>)
    ensures RoundOnly(w, w, run, candidate, [], verdicts)
  {}

  lemma {:induction false} MatchAllRoundOnly(w: World, run: nat, candidate: nat, jobs: seq<nat>, verdicts: map<nat, Verdict>)
    requires WInv(w) && forall j :: j in jobs ==> Matchable(w, run, candidate, j)
    ensures RoundOnly(w, MatchAll(w, run, candidate, jobs, verdicts), run, candidate, jobs, verdicts)
  {
    hide WInv, MatchJob, Matchable, RoundOnly, ResultOf, ResultFor, VerdictOn, AddsMatch;
    if jobs == [] {
      RoundOnlyNone(w, run, candidate, verdicts);
    } else {
      var n := |jobs| - 1;
      var w1 := MatchAll(w, run, candidate, jobs[..n], verdicts);
      MatchAllKeeps(w, run, candidate, jobs[..n], verdicts);
      MatchAllRoundOnly(w, run, candidate, jobs[..n], verdicts);
      OneMatchMore(w1, run, candidate, jobs[n], VerdictOn(verdicts, jobs[n]));
      RoundOnlyNext(w, w1, MatchJob(w1, run, candidate, jobs[n], VerdictOn(verdicts, jobs[n])), run, candidate, jobs[..n], jobs[n], verdicts);
      assert jobs[..n] + [jobs[n]] == jobs;
    }
  }

  lemma OneMatchMore(w: World, run: nat, candidate: nat, job: nat, verdict: Verdict)
    requires WInv(w)
    ensures AddsMatch(w, MatchJob(w, run, candidate, job, verdict), run, candidate, job, verdict)
  {
    hide WInv, MatchJob, Matches, Apps, Talks, Ids;
    Tables(w);
    FreeIds(w);
    MatchJobShape(w, run, candidate, job, verdict);
  }

  lemma RunIsLoadable(w: World, run: nat, candidate: nat)
    requires WInv(w)
    ensures Loadable(w, run, candidate) <==> run in w.runs && w.runs[run].candidate == candidate
  {
    if run in w.runs {
      Tables(w);
      assert Backed(w.runs[run], w.db.resumes, w.db.profiles);
      GoalOfRun(w, run);
    }
    hide WInv;
  }

  /** A round, in every reachable state: it does nothing unless the run is the candidate's
      and running. Otherwise it adds matches for this run only, for jobs it read only,
      each with the status of its verdict, and leaves the others as they were. */
  lemma RoundDecides(ws: seq<World>, steps: seq<WorldStep>, n: nat, run: nat, candidate: nat, verdicts: map<nat, Verdict>)
    requires Trace(ws, steps) && n < |ws|
    ensures var w := ws[n]; var w' := Execute(w, run, candidate, verdicts);
      if run in w.runs && w.runs[run].candidate == candidate && w.runs[run].status == RunRunning
      then RoundOnly(w, w', run, candidate, JobInputs(w.db), verdicts) else w' == w
  {
    hide WInv, JobInputs, MatchAll, Loadable, CountApps, RoundOnly;
    TraceKeeps(ws, steps, n);
    hide Trace;
    var w := ws[n];
    RunIsLoadable(w, run, candidate);
    if Loadable(w, run, candidate) && w.runs[run].status == RunRunning {
      InputsAreMatchable(w.db);
      LoadableIsThere(w, run, candidate);
      MatchAllRoundOnly(w, run, candidate, JobInputs(w.db), verdicts);
      SameMatches(w, MatchAll(w, run, candidate, JobInputs(w.db), verdicts), Execute(w, run, candidate, verdicts), run, candidate,
        JobInputs(w.db), verdicts);
    }
  }

  lemma LoadableIsThere(w: World, run: nat, candidate: nat)
    requires Loadable(w, run, candidate)
    ensures run in w.runs && w.runs[run].candidate == candidate
  {}

  lemma SameMatches(u: World, v: World, w: World, run: nat, candidate: nat, jobs: seq<nat>, verdicts: map<nat, Verdict>)
    requires RoundOnly(u, v, run, candidate, jobs, verdicts) && w.matches == v.matches
    ensures RoundOnly(u, w, run, candidate, jobs, verdicts)
  {}

  /** And what it reads are the oldest jobs with a snapshot, at most twenty. */
  lemma RoundReadsTheOldest(ws: seq<World>, steps: seq<WorldStep>, n: nat)
    requires Trace(ws, steps) && n < |ws|
    ensures var db := ws[n].db; var ids := JobInputs(db);
      && (forall j :: j in db.snapshots ==> j in db.jobs)
      && |ids| == (if |db.snapshots.Keys| <= 20 then |db.snapshots.Keys| else 20)
      && (forall j :: j in ids ==> j in db.snapshots)
      && (forall j, k :: j in ids && k in db.snapshots && k !in ids ==>
            db.jobs[j].createdAt < db.jobs[k].createdAt || (db.jobs[j].createdAt == db.jobs[k].createdAt && j < k))
  {
    hide WInv, TaskInvariant.Inv, JobInputs, EligibleIn, Active, Counted;
    TraceKeeps(ws, steps, n);
    hide Trace;
    Tables(ws[n]);
    AddsUp(ws[n].db);
    SnapshotsAreActive(ws[n].db);
    ActiveHaveRows(ws[n].db);
    TaskDecisions.InputsByTables(ws[n].db);
  }

  lemma ActiveHaveRows(db: Db)
    ensures Active(db) <= db.jobs.Keys
  {}
}
