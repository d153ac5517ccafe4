/** What every transaction of the agent flow keeps, over all tables at once. */
module AgentInvariant {
  import opened Common
  import opened Tasks
  import TaskInvariant
  import TaskHistory
  import TaskFrame
  import opened Readiness
  import opened AgentFlow

  // ----- the tables one by one ----------------------------------------------

  ghost predicate Goals(goals: map<nat, Goal>) {
    && (forall g :: g in goals ==> goals[g].offerTarget >= 1)
    && (forall g, h :: g in goals && h in goals && g != h ==> goals[g].candidate != goals[h].candidate)
  }

  predicate Backed(run: AgentRun, resumes: map<nat, Resume>, profiles: map<nat, Profile>) {
    && run.resume in resumes && resumes[run.resume].candidate == run.candidate && !resumes[run.resume].deleted
    && resumes[run.resume].status == ParseSucceeded
    && run.profile in profiles && profiles[run.profile].resume == run.resume && profiles[run.profile].ready
  }

  ghost predicate RunsBacked(runs: map<nat, AgentRun>, resumes: map<nat, Resume>, profiles: map<nat, Profile>) {
    forall r :: r in runs ==> Backed(runs[r], resumes, profiles)
  }

  ghost predicate RunGoals(runs: map<nat, AgentRun>, goals: map<nat, Goal>) {
    && (forall r :: r in runs ==>
          && runs[r].goal in goals && goals[runs[r].goal].candidate == runs[r].candidate
          && (runs[r].status == RunRunning <==> runs[r].reason.None?))
    && (forall r, s :: r in runs && s in runs && r != s ==> runs[r].goal != runs[s].goal)
  }

  ghost predicate ReachedBy(runs: map<nat, AgentRun>, g: nat) {
    exists r :: r in runs && runs[r].goal == g && runs[r].reason == Some(OfferTargetReached)
  }

  ghost predicate GoalsReached(goals: map<nat, Goal>, runs: map<nat, AgentRun>) {
    forall g :: g in goals ==> (goals[g].status == GoalAchieved <==> ReachedBy(runs, g))
  }

  predicate MatchOk(m: Match, runs: map<nat, AgentRun>) {
    m.run in runs && m.candidate == runs[m.run].candidate && m.status != Matched
  }

  ghost predicate Matches(matches: map<nat, Match>, runs: map<nat, AgentRun>) {
    && (forall m :: m in matches ==> MatchOk(matches[m], runs))
    && (forall m, n :: m in matches && n in matches && m != n ==> matches[m].run != matches[n].run || matches[m].job != matches[n].job)
  }

  /** A matched job stays undeleted and keeps its snapshot. */
  ghost predicate MatchJobs(matches: map<nat, Match>, jobs: map<nat, Job>, snapshots: map<nat, Snapshot>) {
    forall m :: m in matches ==> matches[m].job in jobs && !jobs[matches[m].job].deleted && matches[m].job in snapshots
  }

  predicate AppOk(a: App, matches: map<nat, Match>) {
    && a.match_ in matches && matches[a.match_].status == ApplicationCreated
    && matches[a.match_].run == a.run && matches[a.match_].job == a.job && matches[a.match_].candidate == a.candidate
  }

  ghost predicate HasApp(apps: map<nat, App>, m: nat) {
    exists a :: a in apps && apps[a].match_ == m
  }

  ghost predicate Apps(apps: map<nat, App>, matches: map<nat, Match>) {
    && (forall a :: a in apps ==> AppOk(apps[a], matches))
    && (forall a, b :: a in apps && b in apps && a != b ==> apps[a].match_ != apps[b].match_)
    && (forall m :: m in matches && matches[m].status == ApplicationCreated ==> HasApp(apps, m))
  }

  ghost predicate Talks(conversations: map<nat, nat>, apps: map<nat, App>) {
    && (forall c :: c in conversations ==> conversations[c] in apps)
    && (forall c, d :: c in conversations && d in conversations && c != d ==> conversations[c] != conversations[d])
    && (forall a :: a in apps ==> HasConversation(conversations, a))
  }

  // ----- the progress log ---------------------------------------------------

  function History(events: seq<Event>, a: nat): seq<Event> {
    if events == [] then []
    else
      var n := |events| - 1;
      History(events[..n], a) + (if events[n].app == a then [events[n]] else [])
  }

  /** From nothing to submitted, then one valid transition after the other. */
  ghost predicate Chain(h: seq<Event>, status: AppStatus) {
    && h != [] && h[0].from.None? && h[0].to == Submitted && h[|h| - 1].to == status
    && (forall k :: 0 < k < |h| ==> h[k].from == Some(h[k - 1].to) && ValidTransition(h[k - 1].to, h[k].to))
  }

  ghost predicate Log(events: seq<Event>, apps: map<nat, App>) {
    && (forall i :: 0 <= i < |events| ==> events[i].app in apps)
    && (forall a :: a in apps ==> Chain(History(events, a), apps[a].status))
  }

  // ----- offers -------------------------------------------------------------

  predicate OutcomeOk(r: nat, run: AgentRun, goals: map<nat, Goal>, apps: map<nat, App>)
    requires run.goal in goals
  {
    var offers := |Offers(apps, r, run.candidate)|;
    && (run.status == RunRunning ==> offers < goals[run.goal].offerTarget)
    && (run.reason == Some(OfferTargetReached) ==> offers >= goals[run.goal].offerTarget)
    && (run.reason == Some(NoMatch) ==> AppsOf(apps, r) == {})
  }

  ghost predicate Outcomes(runs: map<nat, AgentRun>, goals: map<nat, Goal>, apps: map<nat, App>) {
    forall r :: r in runs ==> runs[r].goal in goals && OutcomeOk(r, runs[r], goals, apps)
  }

  ghost predicate Ids(w: World) {
    && (forall g :: g in w.goals ==> g < w.db.next)
    && (forall r :: r in w.runs ==> r < w.db.next)
    && (forall m :: m in w.matches ==> m < w.db.next)
    && (forall a :: a in w.apps ==> a < w.db.next)
    && (forall c :: c in w.conversations ==> c < w.db.next)
  }

  ghost predicate WInv(w: World) {
    && TaskInvariant.Inv(w.db) && Ids(w)
    && Goals(w.goals) && RunGoals(w.runs, w.goals) && GoalsReached(w.goals, w.runs)
    && RunsBacked(w.runs, w.db.resumes, w.db.profiles)
    && Matches(w.matches, w.runs) && MatchJobs(w.matches, w.db.jobs, w.db.snapshots)
    && Apps(w.apps, w.matches) && Talks(w.conversations, w.apps) && Log(w.events, w.apps)
    && Outcomes(w.runs, w.goals, w.apps)
  }

  lemma LaterKeeps(w: World, now: int)
    requires WInv(w) && now >= w.db.now
    ensures WInv(Later(w, now))
  {
    hide Goals, RunGoals, GoalsReached, RunsBacked, Matches, MatchJobs, Apps, Talks, Log, Outcomes, TaskInvariant.Inv;
    TaskInvariant.TimePasses(w.db, now);
  }

  lemma DrawId(db: Db)
    requires TaskInvariant.Inv(db)
    ensures TaskInvariant.Inv(db.(next := db.next + 1))
  {
    hide TaskInvariant.Inv;
    TaskFrame.IdsDrawn(db, db.next + 1, db.now);
    assert db.(next := db.next + 1, now := db.now) == db.(next := db.next + 1);
  }

  // ----- parsing transactions -----------------------------------------------

  lemma TaskKeepsRuns(w: World, op: Op, db': Db)
    requires TaskInvariant.Inv(w.db) && Tasks.Step(w.db, op, db') && Guarded(w, op)
    requires RunsBacked(w.runs, w.db.resumes, w.db.profiles)
    ensures RunsBacked(w.runs, db'.resumes, db'.profiles)
  {
    hide TaskInvariant.Inv, Tasks.Step;
    forall r | r in w.runs ensures Backed(w.runs[r], db'.resumes, db'.profiles) {
      TaskFrame.ParsedResumesRemain(w.db, op, db', w.runs[r].resume);
      TaskFrame.ProfilesRemain(w.db, op, db', w.runs[r].profile);
    }
  }

  lemma TaskKeepsMatches(w: World, op: Op, db': Db)
    requires TaskInvariant.Inv(w.db) && Tasks.Step(w.db, op, db') && Guarded(w, op)
    requires MatchJobs(w.matches, w.db.jobs, w.db.snapshots)
    ensures MatchJobs(w.matches, db'.jobs, db'.snapshots)
    ensures forall m :: m in w.matches ==> db'.snapshots[w.matches[m].job] == w.db.snapshots[w.matches[m].job]
  {
    hide TaskInvariant.Inv, Tasks.Step;
    forall m | m in w.matches
      ensures w.matches[m].job in db'.jobs && !db'.jobs[w.matches[m].job].deleted && w.matches[m].job in db'.snapshots
      ensures db'.snapshots[w.matches[m].job] == w.db.snapshots[w.matches[m].job]
    {
      TaskFrame.JobsRemain(w.db, op, db', w.matches[m].job);
      TaskFrame.SnapshotIsFrozen(w.db, op, db', w.matches[m].job);
    }
  }

  lemma TaskStepKeeps(w: World, op: Op, db': Db)
    requires WInv(w) && Tasks.Step(w.db, op, db') && Guarded(w, op)
    ensures WInv(w.(db := db'))
  {
    hide TaskInvariant.Inv, Tasks.Step, Goals, RunGoals, GoalsReached, RunsBacked, Matches, MatchJobs, Apps, Talks,
      Log, Outcomes;
    TaskKeepsRuns(w, op, db');
    TaskKeepsMatches(w, op, db');
    TaskFrame.CounterGrows(w.db, op, db');
    TaskHistory.StepKeeps(w.db, op, db');
  }

  // ----- goals --------------------------------------------------------------

  /** A goal changes that no run refers to. */
  lemma GoalChanges(goals: map<nat, Goal>, runs: map<nat, AgentRun>, apps: map<nat, App>, g: nat, goal: Goal)
    requires Goals(goals) && RunGoals(runs, goals) && GoalsReached(goals, runs) && Outcomes(runs, goals, apps)
    requires !HasRun(runs, goal.candidate) && goal.offerTarget >= 1 && goal.status != GoalAchieved
    requires if g in goals then goals[g].candidate == goal.candidate
             else forall h :: h in goals ==> goals[h].candidate != goal.candidate
    ensures Goals(goals[g := goal]) && RunGoals(runs, goals[g := goal])
    ensures GoalsReached(goals[g := goal], runs) && Outcomes(runs, goals[g := goal], apps)
  {
    hide Offers;
    assert forall r :: r in runs ==> runs[r].goal != g;
  }

  lemma FreeId(w: World)
    requires Ids(w)
    ensures w.db.next !in w.goals && w.db.next !in w.runs && w.db.next !in w.matches && w.db.next !in w.apps
    ensures w.db.next !in w.conversations
  {}

  /** At most the next id came into use. */
  lemma IdsAfter(w: World, w': World)
    requires Ids(w) && w'.db.next == w.db.next + 1
    requires w'.goals.Keys <= w.goals.Keys + {w.db.next} && w'.runs.Keys <= w.runs.Keys + {w.db.next}
    requires w'.matches.Keys <= w.matches.Keys + {w.db.next} && w'.apps.Keys <= w.apps.Keys + {w.db.next}
    requires w'.conversations.Keys <= w.conversations.Keys + {w.db.next}
    ensures Ids(w')
  {}

  lemma SaveGoalKeeps(w: World, candidate: nat, target: nat, title: string, filters: string)
    requires WInv(w) && 1 <= target
    ensures WInv(SaveGoal(w, candidate, target, title, filters).0)
  {
    hide TaskInvariant.Inv, Goals, RunGoals, GoalsReached, RunsBacked, Matches, MatchJobs, Apps, Talks, Log, Outcomes;
    var g := GoalOf(w.goals, candidate);
    var w' := SaveGoal(w, candidate, target, title, filters).0;
    if SaveGoal(w, candidate, target, title, filters).1 {
      FreeId(w);
      if g.Some? {
        GoalChanges(w.goals, w.runs, w.apps, g.value,
          w.goals[g.value].(offerTarget := target, title := title, filters := filters));
      } else {
        hide Ids;
        DrawId(w.db);
        GoalChanges(w.goals, w.runs, w.apps, w.db.next, Goal(candidate, target, title, filters, GoalActive));
        IdsAfter(w, w');
      }
    }
  }

  // ----- starting -----------------------------------------------------------

  lemma NewRunGoals(w: World, r: nat, run: AgentRun)
    requires Goals(w.goals) && RunGoals(w.runs, w.goals) && GoalsReached(w.goals, w.runs) && r !in w.runs
    requires run.goal in w.goals && w.goals[run.goal].candidate == run.candidate && run.status == RunRunning
    requires run.reason.None?
    requires RunOf(w.runs, run.candidate, run.goal).None?
    ensures RunGoals(w.runs[r := run], w.goals) && GoalsReached(w.goals, w.runs[r := run])
  {
    var runs := w.runs[r := run];
    forall g ensures ReachedBy(runs, g) <==> ReachedBy(w.runs, g) {
      if ReachedBy(w.runs, g) {
        var s :| s in w.runs && w.runs[s].goal == g && w.runs[s].reason == Some(OfferTargetReached);
        assert runs[s] == w.runs[s];
      }
    }
  }

  lemma NewRunApps(w: World, r: nat, run: AgentRun)
    requires Goals(w.goals) && Outcomes(w.runs, w.goals, w.apps) && Matches(w.matches, w.runs)
    requires Apps(w.apps, w.matches)
    requires r !in w.runs && run.goal in w.goals && run.status == RunRunning && run.reason.None?
    ensures Outcomes(w.runs[r := run], w.goals, w.apps) && Matches(w.matches, w.runs[r := run])
  {
    hide HasApp;
    assert forall a :: a in w.apps ==> w.apps[a].run in w.runs;
    assert Offers(w.apps, r, run.candidate) == {};
  }

  lemma StartKeeps(w: World, candidate: nat)
    requires WInv(w)
    ensures WInv(StartRun(w, candidate).0)
  {
    hide TaskInvariant.Inv, Goals, RunGoals, GoalsReached, Matches, MatchJobs, Apps, Talks, Log, Outcomes,
      EligibleIn, Restartable, Ids;
    FreeId(w);
    if StartRun(w, candidate).1.Fresh? {
      var r := w.db.next;
      var run := StartRun(w, candidate).0.runs[r];
      DrawId(w.db);
      NewRunGoals(w, r, run);
      NewRunApps(w, r, run);
      IdsAfter(w, StartRun(w, candidate).0);
    }
  }

  // ----- the matching round -------------------------------------------------

  function WithMatch(w: World, run: nat, candidate: nat, job: nat, status: MatchStatus): World {
    w.(db := w.db.(next := w.db.next + 1), matches := w.matches[w.db.next := Match(run, candidate, job, status)])
  }

  /** Match, application, creation event and conversation, all new. */
  function WithApplication(w: World, run: nat, candidate: nat, job: nat): World {
    var m := w.db.next;
    w.(db := w.db.(next := m + 3),
       matches := w.matches[m := Match(run, candidate, job, ApplicationCreated)],
       apps := w.apps[m + 1 := App(run, m, candidate, job, Submitted)],
       conversations := w.conversations[m + 2 := m + 1],
       events := w.events + [Event(m + 1, None, Submitted)])
  }

  ghost predicate Matchable(w: World, run: nat, candidate: nat, job: nat) {
    && run in w.runs && w.runs[run].candidate == candidate && w.runs[run].status == RunRunning
    && job in w.db.jobs && !w.db.jobs[job].deleted && job in w.db.snapshots
  }

  lemma NoAppYet(w: World, run: nat, job: nat)
    requires Apps(w.apps, w.matches) && MatchOf(w.matches, run, job).None?
    ensures AppOf(w.apps, run, job).None?
  {
    hide HasApp;
    forall a | a in w.apps ensures w.apps[a].run != run || w.apps[a].job != job { assert AppOk(w.apps[a], w.matches); }
  }

  lemma NoTalkYet(w: World)
    requires Ids(w) && Talks(w.conversations, w.apps)
    ensures !HasConversation(w.conversations, w.db.next + 1)
  {}

  lemma Overwritten(matches: map<nat, Match>, m: nat, row: Match, status: MatchStatus)
    ensures matches[m := row][m := row.(status := status)] == matches[m := row.(status := status)]
  {}

  lemma MatchJobShape(w: World, run: nat, candidate: nat, job: nat, verdict: Verdict)
    requires Ids(w) && Matches(w.matches, w.runs) && Apps(w.apps, w.matches) && Talks(w.conversations, w.apps)
    ensures MatchJob(w, run, candidate, job, verdict) ==
      if MatchOf(w.matches, run, job).Some? then w
      else if verdict == Suitable then WithApplication(w, run, candidate, job)
      else WithMatch(w, run, candidate, job, StatusOf(verdict))
  {
    hide Ids, Apps, Talks, HasConversation;
    if MatchOf(w.matches, run, job).Some? {
      assert MatchOk(w.matches[MatchOf(w.matches, run, job).value], w.runs);
    } else if verdict == Suitable {
      hide Matches;
      NoAppYet(w, run, job);
      NoTalkYet(w);
      Overwritten(w.matches, w.db.next, Match(run, candidate, job, Matched), ApplicationCreated);
    }
  }

  lemma NewMatchTables(w: World, m: nat, row: Match)
    requires Matches(w.matches, w.runs) && MatchJobs(w.matches, w.db.jobs, w.db.snapshots)
    requires Matchable(w, row.run, row.candidate, row.job) && row.status != Matched && m !in w.matches
    requires MatchOf(w.matches, row.run, row.job).None?
    ensures Matches(w.matches[m := row], w.runs) && MatchJobs(w.matches[m := row], w.db.jobs, w.db.snapshots)
  {}

  lemma NewMatchApps(apps: map<nat, App>, matches: map<nat, Match>, m: nat, row: Match)
    requires Apps(apps, matches) && m !in matches && row.status != ApplicationCreated
    ensures Apps(apps, matches[m := row])
  {
    hide HasApp;
  }

  lemma WithMatchKeeps(w: World, run: nat, candidate: nat, job: nat, status: MatchStatus)
    requires WInv(w) && Matchable(w, run, candidate, job) && MatchOf(w.matches, run, job).None?
    requires status == FilteredOut || status == NotMatched
    ensures WInv(WithMatch(w, run, candidate, job, status))
  {
    hide TaskInvariant.Inv, Goals, RunGoals, GoalsReached, RunsBacked, Matches, MatchJobs, Apps, Talks, Log,
      Outcomes, Ids;
    FreeId(w);
    DrawId(w.db);
    NewMatchTables(w, w.db.next, Match(run, candidate, job, status));
    NewMatchApps(w.apps, w.matches, w.db.next, Match(run, candidate, job, status));
    IdsAfter(w, WithMatch(w, run, candidate, job, status));
  }

  lemma NewAppTables(apps: map<nat, App>, matches: map<nat, Match>, a: nat, m: nat, run: nat, candidate: nat, job: nat)
    requires Apps(apps, matches) && m !in matches && a !in apps
    ensures Apps(apps[a := App(run, m, candidate, job, Submitted)], matches[m := Match(run, candidate, job, ApplicationCreated)])
  {
    var apps' := apps[a := App(run, m, candidate, job, Submitted)];
    assert apps'[a].match_ == m;
    forall n | HasApp(apps, n) ensures HasApp(apps', n) {
      var b :| b in apps && apps[b].match_ == n;
      assert apps'[b] == apps[b];
    }
  }

  lemma NewTalk(conversations: map<nat, nat>, apps: map<nat, App>, c: nat, a: nat, app: App)
    requires Talks(conversations, apps) && c !in conversations && a !in apps
    ensures Talks(conversations[c := a], apps[a := app])
  {
    var talks := conversations[c := a];
    assert talks[c] == a;
    forall b | HasConversation(conversations, b) ensures HasConversation(talks, b) {
      var d :| d in conversations && conversations[d] == b;
      assert talks[d] == b;
    }
  }

  lemma HistoryAppends(events: seq<Event>, e: Event, a: nat)
    ensures History(events + [e], a) == History(events, a) + (if e.app == a then [e] else [])
  {
    assert (events + [e])[..|events|] == events;
  }

  lemma {:induction false} NoHistory(events: seq<Event>, a: nat)
    requires forall i :: 0 <= i < |events| ==> events[i].app != a
    ensures History(events, a) == []
  {
    if events != [] { NoHistory(events[..|events| - 1], a); }
  }

  lemma NewLog(events: seq<Event>, apps: map<nat, App>, a: nat, app: App)
    requires Log(events, apps) && a !in apps && app.status == Submitted
    ensures Log(events + [Event(a, None, Submitted)], apps[a := app])
  {
    hide History, Chain;
    var e := Event(a, None, Submitted);
    NoHistory(events, a);
    forall b | b in apps[a := app] ensures Chain(History(events + [e], b), apps[a := app][b].status) {
      HistoryAppends(events, e, b);
      if b == a {
        FirstLink(e);
        assert History(events + [e], a) == [e];
      } else {
        assert History(events + [e], b) == History(events, b);
      }
    }
  }

  lemma FirstLink(e: Event)
    requires e.from.None? && e.to == Submitted
    ensures Chain([e], Submitted)
  {}

  lemma NewOutcomes(runs: map<nat, AgentRun>, goals: map<nat, Goal>, apps: map<nat, App>, a: nat, app: App)
    requires Outcomes(runs, goals, apps) && RunGoals(runs, goals) && a !in apps
    requires app.status == Submitted && app.run in runs && runs[app.run].status == RunRunning
    ensures Outcomes(runs, goals, apps[a := app])
  {
    forall r | r in runs ensures OutcomeOk(r, runs[r], goals, apps[a := app]) {
      assert OutcomeOk(r, runs[r], goals, apps);
      assert Offers(apps[a := app], r, runs[r].candidate) == Offers(apps, r, runs[r].candidate);
      if r != app.run { assert AppsOf(apps[a := app], r) == AppsOf(apps, r); }
    }
  }

  lemma ThreeIds(db: Db)
    requires TaskInvariant.Inv(db)
    ensures TaskInvariant.Inv(db.(next := db.next + 3))
  {
    hide TaskInvariant.Inv;
    TaskFrame.IdsDrawn(db, db.next + 3, db.now);
    assert db.(next := db.next + 3, now := db.now) == db.(next := db.next + 3);
  }

  lemma FreeIds(w: World)
    requires Ids(w)
    ensures w.db.next !in w.matches && w.db.next + 1 !in w.apps && w.db.next + 2 !in w.conversations
  {}

  lemma ThreeIdsUsed(w: World, run: nat, candidate: nat, job: nat)
    requires Ids(w)
    ensures Ids(WithApplication(w, run, candidate, job))
  {}

  lemma WithApplicationKeeps(w: World, run: nat, candidate: nat, job: nat)
    requires WInv(w) && Matchable(w, run, candidate, job) && MatchOf(w.matches, run, job).None?
    ensures WInv(WithApplication(w, run, candidate, job))
  {
    hide TaskInvariant.Inv, Goals, RunGoals, GoalsReached, RunsBacked, Matches, MatchJobs, Apps, Talks, Log,
      Outcomes, Ids;
    var m := w.db.next;
    var app := App(run, m, candidate, job, Submitted);
    FreeIds(w);
    ThreeIds(w.db);
    ThreeIdsUsed(w, run, candidate, job);
    NewMatchTables(w, m, Match(run, candidate, job, ApplicationCreated));
    NewAppTables(w.apps, w.matches, m + 1, m, run, candidate, job);
    NewTalk(w.conversations, w.apps, m + 2, m + 1, app);
    NewLog(w.events, w.apps, m + 1, app);
    NewOutcomes(w.runs, w.goals, w.apps, m + 1, app);
  }

  lemma MatchJobKeeps(w: World, run: nat, candidate: nat, job: nat, verdict: Verdict)
    requires WInv(w) && Matchable(w, run, candidate, job)
    ensures var w' := MatchJob(w, run, candidate, job, verdict);
      && WInv(w') && w'.runs == w.runs && w'.goals == w.goals && w'.db.jobs == w.db.jobs && w'.db.snapshots == w.db.snapshots
  {
    MatchJobShape(w, run, candidate, job, verdict);
    hide WInv, MatchJob;
    if MatchOf(w.matches, run, job).None? {
      if verdict == Suitable { WithApplicationKeeps(w, run, candidate, job); }
      else { WithMatchKeeps(w, run, candidate, job, StatusOf(verdict)); }
    }
  }

  lemma {:induction false} MatchAllKeeps(w: World, run: nat, candidate: nat, jobs: seq<nat>, verdicts: map<nat,
        Verdict>)
    requires WInv(w) && forall j :: j in jobs ==> Matchable(w, run, candidate, j)
    ensures var w' := MatchAll(w, run, candidate, jobs, verdicts);
      && WInv(w') && w'.runs == w.runs && w'.goals == w.goals && w'.db.jobs == w.db.jobs && w'.db.snapshots == w.db.snapshots
  {
    hide WInv, MatchJob;
    if jobs != [] {
      var n := |jobs| - 1;
      MatchAllKeeps(w, run, candidate, jobs[..n], verdicts);
      assert Matchable(w, run, candidate, jobs[n]);
      MatchJobKeeps(MatchAll(w, run, candidate, jobs[..n], verdicts), run, candidate, jobs[n], VerdictOn(verdicts, jobs[n]));
    }
  }

  /** A run changes its outcome and nothing else. */
  lemma FinishKeepsTables(w: World, run: nat, reason: FinishReason)
    requires RunsBacked(w.runs, w.db.resumes, w.db.profiles) && RunGoals(w.runs, w.goals)
    requires Matches(w.matches, w.runs) && run in w.runs
    ensures var runs := FinishRun(w, run, reason).runs;
      RunsBacked(runs, w.db.resumes, w.db.profiles) && RunGoals(runs, w.goals) && Matches(w.matches, runs)
  {}

  lemma NoMatchGoals(w: World, run: nat)
    requires GoalsReached(w.goals, w.runs) && RunGoals(w.runs, w.goals) && run in w.runs
    requires w.runs[run].status == RunRunning
    ensures GoalsReached(w.goals, FinishRun(w, run, NoMatch).runs)
  {
    var runs := FinishRun(w, run, NoMatch).runs;
    forall g ensures ReachedBy(runs, g) <==> ReachedBy(w.runs, g) {
      if ReachedBy(w.runs, g) {
        var s :| s in w.runs && w.runs[s].goal == g && w.runs[s].reason == Some(OfferTargetReached);
        assert runs[s] == w.runs[s];
      }
    }
  }

  lemma NoMatchOutcomes(w: World, run: nat)
    requires Outcomes(w.runs, w.goals, w.apps) && run in w.runs && AppsOf(w.apps, run) == {}
    ensures Outcomes(FinishRun(w, run, NoMatch).runs, w.goals, w.apps)
  {
    hide Offers;
  }

  lemma NoApps(w: World, run: nat, candidate: nat)
    requires Apps(w.apps, w.matches) && Matches(w.matches, w.runs) && run in w.runs
    requires w.runs[run].candidate == candidate
    ensures CountApps(w, run, candidate) == 0 <==> AppsOf(w.apps, run) == {}
  {
    hide HasApp;
    forall a | a in w.apps && w.apps[a].run == run ensures w.apps[a].candidate == candidate {
      assert AppOk(w.apps[a], w.matches);
    }
    assert (set a | a in w.apps && w.apps[a].run == run && w.apps[a].candidate == candidate) == AppsOf(w.apps, run);
  }

  lemma NoMatchKeeps(w: World, run: nat)
    requires WInv(w) && run in w.runs && w.runs[run].status == RunRunning && AppsOf(w.apps, run) == {}
    ensures WInv(FinishRun(w, run, NoMatch))
  {
    hide TaskInvariant.Inv, Goals, RunGoals, GoalsReached, RunsBacked, Matches, MatchJobs, Apps, Talks, Log, Outcomes;
    FinishKeepsTables(w, run, NoMatch);
    NoMatchGoals(w, run);
    NoMatchOutcomes(w, run);
  }

  lemma InputsAreMatchable(db: Db)
    ensures forall j :: j in JobInputs(db) ==> j in db.jobs && !db.jobs[j].deleted && j in db.snapshots
  {
    hide LatestIs;
    AgesDiffer(db, EligibleIn(db, Active(db)));
    assert forall j :: j in JobInputs(db) ==> j in EligibleIn(db, Active(db));
  }

  lemma ExecuteKeeps(w: World, run: nat, candidate: nat, verdicts: map<nat, Verdict>)
    requires WInv(w)
    ensures WInv(Execute(w, run, candidate, verdicts))
  {
    if Loadable(w, run, candidate) && w.runs[run].status == RunRunning {
      InputsAreMatchable(w.db);
      hide WInv, JobInputs, MatchAll, CountApps;
      var w1 := MatchAll(w, run, candidate, JobInputs(w.db), verdicts);
      MatchAllKeeps(w, run, candidate, JobInputs(w.db), verdicts);
      if CountApps(w1, run, candidate) == 0 {
        Tables(w1);
        NoApps(w1, run, candidate);
        NoMatchKeeps(w1, run);
      }
    }
  }

  lemma Tables(w: World)
    requires WInv(w)
    ensures Apps(w.apps, w.matches) && Matches(w.matches, w.runs) && RunGoals(w.runs, w.goals) && Ids(w)
    ensures Talks(w.conversations, w.apps) && Log(w.events, w.apps) && Outcomes(w.runs, w.goals, w.apps)
    ensures RunsBacked(w.runs, w.db.resumes, w.db.profiles) && MatchJobs(w.matches, w.db.jobs, w.db.snapshots)
    ensures Goals(w.goals) && GoalsReached(w.goals, w.runs) && TaskInvariant.Inv(w.db)
  {}

  // ----- application progress -----------------------------------------------

  lemma MovedTables(w: World, a: nat, status: AppStatus)
    requires Apps(w.apps, w.matches) && Talks(w.conversations, w.apps) && a in w.apps
    ensures var apps := Moved(w, a, status).apps; Apps(apps, w.matches) && Talks(w.conversations, apps)
  {
    hide HasConversation;
    var apps := Moved(w, a, status).apps;
    forall m | HasApp(w.apps, m) ensures HasApp(apps, m) {
      var b :| b in w.apps && w.apps[b].match_ == m;
      assert apps[b].match_ == m;
    }
  }

  lemma ChainGrows(h: seq<Event>, a: nat, old_: AppStatus, status: AppStatus)
    requires Chain(h, old_) && ValidTransition(old_, status)
    ensures Chain(h + [Event(a, Some(old_), status)], status)
  {}

  lemma MovedLog(w: World, a: nat, status: AppStatus)
    requires Log(w.events, w.apps) && a in w.apps && ValidTransition(w.apps[a].status, status)
    ensures var w1 := Moved(w, a, status); Log(w1.events, w1.apps)
  {
    hide History, Chain;
    var w1 := Moved(w, a, status);
    var e := Event(a, Some(w.apps[a].status), status);
    forall b | b in w1.apps ensures Chain(History(w1.events, b), w1.apps[b].status) {
      HistoryAppends(w.events, e, b);
      if b == a {
        ChainGrows(History(w.events, a), a, w.apps[a].status, status);
      } else {
        assert History(w1.events, b) == History(w.events, b);
      }
    }
  }

  lemma OfferCounts(w: World, a: nat, status: AppStatus, r: nat, candidate: nat)
    requires a in w.apps && w.apps[a].status != Offer
    ensures var apps := Moved(w, a, status).apps;
      && AppsOf(apps, r) == AppsOf(w.apps, r)
      && |Offers(apps, r, candidate)| == |Offers(w.apps, r, candidate)|
           + (if status == Offer && w.apps[a].run == r && w.apps[a].candidate == candidate then 1 else 0)
  {
    var apps := Moved(w, a, status).apps;
    var before := Offers(w.apps, r, candidate);
    if status == Offer && w.apps[a].run == r && w.apps[a].candidate == candidate {
      assert a !in before;
      assert Offers(apps, r, candidate) == before + {a};
    } else {
      assert Offers(apps, r, candidate) == before;
    }
  }

  lemma MovedOutcomes(w: World, a: nat, status: AppStatus)
    requires Outcomes(w.runs, w.goals, w.apps) && a in w.apps && ValidTransition(w.apps[a].status, status)
    requires status != Offer
    ensures Outcomes(w.runs, w.goals, Moved(w, a, status).apps)
  {
    var apps := Moved(w, a, status).apps;
    forall r | r in w.runs ensures OutcomeOk(r, w.runs[r], w.goals, apps) {
      assert OutcomeOk(r, w.runs[r], w.goals, w.apps);
      OfferCounts(w, a, status, r, w.runs[r].candidate);
    }
  }

  lemma MovedKeeps(w: World, a: nat, status: AppStatus)
    requires WInv(w) && a in w.apps && ValidTransition(w.apps[a].status, status) && status != Offer
    ensures WInv(Moved(w, a, status))
  {
    hide TaskInvariant.Inv, Goals, RunGoals, GoalsReached, RunsBacked, Matches, MatchJobs, Apps, Talks, Log, Outcomes;
    MovedTables(w, a, status);
    MovedLog(w, a, status);
    MovedOutcomes(w, a, status);
  }

  // ----- offers -------------------------------------------------------------

  /** The run of an application, with the candidate and the goal they share. */
  lemma AppRun(w: World, a: nat)
    requires WInv(w) && a in w.apps
    ensures w.apps[a].run in w.runs && w.apps[a].candidate == w.runs[w.apps[a].run].candidate
    ensures w.runs[w.apps[a].run].goal in w.goals
    ensures w.apps[a].match_ in w.matches && w.matches[w.apps[a].match_].job == w.apps[a].job
    ensures w.runs[w.apps[a].run].reason != Some(NoMatch)
  {
    Tables(w);
    hide WInv, HasApp, MatchJobs, Talks, Log, RunsBacked, Goals, GoalsReached;
    assert AppOk(w.apps[a], w.matches) && MatchOk(w.matches[w.apps[a].match_], w.runs);
    var run := w.apps[a].run;
    assert OutcomeOk(run, w.runs[run], w.goals, w.apps);
    assert a in AppsOf(w.apps, run);
  }

  /** One more offer: the count grows by one, and it reaches the target exactly when
      a running run finishes. */
  lemma OfferArrives(w: World, a: nat)
    requires WInv(w) && a in w.apps && ValidTransition(w.apps[a].status, Offer)
    ensures w.apps[a].run in w.runs && w.runs[w.apps[a].run].goal in w.goals
    ensures var run := w.apps[a].run; var target := w.goals[w.runs[run].goal].offerTarget;
      var before := |Offers(w.apps, run, w.apps[a].candidate)|;
      var after := |Offers(Moved(w, a, Offer).apps, run, w.apps[a].candidate)|;
      && after == before + 1
      && (w.runs[run].status == RunRunning ==> after <= target)
      && (w.runs[run].status == RunRunning && after >= target ==> after == target)
  {
    AppRun(w, a);
    Tables(w);
    hide WInv;
    var run := w.apps[a].run;
    assert OutcomeOk(run, w.runs[run], w.goals, w.apps);
    OfferCounts(w, a, Offer, run, w.apps[a].candidate);
  }

  lemma OfferNumbers(w: World, a: nat, r: nat)
    requires WInv(w) && a in w.apps && ValidTransition(w.apps[a].status, Offer) && r in w.runs
    ensures w.apps[a].run in w.runs && w.runs[r].goal in w.goals
    ensures w.apps[a].candidate == w.runs[w.apps[a].run].candidate
    ensures w.runs[w.apps[a].run].reason != Some(NoMatch)
    ensures OutcomeOk(r, w.runs[r], w.goals, w.apps)
    ensures var apps := Moved(w, a, Offer).apps;
      && AppsOf(apps, r) == AppsOf(w.apps, r)
      && |Offers(apps, r, w.runs[r].candidate)| == |Offers(w.apps, r, w.runs[r].candidate)| + (if w.apps[a].run == r then 1 else 0)
  {
    AppRun(w, a);
    Tables(w);
    hide WInv, Goals, RunGoals, Matches, Apps, Talks, Log, RunsBacked, MatchJobs, GoalsReached, OutcomeOk;
    OfferCounts(w, a, Offer, r, w.runs[r].candidate);
  }

  lemma OfferOutcome(w: World, a: nat, r: nat)
    requires WInv(w) && a in w.apps && ValidTransition(w.apps[a].status, Offer)
    requires w.apps[a].run in w.runs && w.runs[w.apps[a].run].goal in w.goals && r in w.runs
    ensures var w' := SettleOffer(Moved(w, a, Offer), a);
      r in w'.runs && w'.runs[r].goal in w'.goals && OutcomeOk(r, w'.runs[r], w'.goals, w'.apps)
  {
    hide WInv, Offers, AppsOf, ValidTransition;
    OfferNumbers(w, a, r);
    var w' := SettleOffer(Moved(w, a, Offer), a);
    assert w'.apps == Moved(w, a, Offer).apps;
    assert w'.goals[w.runs[r].goal].offerTarget == w.goals[w.runs[r].goal].offerTarget;
    if r != w.apps[a].run {
      assert w'.runs[r] == w.runs[r];
    }
  }

  lemma OfferOutcomes(w: World, a: nat)
    requires WInv(w) && a in w.apps && ValidTransition(w.apps[a].status, Offer)
    requires w.apps[a].run in w.runs && w.runs[w.apps[a].run].goal in w.goals
    ensures var w' := SettleOffer(Moved(w, a, Offer), a); Outcomes(w'.runs, w'.goals, w'.apps)
  {
    hide WInv, OutcomeOk, Offers;
    var w' := SettleOffer(Moved(w, a, Offer), a);
    forall r | r in w'.runs ensures w'.runs[r].goal in w'.goals && OutcomeOk(r, w'.runs[r], w'.goals, w'.apps) {
      OfferOutcome(w, a, r);
    }
  }

  lemma OfferReaches(w: World, a: nat)
    requires RunGoals(w.runs, w.goals) && GoalsReached(w.goals, w.runs)
    requires a in w.apps && w.apps[a].run in w.runs && w.runs[w.apps[a].run].goal in w.goals
    ensures var w' := SettleOffer(w, a); RunGoals(w'.runs, w'.goals) && GoalsReached(w'.goals, w'.runs)
  {
    hide Offers;
    var w' := SettleOffer(w, a);
    var run := w.apps[a].run;
    forall g ensures ReachedBy(w'.runs, g) <==> ReachedBy(w.runs, g) || (w'.runs != w.runs && g == w.runs[run].goal) {
      if ReachedBy(w.runs, g) {
        var s :| s in w.runs && w.runs[s].goal == g && w.runs[s].reason == Some(OfferTargetReached);
        assert w'.runs[s].goal == g && w'.runs[s].reason == Some(OfferTargetReached);
      }
      if w'.runs != w.runs { assert w'.runs[run].reason == Some(OfferTargetReached); }
    }
    hide ReachedBy;
  }

  lemma OfferGoals(w: World, a: nat)
    requires Goals(w.goals) && RunGoals(w.runs, w.goals) && GoalsReached(w.goals, w.runs)
    requires RunsBacked(w.runs, w.db.resumes, w.db.profiles) && Matches(w.matches, w.runs)
    requires a in w.apps && w.apps[a].run in w.runs && w.runs[w.apps[a].run].goal in w.goals
    ensures var w' := SettleOffer(w, a);
      Goals(w'.goals) && RunGoals(w'.runs, w'.goals) && GoalsReached(w'.goals, w'.runs)
      && RunsBacked(w'.runs, w'.db.resumes, w'.db.profiles) && Matches(w'.matches, w'.runs)
  {
    hide Offers, GoalsReached, RunGoals;
    OfferReaches(w, a);
  }

  lemma OfferKeeps(w: World, a: nat)
    requires WInv(w) && a in w.apps && ValidTransition(w.apps[a].status, Offer)
    requires w.apps[a].run in w.runs && w.runs[w.apps[a].run].goal in w.goals
    ensures WInv(SettleOffer(Moved(w, a, Offer), a))
  {
    hide TaskInvariant.Inv, Goals, RunGoals, GoalsReached, RunsBacked, Matches, MatchJobs, Apps, Talks, Log,
      Outcomes, Offers;
    MovedTables(w, a, Offer);
    MovedLog(w, a, Offer);
    OfferGoals(Moved(w, a, Offer), a);
    OfferOutcomes(w, a);
  }

  lemma UpdateKeeps(w: World, a: nat, hr: nat, status: AppStatus)
    requires WInv(w)
    ensures WInv(UpdateStatus(w, a, hr, status).0)
  {
    hide WInv, SettleOffer, Moved;
    if UpdateStatus(w, a, hr, status).1 == Changed {
      if status == Offer { OfferKeeps(w, a); } else { MovedKeeps(w, a, status); }
    }
  }

  // ----- every run ----------------------------------------------------------

  lemma {:induction false} RoundKeepsClock(w: World, run: nat, candidate: nat, jobs: seq<nat>, verdicts: map<nat,
        Verdict>)
    ensures MatchAll(w, run, candidate, jobs, verdicts).db.now == w.db.now
  {
    hide MatchJob;
    if jobs != [] {
      var n := |jobs| - 1;
      RoundKeepsClock(w, run, candidate, jobs[..n], verdicts);
      MatchKeepsClock(MatchAll(w, run, candidate, jobs[..n], verdicts), run, candidate, jobs[n], VerdictOn(verdicts, jobs[n]));
    }
  }

  lemma MatchKeepsClock(w: World, run: nat, candidate: nat, job: nat, verdict: Verdict)
    ensures MatchJob(w, run, candidate, job, verdict).db.now == w.db.now
  {
    hide EnsureApplication;
    var existing := MatchOf(w.matches, run, job);
    if existing.Some? {
      EnsureKeepsClock(w, existing.value);
    } else {
      var m := w.db.next;
      EnsureKeepsClock(w.(db := w.db.(next := m + 1), matches := w.matches[m := Match(run, candidate, job, StatusOf(verdict))]), m);
    }
  }

  lemma EnsureKeepsClock(w: World, m: nat)
    requires m in w.matches
    ensures EnsureApplication(w, m).db.now == w.db.now
  {
    hide HasConversation;
  }

  lemma ClockUntouched(w: World, step: WorldStep)
    requires !step.TaskStep?
    ensures Perform(w, step).db.now == w.db.now
  {
    if step.ExecuteStep? { RoundKeepsClock(w, step.run, step.candidate, JobInputs(w.db), step.verdicts); }
  }

  lemma StepKeeps(w: World, step: WorldStep, w': World)
    requires WInv(w) && Transition(w, step, w')
    ensures WInv(w')
  {
    hide WInv, SaveGoal, StartRun, Execute, UpdateStatus;
    match step {
      case TaskStep(op) => TaskStepKeeps(w, op, w'.db);
      case SaveGoalStep(candidate, target, title, filters) => SaveGoalKeeps(w, candidate, target, title, filters);
      case StartStep(candidate) => StartKeeps(w, candidate);
      case ExecuteStep(run, candidate, verdicts) => ExecuteKeeps(w, run, candidate, verdicts);
      case UpdateStep(a, hr, status) => UpdateKeeps(w, a, hr, status);
    }
    if !step.TaskStep? {
      ClockUntouched(w, step);
      LaterKeeps(Perform(w, step), w'.db.now);
    }
  }

  lemma NothingIsFine()
    ensures WInv(Nothing)
  {}

  lemma {:induction false} TraceKeeps(ws: seq<World>, steps: seq<WorldStep>, n: nat)
    requires Trace(ws, steps) && n < |ws|
    ensures WInv(ws[n])
  {
    hide WInv, Transition;
    if n == 0 {
      NothingIsFine();
    } else {
      TraceKeeps(ws, steps, n - 1);
      StepKeeps(ws[n - 1], steps[n - 1], ws[n]);
    }
  }
}
