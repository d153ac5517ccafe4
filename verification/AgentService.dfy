/** The services of the agent flow as the source writes them, proved to take exactly the
    transactions of the model. */
module AgentService {
  import opened Common
  import opened Tasks
  import TaskInvariant
  import opened Readiness
  import opened AgentFlow
  import opened AgentInvariant

  lemma GoalIs(w: World, candidate: nat, g: nat)
    requires WInv(w) && g in w.goals && w.goals[g].candidate == candidate
    ensures GoalOf(w.goals, candidate) == Some(g)
  {
    Tables(w);
    hide WInv;
  }

  lemma RunIs(w: World, candidate: nat, goal: nat, r: nat)
    requires WInv(w) && r in w.runs && w.runs[r].candidate == candidate && w.runs[r].goal == goal
    ensures RunOf(w.runs, candidate, goal) == Some(r)
  {
    Tables(w);
    hide WInv;
  }

  lemma ProfileIs(w: World, resume: nat, p: nat)
    requires WInv(w) && p in w.db.profiles && w.db.profiles[p].resume == resume
    ensures ProfileOf(w.db.profiles, resume) == Some(p)
  {
    Tables(w);
    hide WInv;
    OneProfile(w.db, p, ProfileOf(w.db.profiles, resume).value);
  }

  lemma OneProfile(db: Db, p: nat, q: nat)
    requires TaskInvariant.Inv(db) && p in db.profiles && q in db.profiles
    requires db.profiles[p].resume == db.profiles[q].resume
    ensures p == q
  {}

  lemma MatchIs(w: World, run: nat, job: nat, m: nat)
    requires WInv(w) && m in w.matches && w.matches[m].run == run && w.matches[m].job == job
    ensures MatchOf(w.matches, run, job) == Some(m)
  {
    Tables(w);
    hide WInv;
  }

  class AgentTables {
    var db: Db
    var goals: map<nat, Goal>
    var runs: map<nat, AgentRun>
    var matches: map<nat, Match>
    var apps: map<nat, App>
    var conversations: map<nat, nat>
    var events: seq<Event>

    function Rows(): World
      reads this
    {
      World(db, goals, runs, matches, apps, conversations, events)
    }

    constructor ()
      ensures Rows() == Nothing
    {
      db, goals, runs, matches, apps := Empty, map[], map[], map[], map[];
      conversations, events := map[], [];
    }

    method FreshId() returns (id: nat)
      modifies this`db
      ensures id == old(db.next) && db == old(db).(next := old(db.next) + 1)
    {
      id := db.next;
      db := db.(next := id + 1);
    }

    // ----- JobGoalService ---------------------------------------------------

    method SaveCurrent(candidate: nat, target: nat, title: string, filters: string) returns (ok: bool)
      requires WInv(Rows())
      modifies this`db, this`goals
      ensures (Rows(), ok) == SaveGoal(old(Rows()), candidate, target, title, filters)
    {
      hide WInv;
      if r :| r in runs && runs[r].candidate == candidate {
        return false;
      }
      if g :| g in goals && goals[g].candidate == candidate {
        GoalIs(Rows(), candidate, g);
        if goals[g].status != GoalActive {
          return false;
        }
        goals := goals[g := goals[g].(offerTarget := target, title := title, filters := filters)];
        return true;
      }
      assert GoalOf(goals, candidate).None?;
      var id := FreshId();
      goals := goals[id := Goal(candidate, target, title, filters, GoalActive)];
      return true;
    }

    // ----- AgentRunService --------------------------------------------------

    /** `_has_prerequisites` over the locked rows; the profile comes back for reuse. */
    method Prepared(candidate: nat) returns (goal: Option<nat>, profile: Option<nat>, ready: bool)
      requires WInv(Rows())
      ensures goal == GoalOf(goals, candidate)
      ensures CurrentResume(db, candidate) ==> profile == ProfileOf(db.profiles, db.current[candidate])
      ensures ready <==> Prerequisites(Rows(), candidate)
    {
      hide WInv;
      goal, profile := None, None;
      if g :| g in goals && goals[g].candidate == candidate {
        GoalIs(Rows(), candidate, g);
        goal := Some(g);
      }
      if CurrentResume(db, candidate) {
        if p :| p in db.profiles && db.profiles[p].resume == db.current[candidate] {
          ProfileIs(Rows(), db.current[candidate], p);
          profile := Some(p);
        }
      }
      var readiness := GetJobReadiness(db);
      assert readiness.eligible > 0 <==> EligibleIn(db, Readiness.Active(db)) != {};
      ready := goal.Some? && goals[goal.value].status == GoalActive
        && CurrentResume(db, candidate) && db.resumes[db.current[candidate]].status == ParseSucceeded
        && profile.Some? && db.profiles[profile.value].ready && readiness.eligible > 0;
    }

    /** The first transaction of `start`. */
    method Start(candidate: nat) returns (outcome: Started)
      requires WInv(Rows())
      modifies this`db, this`runs
      ensures (Rows(), outcome) == StartRun(old(Rows()), candidate)
    {
      hide WInv, Prerequisites;
      var goal, profile, ready := Prepared(candidate);
      var existing: Option<nat> := None;
      if goal.Some? {
        if r :| r in runs && runs[r].candidate == candidate && runs[r].goal == goal.value {
          RunIs(Rows(), candidate, goal.value, r);
          existing := Some(r);
        } else {
          assert RunOf(runs, candidate, goal.value).None?;
        }
      }
      if existing.Some? && !(Restartable(Rows(), existing.value) && ready) {
        return Existing(existing.value);
      }
      if !ready {
        return NotReady;
      }
      if existing.Some? {
        return Rejected;
      }
      PreparedMeans(Rows(), candidate);
      var r := FreshId();
      runs := runs[r := AgentRun(candidate, goal.value, db.current[candidate], profile.value, db.now, RunRunning, None)];
      return Fresh(r);
    }

    // ----- MatchingRepository and MatchingService.execute -------------------

    method EnsureTalk(a: nat)
      modifies this`db, this`conversations
      ensures Rows() == EnsureConversation(old(Rows()), a)
    {
      if c :| c in conversations && conversations[c] == a {
        return;
      }
      var c := FreshId();
      conversations := conversations[c := a];
    }

    method EnsureApp(m: nat)
      requires m in matches
      requires forall a, b :: a in apps && b in apps && a != b ==> apps[a].run != apps[b].run || apps[a].job != apps[b].job
      modifies this`db, this`matches, this`apps, this`conversations, this`events
      ensures Rows() == EnsureApplication(old(Rows()), m)
    {
      var row := matches[m];
      if a :| a in apps && apps[a].run == row.run && apps[a].job == row.job {
        assert AppOf(apps, row.run, row.job) == Some(a);
        if row.status == Matched {
          matches := matches[m := row.(status := ApplicationCreated)];
        }
        EnsureTalk(a);
        return;
      }
      assert AppOf(apps, row.run, row.job).None?;
      var a := FreshId();
      apps := apps[a := App(row.run, m, row.candidate, row.job, Submitted)];
      events := events + [Event(a, None, Submitted)];
      matches := matches[m := row.(status := ApplicationCreated)];
      EnsureTalk(a);
    }

    /** The body of the loop of `execute`. */
    method MatchOne(run: nat, candidate: nat, job: nat, verdict: Verdict)
      requires WInv(Rows())
      modifies this`db, this`matches, this`apps, this`conversations, this`events
      ensures Rows() == MatchJob(old(Rows()), run, candidate, job, verdict)
    {
      hide WInv, EnsureApplication;
      OneAppEach(Rows());
      if m :| m in matches && matches[m].run == run && matches[m].job == job {
        MatchIs(Rows(), run, job, m);
        if matches[m].status == Matched {
          EnsureApp(m);
        }
        return;
      }
      assert MatchOf(matches, run, job).None?;
      var m := FreshId();
      matches := matches[m := Match(run, candidate, job, StatusOf(verdict))];
      if verdict == Suitable {
        EnsureApp(m);
      }
    }

    method ExecuteRound(run: nat, candidate: nat, verdicts: map<nat, Verdict>)
      requires WInv(Rows())
      modifies this
      ensures Rows() == Execute(old(Rows()), run, candidate, verdicts)
    {
      hide WInv, MatchJob, Loadable, JobInputs, CountApps;
      ghost var was := Rows();
      if !Loadable(Rows(), run, candidate) {
        return;
      }
      RoundSoFar(was, run, candidate, verdicts, 0);
      if runs[run].status != RunRunning {
        return;
      }
      var jobs, summary := LoadJobInputs(db);
      for i := 0 to |jobs|
        invariant WInv(Rows()) && runs == was.runs
        invariant Rows() == MatchAll(was, run, candidate, jobs[..i], verdicts)
      {
        assert jobs[..i + 1][..i] == jobs[..i];
        MatchOne(run, candidate, jobs[i], VerdictOn(verdicts, jobs[i]));
        RoundSoFar(was, run, candidate, verdicts, i + 1);
      }
      assert jobs[..|jobs|] == jobs;
      if CountApps(Rows(), run, candidate) == 0 {
        runs := runs[run := runs[run].(status := RunFinished, reason := Some(NoMatch))];
      }
    }

    // ----- ApplicationService.update_status ---------------------------------

    method Update(a: nat, hr: nat, status: AppStatus) returns (outcome: Updated)
      modifies this`apps, this`events, this`runs, this`goals
      ensures (Rows(), outcome) == UpdateStatus(old(Rows()), a, hr, status)
    {
      hide LatestRun, ValidTransition, Offers;
      if !HrRecord(Rows(), a, hr) {
        return NotFound;
      }
      var current := apps[a].status;
      if current == status {
        return Unchanged;
      }
      if !ValidTransition(current, status) {
        return Conflict;
      }
      apps := apps[a := apps[a].(status := status)];
      events := events + [Event(a, Some(current), status)];
      if status == Offer {
        var offers := |Offers(apps, apps[a].run, apps[a].candidate)|;
        var run := apps[a].run;
        var goal := runs[run].goal;
        if runs[run].status == RunRunning && offers >= goals[goal].offerTarget {
          runs := runs[run := runs[run].(status := RunFinished, reason := Some(OfferTargetReached))];
          goals := goals[goal := goals[goal].(status := GoalAchieved)];
        }
      }
      return Changed;
    }
  }

  /** The loop of `execute` after `i` jobs. */
  lemma RoundSoFar(w: World, run: nat, candidate: nat, verdicts: map<nat, Verdict>, i: nat)
    requires WInv(w) && Loadable(w, run, candidate) && i <= |JobInputs(w.db)|
    ensures run in w.runs
    ensures w.runs[run].status == RunRunning ==>
      var w' := MatchAll(w, run, candidate, JobInputs(w.db)[..i], verdicts); WInv(w') && w'.runs == w.runs
  {
    hide WInv, JobInputs, MatchAll;
    if w.runs[run].status == RunRunning {
      var jobs := JobInputs(w.db);
      InputsAreMatchable(w.db);
      forall j | j in jobs[..i] ensures Matchable(w, run, candidate, j) { assert j in jobs; }
      hide Matchable, Loadable;
      MatchAllKeeps(w, run, candidate, jobs[..i], verdicts);
    }
  }

  lemma PreparedMeans(w: World, candidate: nat)
    requires Prerequisites(w, candidate)
    ensures GoalOf(w.goals, candidate).Some? && CurrentResume(w.db, candidate)
    ensures ProfileOf(w.db.profiles, w.db.current[candidate]).Some?
  {}

  lemma OneAppEach(w: World)
    requires WInv(w)
    ensures forall a, b :: a in w.apps && b in w.apps && a != b ==> w.apps[a].run != w.apps[b].run || w.apps[a].job != w.apps[b].job
  {
    Tables(w);
    hide WInv, HasApp, Talks, Log, Outcomes;
    forall a, b | a in w.apps && b in w.apps && a != b ensures w.apps[a].run != w.apps[b].run || w.apps[a].job != w.apps[b].job {
      assert AppOk(w.apps[a], w.matches) && AppOk(w.apps[b], w.matches);
    }
  }
}
