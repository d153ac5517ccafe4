/** What holds in every reachable state of the task protocol, read off the invariant. */
module TaskFacts {
  import opened Common
  import opened Tasks
  import opened TaskInvariant
  import opened TaskHistory
  import opened TaskLeases

  // ----- task, resume and profile -------------------------------------------

  ghost predicate ProfileOf(profiles: map<nat, Profile>, r: nat, p: nat) {
    p in profiles && profiles[p].resume == r
  }

  ghost predicate OnlyProfile(profiles: map<nat, Profile>, r: nat, p: nat) {
    ProfileOf(profiles, r, p) && forall q :: ProfileOf(profiles, r, q) ==> q == p
  }

  /** Open means processing; succeeded means succeeded with exactly one profile; failed
      means failed with the same code and no profile. */
  lemma ParsingIsCoupled(dbs: seq<Db>, ops: seq<Op>, n: nat, t: nat)
    requires Run(dbs, ops) && n < |dbs| && t in dbs[n].tasks && dbs[n].tasks[t].kind == ResumeParse
    ensures dbs[n].tasks[t].resource in dbs[n].resumes
    ensures var task := dbs[n].tasks[t]; var r := task.resource; var resume := dbs[n].resumes[r];
      && (!Terminal(task.status) <==> resume.status == Processing)
      && (task.status == Succeeded <==> resume.status == ParseSucceeded)
      && (task.status == Succeeded <==> exists p :: OnlyProfile(dbs[n].profiles, r, p))
      && (task.status == Failed <==> resume.status == ParseFailed)
      && (task.status != Succeeded ==> !HasProfile(dbs[n].profiles, r))
      && resume.failureCode == task.failureCode
      && (resume.failureCode.Some? <==> task.status == Failed)
      && (resume.deleted ==> Terminal(task.status))
  {
    RunKeeps(dbs, ops, n);
    var db := dbs[n];
    OpenHasProcessing(db, t);
    RowFacts(db, t);
    ProfileCounts(db.resumes, db.profiles, db.tasks[t].resource);
    hide Coupled, Rows, Bounded, UniqueKeys, UniqueIds, Dispatches, ResumeTasks, Chain, Snapshots;
    var r := db.tasks[t].resource;
    assert db.resumes[r].deleted ==> db.resumes[r].status != Processing;
    hide Inv;
    CoupledBothWays(db.tasks[t], db.resumes[r]);
  }

  lemma CoupledBothWays(task: Task, resume: Resume)
    requires Coupled(task, resume) && Checks(task) && task.kind == ResumeParse
    ensures !Terminal(task.status) <==> resume.status == Processing
    ensures task.status == Succeeded <==> resume.status == ParseSucceeded
    ensures task.status == Failed <==> resume.status == ParseFailed
    ensures resume.failureCode == task.failureCode && (task.failureCode.Some? <==> task.status == Failed)
  {}

  lemma ProfileCounts(resumes: map<nat, Resume>, profiles: map<nat, Profile>, r: nat)
    requires Profiles(resumes, profiles) && r in resumes
    ensures HasProfile(profiles, r) <==> resumes[r].status == ParseSucceeded
    ensures HasProfile(profiles, r) <==> exists p :: OnlyProfile(profiles, r, p)
  {
    if HasProfile(profiles, r) {
      var p :| p in profiles && profiles[p].resume == r;
      assert OnlyProfile(profiles, r, p);
    }
    if p :| OnlyProfile(profiles, r, p) { assert HasProfile(profiles, r); }
  }

  /** Two resume tasks never work on one resume. */
  lemma OneResumeTask(dbs: seq<Db>, ops: seq<Op>, n: nat, t: nat, u: nat)
    requires Run(dbs, ops) && n < |dbs| && t in dbs[n].tasks && u in dbs[n].tasks
    requires dbs[n].tasks[t].kind == ResumeParse && dbs[n].tasks[u].kind == ResumeParse
    requires dbs[n].tasks[t].resource == dbs[n].tasks[u].resource
    ensures t == u
  {
    RunKeeps(dbs, ops, n);
    OneTaskPerResume(dbs[n], t, u);
  }

  lemma ProcessingIsUndeleted(resumes: map<nat, Resume>, r: nat)
    requires Deletions(resumes) && r in resumes
    ensures resumes[r].deleted ==> resumes[r].status != Processing
  {}

  /** The holder of the current token always gets its terminal write through: the
      further early returns of complete and fail are unreachable. */
  lemma CurrentTokenWrites(dbs: seq<Db>, ops: seq<Op>, n: nat, t: nat, k: nat)
    requires Run(dbs, ops) && n < |dbs| && HoldsExecution(dbs[n], t, k)
    ensures var db := dbs[n]; var resource := db.tasks[t].resource;
      if db.tasks[t].kind == ResumeParse then
        && (forall facts :: CompleteResume(db, t, resource, k, facts).1)
        && (forall code :: FailResume(db, t, resource, k, code).1)
      else
        && (forall snapshot :: CompleteJob(db, t, resource, k, snapshot).1)
        && (forall semantics :: FailJob(db, t, resource, k, semantics).1)
  {
    RunKeeps(dbs, ops, n);
    var db := dbs[n];
    if db.tasks[t].kind == ResumeParse {
      OpenHasProcessing(db, t);
      ProfileCounts(db.resumes, db.profiles, db.tasks[t].resource);
      ProcessingIsUndeleted(db.resumes, db.tasks[t].resource);
      hide Inv;
    } else {
      OpenJobIsUndeleted(db, t);
      hide Inv;
    }
  }

  lemma OpenJobIsUndeleted(db: Db, t: nat)
    requires Inv(db) && t in db.tasks && db.tasks[t].kind == JobParse && !Terminal(db.tasks[t].status)
    ensures db.tasks[t].resource in db.jobs && !db.jobs[db.tasks[t].resource].deleted
  {
    hide HasGeneration, HasSucceeded;
  }

  /** No step breaks ck_async_task_run_finished_at, ck_async_task_run_failure_code,
      ck_async_task_run_task_generation or the unique idempotency key. */
  lemma ChecksHold(dbs: seq<Db>, ops: seq<Op>, n: nat)
    requires Run(dbs, ops) && n < |dbs|
    ensures forall t :: t in dbs[n].tasks ==> Checks(dbs[n].tasks[t])
    ensures UniqueKeys(dbs[n].tasks)
  {
    RunKeeps(dbs, ops, n);
    forall t | t in dbs[n].tasks ensures Checks(dbs[n].tasks[t]) { RowFacts(dbs[n], t); }
  }

  // ----- the JD generation chain --------------------------------------------

  lemma {:induction false} GenerationsBelow(tasks: map<nat, Task>, jobs: map<nat, Job>, j: nat, g: nat, h: nat)
    requires Chain(tasks, jobs) && HasGeneration(tasks, j, g) && 1 <= h <= g
    ensures HasGeneration(tasks, j, h)
    decreases g
  {
    if h < g {
      var t :| t in tasks && tasks[t].kind == JobParse && tasks[t].resource == j && tasks[t].generation == g;
      assert HasGeneration(tasks, j, g - 1);
      GenerationsBelow(tasks, jobs, j, g - 1, h);
    }
  }

  lemma GenerationRange(db: Db, j: nat)
    requires Inv(db) && j in db.jobs
    ensures LatestTask(db, j).Some? && LatestTask(db, j).value in db.tasks
    ensures var m := db.tasks[LatestTask(db, j).value].generation;
      m >= 1 && forall g: nat :: HasGeneration(db.tasks, j, g) <==> 1 <= g <= m
  {
    LatestIsLast(db, j);
    var last := LatestTask(db, j).value;
    var m := db.tasks[last].generation;
    RowFacts(db, last);
    hide Rows, Bounded, UniqueKeys, UniqueIds, Dispatches, ResumeTasks, Profiles, Deletions, Chain, Snapshots,
      LatestTask;
    assert HasGeneration(db.tasks, j, m);
    hide HasGeneration;
    forall g: nat ensures HasGeneration(db.tasks, j, g) <==> 1 <= g <= m {
      if 1 <= g <= m { GenerationsBelow(db.tasks, db.jobs, j, m, g); }
      if HasGeneration(db.tasks, j, g) { GenerationIsBounded(db, j, last, g); }
    }
  }

  lemma GenerationIsBounded(db: Db, j: nat, last: nat, g: nat)
    requires Inv(db) && HasGeneration(db.tasks, j, g) && last in db.tasks
    requires forall u :: u in JobTasks(db, j) && u != last ==> Earlier(db.tasks[u], db.tasks[last])
    ensures 1 <= g <= db.tasks[last].generation
  {
    hide Inv;
    var t :| t in db.tasks && db.tasks[t].kind == JobParse && db.tasks[t].resource == j && db.tasks[t].generation == g;
    assert t in JobTasks(db, j);
    RowFacts(db, t);
  }

  /** The generations of a job are 1..m without gaps, m the one every query calls the
      latest; all but the last failed. */
  lemma GenerationsAreContiguous(dbs: seq<Db>, ops: seq<Op>, n: nat, j: nat)
    requires Run(dbs, ops) && n < |dbs| && j in dbs[n].jobs
    ensures LatestTask(dbs[n], j).Some? && LatestTask(dbs[n], j).value in dbs[n].tasks
    ensures var last := LatestTask(dbs[n], j).value; var m := dbs[n].tasks[last].generation;
      && m >= 1
      && (forall g: nat :: HasGeneration(dbs[n].tasks, j, g) <==> 1 <= g <= m)
      && (forall t :: t in JobTasks(dbs[n], j) && t != last ==> dbs[n].tasks[t].status == Failed)
    ensures LastCreatedTask(dbs[n], j) == LatestTask(dbs[n], j)
  {
    RunKeeps(dbs, ops, n);
    hide Inv, LatestTask, LastCreatedTask, HasGeneration;
    LatestIsLast(dbs[n], j);
    LastCreatedIsLatest(dbs[n], j);
    GenerationRange(dbs[n], j);
  }

  /** An undeleted job has a snapshot exactly when its latest task succeeded; a
      deleted one has none. */
  lemma SnapshotIffSucceeded(dbs: seq<Db>, ops: seq<Op>, n: nat, j: nat)
    requires Run(dbs, ops) && n < |dbs| && j in dbs[n].jobs
    ensures LatestTask(dbs[n], j).Some? && LatestTask(dbs[n], j).value in dbs[n].tasks
    ensures j in dbs[n].snapshots <==>
      !dbs[n].jobs[j].deleted && dbs[n].tasks[LatestTask(dbs[n], j).value].status == Succeeded
  {
    RunKeeps(dbs, ops, n);
    SnapshotByLatest(dbs[n], j);
  }

  lemma SnapshotByLatest(db: Db, j: nat)
    requires Inv(db) && j in db.jobs
    ensures LatestTask(db, j).Some? && LatestTask(db, j).value in db.tasks
    ensures j in db.snapshots <==> !db.jobs[j].deleted && db.tasks[LatestTask(db, j).value].status == Succeeded
  {
    LatestIsLast(db, j);
    hide Rows, Bounded, UniqueKeys, UniqueIds, Dispatches, ResumeTasks, Profiles, Deletions, Chain, LatestTask;
    if j in db.snapshots {
      var t :| t in db.tasks && db.tasks[t].kind == JobParse && db.tasks[t].resource == j && db.tasks[t].status == Succeeded;
      assert t in JobTasks(db, j);
    }
  }

  // ----- no stranded task ---------------------------------------------------

  /** An undispatched queued task can be claimed by the dispatcher exactly from the
      expiry of its dispatch lease on. */
  lemma UndispatchedIsClaimable(dbs: seq<Db>, ops: seq<Op>, n: nat, t: nat, now: int)
    requires Run(dbs, ops) && n < |dbs| && t in dbs[n].tasks
    requires dbs[n].tasks[t].status == Queued && dbs[n].tasks[t].dispatchedAt.None?
    ensures Dispatchable(dbs[n].tasks[t], now) <==>
      dbs[n].tasks[t].dispatchExpires.None? || dbs[n].tasks[t].dispatchExpires.value <= now
  {
    RunKeeps(dbs, ops, n);
    RowFacts(dbs[n], t);
  }

  /** Each batch is the oldest eligible prefix. */
  lemma BatchIsOldestPrefix(db: Db, batch: nat)
    ensures var ids := DispatchBatch(db, batch);
      && |ids| == (if |DispatchableSet(db)| <= batch then |DispatchableSet(db)| else batch)
      && (forall t :: t in ids ==> t in db.tasks && Dispatchable(db.tasks[t], db.now))
      && (forall i, j :: 0 <= i < j < |ids| ==> ids[i] != ids[j])
      && (forall t, u :: t in ids && u in db.tasks && Dispatchable(db.tasks[u], db.now) && u !in ids ==>
            Before(Rank(db.tasks[t].createdAt, t, 0), Rank(db.tasks[u].createdAt, u, 0)))
  {
    var ids := DispatchBatch(db, batch);
    LimitKeepsTheBest(DispatchableSet(db), AgeRank(db.tasks), batch);
    forall t, u | t in ids && u in db.tasks && Dispatchable(db.tasks[u], db.now) && u !in ids
      ensures Before(Rank(db.tasks[t].createdAt, t, 0), Rank(db.tasks[u].createdAt, u, 0))
    {
      assert u in DispatchableSet(db) && t in DispatchableSet(db);
      assert Before(AgeRank(db.tasks)[t], AgeRank(db.tasks)[u]);
    }
  }

  /** `dispatched_at` set implies a publication of this very task. */
  lemma DispatchedWasPublished(dbs: seq<Db>, ops: seq<Op>, n: nat, t: nat)
    requires Run(dbs, ops) && n < |dbs| && t in dbs[n].tasks && dbs[n].tasks[t].dispatchedAt.Some?
    ensures exists k :: k in dbs[n].published && k in dbs[n].leases && dbs[n].leases[k] == t
  {
    RunKeeps(dbs, ops, n);
    RowFacts(dbs[n], t);
  }

  /** The celery id never changes once set. */
  lemma CeleryIdIsStable(dbs: seq<Db>, ops: seq<Op>, i: nat, j: nat, t: nat)
    requires Run(dbs, ops) && i <= j < |dbs| && t in dbs[i].tasks && dbs[i].tasks[t].celeryId.Some?
    ensures t in dbs[j].tasks && dbs[j].tasks[t].celeryId == dbs[i].tasks[t].celeryId
  {
    RowsRemain(dbs, ops, i, j, t);
  }

  /** A recovery pass closes exactly the running tasks that started 600 seconds ago or
      earlier: with leases of at most 300 seconds it never closes a live one. */
  lemma RecoveryClosesIff(dbs: seq<Db>, ops: seq<Op>, n: nat, t: nat)
    requires Run(dbs, ops) && n < |dbs| && t in dbs[n].tasks && dbs[n].tasks[t].status == Running
    ensures dbs[n].tasks[t].startedAt.Some? && dbs[n].tasks[t].leaseExpires.Some?
    ensures var after := FailStalled(dbs[n], STALLED_AFTER);
      && (after.tasks[t].status == Failed <==> dbs[n].tasks[t].startedAt.value + STALLED_AFTER * SECOND <= dbs[n].now)
      && (after.tasks[t].status != Failed ==> after.tasks[t] == dbs[n].tasks[t])
      && (dbs[n].tasks[t].leaseExpires.value > dbs[n].now ==> after.tasks[t] == dbs[n].tasks[t])
  {
    RunKeeps(dbs, ops, n);
    RowFacts(dbs[n], t);
    hide Inv;
  }

  /** The one state the protocol leaves to the broker: a queued row whose publication
      was confirmed is changed by nothing but the delivery of a message for it. */
  lemma ConfirmedWaitsForDelivery(dbs: seq<Db>, ops: seq<Op>, n: nat, t: nat)
    requires Run(dbs, ops) && n < |ops| && n < |dbs| && t in dbs[n].tasks
    requires dbs[n].tasks[t].status == Queued && dbs[n].tasks[t].dispatchedAt.Some?
    ensures t !in DispatchableSet(dbs[n])
    ensures t in dbs[n + 1].tasks
    ensures dbs[n + 1].tasks[t] != dbs[n].tasks[t] ==> ops[n].ClaimOp? && ops[n].task == t
  {
    RunStep(dbs, ops, n);
    hide Inv, Step, Run;
    RowFacts(dbs[n], t);
    RowMoves(dbs[n], ops[n], dbs[n + 1], t);
  }
}
