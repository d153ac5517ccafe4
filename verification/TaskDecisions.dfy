/** What each request is answered, decided from the tables alone, and who owns what:
    acceptance conditions that hold in every reachable state. */
module TaskDecisions {
  import opened Common
  import opened Tasks
  import opened TaskInvariant
  import opened TaskHistory
  import opened TaskLeases
  import opened TaskFacts
  import opened TaskFrame
  import opened Readiness

  // ----- who uploaded what --------------------------------------------------

  predicate UploadsResume(db: Db, op: Op, r: nat, candidate: nat) {
    op == UploadResumeOp(candidate) && db.next == r
  }

  predicate UploadsJob(db: Db, op: Op, j: nat, hr: nat, at: int) {
    op == UploadJobOp(hr) && db.next == j && db.now == at
  }

  /** Same rows, same owners, same deletions. */
  predicate SameOwners(resumes: map<nat, Resume>, resumes': map<nat, Resume>) {
    && resumes'.Keys == resumes.Keys
    && forall r :: r in resumes ==> resumes'[r].candidate == resumes[r].candidate && resumes'[r].deleted == resumes[r].deleted
  }

  lemma ParsingKeepsOwners(db: Db, op: Op)
    requires op.TimeoutOp? || op.RecoverOp? || op.CompleteResumeOp? || op.FailResumeOp?
    ensures SameOwners(db.resumes, Apply(db, op).resumes) && Apply(db, op).current == db.current
  {
    hide HasProfile, MatchingReadiness, StalledResume;
  }

  lemma OthersKeepCurrent(db: Db, op: Op)
    requires !op.UploadResumeOp? && !op.DeleteResumeOp?
    ensures SameOwners(db.resumes, Apply(db, op).resumes) && Apply(db, op).current == db.current
  {
    hide LatestTask, LastCreatedTask, DispatchBatch, FailStalled, FailAfterTimeout, CompleteResume, FailResume;
    if op.TimeoutOp? || op.RecoverOp? || op.CompleteResumeOp? || op.FailResumeOp? {
      hide Apply;
      ParsingKeepsOwners(db, op);
    } else {
      if op.ClaimDispatchOp? { LeasesKeep(db, op.batch, op.seconds); }
    }
  }

  lemma ResumeStep(db: Db, op: Op, db': Db, r: nat)
    requires Inv(db) && Step(db, op, db') && r in db'.resumes
    ensures if r in db.resumes then db'.resumes[r].candidate == db.resumes[r].candidate
            else UploadsResume(db, op, r, db'.resumes[r].candidate) && db'.resumes[r].status == Processing && !db'.resumes[r].deleted
  {
    hide Inv;
    RowIsOld(db, db.next);
    if !op.UploadResumeOp? && !op.DeleteResumeOp? {
      hide Apply;
      OthersKeepCurrent(db, op);
    }
  }

  lemma JobStep(db: Db, op: Op, db': Db, j: nat)
    requires Inv(db) && Step(db, op, db') && j in db'.jobs && j !in db.jobs
    ensures UploadsJob(db, op, j, db'.jobs[j].hr, db'.jobs[j].createdAt) && !db'.jobs[j].deleted
  {
    hide Inv, LatestTask, LastCreatedTask;
    if !op.UploadJobOp? && !op.DeleteJobOp? {
      hide Apply;
      OthersKeepJobs(db, op);
    }
  }

  /** Every resume belongs to the candidate who uploaded it, under the id of that upload. */
  lemma {:induction false} ResumeHasItsUploader(dbs: seq<Db>, ops: seq<Op>, n: nat, r: nat)
    requires Run(dbs, ops) && n < |dbs| && r in dbs[n].resumes
    ensures exists i: nat :: i < n && i < |ops| && UploadsResume(dbs[i], ops[i], r, dbs[n].resumes[r].candidate)
  {
    hide Inv, Step, UploadsResume;
    if n > 0 {
      RunStep(dbs, ops, n - 1);
      ResumeStep(dbs[n - 1], ops[n - 1], dbs[n], r);
      if r in dbs[n - 1].resumes { ResumeHasItsUploader(dbs, ops, n - 1, r); }
    }
  }

  /** Every job belongs to the HR who uploaded it, and is as old as that upload. */
  lemma {:induction false} JobHasItsUploader(dbs: seq<Db>, ops: seq<Op>, n: nat, j: nat)
    requires Run(dbs, ops) && n < |dbs| && j in dbs[n].jobs
    ensures exists i: nat :: i < n && i < |ops| && UploadsJob(dbs[i], ops[i], j, dbs[n].jobs[j].hr, dbs[n].jobs[j].createdAt)
  {
    hide Inv, Step, UploadsJob;
    if n > 0 {
      RunStep(dbs, ops, n - 1);
      if j in dbs[n - 1].jobs {
        JobsRemain(dbs[n - 1], ops[n - 1], dbs[n], j);
        JobHasItsUploader(dbs, ops, n - 1, j);
      } else {
        JobStep(dbs[n - 1], ops[n - 1], dbs[n], j);
      }
    }
  }

  // ----- the current resume -------------------------------------------------

  /** The last resume the candidate uploaded. */
  ghost predicate Newest(resumes: map<nat, Resume>, candidate: nat, r: nat) {
    r in resumes && resumes[r].candidate == candidate
    && forall q :: q in resumes && resumes[q].candidate == candidate ==> q <= r
  }

  /** The current resume of a candidate is the last uploaded one, until it is deleted. */
  ghost predicate CurrentOk(resumes: map<nat, Resume>, current: map<nat, nat>) {
    && (forall c :: c in current ==> Newest(resumes, c, current[c]) && !resumes[current[c]].deleted)
    && (forall c, r :: Newest(resumes, c, r) && !resumes[r].deleted ==> c in current && current[c] == r)
  }

  lemma SameOwnersKeep(resumes: map<nat, Resume>, resumes': map<nat, Resume>, current: map<nat, nat>)
    requires CurrentOk(resumes, current) && SameOwners(resumes, resumes')
    ensures CurrentOk(resumes', current)
  {
    forall c, r ensures Newest(resumes', c, r) <==> Newest(resumes, c, r) {}
  }

  lemma SameRows(resumes: map<nat, Resume>, resumes': map<nat, Resume>, c: nat, q: nat)
    requires forall x :: x in resumes && resumes[x].candidate == c ==> x in resumes' && resumes'[x].candidate == c
    requires forall x :: x in resumes' && resumes'[x].candidate == c ==> x in resumes && resumes[x].candidate == c
    ensures Newest(resumes', c, q) <==> Newest(resumes, c, q)
  {}

  lemma UploadKeepsCurrent(resumes: map<nat, Resume>, current: map<nat, nat>, candidate: nat, r: nat, row: Resume)
    requires CurrentOk(resumes, current) && (forall q :: q in resumes ==> q < r)
    requires row.candidate == candidate && !row.deleted
    ensures CurrentOk(resumes[r := row], current[candidate := r])
  {
    var resumes' := resumes[r := row];
    forall c, q ensures Newest(resumes', c, q) <==> if c == candidate then q == r else Newest(resumes, c, q) {
      if c == candidate {
        assert r in resumes' && resumes'[r].candidate == c;
        assert forall x :: x in resumes' ==> x <= r;
      } else {
        SameRows(resumes, resumes', c, q);
      }
    }
  }

  lemma DeletionKeepsCurrent(resumes: map<nat, Resume>, current: map<nat, nat>, candidate: nat, r: nat)
    requires CurrentOk(resumes, current) && candidate in current && current[candidate] == r
    ensures r in resumes && CurrentOk(resumes[r := resumes[r].(deleted := true)], current - {candidate})
  {
    var resumes' := resumes[r := resumes[r].(deleted := true)];
    forall c, q ensures Newest(resumes', c, q) <==> Newest(resumes, c, q) { SameRows(resumes, resumes', c, q); }
  }

  lemma StepKeepsCurrent(db: Db, op: Op, db': Db)
    requires Inv(db) && Step(db, op, db') && CurrentOk(db.resumes, db.current)
    ensures CurrentOk(db'.resumes, db'.current)
  {
    ResumesAreOld(db);
    hide Inv, CurrentOk;
    if op.UploadResumeOp? {
      UploadKeepsCurrent(db.resumes, db.current, op.candidate, db.next, Resume(op.candidate, Processing, None, false));
    } else if op.DeleteResumeOp? {
      if DeleteResume(db, op.candidate, op.resume, op.started).1 {
        DeletionKeepsCurrent(db.resumes, db.current, op.candidate, op.resume);
      }
    } else {
      hide Apply;
      OthersKeepCurrent(db, op);
      SameOwnersKeep(db.resumes, db'.resumes, db.current);
    }
  }

  lemma ResumesAreOld(db: Db)
    requires Inv(db)
    ensures forall r :: r in db.resumes ==> r < db.next
  {}

  lemma NothingCurrent()
    ensures CurrentOk(map[], map[])
  {}

  /** In every reachable state. */
  lemma {:induction false} CurrentIsNewest(dbs: seq<Db>, ops: seq<Op>, n: nat)
    requires Run(dbs, ops) && n < |dbs|
    ensures CurrentOk(dbs[n].resumes, dbs[n].current)
  {
    hide Inv, Step, CurrentOk;
    if n == 0 {
      NothingCurrent();
    } else {
      CurrentIsNewest(dbs, ops, n - 1);
      RunStep(dbs, ops, n - 1);
      StepKeepsCurrent(dbs[n - 1], ops[n - 1], dbs[n]);
    }
  }

  ghost predicate Parsing(db: Db, r: nat) {
    exists t :: t in db.tasks && db.tasks[t].kind == ResumeParse && db.tasks[t].resource == r && !Terminal(db.tasks[t].status)
  }

  lemma ParsingIsProcessing(db: Db, r: nat)
    requires Inv(db) && r in db.resumes
    ensures Parsing(db, r) <==> db.resumes[r].status == Processing
  {
    hide Rows, Bounded, UniqueKeys, UniqueIds, Dispatches, Profiles, Deletions, Chain, Snapshots;
    assert HasTask(db.tasks, r);
    var t :| t in db.tasks && db.tasks[t].kind == ResumeParse && db.tasks[t].resource == r;
    if Parsing(db, r) {
      var u :| u in db.tasks && db.tasks[u].kind == ResumeParse && db.tasks[u].resource == r && !Terminal(db.tasks[u].status);
    }
  }

  /** The resume is marked, the candidate has no current one, and nothing else changes. */
  predicate ResumeGone(db: Db, db': Db, candidate: nat, r: nat) {
    && r in db.resumes && candidate !in db'.current
    && (forall c :: c in db.current && c != candidate ==> c in db'.current && db'.current[c] == db.current[c])
    && (forall c :: c in db'.current ==> c in db.current)
    && db' == db.(resumes := db.resumes[r := db.resumes[r].(deleted := true)], current := db'.current)
  }

  lemma ResumeDeletionByTables(db: Db, candidate: nat, r: nat, started: bool)
    requires Inv(db) && CurrentOk(db.resumes, db.current)
    ensures var (db', ok) := DeleteResume(db, candidate, r, started);
      && (ok <==> Newest(db.resumes, candidate, r) && !db.resumes[r].deleted && !Parsing(db, r) && !started)
      && (if ok then ResumeGone(db, db', candidate, r) else db' == db)
  {
    hide Inv, Parsing;
    if r in db.resumes { ParsingIsProcessing(db, r); }
  }

  /** A candidate's resume can be deleted exactly when it is the last one uploaded, not
      deleted yet, no task is parsing it and no run was started. The deletion leaves the
      candidate without a current resume and touches nothing else. */
  lemma DeleteResumeIff(dbs: seq<Db>, ops: seq<Op>, n: nat, candidate: nat, r: nat, started: bool)
    requires Run(dbs, ops) && n < |dbs|
    ensures var (db', ok) := DeleteResume(dbs[n], candidate, r, started);
      && (ok <==> Newest(dbs[n].resumes, candidate, r) && !dbs[n].resumes[r].deleted && !Parsing(dbs[n], r) && !started)
      && (if ok then ResumeGone(dbs[n], db', candidate, r) else db' == dbs[n])
  {
    hide Inv, Parsing, CurrentOk, Newest, DeleteResume, ResumeGone;
    RunKeeps(dbs, ops, n);
    CurrentIsNewest(dbs, ops, n);
    hide Run;
    ResumeDeletionByTables(dbs[n], candidate, r, started);
  }

  // ----- jobs ---------------------------------------------------------------

  ghost predicate AllTasks(db: Db, j: nat, statuses: set<TaskStatus>) {
    forall t :: t in db.tasks && db.tasks[t].kind == JobParse && db.tasks[t].resource == j ==> db.tasks[t].status in statuses
  }

  lemma LatestTells(db: Db, j: nat)
    requires Inv(db) && j in db.jobs
    ensures LatestTask(db, j).Some? && LatestTask(db, j).value in db.tasks && LastCreatedTask(db, j) == LatestTask(db, j)
    ensures var status := db.tasks[LatestTask(db, j).value].status;
      && (Terminal(status) <==> AllTasks(db, j, {Succeeded, Failed}))
      && (status == Failed <==> AllTasks(db, j, {Failed}))
  {
    hide Inv, LatestTask, LastCreatedTask;
    LatestIsLast(db, j);
    LastCreatedIsLatest(db, j);
    var last := LatestTask(db, j).value;
    assert last in JobTasks(db, j);
    forall t | t in db.tasks && db.tasks[t].kind == JobParse && db.tasks[t].resource == j && t != last
      ensures db.tasks[t].status == Failed
    {
      assert t in JobTasks(db, j);
    }
  }

  /** The job is there, undeleted and this HR's. */
  predicate Owns(db: Db, hr: nat, j: nat) {
    j in db.jobs && db.jobs[j].hr == hr && !db.jobs[j].deleted
  }

  /** The job is marked, its snapshot is gone, and nothing else changes. */
  predicate JobGone(db: Db, db': Db, j: nat) {
    j in db.jobs && db' == db.(jobs := db.jobs[j := db.jobs[j].(deleted := true)], snapshots := db.snapshots - {j})
  }

  lemma DeletionByTables(db: Db, hr: nat, j: nat, matched: bool)
    requires Inv(db)
    ensures var (db', ok) := DeleteJob(db, hr, j, matched);
      && (ok <==> Owns(db, hr, j) && AllTasks(db, j, {Succeeded, Failed}) && !matched)
      && (if ok then JobGone(db, db', j) else db' == db)
  {
    hide Inv, AllTasks, LatestTask, LastCreatedTask;
    if j in db.jobs { LatestTells(db, j); }
  }

  /** A job can be deleted exactly when none of its tasks is open and nothing refers to
      it; its snapshot goes with it and nothing else changes. */
  lemma DeleteJobIff(dbs: seq<Db>, ops: seq<Op>, n: nat, hr: nat, j: nat, matched: bool)
    requires Run(dbs, ops) && n < |dbs|
    ensures var (db', ok) := DeleteJob(dbs[n], hr, j, matched);
      && (ok <==> Owns(dbs[n], hr, j) && AllTasks(dbs[n], j, {Succeeded, Failed}) && !matched)
      && (if ok then JobGone(dbs[n], db', j) else db' == dbs[n])
  {
    hide Inv, AllTasks, DeleteJob, JobGone;
    RunKeeps(dbs, ops, n);
    DeletionByTables(dbs[n], hr, j, matched);
  }

  /** One more queued task for the job, the next generation, and nothing else. */
  ghost predicate OneMoreTask(db: Db, db': Db, j: nat) {
    && db.next !in db.tasks && db.next in db'.tasks
    && db' == db.(next := db.next + 1, tasks := db.tasks[db.next := db'.tasks[db.next]])
    && var row := db'.tasks[db.next];
      && row.kind == JobParse && row.resource == j && row.status == Queued && row.createdAt == db.now
      && row.dispatchToken.None? && row.dispatchedAt.None? && row.token.None? && row.celeryId.None?
      && row.generation >= 1 && !HasGeneration(db.tasks, j, row.generation)
      && (row.generation > 1 ==> HasGeneration(db.tasks, j, row.generation - 1))
  }

  lemma EnsureAddsOne(db: Db, j: nat)
    requires Inv(db) && j in db.jobs && AllTasks(db, j, {Failed})
    ensures OneMoreTask(db, EnsureJobTask(db, j), j)
  {
    hide Inv, LatestTask, AllTasks, HasGeneration;
    TaskIsFree(db, db.next);
    GenerationRange(db, j);
    LatestTells(db, j);
    var m := db.tasks[LatestTask(db, j).value].generation;
    assert HasGeneration(db.tasks, j, m) && !HasGeneration(db.tasks, j, m + 1);
  }

  lemma RequestsByTables(db: Db, hr: nat, j: nat, fileReady: bool, matched: bool)
    requires Inv(db)
    ensures var again := Owns(db, hr, j) && fileReady && AllTasks(db, j, {Failed});
      && (if again then OneMoreTask(db, SubmitJob(db, hr, j, fileReady), j) else SubmitJob(db, hr, j, fileReady) == db)
      && (RetryJob(db, hr, j, fileReady, matched).1 <==> again && !matched)
      && (if again && !matched then OneMoreTask(db, RetryJob(db, hr, j, fileReady, matched).0, j)
          else RetryJob(db, hr, j, fileReady, matched).0 == db)
  {
    hide Inv, AllTasks, LatestTask, OneMoreTask;
    if j in db.jobs {
      LatestTells(db, j);
      if AllTasks(db, j, {Failed}) { EnsureAddsOne(db, j); }
    }
  }

  /** Submitting a job again queues a new generation exactly when every task so far
      failed; a retry asks besides that nothing refers to the job, and tells whether. */
  lemma SubmitAndRetryIff(dbs: seq<Db>, ops: seq<Op>, n: nat, hr: nat, j: nat, fileReady: bool, matched: bool)
    requires Run(dbs, ops) && n < |dbs|
    ensures var db := dbs[n]; var again := Owns(db, hr, j) && fileReady && AllTasks(db, j, {Failed});
      && (if again then OneMoreTask(db, SubmitJob(db, hr, j, fileReady), j) else SubmitJob(db, hr, j, fileReady) == db)
      && (RetryJob(db, hr, j, fileReady, matched).1 <==> again && !matched)
      && (if again && !matched then OneMoreTask(db, RetryJob(db, hr, j, fileReady, matched).0, j)
          else RetryJob(db, hr, j, fileReady, matched).0 == db)
  {
    hide Inv, AllTasks, OneMoreTask, SubmitJob, RetryJob, Owns;
    RunKeeps(dbs, ops, n);
    RequestsByTables(dbs[n], hr, j, fileReady, matched);
  }

  // ----- the dispatcher's lease ---------------------------------------------

  /** A batch for `seconds` at step `i` took task `t`. */
  ghost predicate BatchedAt(dbs: seq<Db>, ops: seq<Op>, i: nat, t: nat, seconds: nat) {
    && i < |ops| && i < |dbs| && ops[i].ClaimDispatchOp? && ops[i].seconds == seconds
    && t in DispatchBatch(dbs[i], ops[i].batch)
  }

  /** The task is out of reach of the next batches until `e`. */
  predicate OutOfReach(task: Task, e: int) {
    task.status == Queued && task.dispatchedAt.None? ==> task.dispatchToken.Some? && task.dispatchExpires == Some(e)
  }

  /** The lease was given back, or its task returned to the queue by its worker. */
  predicate GivenBack(ops: seq<Op>, i: nat, j: nat, t: nat)
    requires j <= |ops|
  {
    exists m :: i < m < j && GivesBack(ops[m], t)
  }

  predicate GivesBack(op: Op, t: nat) {
    (op.ReleaseDispatchOp? || op.ReleaseOp?) && op.task == t
  }

  lemma {:induction false} LeaseAllReaches(db: Db, ids: seq<nat>, seconds: nat, t: nat)
    requires (forall u :: u in ids ==> u in db.tasks) && t in ids && (forall i, j :: 0 <= i < j < |ids| ==> ids[i] != ids[j])
    ensures var task := LeaseAll(db, ids, seconds).0.tasks[t];
      task.dispatchToken.Some? && task.dispatchExpires == Some(db.now + seconds * 1_000_000)
    ensures LeaseAll(db, ids, seconds).0.now == db.now
  {
    var n := |ids| - 1;
    LeaseAllKeepsClock(db, ids[..n], seconds);
    if t != ids[n] {
      assert t in ids[..n];
      LeaseAllReaches(db, ids[..n], seconds, t);
    }
  }

  lemma {:induction false} LeaseAllKeepsClock(db: Db, ids: seq<nat>, seconds: nat)
    requires forall u :: u in ids ==> u in db.tasks
    ensures LeaseAll(db, ids, seconds).0.now == db.now
  {
    if ids != [] { LeaseAllKeepsClock(db, ids[..|ids| - 1], seconds); }
  }

  lemma BatchReaches(db: Db, op: Op, db': Db, t: nat)
    requires Step(db, op, db') && op.ClaimDispatchOp? && t in DispatchBatch(db, op.batch)
    ensures t in db'.tasks && OutOfReach(db'.tasks[t], db.now + op.seconds * 1_000_000)
  {
    hide DispatchBatch, Dispatchable;
    BatchIsOldestPrefix(db, op.batch);
    hide LeaseAll;
    LeaseAllReaches(db, DispatchBatch(db, op.batch), op.seconds, t);
  }

  lemma {:induction false} LeaseAllSkips(db: Db, ids: seq<nat>, seconds: nat, t: nat)
    requires (forall u :: u in ids ==> u in db.tasks) && t in db.tasks && t !in ids
    ensures LeaseAll(db, ids, seconds).0.tasks[t] == db.tasks[t]
  {
    if ids != [] { LeaseAllSkips(db, ids[..|ids| - 1], seconds, t); }
  }

  lemma BatchSkips(db: Db, op: Op, db': Db, t: nat)
    requires Step(db, op, db') && op.ClaimDispatchOp? && t in db.tasks && !Dispatchable(db.tasks[t], db.now)
    ensures t in db'.tasks && db'.tasks[t] == db.tasks[t]
  {
    BatchIsOldestPrefix(db, op.batch);
    hide DispatchBatch, Dispatchable;
    LeaseAllSkips(db, DispatchBatch(db, op.batch), op.seconds, t);
  }

  lemma ReachStep(db: Db, op: Op, db': Db, t: nat, e: int)
    requires Inv(db) && Step(db, op, db') && t in db.tasks && OutOfReach(db.tasks[t], e) && db.now < e && !GivesBack(op, t)
    ensures t in db'.tasks && OutOfReach(db'.tasks[t], e)
  {
    hide Inv;
    if op.ClaimDispatchOp? {
      hide Apply;
      BatchSkips(db, op, db', t);
    } else {
      hide Apply;
      RowMoves(db, op, db', t);
      if DispatchOnly(db.tasks[t], db'.tasks[t]) { DispatchStep(db, op, db', t); }
    }
  }

  lemma DispatchStep(db: Db, op: Op, db': Db, t: nat)
    requires Inv(db) && Step(db, op, db') && t in db.tasks && t in db'.tasks && !GivesBack(op, t)
    requires !op.ClaimDispatchOp? && DispatchOnly(db.tasks[t], db'.tasks[t])
    ensures db'.tasks[t] == db.tasks[t] || db'.tasks[t].dispatchedAt.Some?
  {
    hide Inv, ClaimExecution, ReleaseForRetry, FailAfterTimeout, CompleteResume, FailResume, CompleteJob, FailJob, FailStalled,
      UploadResume, UploadJob, SubmitJob, RetryJob, Claimable, LastCreatedTask;
    RowFacts(db, t);
    TaskIsFree(db, db.next);
    TaskIsFree(db, db.next + 1);
    match op
    case ConfirmOp(u, token) =>
    case ReleaseDispatchOp(u, token) =>
    case ClaimOp(u, seconds) => ClaimMoves(db, u, seconds, t);
    case ReleaseOp(u, token) => ReleaseMoves(db, u, token, t);
    case TimeoutOp(u) => TimeoutMoves(db, u, t);
    case RecoverOp => RecoverMoves(db, t);
    case CompleteResumeOp(u, r, token, facts) => CompleteResumeMoves(db, u, r, token, facts, t);
    case FailResumeOp(u, r, token, code) => FailResumeMoves(db, u, r, token, code, t);
    case CompleteJobOp(u, j, token, snapshot) => CompleteJobMoves(db, u, j, token, snapshot, t);
    case FailJobOp(u, j, token, semantics) => FailJobMoves(db, u, j, token, semantics, t);
    case UploadResumeOp(candidate) => CreatingMoves(db, op, t);
    case UploadJobOp(hr) => CreatingMoves(db, op, t);
    case SubmitJobOp(hr, j, fileReady) => CreatingMoves(db, op, t);
    case RetryJobOp(hr, j, fileReady, matched) => CreatingMoves(db, op, t);
    case Wait =>
    case PublishOp(token) =>
    case DeleteResumeOp(candidate, r, started) => assert db'.tasks == db.tasks;
    case DeleteJobOp(hr, j, matched) => assert db'.tasks == db.tasks;
  }

  /** The dispatcher's lease is exclusive: from the batch that took a task until the end
      of its lease no other batch takes it, unless the lease was given back or a worker
      returned the task to the queue. */
  lemma {:induction false} DispatchIsExclusive(dbs: seq<Db>, ops: seq<Op>, i: nat, j: nat, t: nat, seconds: nat)
    requires Run(dbs, ops) && BatchedAt(dbs, ops, i, t, seconds) && i < j < |dbs| && j <= |ops|
    requires dbs[j].now < dbs[i].now + seconds * 1_000_000 && !GivenBack(ops, i, j, t)
    ensures t in dbs[j].tasks && OutOfReach(dbs[j].tasks[t], dbs[i].now + seconds * 1_000_000)
    ensures forall batch :: t !in DispatchBatch(dbs[j], batch)
  {
    hide Inv, Step, OutOfReach;
    var e := dbs[i].now + seconds * 1_000_000;
    if j == i + 1 {
      RunStep(dbs, ops, i);
      BatchReaches(dbs[i], ops[i], dbs[j], t);
    } else {
      ClockAdvances(dbs, ops, j - 1, j);
      RunStep(dbs, ops, j - 1);
      DispatchIsExclusive(dbs, ops, i, j - 1, t, seconds);
      ReachStep(dbs[j - 1], ops[j - 1], dbs[j], t, e);
    }
    forall batch ensures t !in DispatchBatch(dbs[j], batch) {
      BeyondReach(dbs[j], t, e, batch);
    }
  }

  lemma BeyondReach(db: Db, t: nat, e: int, batch: nat)
    requires t in db.tasks && OutOfReach(db.tasks[t], e) && db.now < e
    ensures t !in DispatchBatch(db, batch)
  {
    BatchIsOldestPrefix(db, batch);
    hide DispatchBatch;
  }

  lemma ReturnStep(db: Db, op: Op, db': Db, t: nat, k: nat)
    requires Step(db, op, db') && op == ReleaseOp(t, k)
    requires t in db.tasks && db.tasks[t].status == Running && db.tasks[t].token == Some(k)
    ensures t in db'.tasks && db'.tasks[t].status == Queued && db'.tasks[t].dispatchedAt.None?
    ensures db'.tasks[t].dispatchExpires == db.tasks[t].dispatchExpires && db'.tasks[t].dispatchToken == db.tasks[t].dispatchToken
  {}

  /** A task its worker returns to the queue is up for dispatch again, at the latest when
      a dispatch lease still on it ends. */
  lemma ReturnedIsDispatchable(dbs: seq<Db>, ops: seq<Op>, i: nat, t: nat, k: nat, now: int)
    requires Run(dbs, ops) && i < |ops| && i + 1 < |dbs| && ops[i] == ReleaseOp(t, k)
    requires t in dbs[i].tasks && dbs[i].tasks[t].status == Running && dbs[i].tasks[t].token == Some(k)
    ensures t in dbs[i + 1].tasks
    ensures Waits(dbs[i + 1].tasks[t], now) <==>
      dbs[i].tasks[t].dispatchExpires == None || dbs[i].tasks[t].dispatchExpires.value <= now
  {
    hide Inv, Step;
    RunStep(dbs, ops, i);
    RowFacts(dbs[i], t);
    ReturnStep(dbs[i], ops[i], dbs[i + 1], t, k);
    hide Run;
  }

  // ----- what a batch takes -------------------------------------------------

  /** Queued, not confirmed, and under no dispatch lease that is still running. */
  predicate Waits(task: Task, now: int) {
    && task.status == Queued && task.dispatchedAt == None
    && (task.dispatchToken == None || (task.dispatchExpires != None && task.dispatchExpires.value <= now))
  }

  /** A batch takes the oldest waiting tasks, by creation time and id, as many as it may. */
  lemma BatchTakesTheOldest(db: Db, batch: nat)
    ensures var ids := DispatchBatch(db, batch); var waiting := set t | t in db.tasks && Waits(db.tasks[t], db.now);
      && |ids| == (if |waiting| <= batch then |waiting| else batch)
      && (forall t :: t in ids ==> t in waiting)
      && (forall i, j :: 0 <= i < j < |ids| ==> ids[i] != ids[j])
      && (forall t, u :: t in ids && u in waiting && u !in ids ==>
            db.tasks[t].createdAt < db.tasks[u].createdAt || (db.tasks[t].createdAt == db.tasks[u].createdAt && t < u))
  {
    BatchIsOldestPrefix(db, batch);
    assert (set t | t in db.tasks && Waits(db.tasks[t], db.now)) == DispatchableSet(db);
    hide DispatchBatch;
  }

  // ----- what the round reads -----------------------------------------------

  /** The round reads the oldest jobs with a snapshot, by creation time and id, at most
      twenty of them. */
  lemma InputsAreTheOldest(dbs: seq<Db>, ops: seq<Op>, n: nat)
    requires Run(dbs, ops) && n < |dbs|
    ensures var db := dbs[n]; var ids := JobInputs(db);
      && (forall j :: j in db.snapshots ==> j in db.jobs)
      && |ids| == (if |db.snapshots.Keys| <= 20 then |db.snapshots.Keys| else 20)
      && (forall j :: j in ids ==> j in db.snapshots)
      && (forall a, b :: 0 <= a < b < |ids| ==>
            Before(Rank(db.jobs[ids[a]].createdAt, ids[a], 0), Rank(db.jobs[ids[b]].createdAt, ids[b], 0)))
      && (forall j, k :: j in ids && k in db.snapshots && k !in ids ==>
            db.jobs[j].createdAt < db.jobs[k].createdAt || (db.jobs[j].createdAt == db.jobs[k].createdAt && j < k))
  {
    hide Inv, JobInputs, Active, EligibleIn, Counted;
    ReadinessAddsUp(dbs, ops, n);
    SnapshotsHaveJobs(dbs, ops, n);
    hide Run;
    InputsByTables(dbs[n]);
  }

  lemma SnapshotsHaveJobs(dbs: seq<Db>, ops: seq<Op>, n: nat)
    requires Run(dbs, ops) && n < |dbs|
    ensures forall j :: j in dbs[n].snapshots ==> j in dbs[n].jobs
  {
    hide Inv;
    RunKeeps(dbs, ops, n);
    hide Run;
    SnapshotsAreActive(dbs[n]);
  }

  lemma InputsByTables(db: Db)
    requires EligibleIn(db, Active(db)) == db.snapshots.Keys && forall j :: j in db.snapshots ==> j in db.jobs
    ensures var ids := JobInputs(db);
      && |ids| == (if |db.snapshots.Keys| <= 20 then |db.snapshots.Keys| else 20)
      && (forall j :: j in ids ==> j in db.snapshots)
      && (forall a, b :: 0 <= a < b < |ids| ==>
            Before(Rank(db.jobs[ids[a]].createdAt, ids[a], 0), Rank(db.jobs[ids[b]].createdAt, ids[b], 0)))
      && (forall j, k :: j in ids && k in db.snapshots && k !in ids ==>
            db.jobs[j].createdAt < db.jobs[k].createdAt || (db.jobs[j].createdAt == db.jobs[k].createdAt && j < k))
  {
    hide EligibleIn, Active;
    AgesDiffer(db, db.snapshots.Keys) by { EligibleAreActive(db); }
    LimitKeepsTheBest(db.snapshots.Keys, JobAge(db), 20);
  }

  lemma EligibleAreActive(db: Db)
    ensures EligibleIn(db, Active(db)) <= Active(db)
  {
    hide Eligible;
  }

  function OpenJobs(db: Db): set<nat> {
    set j | j in db.jobs && !db.jobs[j].deleted
  }

  ghost function PendingJobs(db: Db): set<nat> {
    set j | j in OpenJobs(db) && !AllTasks(db, j, {Succeeded, Failed})
  }

  ghost function FailedJobs(db: Db): set<nat> {
    set j | j in OpenJobs(db) && AllTasks(db, j, {Failed})
  }

  lemma CountsByTables(db: Db)
    requires Inv(db)
    ensures PendingIn(db, Active(db)) == PendingJobs(db) && FailedIn(db, Active(db)) == FailedJobs(db)
  {
    hide Inv, AllTasks, LatestTask;
    forall j | j in Active(db)
      ensures Pending(db, j) <==> !AllTasks(db, j, {Succeeded, Failed})
      ensures LatestIs(db, j, Failed) <==> AllTasks(db, j, {Failed})
    {
      LatestTells(db, j);
    }
    hide Pending, LatestIs;
    assert Active(db) == OpenJobs(db);
  }

  /** What the three counts count: jobs with a snapshot, jobs with an open task, and jobs
      all of whose tasks failed. */
  lemma CountsMean(dbs: seq<Db>, ops: seq<Op>, n: nat)
    requires Run(dbs, ops) && n < |dbs|
    ensures var s := Counted(dbs[n], Active(dbs[n]));
      s.eligible == |dbs[n].snapshots.Keys| && s.pending == |PendingJobs(dbs[n])| && s.failed == |FailedJobs(dbs[n])|
  {
    hide Inv, PendingJobs, FailedJobs, PendingIn, FailedIn, EligibleIn, Active;
    ReadinessAddsUp(dbs, ops, n);
    RunKeeps(dbs, ops, n);
    hide Run;
    CountsByTables(dbs[n]);
  }
}
