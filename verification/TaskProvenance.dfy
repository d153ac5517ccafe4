/** Where the rows of the parsing tables come from. Over every run each stored value is
    traced back to the transaction that wrote it, and forward to how long it lasts. */
module TaskProvenance {
  import opened Common
  import opened Tasks
  import Text
  import opened TaskInvariant
  import opened TaskHistory
  import opened TaskLeases
  import opened TaskFacts
  import opened TaskFrame

  /** The worker that carries token `k` is the current one of a task on this resource. */
  predicate Working(db: Db, t: nat, kind: TaskKind, resource: nat, k: nat) {
    && t in db.tasks && db.tasks[t].kind == kind && db.tasks[t].resource == resource
    && db.tasks[t].status == Running && db.tasks[t].token == Some(k)
  }

  // ----- snapshots ----------------------------------------------------------

  /** A JD worker hands in `snapshot` for job `j` with the current token of its task. */
  predicate HandsIn(db: Db, op: Op, j: nat, snapshot: Snapshot) {
    op.CompleteJobOp? && op.job == j && op.snapshot == snapshot && Working(db, op.task, JobParse, j, op.token)
  }

  predicate Stored(db: Db, j: nat, snapshot: Snapshot) {
    j in db.snapshots && db.snapshots[j] == snapshot
  }

  lemma SnapshotStep(db: Db, op: Op, db': Db, j: nat, snapshot: Snapshot)
    requires Inv(db) && Step(db, op, db') && Stored(db', j, snapshot)
    ensures Stored(db, j, snapshot) || HandsIn(db, op, j, snapshot)
  {
    hide Inv, LastCreatedTask;
    if !op.CompleteJobOp? && !op.DeleteJobOp? {
      hide Apply;
      OthersKeepSnapshots(db, op);
    }
  }

  ghost predicate HandedIn(dbs: seq<Db>, ops: seq<Op>, n: nat, j: nat, snapshot: Snapshot)
    requires n <= |ops| <= |dbs|
  {
    exists i: nat :: i < n && HandsIn(dbs[i], ops[i], j, snapshot)
  }

  /** Every snapshot is what a JD worker handed in for that job under its current token. */
  lemma {:induction false} SnapshotWasHandedIn(dbs: seq<Db>, ops: seq<Op>, n: nat, j: nat)
    requires Run(dbs, ops) && n < |dbs| && j in dbs[n].snapshots
    ensures HandedIn(dbs, ops, n, j, dbs[n].snapshots[j])
  {
    hide Inv, Step, HandsIn;
    if n > 0 {
      RunStep(dbs, ops, n - 1);
      SnapshotStep(dbs[n - 1], ops[n - 1], dbs[n], j, dbs[n].snapshots[j]);
      if Stored(dbs[n - 1], j, dbs[n].snapshots[j]) { SnapshotWasHandedIn(dbs, ops, n - 1, j); }
    }
  }

  predicate StoredOrDeleted(db: Db, j: nat, snapshot: Snapshot) {
    j in db.jobs && (db.jobs[j].deleted || Stored(db, j, snapshot))
  }

  /** The snapshot and the task changed, and nothing else in their tables. */
  predicate Accepted(db: Db, db': Db, t: nat, j: nat, snapshot: Snapshot) {
    && t in db'.tasks && db'.tasks[t].status == Succeeded && db'.tasks[t].finishedAt == Some(db.now)
    && db'.tasks == db.tasks[t := db'.tasks[t]] && db'.snapshots == db.snapshots[j := snapshot] && db'.jobs == db.jobs
  }

  lemma CompletionStores(db: Db, t: nat, j: nat, k: nat, snapshot: Snapshot)
    requires Working(db, t, JobParse, j, k) && j in db.jobs && !db.jobs[j].deleted
    ensures Accepted(db, CompleteJob(db, t, j, k, snapshot).0, t, j, snapshot)
  {}

  lemma HandedInIsStored(db: Db, op: Op, db': Db, j: nat, snapshot: Snapshot)
    requires Inv(db) && Step(db, op, db') && HandsIn(db, op, j, snapshot)
    ensures Accepted(db, db', op.task, j, snapshot) && StoredOrDeleted(db', j, snapshot)
  {
    hide Inv, CompleteJob;
    OpenJobIsUndeleted(db, op.task);
    CompletionStores(db, op.task, j, op.token, snapshot);
  }

  lemma StoredStays(db: Db, op: Op, db': Db, j: nat, snapshot: Snapshot)
    requires Inv(db) && Step(db, op, db') && StoredOrDeleted(db, j, snapshot)
    ensures StoredOrDeleted(db', j, snapshot)
  {
    hide Inv, Step;
    JobsRemain(db, op, db', j);
    if op.DeleteJobOp? && op.job == j { DeletionKeepsOrDeletes(db, op, db', j); }
    if !db.jobs[j].deleted { SnapshotIsFrozen(db, op, db', j); }
  }

  lemma DeletionKeepsOrDeletes(db: Db, op: Op, db': Db, j: nat)
    requires Step(db, op, db') && op.DeleteJobOp? && op.job == j && j in db.jobs
    ensures j in db'.jobs && (db'.jobs[j].deleted || db'.snapshots == db.snapshots) && (db.jobs[j].deleted ==> db'.jobs[j].deleted)
  {
    hide LastCreatedTask;
  }

  /** What a JD worker hands in under its current token is stored at once, the task is
      succeeded, no other snapshot or task changes, and the snapshot stays as it is until
      the job is deleted. */
  lemma {:induction false} HandedInLasts(dbs: seq<Db>, ops: seq<Op>, i: nat, n: nat, j: nat, snapshot: Snapshot)
    requires Run(dbs, ops) && i < n < |dbs| && HandsIn(dbs[i], ops[i], j, snapshot)
    ensures StoredOrDeleted(dbs[n], j, snapshot)
    ensures Accepted(dbs[i], dbs[i + 1], ops[i].task, j, snapshot)
  {
    hide Inv, Step, StoredOrDeleted, Accepted;
    RunStep(dbs, ops, i);
    HandedInIsStored(dbs[i], ops[i], dbs[i + 1], j, snapshot);
    if i + 1 < n {
      HandedInLasts(dbs, ops, i, n - 1, j, snapshot);
      RunStep(dbs, ops, n - 1);
      StoredStays(dbs[n - 1], ops[n - 1], dbs[n], j, snapshot);
    }
  }

  // ----- how a failed task failed -------------------------------------------

  predicate GivesUpJob(db: Db, op: Op, t: nat, semantics: Semantics) {
    op.FailJobOp? && op.task == t && op.semantics == semantics && Working(db, t, JobParse, op.job, op.token)
  }

  predicate GivesUpResume(db: Db, op: Op, t: nat, code: FailureCode) {
    op.FailResumeOp? && op.task == t && op.code == code && Working(db, t, ResumeParse, op.resume, op.token)
  }

  /** The handler of a timeout finds an unexpired lease, or a recovery pass a task that
      started 600 seconds ago or earlier. */
  predicate RunsOut(db: Db, op: Op, t: nat) {
    && t in db.tasks && db.tasks[t].status == Running
    && ((op == TimeoutOp(t) && db.tasks[t].leaseExpires.Some? && db.now < db.tasks[t].leaseExpires.value)
        || (op.RecoverOp? && db.tasks[t].startedAt.Some? && db.tasks[t].startedAt.value + 600_000_000 <= db.now))
  }

  predicate FailedAs(task: Task, at: int, code: Option<FailureCode>, semantics: Option<Semantics>) {
    && task.status == Failed && task.finishedAt == Some(at) && task.token.None?
    && task.failureCode == code && task.failureSemantics == semantics
  }

  /** The one place a row can have become failed, and what it then says. */
  predicate Fails(db: Db, op: Op, t: nat, task: Task) {
    if task.kind == JobParse then
      || (task.failureSemantics.Some? && GivesUpJob(db, op, t, task.failureSemantics.value)
          && FailedAs(task, db.now, None, task.failureSemantics))
      || (RunsOut(db, op, t) && FailedAs(task, db.now, None, Some(TemporaryTechnicalFailure)))
    else
      || (task.failureCode.Some? && GivesUpResume(db, op, t, task.failureCode.value)
          && FailedAs(task, db.now, task.failureCode, None))
      || (RunsOut(db, op, t) && FailedAs(task, db.now, Some(InternalError), None))
  }

  lemma NewRowsAreQueued(db: Db, op: Op, db': Db, t: nat)
    requires Inv(db) && Step(db, op, db') && t in db'.tasks && t !in db.tasks
    ensures db'.tasks[t].status == Queued
  {
    hide Inv, LatestTask, LastCreatedTask, DispatchBatch, HasProfile, MatchingReadiness, StalledResume;
    if op.ClaimDispatchOp? { BatchKeepsKeys(db, op.batch, op.seconds); }
  }

  lemma BatchKeepsKeys(db: Db, batch: nat, seconds: nat)
    ensures ClaimDispatch(db, batch, seconds).0.tasks.Keys == db.tasks.Keys
  {
    assert forall t :: t in DispatchBatch(db, batch) ==> t in DispatchableSet(db);
  }

  lemma RunningIsClean(db: Db, t: nat)
    requires Inv(db) && t in db.tasks && db.tasks[t].status == Running
    ensures db.tasks[t].failureCode.None? && db.tasks[t].failureSemantics.None?
    ensures db.tasks[t].startedAt.Some? && db.tasks[t].leaseExpires.Some?
    ensures db.tasks[t].leaseExpires.value <= db.tasks[t].startedAt.value + 300 * SECOND
  {
    RowFacts(db, t);
  }

  lemma WritesFail(db: Db, op: Op, t: nat)
    requires t in db.tasks && db.tasks[t].status == Running
    requires db.tasks[t].failureCode.None? && db.tasks[t].failureSemantics.None?
    requires op.FailJobOp? || op.FailResumeOp? || op.TimeoutOp?
    requires t in Apply(db, op).tasks && Apply(db, op).tasks[t].status == Failed
    ensures Fails(db, op, t, Apply(db, op).tasks[t])
  {}

  lemma RecoveryFails(db: Db, t: nat)
    requires t in db.tasks && db.tasks[t].status == Running
    requires db.tasks[t].failureCode.None? && db.tasks[t].failureSemantics.None?
    requires t in FailStalled(db, STALLED_AFTER).tasks && FailStalled(db, STALLED_AFTER).tasks[t].status == Failed
    ensures Fails(db, RecoverOp, t, FailStalled(db, STALLED_AFTER).tasks[t])
  {
    hide StalledResume;
  }

  lemma SuccessIsNoFailure(db: Db, op: Op, t: nat)
    requires t in db.tasks && db.tasks[t].status == Running && (op.CompleteResumeOp? || op.CompleteJobOp?)
    ensures t in Apply(db, op).tasks && Apply(db, op).tasks[t].status != Failed
  {
    hide HasProfile, MatchingReadiness;
  }

  /** The six transactions that can close a running row. */
  predicate Closer(op: Op) {
    op.FailJobOp? || op.FailResumeOp? || op.TimeoutOp? || op.RecoverOp? || op.CompleteResumeOp? || op.CompleteJobOp?
  }

  lemma OpenMoves(db: Db, op: Op, t: nat)
    requires t in db.tasks && db.tasks[t].status == Running
    ensures forall y :: DispatchOnly(db.tasks[t], y) || ClaimedNow(db, op, t, y) || ReleasedNow(db.tasks[t], op, t, y) ==>
      !Terminal(y.status)
  {}

  lemma ClosersOnly(db: Db, op: Op, db': Db, t: nat)
    requires Inv(db) && Step(db, op, db') && t in db.tasks && db.tasks[t].status == Running && !Closer(op)
    ensures t in db'.tasks && !Terminal(db'.tasks[t].status)
  {
    hide Inv, ConfirmDispatch, ReleaseDispatch, ClaimExecution, ReleaseForRetry, UploadResume, UploadJob, SubmitJob, RetryJob,
      Claimable, LastCreatedTask, DispatchOnly, ClaimedNow, ReleasedNow;
    TaskIsFree(db, db.next);
    TaskIsFree(db, db.next + 1);
    OpenMoves(db, op, t);
    match op
    case ClaimDispatchOp(batch, seconds) =>
      assert forall u :: u in DispatchBatch(db, batch) ==> u in DispatchableSet(db);
      LeaseAllMoves(db, DispatchBatch(db, batch), seconds, t);
    case ConfirmOp(u, token) => ConfirmMoves(db, u, token, t);
    case ReleaseDispatchOp(u, token) => ReleaseDispatchMoves(db, u, token, t);
    case ClaimOp(u, seconds) => ClaimMoves(db, u, seconds, t);
    case ReleaseOp(u, token) => ReleaseMoves(db, u, token, t);
    case UploadResumeOp(candidate) => CreatingMoves(db, op, t);
    case UploadJobOp(hr) => CreatingMoves(db, op, t);
    case SubmitJobOp(hr, j, fileReady) => CreatingMoves(db, op, t);
    case RetryJobOp(hr, j, fileReady, matched) => CreatingMoves(db, op, t);
    case Wait =>
    case PublishOp(token) =>
    case DeleteResumeOp(candidate, r, started) => assert db'.tasks == db.tasks;
    case DeleteJobOp(hr, j, matched) => assert db'.tasks == db.tasks;
  }

  lemma StepTasks(db: Db, op: Op, db': Db)
    requires Step(db, op, db')
    ensures db'.tasks == Apply(db, op).tasks
  {
    hide Apply, Enabled;
  }

  lemma ClosingFails(db: Db, op: Op, db': Db, t: nat)
    requires Inv(db) && Step(db, op, db') && t in db.tasks && db.tasks[t].status == Running && Closer(op)
    requires t in db'.tasks && db'.tasks[t].status == Failed
    ensures Fails(db, op, t, db'.tasks[t])
  {
    hide Inv, Fails, Step, FailStalled, FailAfterTimeout, CompleteResume, CompleteJob, FailResume, FailJob;
    RunningIsClean(db, t);
    StepTasks(db, op, db');
    if op.RecoverOp? {
      RecoveryFails(db, t);
    } else if op.CompleteResumeOp? || op.CompleteJobOp? {
      SuccessIsNoFailure(db, op, t);
    } else {
      hide Apply;
      WritesFail(db, op, t);
    }
  }

  lemma FailingStep(db: Db, op: Op, db': Db, t: nat)
    requires Inv(db) && Step(db, op, db') && t in db'.tasks && db'.tasks[t].status == Failed
    ensures t in db.tasks && (db'.tasks[t] == db.tasks[t] || Fails(db, op, t, db'.tasks[t]))
  {
    hide Inv, Step, Fails;
    if t !in db.tasks {
      NewRowsAreQueued(db, op, db', t);
    } else {
      RowMoves(db, op, db', t);
      if db'.tasks[t] != db.tasks[t] {
        if Closer(op) { ClosingFails(db, op, db', t); } else { ClosersOnly(db, op, db', t); }
      }
    }
  }

  /** Every failed task failed at one accepted write: its worker's own, with the reason
      the row shows, or a timeout or a recovery pass, with the reason reserved for them. */
  lemma {:induction false} FailureHasItsReason(dbs: seq<Db>, ops: seq<Op>, n: nat, t: nat)
    requires Run(dbs, ops) && n < |dbs| && t in dbs[n].tasks && dbs[n].tasks[t].status == Failed
    ensures exists i: nat :: i < n && i < |ops| && Fails(dbs[i], ops[i], t, dbs[n].tasks[t])
  {
    hide Inv, Step, Fails;
    if n > 0 {
      RunStep(dbs, ops, n - 1);
      FailingStep(dbs[n - 1], ops[n - 1], dbs[n], t);
      if !Fails(dbs[n - 1], ops[n - 1], t, dbs[n].tasks[t]) { FailureHasItsReason(dbs, ops, n - 1, t); }
    }
  }

  predicate FailedRow(db: Db, t: nat, at: int, code: Option<FailureCode>, semantics: Option<Semantics>) {
    t in db.tasks && FailedAs(db.tasks[t], at, code, semantics)
  }

  lemma GivingUpJobFails(db: Db, op: Op, db': Db, t: nat, semantics: Semantics)
    requires Inv(db) && Step(db, op, db') && GivesUpJob(db, op, t, semantics)
    ensures FailedRow(db', t, db.now, None, Some(semantics))
  {
    hide Inv;
  }

  lemma WriteFailsResume(db: Db, t: nat, r: nat, k: nat, code: FailureCode)
    requires Working(db, t, ResumeParse, r, k) && db.tasks[t].failureSemantics.None? && OpenResume(db, r)
    ensures FailedRow(FailResume(db, t, r, k, code).0, t, db.now, Some(code), None)
  {}

  lemma WorkedResumeIsOpen(db: Db, t: nat)
    requires Inv(db) && t in db.tasks && db.tasks[t].kind == ResumeParse && db.tasks[t].status == Running
    ensures OpenResume(db, db.tasks[t].resource) && !HasProfile(db.profiles, db.tasks[t].resource)
  {
    OpenHasProcessing(db, t);
    ProfileCounts(db.resumes, db.profiles, db.tasks[t].resource);
    ProcessingIsUndeleted(db.resumes, db.tasks[t].resource);
    hide Inv, HasProfile;
  }

  lemma GivingUpResumeFails(db: Db, op: Op, db': Db, t: nat, code: FailureCode)
    requires Inv(db) && Step(db, op, db') && GivesUpResume(db, op, t, code)
    ensures FailedRow(db', t, db.now, Some(code), None)
  {
    hide Inv, FailResume, OpenResume;
    RunningIsClean(db, t);
    WorkedResumeIsOpen(db, t);
    WriteFailsResume(db, t, op.resume, op.token, code);
  }

  lemma TimeoutCloses(db: Db, t: nat)
    requires RunsOut(db, TimeoutOp(t), t)
    ensures t in FailAfterTimeout(db, t).0.tasks
    ensures FailAfterTimeout(db, t).0.tasks[t] == TimedOut(db.tasks[t], db.now)
  {}

  predicate RanOut(db: Db, db': Db, t: nat) {
    && t in db.tasks
    && if db.tasks[t].kind == JobParse then FailedRow(db', t, db.now, None, Some(TemporaryTechnicalFailure))
       else FailedRow(db', t, db.now, Some(InternalError), None)
  }

  lemma RunningOutFails(db: Db, op: Op, db': Db, t: nat)
    requires Inv(db) && Step(db, op, db') && RunsOut(db, op, t)
    ensures RanOut(db, db', t)
  {
    hide Inv, FailStalled, FailAfterTimeout;
    RunningIsClean(db, t);
    if op.RecoverOp? { RecoveryCloses(db, t); } else { TimeoutCloses(db, t); }
  }

  lemma RecoveryCloses(db: Db, t: nat)
    requires RunsOut(db, RecoverOp, t) && db.tasks[t].leaseExpires.Some?
    requires db.tasks[t].leaseExpires.value <= db.tasks[t].startedAt.value + 300 * SECOND
    ensures t in FailStalled(db, STALLED_AFTER).tasks
    ensures FailStalled(db, STALLED_AFTER).tasks[t] == TimedOut(db.tasks[t], db.now)
  {
    hide StalledResume;
  }

  lemma {:induction false} FailedRowStays(dbs: seq<Db>, ops: seq<Op>, i: nat, n: nat, t: nat, at: int,
        code: Option<FailureCode>, semantics: Option<Semantics>)
    requires Run(dbs, ops) && i <= n < |dbs| && FailedRow(dbs[i], t, at, code, semantics)
    ensures FailedRow(dbs[n], t, at, code, semantics)
  {
    hide Run;
    ClosedForever(dbs, ops, i, n, t);
  }

  /** The other way round: an accepted failure is on the row from then on, for ever. */
  lemma GivingUpIsKept(dbs: seq<Db>, ops: seq<Op>, i: nat, n: nat, t: nat)
    requires Run(dbs, ops) && i < n < |dbs|
    ensures forall semantics :: GivesUpJob(dbs[i], ops[i], t, semantics) ==> FailedRow(dbs[n], t, dbs[i].now, None, Some(semantics))
    ensures forall code :: GivesUpResume(dbs[i], ops[i], t, code) ==> FailedRow(dbs[n], t, dbs[i].now, Some(code), None)
  {
    hide Inv, Step, GivesUpJob, GivesUpResume, FailedRow;
    RunStep(dbs, ops, i);
    hide Run;
    forall semantics | GivesUpJob(dbs[i], ops[i], t, semantics) ensures FailedRow(dbs[n], t, dbs[i].now, None, Some(semantics)) {
      GivingUpJobFails(dbs[i], ops[i], dbs[i + 1], t, semantics);
      FailedRowStays(dbs, ops, i + 1, n, t, dbs[i].now, None, Some(semantics));
    }
    forall code | GivesUpResume(dbs[i], ops[i], t, code) ensures FailedRow(dbs[n], t, dbs[i].now, Some(code), None) {
      GivingUpResumeFails(dbs[i], ops[i], dbs[i + 1], t, code);
      FailedRowStays(dbs, ops, i + 1, n, t, dbs[i].now, Some(code), None);
    }
  }

  /** And so is a timeout, with the reason reserved for it. */
  lemma RunningOutIsKept(dbs: seq<Db>, ops: seq<Op>, i: nat, n: nat, t: nat)
    requires Run(dbs, ops) && i < n < |dbs| && RunsOut(dbs[i], ops[i], t)
    ensures RanOut(dbs[i], dbs[n], t)
  {
    hide Inv, Step, RunsOut, FailedRow;
    RunStep(dbs, ops, i);
    hide Run;
    RunningOutFails(dbs[i], ops[i], dbs[i + 1], t);
    if dbs[i].tasks[t].kind == JobParse {
      FailedRowStays(dbs, ops, i + 1, n, t, dbs[i].now, None, Some(TemporaryTechnicalFailure));
    } else {
      FailedRowStays(dbs, ops, i + 1, n, t, dbs[i].now, Some(InternalError), None);
    }
  }

  // ----- profiles -----------------------------------------------------------

  predicate HandsInProfile(db: Db, op: Op, r: nat, facts: Extraction) {
    op.CompleteResumeOp? && op.resume == r && op.facts == facts && Working(db, op.task, ResumeParse, r, op.token)
  }

  /** A name that is more than spaces, a contact, an education, and work or a project. */
  predicate MayMatch(facts: Extraction) {
    && facts.fullName.Some? && (exists i :: 0 <= i < |facts.fullName.value| && !Text.IsSpace(facts.fullName.value[i]))
    && facts.hasContact && facts.hasEducation && facts.hasWorkOrProject
  }

  lemma ProfileStep(db: Db, op: Op, db': Db, p: nat)
    requires Inv(db) && Step(db, op, db') && p in db'.profiles && p !in db.profiles
    ensures HandsInProfile(db, op, db'.profiles[p].resume, db'.profiles[p].facts)
    ensures db'.profiles[p].ready <==> MayMatch(db'.profiles[p].facts)
  {
    hide Inv;
    if !op.CompleteResumeOp? {
      hide Apply;
      OthersKeepProfiles(db, op);
    }
  }

  /** Every profile holds the facts its resume's worker handed in under the current
      token, and is ready for matching exactly when those facts say so. */
  lemma {:induction false} ProfileWasHandedIn(dbs: seq<Db>, ops: seq<Op>, n: nat, p: nat)
    requires Run(dbs, ops) && n < |dbs| && p in dbs[n].profiles
    ensures exists i: nat :: i < n && i < |ops| && HandsInProfile(dbs[i], ops[i], dbs[n].profiles[p].resume, dbs[n].profiles[p].facts)
    ensures dbs[n].profiles[p].ready <==> MayMatch(dbs[n].profiles[p].facts)
  {
    hide Inv, Step, HandsInProfile, MayMatch;
    if n > 0 {
      RunStep(dbs, ops, n - 1);
      if p in dbs[n - 1].profiles {
        ProfilesRemain(dbs[n - 1], ops[n - 1], dbs[n], p);
        ProfileWasHandedIn(dbs, ops, n - 1, p);
      } else {
        ProfileStep(dbs[n - 1], ops[n - 1], dbs[n], p);
      }
    }
  }

  predicate ProfileRow(db: Db, p: nat, r: nat, facts: Extraction) {
    p in db.profiles && db.profiles[p].resume == r && db.profiles[p].facts == facts
  }

  lemma CompletionAddsProfile(db: Db, t: nat, r: nat, k: nat, facts: Extraction)
    requires Working(db, t, ResumeParse, r, k) && OpenResume(db, r) && !HasProfile(db.profiles, r)
    ensures ProfileRow(CompleteResume(db, t, r, k, facts).0, db.next, r, facts)
  {
    hide MatchingReadiness;
  }

  lemma HandedInProfileIsStored(db: Db, op: Op, db': Db, r: nat, facts: Extraction)
    requires Inv(db) && Step(db, op, db') && HandsInProfile(db, op, r, facts)
    ensures ProfileRow(db', db.next, r, facts)
  {
    hide Inv, CompleteResume, OpenResume, HasProfile;
    WorkedResumeIsOpen(db, op.task);
    CompletionAddsProfile(db, op.task, r, op.token, facts);
  }

  /** And what a resume worker hands in stays, under the id drawn at that step. */
  lemma {:induction false} HandedInProfileLasts(dbs: seq<Db>, ops: seq<Op>, i: nat, n: nat, r: nat, facts: Extraction)
    requires Run(dbs, ops) && i < n < |dbs| && HandsInProfile(dbs[i], ops[i], r, facts)
    ensures ProfileRow(dbs[n], dbs[i].next, r, facts)
  {
    hide Inv, Step;
    RunStep(dbs, ops, i);
    HandedInProfileIsStored(dbs[i], ops[i], dbs[i + 1], r, facts);
    if i + 1 < n {
      HandedInProfileLasts(dbs, ops, i, n - 1, r, facts);
      RunStep(dbs, ops, n - 1);
      ProfilesRemain(dbs[n - 1], ops[n - 1], dbs[n], dbs[i].next);
    }
  }
}
