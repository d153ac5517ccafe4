/** Leases over whole runs: exclusivity until expiry, fencing of superseded tokens,
    immutability of terminal rows, and what the timeout handler may close. */
module TaskLeases {
  import opened Common
  import opened Tasks
  import opened TaskInvariant
  import opened TaskHistory

  // ----- how one row moves in one step --------------------------------------

  /** Only the dispatcher's columns differ, a celery id is never replaced, and a
      confirmed row is not touched. */
  predicate DispatchOnly(x: Task, y: Task) {
    && x.status == Queued && (x.dispatchedAt.None? || x.dispatchToken.Some?)
    && y == x.(celeryId := y.celeryId, dispatchToken := y.dispatchToken, dispatchExpires := y.dispatchExpires,
               dispatchedAt := y.dispatchedAt)
    && (x.celeryId.Some? ==> y.celeryId == x.celeryId)
  }

  predicate ClaimedNow(db: Db, op: Op, t: nat, y: Task)
    requires t in db.tasks
  {
    op.ClaimOp? && op.task == t && Claimable(db.tasks[t], db.now)
    && y == db.tasks[t].(status := Running, token := Some(db.next), startedAt := Some(db.now),
                         leaseExpires := Some(db.now + op.seconds * SECOND))
  }

  predicate ReleasedNow(x: Task, op: Op, t: nat, y: Task) {
    op.ReleaseOp? && op.task == t && x.status == Running && x.token == Some(op.token)
    && y == x.(status := Queued, token := None, leaseExpires := None, startedAt := None, dispatchedAt := None)
  }

  predicate ClosedNow(x: Task, y: Task) {
    x.status == Running && Closed(x, y) && SameIdentity(x, y)
  }

  /** Everything one transaction can do to an existing row. */
  predicate Moves(db: Db, op: Op, t: nat, y: Task)
    requires t in db.tasks
  {
    || y == db.tasks[t]
    || DispatchOnly(db.tasks[t], y)
    || ClaimedNow(db, op, t, y)
    || ReleasedNow(db.tasks[t], op, t, y)
    || ClosedNow(db.tasks[t], y)
  }

  lemma {:induction false} LeaseAllMoves(db: Db, ids: seq<nat>, seconds: nat, t: nat)
    requires t in db.tasks && forall u :: u in ids ==> u in db.tasks && db.tasks[u].status == Queued && db.tasks[u].dispatchedAt.None?
    ensures var db' := LeaseAll(db, ids, seconds).0;
      && db'.next >= db.next && (db'.tasks[t] == db.tasks[t] || DispatchOnly(db.tasks[t], db'.tasks[t]))
      && db'.tasks[t].dispatchedAt == db.tasks[t].dispatchedAt
  {
    if ids != [] {
      var n := |ids| - 1;
      LeaseAllMoves(db, ids[..n], seconds, t);
      LeaseAllMoves(db, ids[..n], seconds, ids[n]);
    }
  }

  predicate Unmoved(db: Db, db': Db, t: nat)
    requires t in db.tasks
  {
    t in db'.tasks && db'.next >= db.next && db'.tasks[t] == db.tasks[t]
  }

  lemma ConfirmMoves(db: Db, u: nat, token: nat, t: nat)
    requires t in db.tasks
    ensures var db' := ConfirmDispatch(db, u, token).0;
      Unmoved(db, db', t) || (t in db'.tasks && db'.next >= db.next && DispatchOnly(db.tasks[t], db'.tasks[t]))
  {}

  lemma ReleaseDispatchMoves(db: Db, u: nat, token: nat, t: nat)
    requires t in db.tasks
    ensures var db' := ReleaseDispatch(db, u, token).0;
      Unmoved(db, db', t) || (t in db'.tasks && db'.next >= db.next && DispatchOnly(db.tasks[t], db'.tasks[t]))
  {}

  lemma ClaimMoves(db: Db, u: nat, seconds: nat, t: nat)
    requires t in db.tasks
    ensures var db' := ClaimExecution(db, u, seconds).0;
      Unmoved(db, db', t)
      || (t in db'.tasks && db'.next >= db.next && ClaimedNow(db, ClaimOp(u, seconds), t, db'.tasks[t]))
  {}

  lemma ReleaseMoves(db: Db, u: nat, token: nat, t: nat)
    requires t in db.tasks
    ensures var db' := ReleaseForRetry(db, u, token).0;
      Unmoved(db, db', t)
      || (t in db'.tasks && db'.next >= db.next && ReleasedNow(db.tasks[t], ReleaseOp(u, token), t, db'.tasks[t]))
  {}

  predicate Closing(db: Db, db': Db, t: nat)
    requires t in db.tasks
  {
    Unmoved(db, db', t) || (t in db'.tasks && db'.next >= db.next && ClosedNow(db.tasks[t], db'.tasks[t]))
  }

  lemma TimeoutMoves(db: Db, u: nat, t: nat)
    requires t in db.tasks && RowOk(db.tasks[t], db.now)
    ensures Closing(db, FailAfterTimeout(db, u).0, t)
  {}

  lemma CompleteResumeMoves(db: Db, u: nat, r: nat, token: nat, facts: Extraction, t: nat)
    requires t in db.tasks && RowOk(db.tasks[t], db.now)
    ensures Closing(db, CompleteResume(db, u, r, token, facts).0, t)
  {
    hide HasProfile, MatchingReadiness;
  }

  lemma FailResumeMoves(db: Db, u: nat, r: nat, token: nat, code: FailureCode, t: nat)
    requires t in db.tasks && RowOk(db.tasks[t], db.now)
    ensures Closing(db, FailResume(db, u, r, token, code).0, t)
  {}

  lemma CompleteJobMoves(db: Db, u: nat, j: nat, token: nat, snapshot: Snapshot, t: nat)
    requires t in db.tasks && RowOk(db.tasks[t], db.now)
    ensures Closing(db, CompleteJob(db, u, j, token, snapshot).0, t)
  {}

  lemma FailJobMoves(db: Db, u: nat, j: nat, token: nat, semantics: Semantics, t: nat)
    requires t in db.tasks && RowOk(db.tasks[t], db.now)
    ensures Closing(db, FailJob(db, u, j, token, semantics).0, t)
  {}

  lemma RecoverMoves(db: Db, t: nat)
    requires t in db.tasks && RowOk(db.tasks[t], db.now)
    ensures Closing(db, FailStalled(db, STALLED_AFTER), t)
  {
    hide DispatchOnly, StalledResume;
  }

  lemma CreatingMoves(db: Db, op: Op, t: nat)
    requires t in db.tasks && t != db.next && t != db.next + 1
    requires op.UploadResumeOp? || op.UploadJobOp? || op.SubmitJobOp? || op.RetryJobOp?
    ensures t in Apply(db, op).tasks && Apply(db, op).next >= db.next && Apply(db, op).tasks[t] == db.tasks[t]
  {
    hide LatestTask;
  }

  lemma RowMoves(db: Db, op: Op, db': Db, t: nat)
    requires Inv(db) && Step(db, op, db') && t in db.tasks
    ensures t in db'.tasks && db'.next >= db.next && Moves(db, op, t, db'.tasks[t])
  {
    hide Inv, RowOk, DispatchOnly, ClosedNow, ConfirmDispatch, ReleaseDispatch, ClaimExecution, ReleaseForRetry,
      FailAfterTimeout, CompleteResume, FailResume, CompleteJob, FailJob, FailStalled, ClaimedNow, ReleasedNow,
      UploadResume, UploadJob, SubmitJob, RetryJob, Claimable;
    RowFacts(db, t);
    TaskIsFree(db, db.next);
    TaskIsFree(db, db.next + 1);
    match op
    case ClaimDispatchOp(batch, seconds) =>
      assert forall u :: u in DispatchBatch(db, batch) ==> u in DispatchableSet(db);
      LeaseAllMoves(db, DispatchBatch(db, batch), seconds, t);
    case ConfirmOp(u, token) => ConfirmMoves(db, u, token, t);
    case ReleaseDispatchOp(u, token) => ReleaseDispatchMoves(db, u, token, t);
    case ClaimOp(u, seconds) => ClaimMoves(db, u, seconds, t);
    case ReleaseOp(u, token) => ReleaseMoves(db, u, token, t);
    case TimeoutOp(u) => TimeoutMoves(db, u, t);
    case RecoverOp => RecoverMoves(db, t);
    case CompleteResumeOp(u, r, token, facts) => CompleteResumeMoves(db, u, r, token, facts, t);
    case FailResumeOp(u, r, token, code) => FailResumeMoves(db, u, r, token, code, t);
    case CompleteJobOp(u, j, token, snapshot) => CompleteJobMoves(db, u, j, token, snapshot, t);
    case FailJobOp(u, j, token, semantics) => FailJobMoves(db, u, j, token, semantics, t);
    case UploadResumeOp(candidate) => CreatingMoves(db, op, t);
    case UploadJobOp(hr) => CreatingMoves(db, op, t);
    case SubmitJobOp(hr, j, fileReady) => CreatingMoves(db, op, t);
    case RetryJobOp(hr, j, fileReady, matched) => CreatingMoves(db, op, t);
    case Wait =>
    case PublishOp(token) =>
    case DeleteResumeOp(candidate, r, started) => assert db'.tasks == db.tasks;
    case DeleteJobOp(hr, j, matched) => assert db'.tasks == db.tasks;
  }

  // ----- leases over one step -----------------------------------------------

  /** The worker that got token `k` still has its lease, which ends at `e`. */
  predicate HoldsLease(db: Db, t: nat, k: nat, e: int) {
    HoldsExecution(db, t, k) && db.tasks[t].leaseExpires == Some(e)
  }

  /** Token `k` was handed out once and is not on the row. */
  predicate Superseded(db: Db, t: nat, k: nat) {
    t in db.tasks && k < db.next && db.tasks[t].token != Some(k)
  }

  predicate ClosedFor(db: Db, t: nat, k: nat) {
    Superseded(db, t, k) && Terminal(db.tasks[t].status)
  }

  lemma SupersededStays(db: Db, op: Op, db': Db, t: nat, k: nat)
    requires Inv(db) && Step(db, op, db') && Superseded(db, t, k)
    ensures Superseded(db', t, k)
  {
    hide Inv, Apply;
    RowMoves(db, op, db', t);
  }

  lemma ClosedStays(db: Db, op: Op, db': Db, t: nat)
    requires Inv(db) && Step(db, op, db') && t in db.tasks && Terminal(db.tasks[t].status)
    ensures t in db'.tasks && db'.tasks[t] == db.tasks[t]
  {
    hide Inv, Apply;
    RowMoves(db, op, db', t);
  }

  lemma LeaseStep(db: Db, op: Op, db': Db, t: nat, k: nat, e: int)
    requires Inv(db) && Step(db, op, db') && HoldsLease(db, t, k, e) && k < db.next
    ensures HoldsLease(db', t, k, e) || Superseded(db', t, k)
    ensures db.now < e && op != ReleaseOp(t, k) ==> HoldsLease(db', t, k, e) || ClosedFor(db', t, k)
  {
    hide Inv, Apply;
    RowMoves(db, op, db', t);
  }

  // ----- leases over whole runs ---------------------------------------------

  lemma RunStep(dbs: seq<Db>, ops: seq<Op>, n: nat)
    requires Run(dbs, ops) && n < |ops|
    ensures |dbs| == |ops| + 1 && Step(dbs[n], ops[n], dbs[n + 1]) && Inv(dbs[n])
  {
    hide Inv, Apply;
    RunKeeps(dbs, ops, n);
  }

  lemma {:induction false} ClockAdvances(dbs: seq<Db>, ops: seq<Op>, i: nat, j: nat)
    requires Run(dbs, ops) && i <= j < |dbs|
    ensures dbs[i].now <= dbs[j].now && (i < j ==> dbs[i].now < dbs[j].now)
  {
    if i < j { ClockAdvances(dbs, ops, i, j - 1); }
  }

  lemma {:induction false} RowsRemain(dbs: seq<Db>, ops: seq<Op>, i: nat, j: nat, t: nat)
    requires Run(dbs, ops) && i <= j < |dbs| && t in dbs[i].tasks
    ensures t in dbs[j].tasks && SameIdentity(dbs[i].tasks[t], dbs[j].tasks[t])
    ensures dbs[i].tasks[t].celeryId.Some? ==> dbs[j].tasks[t].celeryId == dbs[i].tasks[t].celeryId
  {
    hide Inv, Step;
    if i < j {
      RowsRemain(dbs, ops, i, j - 1, t);
      RunStep(dbs, ops, j - 1);
      RowMoves(dbs[j - 1], ops[j - 1], dbs[j], t);
    }
  }

  /** Terminal rows never change. */
  lemma {:induction false} ClosedForever(dbs: seq<Db>, ops: seq<Op>, i: nat, j: nat, t: nat)
    requires Run(dbs, ops) && i <= j < |dbs| && t in dbs[i].tasks && Terminal(dbs[i].tasks[t].status)
    ensures t in dbs[j].tasks && dbs[j].tasks[t] == dbs[i].tasks[t]
  {
    hide Inv, Step;
    if i < j {
      ClosedForever(dbs, ops, i, j - 1, t);
      RunStep(dbs, ops, j - 1);
      ClosedStays(dbs[j - 1], ops[j - 1], dbs[j], t);
    }
  }

  lemma {:induction false} SupersededForever(dbs: seq<Db>, ops: seq<Op>, i: nat, j: nat, t: nat, k: nat)
    requires Run(dbs, ops) && i <= j < |dbs| && Superseded(dbs[i], t, k)
    ensures Superseded(dbs[j], t, k)
  {
    hide Inv, Step;
    if i < j {
      SupersededForever(dbs, ops, i, j - 1, t, k);
      RunStep(dbs, ops, j - 1);
      SupersededStays(dbs[j - 1], ops[j - 1], dbs[j], t, k);
    }
  }

  /** At step `i` a worker claimed `t` for `seconds` and was handed token `k`. */
  predicate ClaimedAt(dbs: seq<Db>, ops: seq<Op>, i: nat, t: nat, seconds: nat, k: nat) {
    && i < |ops| && i < |dbs|
    && ops[i] == ClaimOp(t, seconds) && ClaimExecution(dbs[i], t, seconds).1 == Some(k)
  }

  function Expiry(db: Db, seconds: nat): int {
    db.now + seconds * SECOND
  }

  predicate ReleasedBetween(ops: seq<Op>, i: nat, j: nat, t: nat, k: nat)
    requires j <= |ops|
  {
    exists m :: i < m < j && ops[m] == ReleaseOp(t, k)
  }

  lemma ClaimGivesLease(dbs: seq<Db>, ops: seq<Op>, i: nat, t: nat, seconds: nat, k: nat)
    requires Run(dbs, ops) && ClaimedAt(dbs, ops, i, t, seconds, k)
    ensures HoldsLease(dbs[i + 1], t, k, Expiry(dbs[i], seconds)) && k < dbs[i + 1].next
  {
    hide Inv;
    RunStep(dbs, ops, i);
  }

  lemma ReleaseWindow(ops: seq<Op>, i: nat, j: nat, t: nat, k: nat)
    requires i < j < |ops|
    ensures ReleasedBetween(ops, i, j + 1, t, k) <==> ReleasedBetween(ops, i, j, t, k) || ops[j] == ReleaseOp(t, k)
  {}

  /** What became of the lease with token `k` and expiry `e`. */
  predicate Outcome(db: Db, t: nat, k: nat, e: int, released: bool) {
    && k < db.next
    && (HoldsLease(db, t, k, e) || Superseded(db, t, k))
    && (db.now <= e && !released ==> HoldsLease(db, t, k, e) || ClosedFor(db, t, k))
  }

  lemma OutcomeStep(dbs: seq<Db>, ops: seq<Op>, i: nat, j: nat, t: nat, k: nat, e: int)
    requires Run(dbs, ops) && i < j < |ops| && Outcome(dbs[j], t, k, e, ReleasedBetween(ops, i, j, t, k))
    ensures Outcome(dbs[j + 1], t, k, e, ReleasedBetween(ops, i, j + 1, t, k))
  {
    hide Inv, Step, HoldsLease, Superseded, ClosedFor, ReleasedBetween;
    RunStep(dbs, ops, j);
    ClockAdvances(dbs, ops, j, j + 1);
    ReleaseWindow(ops, i, j, t, k);
    LeaseOutcomeStep(dbs[j], ops[j], dbs[j + 1], t, k, e);
  }

  lemma {:induction false} LeaseOutcome(dbs: seq<Db>, ops: seq<Op>, i: nat, j: nat, t: nat, seconds: nat, k: nat)
    requires Run(dbs, ops) && ClaimedAt(dbs, ops, i, t, seconds, k) && i < j < |dbs|
    ensures Outcome(dbs[j], t, k, Expiry(dbs[i], seconds), ReleasedBetween(ops, i, j, t, k))
  {
    assert |dbs| == |ops| + 1;
    hide Run, ReleasedBetween, ClaimedAt, Expiry, Outcome;
    if i + 1 == j {
      FirstOutcome(dbs, ops, i, t, seconds, k);
    } else {
      LeaseOutcome(dbs, ops, i, j - 1, t, seconds, k);
      OutcomeStep(dbs, ops, i, j - 1, t, k, Expiry(dbs[i], seconds));
    }
  }

  lemma FirstOutcome(dbs: seq<Db>, ops: seq<Op>, i: nat, t: nat, seconds: nat, k: nat)
    requires Run(dbs, ops) && ClaimedAt(dbs, ops, i, t, seconds, k) && i + 1 < |dbs|
    ensures Outcome(dbs[i + 1], t, k, Expiry(dbs[i], seconds), ReleasedBetween(ops, i, i + 1, t, k))
  {
    hide Run;
    ClaimGivesLease(dbs, ops, i, t, seconds, k);
  }

  lemma LeaseOutcomeStep(db: Db, op: Op, db': Db, t: nat, k: nat, e: int)
    requires Inv(db) && Step(db, op, db') && k < db.next
    requires HoldsLease(db, t, k, e) || Superseded(db, t, k)
    ensures k < db'.next && (HoldsLease(db', t, k, e) || Superseded(db', t, k))
    ensures db.now < e && op != ReleaseOp(t, k) && (HoldsLease(db, t, k, e) || ClosedFor(db, t, k)) ==>
      HoldsLease(db', t, k, e) || ClosedFor(db', t, k)
  {
    hide Inv, Step;
    RowMoves(db, op, db', t);
    if HoldsLease(db, t, k, e) {
      LeaseStep(db, op, db', t, k, e);
    } else {
      SupersededStays(db, op, db', t, k);
      if Terminal(db.tasks[t].status) { ClosedStays(db, op, db', t); }
    }
  }

  /** Exclusivity: until the lease expires no other claim of the task succeeds,
      unless the worker gave it back; and the row stays the worker's or closed. */
  lemma LeaseIsExclusive(dbs: seq<Db>, ops: seq<Op>, i: nat, j: nat, t: nat, seconds: nat, k: nat)
    requires Run(dbs, ops) && ClaimedAt(dbs, ops, i, t, seconds, k) && i < j < |dbs|
    requires dbs[j].now < Expiry(dbs[i], seconds) && !ReleasedBetween(ops, i, j, t, k)
    ensures HoldsLease(dbs[j], t, k, Expiry(dbs[i], seconds)) || ClosedFor(dbs[j], t, k)
    ensures forall other :: ClaimExecution(dbs[j], t, other) == (dbs[j], None)
  {
    LeaseOutcome(dbs, ops, i, j, t, seconds, k);
  }

  /** Two successful claims of one task: the second comes at or after the expiry of
      the first, or after its release; and they carry different tokens. */
  lemma ClaimsAreApart(dbs: seq<Db>, ops: seq<Op>, i: nat, j: nat, t: nat, s1: nat, s2: nat, k1: nat, k2: nat)
    requires Run(dbs, ops) && ClaimedAt(dbs, ops, i, t, s1, k1) && ClaimedAt(dbs, ops, j, t, s2, k2) && i < j
    ensures dbs[j].now >= Expiry(dbs[i], s1) || ReleasedBetween(ops, i, j, t, k1)
    ensures k1 < k2
  {
    LeaseOutcome(dbs, ops, i, j, t, s1, k1);
    if dbs[j].now < Expiry(dbs[i], s1) && !ReleasedBetween(ops, i, j, t, k1) {
      LeaseIsExclusive(dbs, ops, i, j, t, s1, k1);
    }
  }

  /** No write that carries token `k` does anything. */
  ghost predicate Fenced(db: Db, t: nat, k: nat) {
    && ReleaseForRetry(db, t, k) == (db, false)
    && (forall r, facts :: CompleteResume(db, t, r, k, facts) == (db, false))
    && (forall r, code :: FailResume(db, t, r, k, code) == (db, false))
    && (forall j, snapshot :: CompleteJob(db, t, j, k, snapshot) == (db, false))
    && (forall j, semantics :: FailJob(db, t, j, k, semantics) == (db, false))
  }

  lemma SupersededIsFenced(db: Db, t: nat, k: nat)
    requires Superseded(db, t, k)
    ensures Fenced(db, t, k)
  {}

  /** Fencing: once another claim, a release or a close took the row away from token
      `k`, every later write with `k` returns false and changes nothing, for ever. */
  lemma SupersededTokensAreFenced(dbs: seq<Db>, ops: seq<Op>, i: nat, m: nat, j: nat, t: nat, seconds: nat, k: nat)
    requires Run(dbs, ops) && ClaimedAt(dbs, ops, i, t, seconds, k) && i < m <= j < |dbs|
    requires !HoldsExecution(dbs[m], t, k)
    ensures Fenced(dbs[j], t, k)
  {
    LeaseOutcome(dbs, ops, i, m, t, seconds, k);
    SupersededForever(dbs, ops, m, j, t, k);
    SupersededIsFenced(dbs[j], t, k);
  }

  // ----- the timeout handler ------------------------------------------------

  /** `fail_execution_after_timeout` carries no token. Called by the worker of token
      `k` that has not released, and successful, it closes the worker's own lease
      exactly when that lease has not expired; after the expiry it closes a lease
      of somebody else. */
  lemma TimeoutClosesOwnLeaseIff(dbs: seq<Db>, ops: seq<Op>, i: nat, j: nat, t: nat, seconds: nat, k: nat)
    requires Run(dbs, ops) && ClaimedAt(dbs, ops, i, t, seconds, k) && i < j < |dbs|
    requires !ReleasedBetween(ops, i, j, t, k)
    requires FailAfterTimeout(dbs[j], t).1
    ensures dbs[j].tasks[t].token == Some(k) <==> dbs[j].now < Expiry(dbs[i], seconds)
  {
    LeaseOutcome(dbs, ops, i, j, t, seconds, k);
  }

  /** When the transaction of the handler may run. The delivery starts no later than
      its claim. The soft limit raises the exception, so it is the earliest moment; what
      follows (a new event loop, engine, session, the row lock) ends with the process at
      the hard limit, the latest moment. */
  ghost predicate HandlerTime(claim: int, handler: int, soft: nat, hard: nat) {
    exists start: int :: start <= claim && WithinLimits(start, handler, soft, hard)
  }

  predicate WithinLimits(start: int, handler: int, soft: nat, hard: nat) {
    start + soft * SECOND <= handler <= start + hard * SECOND
  }

  /** The handler of the worker that claimed at `i` takes effect at `j`. */
  ghost predicate TimedOutAt(dbs: seq<Db>, ops: seq<Op>, i: nat, j: nat, t: nat, soft: nat, hard: nat) {
    && i < j < |ops| && j < |dbs| && ops[j] == TimeoutOp(t)
    && t in dbs[j].tasks && FailAfterTimeout(dbs[j], t).1 && HandlerTime(dbs[i].now, dbs[j].now, soft, hard)
  }

  ghost predicate OwnTimeout(dbs: seq<Db>, ops: seq<Op>, i: nat, j: nat, t: nat, k: nat, soft: nat, hard: nat) {
    TimedOutAt(dbs, ops, i, j, t, soft, hard) && !ReleasedBetween(ops, i, j, t, k)
  }

  /** A worker that has not given its lease back never closes another's. */
  ghost predicate TimeoutSafe(seconds: nat, soft: nat, hard: nat) {
    forall dbs: seq<Db>, ops: seq<Op>, i: nat, j: nat, t: nat, k: nat ::
      Run(dbs, ops) && ClaimedAt(dbs, ops, i, t, seconds, k) && OwnTimeout(dbs, ops, i, j, t, k, soft, hard) ==>
        dbs[j].tasks[t].token == Some(k)
  }

  /** The handler is safe exactly when the hard limit does not exceed the lease. The
      settings tie neither limit to the lease, so the unsafe pairs can be configured;
      a soft limit below the lease does not help. */
  lemma TimeoutSafeIff(seconds: nat, soft: nat, hard: nat)
    requires 31 <= seconds <= 300 && soft < hard
    ensures TimeoutSafe(seconds, soft, hard) <==> hard <= seconds
  {
    if hard <= seconds {
      forall dbs: seq<Db>, ops: seq<Op>, i: nat, j: nat, t: nat, k: nat |
        Run(dbs, ops) && ClaimedAt(dbs, ops, i, t, seconds, k) && OwnTimeout(dbs, ops, i, j, t, k, soft, hard)
        ensures dbs[j].tasks[t].token == Some(k)
      {
        LeaseOutcome(dbs, ops, i, j, t, seconds, k);
      }
    } else {
      var (dbs, ops) := LateTimeout(seconds, hard);
      LateTimeoutHappens(seconds, soft, hard);
    }
  }

  /** Claim, expiry, a second claim just before the first worker's handler commits. */
  function LateTimeout(seconds: nat, hard: nat): (seq<Db>, seq<Op>) {
    var ops := [UploadResumeOp(0), ClaimOp(1, seconds), ClaimOp(1, seconds), TimeoutOp(1)];
    var d1 := At(Apply(Empty, ops[0]), 1);
    var d2 := At(Apply(d1, ops[1]), hard * SECOND);
    var d3 := At(Apply(d2, ops[2]), hard * SECOND + 1);
    ([Empty, d1, d2, d3, At(Apply(d3, ops[3]), hard * SECOND + 2)], ops)
  }

  lemma StepsTo(db: Db, op: Op, now: int)
    requires Enabled(db, op) && now > db.now
    ensures Step(db, op, At(Apply(db, op), now))
  {}

  lemma NothingReleased(ops: seq<Op>, i: nat, j: nat, t: nat, k: nat)
    requires j <= |ops| && forall m :: i < m < j ==> !ops[m].ReleaseOp?
    ensures !ReleasedBetween(ops, i, j, t, k)
  {}

  lemma LateTimeoutHappens(seconds: nat, soft: nat, hard: nat)
    requires 31 <= seconds <= 300 && soft < hard && seconds < hard
    ensures var (dbs, ops) := LateTimeout(seconds, hard);
      && Run(dbs, ops) && ClaimedAt(dbs, ops, 1, 1, seconds, 2) && OwnTimeout(dbs, ops, 1, 3, 1, 2, soft, hard)
      && dbs[3].tasks[1].token == Some(3)
  {
    hide LatestTask, LastCreatedTask, LeaseAll, HasProfile, MatchingReadiness, StalledResume, ReleasedBetween;
    var (dbs, ops) := LateTimeout(seconds, hard);
    NothingReleased(ops, 1, 3, 1, 2);
    StepsTo(dbs[0], ops[0], 1);
    StepsTo(dbs[1], ops[1], hard * SECOND);
    StepsTo(dbs[2], ops[2], hard * SECOND + 1);
    StepsTo(dbs[3], ops[3], hard * SECOND + 2);
    hide Step, Enabled;
    assert hard * SECOND >= seconds * SECOND + SECOND;
    assert WithinLimits(1, hard * SECOND + 1, soft, hard);
    assert ops[0] == UploadResumeOp(0) && ops[1] == ClaimOp(1, seconds) && ops[2] == ClaimOp(1, seconds) && ops[3] == TimeoutOp(1);
  }

  /** The soft limit below the lease, the hard limit above it. */
  lemma SoftLimitBelowLeaseIsNotEnough()
    ensures !TimeoutSafe(180, 179, 300)
  {
    TimeoutSafeIff(180, 179, 300);
  }

  /** Claim, release, a second claim, the first worker's handler at its soft limit. */
  function ReleasedTimeout(seconds: nat, soft: nat): (seq<Db>, seq<Op>) {
    var ops := [UploadResumeOp(0), ClaimOp(1, seconds), ReleaseOp(1, 2), ClaimOp(1, seconds), TimeoutOp(1)];
    var d1 := At(Apply(Empty, ops[0]), 1);
    var d2 := At(Apply(d1, ops[1]), 2);
    var d3 := At(Apply(d2, ops[2]), soft * SECOND);
    var d4 := At(Apply(d3, ops[3]), soft * SECOND + 1);
    ([Empty, d1, d2, d3, d4, At(Apply(d4, ops[4]), soft * SECOND + 2)], ops)
  }

  lemma ReleasedTimeoutRuns(seconds: nat, soft: nat)
    requires 31 <= seconds <= 300 && 1 <= soft
    ensures var (dbs, ops) := ReleasedTimeout(seconds, soft); Run(dbs, ops)
  {
    var (dbs, ops) := ReleasedTimeout(seconds, soft);
    hide Apply;
    StepsTo(dbs[0], ops[0], 1);
    StepsTo(dbs[1], ops[1], 2);
    StepsTo(dbs[2], ops[2], soft * SECOND);
    StepsTo(dbs[3], ops[3], soft * SECOND + 1);
    StepsTo(dbs[4], ops[4], soft * SECOND + 2);
    hide Step, Enabled;
  }

  lemma ReleasedTimeoutRows(seconds: nat, soft: nat)
    requires 31 <= seconds <= 300 && 1 <= soft
    ensures var (dbs, ops) := ReleasedTimeout(seconds, soft);
      && ClaimExecution(dbs[1], 1, seconds).1 == Some(2) && dbs[1].now == 1
      && 1 in dbs[4].tasks && dbs[4].tasks[1].status == Running && dbs[4].tasks[1].token == Some(3)
      && dbs[4].tasks[1].leaseExpires == Some(soft * SECOND + seconds * SECOND) && dbs[4].now == soft * SECOND + 1
  {
    hide LatestTask, LastCreatedTask, LeaseAll, HasProfile, MatchingReadiness, StalledResume, Enabled, Step;
    var (dbs, ops) := ReleasedTimeout(seconds, soft);
    assert dbs[1].next == 2 && dbs[1].tasks[1].status == Queued;
    assert dbs[2].next == 3 && dbs[2].tasks[1].status == Running && dbs[2].tasks[1].token == Some(2);
    assert dbs[3].next == 3 && dbs[3].tasks[1].status == Queued && dbs[3].now == soft * SECOND;
  }

  /** A worker interrupted after it has given its lease back can close another's under
      every setting: no limit protects the task then. */
  lemma ReleasedWorkerIsNeverSafe(seconds: nat, soft: nat, hard: nat)
    requires 31 <= seconds <= 300 && 1 <= soft < hard
    ensures var (dbs, ops) := ReleasedTimeout(seconds, soft);
      && Run(dbs, ops) && ClaimedAt(dbs, ops, 1, 1, seconds, 2) && TimedOutAt(dbs, ops, 1, 4, 1, soft, hard)
      && ops[2] == ReleaseOp(1, 2) && dbs[4].tasks[1].token == Some(3)
  {
    ReleasedTimeoutRuns(seconds, soft);
    ReleasedTimeoutRows(seconds, soft);
    var (dbs, ops) := ReleasedTimeout(seconds, soft);
    hide Run, Apply, ClaimExecution;
    assert WithinLimits(1, soft * SECOND + 1, soft, hard);
    assert ops[1] == ClaimOp(1, seconds) && ops[2] == ReleaseOp(1, 2) && ops[4] == TimeoutOp(1);
  }
}
