/** The repositories, the dispatcher and the resume worker as the source writes them,
    proved to take exactly the transactions of the task protocol. */
module TaskRepository {
  import opened Common
  import opened Tasks
  import opened TaskInvariant
  import opened TaskHistory
  import opened TaskFacts
  import opened TaskLeases

  // ----- specifications of the loops ----------------------------------------

  predicate Touched(db: Db, ids: set<nat>, r: nat) {
    exists t :: t in ids && t in db.tasks && db.tasks[t].kind == ResumeParse && db.tasks[t].resource == r
  }

  /** The recovery loop after it has closed the tasks `ids`. */
  function FailSome(db: Db, ids: set<nat>): Db {
    db.(tasks := map t | t in db.tasks :: if t in ids then TimedOut(db.tasks[t], db.now) else db.tasks[t],
        resumes := map r | r in db.resumes ::
          if Touched(db, ids, r) && db.resumes[r].status == Processing
          then db.resumes[r].(status := ParseFailed, failureCode := Some(InternalError)) else db.resumes[r])
  }

  lemma FailNone(db: Db)
    ensures FailSome(db, {}) == db
  {
    assert FailSome(db, {}).tasks == db.tasks;
    assert FailSome(db, {}).resumes == db.resumes;
  }

  lemma FailOneMore(db: Db, ids: set<nat>, t: nat)
    requires t in db.tasks && t !in ids
    ensures t in FailSome(db, ids).tasks && FailSome(db, ids + {t}) == CloseTimedOut(FailSome(db, ids), t)
  {
    var before := FailSome(db, ids);
    var next := CloseTimedOut(before, t);
    var resource := db.tasks[t].resource;
    assert FailSome(db, ids + {t}).tasks == next.tasks;
    forall r | r in db.resumes
      ensures Touched(db, ids + {t}, r) <==> Touched(db, ids, r) || (db.tasks[t].kind == ResumeParse && r == resource)
    {
      if db.tasks[t].kind == ResumeParse && r == resource { assert t in ids + {t}; }
      if Touched(db, ids, r) {
        var u :| u in ids && u in db.tasks && db.tasks[u].kind == ResumeParse && db.tasks[u].resource == r;
        assert u in ids + {t};
      }
    }
    assert FailSome(db, ids + {t}).resumes == next.resumes;
  }

  lemma FailAllStalled(db: Db, after: int)
    ensures FailSome(db, StalledSet(db, after)) == FailStalled(db, after)
  {
    var ids := StalledSet(db, after);
    forall r ensures Touched(db, ids, r) <==> StalledResume(db, after, r) {
      if StalledResume(db, after, r) {
        var t :| t in db.tasks && Stalled(db.tasks[t], db.now, after) && db.tasks[t].kind == ResumeParse && db.tasks[t].resource == r;
        assert t in ids;
      }
    }
    assert FailSome(db, ids).tasks == FailStalled(db, after).tasks;
    assert FailSome(db, ids).resumes == FailStalled(db, after).resumes;
  }

  lemma BatchRows(db: Db, batch: nat)
    ensures forall t :: t in DispatchBatch(db, batch) ==> t in db.tasks
  {
    assert forall t :: t in DispatchBatch(db, batch) ==> t in DispatchableSet(db);
  }

  /** One dispatcher pass left to itself; `reached[i]` tells whether publication `i`
      reached the broker (missing entries did). */
  function PublishOne(db: Db, lease: DispatchLease, reached: bool): Db {
    if reached then ConfirmDispatch(db.(published := db.published + {lease.token}), lease.task, lease.token).0
    else ReleaseDispatch(db, lease.task, lease.token).0
  }

  function Reached(reached: seq<bool>, i: nat): bool {
    i < |reached| ==> reached[i]
  }

  function PublishAll(db: Db, leases: seq<DispatchLease>, reached: seq<bool>): Db {
    if leases == [] then db
    else
      var n := |leases| - 1;
      PublishOne(PublishAll(db, leases[..n], reached), leases[n], Reached(reached, n))
  }

  // ----- what a dispatcher pass achieves ------------------------------------

  predicate Fits(db: Db, lease: DispatchLease) {
    && lease.task in db.tasks && db.tasks[lease.task].status == Queued && db.tasks[lease.task].dispatchedAt.None?
    && db.tasks[lease.task].dispatchToken == Some(lease.token) && db.tasks[lease.task].celeryId == Some(lease.celeryId)
  }

  /** Every lease handed out is the one its row carries. */
  lemma {:induction false} LeasesFit(db: Db, ids: seq<nat>, seconds: nat, i: nat)
    requires forall t :: t in ids ==> t in db.tasks && db.tasks[t].status == Queued && db.tasks[t].dispatchedAt.None?
    requires (forall k, m :: 0 <= k < m < |ids| ==> ids[k] != ids[m]) && i < |ids|
    ensures var (db', leases) := LeaseAll(db, ids, seconds);
      |leases| == |ids| && leases[i].task == ids[i] && Fits(db', leases[i])
  {
    var n := |ids| - 1;
    LeaseAllMoves(db, ids[..n], seconds, ids[n]);
    LeasesCount(db, ids[..n], seconds);
    if i < n {
      LeasesFit(db, ids[..n], seconds, i);
      assert ids[i] != ids[n];
    }
  }

  lemma {:induction false} LeasesCount(db: Db, ids: seq<nat>, seconds: nat)
    requires forall t :: t in ids ==> t in db.tasks
    ensures |LeaseAll(db, ids, seconds).1| == |ids|
  {
    if ids != [] { LeasesCount(db, ids[..|ids| - 1], seconds); }
  }

  /** Where the pass leaves one row: confirmed, or free for the next pass. */
  predicate Settled(db: Db, lease: DispatchLease, reached: bool) {
    && lease.task in db.tasks && db.tasks[lease.task].status == Queued && db.tasks[lease.task].dispatchToken.None?
    && db.tasks[lease.task].celeryId == Some(lease.celeryId)
    && (reached ==> db.tasks[lease.task].dispatchedAt == Some(db.now) && lease.token in db.published)
    && (!reached ==> db.tasks[lease.task].dispatchedAt.None? && Dispatchable(db.tasks[lease.task], db.now))
  }

  lemma {:induction false} PublishAllKeeps(db: Db, leases: seq<DispatchLease>, reached: seq<bool>, t: nat)
    requires forall i :: 0 <= i < |leases| ==> leases[i].task != t
    ensures var db' := PublishAll(db, leases, reached);
      && db'.now == db.now && db.published <= db'.published && (t in db'.tasks <==> t in db.tasks)
      && (t in db.tasks ==> db'.tasks[t] == db.tasks[t])
  {
    if leases != [] { PublishAllKeeps(db, leases[..|leases| - 1], reached, t); }
  }

  lemma PublishingSettles(db: Db, lease: DispatchLease, reached: bool)
    requires Fits(db, lease)
    ensures Settled(PublishOne(db, lease, reached), lease, reached)
  {}

  lemma PublishingKeeps(db: Db, lease: DispatchLease, reached: bool, other: DispatchLease, done: bool)
    requires Settled(db, other, done) && other.task != lease.task
    ensures Settled(PublishOne(db, lease, reached), other, done)
  {}

  lemma StillFits(db: Db, db': Db, lease: DispatchLease)
    requires Fits(db, lease) && lease.task in db'.tasks && db'.tasks[lease.task] == db.tasks[lease.task]
    ensures Fits(db', lease)
  {}

  lemma {:induction false} PublishAllSettles(db: Db, leases: seq<DispatchLease>, reached: seq<bool>, i: nat)
    requires (forall k :: 0 <= k < |leases| ==> Fits(db, leases[k])) && i < |leases|
    requires forall k, m :: 0 <= k < m < |leases| ==> leases[k].task != leases[m].task
    ensures Settled(PublishAll(db, leases, reached), leases[i], Reached(reached, i))
  {
    assert forall k :: 0 <= k < |leases| ==> leases[k].task in db.tasks;
    hide Fits, Settled, PublishOne, Reached;
    var n := |leases| - 1;
    var db1 := PublishAll(db, leases[..n], reached);
    if i < n {
      PublishAllSettles(db, leases[..n], reached, i);
      PublishingKeeps(db1, leases[n], Reached(reached, n), leases[i], Reached(reached, i));
    } else {
      PublishAllKeeps(db, leases[..n], reached, leases[n].task);
      StillFits(db, db1, leases[n]);
      PublishingSettles(db1, leases[n], Reached(reached, n));
    }
  }

  /** After one undisturbed pass every leased task is confirmed with its publication
      recorded, or free again if its publication failed. */
  lemma PassSettlesEveryLease(db: Db, batch: nat, seconds: nat, reached: seq<bool>, i: nat)
    requires i < |ClaimDispatch(db, batch, seconds).1|
    ensures var (claimed, leases) := ClaimDispatch(db, batch, seconds);
      Settled(PublishAll(claimed, leases, reached), leases[i], Reached(reached, i))
  {
    hide DispatchBatch, LeaseAll, Settled;
    var ids := DispatchBatch(db, batch);
    BatchIsOldestPrefix(db, batch);
    LeasesCount(db, ids, seconds);
    var (claimed, leases) := ClaimDispatch(db, batch, seconds);
    forall k | 0 <= k < |leases| ensures Fits(claimed, leases[k]) && leases[k].task == ids[k] {
      LeasesFit(db, ids, seconds, k);
    }
    PublishAllSettles(claimed, leases, reached, i);
  }

  /** What the parsing ports hand back to the worker. */
  datatype Extracted = Extracted(facts: Extraction) | ExtractionFailed(code: FailureCode, retryable: bool)

  datatype Action = Ignored | SucceededAction | FailedAction | RetryAction

  class TaskTables {
    var now: int
    var next: nat
    var tasks: map<nat, Task>
    var resumes: map<nat, Resume>
    var profiles: map<nat, Profile>
    var current: map<nat, nat>
    var jobs: map<nat, Job>
    var snapshots: map<nat, Snapshot>
    var leases: map<nat, nat>
    var published: set<nat>

    function Rows(): Db
      reads this
    {
      Db(now, next, tasks, resumes, profiles, current, jobs, snapshots, leases, published)
    }

    constructor ()
      ensures Rows() == Empty
    {
      now, next, tasks, resumes, profiles, current := 0, 0, map[], map[], map[], map[];
      jobs, snapshots, leases, published := map[], map[], map[], {};
    }

    // ----- AsyncTaskRepository ----------------------------------------------

    method NewTaskRow(kind: TaskKind, resource: nat, generation: nat) returns (t: nat)
      modifies this`tasks, this`next
      ensures t == old(next)
      ensures Rows() == old(Rows()).(next := t + 1, tasks := old(tasks)[t := NewTask(kind, resource, generation, now)])
    {
      t := next;
      tasks := tasks[t := NewTask(kind, resource, generation, now)];
      next := next + 1;
    }

    /** The body of the claiming loop. */
    method LeaseRow(t: nat, leaseSeconds: nat) returns (lease: DispatchLease)
      requires t in tasks
      modifies this`tasks, this`next, this`leases
      ensures (Rows(), lease) == LeaseOne(old(Rows()), t, leaseSeconds)
    {
      var celeryId := if tasks[t].celeryId.Some? then tasks[t].celeryId.value else next;
      var token := next + 1;
      tasks := tasks[t := tasks[t].(celeryId := Some(celeryId), dispatchToken := Some(token),
                                    dispatchExpires := Some(now + leaseSeconds * SECOND))];
      next, leases := next + 2, leases[token := t];
      return DispatchLease(t, celeryId, token);
    }

    method ClaimDispatchBatch(batchSize: nat, leaseSeconds: nat) returns (batch: seq<DispatchLease>)
      modifies this`tasks, this`next, this`leases
      ensures (Rows(), batch) == ClaimDispatch(old(Rows()), batchSize, leaseSeconds)
    {
      hide DispatchBatch, LeaseOne;
      ghost var was := Rows();
      var ids := DispatchBatch(Rows(), batchSize);
      BatchRows(was, batchSize);
      batch := [];
      for i := 0 to |ids|
        invariant forall t :: t in ids ==> t in was.tasks
        invariant (Rows(), batch) == LeaseAll(was, ids[..i], leaseSeconds)
      {
        assert ids[..i + 1][..i] == ids[..i];
        var lease := LeaseRow(ids[i], leaseSeconds);
        batch := batch + [lease];
      }
      assert ids[..|ids|] == ids;
    }

    method Confirm(t: nat, token: nat) returns (ok: bool)
      modifies this`tasks
      ensures (Rows(), ok) == ConfirmDispatch(old(Rows()), t, token)
    {
      if t !in tasks || tasks[t].status != Queued || tasks[t].dispatchToken != Some(token) {
        return false;
      }
      tasks := tasks[t := tasks[t].(dispatchedAt := Some(now), dispatchToken := None, dispatchExpires := None)];
      return true;
    }

    method Release(t: nat, token: nat) returns (ok: bool)
      modifies this`tasks
      ensures (Rows(), ok) == ReleaseDispatch(old(Rows()), t, token)
    {
      if t !in tasks || tasks[t].status != Queued || tasks[t].dispatchToken != Some(token) {
        return false;
      }
      tasks := tasks[t := tasks[t].(dispatchToken := None, dispatchExpires := None)];
      return true;
    }

    method Claim(t: nat, leaseSeconds: nat) returns (token: Option<nat>)
      modifies this`tasks, this`next
      ensures (Rows(), token) == ClaimExecution(old(Rows()), t, leaseSeconds)
    {
      if t !in tasks || !Claimable(tasks[t], now) {
        return None;
      }
      token := Some(next);
      tasks := tasks[t := tasks[t].(status := Running, token := token, startedAt := Some(now),
                                    leaseExpires := Some(now + leaseSeconds * SECOND))];
      next := next + 1;
    }

    method ReleaseExecution(t: nat, token: nat) returns (ok: bool)
      modifies this`tasks
      ensures (Rows(), ok) == ReleaseForRetry(old(Rows()), t, token)
    {
      if t !in tasks || tasks[t].status != Running || tasks[t].token != Some(token) {
        return false;
      }
      tasks := tasks[t := tasks[t].(status := Queued, token := None, leaseExpires := None, startedAt := None,
                                    dispatchedAt := None)];
      return true;
    }

    /** The closing block shared by the timeout handler and the recovery loop. */
    method CloseAsTimedOut(t: nat)
      requires t in tasks
      modifies this`tasks, this`resumes
      ensures Rows() == CloseTimedOut(old(Rows()), t)
    {
      var task := tasks[t];
      tasks := tasks[t := TimedOut(task, now)];
      if task.kind == ResumeParse && task.resource in resumes && resumes[task.resource].status == Processing {
        resumes := FailResumeRow(resumes, task.resource, InternalError);
      }
    }

    method FailExecutionAfterTimeout(t: nat) returns (ok: bool)
      modifies this`tasks, this`resumes
      ensures (Rows(), ok) == FailAfterTimeout(old(Rows()), t)
    {
      if t !in tasks || tasks[t].status != Running || tasks[t].leaseExpires.None? || tasks[t].leaseExpires.value <= now {
        return false;
      }
      CloseAsTimedOut(t);
      return true;
    }

    /** The rows come in no particular order and are closed one by one. */
    method FailStalledTasks(after: nat) returns (count: nat)
      modifies this`tasks, this`resumes
      ensures Rows() == FailStalled(old(Rows()), after)
      ensures count == |StalledSet(old(Rows()), after)|
    {
      ghost var was := Rows();
      var stalled := StalledSet(Rows(), after);
      var todo := stalled;
      FailNone(was);
      ghost var done: set<nat> := {};
      while todo != {}
        invariant done + todo == stalled && done !! todo
        invariant Rows() == FailSome(was, done)
      {
        var t :| t in todo;
        FailOneMore(was, done, t);
        CloseAsTimedOut(t);
        done, todo := done + {t}, todo - {t};
      }
      assert done == stalled;
      FailAllStalled(was, after);
      return |stalled|;
    }

    // ----- uploads ----------------------------------------------------------

    /** `create_resume` and `create_or_get_queued_resume_task`. */
    method UploadResumeRow(candidate: nat) returns (r: nat)
      modifies this`resumes, this`current, this`tasks, this`next
      ensures r == old(next) && Rows() == UploadResume(old(Rows()), candidate)
    {
      r := next;
      next := next + 1;
      resumes := resumes[r := Resume(candidate, Processing, None, false)];
      current := current[candidate := r];
      var _ := NewTaskRow(ResumeParse, r, 1);
    }

    /** `create_job` and `create_or_get_queued_job_task`. */
    method UploadJobRow(hr: nat) returns (j: nat)
      modifies this`jobs, this`tasks, this`next
      ensures j == old(next) && Rows() == UploadJob(old(Rows()), hr)
    {
      j := next;
      next := next + 1;
      jobs := jobs[j := Job(hr, now, false)];
      var _ := CreateOrGetQueuedTask(j);
    }

    // ----- JobDescriptionRepository -----------------------------------------

    method CreateOrGetQueuedTask(j: nat) returns (t: Option<nat>)
      modifies this`tasks, this`next
      ensures Rows() == EnsureJobTask(old(Rows()), j)
      ensures t.None? <==> Rows() == old(Rows())
    {
      var latest := LatestTask(Rows(), j);
      if latest.Some? && tasks[latest.value].status != Failed {
        return None;
      }
      var generation := (if latest.Some? then tasks[latest.value].generation else 0) + 1;
      var created := NewTaskRow(JobParse, j, generation);
      return Some(created);
    }

    method RetryFailedTask(hr: nat, j: nat, fileReady: bool, matched: bool) returns (ok: bool)
      modifies this`tasks, this`next
      ensures (Rows(), ok) == RetryJob(old(Rows()), hr, j, fileReady, matched)
    {
      if !VisibleJob(Rows(), hr, j) || !fileReady || matched {
        return false;
      }
      var latest := LatestTask(Rows(), j);
      if latest.None? || tasks[latest.value].status != Failed {
        return false;
      }
      var _ := CreateOrGetQueuedTask(j);
      return true;
    }

    method CompleteJobExecution(t: nat, j: nat, token: nat, snapshot: Snapshot) returns (ok: bool)
      modifies this`tasks, this`snapshots
      ensures (Rows(), ok) == CompleteJob(old(Rows()), t, j, token, snapshot)
    {
      if !HoldsJobExecution(Rows(), t, j, token) || j !in jobs || jobs[j].deleted {
        return false;
      }
      snapshots := snapshots[j := snapshot];
      tasks := tasks[t := Finished(tasks[t], Succeeded, now).(failureCode := None, failureSemantics := None)];
      return true;
    }

    method FailJobExecution(t: nat, j: nat, token: nat, semantics: Semantics) returns (ok: bool)
      modifies this`tasks
      ensures (Rows(), ok) == FailJob(old(Rows()), t, j, token, semantics)
    {
      if !HoldsJobExecution(Rows(), t, j, token) {
        return false;
      }
      tasks := tasks[t := Finished(tasks[t], Failed, now).(failureCode := None, failureSemantics := Some(semantics))];
      return true;
    }

    // ----- DocumentParsingRepository ----------------------------------------

    method CompleteResumeExecution(t: nat, r: nat, token: nat, facts: Extraction) returns (ok: bool)
      modifies this`tasks, this`resumes, this`profiles, this`next
      ensures (Rows(), ok) == CompleteResume(old(Rows()), t, r, token, facts)
    {
      if !HoldsResumeExecution(Rows(), t, r, token) {
        return false;
      }
      if r !in resumes || resumes[r].status != Processing || resumes[r].deleted {
        return false;
      }
      if p :| p in profiles && profiles[p].resume == r {
        return false;
      }
      profiles := profiles[next := Profile(r, facts, MatchingReadiness(facts))];
      next := next + 1;
      resumes := resumes[r := resumes[r].(status := ParseSucceeded, failureCode := None)];
      tasks := tasks[t := Finished(tasks[t], Succeeded, now).(failureCode := None)];
      return true;
    }

    method FailResumeExecution(t: nat, r: nat, token: nat, code: FailureCode) returns (ok: bool)
      modifies this`tasks, this`resumes
      ensures (Rows(), ok) == FailResume(old(Rows()), t, r, token, code)
    {
      if !HoldsResumeExecution(Rows(), t, r, token) {
        return false;
      }
      if r !in resumes || resumes[r].status != Processing || resumes[r].deleted {
        return false;
      }
      resumes := FailResumeRow(resumes, r, code);
      tasks := tasks[t := Finished(tasks[t], Failed, now).(failureCode := Some(code))];
      return true;
    }

    // ----- BusinessResourceDeletionRepository -------------------------------

    method DeleteResumeRow(candidate: nat, r: nat, started: bool) returns (deleted: bool)
      modifies this`resumes, this`current
      ensures (Rows(), deleted) == DeleteResume(old(Rows()), candidate, r, started)
    {
      if r !in resumes || resumes[r].candidate != candidate || resumes[r].deleted {
        return false;
      }
      if candidate !in current || current[candidate] != r || resumes[r].status == Processing || started {
        return false;
      }
      resumes := resumes[r := resumes[r].(deleted := true)];
      current := current - {candidate};
      return true;
    }

    method DeleteJobRow(hr: nat, j: nat, matched: bool) returns (deleted: bool)
      modifies this`jobs, this`snapshots
      ensures (Rows(), deleted) == DeleteJob(old(Rows()), hr, j, matched)
    {
      if !VisibleJob(Rows(), hr, j) {
        return false;
      }
      var last := LastCreatedTask(Rows(), j);
      if last.None? || !Terminal(tasks[last.value].status) || matched {
        return false;
      }
      jobs := jobs[j := jobs[j].(deleted := true)];
      snapshots := snapshots - {j};
      return true;
    }

    // ----- TaskDispatcher ---------------------------------------------------

    method PublishAndConfirm(lease: DispatchLease, reached: bool)
      modifies this`tasks, this`published
      ensures Rows() == PublishOne(old(Rows()), lease, reached)
    {
      if !reached {
        var _ := Release(lease.task, lease.token);
        return;
      }
      published := published + {lease.token};
      var _ := Confirm(lease.task, lease.token);
    }

    method DispatchOnce(batchSize: nat, leaseSeconds: nat, reached: seq<bool>) returns (count: nat)
      modifies this`tasks, this`next, this`leases, this`published
      ensures var (claimed, batch) := ClaimDispatch(old(Rows()), batchSize, leaseSeconds);
        Rows() == PublishAll(claimed, batch, reached) && count == |batch|
    {
      var batch := ClaimDispatchBatch(batchSize, leaseSeconds);
      ghost var claimed := Rows();
      for i := 0 to |batch|
        invariant Rows() == PublishAll(claimed, batch[..i], reached)
      {
        assert batch[..i + 1][..i] == batch[..i];
        PublishAndConfirm(batch[i], if i < |reached| then reached[i] else true);
      }
      assert batch[..|batch|] == batch;
      return |batch|;
    }

    // ----- ResumeParseWorkerService -----------------------------------------

    /** One delivery left to itself: nobody else touches the row, however long the
        ports take. A claimed delivery always ends with its write accepted, even
        after its lease has run out. */
    method ProcessResume(t: nat, retryCount: nat, maxRetries: nat, leaseSeconds: nat, elapsed: nat, outcome: Extracted)
      returns (action: Action)
      requires Inv(Rows()) && 31 <= leaseSeconds <= 300 && elapsed > 0
      requires t in tasks ==> tasks[t].kind == ResumeParse
      modifies this`tasks, this`resumes, this`profiles, this`next, this`now
      ensures action == Ignored <==> t !in old(tasks) || !Claimable(old(tasks[t]), old(now))
      ensures action == Ignored ==> Rows() == old(Rows())
      ensures resumes.Keys == old(resumes.Keys)
      ensures action != Ignored ==> t in tasks && tasks[t].resource in resumes && now == old(now) + elapsed
      ensures action != Ignored ==>
        if outcome.Extracted? then
          && action == SucceededAction && tasks[t].status == Succeeded && resumes[tasks[t].resource].status == ParseSucceeded
          && Profile(tasks[t].resource, outcome.facts, MatchingReadiness(outcome.facts)) in profiles.Values
        else if outcome.retryable && retryCount < maxRetries then
          && action == RetryAction && tasks[t].status == Queued && tasks[t].dispatchedAt.None?
          && resumes == old(resumes) && profiles == old(profiles)
        else
          && action == FailedAction && tasks[t].status == Failed && tasks[t].failureCode == Some(outcome.code)
          && resumes[tasks[t].resource] == old(resumes)[tasks[t].resource].(status := ParseFailed, failureCode := Some(outcome.code))
          && profiles == old(profiles)
    {
      hide Inv;
      ghost var was := Rows();
      ClaimKeeps(was, t, leaseSeconds, now + elapsed);
      var token := Claim(t, leaseSeconds);
      if token.None? {
        return Ignored;
      }
      now := now + elapsed;
      assert Rows() == At(ClaimExecution(was, t, leaseSeconds).0, was.now + elapsed);
      HolderWrites(Rows(), t, token.value);
      var ok;
      if outcome.Extracted? {
        ghost var p := next;
        ok := CompleteResumeExecution(t, tasks[t].resource, token.value, outcome.facts);
        assert profiles[p] in profiles.Values;
        return if ok then SucceededAction else Ignored;
      }
      if outcome.retryable && retryCount < maxRetries {
        ok := ReleaseExecution(t, token.value);
        return if ok then RetryAction else Ignored;
      }
      ok := FailResumeExecution(t, tasks[t].resource, token.value, outcome.code);
      return if ok then FailedAction else Ignored;
    }
  }

  lemma HolderWrites(db: Db, t: nat, k: nat)
    requires Inv(db) && HoldsExecution(db, t, k) && db.tasks[t].kind == ResumeParse
    ensures db.tasks[t].resource in db.resumes && !HasProfile(db.profiles, db.tasks[t].resource)
    ensures OpenResume(db, db.tasks[t].resource)
  {
    OpenHasProcessing(db, t);
    ProfileCounts(db.resumes, db.profiles, db.tasks[t].resource);
    ProcessingIsUndeleted(db.resumes, db.tasks[t].resource);
    hide Inv;
  }
}
