/** What the parsing transactions leave alone: the facts the later stages rely on. */
module TaskFrame {
  import opened Common
  import opened Tasks
  import opened TaskInvariant
  import opened TaskHistory

  /** A job with a snapshot has no open task. */
  lemma SnapshotMeansDone(db: Db, j: nat, t: nat)
    requires Inv(db) && j in db.snapshots && t in db.tasks && db.tasks[t].kind == JobParse && db.tasks[t].resource == j
    ensures Terminal(db.tasks[t].status)
  {
    hide Rows, Bounded, UniqueIds, Dispatches, ResumeTasks, Profiles, Deletions, HasGeneration;
    assert HasSucceeded(db.tasks, j);
    var s :| s in db.tasks && db.tasks[s].kind == JobParse && db.tasks[s].resource == j && db.tasks[s].status == Succeeded;
    if s != t {
      assert Earlier(db.tasks[s], db.tasks[t]) || Earlier(db.tasks[t], db.tasks[s]);
    }
  }

  lemma OthersKeepSnapshots(db: Db, op: Op)
    requires !op.CompleteJobOp? && !op.DeleteJobOp?
    ensures Apply(db, op).snapshots == db.snapshots
  {
    hide LatestTask, DispatchBatch;
    if op.ClaimDispatchOp? { LeasesKeep(db, op.batch, op.seconds); }
  }

  lemma LeasesKeep(db: Db, batch: nat, seconds: nat)
    ensures var db' := ClaimDispatch(db, batch, seconds).0;
      && db'.snapshots == db.snapshots && db'.jobs == db.jobs && db'.resumes == db.resumes && db'.profiles == db.profiles
      && db'.current == db.current && db'.next >= db.next
  {
    assert forall t :: t in DispatchBatch(db, batch) ==> t in DispatchableSet(db);
    LeaseAllKeepTables(db, DispatchBatch(db, batch), seconds);
  }

  lemma {:induction false} LeaseAllKeepTables(db: Db, ids: seq<nat>, seconds: nat)
    requires forall t :: t in ids ==> t in db.tasks
    ensures var db' := LeaseAll(db, ids, seconds).0;
      && db'.snapshots == db.snapshots && db'.jobs == db.jobs && db'.resumes == db.resumes && db'.profiles == db.profiles
      && db'.current == db.current && db'.next >= db.next
  {
    if ids != [] { LeaseAllKeepTables(db, ids[..|ids| - 1], seconds); }
  }

  /** A snapshot, once there, is frozen until its job is deleted. */
  lemma SnapshotIsFrozen(db: Db, op: Op, db': Db, j: nat)
    requires Inv(db) && Step(db, op, db') && j in db.snapshots
    ensures (j in db'.snapshots && db'.snapshots[j] == db.snapshots[j])
         || (op.DeleteJobOp? && op.job == j && !op.matched)
  {
    hide Inv, LastCreatedTask;
    if op.CompleteJobOp? {
      if CompleteJob(db, op.task, op.job, op.token, op.snapshot).1 && op.job == j {
        SnapshotMeansDone(db, j, op.task);
      }
    } else if !op.DeleteJobOp? {
      hide Apply;
      OthersKeepSnapshots(db, op);
    }
  }

  lemma OthersKeepJobs(db: Db, op: Op)
    requires !op.UploadJobOp? && !op.DeleteJobOp?
    ensures Apply(db, op).jobs == db.jobs
  {
    hide LatestTask, DispatchBatch;
    if op.ClaimDispatchOp? { LeasesKeep(db, op.batch, op.seconds); }
  }

  lemma JobIsOld(db: Db, j: nat)
    requires Inv(db) && j in db.jobs
    ensures j < db.next
  {}

  lemma JobsRemain(db: Db, op: Op, db': Db, j: nat)
    requires Inv(db) && Step(db, op, db') && j in db.jobs
    ensures j in db'.jobs && db'.jobs[j].hr == db.jobs[j].hr && db'.jobs[j].createdAt == db.jobs[j].createdAt
    ensures db'.jobs[j].deleted == db.jobs[j].deleted || (op.DeleteJobOp? && op.job == j && !op.matched)
  {
    hide Inv, LatestTask, LastCreatedTask;
    JobIsOld(db, j);
    if !op.UploadJobOp? && !op.DeleteJobOp? {
      hide Apply;
      OthersKeepJobs(db, op);
    }
  }

  lemma OthersKeepProfiles(db: Db, op: Op)
    requires !op.CompleteResumeOp?
    ensures Apply(db, op).profiles == db.profiles
  {
    hide LatestTask, LastCreatedTask, DispatchBatch;
    if op.ClaimDispatchOp? { LeasesKeep(db, op.batch, op.seconds); }
  }

  lemma RowIsOld(db: Db, k: nat)
    requires Inv(db)
    ensures k in db.profiles || k in db.resumes ==> k < db.next
  {}

  lemma ProfilesRemain(db: Db, op: Op, db': Db, p: nat)
    requires Inv(db) && Step(db, op, db') && p in db.profiles
    ensures p in db'.profiles && db'.profiles[p] == db.profiles[p]
  {
    hide Inv;
    RowIsOld(db, p);
    if !op.CompleteResumeOp? {
      hide Apply;
      OthersKeepProfiles(db, op);
    }
  }

  lemma OthersKeepResumes(db: Db, op: Op)
    requires !op.UploadResumeOp? && !op.TimeoutOp? && !op.RecoverOp?
    requires !op.CompleteResumeOp? && !op.FailResumeOp? && !op.DeleteResumeOp?
    ensures Apply(db, op).resumes == db.resumes
  {
    hide LatestTask, LastCreatedTask, DispatchBatch;
    if op.ClaimDispatchOp? { LeasesKeep(db, op.batch, op.seconds); }
  }

  predicate Kept(db: Db, db': Db, r: nat) {
    r in db.resumes && r in db'.resumes && db'.resumes[r] == db.resumes[r]
  }

  lemma TimeoutKeepsParsed(db: Db, t: nat, r: nat)
    requires r in db.resumes && db.resumes[r].status == ParseSucceeded
    ensures Kept(db, FailAfterTimeout(db, t).0, r)
  {}

  lemma RecoverKeepsParsed(db: Db, r: nat)
    requires r in db.resumes && db.resumes[r].status == ParseSucceeded
    ensures Kept(db, FailStalled(db, STALLED_AFTER), r)
  {
    hide StalledResume;
  }

  lemma WritesKeepParsed(db: Db, t: nat, q: nat, token: nat, facts: Extraction, code: FailureCode, r: nat)
    requires r in db.resumes && db.resumes[r].status == ParseSucceeded
    ensures Kept(db, CompleteResume(db, t, q, token, facts).0, r) && Kept(db, FailResume(db, t, q, token, code).0, r)
  {}

  /** A parsed resume changes by nothing but its deletion before any run. */
  lemma ParsedResumesRemain(db: Db, op: Op, db': Db, r: nat)
    requires Inv(db) && Step(db, op, db') && r in db.resumes && db.resumes[r].status == ParseSucceeded
    ensures r in db'.resumes
    ensures db'.resumes[r] == db.resumes[r]
         || (op.DeleteResumeOp? && op.candidate == db.resumes[r].candidate && op.resume == r && !op.started)
  {
    hide Inv, CompleteResume, FailResume, FailStalled, FailAfterTimeout;
    RowIsOld(db, r);
    if op.TimeoutOp? {
      TimeoutKeepsParsed(db, op.task, r);
    } else if op.RecoverOp? {
      RecoverKeepsParsed(db, r);
    } else if op.CompleteResumeOp? {
      WritesKeepParsed(db, op.task, op.resume, op.token, op.facts, InternalError, r);
    } else if op.FailResumeOp? {
      WritesKeepParsed(db, op.task, op.resume, op.token, Extraction(None, false, false, false), op.code, r);
    } else if !op.UploadResumeOp? && !op.DeleteResumeOp? {
      hide Apply;
      OthersKeepResumes(db, op);
    }
  }

  lemma CounterGrows(db: Db, op: Op, db': Db)
    requires Step(db, op, db')
    ensures db'.next >= db.next
  {
    hide LatestTask, LastCreatedTask, DispatchBatch;
    if op.ClaimDispatchOp? { LeasesKeep(db, op.batch, op.seconds); }
  }

  /** Drawing ids for other tables does not disturb the parsing tables. */
  lemma IdsDrawn(db: Db, next: nat, now: int)
    requires Inv(db) && next >= db.next && now >= db.now
    ensures Inv(db.(next := next, now := now))
  {
    hide Coupled, HasGeneration, HasSucceeded, HasProfile, HasTask, Announced;
  }
}
