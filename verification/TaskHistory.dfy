/** Creation and deletion keep the task invariant too, so every reachable state has
    it: table CHECKs, the coupling of task, resume and profile, the JD chain. */
module TaskHistory {
  import opened Common
  import opened Tasks
  import opened TaskInvariant

  // ----- a new row ----------------------------------------------------------

  predicate Untouched(row: Task) {
    row == NewTask(row.kind, row.resource, row.generation, row.createdAt)
  }

  lemma NewRowRows(db: Db, t: nat, row: Task, next: nat, now: int)
    requires Inv(db) && db.next <= t < next && db.now < now
    requires Untouched(row) && row.createdAt == db.now && row.generation >= 1 && row.resource < next
    requires row.kind == ResumeParse ==> row.generation == 1
    ensures var tasks := db.tasks[t := row];
      && (forall u :: u in tasks ==> u < next && RowOk(tasks[u], now) && RowBounded(tasks[u], next))
      && UniqueIds(tasks) && Dispatches(tasks, db.leases, db.published)
  {
    hide UniqueKeys, ResumeTasks, Profiles, Deletions, Chain, Snapshots;
    var tasks := db.tasks[t := row];
    forall u | u in tasks ensures u < next && RowOk(tasks[u], now) && RowBounded(tasks[u], next) {
      if u != t { assert RowOk(db.tasks[u], db.now) && RowBounded(db.tasks[u], db.next); }
    }
  }

  lemma TasksGrow(tasks: map<nat, Task>, t: nat, row: Task)
    requires t !in tasks
    ensures forall j, g :: HasGeneration(tasks, j, g) ==> HasGeneration(tasks[t := row], j, g)
    ensures forall r :: HasTask(tasks, r) ==> HasTask(tasks[t := row], r)
    ensures row.kind == ResumeParse ==> HasTask(tasks[t := row], row.resource)
    ensures row.kind == JobParse ==> HasGeneration(tasks[t := row], row.resource, row.generation)
  {
    var tasks' := tasks[t := row];
    assert tasks'[t] == row;
    forall j, g | HasGeneration(tasks, j, g) ensures HasGeneration(tasks', j, g) {
      var u :| u in tasks && tasks[u].kind == JobParse && tasks[u].resource == j && tasks[u].generation == g;
      assert tasks'[u] == tasks[u];
    }
    forall r | HasTask(tasks, r) ensures HasTask(tasks', r) {
      var u :| u in tasks && tasks[u].kind == ResumeParse && tasks[u].resource == r;
      assert tasks'[u] == tasks[u];
    }
  }

  lemma NewResumeTasks(tasks: map<nat, Task>, resumes: map<nat, Resume>, t: nat, r: nat, candidate: nat, now: int)
    requires ResumeTasks(tasks, resumes) && UniqueKeys(tasks) && t !in tasks
    requires forall u :: u in tasks ==> tasks[u].resource != r
    ensures var tasks' := tasks[t := NewTask(ResumeParse, r, 1, now)];
      UniqueKeys(tasks') && ResumeTasks(tasks', resumes[r := Resume(candidate, Processing, None, false)])
  {
    hide HasTask;
    TasksGrow(tasks, t, NewTask(ResumeParse, r, 1, now));
  }

  lemma NewProfiles(resumes: map<nat, Resume>, profiles: map<nat, Profile>, r: nat, candidate: nat)
    requires Profiles(resumes, profiles) && Deletions(resumes) && r !in resumes
    ensures Profiles(resumes[r := Resume(candidate, Processing, None, false)], profiles)
    ensures Deletions(resumes[r := Resume(candidate, Processing, None, false)])
  {
    hide HasProfile;
  }

  lemma NewRowChain(tasks: map<nat, Task>, t: nat, row: Task, jobs: map<nat, Job>)
    requires Chain(tasks, jobs) && t !in tasks && row.kind == ResumeParse
    ensures Chain(tasks[t := row], jobs)
  {
    hide HasGeneration;
    TasksGrow(tasks, t, row);
  }

  lemma NewRowSnapshots(tasks: map<nat, Task>, t: nat, row: Task, jobs: map<nat, Job>, snapshots: map<nat, Snapshot>)
    requires Snapshots(tasks, jobs, snapshots) && t !in tasks
    requires row.kind == JobParse ==> row.resource in jobs && !jobs[row.resource].deleted && row.status == Queued
    ensures Snapshots(tasks[t := row], jobs, snapshots)
  {
    var tasks' := tasks[t := row];
    forall j | HasSucceeded(tasks, j) ensures HasSucceeded(tasks', j) {
      var u :| u in tasks && tasks[u].kind == JobParse && tasks[u].resource == j && tasks[u].status == Succeeded;
      assert tasks'[u] == tasks[u];
    }
  }

  lemma NextIsFree(db: Db)
    requires Inv(db)
    ensures db.next !in db.tasks && db.next + 1 !in db.tasks && Bounded(db)
    ensures forall t :: t in db.tasks ==> db.tasks[t].resource < db.next
  {
    assert forall t :: t in db.tasks ==> RowBounded(db.tasks[t], db.next);
  }

  lemma UploadResumeTables(db: Db, candidate: nat, now: int)
    requires Inv(db) && db.now < now
    ensures var db' := At(UploadResume(db, candidate), now);
      Rows(db') && Bounded(db') && UniqueIds(db'.tasks) && Dispatches(db'.tasks, db'.leases, db'.published)
  {
    hide UniqueKeys, UniqueIds, Dispatches, ResumeTasks, Profiles, Deletions, Chain, Snapshots, RowOk, RowBounded;
    NewRowRows(db, db.next + 1, NewTask(ResumeParse, db.next, 1, db.now), db.next + 2, now);
  }

  lemma UploadResumeKeeps(db: Db, candidate: nat, now: int)
    requires Inv(db) && db.now < now
    ensures Inv(At(UploadResume(db, candidate), now))
  {
    hide Rows, Bounded, UniqueKeys, UniqueIds, Dispatches, ResumeTasks, Profiles, Deletions, Chain, Snapshots;
    NextIsFree(db);
    ResumeIsFree(db);
    var row := NewTask(ResumeParse, db.next, 1, db.now);
    UploadResumeTables(db, candidate, now);
    NewResumeTasks(db.tasks, db.resumes, db.next + 1, db.next, candidate, db.now);
    NewProfiles(db.resumes, db.profiles, db.next, candidate);
    NewRowChain(db.tasks, db.next + 1, row, db.jobs);
    NewRowSnapshots(db.tasks, db.next + 1, row, db.jobs, db.snapshots);
  }

  lemma ResumeIsFree(db: Db)
    requires Bounded(db)
    ensures db.next !in db.resumes && db.next !in db.jobs
  {}

  // ----- the JD chain -------------------------------------------------------

  lemma LatestLeads(db: Db, j: nat)
    requires UniqueKeys(db.tasks) && HasGeneration(db.tasks, j, 1)
    ensures var t := LatestTask(db, j);
      t.Some? && t.value in JobTasks(db, j)
      && forall u :: u in JobTasks(db, j) && u != t.value ==> Earlier(db.tasks[u], db.tasks[t.value])
  {
    var first :| first in db.tasks && db.tasks[first].kind == JobParse && db.tasks[first].resource == j;
    assert first in JobTasks(db, j);
    var t := LatestTask(db, j).value;
    forall u | u in JobTasks(db, j) && u != t ensures Earlier(db.tasks[u], db.tasks[t]) {
      assert Before(GenerationRank(db.tasks)[t], GenerationRank(db.tasks)[u]);
    }
  }

  /** The newest generation: every other task of the job came before it and failed. */
  lemma LatestIsLast(db: Db, j: nat)
    requires Inv(db) && j in db.jobs
    ensures var t := LatestTask(db, j);
      && t.Some? && t.value in JobTasks(db, j)
      && forall u :: u in JobTasks(db, j) && u != t.value ==>
        && Earlier(db.tasks[u], db.tasks[t.value])
        && db.tasks[u].status == Failed && db.tasks[u].createdAt < db.tasks[t.value].createdAt
  {
    hide Rows, Bounded, UniqueIds, Dispatches, ResumeTasks, Profiles, Deletions, Snapshots, UniqueKeys, LatestTask;
    LatestLeads(db, j);
  }

  /** `delete_job` orders by creation time, every other query by generation: on
      reachable states they pick the same row. */
  lemma LastCreatedIsLatest(db: Db, j: nat)
    requires Inv(db) && j in db.jobs
    ensures LastCreatedTask(db, j) == LatestTask(db, j)
  {
    hide Inv, LatestTask;
    LatestIsLast(db, j);
    var t := LatestTask(db, j).value;
    assert Leads(t, JobTasks(db, j), CreationRank(db.tasks));
    LeaderIsUnique(t, LastCreatedTask(db, j).value, JobTasks(db, j), CreationRank(db.tasks));
  }

  ghost predicate LastGeneration(tasks: map<nat, Task>, j: nat, g: nat) {
    && HasGeneration(tasks, j, g)
    && forall u :: u in tasks && tasks[u].kind == JobParse && tasks[u].resource == j ==>
      tasks[u].generation <= g && tasks[u].status == Failed
  }

  lemma AppendGeneration(tasks: map<nat, Task>, t: nat, jobs: map<nat, Job>, j: nat, g: nat, now: int)
    requires UniqueKeys(tasks) && Chain(tasks, jobs) && t !in tasks && j in jobs
    requires LastGeneration(tasks, j, g) && forall u :: u in tasks ==> tasks[u].createdAt < now
    ensures var row := NewTask(JobParse, j, g + 1, now);
      UniqueKeys(tasks[t := row]) && Chain(tasks[t := row], jobs)
  {
    hide HasGeneration;
    TasksGrow(tasks, t, NewTask(JobParse, j, g + 1, now));
  }

  lemma FirstGeneration(tasks: map<nat, Task>, t: nat, jobs: map<nat, Job>, j: nat, job: Job, now: int)
    requires UniqueKeys(tasks) && Chain(tasks, jobs) && t !in tasks && j !in jobs
    ensures var row := NewTask(JobParse, j, 1, now);
      UniqueKeys(tasks[t := row]) && Chain(tasks[t := row], jobs[j := job])
  {
    hide HasGeneration;
    TasksGrow(tasks, t, NewTask(JobParse, j, 1, now));
  }

  lemma NewRowResumes(tasks: map<nat, Task>, t: nat, row: Task, resumes: map<nat, Resume>)
    requires ResumeTasks(tasks, resumes) && t !in tasks && row.kind == JobParse
    ensures ResumeTasks(tasks[t := row], resumes)
  {
    hide Coupled, HasTask;
    TasksGrow(tasks, t, row);
  }

  function WithJobTask(db: Db, t: nat, row: Task, jobs: map<nat, Job>, next: nat, now: int): Db {
    At(db.(next := next, tasks := db.tasks[t := row], jobs := jobs), now)
  }

  lemma NewJobTaskTables(db: Db, t: nat, row: Task, jobs: map<nat, Job>, next: nat, now: int)
    requires Inv(db) && db.now < now && db.next <= t < next && row.resource < next && row.generation >= 1
    requires Untouched(row) && row.createdAt == db.now && row.kind == JobParse && (forall k :: k in jobs ==> k < next)
    ensures var db' := WithJobTask(db, t, row, jobs, next, now);
      Rows(db') && Bounded(db') && UniqueIds(db'.tasks) && Dispatches(db'.tasks, db'.leases, db'.published)
  {
    hide UniqueKeys, UniqueIds, Dispatches, ResumeTasks, Profiles, Deletions, Chain, Snapshots, RowOk, RowBounded;
    NewRowRows(db, t, row, next, now);
  }

  lemma NewJobTaskKeeps(db: Db, t: nat, j: nat, g: nat, jobs: map<nat, Job>, next: nat, now: int)
    requires Inv(db) && db.now < now && db.next <= t < next && j in jobs && g >= 1 && (forall k :: k in jobs ==> k < next)
    requires !jobs[j].deleted && Snapshots(db.tasks, jobs, db.snapshots)
    requires var row := NewTask(JobParse, j, g, db.now); UniqueKeys(db.tasks[t := row]) && Chain(db.tasks[t := row], jobs)
    ensures Inv(WithJobTask(db, t, NewTask(JobParse, j, g, db.now), jobs, next, now))
  {
    hide Rows, UniqueKeys, UniqueIds, Dispatches, ResumeTasks, Profiles, Deletions, Chain, Snapshots;
    var row := NewTask(JobParse, j, g, db.now);
    NewJobTaskTables(db, t, row, jobs, next, now);
    hide Bounded;
    TaskIsFree(db, t);
    NewRowResumes(db.tasks, t, row, db.resumes);
    NewRowSnapshots(db.tasks, t, row, jobs, db.snapshots);
  }

  lemma TaskIsFree(db: Db, t: nat)
    requires Inv(db) && db.next <= t
    ensures t !in db.tasks
  {}

  lemma CreatedBefore(db: Db)
    requires Inv(db)
    ensures forall u :: u in db.tasks ==> db.tasks[u].createdAt < db.now
  {
    assert forall u :: u in db.tasks ==> RowOk(db.tasks[u], db.now);
  }

  lemma LatestIsLastGeneration(db: Db, j: nat, t: nat)
    requires Inv(db) && j in db.jobs && LatestTask(db, j) == Some(t) && db.tasks[t].status == Failed
    ensures LastGeneration(db.tasks, j, db.tasks[t].generation)
  {
    hide Inv, LatestTask;
    LatestIsLast(db, j);
    var g := db.tasks[t].generation;
    assert HasGeneration(db.tasks, j, g);
    forall u | u in db.tasks && db.tasks[u].kind == JobParse && db.tasks[u].resource == j
      ensures db.tasks[u].generation <= g && db.tasks[u].status == Failed
    {
      assert u in JobTasks(db, j);
    }
  }

  lemma EnsureKeeps(db: Db, j: nat, now: int)
    requires Inv(db) && db.now < now && j in db.jobs && !db.jobs[j].deleted
    ensures Inv(At(EnsureJobTask(db, j), now))
  {
    hide Rows, UniqueKeys, UniqueIds, Dispatches, ResumeTasks, Profiles, Deletions, Chain, Snapshots, LatestTask;
    NextIsFree(db);
    CreatedBefore(db);
    LatestIsLast(db, j);
    var t := LatestTask(db, j).value;
    if db.tasks[t].status == Failed {
      var g := db.tasks[t].generation;
      LatestIsLastGeneration(db, j, t);
      AppendGeneration(db.tasks, db.next, db.jobs, j, g, db.now);
      NewJobTaskKeeps(db, db.next, j, g + 1, db.jobs, db.next + 1, now);
    } else {
      TimePasses(db, now);
    }
  }

  lemma UploadJobKeeps(db: Db, hr: nat, now: int)
    requires Inv(db) && db.now < now
    ensures Inv(At(UploadJob(db, hr), now))
  {
    hide Rows, UniqueKeys, UniqueIds, Dispatches, ResumeTasks, Profiles, Deletions, Chain, Snapshots;
    NextIsFree(db);
    ResumeIsFree(db);
    var j := db.next;
    var jobs := db.jobs[j := Job(hr, db.now, false)];
    assert JobTasks(db.(next := j + 1, jobs := jobs), j) == {};
    FirstGeneration(db.tasks, j + 1, db.jobs, j, jobs[j], db.now);
    NewJobSnapshots(db.tasks, db.jobs, db.snapshots, j, jobs[j]);
    NewJobTaskKeeps(db, j + 1, j, 1, jobs, j + 2, now);
  }

  lemma NewJobSnapshots(tasks: map<nat, Task>, jobs: map<nat, Job>, snapshots: map<nat, Snapshot>, j: nat, job: Job)
    requires Snapshots(tasks, jobs, snapshots) && j !in jobs && (forall t :: t in tasks ==> tasks[t].resource != j)
    ensures Snapshots(tasks, jobs[j := job], snapshots)
  {
    hide HasSucceeded;
  }

  // ----- deletion -----------------------------------------------------------

  lemma DeleteResumeKeeps(db: Db, candidate: nat, r: nat, started: bool, now: int)
    requires Inv(db) && db.now < now
    ensures Inv(At(DeleteResume(db, candidate, r, started).0, now))
  {
    if DeleteResume(db, candidate, r, started).1 {
      DeletedResume(db.tasks, db.resumes, db.profiles, r);
    }
    hide Rows, UniqueKeys, UniqueIds, Dispatches, ResumeTasks, Profiles, Deletions, Chain, Snapshots;
    TimePasses(DeleteResume(db, candidate, r, started).0, now);
  }

  lemma DeletedResume(tasks: map<nat, Task>, resumes: map<nat, Resume>, profiles: map<nat, Profile>, r: nat)
    requires ResumeTasks(tasks, resumes) && Profiles(resumes, profiles) && Deletions(resumes)
    requires r in resumes && resumes[r].status != Processing
    ensures var resumes' := resumes[r := resumes[r].(deleted := true)];
      ResumeTasks(tasks, resumes') && Profiles(resumes', profiles) && Deletions(resumes')
  {
    hide HasTask, HasProfile;
  }

  lemma DeletedJob(tasks: map<nat, Task>, jobs: map<nat, Job>, snapshots: map<nat, Snapshot>, j: nat)
    requires Chain(tasks, jobs) && Snapshots(tasks, jobs, snapshots) && j in jobs
    requires forall t :: t in tasks && tasks[t].kind == JobParse && tasks[t].resource == j ==> Terminal(tasks[t].status)
    ensures var jobs' := jobs[j := jobs[j].(deleted := true)];
      Chain(tasks, jobs') && Snapshots(tasks, jobs', snapshots - {j})
  {
    hide HasGeneration, HasSucceeded;
  }

  lemma LastClosesAll(db: Db, j: nat)
    requires Inv(db) && j in db.jobs && LastCreatedTask(db, j).Some?
    requires Terminal(db.tasks[LastCreatedTask(db, j).value].status)
    ensures forall t :: t in db.tasks && db.tasks[t].kind == JobParse && db.tasks[t].resource == j ==> Terminal(db.tasks[t].status)
  {
    LastCreatedIsLatest(db, j);
    LatestIsLast(db, j);
    hide Inv, LatestTask, LastCreatedTask;
    forall t | t in db.tasks && db.tasks[t].kind == JobParse && db.tasks[t].resource == j ensures Terminal(db.tasks[t].status) {
      assert t in JobTasks(db, j);
    }
  }

  lemma DeleteJobKeeps(db: Db, hr: nat, j: nat, matched: bool, now: int)
    requires Inv(db) && db.now < now
    ensures Inv(At(DeleteJob(db, hr, j, matched).0, now))
  {
    hide RowOk, UniqueKeys, UniqueIds, Dispatches, ResumeTasks, Profiles, Deletions, Chain, Snapshots, LastCreatedTask;
    if DeleteJob(db, hr, j, matched).1 {
      LastClosesAll(db, j);
      DeletedJob(db.tasks, db.jobs, db.snapshots, j);
    }
    TimePasses(DeleteJob(db, hr, j, matched).0, now);
  }

  // ----- every run ----------------------------------------------------------

  lemma StepKeeps(db: Db, op: Op, db': Db)
    requires Inv(db) && Step(db, op, db')
    ensures Inv(db')
  {
    hide Inv;
    var now := db'.now;
    assert db' == At(Apply(db, op), now);
    match op
    case Wait => TimePasses(db, now);
    case UploadResumeOp(candidate) => UploadResumeKeeps(db, candidate, now);
    case UploadJobOp(hr) => UploadJobKeeps(db, hr, now);
    case SubmitJobOp(hr, j, fileReady) => SubmitKeeps(db, hr, j, now); TimePasses(db, now);
    case RetryJobOp(hr, j, fileReady, matched) => SubmitKeeps(db, hr, j, now); TimePasses(db, now);
    case ClaimDispatchOp(batch, seconds) => ClaimDispatchKeeps(db, batch, seconds, now);
    case PublishOp(token) => PublishKeeps(db, token, now);
    case ConfirmOp(t, token) => ConfirmKeeps(db, t, token, now);
    case ReleaseDispatchOp(t, token) => ReleaseDispatchKeeps(db, t, token, now);
    case ClaimOp(t, seconds) => ClaimKeeps(db, t, seconds, now);
    case ReleaseOp(t, token) => ReleaseKeeps(db, t, token, now);
    case TimeoutOp(t) => TimeoutKeeps(db, t, now);
    case RecoverOp => RecoverKeeps(db, now);
    case CompleteResumeOp(t, r, token, facts) => CompleteResumeKeeps(db, t, r, token, facts, now);
    case FailResumeOp(t, r, token, code) => FailResumeKeeps(db, t, r, token, code, now);
    case CompleteJobOp(t, j, token, snapshot) => CompleteJobKeeps(db, t, j, token, snapshot, now);
    case FailJobOp(t, j, token, semantics) => FailJobKeeps(db, t, j, token, semantics, now);
    case DeleteResumeOp(candidate, r, started) => DeleteResumeKeeps(db, candidate, r, started, now);
    case DeleteJobOp(hr, j, matched) => DeleteJobKeeps(db, hr, j, matched, now);
  }

  lemma SubmitKeeps(db: Db, hr: nat, j: nat, now: int)
    requires Inv(db) && db.now < now
    ensures VisibleJob(db, hr, j) ==> Inv(At(EnsureJobTask(db, j), now))
  {
    if VisibleJob(db, hr, j) { EnsureKeeps(db, j, now); }
  }

  lemma {:induction false} RunKeeps(dbs: seq<Db>, ops: seq<Op>, n: nat)
    requires Run(dbs, ops) && n < |dbs|
    ensures Inv(dbs[n])
  {
    if n > 0 {
      RunKeeps(dbs, ops, n - 1);
      StepKeeps(dbs[n - 1], ops[n - 1], dbs[n]);
    }
  }
}
