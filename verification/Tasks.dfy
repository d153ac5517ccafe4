/** The durable task protocol: the tables it works on and what each transaction of
    the repositories does to them. Times are in microseconds; `uuid4` values and row
    ids are drawn from one counter. */
module Tasks {
  import opened Common
  import Text

  const SECOND: int := 1_000_000
  const STALLED_AFTER: int := 600

  // ----- tables -------------------------------------------------------------

  datatype TaskStatus = Queued | Running | Succeeded | Failed

  /** The task type fixes the resource type: resumes or jobs. */
  datatype TaskKind = ResumeParse | JobParse

  datatype FailureCode =
    UnsupportedFile | FileUnreadable | StorageUnavailable | ParserTimeout | SchemaValidationFailed | InternalError

  datatype Semantics = TemporaryTechnicalFailure | InputUnavailable | InputInvalid | CoreFieldsMissing

  datatype Task = Task(
    kind: TaskKind, resource: nat, generation: nat, createdAt: int, status: TaskStatus,
    celeryId: Option<nat>, dispatchToken: Option<nat>, dispatchExpires: Option<int>, dispatchedAt: Option<int>,
    token: Option<nat>, startedAt: Option<int>, leaseExpires: Option<int>, finishedAt: Option<int>,
    failureCode: Option<FailureCode>, failureSemantics: Option<Semantics>)

  datatype ParseStatus = Processing | ParseSucceeded | ParseFailed

  datatype Resume = Resume(candidate: nat, status: ParseStatus, failureCode: Option<FailureCode>, deleted: bool)

  /** The facts of a validated extraction that admission to matching looks at. */
  datatype Extraction = Extraction(fullName: Option<string>, hasContact: bool, hasEducation: bool, hasWorkOrProject: bool)

  datatype Profile = Profile(resume: nat, facts: Extraction, ready: bool)

  datatype Job = Job(hr: nat, createdAt: int, deleted: bool)

  /** The parts of a parsed JD read downstream: the dumped field text, the job nature
      and the employment type. */
  datatype Snapshot = Snapshot(text: string, nature: string, employment: string)

  datatype DispatchLease = DispatchLease(task: nat, celeryId: nat, token: nat)

  /** `leases` and `published` record dispatch tokens handed out and publications
      that reached the broker; `current` is `candidates.current_resume_id`. */
  datatype Db = Db(
    now: int, next: nat,
    tasks: map<nat, Task>, resumes: map<nat, Resume>, profiles: map<nat, Profile>, current: map<nat, nat>,
    jobs: map<nat, Job>, snapshots: map<nat, Snapshot>,
    leases: map<nat, nat>, published: set<nat>)

  function NewTask(kind: TaskKind, resource: nat, generation: nat, now: int): Task {
    Task(kind, resource, generation, now, Queued, None, None, None, None, None, None, None, None, None, None)
  }

  predicate Terminal(status: TaskStatus) {
    status == Succeeded || status == Failed
  }

  function SetTask(db: Db, t: nat, task: Task): Db {
    db.(tasks := db.tasks[t := task])
  }

  // ----- creating tasks -----------------------------------------------------

  /** `create_resume` and `create_or_get_queued_resume_task` in one transaction. */
  function UploadResume(db: Db, candidate: nat): Db {
    var r := db.next;
    db.(next := r + 2,
        resumes := db.resumes[r := Resume(candidate, Processing, None, false)],
        current := db.current[candidate := r],
        tasks := db.tasks[r + 1 := NewTask(ResumeParse, r, 1, db.now)])
  }

  function JobTasks(db: Db, j: nat): set<nat> {
    set t | t in db.tasks && db.tasks[t].kind == JobParse && db.tasks[t].resource == j
  }

  /** `task_generation DESC, created_at DESC, id DESC`. */
  function GenerationRank(tasks: map<nat, Task>): map<nat, Rank> {
    map t | t in tasks :: Rank(-(tasks[t].generation as int), -tasks[t].createdAt, -(t as int))
  }

  /** `created_at DESC, id DESC`: the order `delete_job` uses. */
  function CreationRank(tasks: map<nat, Task>): map<nat, Rank> {
    map t | t in tasks :: Rank(-tasks[t].createdAt, -(t as int), 0)
  }

  function LatestTask(db: Db, j: nat): (t: Option<nat>)
    ensures t.Some? ==> t.value in JobTasks(db, j)
  {
    assert DistinctRanks(JobTasks(db, j), GenerationRank(db.tasks));
    Top(JobTasks(db, j), GenerationRank(db.tasks))
  }

  function LastCreatedTask(db: Db, j: nat): (t: Option<nat>)
    ensures t.Some? ==> t.value in JobTasks(db, j)
  {
    assert DistinctRanks(JobTasks(db, j), CreationRank(db.tasks));
    Top(JobTasks(db, j), CreationRank(db.tasks))
  }

  /** The body shared by `create_or_get_queued_job_task` and
      `create_or_get_queued_task`: a new generation only after none or a failed one. */
  function EnsureJobTask(db: Db, j: nat): Db {
    var latest := LatestTask(db, j);
    if latest.Some? && db.tasks[latest.value].status != Failed then db
    else
      var generation := if latest.Some? then db.tasks[latest.value].generation + 1 else 1;
      db.(next := db.next + 1, tasks := db.tasks[db.next := NewTask(JobParse, j, generation, db.now)])
  }

  function UploadJob(db: Db, hr: nat): Db {
    var j := db.next;
    EnsureJobTask(db.(next := j + 1, jobs := db.jobs[j := Job(hr, db.now, false)]), j)
  }

  predicate VisibleJob(db: Db, hr: nat, j: nat) {
    j in db.jobs && db.jobs[j].hr == hr && !db.jobs[j].deleted
  }

  function SubmitJob(db: Db, hr: nat, j: nat, fileReady: bool): Db {
    if VisibleJob(db, hr, j) && fileReady then EnsureJobTask(db, j) else db
  }

  /** `retry_failed_task`; `matched` tells whether a match or application exists. */
  function RetryJob(db: Db, hr: nat, j: nat, fileReady: bool, matched: bool): (Db, bool) {
    var latest := LatestTask(db, j);
    if !VisibleJob(db, hr, j) || !fileReady || matched then (db, false)
    else if latest.None? || db.tasks[latest.value].status != Failed then (db, false)
    else (EnsureJobTask(db, j), true)
  }

  // ----- dispatch -----------------------------------------------------------

  predicate Dispatchable(task: Task, now: int) {
    task.status == Queued && task.dispatchedAt.None?
    && (task.dispatchToken.None? || (task.dispatchExpires.Some? && task.dispatchExpires.value <= now))
  }

  function DispatchableSet(db: Db): set<nat> {
    set t | t in db.tasks && Dispatchable(db.tasks[t], db.now)
  }

  function AgeRank(tasks: map<nat, Task>): map<nat, Rank> {
    map t | t in tasks :: Rank(tasks[t].createdAt, t, 0)
  }

  function DispatchBatch(db: Db, batch: nat): seq<nat> {
    assert DistinctRanks(DispatchableSet(db), AgeRank(db.tasks));
    Limit(Ordered(DispatchableSet(db), AgeRank(db.tasks)), batch)
  }

  /** Draws a celery id (kept only if the row has none) and a dispatch token. */
  function LeaseOne(db: Db, t: nat, seconds: nat): (Db, DispatchLease)
    requires t in db.tasks
  {
    var task := db.tasks[t];
    var celeryId := if task.celeryId.Some? then task.celeryId.value else db.next;
    var token := db.next + 1;
    (SetTask(db, t, task.(celeryId := Some(celeryId), dispatchToken := Some(token),
                          dispatchExpires := Some(db.now + seconds * SECOND)))
     .(next := db.next + 2, leases := db.leases[token := t]),
     DispatchLease(t, celeryId, token))
  }

  function LeaseAll(db: Db, ids: seq<nat>, seconds: nat): (r: (Db, seq<DispatchLease>))
    requires forall t :: t in ids ==> t in db.tasks
    ensures r.0.tasks.Keys == db.tasks.Keys
  {
    if ids == [] then (db, [])
    else
      var n := |ids| - 1;
      var (db1, leases) := LeaseAll(db, ids[..n], seconds);
      var (db2, lease) := LeaseOne(db1, ids[n], seconds);
      (db2, leases + [lease])
  }

  function ClaimDispatch(db: Db, batch: nat, seconds: nat): (Db, seq<DispatchLease>) {
    LeaseAll(db, DispatchBatch(db, batch), seconds)
  }

  predicate HoldsDispatch(db: Db, t: nat, token: nat) {
    t in db.tasks && db.tasks[t].status == Queued && db.tasks[t].dispatchToken == Some(token)
  }

  function ConfirmDispatch(db: Db, t: nat, token: nat): (Db, bool) {
    if !HoldsDispatch(db, t, token) then (db, false)
    else (SetTask(db, t, db.tasks[t].(dispatchedAt := Some(db.now), dispatchToken := None, dispatchExpires := None)), true)
  }

  function ReleaseDispatch(db: Db, t: nat, token: nat): (Db, bool) {
    if !HoldsDispatch(db, t, token) then (db, false)
    else (SetTask(db, t, db.tasks[t].(dispatchToken := None, dispatchExpires := None)), true)
  }

  // ----- execution ----------------------------------------------------------

  predicate Claimable(task: Task, now: int) {
    task.status == Queued
    || (task.status == Running && task.leaseExpires.Some? && task.leaseExpires.value <= now)
  }

  /** The token handed out, or `None` when the delivery is to be ignored. */
  function ClaimExecution(db: Db, t: nat, seconds: nat): (Db, Option<nat>) {
    if t !in db.tasks || !Claimable(db.tasks[t], db.now) then (db, None)
    else
      (SetTask(db, t, db.tasks[t].(status := Running, token := Some(db.next), startedAt := Some(db.now),
                                   leaseExpires := Some(db.now + seconds * SECOND))).(next := db.next + 1),
       Some(db.next))
  }

  predicate HoldsExecution(db: Db, t: nat, token: nat) {
    t in db.tasks && db.tasks[t].status == Running && db.tasks[t].token == Some(token)
  }

  function ReleaseForRetry(db: Db, t: nat, token: nat): (Db, bool) {
    if !HoldsExecution(db, t, token) then (db, false)
    else
      (SetTask(db, t, db.tasks[t].(status := Queued, token := None, leaseExpires := None, startedAt := None,
                                   dispatchedAt := None)), true)
  }

  function TimedOut(task: Task, now: int): Task {
    var closed := task.(status := Failed, finishedAt := Some(now), token := None, leaseExpires := None);
    if task.kind == JobParse
    then closed.(failureCode := None, failureSemantics := Some(TemporaryTechnicalFailure))
    else closed.(failureCode := Some(InternalError))
  }

  predicate Stuck(resumes: map<nat, Resume>, r: nat) {
    r in resumes && resumes[r].status == Processing
  }

  function FailResumeRow(resumes: map<nat, Resume>, r: nat, code: FailureCode): map<nat, Resume>
    requires r in resumes
  {
    resumes[r := resumes[r].(status := ParseFailed, failureCode := Some(code))]
  }

  /** `fail_execution_after_timeout`: closes whatever unexpired lease it finds. */
  function FailAfterTimeout(db: Db, t: nat): (Db, bool) {
    if t !in db.tasks || db.tasks[t].status != Running || db.tasks[t].leaseExpires.None?
       || db.tasks[t].leaseExpires.value <= db.now
    then (db, false)
    else (CloseTimedOut(db, t), true)
  }

  function CloseTimedOut(db: Db, t: nat): Db
    requires t in db.tasks
  {
    var task := db.tasks[t];
    SetTask(db, t, TimedOut(task, db.now)).(
      resumes := if task.kind == ResumeParse && Stuck(db.resumes, task.resource)
                 then FailResumeRow(db.resumes, task.resource, InternalError) else db.resumes)
  }

  predicate Stalled(task: Task, now: int, after: int) {
    task.status == Running
    && task.startedAt.Some? && task.startedAt.value <= now - after * SECOND
    && task.leaseExpires.Some? && task.leaseExpires.value <= now
  }

  function StalledSet(db: Db, after: int): set<nat> {
    set t | t in db.tasks && Stalled(db.tasks[t], db.now, after)
  }

  predicate StalledResume(db: Db, after: int, r: nat) {
    exists t :: t in db.tasks && Stalled(db.tasks[t], db.now, after) && db.tasks[t].kind == ResumeParse && db.tasks[t].resource == r
  }

  function FailStalled(db: Db, after: int): Db {
    db.(tasks := map t | t in db.tasks ::
          if Stalled(db.tasks[t], db.now, after) then TimedOut(db.tasks[t], db.now) else db.tasks[t],
        resumes := map r | r in db.resumes ::
          if StalledResume(db, after, r) && db.resumes[r].status == Processing
          then db.resumes[r].(status := ParseFailed, failureCode := Some(InternalError)) else db.resumes[r])
  }

  // ----- terminal writes of the resume worker -------------------------------

  predicate HoldsResumeExecution(db: Db, t: nat, r: nat, token: nat) {
    HoldsExecution(db, t, token) && db.tasks[t].kind == ResumeParse && db.tasks[t].resource == r
  }

  predicate OpenResume(db: Db, r: nat) {
    r in db.resumes && db.resumes[r].status == Processing && !db.resumes[r].deleted
  }

  predicate HasProfile(profiles: map<nat, Profile>, r: nat) {
    exists p :: p in profiles && profiles[p].resume == r
  }

  function MatchingReadiness(facts: Extraction): bool {
    facts.fullName.Some? && !Text.Blank(facts.fullName.value) && facts.hasContact && facts.hasEducation && facts.hasWorkOrProject
  }

  function Finished(task: Task, status: TaskStatus, now: int): Task {
    task.(status := status, finishedAt := Some(now), token := None, leaseExpires := None)
  }

  function CompleteResume(db: Db, t: nat, r: nat, token: nat, facts: Extraction): (Db, bool) {
    if !HoldsResumeExecution(db, t, r, token) then (db, false)
    else if !OpenResume(db, r) then (db, false)
    else if HasProfile(db.profiles, r) then (db, false)
    else
      (SetTask(db, t, Finished(db.tasks[t], Succeeded, db.now).(failureCode := None)).(
         next := db.next + 1,
         profiles := db.profiles[db.next := Profile(r, facts, MatchingReadiness(facts))],
         resumes := db.resumes[r := db.resumes[r].(status := ParseSucceeded, failureCode := None)]), true)
  }

  function FailResume(db: Db, t: nat, r: nat, token: nat, code: FailureCode): (Db, bool) {
    if !HoldsResumeExecution(db, t, r, token) then (db, false)
    else if !OpenResume(db, r) then (db, false)
    else
      (SetTask(db, t, Finished(db.tasks[t], Failed, db.now).(failureCode := Some(code))).(
         resumes := FailResumeRow(db.resumes, r, code)), true)
  }

  // ----- terminal writes of the JD worker -----------------------------------

  predicate HoldsJobExecution(db: Db, t: nat, j: nat, token: nat) {
    HoldsExecution(db, t, token) && db.tasks[t].kind == JobParse && db.tasks[t].resource == j
  }

  function CompleteJob(db: Db, t: nat, j: nat, token: nat, snapshot: Snapshot): (Db, bool) {
    if !HoldsJobExecution(db, t, j, token) then (db, false)
    else if j !in db.jobs || db.jobs[j].deleted then (db, false)
    else
      (SetTask(db, t, Finished(db.tasks[t], Succeeded, db.now).(failureCode := None, failureSemantics := None)).(
         snapshots := db.snapshots[j := snapshot]), true)
  }

  function FailJob(db: Db, t: nat, j: nat, token: nat, semantics: Semantics): (Db, bool) {
    if !HoldsJobExecution(db, t, j, token) then (db, false)
    else
      (SetTask(db, t, Finished(db.tasks[t], Failed, db.now).(failureCode := None, failureSemantics := Some(semantics))), true)
  }

  // ----- logical deletion ---------------------------------------------------

  /** `delete_resume`; `started` tells whether the candidate has an agent run. */
  function DeleteResume(db: Db, candidate: nat, r: nat, started: bool): (Db, bool) {
    if r !in db.resumes || db.resumes[r].candidate != candidate || db.resumes[r].deleted then (db, false)
    else if candidate !in db.current || db.current[candidate] != r then (db, false)
    else if db.resumes[r].status == Processing || started then (db, false)
    else
      (db.(resumes := db.resumes[r := db.resumes[r].(deleted := true)], current := db.current - {candidate}), true)
  }

  /** `delete_job`; `matched` tells whether a match or application exists. */
  function DeleteJob(db: Db, hr: nat, j: nat, matched: bool): (Db, bool) {
    var last := LastCreatedTask(db, j);
    if !VisibleJob(db, hr, j) then (db, false)
    else if last.None? || !Terminal(db.tasks[last.value].status) || matched then (db, false)
    else (db.(jobs := db.jobs[j := db.jobs[j].(deleted := true)], snapshots := db.snapshots - {j}), true)
  }

  // ----- the transition system ----------------------------------------------

  datatype Op =
    | Wait
    | UploadResumeOp(candidate: nat)
    | UploadJobOp(hr: nat)
    | SubmitJobOp(hr: nat, job: nat, fileReady: bool)
    | RetryJobOp(hr: nat, job: nat, fileReady: bool, matched: bool)
    | ClaimDispatchOp(batch: nat, seconds: nat)
    | PublishOp(token: nat)
    | ConfirmOp(task: nat, token: nat)
    | ReleaseDispatchOp(task: nat, token: nat)
    | ClaimOp(task: nat, seconds: nat)
    | ReleaseOp(task: nat, token: nat)
    | TimeoutOp(task: nat)
    | RecoverOp
    | CompleteResumeOp(task: nat, resume: nat, token: nat, facts: Extraction)
    | FailResumeOp(task: nat, resume: nat, token: nat, code: FailureCode)
    | CompleteJobOp(task: nat, job: nat, token: nat, snapshot: Snapshot)
    | FailJobOp(task: nat, job: nat, token: nat, semantics: Semantics)
    | DeleteResumeOp(candidate: nat, resume: nat, started: bool)
    | DeleteJobOp(hr: nat, job: nat, matched: bool)

  /** Settings bounds, and the dispatcher confirming only what it has published. */
  predicate Enabled(db: Db, op: Op) {
    match op
    case ClaimDispatchOp(batch, seconds) => 1 <= batch <= 100 && 5 <= seconds <= 300
    case PublishOp(token) => token in db.leases
    case ConfirmOp(t, token) => token in db.published
    case ClaimOp(_, seconds) => 31 <= seconds <= 300
    case _ => true
  }

  function Apply(db: Db, op: Op): Db {
    match op
    case Wait => db
    case UploadResumeOp(candidate) => UploadResume(db, candidate)
    case UploadJobOp(hr) => UploadJob(db, hr)
    case SubmitJobOp(hr, j, fileReady) => SubmitJob(db, hr, j, fileReady)
    case RetryJobOp(hr, j, fileReady, matched) => RetryJob(db, hr, j, fileReady, matched).0
    case ClaimDispatchOp(batch, seconds) => ClaimDispatch(db, batch, seconds).0
    case PublishOp(token) => db.(published := db.published + {token})
    case ConfirmOp(t, token) => ConfirmDispatch(db, t, token).0
    case ReleaseDispatchOp(t, token) => ReleaseDispatch(db, t, token).0
    case ClaimOp(t, seconds) => ClaimExecution(db, t, seconds).0
    case ReleaseOp(t, token) => ReleaseForRetry(db, t, token).0
    case TimeoutOp(t) => FailAfterTimeout(db, t).0
    case RecoverOp => FailStalled(db, STALLED_AFTER)
    case CompleteResumeOp(t, r, token, facts) => CompleteResume(db, t, r, token, facts).0
    case FailResumeOp(t, r, token, code) => FailResume(db, t, r, token, code).0
    case CompleteJobOp(t, j, token, snapshot) => CompleteJob(db, t, j, token, snapshot).0
    case FailJobOp(t, j, token, semantics) => FailJob(db, t, j, token, semantics).0
    case DeleteResumeOp(candidate, r, started) => DeleteResume(db, candidate, r, started).0
    case DeleteJobOp(hr, j, matched) => DeleteJob(db, hr, j, matched).0
  }

  const Empty := Db(0, 0, map[], map[], map[], map[], map[], map[], map[], {})

  /** One transaction, then some time: the clock moves strictly forward. */
  predicate Step(db: Db, op: Op, db': Db) {
    Enabled(db, op) && db'.now > db.now && db' == Apply(db, op).(now := db'.now)
  }

  ghost predicate Run(dbs: seq<Db>, ops: seq<Op>) {
    && |dbs| == |ops| + 1
    && dbs[0] == Empty
    && forall i :: 0 <= i < |ops| ==> Step(dbs[i], ops[i], dbs[i + 1])
  }
}
