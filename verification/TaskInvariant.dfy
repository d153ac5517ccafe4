/** What every transaction of the task protocol keeps: row shapes and table CHECKs,
    the coupling of task, resume and profile, and the chain of JD generations. */
module TaskInvariant {
  import opened Common
  import opened Tasks

  // ----- rows ---------------------------------------------------------------

  /** ck_async_task_run_finished_at, ck_async_task_run_failure_code and
      ck_async_task_run_task_generation. */
  predicate Checks(task: Task) {
    && (Terminal(task.status) <==> task.finishedAt.Some?)
    && (if task.status == Failed then
          if task.kind == JobParse then task.failureCode.None? && task.failureSemantics.Some? else task.failureCode.Some?
        else task.failureCode.None? && task.failureSemantics.None?)
    && task.generation > 0
  }

  /** A running row holds a lease of 31 to 300 seconds; any other row holds none. */
  predicate LeaseShape(task: Task, now: int) {
    if task.status == Running then
      && task.token.Some? && task.startedAt.Some? && task.leaseExpires.Some?
      && task.startedAt.value < now
      && 31 * SECOND <= task.leaseExpires.value - task.startedAt.value <= 300 * SECOND
    else task.token.None? && task.leaseExpires.None?
  }

  predicate DispatchShape(task: Task) {
    && (task.dispatchToken.Some? <==> task.dispatchExpires.Some?)
    && (task.dispatchToken.Some? ==> task.celeryId.Some? && task.dispatchedAt.None?)
  }

  predicate RowOk(task: Task, now: int) {
    Checks(task) && LeaseShape(task, now) && DispatchShape(task) && task.createdAt < now
    && (task.kind == ResumeParse ==> task.generation == 1)
  }

  ghost predicate Rows(db: Db) {
    forall t :: t in db.tasks ==> RowOk(db.tasks[t], db.now)
  }

  predicate Below(x: Option<nat>, next: nat) {
    x.Some? ==> x.value < next
  }

  predicate RowBounded(task: Task, next: nat) {
    task.resource < next && Below(task.celeryId, next) && Below(task.token, next) && Below(task.dispatchToken, next)
  }

  ghost predicate Bounded(db: Db) {
    && (forall t :: t in db.tasks ==> t < db.next && RowBounded(db.tasks[t], db.next))
    && (forall r :: r in db.resumes ==> r < db.next)
    && (forall p :: p in db.profiles ==> p < db.next)
    && (forall j :: j in db.jobs ==> j < db.next)
    && (forall k :: k in db.leases ==> k < db.next)
    && db.published <= db.leases.Keys
  }

  /** The idempotency key (type, resource, generation) is unique. */
  ghost predicate UniqueKeys(tasks: map<nat, Task>) {
    forall t, u :: t in tasks && u in tasks && t != u && tasks[t].kind == tasks[u].kind && tasks[t].resource == tasks[u].resource ==>
      tasks[t].generation != tasks[u].generation
  }

  ghost predicate UniqueIds(tasks: map<nat, Task>) {
    forall t, u :: t in tasks && u in tasks && t != u ==>
      && (tasks[t].celeryId.Some? ==> tasks[t].celeryId != tasks[u].celeryId)
      && (tasks[t].token.Some? ==> tasks[t].token != tasks[u].token)
  }

  // ----- dispatch -----------------------------------------------------------

  ghost predicate Announced(leases: map<nat, nat>, published: set<nat>, t: nat) {
    exists k :: k in published && k in leases && leases[k] == t
  }

  /** A dispatch token belongs to its row; a confirmed row was published. */
  ghost predicate Dispatches(tasks: map<nat, Task>, leases: map<nat, nat>, published: set<nat>) {
    forall t :: t in tasks ==>
      && (tasks[t].dispatchToken.Some? ==>
            tasks[t].dispatchToken.value in leases && leases[tasks[t].dispatchToken.value] == t)
      && (tasks[t].dispatchedAt.Some? ==> Announced(leases, published, t))
  }

  // ----- resumes ------------------------------------------------------------

  predicate Coupled(task: Task, resume: Resume) {
    && (task.status == Queued || task.status == Running <==> resume.status == Processing)
    && (task.status == Succeeded <==> resume.status == ParseSucceeded)
    && (task.status == Failed ==> resume.status == ParseFailed)
    && resume.failureCode == task.failureCode
  }

  ghost predicate HasTask(tasks: map<nat, Task>, r: nat) {
    exists t :: t in tasks && tasks[t].kind == ResumeParse && tasks[t].resource == r
  }

  ghost predicate ResumeTasks(tasks: map<nat, Task>, resumes: map<nat, Resume>) {
    && (forall t :: t in tasks && tasks[t].kind == ResumeParse ==>
          tasks[t].resource in resumes && Coupled(tasks[t], resumes[tasks[t].resource]))
    && (forall r :: r in resumes ==> HasTask(tasks, r))
  }

  ghost predicate Profiles(resumes: map<nat, Resume>, profiles: map<nat, Profile>) {
    && (forall p :: p in profiles ==>
          && profiles[p].resume in resumes && resumes[profiles[p].resume].status == ParseSucceeded
          && profiles[p].ready == MatchingReadiness(profiles[p].facts))
    && (forall p, q :: p in profiles && q in profiles && p != q ==> profiles[p].resume != profiles[q].resume)
    && (forall r :: r in resumes && resumes[r].status == ParseSucceeded ==> HasProfile(profiles, r))
  }

  ghost predicate Deletions(resumes: map<nat, Resume>) {
    forall r :: r in resumes && resumes[r].deleted ==> resumes[r].status != Processing
  }

  // ----- jobs ---------------------------------------------------------------

  ghost predicate HasGeneration(tasks: map<nat, Task>, j: nat, g: nat) {
    exists t :: t in tasks && tasks[t].kind == JobParse && tasks[t].resource == j && tasks[t].generation == g
  }

  predicate Earlier(x: Task, y: Task) {
    x.kind == JobParse && y.kind == JobParse && x.resource == y.resource && x.generation < y.generation
  }

  /** Generations 1..n without gaps, all but the last failed, created in order. */
  ghost predicate Chain(tasks: map<nat, Task>, jobs: map<nat, Job>) {
    && (forall t :: t in tasks && tasks[t].kind == JobParse ==>
          && tasks[t].resource in jobs
          && (tasks[t].generation > 1 ==> HasGeneration(tasks, tasks[t].resource, tasks[t].generation - 1)))
    && (forall j :: j in jobs ==> HasGeneration(tasks, j, 1))
    && (forall t, u :: t in tasks && u in tasks && Earlier(tasks[t], tasks[u]) ==>
          tasks[t].status == Failed && tasks[t].createdAt < tasks[u].createdAt)
  }

  ghost predicate HasSucceeded(tasks: map<nat, Task>, j: nat) {
    exists t :: t in tasks && tasks[t].kind == JobParse && tasks[t].resource == j && tasks[t].status == Succeeded
  }

  /** An undeleted job has a snapshot exactly when a task of it succeeded; a deleted
      job has none, and no open task. */
  ghost predicate Snapshots(tasks: map<nat, Task>, jobs: map<nat, Job>, snapshots: map<nat, Snapshot>) {
    && (forall j :: j in snapshots ==> j in jobs && !jobs[j].deleted && HasSucceeded(tasks, j))
    && (forall t :: t in tasks && tasks[t].kind == JobParse && tasks[t].resource in jobs ==>
          if jobs[tasks[t].resource].deleted then Terminal(tasks[t].status)
          else tasks[t].status == Succeeded ==> tasks[t].resource in snapshots)
  }

  ghost predicate Inv(db: Db) {
    && Rows(db) && Bounded(db) && UniqueKeys(db.tasks) && UniqueIds(db.tasks)
    && Dispatches(db.tasks, db.leases, db.published)
    && ResumeTasks(db.tasks, db.resumes) && Profiles(db.resumes, db.profiles) && Deletions(db.resumes)
    && Chain(db.tasks, db.jobs) && Snapshots(db.tasks, db.jobs, db.snapshots)
  }

  function At(db: Db, now: int): Db {
    db.(now := now)
  }

  /** Only the clock moves. */
  lemma TimePasses(db: Db, now: int)
    requires Inv(db) && now >= db.now
    ensures Inv(At(db, now))
  {}

  // ----- rewriting open rows ------------------------------------------------

  predicate SameIdentity(x: Task, y: Task) {
    x.kind == y.kind && x.resource == y.resource && x.generation == y.generation && x.createdAt == y.createdAt
  }

  /** No row appears or vanishes, and only open rows change. */
  ghost predicate Rewritten(tasks: map<nat, Task>, tasks': map<nat, Task>) {
    && tasks'.Keys == tasks.Keys
    && forall t :: t in tasks ==>
      SameIdentity(tasks[t], tasks'[t]) && (Terminal(tasks[t].status) ==> tasks'[t] == tasks[t])
  }

  lemma RewrittenChain(tasks: map<nat, Task>, tasks': map<nat, Task>, jobs: map<nat, Job>)
    requires Rewritten(tasks, tasks') && UniqueKeys(tasks) && Chain(tasks, jobs)
    ensures UniqueKeys(tasks') && Chain(tasks', jobs)
  {
    forall j, g | HasGeneration(tasks, j, g) ensures HasGeneration(tasks', j, g) {
      var t :| t in tasks && tasks[t].kind == JobParse && tasks[t].resource == j && tasks[t].generation == g;
      assert SameIdentity(tasks[t], tasks'[t]);
    }
    forall t, u | t in tasks' && u in tasks' && Earlier(tasks'[t], tasks'[u])
      ensures tasks'[t].status == Failed && tasks'[t].createdAt < tasks'[u].createdAt
    {
      assert Earlier(tasks[t], tasks[u]);
    }
  }

  lemma RewrittenSnapshots(tasks: map<nat, Task>, tasks': map<nat, Task>, jobs: map<nat, Job>, snapshots: map<nat,
        Snapshot>)
    requires Rewritten(tasks, tasks') && Snapshots(tasks, jobs, snapshots)
    requires forall t :: t in tasks && tasks'[t].status == Succeeded ==> tasks[t].status == Succeeded || tasks[t].kind == ResumeParse
    ensures Snapshots(tasks', jobs, snapshots)
  {
    forall j | HasSucceeded(tasks, j) ensures HasSucceeded(tasks', j) {
      var t :| t in tasks && tasks[t].kind == JobParse && tasks[t].resource == j && tasks[t].status == Succeeded;
      assert tasks'[t] == tasks[t];
    }
  }

  lemma RewrittenResumes(tasks: map<nat, Task>, tasks': map<nat, Task>, resumes: map<nat, Resume>,
        resumes': map<nat, Resume>)
    requires Rewritten(tasks, tasks') && ResumeTasks(tasks, resumes)
    requires resumes'.Keys == resumes.Keys
    requires forall t :: t in tasks' && tasks'[t].kind == ResumeParse && tasks[t].resource in resumes ==>
      Coupled(tasks'[t], resumes'[tasks'[t].resource])
    ensures ResumeTasks(tasks', resumes')
  {
    forall r | r in resumes' ensures HasTask(tasks', r) {
      assert HasTask(tasks, r);
      var t :| t in tasks && tasks[t].kind == ResumeParse && tasks[t].resource == r;
      assert SameIdentity(tasks[t], tasks'[t]);
    }
  }

  ghost predicate LeasesExtend(leases: map<nat, nat>, leases': map<nat, nat>, next: nat) {
    && (forall k :: k in leases ==> k in leases' && leases'[k] == leases[k])
    && (forall k :: k in leases' ==> k < next)
  }

  /** One open row changes and stays open: dispatch, confirm, claim, release. */
  ghost predicate OpenRow(db: Db, db': Db, t: nat, task: Task) {
    && t in db.tasks && !Terminal(db.tasks[t].status)
    && db'.now >= db.now && db'.next >= db.next
    && db' == db.(now := db'.now, next := db'.next, tasks := db.tasks[t := task], leases := db'.leases)
    && LeasesExtend(db.leases, db'.leases, db'.next)
    && SameIdentity(db.tasks[t], task) && !Terminal(task.status) && RowOk(task, db'.now) && RowBounded(task, db'.next)
    && (task.celeryId.Some? && task.celeryId != db.tasks[t].celeryId ==> task.celeryId.value >= db.next)
    && (task.token.Some? && task.token != db.tasks[t].token ==> task.token.value >= db.next)
    && (task.dispatchToken.Some? ==> task.dispatchToken.value in db'.leases && db'.leases[task.dispatchToken.value] == t)
    && (task.dispatchedAt.Some? ==> Announced(db'.leases, db'.published, t))
  }

  lemma OpenRowTables(db: Db, db': Db, t: nat, task: Task)
    requires Inv(db) && OpenRow(db, db', t, task)
    ensures Rows(db') && Bounded(db')
  {
    hide Coupled, Chain, Snapshots, Profiles, UniqueIds, UniqueKeys;
    forall u | u in db'.tasks ensures RowOk(db'.tasks[u], db'.now) && RowBounded(db'.tasks[u], db'.next) {
      assert RowOk(db.tasks[u], db.now);
    }
  }

  lemma OpenRowIds(db: Db, db': Db, t: nat, task: Task)
    requires Inv(db) && OpenRow(db, db', t, task)
    ensures UniqueIds(db'.tasks)
  {
    hide Coupled, Chain, Snapshots, Profiles, UniqueKeys, RowOk;
    forall u | u in db'.tasks && u != t
      ensures task.celeryId.Some? ==> task.celeryId != db'.tasks[u].celeryId
      ensures task.token.Some? ==> task.token != db'.tasks[u].token
    {
      assert RowBounded(db.tasks[u], db.next);
    }
  }

  lemma OpenRowRewrites(db: Db, db': Db, t: nat, task: Task)
    requires Inv(db) && OpenRow(db, db', t, task)
    ensures Rewritten(db.tasks, db'.tasks)
    ensures task.failureCode.None? && db.tasks[t].failureCode.None?
    ensures forall u :: u in db.tasks && db'.tasks[u].status == Succeeded ==> db.tasks[u].status == Succeeded
    ensures db'.jobs == db.jobs && db'.snapshots == db.snapshots
  {
    hide Inv;
    RowFacts(db, t);
  }

  lemma RowFacts(db: Db, t: nat)
    requires Inv(db) && t in db.tasks
    ensures RowOk(db.tasks[t], db.now) && RowBounded(db.tasks[t], db.next)
    ensures LeasesExtend(db.leases, db.leases, db.next)
    ensures db.tasks[t].dispatchToken.Some? ==>
      db.tasks[t].dispatchToken.value in db.leases && db.leases[db.tasks[t].dispatchToken.value] == t
    ensures db.tasks[t].dispatchedAt.Some? ==> Announced(db.leases, db.published, t)
  {}

  lemma OpenRowSnapshots(db: Db, db': Db, t: nat, task: Task)
    requires Inv(db) && OpenRow(db, db', t, task)
    ensures Chain(db'.tasks, db'.jobs) && UniqueKeys(db'.tasks)
    ensures Snapshots(db'.tasks, db'.jobs, db'.snapshots)
  {
    OpenRowRewrites(db, db', t, task);
    hide OpenRow, Chain, Snapshots, UniqueKeys, UniqueIds, Dispatches, Profiles, Bounded, Rows, Rewritten, ResumeTasks;
    RewrittenChain(db.tasks, db'.tasks, db.jobs);
    RewrittenSnapshots(db.tasks, db'.tasks, db.jobs, db.snapshots);
  }

  lemma OpenRowResumes(db: Db, db': Db, t: nat, task: Task)
    requires Inv(db) && OpenRow(db, db', t, task)
    ensures ResumeTasks(db'.tasks, db'.resumes)
  {
    OpenRowRewrites(db, db', t, task);
    hide Chain, Snapshots, UniqueKeys, UniqueIds, Dispatches, Profiles, Bounded, Rows, Rewritten;
    RewrittenResumes(db.tasks, db'.tasks, db.resumes, db.resumes);
  }

  lemma OpenRowDispatches(db: Db, db': Db, t: nat, task: Task)
    requires Inv(db) && OpenRow(db, db', t, task)
    ensures Dispatches(db'.tasks, db'.leases, db'.published)
  {
    hide Inv;
    LeasesGrow(db, db', t);
  }

  lemma OpenRowKeeps(db: Db, db': Db, t: nat, task: Task)
    requires Inv(db) && OpenRow(db, db', t, task)
    ensures Inv(db')
  {
    hide Chain, Snapshots, UniqueKeys, UniqueIds, Dispatches, Profiles, Bounded, Rows, ResumeTasks, Deletions;
    OpenRowSnapshots(db, db', t, task);
    OpenRowResumes(db, db', t, task);
    OpenRowTables(db, db', t, task);
    OpenRowIds(db, db', t, task);
    OpenRowDispatches(db, db', t, task);
  }

  lemma LeasesGrow(db: Db, db': Db, t: nat)
    requires Inv(db)
    requires db'.tasks.Keys == db.tasks.Keys && forall u :: u in db.tasks && u != t ==> db'.tasks[u] == db.tasks[u]
    requires db'.published == db.published
    requires LeasesExtend(db.leases, db'.leases, db'.next)
    requires t in db'.tasks ==>
      && (db'.tasks[t].dispatchToken.Some? ==>
            db'.tasks[t].dispatchToken.value in db'.leases && db'.leases[db'.tasks[t].dispatchToken.value] == t)
      && (db'.tasks[t].dispatchedAt.Some? ==> Announced(db'.leases, db'.published, t))
    ensures Dispatches(db'.tasks, db'.leases, db'.published)
  {
    hide Rows, Bounded, UniqueKeys, UniqueIds, ResumeTasks, Profiles, Deletions, Chain, Snapshots;
    forall u | u in db'.tasks && u != t && db'.tasks[u].dispatchedAt.Some? ensures Announced(db'.leases, db'.published, u) {
      assert Announced(db.leases, db.published, u);
    }
  }


  // ----- dispatch and execution steps ---------------------------------------

  function LeasedRow(db: Db, t: nat, seconds: nat): Task
    requires t in db.tasks
  {
    db.tasks[t].(celeryId := if db.tasks[t].celeryId.Some? then db.tasks[t].celeryId else Some(db.next),
                 dispatchToken := Some(db.next + 1), dispatchExpires := Some(db.now + seconds * SECOND))
  }

  lemma LeasedRowOk(db: Db, t: nat, seconds: nat)
    requires t in db.tasks && db.tasks[t].status == Queued && db.tasks[t].dispatchedAt.None?
    requires RowOk(db.tasks[t], db.now) && RowBounded(db.tasks[t], db.next)
    ensures var row := LeasedRow(db, t, seconds);
      RowOk(row, db.now) && RowBounded(row, db.next + 2) && SameIdentity(db.tasks[t], row) && row.status == Queued
  {}

  lemma LeaseOneOpens(db: Db, t: nat, seconds: nat)
    requires Inv(db) && t in db.tasks && db.tasks[t].status == Queued && db.tasks[t].dispatchedAt.None?
    ensures OpenRow(db, LeaseOne(db, t, seconds).0, t, LeasedRow(db, t, seconds))
  {
    hide Inv;
    var db' := LeaseOne(db, t, seconds).0;
    RowFacts(db, t);
    LeasedRowOk(db, t, seconds);
    assert LeasesExtend(db.leases, db'.leases, db'.next);
    hide Announced, LeasesExtend, RowOk, SameIdentity, RowBounded;
  }

  lemma LeaseOneKeeps(db: Db, t: nat, seconds: nat)
    requires Inv(db) && t in db.tasks && db.tasks[t].status == Queued && db.tasks[t].dispatchedAt.None?
    ensures Inv(LeaseOne(db, t, seconds).0)
  {
    var db' := LeaseOne(db, t, seconds).0;
    LeaseOneOpens(db, t, seconds);
    hide Inv, OpenRow;
    OpenRowKeeps(db, db', t, LeasedRow(db, t, seconds));
  }

  lemma {:induction false} LeaseAllKeeps(db: Db, ids: seq<nat>, seconds: nat)
    requires Inv(db) && (forall t :: t in ids ==> t in db.tasks && db.tasks[t].status == Queued && db.tasks[t].dispatchedAt.None?)
    ensures var db' := LeaseAll(db, ids, seconds).0;
      && Inv(db') && db'.now == db.now
      && forall t :: t in db.tasks ==> db'.tasks[t].status == db.tasks[t].status && db'.tasks[t].dispatchedAt == db.tasks[t].dispatchedAt
  {
    hide Inv;
    if ids != [] {
      var n := |ids| - 1;
      LeaseAllKeeps(db, ids[..n], seconds);
      LeaseOneKeeps(LeaseAll(db, ids[..n], seconds).0, ids[n], seconds);
    }
  }

  lemma ClaimDispatchKeeps(db: Db, batch: nat, seconds: nat, now: int)
    requires Inv(db) && db.now < now
    ensures Inv(At(ClaimDispatch(db, batch, seconds).0, now))
  {
    assert forall t :: t in DispatchBatch(db, batch) ==> t in DispatchableSet(db);
    LeaseAllKeeps(db, DispatchBatch(db, batch), seconds);
    TimePasses(ClaimDispatch(db, batch, seconds).0, now);
  }

  lemma ConfirmKeeps(db: Db, t: nat, token: nat, now: int)
    requires Inv(db) && token in db.published && db.now < now
    ensures Inv(At(ConfirmDispatch(db, t, token).0, now))
  {
    hide Inv;
    if HoldsDispatch(db, t, token) {
      var db' := At(ConfirmDispatch(db, t, token).0, now);
      RowFacts(db, t);
      assert Announced(db.leases, db.published, t);
      OpenRowKeeps(db, db', t, db'.tasks[t]);
    } else {
      TimePasses(db, now);
    }
  }

  lemma ReleaseDispatchKeeps(db: Db, t: nat, token: nat, now: int)
    requires Inv(db) && db.now < now
    ensures Inv(At(ReleaseDispatch(db, t, token).0, now))
  {
    hide Inv;
    if HoldsDispatch(db, t, token) {
      var db' := At(ReleaseDispatch(db, t, token).0, now);
      RowFacts(db, t);
      OpenRowKeeps(db, db', t, db'.tasks[t]);
    } else {
      TimePasses(db, now);
    }
  }

  lemma ClaimKeeps(db: Db, t: nat, seconds: nat, now: int)
    requires Inv(db) && 31 <= seconds <= 300 && db.now < now
    ensures Inv(At(ClaimExecution(db, t, seconds).0, now))
  {
    hide Inv;
    if ClaimExecution(db, t, seconds).1.Some? {
      var db' := At(ClaimExecution(db, t, seconds).0, now);
      RowFacts(db, t);
      OpenRowKeeps(db, db', t, db'.tasks[t]);
    } else {
      TimePasses(db, now);
    }
  }

  lemma ReleaseKeeps(db: Db, t: nat, token: nat, now: int)
    requires Inv(db) && db.now < now
    ensures Inv(At(ReleaseForRetry(db, t, token).0, now))
  {
    hide Inv;
    if HoldsExecution(db, t, token) {
      var db' := At(ReleaseForRetry(db, t, token).0, now);
      RowFacts(db, t);
      OpenRowKeeps(db, db', t, db'.tasks[t]);
    } else {
      TimePasses(db, now);
    }
  }

  lemma PublishKeeps(db: Db, token: nat, now: int)
    requires Inv(db) && token in db.leases && db.now < now
    ensures Inv(At(db.(published := db.published + {token}), now))
  {
    TimePasses(db, now);
    var published := db.published + {token};
    forall t | t in db.tasks && db.tasks[t].dispatchedAt.Some? ensures Announced(db.leases, published, t) {
      var k :| k in db.published && k in db.leases && db.leases[k] == t;
      assert k in published;
    }
  }

  // ----- closing rows -------------------------------------------------------

  predicate Closed(x: Task, y: Task) {
    && Terminal(y.status) && Checks(y) && y.token.None? && y.leaseExpires.None?
    && y.celeryId == x.celeryId && y.dispatchToken == x.dispatchToken && y.dispatchExpires == x.dispatchExpires
    && y.dispatchedAt == x.dispatchedAt
  }

  /** Some open rows become terminal; every other row is untouched. */
  ghost predicate Closes(tasks: map<nat, Task>, tasks': map<nat, Task>) {
    && Rewritten(tasks, tasks')
    && forall t :: t in tasks ==> tasks'[t] == tasks[t] || Closed(tasks[t], tasks'[t])
  }

  lemma ClosesKeepsRows(db: Db, db': Db)
    requires Inv(db) && Closes(db.tasks, db'.tasks)
    requires db'.leases == db.leases && db'.published == db.published && db'.now >= db.now && db'.next >= db.next
    ensures Rows(db') && UniqueIds(db'.tasks)
    ensures forall t :: t in db'.tasks ==> t < db'.next && RowBounded(db'.tasks[t], db'.next)
  {
    hide Coupled, Chain, Snapshots, Profiles, Dispatches;
    forall t | t in db'.tasks ensures RowOk(db'.tasks[t], db'.now) && RowBounded(db'.tasks[t], db'.next) {
      assert RowOk(db.tasks[t], db.now) && RowBounded(db.tasks[t], db.next);
    }
  }

  lemma ClosesDispatches(tasks: map<nat, Task>, tasks': map<nat, Task>, leases: map<nat, nat>, published: set<nat>)
    requires Dispatches(tasks, leases, published) && Closes(tasks, tasks')
    ensures Dispatches(tasks', leases, published)
  {
    hide Announced, Checks, SameIdentity, Terminal;
  }

  lemma ClosesKeepsChain(db: Db, db': Db)
    requires Inv(db) && Closes(db.tasks, db'.tasks)
    requires db'.leases == db.leases && db'.published == db.published && db'.jobs == db.jobs
    ensures Dispatches(db'.tasks, db'.leases, db'.published)
    ensures UniqueKeys(db'.tasks) && Chain(db'.tasks, db'.jobs)
  {
    hide Rows, Bounded, UniqueKeys, UniqueIds, Dispatches, ResumeTasks, Profiles, Deletions, Chain, Snapshots,
      Closed, Rewritten;
    ClosesDispatches(db.tasks, db'.tasks, db.leases, db.published);
    RewrittenChain(db.tasks, db'.tasks, db.jobs);
  }

  lemma OneTaskPerResume(db: Db, t: nat, u: nat)
    requires Rows(db) && UniqueKeys(db.tasks)
    requires t in db.tasks && u in db.tasks && db.tasks[t].kind == ResumeParse && db.tasks[u].kind == ResumeParse
    requires db.tasks[t].resource == db.tasks[u].resource
    ensures t == u
  {
    assert RowOk(db.tasks[t], db.now) && RowOk(db.tasks[u], db.now);
  }

  /** A closed row whose new shape its resume's new row matches. */
  ghost predicate ClosedWith(db: Db, db': Db, t: nat, row: Task, resume: Resume) {
    && t in db.tasks && !Terminal(db.tasks[t].status) && SameIdentity(db.tasks[t], row) && Closed(db.tasks[t], row)
    && db.tasks[t].kind == ResumeParse && db.tasks[t].resource in db.resumes && Coupled(row, resume)
    && db'.tasks == db.tasks[t := row] && db'.resumes == db.resumes[db.tasks[t].resource := resume]
  }

  lemma ClosedWithResume(db: Db, db': Db, t: nat, row: Task, resume: Resume)
    requires Rows(db) && UniqueKeys(db.tasks) && ResumeTasks(db.tasks, db.resumes)
    requires ClosedWith(db, db', t, row, resume)
    ensures Closes(db.tasks, db'.tasks) && ResumeTasks(db'.tasks, db'.resumes)
  {
    hide UniqueKeys, Rows, Checks;
    forall u | u in db.tasks && u != t && db.tasks[u].kind == ResumeParse
      ensures db.tasks[u].resource in db.resumes && Coupled(db'.tasks[u], db'.resumes[db.tasks[u].resource])
    {
      if db.tasks[u].resource == db.tasks[t].resource { OneTaskPerResume(db, t, u); }
    }
    hide Coupled;
    RewrittenResumes(db.tasks, db'.tasks, db.resumes, db'.resumes);
  }

  lemma FailedResumeProfiles(resumes: map<nat, Resume>, profiles: map<nat, Profile>, r: nat, code: FailureCode)
    requires Profiles(resumes, profiles) && Deletions(resumes) && r in resumes && resumes[r].status == Processing
    ensures Profiles(FailResumeRow(resumes, r, code), profiles) && Deletions(FailResumeRow(resumes, r, code))
  {}

  lemma OpenHasProcessing(db: Db, t: nat)
    requires Inv(db) && t in db.tasks && db.tasks[t].kind == ResumeParse
    ensures db.tasks[t].resource in db.resumes && Coupled(db.tasks[t], db.resumes[db.tasks[t].resource])
    ensures db.tasks[t].resource < db.next
  {}

  function FailedResumeDb(db: Db, t: nat, code: FailureCode): Db
    requires t in db.tasks && db.tasks[t].resource in db.resumes
  {
    SetTask(db, t, Finished(db.tasks[t], Failed, db.now).(failureCode := Some(code))).(
      resumes := FailResumeRow(db.resumes, db.tasks[t].resource, code))
  }

  lemma FailedResumeCloses(db: Db, t: nat, code: FailureCode)
    requires Inv(db) && t in db.tasks && db.tasks[t].status == Running && db.tasks[t].kind == ResumeParse
    requires db.tasks[t].resource in db.resumes
    ensures var db' := FailedResumeDb(db, t, code);
      ClosedWith(db, db', t, db'.tasks[t], db'.resumes[db.tasks[t].resource])
    ensures db.resumes[db.tasks[t].resource].status == Processing
  {
    hide Inv;
    OpenHasProcessing(db, t);
    RowFacts(db, t);
  }

  lemma BoundedAgain(db: Db, db': Db)
    requires Bounded(db) && db'.next >= db.next
    requires db'.resumes.Keys == db.resumes.Keys && db'.profiles.Keys == db.profiles.Keys
    requires db'.jobs.Keys == db.jobs.Keys
    requires db'.leases == db.leases && db'.published == db.published
    requires forall t :: t in db'.tasks ==> t < db'.next && RowBounded(db'.tasks[t], db'.next)
    ensures Bounded(db')
  {
    hide RowBounded;
  }

  /** A resume task and its processing resume fail with the same code. */
  lemma CloseResumeKeeps(db: Db, t: nat, code: FailureCode)
    requires Inv(db) && t in db.tasks && db.tasks[t].status == Running && db.tasks[t].kind == ResumeParse
    requires db.tasks[t].resource in db.resumes
    ensures Inv(FailedResumeDb(db, t, code))
  {
    hide Rows, Bounded, UniqueKeys, UniqueIds, Dispatches, ResumeTasks, Profiles, Deletions, Chain, Snapshots,
      ClosedWith, Closes;
    var db' := FailedResumeDb(db, t, code);
    var r := db.tasks[t].resource;
    FailedResumeCloses(db, t, code);
    ClosedWithResume(db, db', t, db'.tasks[t], db'.resumes[r]);
    ClosesKeepsRows(db, db');
    ClosesKeepsChain(db, db');
    BoundedAgain(db, db');
    FailedResumeProfiles(db.resumes, db.profiles, r, code);
    FailedSnapshots(db.tasks, t, db'.tasks[t], db.jobs, db.snapshots);
  }

  lemma FailedSnapshots(tasks: map<nat, Task>, t: nat, row: Task, jobs: map<nat, Job>, snapshots: map<nat, Snapshot>)
    requires Snapshots(tasks, jobs, snapshots) && t in tasks && Closes(tasks, tasks[t := row])
    requires row.status == Failed || row.kind == ResumeParse
    ensures Snapshots(tasks[t := row], jobs, snapshots)
  {
    RewrittenSnapshots(tasks, tasks[t := row], jobs, snapshots);
  }

  lemma FailResumeKeeps(db: Db, t: nat, r: nat, token: nat, code: FailureCode, now: int)
    requires Inv(db) && db.now < now
    ensures Inv(At(FailResume(db, t, r, token, code).0, now))
  {
    hide Inv;
    if FailResume(db, t, r, token, code).1 {
      CloseResumeKeeps(db, t, code);
      TimePasses(FailResume(db, t, r, token, code).0, now);
    } else {
      TimePasses(db, now);
    }
  }

  /** A JD task closes; the resumes do not take part. */
  ghost predicate ClosedJob(db: Db, t: nat, row: Task) {
    && t in db.tasks && !Terminal(db.tasks[t].status) && db.tasks[t].kind == JobParse
    && SameIdentity(db.tasks[t], row) && Closed(db.tasks[t], row)
  }

  lemma ClosedJobResumes(db: Db, t: nat, row: Task)
    requires ResumeTasks(db.tasks, db.resumes) && ClosedJob(db, t, row)
    ensures Closes(db.tasks, db.tasks[t := row]) && ResumeTasks(db.tasks[t := row], db.resumes)
  {
    hide Checks, Coupled, Terminal;
    RewrittenResumes(db.tasks, db.tasks[t := row], db.resumes, db.resumes);
  }

  lemma CloseJobKeeps(db: Db, t: nat, row: Task, snapshots: map<nat, Snapshot>)
    requires Inv(db) && ClosedJob(db, t, row)
    requires Snapshots(db.tasks[t := row], db.jobs, snapshots)
    ensures Inv(SetTask(db, t, row).(snapshots := snapshots))
  {
    hide Rows, Bounded, UniqueKeys, UniqueIds, Dispatches, ResumeTasks, Profiles, Deletions, Chain, Snapshots,
      ClosedJob, Closes;
    var db' := SetTask(db, t, row).(snapshots := snapshots);
    ClosedJobResumes(db, t, row);
    ClosesKeepsRows(db, db');
    ClosesKeepsChain(db, db');
    BoundedAgain(db, db');
  }

  lemma ClosedJobRow(db: Db, t: nat, row: Task)
    requires Inv(db) && t in db.tasks && db.tasks[t].status == Running && db.tasks[t].kind == JobParse
    requires Terminal(row.status)
    requires row == Finished(db.tasks[t], row.status, db.now).(failureCode := None, failureSemantics := row.failureSemantics)
    requires row.status == Failed <==> row.failureSemantics.Some?
    ensures ClosedJob(db, t, row)
  {
    hide Inv;
    RowFacts(db, t);
  }

  lemma FailedJobKeeps(db: Db, t: nat, semantics: Semantics)
    requires Inv(db) && t in db.tasks && db.tasks[t].status == Running && db.tasks[t].kind == JobParse
    ensures Inv(SetTask(db, t, Finished(db.tasks[t], Failed, db.now).(failureCode := None, failureSemantics := Some(semantics))))
  {
    var row := Finished(db.tasks[t], Failed, db.now).(failureCode := None, failureSemantics := Some(semantics));
    ClosedJobRow(db, t, row);
    hide Rows, Bounded, UniqueKeys, UniqueIds, Dispatches, ResumeTasks, Profiles, Deletions, Chain, Snapshots,
      ClosedJob, Closes;
    ClosedJobResumes(db, t, row);
    FailedSnapshots(db.tasks, t, row, db.jobs, db.snapshots);
    CloseJobKeeps(db, t, row, db.snapshots);
  }

  lemma FailJobKeeps(db: Db, t: nat, j: nat, token: nat, semantics: Semantics, now: int)
    requires Inv(db) && db.now < now
    ensures Inv(At(FailJob(db, t, j, token, semantics).0, now))
  {
    hide Inv;
    if FailJob(db, t, j, token, semantics).1 { FailedJobKeeps(db, t, semantics); }
    TimePasses(FailJob(db, t, j, token, semantics).0, now);
  }

  lemma TimeoutKeeps(db: Db, t: nat, now: int)
    requires Inv(db) && db.now < now
    ensures Inv(At(FailAfterTimeout(db, t).0, now))
  {
    hide Inv;
    var db' := FailAfterTimeout(db, t).0;
    if FailAfterTimeout(db, t).1 {
      if db.tasks[t].kind == JobParse {
        FailedJobKeeps(db, t, TemporaryTechnicalFailure);
      } else {
        OpenHasProcessing(db, t);
        RowFacts(db, t);
        CloseResumeKeeps(db, t, InternalError);
        assert db' == FailedResumeDb(db, t, InternalError);
      }
    }
    TimePasses(db', now);
  }

  lemma SucceededSnapshots(tasks: map<nat, Task>, jobs: map<nat, Job>, snapshots: map<nat, Snapshot>, t: nat,
        row: Task, snapshot: Snapshot)
    requires Snapshots(tasks, jobs, snapshots) && t in tasks && tasks[t].kind == JobParse
    requires tasks[t].resource in jobs && !jobs[tasks[t].resource].deleted
    requires SameIdentity(tasks[t], row) && row.status == Succeeded
    ensures Snapshots(tasks[t := row], jobs, snapshots[tasks[t].resource := snapshot])
  {
    var tasks' := tasks[t := row];
    assert tasks'[t] == row;
    assert HasSucceeded(tasks', tasks[t].resource);
    forall j | HasSucceeded(tasks, j) ensures HasSucceeded(tasks', j) {
      var u :| u in tasks && tasks[u].kind == JobParse && tasks[u].resource == j && tasks[u].status == Succeeded;
      assert tasks'[u].status == Succeeded;
    }
  }

  lemma CompleteJobKeeps(db: Db, t: nat, j: nat, token: nat, snapshot: Snapshot, now: int)
    requires Inv(db) && db.now < now
    ensures Inv(At(CompleteJob(db, t, j, token, snapshot).0, now))
  {
    if CompleteJob(db, t, j, token, snapshot).1 {
      CompletedJobKeeps(db, t, snapshot);
    }
    hide Inv;
    TimePasses(CompleteJob(db, t, j, token, snapshot).0, now);
  }

  lemma CompletedJobKeeps(db: Db, t: nat, snapshot: Snapshot)
    requires Inv(db) && t in db.tasks && db.tasks[t].status == Running && db.tasks[t].kind == JobParse
    requires db.tasks[t].resource in db.jobs && !db.jobs[db.tasks[t].resource].deleted
    ensures Inv(SetTask(db, t, Finished(db.tasks[t], Succeeded, db.now).(failureCode := None, failureSemantics := None)).(
      snapshots := db.snapshots[db.tasks[t].resource := snapshot]))
  {
    var row := Finished(db.tasks[t], Succeeded, db.now).(failureCode := None, failureSemantics := None);
    ClosedJobRow(db, t, row);
    hide Rows, Bounded, UniqueKeys, UniqueIds, Dispatches, ResumeTasks, Profiles, Deletions, Chain, Snapshots,
      ClosedJob, Closes;
    SucceededSnapshots(db.tasks, db.jobs, db.snapshots, t, row, snapshot);
    CloseJobKeeps(db, t, row, db.snapshots[db.tasks[t].resource := snapshot]);
  }

  // ----- completing a resume ------------------------------------------------

  lemma CompletedProfiles(resumes: map<nat, Resume>, profiles: map<nat, Profile>, r: nat, p: nat, facts: Extraction)
    requires Profiles(resumes, profiles) && Deletions(resumes) && r in resumes && resumes[r].status == Processing
    requires p !in profiles
    ensures Profiles(resumes[r := resumes[r].(status := ParseSucceeded, failureCode := None)],
                     profiles[p := Profile(r, facts, MatchingReadiness(facts))])
    ensures Deletions(resumes[r := resumes[r].(status := ParseSucceeded, failureCode := None)])
  {
    var profiles' := profiles[p := Profile(r, facts, MatchingReadiness(facts))];
    assert profiles'[p].resume == r;
    forall q | q in resumes && HasProfile(profiles, q) ensures HasProfile(profiles', q) {
      var x :| x in profiles && profiles[x].resume == q;
      assert profiles'[x].resume == q;
    }
  }

  function CompletedResumeDb(db: Db, t: nat, facts: Extraction): Db
    requires t in db.tasks && db.tasks[t].resource in db.resumes
  {
    var r := db.tasks[t].resource;
    SetTask(db, t, Finished(db.tasks[t], Succeeded, db.now).(failureCode := None)).(
      next := db.next + 1,
      profiles := db.profiles[db.next := Profile(r, facts, MatchingReadiness(facts))],
      resumes := db.resumes[r := db.resumes[r].(status := ParseSucceeded, failureCode := None)])
  }

  lemma CompletedResumeCloses(db: Db, t: nat, facts: Extraction)
    requires Inv(db) && t in db.tasks && db.tasks[t].status == Running && db.tasks[t].kind == ResumeParse
    requires db.tasks[t].resource in db.resumes
    ensures var db' := CompletedResumeDb(db, t, facts);
      ClosedWith(db, db', t, db'.tasks[t], db'.resumes[db.tasks[t].resource])
    ensures db.resumes[db.tasks[t].resource].status == Processing
  {
    hide Inv;
    OpenHasProcessing(db, t);
    RowFacts(db, t);
  }

  lemma CompletedBounded(db: Db, db': Db)
    requires Bounded(db) && db'.next == db.next + 1
    requires db'.resumes.Keys == db.resumes.Keys && db'.profiles.Keys == db.profiles.Keys + {db.next}
    requires db'.jobs.Keys == db.jobs.Keys
    requires db'.leases == db.leases && db'.published == db.published
    requires forall t :: t in db'.tasks ==> t < db'.next && RowBounded(db'.tasks[t], db'.next)
    ensures Bounded(db')
  {
    hide RowBounded;
  }

  lemma CompletedResumeKeeps(db: Db, t: nat, facts: Extraction)
    requires Inv(db) && t in db.tasks && db.tasks[t].status == Running && db.tasks[t].kind == ResumeParse
    requires db.tasks[t].resource in db.resumes && db.next !in db.profiles
    ensures Inv(CompletedResumeDb(db, t, facts))
  {
    hide Rows, Bounded, UniqueKeys, UniqueIds, Dispatches, ResumeTasks, Profiles, Deletions, Chain, Snapshots,
      ClosedWith, Closes;
    var db' := CompletedResumeDb(db, t, facts);
    var r := db.tasks[t].resource;
    CompletedResumeCloses(db, t, facts);
    ClosedWithResume(db, db', t, db'.tasks[t], db'.resumes[r]);
    ClosesKeepsRows(db, db');
    ClosesKeepsChain(db, db');
    CompletedBounded(db, db');
    CompletedProfiles(db.resumes, db.profiles, r, db.next, facts);
    FailedSnapshots(db.tasks, t, db'.tasks[t], db.jobs, db.snapshots);
  }

  lemma CompleteResumeKeeps(db: Db, t: nat, r: nat, token: nat, facts: Extraction, now: int)
    requires Inv(db) && db.now < now
    ensures Inv(At(CompleteResume(db, t, r, token, facts).0, now))
  {
    assert db.next !in db.profiles;
    hide Inv;
    if CompleteResume(db, t, r, token, facts).1 { CompletedResumeKeeps(db, t, facts); }
    TimePasses(CompleteResume(db, t, r, token, facts).0, now);
  }

  // ----- stalled recovery ---------------------------------------------------

  lemma StalledCloses(db: Db, after: int)
    requires Inv(db)
    ensures Closes(db.tasks, FailStalled(db, after).tasks)
  {
    hide Inv;
    forall t | t in db.tasks && Stalled(db.tasks[t], db.now, after)
      ensures Closed(db.tasks[t], TimedOut(db.tasks[t], db.now))
      ensures SameIdentity(db.tasks[t], TimedOut(db.tasks[t], db.now))
    {
      RowFacts(db, t);
    }
  }

  lemma StalledCoupling(db: Db, after: int, t: nat)
    requires Rows(db) && UniqueKeys(db.tasks)
    requires t in db.tasks && db.tasks[t].kind == ResumeParse && db.tasks[t].resource in db.resumes
    requires Coupled(db.tasks[t], db.resumes[db.tasks[t].resource])
    ensures var db' := FailStalled(db, after); Coupled(db'.tasks[t], db'.resumes[db.tasks[t].resource])
  {
    var r := db.tasks[t].resource;
    assert RowOk(db.tasks[t], db.now);
    if StalledResume(db, after, r) {
      var u :| u in db.tasks && Stalled(db.tasks[u], db.now, after) && db.tasks[u].kind == ResumeParse && db.tasks[u].resource == r;
      OneTaskPerResume(db, t, u);
    }
  }

  lemma StalledResumes(db: Db, after: int)
    requires Rows(db) && UniqueKeys(db.tasks) && ResumeTasks(db.tasks, db.resumes)
    requires Closes(db.tasks, FailStalled(db, after).tasks)
    ensures var db' := FailStalled(db, after); ResumeTasks(db'.tasks, db'.resumes)
  {
    var db' := FailStalled(db, after);
    hide Coupled, UniqueKeys, Rows, Stalled, StalledResume, HasTask;
    forall t | t in db.tasks && db.tasks[t].kind == ResumeParse
      ensures db.tasks[t].resource in db.resumes && Coupled(db'.tasks[t], db'.resumes[db.tasks[t].resource])
    {
      StalledCoupling(db, after, t);
    }
    RewrittenResumes(db.tasks, db'.tasks, db.resumes, db'.resumes);
  }

  lemma StalledProfiles(db: Db, after: int)
    requires Profiles(db.resumes, db.profiles) && Deletions(db.resumes)
    ensures Profiles(FailStalled(db, after).resumes, db.profiles) && Deletions(FailStalled(db, after).resumes)
  {
    hide StalledResume, HasProfile;
  }

  lemma RecoverKeeps(db: Db, now: int)
    requires Inv(db) && db.now < now
    ensures Inv(At(FailStalled(db, STALLED_AFTER), now))
  {
    hide Rows, Bounded, UniqueKeys, UniqueIds, Dispatches, ResumeTasks, Profiles, Deletions, Chain, Snapshots, Closes;
    var db' := FailStalled(db, STALLED_AFTER);
    StalledCloses(db, STALLED_AFTER);
    StalledResumes(db, STALLED_AFTER);
    StalledProfiles(db, STALLED_AFTER);
    ClosesKeepsRows(db, db');
    ClosesKeepsChain(db, db');
    BoundedAgain(db, db');
    StalledSnapshots(db, STALLED_AFTER);
    TimePasses(db', now);
  }

  lemma StalledSnapshots(db: Db, after: int)
    requires Snapshots(db.tasks, db.jobs, db.snapshots) && Closes(db.tasks, FailStalled(db, after).tasks)
    ensures Snapshots(FailStalled(db, after).tasks, db.jobs, db.snapshots)
  {
    hide Stalled;
    RewrittenSnapshots(db.tasks, FailStalled(db, after).tasks, db.jobs, db.snapshots);
  }
}
