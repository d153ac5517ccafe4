/** The two routines that count JD readiness, with their loops, and why they agree. */
module Readiness {
  import opened Common
  import opened Tasks
  import opened TaskInvariant
  import opened TaskHistory
  import opened TaskFacts

  function Active(db: Db): set<nat> {
    set j | j in db.jobs && !db.jobs[j].deleted
  }

  predicate LatestIs(db: Db, j: nat, status: TaskStatus) {
    LatestTask(db, j).Some? && db.tasks[LatestTask(db, j).value].status == status
  }

  predicate Eligible(db: Db, j: nat) {
    LatestIs(db, j, Succeeded) && j in db.snapshots
  }

  predicate Pending(db: Db, j: nat) {
    LatestTask(db, j).None? || LatestIs(db, j, Queued) || LatestIs(db, j, Running)
  }

  function EligibleIn(db: Db, js: set<nat>): set<nat> {
    set j | j in js && Eligible(db, j)
  }

  function PendingIn(db: Db, js: set<nat>): set<nat> {
    set j | j in js && Pending(db, j)
  }

  function FailedIn(db: Db, js: set<nat>): set<nat> {
    set j | j in js && LatestIs(db, j, Failed)
  }

  /** `created_at, id`: the order of the matching round. */
  function JobAge(db: Db): map<nat, Rank> {
    map j | j in db.jobs :: Rank(db.jobs[j].createdAt, j, 0)
  }

  datatype Summary = Summary(active: nat, eligible: nat, pending: nat, failed: nat)

  function Counted(db: Db, js: set<nat>): Summary {
    Summary(|js|, |EligibleIn(db, js)|, |PendingIn(db, js)|, |FailedIn(db, js)|)
  }

  // ----- latest_tasks -------------------------------------------------------

  function JobTaskRows(db: Db): set<nat> {
    set t | t in db.tasks && db.tasks[t].kind == JobParse
  }

  /** What `setdefault` leaves under `j` after these rows: the first row of that job. */
  function First(tasks: map<nat, Task>, rows: seq<nat>, j: nat): (t: Option<nat>)
    ensures t.Some? ==> t.value in tasks && tasks[t.value].resource == j
    ensures t.Some? ==> t.value in rows
  {
    if rows == [] then None
    else
      var n := |rows| - 1;
      var earlier := First(tasks, rows[..n], j);
      if earlier.Some? then earlier else if rows[n] in tasks && tasks[rows[n]].resource == j then Some(rows[n]) else None
  }

  lemma {:induction false} FirstIsEarliest(tasks: map<nat, Task>, rows: seq<nat>, j: nat, k: nat)
    requires k < |rows| && rows[k] in tasks && tasks[rows[k]].resource == j
    ensures var t := First(tasks, rows, j); t.Some? && exists i :: 0 <= i <= k && rows[i] == t.value
  {
    var n := |rows| - 1;
    if k < n {
      assert rows[..n][k] == rows[k];
      FirstIsEarliest(tasks, rows[..n], j, k);
    } else {
      assert First(tasks, rows, j).value in rows;
    }
  }

  /** In rank order the first row of a job is its latest task. */
  lemma FirstIsLatest(db: Db, rows: seq<nat>, j: nat)
    requires (forall t :: t in rows <==> t in JobTaskRows(db)) && Sorted(rows, GenerationRank(db.tasks))
    ensures First(db.tasks, rows, j) == LatestTask(db, j)
  {
    hide LatestTask;
    var first := First(db.tasks, rows, j);
    forall t | t in JobTasks(db, j)
      ensures first.Some? && (t == first.value || Before(GenerationRank(db.tasks)[first.value], GenerationRank(db.tasks)[t]))
    {
      assert t in rows;
      var k: nat :| k < |rows| && rows[k] == t;
      FirstIsEarliest(db.tasks, rows, j, k);
    }
    LatestIsTop(db, j, first);
  }

  lemma LatestIsTop(db: Db, j: nat, t: Option<nat>)
    requires t.None? ==> JobTasks(db, j) == {}
    requires t.Some? ==> t.value in JobTasks(db, j)
    requires t.Some? ==> forall u :: u in JobTasks(db, j) && u != t.value ==>
      Before(GenerationRank(db.tasks)[t.value], GenerationRank(db.tasks)[u])
    ensures LatestTask(db, j) == t
  {
    if t.Some? {
      LeaderIsUnique(t.value, LatestTask(db, j).value, JobTasks(db, j), GenerationRank(db.tasks));
    }
  }

  /** `latest_tasks.setdefault(task.resource_id, task)` over the ordered task rows. */
  method LatestTasks(db: Db) returns (latest: map<nat, nat>)
    ensures forall j :: j in latest <==> LatestTask(db, j).Some?
    ensures forall j :: j in latest ==> LatestTask(db, j) == Some(latest[j])
  {
    hide LatestTask, Sorted;
    assert DistinctRanks(JobTaskRows(db), GenerationRank(db.tasks));
    var rows := Ordered(JobTaskRows(db), GenerationRank(db.tasks));
    latest := map[];
    for i := 0 to |rows|
      invariant forall j :: First(db.tasks, rows[..i], j) == if j in latest then Some(latest[j]) else None
    {
      assert rows[..i + 1][..i] == rows[..i];
      assert rows[i] in JobTaskRows(db);
      var resource := db.tasks[rows[i]].resource;
      if resource !in latest {
        latest := latest[resource := rows[i]];
      }
    }
    assert rows[..|rows|] == rows;
    forall j ensures LatestTask(db, j) == if j in latest then Some(latest[j]) else None {
      FirstIsLatest(db, rows, j);
    }
  }

  // ----- the two counting loops ---------------------------------------------

  function Only(j: nat, yes: bool): set<nat> {
    if yes then {j} else {}
  }

  lemma SplitEligible(db: Db, done: set<nat>, j: nat)
    requires j !in done
    ensures |EligibleIn(db, done + {j})| == |EligibleIn(db, done)| + (if Eligible(db, j) then 1 else 0)
  {
    hide Eligible;
    assert EligibleIn(db, done + {j}) == EligibleIn(db, done) + Only(j, Eligible(db, j));
    OneMore(EligibleIn(db, done), j, Eligible(db, j));
  }

  lemma SplitPending(db: Db, done: set<nat>, j: nat)
    requires j !in done
    ensures |PendingIn(db, done + {j})| == |PendingIn(db, done)| + (if Pending(db, j) then 1 else 0)
  {
    hide Pending;
    assert PendingIn(db, done + {j}) == PendingIn(db, done) + Only(j, Pending(db, j));
    OneMore(PendingIn(db, done), j, Pending(db, j));
  }

  lemma SplitFailed(db: Db, done: set<nat>, j: nat)
    requires j !in done
    ensures |FailedIn(db, done + {j})| == |FailedIn(db, done)| + (if LatestIs(db, j, Failed) then 1 else 0)
  {
    hide LatestIs;
    assert FailedIn(db, done + {j}) == FailedIn(db, done) + Only(j, LatestIs(db, j, Failed));
    OneMore(FailedIn(db, done), j, LatestIs(db, j, Failed));
  }

  lemma OneMore(s: set<nat>, j: nat, yes: bool)
    requires j !in s
    ensures |s + Only(j, yes)| == |s| + (if yes then 1 else 0)
  {
    assert s + {} == s;
  }

  lemma Split(db: Db, done: set<nat>, j: nat)
    requires j !in done
    ensures Counted(db, done + {j}) == Tally(Counted(db, done), db, j)
  {
    hide Eligible, Pending, LatestIs, EligibleIn, PendingIn, FailedIn, Only;
    SplitEligible(db, done, j);
    SplitPending(db, done, j);
    SplitFailed(db, done, j);
  }

  function Tally(s: Summary, db: Db, j: nat): Summary {
    Summary(s.active + 1, s.eligible + (if Eligible(db, j) then 1 else 0), s.pending + (if Pending(db, j) then 1 else 0),
            s.failed + (if LatestIs(db, j, Failed) then 1 else 0))
  }

  lemma CountNone(db: Db)
    ensures Counted(db, {}) == Summary(0, 0, 0, 0)
  {
    assert EligibleIn(db, {}) == {} && PendingIn(db, {}) == {} && FailedIn(db, {}) == {};
  }

  /** How the branches of both loops classify a job. */
  lemma Classify(db: Db, latest: map<nat, nat>, j: nat)
    requires j in latest ==> LatestTask(db, j) == Some(latest[j])
    requires j !in latest ==> LatestTask(db, j).None?
    ensures j in latest ==> latest[j] in db.tasks
    ensures Eligible(db, j) <==> j in latest && db.tasks[latest[j]].status == Succeeded && j in db.snapshots
    ensures Pending(db, j) <==> j !in latest || db.tasks[latest[j]].status == Queued || db.tasks[latest[j]].status == Running
    ensures LatestIs(db, j, Failed) <==> j in latest && db.tasks[latest[j]].status == Failed
  {
    hide LatestTask;
  }

  lemma CountNext(db: Db, rows: set<nat>, j: nat)
    requires rows <= Active(db) && j in rows
    ensures Counted(db, Active(db) - (rows - {j})) == Tally(Counted(db, Active(db) - rows), db, j)
  {
    hide Counted, Tally, Active;
    assert Active(db) - (rows - {j}) == Active(db) - rows + {j};
    Split(db, Active(db) - rows, j);
  }

  /** `get_job_readiness`: rows come in no particular order. */
  method GetJobReadiness(db: Db) returns (summary: Summary)
    ensures summary == Counted(db, Active(db))
  {
    hide LatestTask, Active, Counted, Eligible, Pending, LatestIs;
    var latest := LatestTasks(db);
    var eligible, pending, failed := 0, 0, 0;
    var rows := Active(db);
    CountNone(db);
    assert Active(db) - rows == {};
    ghost var seen := 0;
    while rows != {}
      invariant rows <= Active(db)
      invariant Counted(db, Active(db) - rows) == Summary(seen, eligible, pending, failed)
    {
      var j :| j in rows;
      CountNext(db, rows, j);
      Classify(db, latest, j);
      if j in latest && db.tasks[latest[j]].status == Succeeded && j in db.snapshots {
        eligible := eligible + 1;
      } else if j !in latest || db.tasks[latest[j]].status == Queued || db.tasks[latest[j]].status == Running {
        pending := pending + 1;
      } else if db.tasks[latest[j]].status == Failed {
        failed := failed + 1;
      }
      seen, rows := seen + 1, rows - {j};
    }
    assert Active(db) - {} == Active(db);
    CountedAll(db);
    summary := Summary(|Active(db)|, eligible, pending, failed);
  }

  lemma CountedAll(db: Db)
    ensures Counted(db, Active(db)).active == |Active(db)|
  {}

  lemma AgesDiffer(db: Db, js: set<nat>)
    requires js <= Active(db)
    ensures DistinctRanks(js, JobAge(db))
  {}

  /** The rows `_load_job_inputs` yields: the first twenty eligible jobs by age. */
  function JobInputs(db: Db): seq<nat> {
    AgesDiffer(db, EligibleIn(db, Active(db)));
    Limit(Ordered(EligibleIn(db, Active(db)), JobAge(db)), 20)
  }

  ghost predicate Collected(db: Db, rows: seq<nat>, i: nat, eligible: seq<nat>)
    requires i <= |rows|
  {
    && (forall j :: j in eligible <==> j in EligibleIn(db, Members(rows[..i])))
    && (forall j :: j in eligible ==> j in JobAge(db))
    && Sorted(eligible, JobAge(db))
  }

  lemma CollectNext(db: Db, rows: seq<nat>, i: nat, eligible: seq<nat>)
    requires i < |rows| && (forall x :: x in rows ==> x in JobAge(db)) && Sorted(rows, JobAge(db))
    requires Collected(db, rows, i, eligible)
    ensures Members(rows[..i + 1]) == Members(rows[..i]) + {rows[i]} && rows[i] !in Members(rows[..i])
    ensures Collected(db, rows, i + 1, if Eligible(db, rows[i]) then eligible + [rows[i]] else eligible)
  {
    hide Eligible, JobAge;
    assert rows[..i + 1] == rows[..i] + [rows[i]];
    NotSeen(rows, JobAge(db), i);
    if Eligible(db, rows[i]) { EarlierRows(rows, JobAge(db), i, eligible); }
  }

  /** `_load_job_inputs`: rows by age, the eligible ones collected on the way. */
  method LoadJobInputs(db: Db) returns (jobs: seq<nat>, summary: Summary)
    ensures jobs == JobInputs(db) && summary == Counted(db, Active(db))
  {
    hide LatestTask, Collected, JobAge, Counted, Sorted, Eligible, Pending, LatestIs;
    var latest := LatestTasks(db);
    AgesDiffer(db, Active(db));
    var rows := Ordered(Active(db), JobAge(db));
    var eligibleRows: seq<nat> := [];
    var pending, failed := 0, 0;
    CollectNone(db, rows);
    for i := 0 to |rows|
      invariant Counted(db, Members(rows[..i])) == Summary(i, |eligibleRows|, pending, failed)
      invariant Collected(db, rows, i, eligibleRows)
    {
      var j := rows[i];
      CollectNext(db, rows, i, eligibleRows);
      Split(db, Members(rows[..i]), j);
      Classify(db, latest, j);
      if j in latest && db.tasks[latest[j]].status == Succeeded && j in db.snapshots {
        eligibleRows := eligibleRows + [j];
      } else if j !in latest || db.tasks[latest[j]].status == Queued || db.tasks[latest[j]].status == Running {
        pending := pending + 1;
      } else if db.tasks[latest[j]].status == Failed {
        failed := failed + 1;
      }
    }
    CollectAll(db, rows, eligibleRows);
    summary := Summary(|rows|, |eligibleRows|, pending, failed);
    jobs := Limit(eligibleRows, 20);
  }

  lemma CollectNone(db: Db, rows: seq<nat>)
    ensures Collected(db, rows, 0, []) && Counted(db, Members(rows[..0])) == Summary(0, 0, 0, 0)
  {
    CountNone(db);
    assert Members(rows[..0]) == {};
  }

  lemma CollectAll(db: Db, rows: seq<nat>, eligible: seq<nat>)
    requires (forall j :: j in rows <==> j in Active(db)) && Collected(db, rows, |rows|, eligible)
    ensures Members(rows[..|rows|]) == Active(db)
    ensures Limit(eligible, 20) == JobInputs(db)
  {
    hide JobAge, Eligible;
    assert rows[..|rows|] == rows;
    assert Members(rows) == Active(db);
    AgesDiffer(db, EligibleIn(db, Active(db)));
    OrderedIsUnique(EligibleIn(db, Active(db)), JobAge(db), eligible);
  }

  function Members(s: seq<nat>): set<nat> {
    set x | x in s
  }

  lemma NotSeen(rows: seq<nat>, rank: map<nat, Rank>, i: nat)
    requires i < |rows| && (forall x :: x in rows ==> x in rank) && Sorted(rows, rank)
    ensures rows[i] !in Members(rows[..i])
  {}

  lemma EarlierRows(rows: seq<nat>, rank: map<nat, Rank>, i: nat, s: seq<nat>)
    requires i < |rows| && (forall x :: x in rows ==> x in rank) && Sorted(rows, rank)
    requires (forall x :: x in s ==> x in Members(rows[..i])) && (forall x :: x in s ==> x in rank) && Sorted(s, rank)
    ensures Sorted(s + [rows[i]], rank)
  {
    forall k | 0 <= k < |s| ensures Before(rank[s[k]], rank[rows[i]]) {
      assert s[k] in Members(rows[..i]);
      var m :| 0 <= m < i && rows[m] == s[k];
    }
  }

  // ----- what the counts mean -----------------------------------------------

  /** In every reachable state each active job is counted once; a job is eligible
      exactly when it has a snapshot. */
  lemma ReadinessAddsUp(dbs: seq<Db>, ops: seq<Op>, n: nat)
    requires Run(dbs, ops) && n < |dbs|
    ensures var s := Counted(dbs[n], Active(dbs[n])); s.active == s.eligible + s.pending + s.failed
    ensures EligibleIn(dbs[n], Active(dbs[n])) == dbs[n].snapshots.Keys
  {
    RunKeeps(dbs, ops, n);
    AddsUp(dbs[n]);
  }

  lemma AddsUp(db: Db)
    requires Inv(db)
    ensures var s := Counted(db, Active(db)); s.active == s.eligible + s.pending + s.failed
    ensures EligibleIn(db, Active(db)) == db.snapshots.Keys
  {
    hide Inv, LatestTask;
    forall j | j in Active(db)
      ensures LatestTask(db, j).Some? && (Eligible(db, j) <==> LatestIs(db, j, Succeeded))
      ensures Eligible(db, j) <==> j in db.snapshots
    {
      SnapshotByLatest(db, j);
    }
    SnapshotsAreActive(db);
    assert EligibleIn(db, Active(db)) == db.snapshots.Keys;
    Thirds(Active(db), EligibleIn(db, Active(db)), PendingIn(db, Active(db)), FailedIn(db, Active(db)));
  }

  lemma Thirds(all: set<nat>, e: set<nat>, p: set<nat>, f: set<nat>)
    requires forall j :: j in all <==> j in e || j in p || j in f
    requires e !! p && e !! f && p !! f
    ensures |all| == |e| + |p| + |f|
  {
    assert all == e + p + f;
    assert |e + p| == |e| + |p| && |e + p + f| == |e + p| + |f|;
  }

  lemma SnapshotsAreActive(db: Db)
    requires Inv(db)
    ensures forall j :: j in db.snapshots ==> j in Active(db)
  {
    hide HasSucceeded;
  }
}
