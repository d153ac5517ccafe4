/** The repositories and services that work on the object directory, written as the
    source writes them and proved to take the steps of the transition system. */
module StorageService {
  import opened Common
  import opened Storage
  import opened StorageSafety
  import opened StorageReplay
  import opened StorageConservation

  /** One upload left to itself: store, transaction, then the pending disk delete. A
      rejected resume name ends it after the store; `fails` is an exception inside the
      `try`, such as the rejected name of a document. */
  ghost function UploadRun(s: State, q: Request, fails: bool, eraseOk: bool): State {
    var u := s.next + 1;
    var s1 := Put(s, q);
    if NameRejected(q) then EndUpload(s1, u)
    else FinishRun(if Fails(q, fails) then Rollback(s1, u) else Commit(s1, u), u, eraseOk)
  }

  /** Whether the `try` ends in its handler. */
  predicate Fails(q: Request, fails: bool) {
    fails || (q.kind != Job && !NameFits(q))
  }

  /** A cleaner batch left to itself; `faults[i]` tells whether erase `i` fails. */
  ghost function Drain(s: State, faults: seq<bool>): State
    requires s.cleaner.Batch? ==> s.cleaner.claims != [] && s.cleaner.stage == Erasing
    decreases if s.cleaner.Batch? then |s.cleaner.claims| else 0
  {
    if s.cleaner.Idle? then s
    else
      var ok := faults == [] || !faults[0];
      Drain(Apply(Apply(s, EraseStep(ok)), SettleStep(true)), if faults == [] then [] else faults[1..])
  }

  class ObjectDirectory {
    var now: int
    var next: nat
    var objects: map<nat, Object>
    var refs: map<nat, Reference>
    var disk: map<nat, nat>
    var uploads: map<nat, Upload>

    function Db(): State
      reads this
    {
      State(now, next, objects, refs, disk, uploads, Idle)
    }

    constructor ()
      ensures Db() == Start
    {
      now, next, objects, refs, disk, uploads := 0, 0, map[], map[], map[], map[];
    }

    // ----- ObjectStorageRepository ------------------------------------------

    method LockedObjectByHash(digest: nat) returns (found: Option<nat>)
      ensures found.Some? ==> Holds(objects, found.value, digest)
      ensures found.None? ==> forall o :: o in objects ==> objects[o].digest != digest
    {
      if o :| o in objects && objects[o].digest == digest {
        return Some(o);
      }
      return None;
    }

    /** `_as_ready_reference`: revives a dying row in place. */
    method MakeReady(o: nat, key: nat) returns (a: Acquired)
      requires o in objects
      modifies this`objects
      ensures (Db(), a) == AsReadyReference(old(Db()), o, key)
    {
      var row := objects[o];
      if row.status == Ready {
        return Acquired(o, row.key == key, None);
      }
      objects := objects[o := row.(status := Ready, key := key, updatedAt := now)];
      return Acquired(o, true, Some(row.key));
    }

    method AcquireForReference(key: nat, digest: nat) returns (a: Acquired)
      requires Distinct(objects) && forall o :: o in objects ==> o < next
      modifies this`objects, this`next
      ensures (Db(), a) == Acquire(old(Db()), key, digest)
    {
      var existing := LockedObjectByHash(digest);
      if existing.Some? {
        assert Holds(objects, existing.value, digest);
        a := MakeReady(existing.value, key);
        return;
      }
      assert forall o :: !Holds(objects, o, digest);
      objects := objects[next := Object(key, digest, Ready, now)];
      next := next + 1;
      var winner := LockedObjectByHash(digest);
      assert Holds(objects, next - 1, digest);
      a := MakeReady(winner.value, key);
    }

    method BuildClaims(values: seq<nat>) returns (claims: seq<Claim>)
      ensures claims == ClaimsOf(objects, values)
    {
      claims := [];
      for i := 0 to |values|
        invariant claims == ClaimsOf(objects, values[..i])
      {
        claims := claims + [ClaimOf(objects, values[i])];
        ClaimsOfAppends(objects, values[..i], values[i]);
        assert values[..i + 1] == values[..i] + [values[i]];
      }
      assert values[..|values|] == values;
    }

    method MarkEach(values: seq<nat>)
      requires forall o :: o in values ==> o in objects
      modifies this`objects
      ensures objects == MarkAll(old(objects), values, now)
    {
      for i := 0 to |values|
        invariant objects == MarkAll(old(objects), values[..i], now)
      {
        objects := objects[values[i] := MarkDeleting(objects[values[i]], now)];
        assert values[..i + 1] == values[..i] + [values[i]];
      }
      assert values[..|values|] == values;
    }

    method ClaimExpiredUnreferenced(limit: nat) returns (claims: seq<Claim>)
      modifies this`objects
      ensures (Db(), claims) == ClaimExpired(old(Db()), limit)
      ensures objects.Keys == old(objects.Keys)
    {
      var values := Selected(Db(), limit);
      SelectedRows(Db(), limit);
      claims := BuildClaims(values);
      MarkEach(values);
    }

    method FinalizeDeletion(o: nat) returns (result: Finalized)
      modifies this`objects, this`refs
      ensures (Db(), result) == Finalize(old(Db()), o)
      ensures |objects| == old(|objects|) - (if result == Removed then 1 else 0)
    {
      if o !in objects || objects[o].status != Deleting || HasReference(Db(), o) {
        return Kept;
      }
      if Restricted(Db(), o) {
        return Refused;
      }
      assert |objects.Keys - {o}| == |objects.Keys| - 1;
      assert (objects - {o}).Keys == objects.Keys - {o};
      objects, refs := objects - {o}, Detach(refs, o);
      return Removed;
    }

    method RestoreAfterDeleteFailure(claim: Claim)
      modifies this`objects
      ensures Db() == Restore(old(Db()), claim)
      ensures |objects| == old(|objects|)
    {
      if claim.row in objects && objects[claim.row].status == Deleting {
        var row := objects[claim.row];
        assert objects[claim.row := row].Keys == objects.Keys;
        if claim.previous != Deleting {
          objects := objects[claim.row := row.(status := claim.previous, updatedAt := now)];
        } else {
          objects := objects[claim.row := row];
        }
        assert objects.Keys == old(objects.Keys);
      }
    }

    // ----- ObjectCleanupService.run_once ------------------------------------

    /** The body of the loop: erase, then finalize or restore. */
    method CleanOne(claim: Claim, fault: bool) returns (result: Finalized)
      modifies this`objects, this`refs, this`disk
      ensures Db() == Cleaned(old(Db()), claim, !fault)
      ensures |objects| == old(|objects|) - (if result == Removed then 1 else 0)
    {
      if fault {
        RestoreAfterDeleteFailure(claim);
        return Kept;
      }
      disk := disk - {claim.key};
      result := FinalizeDeletion(claim.row);
    }

    /** `None` stands for the ValueError on a batch size outside 1..500. */
    method RunOnce(batchSize: int, faults: seq<bool>) returns (deleted: Option<nat>, finalizeFailures: nat)
      modifies this
      ensures deleted.None? <==> !(1 <= batchSize <= 500)
      ensures deleted.None? ==> Db() == old(Db())
      ensures deleted.Some? ==> Db() == Drain(Apply(old(Db()), ClaimStep(batchSize)), faults)
      ensures deleted.Some? ==> |objects| == old(|objects|) - deleted.value
    {
      finalizeFailures := 0;
      if !(1 <= batchSize <= 500) {
        return None, 0;
      }
      ghost var goal := Drain(Apply(Db(), ClaimStep(batchSize)), faults);
      var claims := ClaimExpiredUnreferenced(batchSize);
      assert |objects| == |objects.Keys| == old(|objects.Keys|);
      var count := 0;
      assert Skip(faults, 0) == faults && claims[0..] == claims;
      for i := 0 to |claims|
        invariant |objects| == old(|objects|) - count
        invariant goal == Drain(Rest(Db(), claims, i), Skip(faults, i))
      {
        ghost var s := Db();
        var result := CleanOne(claims[i], i < |faults| && faults[i]);
        if result == Removed {
          count := count + 1;
        } else if result == Refused {
          finalizeFailures := finalizeFailures + 1;
        }
        DrainOne(s, claims, i, faults);
      }
      return Some(count), finalizeFailures;
    }

    // ----- the upload transactions ------------------------------------------

    method AddRow(q: Request, o: nat)
      modifies this`refs, this`next
      ensures Db() == AddReference(old(Db()), q, o)
    {
      refs := refs[next := Reference(q.kind, q.owner, Some(o), q.idempotency, q.name, false, 0)];
      next := next + 1;
    }

    method CreateResume(q: Request, key: nat) returns (outcome: Outcome)
      requires Inv(Db()) && UniqueLive(refs) && q.kind == Resume
      modifies this`objects, this`refs, this`next
      ensures (Db(), outcome) == Storage.CreateResume(old(Db()), q, key)
    {
      var savedObjects, savedNext := objects, next;
      var a := AcquireForReference(key, q.digest);
      if r :| r in refs && ByKey(Db(), r, q) {
        assert forall t :: ByKey(Db(), t, q) ==> t == r by {
          forall t | ByKey(Db(), t, q) ensures t == r { assert SameOwner(refs[t], refs[r]); }
        }
        if objects[refs[r].file.value].digest != q.digest {
          objects, next := savedObjects, savedNext;
          return Rejected;
        }
        return Reused;
      }
      assert forall r :: !ByKey(Db(), r, q);
      if r :| r in refs && ByContent(Db(), r, q) {
        return Reused;
      }
      assert forall r :: !ByContent(Db(), r, q);
      AddRow(q, a.row);
      return Created(a.usedNewUpload, a.replaced);
    }

    method CreateDocument(q: Request, key: nat) returns (outcome: Outcome)
      requires Inv(Db()) && UniqueLive(refs) && q.kind == Document
      modifies this`objects, this`refs, this`next
      ensures (Db(), outcome) == Storage.CreateDocument(old(Db()), q, key)
    {
      if r :| r in refs && ByKey(Db(), r, q) {
        assert forall t :: ByKey(Db(), t, q) ==> t == r by {
          forall t | ByKey(Db(), t, q) ensures t == r { assert SameOwner(refs[t], refs[r]); }
        }
        if refs[r].name != q.name || objects[refs[r].file.value].digest != q.digest {
          return Rejected;
        }
        return Reused;
      }
      assert forall r :: !ByKey(Db(), r, q);
      if r :| r in refs && ByContent(Db(), r, q) {
        return Reused;
      }
      assert forall r :: !ByContent(Db(), r, q);
      var a := AcquireForReference(key, q.digest);
      AddRow(q, a.row);
      return Created(a.usedNewUpload, a.replaced);
    }

    method CreateJob(q: Request, key: nat) returns (outcome: Outcome)
      requires Inv(Db()) && q.kind == Job
      modifies this`objects, this`refs, this`next
      ensures (Db(), outcome) == Storage.CreateJob(old(Db()), q, key)
    {
      if r :| r in refs && ByContent(Db(), r, q) {
        return Reused;
      }
      assert forall r :: !ByContent(Db(), r, q);
      var a := AcquireForReference(key, q.digest);
      AddRow(q.(idempotency := None), a.row);
      return Created(a.usedNewUpload, a.replaced);
    }

    // ----- upload_resume, _upload_one_document, _upload_one -------------------

    /** The pending disk delete after the transaction. */
    method Finish(u: nat, eraseOk: bool)
      requires u in uploads && uploads[u].phase.Finishing?
      modifies this`disk, this`uploads
      ensures Db() == FinishRun(old(Db()), u, eraseOk)
    {
      FinishShape(Db(), u, eraseOk);
      var up := uploads[u];
      if up.phase.discardOwn {
        if eraseOk { disk := disk - {up.key}; }
      } else if up.phase.replaced.Some? {
        if eraseOk { disk := disk - {up.phase.replaced.value}; }
      }
      uploads := uploads - {u};
    }

    /** The transaction of one upload; `fails` is an exception inside it. */
    method Persist(u: nat, fails: bool) returns (outcome: Outcome)
      requires Inv(Db()) && UniqueLive(refs)
      requires u in uploads && uploads[u].phase.Stored? && uploads[u].request.kind != Attachment
      modifies this`objects, this`refs, this`next, this`uploads
      ensures Db() == if fails then Rollback(old(Db()), u) else Commit(old(Db()), u)
      ensures outcome == if fails then Rejected else Transaction(old(Db()), old(uploads[u].request), old(uploads[u].key)).1
    {
      var up := uploads[u];
      if fails {
        outcome := Rejected;
      } else {
        match up.request.kind
        case Resume => outcome := CreateResume(up.request, up.key);
        case Document => outcome := CreateDocument(up.request, up.key);
        case Job => outcome := CreateJob(up.request, up.key);
      }
      uploads := uploads[u := up.(phase := AfterTransaction(outcome))];
    }

    /** The discipline shared by the three services. `fails` is an exception inside
        the transaction, `eraseOk` the result of the one disk delete that follows. */
    method Upload(q: Request, fails: bool, eraseOk: bool) returns (outcome: Outcome)
      requires Inv(Db()) && UniqueLive(refs) && q.kind != Attachment
      modifies this
      ensures Inv(Db()) && UniqueLive(refs)
      ensures Db() == UploadRun(old(Db()), q, fails, eraseOk)
      ensures outcome == if NameRejected(q) || Fails(q, fails) then Rejected else Transaction(Put(old(Db()), q), q, old(next)).1
    {
      hide Inv, Transaction, UniqueLive, NameFits, UploadRun;
      var key, u := next, next + 1;
      ghost var s := Put(Db(), q);
      PutKeeps(Db(), q);
      UploadRunKeeps(Db(), q, fails, eraseOk);
      UploadRunKeepsUnique(Db(), q, fails, eraseOk);
      UploadRunUnfolds(Db(), q, fails, eraseOk);
      disk := disk[key := q.digest];
      next := next + 2;
      uploads := uploads[u := Storage.Upload(q, key, Stored)];
      assert Db() == s;
      if NameRejected(q) {
        uploads := uploads - {u};
        return Rejected;
      }
      outcome := Persist(u, Fails(q, fails));
      Finish(u, eraseOk);
    }
  }

  ghost function FinishRun(s: State, u: nat, eraseOk: bool): State
    requires u in s.uploads && s.uploads[u].phase.Finishing?
  {
    if s.uploads[u].phase.discardOwn then
      if eraseOk then EndUpload(DiscardOwn(s, u, true), u) else DiscardOwn(s, u, false)
    else if s.uploads[u].phase.replaced.Some? then DropReplaced(s, u, eraseOk)
    else EndUpload(s, u)
  }

  lemma FinishShape(s: State, u: nat, eraseOk: bool)
    requires u in s.uploads && s.uploads[u].phase.Finishing?
    ensures var phase := s.uploads[u].phase;
      FinishRun(s, u, eraseOk) == s.(
        uploads := s.uploads - {u},
        disk := if !eraseOk then s.disk
                else if phase.discardOwn then s.disk - {s.uploads[u].key}
                else if phase.replaced.Some? then s.disk - {phase.replaced.value}
                else s.disk)
  {
    var up := s.uploads[u];
    assert s.uploads[u := up.(phase := Finishing(false, up.phase.replaced))] - {u} == s.uploads - {u};
  }

  /** An upload left to itself keeps the invariant. */
  lemma UploadRunKeeps(s: State, q: Request, fails: bool, eraseOk: bool)
    requires Inv(s)
    ensures Inv(UploadRun(s, q, fails, eraseOk))
  {
    var u := s.next + 1;
    var s1 := Put(s, q);
    PutKeeps(s, q);
    if NameRejected(q) {
      EndUploadKeeps(s1, u);
    } else {
      RollbackKeeps(s1, u);
      CommitKeeps(s1, u);
      FinishKeeps(if Fails(q, fails) then Rollback(s1, u) else Commit(s1, u), u, eraseOk);
    }
  }

  lemma UploadRunKeepsUnique(s: State, q: Request, fails: bool, eraseOk: bool)
    requires Inv(s) && UniqueLive(s.refs)
    ensures UniqueLive(UploadRun(s, q, fails, eraseOk).refs)
  {
    hide UniqueLive, NameRejected, Fails, Commit, Transaction, FinishRun;
    var u := s.next + 1;
    var s1 := Put(s, q);
    PutKeeps(s, q);
    CommitKeepsUnique(s1, u);
    if !NameRejected(q) {
      CommitEndsTransaction(s1, u);
      FinishShape(if Fails(q, fails) then Rollback(s1, u) else Commit(s1, u), u, eraseOk);
    }
  }

  lemma CommitEndsTransaction(s: State, u: nat)
    requires u in s.uploads
    ensures var s1 := Commit(s, u); u in s1.uploads && s1.uploads[u].phase.Finishing?
  {
    hide Transaction;
  }

  lemma UploadRunUnfolds(s: State, q: Request, fails: bool, eraseOk: bool)
    ensures var u, s1 := s.next + 1, Put(s, q);
      UploadRun(s, q, fails, eraseOk) ==
      if NameRejected(q) then EndUpload(s1, u)
      else FinishRun(if Fails(q, fails) then Rollback(s1, u) else Commit(s1, u), u, eraseOk)
  {
    hide NameRejected, NameFits, Transaction, FinishRun;
  }

  lemma FinishKeeps(s: State, u: nat, eraseOk: bool)
    requires Inv(s) && u in s.uploads && s.uploads[u].phase.Finishing?
    ensures Inv(FinishRun(s, u, eraseOk))
  {
    if s.uploads[u].phase.discardOwn {
      DiscardKeeps(s, u, eraseOk);
      if eraseOk { EndUploadKeeps(DiscardOwn(s, u, true), u); }
    } else if s.uploads[u].phase.replaced.Some? {
      DropKeeps(s, u, eraseOk);
    } else {
      EndUploadKeeps(s, u);
    }
  }

  // ----- what an upload left to itself leaves ------------------------------

  lemma FinishAccounts(s: State, u: nat)
    requires Accounted(s, {}) && u in s.uploads && s.uploads[u].phase.Finishing?
    requires s.uploads[u].phase.discardOwn ==> s.uploads[u].phase.replaced.None?
    ensures Accounted(FinishRun(s, u, true), {})
  {
    hide NameRejected;
    FinishShape(s, u, true);
    hide FinishRun;
    FilesOnlyDropped(s, {}, FinishRun(s, u, true));
  }

  lemma UploadAccounts(s: State, q: Request, fails: bool)
    requires Inv(s) && Accounted(s, {}) && !NameRejected(q) && q.kind != Attachment
    ensures Accounted(UploadRun(s, q, fails, true), {})
  {
    hide Inv, Accounted, NameRejected, NameFits, Commit, Rollback, FinishRun, Put;
    var u, s1 := s.next + 1, Put(s, q);
    PutKeeps(s, q);
    StoreAccounts(s, {}, q);
    NothingLeft(s, q);
    StoredUpload(s, q);
    FailsUnless(q, fails);
    var s2 := if Fails(q, fails) then Rollback(s1, u) else Commit(s1, u);
    if Fails(q, fails) {
      RollbackAccounts(s1, u);
      RollbackKeeps(s1, u);
      RollbackEnds(s1, u);
    } else {
      CommitAccounts(s1, {}, u);
      CommitKeeps(s1, u);
      CommitEndsTransaction(s1, u);
    }
    DiscardsOne(s2, u);
    FinishAccounts(s2, u);
    UploadRunUnfolds(s, q, fails, true);
  }

  lemma NothingLeft(s: State, q: Request)
    requires !NameRejected(q)
    ensures {} + LeftBy(s, Store(q)) == {}
  {}

  lemma StoredUpload(s: State, q: Request)
    ensures var s1 := Put(s, q); s.next + 1 in s1.uploads && s1.uploads[s.next + 1] == Upload(q, s.next, Stored)
  {}

  lemma FailsUnless(q: Request, fails: bool)
    ensures !Fails(q, fails) ==> q.kind == Job || NameFits(q)
  {}

  lemma RollbackAccounts(s: State, u: nat)
    requires Accounted(s, {}) && u in s.uploads && s.uploads[u].phase.Stored?
    ensures Accounted(Rollback(s, u), {})
  {
    hide NameRejected;
    FilesOnlyDropped(s, {}, Rollback(s, u));
  }

  lemma RollbackEnds(s: State, u: nat)
    requires u in s.uploads
    ensures var s1 := Rollback(s, u); u in s1.uploads && s1.uploads[u].phase.Finishing? && s1.uploads.Keys == s.uploads.Keys
  {}

  lemma DiscardsOne(s: State, u: nat)
    requires Inv(s) && u in s.uploads && s.uploads[u].phase.Finishing?
    ensures s.uploads[u].phase.discardOwn ==> s.uploads[u].phase.replaced.None?
  {}

  /** An upload whose name is accepted and whose disk delete succeeds leaves no file
      without a row: whatever its transaction did, it erases its own file unless a row
      took it, and the file it replaced. */
  lemma UploadConserves(s: State, q: Request, fails: bool)
    requires Inv(s) && s.uploads == map[] && (forall k :: k in s.disk ==> HasRow(s.objects, k))
    requires !NameRejected(q) && q.kind != Attachment
    ensures var s' := UploadRun(s, q, fails, true); s'.uploads == map[] && forall k :: k in s'.disk ==> HasRow(s'.objects, k)
  {
    NothingInFlight(s);
    hide Inv, HasRow, NameRejected;
    UploadAccounts(s, q, fails);
    UploadEnds(s, q, fails, true);
    var s' := UploadRun(s, q, fails, true);
    hide UploadRun;
    forall k | k in s'.disk ensures HasRow(s'.objects, k) { assert !HasUpload(s'.uploads, k); }
  }

  lemma NothingInFlight(s: State)
    requires s.uploads == map[] && forall k :: k in s.disk ==> HasRow(s.objects, k)
    ensures Accounted(s, {})
  {}

  lemma CommitKeepsOthers(s: State, u: nat)
    requires Inv(s) && u in s.uploads && s.uploads[u].phase.Stored?
    ensures Commit(s, u).uploads.Keys == s.uploads.Keys
  {
    hide Inv, Commit;
    CommitTouches(s, u);
  }

  lemma FinishEnds(s: State, u: nat, eraseOk: bool)
    requires u in s.uploads && s.uploads[u].phase.Finishing? && s.uploads.Keys == {u}
    ensures FinishRun(s, u, eraseOk).uploads == map[]
  {
    FinishShape(s, u, eraseOk);
    hide FinishRun;
    assert (s.uploads - {u}).Keys == {};
  }

  lemma UploadEnds(s: State, q: Request, fails: bool, eraseOk: bool)
    requires Inv(s) && s.uploads == map[]
    ensures UploadRun(s, q, fails, eraseOk).uploads == map[]
  {
    hide Inv, NameRejected, Fails, Commit, Rollback, FinishRun, Put, UploadRun;
    var u, s1 := s.next + 1, Put(s, q);
    PutKeeps(s, q);
    StoredUpload(s, q);
    OnlyUpload(s, q);
    UploadRunUnfolds(s, q, fails, eraseOk);
    if !NameRejected(q) {
      CommitEndsTransaction(s1, u);
      CommitKeepsOthers(s1, u);
      RollbackEnds(s1, u);
      FinishEnds(if Fails(q, fails) then Rollback(s1, u) else Commit(s1, u), u, eraseOk);
    } else {
      assert (s1.uploads - {u}).Keys == {};
    }
  }

  lemma OnlyUpload(s: State, q: Request)
    requires s.uploads == map[]
    ensures Put(s, q).uploads.Keys == {s.next + 1}
  {}

  // ----- how the loop of RunOnce follows the batch --------------------------

  ghost function Rest(s: State, claims: seq<Claim>, i: nat): State
    requires i <= |claims|
  {
    s.(cleaner := if i == |claims| then Idle else Batch(claims[i..], Erasing))
  }

  ghost function Skip(faults: seq<bool>, i: nat): seq<bool> {
    if i < |faults| then faults[i..] else []
  }

  lemma ClaimsOfAppends(objects: map<nat, Object>, ids: seq<nat>, o: nat)
    ensures ClaimsOf(objects, ids + [o]) == ClaimsOf(objects, ids) + [ClaimOf(objects, o)]
  {}

  ghost function Cleaned(s: State, claim: Claim, ok: bool): State {
    if ok then Finalize(Erase(s, claim.key), claim.row).0 else Restore(s, claim)
  }

  /** One round of the loop is an erase step and a settle step of the batch. */
  lemma CleanedIsTwoSteps(s: State, claims: seq<Claim>, i: nat, ok: bool)
    requires i < |claims| && s.cleaner == Idle
    ensures var batch := Rest(s, claims, i);
      Apply(Apply(batch, EraseStep(ok)), SettleStep(true)) == Rest(Cleaned(s, claims[i], ok), claims, i + 1)
  {
    assert claims[i..][0] == claims[i] && claims[i..][1..] == claims[i + 1..];
    if ok {
      var idle := Erase(s, claims[i].key);
      var erased := Apply(Rest(s, claims, i), EraseStep(ok));
      assert HasReference(erased, claims[i].row) == HasReference(idle, claims[i].row);
      assert Restricted(erased, claims[i].row) == Restricted(idle, claims[i].row);
    }
  }

  lemma DrainOne(s: State, claims: seq<Claim>, i: nat, faults: seq<bool>)
    requires i < |claims| && s.cleaner == Idle
    ensures var ok := !(i < |faults| && faults[i]);
      Drain(Rest(s, claims, i), Skip(faults, i)) == Drain(Rest(Cleaned(s, claims[i], ok), claims, i + 1), Skip(faults, i + 1))
  {
    var ok := !(i < |faults| && faults[i]);
    CleanedIsTwoSteps(s, claims, i, ok);
    var tail := Skip(faults, i);
    assert ok == (tail == [] || !tail[0]);
    assert Skip(faults, i + 1) == if tail == [] then [] else tail[1..];
  }
}
