/** Safety of the object directory under every interleaving of uploads,
    revivals, logical deletes, attachment expiry and one cleaner. */
module StorageSafety {
  import opened Common
  import opened Storage

  // ----- the inductive invariant --------------------------------------------

  /** Keys and ids come from one counter, so a new one is never in use. */
  ghost predicate Bounded(s: State) {
    && (forall o :: o in s.objects ==> o < s.next && s.objects[o].key < s.next)
    && (forall k :: k in s.disk ==> k < s.next)
    && (forall r :: r in s.refs ==> r < s.next)
    && (forall u :: u in s.uploads ==> u < s.next && s.uploads[u].key < s.next)
    && (forall u :: u in s.uploads && s.uploads[u].phase.Finishing? && s.uploads[u].phase.replaced.Some? ==>
          s.uploads[u].phase.replaced.value < s.next)
    && (forall c :: c in Claims(s.cleaner) ==> c.row < s.next && c.key < s.next)
  }

  function Claims(cleaner: Cleaner): seq<Claim> {
    if cleaner.Batch? then cleaner.claims else []
  }

  ghost predicate Distinct(objects: map<nat, Object>) {
    forall o, p :: o in objects && p in objects && o != p ==>
      objects[o].key != objects[p].key && objects[o].digest != objects[p].digest
  }

  ghost predicate NoWriting(objects: map<nat, Object>, cleaner: Cleaner) {
    && (forall o :: o in objects ==> objects[o].status != Writing)
    && (forall c :: c in Claims(cleaner) ==> c.previous != Writing)
  }

  ghost predicate ForeignKeys(objects: map<nat, Object>, refs: map<nat, Reference>) {
    forall r :: r in refs ==>
      && (refs[r].kind != Attachment ==> refs[r].file.Some?)
      && (refs[r].file.Some? ==> refs[r].file.value in objects)
  }

  ghost predicate Intact(disk: map<nat, nat>, row: Object) {
    row.key in disk && disk[row.key] == row.digest
  }

  /** Every ready row's file is on disk, with the content of its digest. */
  ghost predicate ReadyIntact(objects: map<nat, Object>, disk: map<nat, nat>) {
    forall o :: o in objects && objects[o].status == Ready ==> Intact(disk, objects[o])
  }

  ghost predicate PointsToReady(objects: map<nat, Object>, ref: Reference) {
    ref.file.Some? && ref.file.value in objects && objects[ref.file.value].status == Ready
  }

  /** Every live reference points to a ready row. */
  ghost predicate LiveReady(objects: map<nat, Object>, refs: map<nat, Reference>, now: int) {
    forall r :: r in refs && Live(refs[r], now) ==> PointsToReady(objects, refs[r])
  }

  /** The upload will still try to erase this file. */
  predicate Dooms(up: Upload, key: nat) {
    up.phase.Finishing? && ((up.phase.discardOwn && up.key == key) || up.phase.replaced == Some(key))
  }

  ghost predicate NoRowHas(objects: map<nat, Object>, key: nat) {
    forall o :: o in objects ==> objects[o].key != key
  }

  /** A file waiting for its transaction is intact, in no row and doomed by no one;
      no upload dooms the file of a row. */
  ghost predicate UploadsSafe(objects: map<nat, Object>, disk: map<nat, nat>, uploads: map<nat, Upload>) {
    && (forall u :: u in uploads && uploads[u].phase.Stored? ==>
          && uploads[u].key in disk && disk[uploads[u].key] == uploads[u].request.digest
          && NoRowHas(objects, uploads[u].key))
    && (forall u, o :: u in uploads && o in objects ==> !Dooms(uploads[u], objects[o].key))
    && (forall u, v :: u in uploads && v in uploads && u != v ==> uploads[u].key != uploads[v].key)
    && (forall u, v :: u in uploads && v in uploads && uploads[u].phase.Stored? ==>
          !Dooms(uploads[v], uploads[u].key))
    && (forall u :: u in uploads && uploads[u].phase.Finishing? && uploads[u].phase.discardOwn ==>
          uploads[u].phase.replaced == None)
  }

  /** What a claim still in the batch guarantees about the row it was taken from. */
  ghost predicate ClaimSafe(objects: map<nat, Object>, disk: map<nat, nat>, uploads: map<nat, Upload>, c: Claim,
                            erased: bool)
  {
    && (forall o :: o in objects && objects[o].key == c.key ==> o == c.row && objects[o].status == Deleting)
    && (c.row in objects && objects[c.row].status == Deleting ==>
          && objects[c.row].key == c.key
          && (c.previous == Ready && !erased ==> Intact(disk, objects[c.row])))
    && (forall u :: u in uploads && uploads[u].phase.Stored? ==> uploads[u].key != c.key)
    && (erased ==> c.key !in disk)
  }

  predicate ErasedAt(cleaner: Cleaner, i: int) {
    i == 0 && cleaner.Batch? && cleaner.stage == Erased
  }

  ghost predicate ClaimsSafe(objects: map<nat, Object>, disk: map<nat, nat>, uploads: map<nat, Upload>,
                             cleaner: Cleaner)
  {
    && (forall i :: 0 <= i < |Claims(cleaner)| ==>
          ClaimSafe(objects, disk, uploads, Claims(cleaner)[i], ErasedAt(cleaner, i)))
    && SeparateClaims(Claims(cleaner))
  }

  predicate SeparateClaims(claims: seq<Claim>) {
    forall i, j :: 0 <= i < j < |claims| ==> claims[i].row != claims[j].row && claims[i].key != claims[j].key
  }

  ghost predicate Inv(s: State) {
    && Bounded(s)
    && Distinct(s.objects)
    && NoWriting(s.objects, s.cleaner)
    && ForeignKeys(s.objects, s.refs)
    && ReadyIntact(s.objects, s.disk)
    && LiveReady(s.objects, s.refs, s.now)
    && UploadsSafe(s.objects, s.disk, s.uploads)
    && ClaimsSafe(s.objects, s.disk, s.uploads, s.cleaner)
  }

  // ----- the upload transactions --------------------------------------------

  /** The three ways `acquire_for_reference` can end for a file just stored. */
  lemma AcquireCases(s: State, key: nat, digest: nat)
    requires Inv(s)
    requires forall o :: o in s.objects ==> s.objects[o].key != key
    ensures var (s1, a) := Acquire(s, key, digest);
      && a.row in s1.objects && s1.objects[a.row].status == Ready && s1.objects[a.row].digest == digest
      && ( // the content is already there and ready: nothing changes
           || (s1 == s && !a.usedNewUpload && a.replaced == None)
           // a dying row is pointed at the new file
           || (a.row in s.objects && s.objects[a.row].status == Deleting && s.objects[a.row].digest == digest
               && s1 == s.(objects := s.objects[a.row := Object(key, digest, Ready, s.now)])
               && a.usedNewUpload && a.replaced == Some(s.objects[a.row].key))
           // the content is new
           || (a.row == s.next && (forall o :: o in s.objects ==> s.objects[o].digest != digest)
               && s1 == s.(next := s.next + 1, objects := s.objects[s.next := Object(key, digest, Ready, s.now)])
               && a.usedNewUpload && a.replaced == None))
  {
    if exists o :: Holds(s.objects, o, digest) {
      var o :| Holds(s.objects, o, digest);
    } else {
      forall o | o in s.objects ensures s.objects[o].digest != digest { assert !Holds(s.objects, o, digest); }
    }
  }

  /** A replay leaves the tables alone: the flags `create_resume` throws away when
      it finds an existing resume were `False` and `None` already. */
  lemma ReplayAcquiresNothing(s: State, q: Request, key: nat)
    requires Inv(s) && q.kind == Resume
    requires forall o :: o in s.objects ==> s.objects[o].key != key
    requires CreateResume(s, q, key).1 == Reused
    ensures CreateResume(s, q, key).0 == s
    ensures var a := Acquire(s, key, q.digest).1; !a.usedNewUpload && a.replaced == None
  {
    var (s1, a) := Acquire(s, key, q.digest);
    AcquireCases(s, key, q.digest);
    var r: nat;
    if exists r :: ByKey(s1, r, q) {
      r :| ByKey(s1, r, q) && s1.objects[s1.refs[r].file.value].digest == q.digest;
    } else {
      r :| ByContent(s1, r, q);
    }
    var o := s.refs[r].file.value;
    assert Live(s.refs[r], s.now);
    assert o in s.objects && s.objects[o].status == Ready && s.objects[o].digest == q.digest;
  }

  lemma TransactionShape(s: State, q: Request, key: nat)
    requires Inv(s)
    requires forall o :: o in s.objects ==> s.objects[o].key != key
    ensures var (s', outcome) := Transaction(s, q, key);
      if outcome.Created? then
        var (s1, a) := Acquire(s, key, q.digest);
        && q.kind != Attachment && outcome == Created(a.usedNewUpload, a.replaced)
        && s' == AddReference(s1, if q.kind == Job then q.(idempotency := None) else q, a.row)
      else s' == s
  {
    if q.kind == Resume && CreateResume(s, q, key).1 == Reused {
      ReplayAcquiresNothing(s, q, key);
    }
  }

  lemma StoredIsFree(s: State, u: nat)
    requires Inv(s) && u in s.uploads && s.uploads[u].phase.Stored?
    ensures NoRowHas(s.objects, s.uploads[u].key) && s.next !in s.objects
  {}

  /** After the acquire, with the upload already told what to erase. */
  function Settled(s: State, s1: State, u: nat, a: Acquired): State
    requires u in s.uploads
  {
    SetUpload(s1, u, s.uploads[u].(phase := Finishing(!a.usedNewUpload, a.replaced)))
  }

  lemma AcquireKeeps(s: State, u: nat)
    requires Inv(s) && u in s.uploads && s.uploads[u].phase.Stored?
    ensures var (s1, a) := Acquire(s, s.uploads[u].key, s.uploads[u].request.digest);
      Inv(Settled(s, s1, u, a)) && a.row in s1.objects && s1.objects[a.row].status == Ready
  {
    hide Inv;
    StoredIsFree(s, u);
    var up := s.uploads[u];
    AcquireCases(s, up.key, up.request.digest);
    var (s1, a) := Acquire(s, up.key, up.request.digest);
    hide Acquire;
    if s1 == s {
      RollbackKeeps(s, u);
    } else {
      PointKeeps(s, u, a.row, s1.next);
    }
  }

  lemma CommitKeeps(s: State, u: nat)
    requires Inv(s) && u in s.uploads && s.uploads[u].phase.Stored?
    ensures Inv(Commit(s, u))
  {
    hide Inv, Acquire, Transaction;
    StoredIsFree(s, u);
    var up := s.uploads[u];
    var outcome := Transaction(s, up.request, up.key).1;
    TransactionShape(s, up.request, up.key);
    if outcome.Created? {
      AcquireKeeps(s, u);
      var (s1, a) := Acquire(s, up.key, up.request.digest);
      ReferenceKeeps(Settled(s, s1, u, a), if up.request.kind == Job then up.request.(idempotency := None) else up.request, a.row);
    } else {
      RollbackKeeps(s, u);
    }
  }

  function Pointed(s: State, u: nat, o: nat, next: nat): State
    requires u in s.uploads
  {
    var up := s.uploads[u];
    var replaced := if o in s.objects then Some(s.objects[o].key) else None;
    s.(next := next,
       objects := s.objects[o := Object(up.key, up.request.digest, Ready, s.now)],
       uploads := s.uploads[u := up.(phase := Finishing(false, replaced))])
  }

  ghost predicate Pointable(s: State, u: nat, o: nat, next: nat) {
    && Inv(s) && u in s.uploads && s.uploads[u].phase.Stored? && next >= s.next
    && ( || (o in s.objects && s.objects[o].status == Deleting && s.objects[o].digest == s.uploads[u].request.digest)
         || (o == s.next < next && forall p :: p in s.objects ==> s.objects[p].digest != s.uploads[u].request.digest))
  }

  lemma PointKeepsUploads(s: State, u: nat, o: nat, next: nat)
    requires Pointable(s, u, o, next)
    ensures var s1 := Pointed(s, u, o, next);
      UploadsSafe(s1.objects, s1.disk, s1.uploads)
  {
    var s1 := Pointed(s, u, o, next);
    forall v, p | v in s1.uploads && p in s1.objects ensures !Dooms(s1.uploads[v], s1.objects[p].key) {
      assert v != u ==> !Dooms(s.uploads[v], s.uploads[u].key);
    }
  }

  lemma PointKeepsClaims(s: State, u: nat, o: nat, next: nat)
    requires Pointable(s, u, o, next)
    ensures var s1 := Pointed(s, u, o, next);
      ClaimsSafe(s1.objects, s1.disk, s1.uploads, s1.cleaner)
  {
    var s1 := Pointed(s, u, o, next);
    forall i | 0 <= i < |Claims(s.cleaner)|
      ensures ClaimSafe(s1.objects, s1.disk, s1.uploads, Claims(s.cleaner)[i], ErasedAt(s.cleaner, i))
    {
      assert ClaimSafe(s.objects, s.disk, s.uploads, Claims(s.cleaner)[i], ErasedAt(s.cleaner, i));
    }
  }

  /** Pointing a dying row, or a new one, at the stored file of upload `u`. */
  lemma PointKeeps(s: State, u: nat, o: nat, next: nat)
    requires Pointable(s, u, o, next)
    ensures Inv(Pointed(s, u, o, next))
  {
    PointKeepsUploads(s, u, o, next);
    PointKeepsClaims(s, u, o, next);
    PointKeepsTables(s, u, o, next);
  }

  lemma PointKeepsTables(s: State, u: nat, o: nat, next: nat)
    requires Pointable(s, u, o, next)
    ensures var s1 := Pointed(s, u, o, next);
      && Bounded(s1) && Distinct(s1.objects) && NoWriting(s1.objects, s1.cleaner)
      && ForeignKeys(s1.objects, s1.refs) && ReadyIntact(s1.objects, s1.disk)
      && LiveReady(s1.objects, s1.refs, s1.now)
  {
    var s1 := Pointed(s, u, o, next);
    forall r | r in s1.refs && Live(s1.refs[r], s1.now) ensures PointsToReady(s1.objects, s1.refs[r]) {
      assert PointsToReady(s.objects, s.refs[r]);
    }
  }

  lemma ReferenceKeeps(s: State, q: Request, o: nat)
    requires Inv(s) && o in s.objects && s.objects[o].status == Ready && q.kind != Attachment
    ensures Inv(AddReference(s, q, o))
  {}

  lemma RollbackKeeps(s: State, u: nat)
    requires Inv(s) && u in s.uploads && s.uploads[u].phase.Stored?
    ensures Inv(Rollback(s, u))
  {
    RollbackUploads(s, u);
    RollbackClaims(s, u);
    hide Distinct, NoWriting, ForeignKeys, ReadyIntact, LiveReady, UploadsSafe, ClaimsSafe;
  }

  lemma RollbackUploads(s: State, u: nat)
    requires Inv(s) && u in s.uploads && s.uploads[u].phase.Stored?
    ensures UploadsSafe(s.objects, s.disk, Rollback(s, u).uploads)
  {
    hide Bounded, Distinct, NoWriting, ForeignKeys, ReadyIntact, LiveReady, ClaimsSafe;
  }

  lemma RollbackClaims(s: State, u: nat)
    requires Inv(s) && u in s.uploads && s.uploads[u].phase.Stored?
    ensures ClaimsSafe(s.objects, s.disk, Rollback(s, u).uploads, s.cleaner)
  {
    hide Bounded, Distinct, NoWriting, ForeignKeys, ReadyIntact, LiveReady, UploadsSafe;
    var uploads := Rollback(s, u).uploads;
    forall i | 0 <= i < |Claims(s.cleaner)|
      ensures ClaimSafe(s.objects, s.disk, uploads, Claims(s.cleaner)[i], ErasedAt(s.cleaner, i))
    {
      assert ClaimSafe(s.objects, s.disk, s.uploads, Claims(s.cleaner)[i], ErasedAt(s.cleaner, i));
    }
  }

  // ----- the other upload steps ---------------------------------------------

  lemma PutKeeps(s: State, q: Request)
    requires Inv(s)
    ensures Inv(Put(s, q))
  {
    PutKeepsUploads(s, q);
    PutKeepsClaims(s, q);
    var s1 := Put(s, q);
    forall o | o in s1.objects && s1.objects[o].status == Ready ensures Intact(s1.disk, s1.objects[o]) {
      assert Intact(s.disk, s.objects[o]);
    }
  }

  lemma PutKeepsUploads(s: State, q: Request)
    requires Inv(s)
    ensures var s1 := Put(s, q); UploadsSafe(s1.objects, s1.disk, s1.uploads)
  {
    hide Distinct, NoWriting, ForeignKeys, ReadyIntact, LiveReady, UploadsSafe, ClaimsSafe;
    AddStored(s.objects, s.disk, s.uploads, s.next + 1, s.next, q);
  }

  lemma AddStored(objects: map<nat, Object>, disk: map<nat, nat>, uploads: map<nat, Upload>, u: nat, key: nat, q: Request)
    requires UploadsSafe(objects, disk, uploads)
    requires u !in uploads && key !in disk && NoRowHas(objects, key)
    requires forall v :: v in uploads ==> uploads[v].key != key && !Dooms(uploads[v], key)
    ensures UploadsSafe(objects, disk[key := q.digest], uploads[u := Upload(q, key, Stored)])
  {}

  lemma PutKeepsClaims(s: State, q: Request)
    requires Inv(s)
    ensures var s1 := Put(s, q); ClaimsSafe(s1.objects, s1.disk, s1.uploads, s1.cleaner)
  {
    hide Distinct, NoWriting, ForeignKeys, ReadyIntact, LiveReady, UploadsSafe;
    var s1 := Put(s, q);
    forall i | 0 <= i < |Claims(s.cleaner)|
      ensures ClaimSafe(s1.objects, s1.disk, s1.uploads, Claims(s.cleaner)[i], ErasedAt(s.cleaner, i))
    {
      assert Claims(s.cleaner)[i] in Claims(s.cleaner);
      assert ClaimSafe(s.objects, s.disk, s.uploads, Claims(s.cleaner)[i], ErasedAt(s.cleaner, i));
    }
  }

  /** Erasing a doomed file touches no row, no stored file and no pending claim. */
  lemma EraseDoomedKeeps(s: State, u: nat, key: nat)
    requires Inv(s) && u in s.uploads && Dooms(s.uploads[u], key)
    ensures Inv(Erase(s, key))
  {
    assert NoRowHas(s.objects, key);
    var s1 := Erase(s, key);
    forall o | o in s1.objects && s1.objects[o].status == Ready ensures Intact(s1.disk, s1.objects[o]) {
      assert Intact(s.disk, s.objects[o]);
    }
    forall i | 0 <= i < |Claims(s.cleaner)|
      ensures ClaimSafe(s1.objects, s1.disk, s1.uploads, Claims(s.cleaner)[i], ErasedAt(s.cleaner, i))
    {
      assert ClaimSafe(s.objects, s.disk, s.uploads, Claims(s.cleaner)[i], ErasedAt(s.cleaner, i));
    }
  }

  lemma DiscardedKeeps(s: State, u: nat)
    requires Inv(s) && u in s.uploads && s.uploads[u].phase.Finishing?
    ensures Inv(SetUpload(s, u, s.uploads[u].(phase := Finishing(false, s.uploads[u].phase.replaced))))
  {
    var s1 := SetUpload(s, u, s.uploads[u].(phase := Finishing(false, s.uploads[u].phase.replaced)));
    forall v, k: nat | v in s1.uploads && Dooms(s1.uploads[v], k) ensures Dooms(s.uploads[v], k) {}
    forall i | 0 <= i < |Claims(s.cleaner)|
      ensures ClaimSafe(s1.objects, s1.disk, s1.uploads, Claims(s.cleaner)[i], ErasedAt(s.cleaner, i))
    {
      assert ClaimSafe(s.objects, s.disk, s.uploads, Claims(s.cleaner)[i], ErasedAt(s.cleaner, i));
    }
  }

  lemma EndUploadKeeps(s: State, u: nat)
    requires Inv(s)
    ensures Inv(EndUpload(s, u))
  {
    var s1 := EndUpload(s, u);
    forall i | 0 <= i < |Claims(s.cleaner)|
      ensures ClaimSafe(s1.objects, s1.disk, s1.uploads, Claims(s.cleaner)[i], ErasedAt(s.cleaner, i))
    {
      assert ClaimSafe(s.objects, s.disk, s.uploads, Claims(s.cleaner)[i], ErasedAt(s.cleaner, i));
    }
  }

  lemma DiscardKeeps(s: State, u: nat, ok: bool)
    requires Inv(s) && Enabled(s, DiscardStep(u, ok))
    ensures Inv(DiscardOwn(s, u, ok))
  {
    if ok {
      EraseDoomedKeeps(s, u, s.uploads[u].key);
      DiscardedKeeps(Erase(s, s.uploads[u].key), u);
    } else {
      EndUploadKeeps(s, u);
    }
  }

  lemma DropKeeps(s: State, u: nat, ok: bool)
    requires Inv(s) && Enabled(s, DropStep(u, ok))
    ensures Inv(DropReplaced(s, u, ok))
  {
    if ok {
      EraseDoomedKeeps(s, u, s.uploads[u].phase.replaced.value);
      EndUploadKeeps(Erase(s, s.uploads[u].phase.replaced.value), u);
    } else {
      EndUploadKeeps(s, u);
    }
  }

  // ----- references and the clock -------------------------------------------

  lemma ReferencesKeep(s: State, step: Step)
    requires Inv(s) && Enabled(s, step)
    requires step.Tick? || step.DeleteReference? || step.Attach?
    ensures Inv(Apply(s, step))
  {
    hide Distinct, NoWriting, ReadyIntact, UploadsSafe, ClaimsSafe;
    var s1 := Apply(s, step);
    forall r | r in s1.refs && Live(s1.refs[r], s1.now) ensures PointsToReady(s1.objects, s1.refs[r]) {
      if r in s.refs {
        assert Live(s.refs[r], s.now);
        assert PointsToReady(s.objects, s.refs[r]);
      }
    }
  }

  // ----- the cleaner --------------------------------------------------------

  lemma SelectedIds(s: State, limit: nat)
    ensures var ids := Selected(s, limit);
      && (forall o :: o in ids ==> Expired(s, o))
      && (forall i, j :: 0 <= i < j < |ids| ==> ids[i] != ids[j])
  {
    hide Expired, Before;
    AgesDiffer(s);
    LimitKeepsTheBest(ExpiredSet(s), Age(s), limit);
    assert forall o :: o in Selected(s, limit) ==> o in ExpiredSet(s);
  }

  /** What the claim query returns: distinct unreferenced rows, with their claims. */
  lemma SelectedRows(s: State, limit: nat)
    ensures var ids := Selected(s, limit); var claims := ClaimExpired(s, limit).1;
      && (forall o :: o in ids ==> Expired(s, o))
      && (forall i, j :: 0 <= i < j < |ids| ==> ids[i] != ids[j])
      && |claims| == |ids|
      && (forall i :: 0 <= i < |ids| ==> claims[i] == ClaimOf(s.objects, ids[i]) && claims[i].row in ids)
  {
    hide Selected, Expired;
    SelectedIds(s, limit);
  }

  lemma ClaimKeeps(s: State, limit: nat)
    requires Inv(s) && Enabled(s, ClaimStep(limit))
    ensures Inv(Apply(s, ClaimStep(limit)))
  {
    SelectedRows(s, limit);
    var ids := Selected(s, limit);
    var (s1, claims) := ClaimExpired(s, limit);
    MarkKeeps(s, ids);
    forall i | 0 <= i < |claims|
      ensures ClaimSafe(s1.objects, s1.disk, s1.uploads, claims[i], false)
      ensures claims[i].previous != Writing && claims[i].row < s1.next && claims[i].key < s1.next
    {
      assert Expired(s, ids[i]);
      FreshClaimSafe(s, ids, ids[i]);
    }
    assert SeparateClaims(claims) by {
      forall i, j | 0 <= i < j < |claims|
        ensures claims[i].row != claims[j].row && claims[i].key != claims[j].key
      {
        assert Expired(s, ids[i]) && Expired(s, ids[j]);
      }
    }
    StartBatchKeeps(s1, claims);
  }

  lemma StartBatchKeeps(s: State, claims: seq<Claim>)
    requires Inv(s) && SeparateClaims(claims)
    requires forall i :: 0 <= i < |claims| ==>
      && ClaimSafe(s.objects, s.disk, s.uploads, claims[i], false)
      && claims[i].previous != Writing && claims[i].row < s.next && claims[i].key < s.next
    ensures Inv(s.(cleaner := if claims == [] then Idle else Batch(claims, Erasing)))
  {}

  lemma MarkKeeps(s: State, ids: seq<nat>)
    requires Inv(s) && s.cleaner == Idle && forall o :: o in ids ==> Expired(s, o)
    ensures Inv(s.(objects := MarkAll(s.objects, ids, s.now)))
  {
    MarkKeepsLive(s, ids);
    MarkKeepsUploads(s, ids);
    hide Expired, LiveReady, UploadsSafe;
  }

  lemma MarkKeepsLive(s: State, ids: seq<nat>)
    requires Inv(s) && forall o :: o in ids ==> Expired(s, o)
    ensures LiveReady(MarkAll(s.objects, ids, s.now), s.refs, s.now)
  {
    hide Bounded, Distinct, NoWriting, ForeignKeys, ReadyIntact, UploadsSafe, ClaimsSafe;
    forall r | r in s.refs && Live(s.refs[r], s.now)
      ensures PointsToReady(MarkAll(s.objects, ids, s.now), s.refs[r])
    {
      assert PointsToReady(s.objects, s.refs[r]);
      var o := s.refs[r].file.value;
      assert o in ids ==> Expired(s, o);
    }
  }

  lemma MarkKeepsUploads(s: State, ids: seq<nat>)
    requires Inv(s)
    ensures UploadsSafe(MarkAll(s.objects, ids, s.now), s.disk, s.uploads)
  {
    hide Bounded, Distinct, NoWriting, ForeignKeys, ReadyIntact, LiveReady, ClaimsSafe;
    var objects := MarkAll(s.objects, ids, s.now);
    assert forall o :: o in objects ==> o in s.objects && objects[o].key == s.objects[o].key;
  }

  lemma FreshClaimSafe(s: State, ids: seq<nat>, o: nat)
    requires Inv(s) && s.cleaner == Idle && o in ids && o in s.objects
    ensures ClaimSafe(MarkAll(s.objects, ids, s.now), s.disk, s.uploads, ClaimOf(s.objects, o), false)
  {
    var objects := MarkAll(s.objects, ids, s.now);
    var c := ClaimOf(s.objects, o);
    forall p | p in objects && objects[p].key == c.key ensures p == c.row && objects[p].status == Deleting {
      assert objects[p].key == s.objects[p].key;
    }
    assert c.previous == Ready ==> Intact(s.disk, s.objects[o]);
  }

  lemma EraseClaims(s: State, ok: bool)
    requires Inv(s) && Enabled(s, EraseStep(ok))
    ensures var s1 := Apply(s, EraseStep(ok)); ClaimsSafe(s1.objects, s1.disk, s1.uploads, s1.cleaner)
  {
    hide LiveReady, ForeignKeys, UploadsSafe, Bounded;
    var s1 := Apply(s, EraseStep(ok));
    var claims := s.cleaner.claims;
    assert ClaimSafe(s.objects, s.disk, s.uploads, claims[0], false);
    forall i | 0 <= i < |claims|
      ensures ClaimSafe(s1.objects, s1.disk, s1.uploads, claims[i], ErasedAt(s1.cleaner, i))
    {
      assert ClaimSafe(s.objects, s.disk, s.uploads, claims[i], ErasedAt(s.cleaner, i));
    }
  }

  lemma EraseTables(s: State, ok: bool)
    requires Inv(s) && Enabled(s, EraseStep(ok))
    ensures var s1 := Apply(s, EraseStep(ok));
      && (forall k :: k in s1.disk ==> k in s.disk) && Claims(s1.cleaner) == Claims(s.cleaner)
      && ReadyIntact(s1.objects, s1.disk) && UploadsSafe(s1.objects, s1.disk, s1.uploads)
  {
    hide Bounded, Distinct, NoWriting, ForeignKeys, LiveReady;
    assert ClaimSafe(s.objects, s.disk, s.uploads, s.cleaner.claims[0], false);
  }

  lemma EraseKeeps(s: State, ok: bool)
    requires Inv(s) && Enabled(s, EraseStep(ok))
    ensures Inv(Apply(s, EraseStep(ok)))
  {
    EraseClaims(s, ok);
    EraseTables(s, ok);
    hide ReadyIntact, LiveReady, ForeignKeys, UploadsSafe, ClaimsSafe;
  }

  lemma AdvanceKeeps(s: State)
    requires Inv(s) && s.cleaner.Batch? && s.cleaner.claims != []
    ensures Inv(Advance(s))
  {
    var claims := s.cleaner.claims;
    var s1 := Advance(s);
    assert forall i :: 0 <= i < |Claims(s1.cleaner)| ==> Claims(s1.cleaner)[i] == claims[i + 1];
    assert forall c :: c in Claims(s1.cleaner) ==> c in claims;
    forall i | 0 <= i < |Claims(s1.cleaner)|
      ensures ClaimSafe(s1.objects, s1.disk, s1.uploads, Claims(s1.cleaner)[i], ErasedAt(s1.cleaner, i))
    {
      assert ClaimSafe(s.objects, s.disk, s.uploads, claims[i + 1], false);
    }
  }

  lemma FinalizeKeeps(s: State, o: nat)
    requires Inv(s)
    ensures Inv(Finalize(s, o).0)
  {
    var (s1, result) := Finalize(s, o);
    if result == Removed {
      forall r | r in s1.refs && Live(s1.refs[r], s1.now) ensures PointsToReady(s1.objects, s1.refs[r]) {
        assert Live(s.refs[r], s.now);
        assert PointsToReady(s.objects, s.refs[r]);
      }
      forall i | 0 <= i < |Claims(s.cleaner)|
        ensures ClaimSafe(s1.objects, s1.disk, s1.uploads, Claims(s.cleaner)[i], ErasedAt(s.cleaner, i))
      {
        assert ClaimSafe(s.objects, s.disk, s.uploads, Claims(s.cleaner)[i], ErasedAt(s.cleaner, i));
      }
    }
  }

  /** A failed erase gives the row back in its pre-claim status, file included. */
  lemma RestoreKeeps(s: State)
    requires Inv(s) && s.cleaner.Batch? && s.cleaner.claims != [] && s.cleaner.stage == EraseFailed
    ensures Inv(Advance(Restore(s, s.cleaner.claims[0])))
  {
    AdvanceKeeps(s);
    var c := s.cleaner.claims[0];
    var s1 := Advance(s);
    assert Restore(s1, c) == Advance(Restore(s, c));
    assert c.previous != Writing;
    assert ClaimSafe(s.objects, s.disk, s.uploads, c, false);
    RestoreRowKeeps(s1, c);
  }

  ghost predicate Restorable(s: State, c: Claim) {
    && Inv(s) && c.previous != Writing
    && ClaimSafe(s.objects, s.disk, s.uploads, c, false)
    && forall d :: d in Claims(s.cleaner) ==> d.row != c.row && d.key != c.key
  }

  lemma RestoreRowKeeps(s: State, c: Claim)
    requires Restorable(s, c)
    ensures Inv(Restore(s, c))
  {
    RestoreKeepsOperations(s, c);
    RestoreKeepsLive(s, c);
    RestoreKeepsFiles(s, c);
    hide ReadyIntact, LiveReady, UploadsSafe, ClaimsSafe;
  }

  lemma RestoreKeepsFiles(s: State, c: Claim)
    requires Restorable(s, c)
    ensures var s1 := Restore(s, c); ReadyIntact(s1.objects, s1.disk)
  {
    hide Bounded, Distinct, NoWriting, ForeignKeys, LiveReady, UploadsSafe, ClaimsSafe;
  }

  lemma RestoreKeepsLive(s: State, c: Claim)
    requires Restorable(s, c)
    ensures var s1 := Restore(s, c); LiveReady(s1.objects, s1.refs, s1.now)
  {
    hide Bounded, Distinct, NoWriting, ForeignKeys, ReadyIntact, UploadsSafe, ClaimsSafe;
    var s1 := Restore(s, c);
    forall r | r in s1.refs && Live(s1.refs[r], s1.now) ensures PointsToReady(s1.objects, s1.refs[r]) {
      assert PointsToReady(s.objects, s.refs[r]);
    }
  }

  lemma RestoreKeepsOperations(s: State, c: Claim)
    requires Restorable(s, c)
    ensures var s1 := Restore(s, c);
      UploadsSafe(s1.objects, s1.disk, s1.uploads) && ClaimsSafe(s1.objects, s1.disk, s1.uploads, s1.cleaner)
  {
    hide Bounded, Distinct, NoWriting, ForeignKeys, ReadyIntact, LiveReady;
    var s1 := Restore(s, c);
    assert forall o :: o in s1.objects ==> o in s.objects && s1.objects[o].key == s.objects[o].key;
    RestoreKeepsClaims(s, c);
  }

  lemma RestoreKeepsClaims(s: State, c: Claim)
    requires Restorable(s, c)
    ensures var s1 := Restore(s, c); ClaimsSafe(s1.objects, s1.disk, s1.uploads, s1.cleaner)
  {
    hide Bounded, Distinct, NoWriting, ForeignKeys, ReadyIntact, LiveReady, UploadsSafe;
    var s1 := Restore(s, c);
    forall i | 0 <= i < |Claims(s.cleaner)|
      ensures ClaimSafe(s1.objects, s1.disk, s1.uploads, Claims(s.cleaner)[i], ErasedAt(s.cleaner, i))
    {
      assert Claims(s.cleaner)[i] in Claims(s.cleaner);
      assert ClaimSafe(s.objects, s.disk, s.uploads, Claims(s.cleaner)[i], ErasedAt(s.cleaner, i));
    }
  }

  lemma StopKeeps(s: State)
    requires Inv(s)
    ensures Inv(s.(cleaner := Idle))
  {}

  lemma SettleKeeps(s: State, ok: bool)
    requires Inv(s) && Enabled(s, SettleStep(ok))
    ensures Inv(Settle(s, ok))
  {
    if s.cleaner.stage == EraseFailed {
      if ok { RestoreKeeps(s); } else { StopKeeps(s); }
    } else {
      FinalizeKeeps(s, s.cleaner.claims[0].row);
      AdvanceKeeps(if ok then Finalize(s, s.cleaner.claims[0].row).0 else s);
    }
  }

  // ----- the main theorem ---------------------------------------------------

  lemma StepKeeps(s: State, step: Step)
    requires Inv(s) && Enabled(s, step)
    ensures Inv(Apply(s, step))
  {
    match step
    case Tick(_) => ReferencesKeep(s, step);
    case Store(q) => PutKeeps(s, q);
    case CommitStep(u) => CommitKeeps(s, u);
    case RollbackStep(u) => RollbackKeeps(s, u);
    case RejectStep(u) => EndUploadKeeps(s, u);
    case DiscardStep(u, ok) => DiscardKeeps(s, u, ok);
    case DropStep(u, ok) => DropKeeps(s, u, ok);
    case ReturnStep(u) => EndUploadKeeps(s, u);
    case CrashUpload(u) => EndUploadKeeps(s, u);
    case DeleteReference(r) => ReferencesKeep(s, step);
    case Attach(r) => ReferencesKeep(s, step);
    case ClaimStep(limit) => ClaimKeeps(s, limit);
    case EraseStep(ok) => EraseKeeps(s, ok);
    case SettleStep(ok) => SettleKeeps(s, ok);
    case CrashCleaner => StopKeeps(s);
  }

  lemma Taken(states: seq<State>, steps: seq<Step>, i: nat)
    requires Run(states, steps) && i + 1 < |states|
    ensures Enabled(states[i], steps[i]) && states[i + 1] == Apply(states[i], steps[i])
  {
    hide Enabled, Apply;
  }

  lemma {:induction false} RunKeeps(states: seq<State>, steps: seq<Step>, n: nat)
    requires Run(states, steps) && n < |states|
    ensures Inv(states[n])
  {
    if n > 0 {
      hide Run, Inv, Apply, Enabled;
      RunKeeps(states, steps, n - 1);
      Taken(states, steps, n - 1);
      StepKeeps(states[n - 1], steps[n - 1]);
    }
  }

  /** Storage safety: at every point of every run, each ready row's file is on disk
      with the row's content, and each undeleted resume, document or job and each
      unexpired attachment points to such a row. */
  lemma StorageIsSafe(states: seq<State>, steps: seq<Step>, n: nat)
    requires Run(states, steps) && n < |states|
    ensures var s := states[n];
      && (forall o :: o in s.objects && s.objects[o].status == Ready ==>
            s.objects[o].key in s.disk && s.disk[s.objects[o].key] == s.objects[o].digest)
      && (forall r :: r in s.refs && Live(s.refs[r], s.now) ==>
            && s.refs[r].file.Some? && s.refs[r].file.value in s.objects
            && s.objects[s.refs[r].file.value].status == Ready
            && s.objects[s.refs[r].file.value].key in s.disk)
  {
    RunKeeps(states, steps, n);
    var s := states[n];
    forall r | r in s.refs && Live(s.refs[r], s.now) ensures PointsToReady(s.objects, s.refs[r]) {}
  }
}
