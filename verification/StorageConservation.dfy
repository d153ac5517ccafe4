/** Where the files on disk come from: conservation over runs without crashes or
    failed disk operations, and what the cleaner can and cannot remove. */
module StorageConservation {
  import opened Common
  import opened UploadName
  import opened Storage
  import opened StorageSafety

  ghost predicate HasRow(objects: map<nat, Object>, key: nat) {
    exists o :: o in objects && objects[o].key == key
  }

  ghost predicate HasUpload(uploads: map<nat, Upload>, key: nat) {
    exists u :: u in uploads && Carries(uploads[u], key)
  }

  predicate Carries(up: Upload, key: nat) {
    (up.phase.Stored? && up.key == key) || Dooms(up, key)
  }

  /** Every file belongs to a row, to an upload that will still erase or commit it, or
      was left by a rejected name; the files of rejected names in flight are among
      those. */
  ghost predicate Accounted(s: State, left: set<nat>) {
    && (forall k :: k in s.disk ==> k in left || HasRow(s.objects, k) || HasUpload(s.uploads, k))
    && (forall u :: u in s.uploads && NameRejected(s.uploads[u].request) ==> s.uploads[u].key in left)
  }

  /** No crash, and every disk delete succeeds. Database failures are allowed, and so
      are rejected names. */
  predicate Faultless(step: Step) {
    match step
    case DiscardStep(_, ok) => ok
    case DropStep(_, ok) => ok
    case EraseStep(ok) => ok
    case CrashUpload(_) => false
    case CrashCleaner => false
    case _ => true
  }

  /** The upload of a resume whose name will be rejected after the file is written. */
  predicate Doomed(step: Step) {
    step.Store? && NameRejected(step.request)
  }

  function LeftBy(s: State, step: Step): set<nat> {
    if Doomed(step) then {s.next} else {}
  }

  /** The keys written before step `n` for resumes whose name is rejected. */
  ghost function Left(states: seq<State>, steps: seq<Step>, n: nat): set<nat>
    requires n <= |steps| <= |states|
  {
    if n == 0 then {} else Left(states, steps, n - 1) + LeftBy(states[n - 1], steps[n - 1])
  }

  /** What a transaction can do to files: rows move to the upload's own key only, and
      the key of such a row is handed back to be erased. */
  lemma CommitTouches(s: State, u: nat)
    requires Inv(s) && u in s.uploads && s.uploads[u].phase.Stored?
    ensures var s1 := Commit(s, u); var key := s.uploads[u].key; var phase := s1.uploads[u].phase;
      && s1.next >= s.next && s1.disk == s.disk && s1.cleaner == s.cleaner
      && s1.uploads == s.uploads[u := s.uploads[u].(phase := phase)] && phase.Finishing?
      && (phase.discardOwn || HasRow(s1.objects, key))
      && (forall k :: phase.replaced == Some(k) ==> HasRow(s.objects, k))
      && (forall o :: o in s1.objects ==> s1.objects[o].key == key || (o in s.objects && s1.objects[o].key == s.objects[o].key))
      && (forall o :: o in s.objects ==>
            o in s1.objects && (s1.objects[o].key == s.objects[o].key || phase.replaced == Some(s.objects[o].key)))
  {
    StoredIsFree(s, u);
    assert forall o :: o in s.objects ==> o < s.next;
    hide Inv, Transaction;
    var up := s.uploads[u];
    TransactionShape(s, up.request, up.key);
    AcquireCases(s, up.key, up.request.digest);
    var outcome := Transaction(s, up.request, up.key).1;
    if outcome.Created? && outcome.usedNewUpload {
      var a := Acquire(s, up.key, up.request.digest).1;
      assert a.row in Commit(s, u).objects && Commit(s, u).objects[a.row].key == up.key;
    }
    hide Acquire;
  }

  lemma CommitAccounts(s: State, left: set<nat>, u: nat)
    requires Inv(s) && Accounted(s, left) && Enabled(s, CommitStep(u))
    ensures Accounted(Commit(s, u), left)
  {
    hide Inv, Commit, NameRejected, NameFits;
    CommitTouches(s, u);
    var s1 := Commit(s, u);
    forall k | k in s1.disk && k !in left ensures HasRow(s1.objects, k) || HasUpload(s1.uploads, k) {
      if HasRow(s.objects, k) {
        var o :| o in s.objects && s.objects[o].key == k;
        assert s1.objects[o].key == k || Carries(s1.uploads[u], k);
      } else {
        var v :| v in s.uploads && Carries(s.uploads[v], k);
        assert v != u ==> Carries(s1.uploads[v], k);
        assert v == u ==> HasRow(s1.objects, k) || Carries(s1.uploads[u], k);
      }
    }
  }

  /** Steps that only drop files, or only change uploads that carry nothing. */
  lemma FilesOnlyDropped(s: State, left: set<nat>, s1: State)
    requires Accounted(s, left)
    requires forall k :: k in s1.disk ==> k in s.disk
    requires forall k :: k in s1.disk && HasRow(s.objects, k) ==> HasRow(s1.objects, k)
    requires forall k, u :: k in s1.disk && k !in left && u in s.uploads && Carries(s.uploads[u], k) ==>
      u in s1.uploads && Carries(s1.uploads[u], k)
    requires forall u :: u in s1.uploads ==>
      u in s.uploads && s1.uploads[u].request == s.uploads[u].request && s1.uploads[u].key == s.uploads[u].key
    ensures Accounted(s1, left)
  {
    forall k | k in s1.disk && k !in left ensures HasRow(s1.objects, k) || HasUpload(s1.uploads, k) {
      if !HasRow(s.objects, k) {
        var u :| u in s.uploads && Carries(s.uploads[u], k);
      }
    }
  }

  lemma RowsKeepKeys(s: State, s1: State)
    requires forall o :: o in s.objects ==> o in s1.objects && s1.objects[o].key == s.objects[o].key
    ensures forall k :: HasRow(s.objects, k) ==> HasRow(s1.objects, k)
  {
    forall k | HasRow(s.objects, k) ensures HasRow(s1.objects, k) {
      var o :| o in s.objects && s.objects[o].key == k;
      assert s1.objects[o].key == k;
    }
  }

  lemma SettleAccounts(s: State, left: set<nat>, ok: bool)
    requires Inv(s) && Accounted(s, left) && Enabled(s, SettleStep(ok))
    ensures Accounted(Settle(s, ok), left)
  {
    hide NameRejected, Bounded, Distinct, NoWriting, ForeignKeys, ReadyIntact, LiveReady, UploadsSafe, HasReference, Restricted;
    var c := s.cleaner.claims[0];
    var s1 := Settle(s, ok);
    assert ClaimSafe(s.objects, s.disk, s.uploads, Claims(s.cleaner)[0], ErasedAt(s.cleaner, 0));
    forall k | k in s1.disk && HasRow(s.objects, k) ensures HasRow(s1.objects, k) {
      var o :| o in s.objects && s.objects[o].key == k;
      assert o in s1.objects && s1.objects[o].key == k;
    }
    FilesOnlyDropped(s, left, s1);
  }

  lemma StoreAccounts(s: State, left: set<nat>, q: Request)
    requires Inv(s) && Accounted(s, left)
    ensures Accounted(Put(s, q), left + LeftBy(s, Store(q)))
  {
    var s1 := Put(s, q);
    forall k | k in s1.disk && k !in left ensures HasRow(s1.objects, k) || HasUpload(s1.uploads, k) {
      if k == s.next {
        assert Carries(s1.uploads[s.next + 1], k);
      } else if !HasRow(s.objects, k) {
        var u :| u in s.uploads && Carries(s.uploads[u], k);
        assert Carries(s1.uploads[u], k);
      }
    }
  }

  lemma DiscardAccounts(s: State, left: set<nat>, u: nat)
    requires Accounted(s, left) && Enabled(s, DiscardStep(u, true))
    ensures Accounted(DiscardOwn(s, u, true), left)
  {
    FilesOnlyDropped(s, left, DiscardOwn(s, u, true));
  }

  lemma DropAccounts(s: State, left: set<nat>, u: nat)
    requires Accounted(s, left) && Enabled(s, DropStep(u, true))
    ensures Accounted(DropReplaced(s, u, true), left)
  {
    FilesOnlyDropped(s, left, DropReplaced(s, u, true));
  }

  /** The name is rejected: nothing carries the file any more, and it is among those left. */
  lemma RejectAccounts(s: State, left: set<nat>, u: nat)
    requires Inv(s) && Accounted(s, left) && Enabled(s, RejectStep(u))
    ensures Accounted(EndUpload(s, u), left)
  {
    FilesOnlyDropped(s, left, EndUpload(s, u));
  }

  lemma OtherAccounts(s: State, left: set<nat>, step: Step)
    requires Inv(s) && Accounted(s, left) && Enabled(s, step) && Faultless(step)
    requires step.Tick? || step.RollbackStep? || step.ReturnStep? || step.DeleteReference? || step.Attach? || step.EraseStep?
    ensures Accounted(Apply(s, step), left)
  {
    hide Inv, NameRejected, HasRow;
    FilesOnlyDropped(s, left, Apply(s, step));
  }

  lemma ClaimAccounts(s: State, left: set<nat>, limit: nat)
    requires Inv(s) && Accounted(s, left) && Enabled(s, ClaimStep(limit))
    ensures Accounted(Apply(s, ClaimStep(limit)), left)
  {
    MarkAllKeepsKeys(s, limit);
    RowsKeepKeys(s, Apply(s, ClaimStep(limit)));
    hide Inv, NameRejected, HasRow, Carries;
    FilesOnlyDropped(s, left, Apply(s, ClaimStep(limit)));
  }

  lemma StepAccounts(s: State, left: set<nat>, step: Step)
    requires Inv(s) && Accounted(s, left) && Enabled(s, step) && Faultless(step)
    ensures Accounted(Apply(s, step), left + LeftBy(s, step))
  {
    if step.Store? {
      hide Accounted, Inv, Put, NameRejected;
      StoreAccounts(s, left, step.request);
    } else {
      assert left + LeftBy(s, step) == left;
      hide Accounted, Inv, NameRejected, Commit, Settle, DiscardOwn, DropReplaced, EndUpload, Rollback;
      match step
      case CommitStep(u) => CommitAccounts(s, left, u);
      case SettleStep(ok) => SettleAccounts(s, left, ok);
      case DiscardStep(u, _) => DiscardAccounts(s, left, u);
      case DropStep(u, _) => DropAccounts(s, left, u);
      case RejectStep(u) => RejectAccounts(s, left, u);
      case ClaimStep(limit) => ClaimAccounts(s, left, limit);
      case _ => OtherAccounts(s, left, step);
    }
  }

  lemma MarkAllKeepsKeys(s: State, limit: nat)
    requires Enabled(s, ClaimStep(limit))
    ensures var s1 := Apply(s, ClaimStep(limit));
      forall o :: o in s.objects ==> o in s1.objects && s1.objects[o].key == s.objects[o].key
  {}

  lemma {:induction false} RunAccounts(states: seq<State>, steps: seq<Step>, n: nat)
    requires Run(states, steps) && n < |states|
    requires forall i :: 0 <= i < n ==> Faultless(steps[i])
    ensures Accounted(states[n], Left(states, steps, n))
  {
    if n > 0 {
      hide Run, Inv, Accounted, Faultless, Apply, Enabled;
      RunAccounts(states, steps, n - 1);
      RunKeeps(states, steps, n - 1);
      Taken(states, steps, n - 1);
      StepAccounts(states[n - 1], Left(states, steps, n - 1), steps[n - 1]);
    }
  }

  // ----- the files of rejected names ----------------------------------------

  /** The file is on disk, no row has it, and nothing in flight will ever erase it or
      give it a row. */
  ghost predicate Abandoned(s: State, k: nat) {
    && k < s.next && k in s.disk && NoRowHas(s.objects, k)
    && (forall u :: u in s.uploads ==> !Dooms(s.uploads[u], k))
    && (forall u :: u in s.uploads && s.uploads[u].key == k ==> NameRejected(s.uploads[u].request) && s.uploads[u].phase.Stored?)
    && (forall c :: c in Claims(s.cleaner) ==> c.key != k)
  }

  lemma CommitAbandons(s: State, k: nat, u: nat)
    requires Inv(s) && Abandoned(s, k) && Enabled(s, CommitStep(u))
    ensures Abandoned(Commit(s, u), k)
  {
    hide Inv, Commit;
    CommitTouches(s, u);
  }

  lemma ClaimedKeys(s: State, limit: nat, c: Claim)
    requires c in ClaimExpired(s, limit).1
    ensures HasRow(s.objects, c.key)
  {
    hide Selected, HasReference, MarkAll;
    SelectedRows(s, limit);
    var ids := Selected(s, limit);
    var i :| 0 <= i < |ids| && c == ClaimOf(s.objects, ids[i]);
    assert Expired(s, ids[i]) && s.objects[ids[i]].key == c.key;
  }

  lemma ClaimAbandons(s: State, k: nat, limit: nat)
    requires Abandoned(s, k) && Enabled(s, ClaimStep(limit))
    ensures Abandoned(Apply(s, ClaimStep(limit)), k)
  {
    hide Selected, NameRejected, ClaimsOf, NameFits;
    forall c | c in ClaimExpired(s, limit).1 ensures c.key != k {
      ClaimedKeys(s, limit, c);
    }
  }

  /** No step whatever, not even a crash, reaches an abandoned file. */
  lemma StepAbandons(s: State, k: nat, step: Step)
    requires Inv(s) && Abandoned(s, k) && Enabled(s, step)
    ensures Abandoned(Apply(s, step), k)
  {
    hide Inv, Abandoned, NameRejected, NameFits, Commit, Settle;
    match step
    case CommitStep(u) => CommitAbandons(s, k, u);
    case ClaimStep(limit) => ClaimAbandons(s, k, limit);
    case SettleStep(ok) => SettleAbandons(s, k, ok);
    case Store(_) => UploadAbandons(s, k, step);
    case RollbackStep(_) => UploadAbandons(s, k, step);
    case DiscardStep(_, _) => UploadAbandons(s, k, step);
    case DropStep(_, _) => UploadAbandons(s, k, step);
    case _ => OtherAbandons(s, k, step);
  }

  lemma OtherAbandons(s: State, k: nat, step: Step)
    requires Abandoned(s, k) && Enabled(s, step)
    requires step.Tick? || step.RejectStep? || step.ReturnStep? || step.CrashUpload? || step.DeleteReference? || step.Attach?
             || step.EraseStep? || step.CrashCleaner?
    ensures Abandoned(Apply(s, step), k)
  {
    hide NameRejected, NameFits;
  }

  lemma UploadAbandons(s: State, k: nat, step: Step)
    requires Inv(s) && Abandoned(s, k) && Enabled(s, step)
    requires step.Store? || step.RollbackStep? || step.DiscardStep? || step.DropStep?
    ensures Abandoned(Apply(s, step), k)
  {
    hide Inv, NameRejected, NameFits;
  }

  lemma SettleAbandons(s: State, k: nat, ok: bool)
    requires Abandoned(s, k) && Enabled(s, SettleStep(ok))
    ensures Abandoned(Settle(s, ok), k)
  {
    hide NameRejected, HasReference, Restricted, NameFits;
    var claims := s.cleaner.claims;
    assert forall c :: c in claims[1..] ==> c in claims;
  }

  lemma StoreAbandons(s: State, q: Request)
    requires Inv(s) && NameRejected(q)
    ensures Abandoned(Put(s, q), s.next)
  {
    hide NameRejected;
  }

  lemma {:induction false} LeftAreAbandoned(states: seq<State>, steps: seq<Step>, n: nat)
    requires Run(states, steps) && n < |states|
    ensures forall k :: k in Left(states, steps, n) ==> Abandoned(states[n], k)
  {
    if n > 0 {
      hide Run, Inv, Abandoned, NameRejected, Enabled;
      LeftAreAbandoned(states, steps, n - 1);
      RunKeeps(states, steps, n - 1);
      var s, step := states[n - 1], steps[n - 1];
      Taken(states, steps, n - 1);
      forall k | k in Left(states, steps, n) ensures Abandoned(states[n], k) {
        if k in LeftBy(s, step) { StoreAbandons(s, step.request); } else { StepAbandons(s, k, step); }
      }
    }
  }

  lemma {:induction false} LeftIff(states: seq<State>, steps: seq<Step>, n: nat, k: nat)
    requires n <= |steps| <= |states|
    ensures k in Left(states, steps, n) <==> exists i: nat :: i < n && Doomed(steps[i]) && states[i].next == k
  {
    if n > 0 { LeftIff(states, steps, n - 1, k); }
  }

  // ----- conservation -------------------------------------------------------

  ghost predicate OneRow(objects: map<nat, Object>, key: nat) {
    forall o, p :: o in objects && p in objects && objects[o].key == key && objects[p].key == key ==> o == p
  }

  /** Each file on disk is the storage key of exactly one row. */
  ghost predicate Conserved(s: State) {
    forall k :: k in s.disk ==> HasRow(s.objects, k) && OneRow(s.objects, k)
  }

  /** Storage conservation, file by file: without crashes and failed disk operations,
      whenever no upload is in flight, the files on disk that no row has are exactly
      those written for resumes whose display name was then rejected. */
  lemma OrphansAreRejectedNames(states: seq<State>, steps: seq<Step>, n: nat, k: nat)
    requires Run(states, steps) && n < |states|
    requires forall i :: 0 <= i < n ==> Faultless(steps[i])
    requires states[n].uploads == map[]
    ensures k in states[n].disk && !HasRow(states[n].objects, k) <==>
      exists i: nat :: i < n && Doomed(steps[i]) && states[i].next == k
  {
    hide Inv, NameRejected;
    RunAccounts(states, steps, n);
    LeftAreAbandoned(states, steps, n);
    LeftIff(states, steps, n, k);
    assert !HasUpload(states[n].uploads, k);
  }

  /** Storage conservation: at a quiet point of a run without crashes and failed disk
      operations each file is the storage key of exactly one row if and only if no
      resume was uploaded so far under a display name that, stripped, is empty or
      longer than 255 characters. */
  lemma FilesAreConserved(states: seq<State>, steps: seq<Step>, n: nat)
    requires Run(states, steps) && n < |states|
    requires forall i :: 0 <= i < n ==> Faultless(steps[i])
    requires states[n].uploads == map[]
    ensures Conserved(states[n]) <==> forall i: nat :: i < n && steps[i].Store? ==> !NameRejected(steps[i].request)
  {
    hide NameRejected;
    RunKeeps(states, steps, n);
    forall k: nat ensures k in states[n].disk && !HasRow(states[n].objects, k) <==>
        exists i: nat :: i < n && Doomed(steps[i]) && states[i].next == k
    {
      OrphansAreRejectedNames(states, steps, n, k);
    }
    if i: nat :| i < n && Doomed(steps[i]) {
      assert !HasRow(states[n].objects, states[i].next) && states[i].next in states[n].disk;
    }
  }

  /** The file of a rejected name stays, whatever happens later, crashes and cleaner
      batches included. */
  lemma RejectedNameIsForever(states: seq<State>, steps: seq<Step>, i: nat, n: nat)
    requires Run(states, steps) && i < n < |states| && Doomed(steps[i])
    ensures states[i].next in states[n].disk && !HasRow(states[n].objects, states[i].next)
  {
    hide Inv, NameRejected;
    LeftAreAbandoned(states, steps, n);
    LeftIff(states, steps, n, states[i].next);
  }

  /** A resume sent with a form name of spaces only, or of 256 letters: two steps, no
      fault, nothing in flight, and a file that no row has. */
  lemma BlankNameLeavesAFile(form: string)
    requires form == "   " || (|form| == 256 && forall i :: 0 <= i < |form| ==> form[i] == 'a')
    ensures var q := Request(Resume, 1, 7, None, DisplayName(form, "cv.pdf"));
      var states, steps := [Start, Put(Start, q), EndUpload(Put(Start, q), 1)], [Store(q), RejectStep(1)];
      && Run(states, steps) && Faultless(steps[0]) && Faultless(steps[1])
      && states[2].uploads == map[] && states[2].objects == map[] && states[2].disk == map[0 := 7]
  {
    if form == "   " { BlankForm(form, "cv.pdf"); } else { TrimmedForm(form, "cv.pdf"); }
    var q := Request(Resume, 1, 7, None, DisplayName(form, "cv.pdf"));
    hide DisplayName;
    assert NameRejected(q);
    var states, steps := [Start, Put(Start, q), EndUpload(Put(Start, q), 1)], [Store(q), RejectStep(1)];
    assert Put(Start, q).uploads == map[1 := Upload(q, 0, Stored)];
    assert forall i :: 0 <= i < 2 ==> Enabled(states[i], steps[i]) && states[i + 1] == Apply(states[i], steps[i]);
  }

  // ----- what the cleaner removes -------------------------------------------

  ghost predicate Pinned(s: State) {
    forall o :: o in s.objects ==> Restricted(s, o)
  }

  lemma ReferencesRemain(s: State, s1: State)
    requires forall r :: r in s.refs ==> r in s1.refs && s1.refs[r].kind == s.refs[r].kind && s1.refs[r].file == s.refs[r].file
    ensures forall o: nat :: Restricted(s, o) ==> Restricted(s1, o)
  {
    forall o: nat | Restricted(s, o) ensures Restricted(s1, o) {
      var r :| r in s.refs && s.refs[r].kind != Attachment && s.refs[r].file == Some(o);
      assert s1.refs[r].file == Some(o);
    }
  }

  lemma AddPins(s: State, s1: State, r: nat, o: nat)
    requires Pinned(s) && s1.objects.Keys <= s.objects.Keys + {o} && r !in s.refs && r in s1.refs
    requires s1.refs == s.refs[r := s1.refs[r]] && s1.refs[r].kind != Attachment && s1.refs[r].file == Some(o)
    ensures Pinned(s1)
  {
    hide Restricted;
    ReferencesRemain(s, s1);
    forall p | p in s1.objects ensures Restricted(s1, p) {
      if p !in s.objects { NamedIsRestricted(s1, r, o); }
    }
  }

  lemma NamedIsRestricted(s: State, r: nat, o: nat)
    requires r in s.refs && s.refs[r].kind != Attachment && s.refs[r].file == Some(o)
    ensures Restricted(s, o)
  {}

  lemma CommitPins(s: State, u: nat)
    requires Inv(s) && Pinned(s) && u in s.uploads && s.uploads[u].phase.Stored?
    ensures Pinned(Commit(s, u))
    ensures forall o :: o in s.objects ==> o in Commit(s, u).objects
  {
    StoredIsFree(s, u);
    assert forall r :: r in s.refs ==> r < s.next;
    hide Inv, Transaction, Restricted;
    var up := s.uploads[u];
    TransactionShape(s, up.request, up.key);
    AcquireCases(s, up.key, up.request.digest);
    var (s1, a) := Acquire(s, up.key, up.request.digest);
    hide Acquire;
    if Transaction(s, up.request, up.key).1.Created? { AddPins(s, Commit(s, u), s1.next, a.row); }
  }

  lemma SettlePins(s: State, ok: bool)
    requires Inv(s) && Pinned(s) && Enabled(s, SettleStep(ok))
    ensures Pinned(Settle(s, ok))
    ensures forall o :: o in s.objects ==> o in Settle(s, ok).objects
  {
    assert Finalize(s, s.cleaner.claims[0].row).1 != Removed;
    ReferencesRemain(s, Settle(s, ok));
  }

  lemma StepPins(s: State, step: Step)
    requires Inv(s) && Pinned(s) && Enabled(s, step)
    ensures Pinned(Apply(s, step))
    ensures forall o :: o in s.objects ==> o in Apply(s, step).objects
  {
    if step.CommitStep? {
      CommitPins(s, step.upload);
    } else if step.SettleStep? {
      SettlePins(s, step.ok);
    } else {
      hide Inv, Restricted;
      if step.ClaimStep? { MarkAllKeepsKeys(s, step.limit); }
      ReferencesRemain(s, Apply(s, step));
    }
  }

  lemma {:induction false} RunPins(states: seq<State>, steps: seq<Step>, n: nat)
    requires Run(states, steps) && n < |states|
    ensures Pinned(states[n])
  {
    if n > 0 {
      hide Run, Inv, Pinned, Apply, Enabled;
      RunPins(states, steps, n - 1);
      RunKeeps(states, steps, n - 1);
      Taken(states, steps, n - 1);
      StepPins(states[n - 1], steps[n - 1]);
    }
  }

  /** Every row was created together with a resume, document or job whose foreign
      key outlives its logical deletion. So in no run does `finalize_deletion`
      remove a row: it keeps it (revived or referenced) or the DELETE is refused. */
  lemma NoRowIsEverRemoved(states: seq<State>, steps: seq<Step>, n: nat, o: nat)
    requires Run(states, steps) && n < |states| && o in states[n].objects
    ensures Finalize(states[n], o) == (states[n], if states[n].objects[o].status == Deleting && !HasReference(states[n], o) then Refused else Kept)
    ensures n + 1 < |states| ==> o in states[n + 1].objects
  {
    RunPins(states, steps, n);
    RunKeeps(states, steps, n);
    if n + 1 < |states| {
      Taken(states, steps, n);
      StepPins(states[n], steps[n]);
    }
  }
}
