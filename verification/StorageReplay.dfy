/** Idempotent uploads: replay by key and replay by content. */
module StorageReplay {
  import opened Common
  import opened Storage
  import opened StorageSafety

  /** The partial unique indexes of resumes, documents and jobs: an owner has at most
      one undeleted row for one object, and at most one for one idempotency key. */
  ghost predicate UniqueLive(refs: map<nat, Reference>) {
    forall r, t :: r in refs && t in refs && r != t && SameOwner(refs[r], refs[t]) ==>
      refs[r].file != refs[t].file && (refs[r].idempotency.Some? ==> refs[r].idempotency != refs[t].idempotency)
  }

  predicate SameOwner(x: Reference, y: Reference) {
    x.kind == y.kind && x.kind != Attachment && x.owner == y.owner && !x.deleted && !y.deleted
  }

  /** A created row is the only undeleted one of its owner with its content or key. */
  lemma CreatedIsUnique(s: State, q: Request, key: nat, t: nat)
    requires Inv(s) && (forall o :: o in s.objects ==> s.objects[o].key != key)
    requires Transaction(s, q, key).1.Created?
    requires t in s.refs && s.refs[t].kind == q.kind && s.refs[t].owner == q.owner && !s.refs[t].deleted
    ensures s.refs[t].file != Some(Acquire(s, key, q.digest).1.row)
    ensures q.kind != Job && q.idempotency.Some? ==> s.refs[t].idempotency != q.idempotency
  {
    AcquireCases(s, key, q.digest);
    var (s1, a) := Acquire(s, key, q.digest);
    assert s1.refs == s.refs;
    if q.kind == Resume {
      assert !ByContent(s1, t, q) && !ByKey(s1, t, q);
    } else {
      assert !ByContent(s, t, q);
      if q.kind == Document { assert !ByKey(s, t, q); }
    }
  }

  lemma AddKeepsUnique(refs: map<nat, Reference>, n: nat, ref: Reference)
    requires UniqueLive(refs) && n !in refs
    requires forall t :: t in refs && SameOwner(refs[t], ref) ==>
      refs[t].file != ref.file && (ref.idempotency.Some? ==> refs[t].idempotency != ref.idempotency)
    ensures UniqueLive(refs[n := ref])
  {}

  lemma CommitKeepsUnique(s: State, u: nat)
    requires Inv(s) && UniqueLive(s.refs) && u in s.uploads && s.uploads[u].phase.Stored?
    ensures UniqueLive(Commit(s, u).refs)
  {
    hide UniqueLive, CreateResume, CreateDocument, CreateJob;
    var q, key := s.uploads[u].request, s.uploads[u].key;
    TransactionShape(s, q, key);
    AcquireCases(s, key, q.digest);
    if Transaction(s, q, key).1.Created? {
      var (s1, a) := Acquire(s, key, q.digest);
      var ref := Reference(q.kind, q.owner, Some(a.row), if q.kind == Job then None else q.idempotency, q.name, false, 0);
      assert Commit(s, u).refs == s.refs[s1.next := ref];
      forall t | t in s.refs && SameOwner(s.refs[t], ref)
        ensures s.refs[t].file != ref.file
        ensures ref.idempotency.Some? ==> s.refs[t].idempotency != ref.idempotency
      {
        CreatedIsUnique(s, q, key, t);
      }
      AddKeepsUnique(s.refs, s1.next, ref);
    }
  }

  lemma SettleKeepsUnique(s: State, ok: bool)
    requires UniqueLive(s.refs) && Enabled(s, SettleStep(ok))
    ensures UniqueLive(Settle(s, ok).refs)
  {
    var o := s.cleaner.claims[0].row;
    if Finalize(s, o).1 == Removed {
      var refs := Detach(s.refs, o);
      forall r, t | r in refs && t in refs && r != t && SameOwner(refs[r], refs[t])
        ensures refs[r].file != refs[t].file && (refs[r].idempotency.Some? ==> refs[r].idempotency != refs[t].idempotency)
      {
        assert SameOwner(s.refs[r], s.refs[t]);
      }
    }
  }

  lemma StepKeepsUnique(s: State, step: Step)
    requires Inv(s) && UniqueLive(s.refs) && Enabled(s, step)
    ensures UniqueLive(Apply(s, step).refs)
  {
    if step.CommitStep? {
      CommitKeepsUnique(s, step.upload);
    } else if step.SettleStep? {
      SettleKeepsUnique(s, step.ok);
    } else if step.DeleteReference? || step.Attach? {
      assert UniqueLive(Apply(s, step).refs);
    } else {
      assert Apply(s, step).refs == s.refs;
    }
  }

  lemma {:induction false} RunKeepsUnique(states: seq<State>, steps: seq<Step>, n: nat)
    requires Run(states, steps) && n < |states|
    ensures UniqueLive(states[n].refs)
  {
    if n > 0 {
      hide Run, Inv, UniqueLive, Apply, Enabled;
      RunKeepsUnique(states, steps, n - 1);
      RunKeeps(states, steps, n - 1);
      Taken(states, steps, n - 1);
      StepKeepsUnique(states[n - 1], steps[n - 1]);
    }
  }

  /** In a reachable state, a second upload of content its owner already holds undeleted
      under no other key changes no table and leaves its own file to be erased. */
  lemma ReplayIsHarmless(states: seq<State>, steps: seq<Step>, n: nat, u: nat, r: nat)
    requires Run(states, steps) && n < |states|
    requires u in states[n].uploads && states[n].uploads[u].phase.Stored?
    requires ByContent(states[n], r, states[n].uploads[u].request)
    requires states[n].uploads[u].request.kind != Attachment
    ensures var s := states[n];
      Commit(s, u) == SetUpload(s, u, s.uploads[u].(phase := Finishing(true, None)))
  {
    RunKeeps(states, steps, n);
    var s := states[n];
    var q, key := s.uploads[u].request, s.uploads[u].key;
    TransactionShape(s, q, key);
    if Transaction(s, q, key).1.Created? {
      CreatedIsUnique(s, q, key, r);
      AcquireCases(s, key, q.digest);
    }
  }
}
