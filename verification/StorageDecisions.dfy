/** What the cleaner takes, what it gives back, how long an attachment protects its file,
    and how an upload is answered: stated on the tables. */
module StorageDecisions {
  import opened Common
  import opened Storage
  import opened StorageSafety
  import opened StorageReplay

  // ----- what a batch takes -------------------------------------------------

  /** No undeleted resume, document or job and no unexpired attachment names the row. */
  predicate Unused(s: State, o: nat) {
    forall r :: r in s.refs && s.refs[r].file == Some(o) ==>
      match s.refs[r].kind
      case Attachment => s.refs[r].expiresAt <= s.now
      case Resume => s.refs[r].deleted
      case Document => s.refs[r].deleted
      case Job => s.refs[r].deleted
  }

  predicate Due(s: State, o: nat) {
    o in s.objects && s.objects[o].updatedAt + 3600 < s.now && Unused(s, o)
  }

  function DueRows(s: State): set<nat> {
    set o | o in s.objects && Due(s, o)
  }

  lemma DueIsExpired(s: State, o: nat)
    requires o in s.objects
    ensures Due(s, o) <==> Expired(s, o)
  {
    if r :| r in s.refs && Live(s.refs[r], s.now) && s.refs[r].file == Some(o) { assert !Unused(s, o); }
    if !Unused(s, o) {
      var r :| r in s.refs && s.refs[r].file == Some(o) && (s.refs[r].kind == Attachment ==> s.refs[r].expiresAt > s.now)
        && (s.refs[r].kind != Attachment ==> !s.refs[r].deleted);
      assert Live(s.refs[r], s.now);
    }
  }

  /** Older by the last update, then by id. */
  predicate Older(x: Object, o: nat, y: Object, p: nat) {
    x.updatedAt < y.updatedAt || (x.updatedAt == y.updatedAt && o < p)
  }

  lemma DueAreExpired(s: State)
    ensures DueRows(s) == ExpiredSet(s)
  {
    hide Due, Expired;
    forall o | o in s.objects ensures Due(s, o) <==> Expired(s, o) { DueIsExpired(s, o); }
  }

  lemma SelectedAreTheOldestDue(s: State, limit: nat)
    ensures var ids := Selected(s, limit);
      && |ids| == (if |DueRows(s)| <= limit then |DueRows(s)| else limit)
      && (forall o :: o in ids ==> o in DueRows(s))
      && (forall i, j :: 0 <= i < j < |ids| ==> ids[i] != ids[j])
      && (forall o, p :: o in ids && p in DueRows(s) && p !in ids ==> Older(s.objects[o], o, s.objects[p], p))
  {
    DueAreExpired(s);
    hide Due, Expired;
    AgesDiffer(s);
    LimitKeepsTheBest(ExpiredSet(s), Age(s), limit);
    forall o, p | o in Selected(s, limit) && p in DueRows(s) && p !in Selected(s, limit)
      ensures Older(s.objects[o], o, s.objects[p], p)
    {
      assert Before(Age(s)[o], Age(s)[p]);
    }
  }

  predicate Claimed(claims: seq<Claim>, o: nat) {
    exists i :: 0 <= i < |claims| && claims[i].row == o
  }

  /** A batch claims the oldest rows that were last updated more than 3600 seconds ago
      and that nothing live refers to, each once, as many as it may; each claim carries
      the key and the status of its row. */
  lemma BatchTakesTheOldestDue(s: State, limit: nat)
    ensures var claims := ClaimExpired(s, limit).1;
      && |claims| == (if |DueRows(s)| <= limit then |DueRows(s)| else limit)
      && (forall c :: c in claims ==> c.row in DueRows(s) && c == Claim(c.row, s.objects[c.row].key, s.objects[c.row].status))
      && (forall i, j :: 0 <= i < j < |claims| ==> claims[i].row != claims[j].row)
      && (forall o, p :: Claimed(claims, o) && p in DueRows(s) && !Claimed(claims, p) ==>
            o in s.objects && Older(s.objects[o], o, s.objects[p], p))
  {
    hide Selected, Older, Due;
    SelectedAreTheOldestDue(s, limit);
    var ids, claims := Selected(s, limit), ClaimExpired(s, limit).1;
    assert forall i :: 0 <= i < |ids| ==> claims[i] == ClaimOf(s.objects, ids[i]) && ids[i] in ids;
    forall o ensures Claimed(claims, o) <==> o in ids {
      if o in ids { var i :| 0 <= i < |ids| && ids[i] == o; assert claims[i].row == o; }
    }
  }

  /** The claimed rows, and only they, are marked `deleting`, key and content unchanged. */
  lemma BatchMarks(s: State, limit: nat)
    ensures var (s1, claims) := ClaimExpired(s, limit);
      && s1 == s.(objects := s1.objects) && s1.objects.Keys == s.objects.Keys
      && forall o :: o in s.objects ==>
           if Claimed(claims, o) then s1.objects[o] == Object(s.objects[o].key, s.objects[o].digest, Deleting,
                                                              if s.objects[o].status == Deleting then s.objects[o].updatedAt else s.now)
           else s1.objects[o] == s.objects[o]
  {
    hide Selected;
    var ids, claims := Selected(s, limit), ClaimExpired(s, limit).1;
    forall o | o in s.objects ensures o in ids <==> Claimed(claims, o) {
      if o in ids { var i :| 0 <= i < |ids| && ids[i] == o; assert claims[i].row == o; }
    }
  }

  // ----- what the cleaner may still erase -----------------------------------

  /** The claim was taken by this step, from a row that was due then. */
  ghost predicate TakenAt(s: State, step: Step, c: Claim) {
    step.ClaimStep? && Due(s, c.row) && c.key == s.objects[c.row].key && c.previous == s.objects[c.row].status
  }

  lemma BatchOrigin(s: State, limit: nat, c: Claim)
    requires c in ClaimExpired(s, limit).1
    ensures TakenAt(s, ClaimStep(limit), c)
  {
    hide ClaimExpired, Due, Older;
    BatchTakesTheOldestDue(s, limit);
    DueRowsAreDue(s, c.row);
  }

  lemma DueRowsAreDue(s: State, o: nat)
    ensures o in DueRows(s) ==> Due(s, o)
  {
    hide Due;
  }

  lemma ClaimingSets(s: State, limit: nat)
    requires Enabled(s, ClaimStep(limit))
    ensures Claims(Apply(s, ClaimStep(limit)).cleaner) == ClaimExpired(s, limit).1
  {
    hide Selected, ClaimsOf, MarkAll;
  }

  lemma ClaimOrigin(s: State, step: Step, c: Claim)
    requires Enabled(s, step) && c in Claims(Apply(s, step).cleaner)
    ensures c in Claims(s.cleaner) || TakenAt(s, step, c)
  {
    hide ClaimExpired, TakenAt, Claims;
    if step.ClaimStep? {
      ClaimingSets(s, step.limit);
      BatchOrigin(s, step.limit, c);
    } else if step.SettleStep? {
      SettlingAdvances(s, step.ok);
      hide Settle;
    } else {
      OthersKeepClaims(s, step);
      hide Apply;
    }
  }

  lemma SettlingAdvances(s: State, ok: bool)
    requires Enabled(s, SettleStep(ok))
    ensures forall c :: c in Claims(Settle(s, ok).cleaner) ==> c in Claims(s.cleaner)
  {
    hide HasReference, Restricted;
    var claims := s.cleaner.claims;
    assert forall c :: c in claims[1..] ==> c in claims;
  }

  lemma OthersKeepClaims(s: State, step: Step)
    requires Enabled(s, step) && !step.ClaimStep? && !step.SettleStep?
    ensures forall c :: c in Claims(Apply(s, step).cleaner) ==> c in Claims(s.cleaner)
  {
    hide NameFits, Commit;
    if step.CommitStep? { CommitKeepsCleaner(s, step.upload); }
  }

  lemma AcquireKeepsCleaner(s: State, key: nat, digest: nat)
    ensures Acquire(s, key, digest).0.cleaner == s.cleaner
  {}

  lemma CommitKeepsCleaner(s: State, u: nat)
    requires u in s.uploads
    ensures Commit(s, u).cleaner == s.cleaner
  {
    hide Acquire, ByKey, ByContent;
    AcquireKeepsCleaner(s, s.uploads[u].key, s.uploads[u].request.digest);
  }

  /** Whatever claim the cleaner works on, its row was due when it was taken: not updated
      for 3600 seconds and named by nothing live. So the cleaner erases no other key. */
  lemma {:induction false} ClaimsWereDue(states: seq<State>, steps: seq<Step>, n: nat, c: Claim)
    requires Run(states, steps) && n < |states| && c in Claims(states[n].cleaner)
    ensures exists i: nat :: i < n && i < |steps| && TakenAt(states[i], steps[i], c)
  {
    hide Run, TakenAt, Enabled, Apply;
    if n == 0 {
      StartsIdle(states, steps);
    } else {
      StepsFit(states, steps);
      Taken(states, steps, n - 1);
      ClaimOrigin(states[n - 1], steps[n - 1], c);
      if c in Claims(states[n - 1].cleaner) { ClaimsWereDue(states, steps, n - 1, c); }
    }
  }

  lemma StartsIdle(states: seq<State>, steps: seq<Step>)
    requires Run(states, steps)
    ensures states[0].cleaner == Idle
  {}

  lemma StepsFit(states: seq<State>, steps: seq<Step>)
    requires Run(states, steps)
    ensures |states| == |steps| + 1
  {}

  // ----- what a failed erase gives back -------------------------------------

  /** After a failed erase the row has the status it was claimed with, unless it was
      revived meanwhile; its key and content stay, and nothing else changes. */
  lemma FailedEraseGivesBack(s: State)
    requires Enabled(s, SettleStep(true)) && s.cleaner.stage == EraseFailed
    ensures var c := s.cleaner.claims[0]; var s1 := Apply(s, SettleStep(true));
      && s1.objects.Keys == s.objects.Keys && s1.refs == s.refs && s1.disk == s.disk && s1.uploads == s.uploads
      && (forall o :: o in s.objects && o != c.row ==> s1.objects[o] == s.objects[o])
      && (c.row in s.objects ==>
            && s1.objects[c.row].key == s.objects[c.row].key && s1.objects[c.row].digest == s.objects[c.row].digest
            && s1.objects[c.row].status == (if s.objects[c.row].status == Deleting then c.previous else s.objects[c.row].status))
  {}

  // ----- what an attachment protects ----------------------------------------

  /** The attachment is there, names row `o`, and has not expired. */
  predicate Protects(s: State, r: nat, o: nat, expiry: int) {
    r in s.refs && s.refs[r].kind == Attachment && s.refs[r].file == Some(o) && s.refs[r].expiresAt == expiry
  }

  lemma AttachingProtects(s: State, document: nat)
    requires Enabled(s, Attach(document))
    ensures s.refs[document].file.Some?
    ensures Protects(Apply(s, Attach(document)), s.next, s.refs[document].file.value, s.now + 604800)
  {}

  lemma CommitKeepsProtection(s: State, u: nat, r: nat, o: nat, expiry: int)
    requires Inv(s) && Protects(s, r, o, expiry) && u in s.uploads && s.uploads[u].phase.Stored?
    ensures Protects(Commit(s, u), r, o, expiry)
  {
    assert r < s.next;
    StoredIsFree(s, u);
    hide Inv;
    TransactionShape(s, s.uploads[u].request, s.uploads[u].key);
    AcquireCases(s, s.uploads[u].key, s.uploads[u].request.digest);
    hide Acquire, Transaction;
  }

  lemma SettleKeepsProtection(s: State, ok: bool, r: nat, o: nat, expiry: int)
    requires Enabled(s, SettleStep(ok)) && Protects(s, r, o, expiry) && s.now < expiry
    ensures Protects(Settle(s, ok), r, o, expiry)
  {
    assert Live(s.refs[r], s.now);
  }

  lemma StepKeepsProtection(s: State, step: Step, r: nat, o: nat, expiry: int)
    requires Inv(s) && Enabled(s, step) && Protects(s, r, o, expiry) && s.now < expiry
    ensures Protects(Apply(s, step), r, o, expiry)
  {
    if step.CommitStep? {
      hide Inv, NameFits;
      CommitKeepsProtection(s, step.upload, r, o, expiry);
    } else if step.SettleStep? {
      hide Inv;
      SettleKeepsProtection(s, step.ok, r, o, expiry);
    } else {
      assert r < s.next;
      hide Inv;
    }
  }

  /** The row still holds the same content. */
  predicate Holding(s: State, o: nat, digest: nat) {
    o in s.objects && s.objects[o].digest == digest
  }

  lemma CommitKeepsContent(s: State, u: nat, o: nat, digest: nat)
    requires Inv(s) && Holding(s, o, digest) && u in s.uploads && s.uploads[u].phase.Stored?
    ensures Holding(Commit(s, u), o, digest)
  {
    assert o < s.next;
    StoredIsFree(s, u);
    hide Inv;
    TransactionShape(s, s.uploads[u].request, s.uploads[u].key);
    AcquireCases(s, s.uploads[u].key, s.uploads[u].request.digest);
    hide Acquire, Transaction;
  }

  /** A row that something live names keeps its content. */
  lemma StepKeepsContent(s: State, step: Step, o: nat, digest: nat)
    requires Inv(s) && Enabled(s, step) && Holding(s, o, digest) && HasReference(s, o)
    ensures Holding(Apply(s, step), o, digest)
  {
    hide Inv, HasReference, NameFits;
    if step.CommitStep? {
      CommitKeepsContent(s, step.upload, o, digest);
    } else if step.ClaimStep? {
      BatchMarks(s, step.limit);
      hide ClaimExpired;
    } else if step.SettleStep? {
      SettleKeepsContent(s, step.ok, o, digest);
    }
  }

  lemma SettleKeepsContent(s: State, ok: bool, o: nat, digest: nat)
    requires Enabled(s, SettleStep(ok)) && Holding(s, o, digest) && HasReference(s, o)
    ensures Holding(Settle(s, ok), o, digest)
  {
    hide HasReference, Restricted;
  }

  lemma {:induction false} ProtectionLasts(states: seq<State>, steps: seq<Step>, i: nat, n: nat, r: nat, o: nat, expiry: int,
        digest: nat)
    requires Run(states, steps) && i <= n < |states| && Protects(states[i], r, o, expiry) && Holding(states[i], o, digest)
    requires states[n].now < expiry
    ensures Protects(states[n], r, o, expiry) && Holding(states[n], o, digest)
  {
    hide Run, Inv, Enabled, Apply, Holding, Protects;
    if i < n {
      StepsFit(states, steps);
      Taken(states, steps, n - 1);
      TimeGoesOn(states[n - 1], steps[n - 1]);
      ProtectionLasts(states, steps, i, n - 1, r, o, expiry, digest);
      RunKeeps(states, steps, n - 1);
      ProtectedIsReferenced(states[n - 1], r, o, expiry);
      StepKeepsProtection(states[n - 1], steps[n - 1], r, o, expiry);
      StepKeepsContent(states[n - 1], steps[n - 1], o, digest);
    }
  }

  lemma ProtectedIsReferenced(s: State, r: nat, o: nat, expiry: int)
    requires Protects(s, r, o, expiry) && s.now < expiry
    ensures HasReference(s, o)
  {
    assert Live(s.refs[r], s.now);
  }

  lemma TimeGoesOn(s: State, step: Step)
    requires Enabled(s, step)
    ensures Apply(s, step).now >= s.now
  {
    hide NameFits, Commit;
    if step.CommitStep? { CommitKeepsClock(s, step.upload); }
  }

  lemma AcquireKeepsClock(s: State, key: nat, digest: nat)
    ensures Acquire(s, key, digest).0.now == s.now
  {}

  lemma CommitKeepsClock(s: State, u: nat)
    requires u in s.uploads
    ensures Commit(s, u).now == s.now
  {
    hide Acquire, ByKey, ByContent;
    AcquireKeepsClock(s, s.uploads[u].key, s.uploads[u].request.digest);
  }

  /** A document attached to a message can be downloaded for 604800 seconds, whatever
      happens to the document and whatever the cleaner does: its row is ready, holds the
      same content, and the file is on disk. */
  lemma AttachmentOutlivesItsDocument(states: seq<State>, steps: seq<Step>, i: nat, n: nat, document: nat)
    requires Run(states, steps) && i < |steps| && i < n < |states| && steps[i] == Attach(document)
    requires states[n].now < states[i].now + 604800
    ensures document in states[i].refs && states[i].refs[document].file.Some?
    ensures var o := states[i].refs[document].file.value;
      && o in states[i].objects && o in states[n].objects
      && states[n].objects[o].digest == states[i].objects[o].digest && states[n].objects[o].status == Ready
      && states[n].objects[o].key in states[n].disk && states[n].disk[states[n].objects[o].key] == states[n].objects[o].digest
  {
    hide Run, Inv;
    StepsFit(states, steps);
    Taken(states, steps, i);
    AttachingProtects(states[i], document);
    var o := states[i].refs[document].file.value;
    var r, expiry, digest := states[i].next, states[i].now + 604800, states[i].objects[o].digest;
    assert Holding(states[i + 1], o, digest);
    hide Apply, Enabled;
    ProtectionLasts(states, steps, i + 1, n, r, o, expiry, digest);
    StorageIsSafe(states, steps, n);
    assert Live(states[n].refs[r], states[n].now);
  }

  // ----- how an upload is answered ------------------------------------------

  /** An undeleted row of the requester under the request's idempotency key. */
  predicate UnderKey(s: State, r: nat, q: Request) {
    && r in s.refs && s.refs[r].kind == q.kind && s.refs[r].owner == q.owner && !s.refs[r].deleted
    && q.idempotency.Some? && s.refs[r].idempotency == q.idempotency
  }

  /** An undeleted row of the requester with the request's content. */
  predicate WithContent(s: State, r: nat, q: Request) {
    && r in s.refs && s.refs[r].kind == q.kind && s.refs[r].owner == q.owner && !s.refs[r].deleted && SameContent(s, r, q)
  }

  predicate SameContent(s: State, r: nat, q: Request) {
    r in s.refs && s.refs[r].file.Some? && s.refs[r].file.value in s.objects && s.objects[s.refs[r].file.value].digest == q.digest
  }

  /** What the row under the key must share with the request to count as a replay. */
  predicate Agrees(s: State, r: nat, q: Request) {
    SameContent(s, r, q) && (q.kind == Document ==> s.refs[r].name == q.name)
  }

  ghost predicate Conflicts(s: State, q: Request) {
    q.kind != Job && exists r :: UnderKey(s, r, q) && !Agrees(s, r, q)
  }

  ghost predicate Replays(s: State, q: Request) {
    if q.kind != Job && exists r :: UnderKey(s, r, q) then exists r :: UnderKey(s, r, q) && Agrees(s, r, q)
    else exists r :: WithContent(s, r, q)
  }

  /** One new row of the requester for the content, which is now ready; every other
      row of the directory keeps its content. */
  ghost predicate Adds(s: State, s1: State, q: Request) {
    exists r: nat, o: nat :: AddsRow(s, s1, q, r, o)
  }

  predicate AddsRow(s: State, s1: State, q: Request, r: nat, o: nat) {
    && r !in s.refs && s1.refs == s.refs[r := NewReference(q, o)]
    && o in s1.objects && s1.objects[o].digest == q.digest && s1.objects[o].status == Ready
    && s1.objects.Keys == s.objects.Keys + {o}
    && (forall p :: p in s.objects && p != o ==> s1.objects[p] == s.objects[p])
    && (o in s.objects ==> s.objects[o].digest == q.digest)
  }

  function NewReference(q: Request, o: nat): Reference {
    Reference(q.kind, q.owner, Some(o), if q.kind == Job then None else q.idempotency, q.name, false, 0)
  }

  lemma NamedRowsAreThere(s: State, q: Request, key: nat, r: nat)
    requires Inv(s) && NoRowHas(s.objects, key) && q.kind != Attachment
    ensures var s1 := Acquire(s, key, q.digest).0;
      && s1.refs == s.refs
      && (ByKey(s1, r, q) <==> UnderKey(s, r, q)) && (ByKey(s, r, q) <==> UnderKey(s, r, q))
      && (ByContent(s1, r, q) <==> WithContent(s, r, q)) && (ByContent(s, r, q) <==> WithContent(s, r, q))
      && (UnderKey(s, r, q) ==>
            && s.refs[r].file.Some? && s.refs[r].file.value in s.objects && s.refs[r].file.value in s1.objects
            && (SameContent(s, r, q) <==> s.objects[s.refs[r].file.value].digest == q.digest)
            && (SameContent(s, r, q) <==> s1.objects[s.refs[r].file.value].digest == q.digest))
  {
    AcquireCases(s, key, q.digest);
    assert r in s.refs && s.refs[r].kind != Attachment ==> s.refs[r].file.Some? && s.refs[r].file.value in s.objects;
    assert s.next !in s.objects;
    hide Inv, Acquire;
  }

  /** A key names one row of its owner. */
  lemma KeyIsUnique(s: State, q: Request, r: nat, t: nat)
    requires UniqueLive(s.refs) && q.kind != Attachment && UnderKey(s, r, q) && UnderKey(s, t, q)
    ensures r == t
  {
    assert SameOwner(s.refs[r], s.refs[t]);
  }

  predicate Answered(s: State, q: Request, outcome: Outcome, conflicts: bool, replays: bool) {
    (outcome == Rejected <==> conflicts) && (outcome == Reused <==> !conflicts && replays)
  }

  lemma ResumeIsAnswered(s: State, q: Request, key: nat)
    requires Inv(s) && UniqueLive(s.refs) && NoRowHas(s.objects, key) && q.kind == Resume
    ensures Answered(s, q, CreateResume(s, q, key).1, Conflicts(s, q), Replays(s, q))
  {
    hide Inv, UniqueLive, ByKey, ByContent, UnderKey, WithContent, SameContent, Acquire;
    var s1 := Acquire(s, key, q.digest).0;
    forall r: nat ensures (ByKey(s1, r, q) <==> UnderKey(s, r, q)) && (ByContent(s1, r, q) <==> WithContent(s, r, q)) && s1.refs == s.refs {
      NamedRowsAreThere(s, q, key, r);
    }
    if exists r :: ByKey(s1, r, q) {
      var r :| ByKey(s1, r, q);
      forall t: nat | ByKey(s1, t, q) ensures t == r { KeyIsUnique(s, q, r, t); }
      NamedRowsAreThere(s, q, key, r);
    }
  }

  lemma DocumentIsAnswered(s: State, q: Request, key: nat)
    requires Inv(s) && UniqueLive(s.refs) && NoRowHas(s.objects, key) && q.kind == Document
    ensures Answered(s, q, CreateDocument(s, q, key).1, Conflicts(s, q), Replays(s, q))
  {
    hide Inv, UniqueLive, ByKey, ByContent, UnderKey, WithContent, SameContent, Acquire;
    forall r: nat ensures (ByKey(s, r, q) <==> UnderKey(s, r, q)) && (ByContent(s, r, q) <==> WithContent(s, r, q)) {
      NamedRowsAreThere(s, q, key, r);
    }
    if exists r :: ByKey(s, r, q) {
      var r :| ByKey(s, r, q);
      forall t: nat | ByKey(s, t, q) ensures t == r { KeyIsUnique(s, q, r, t); }
      NamedRowsAreThere(s, q, key, r);
      UnderKeyIsThere(s, r, q);
    }
  }

  lemma UnderKeyIsThere(s: State, r: nat, q: Request)
    requires UnderKey(s, r, q)
    ensures r in s.refs
  {}

  lemma JobIsAnswered(s: State, q: Request, key: nat)
    requires Inv(s) && NoRowHas(s.objects, key) && q.kind == Job
    ensures Answered(s, q, CreateJob(s, q, key).1, Conflicts(s, q), Replays(s, q))
  {
    hide Inv, ByContent, UnderKey, WithContent, Acquire;
    forall r: nat ensures ByContent(s, r, q) <==> WithContent(s, r, q) { NamedRowsAreThere(s, q, key, r); }
  }

  lemma CreatedAdds(s: State, q: Request, key: nat)
    requires Inv(s) && NoRowHas(s.objects, key) && q.kind != Attachment
    ensures var (s1, outcome) := Transaction(s, q, key); if outcome.Created? then Adds(s, s1, q) else s1 == s
  {
    FreshIds(s);
    hide Inv, Transaction, Adds;
    TransactionShape(s, q, key);
    if Transaction(s, q, key).1.Created? {
      AcquireCases(s, key, q.digest);
      var (s1, a) := Acquire(s, key, q.digest);
      hide Acquire;
      AddedIsRow(s, s1, q, a.row);
    }
  }

  lemma FreshIds(s: State)
    requires Inv(s)
    ensures s.next !in s.objects && forall r :: r in s.refs ==> r < s.next
  {}

  lemma AddedIsRow(s: State, s1: State, q: Request, o: nat)
    requires s1.refs == s.refs && s1.next !in s.refs && o in s1.objects && s1.objects[o].status == Ready && s1.objects[o].digest == q.digest
    requires s1.objects.Keys == s.objects.Keys + {o} && (forall p :: p in s.objects && p != o ==> s1.objects[p] == s.objects[p])
    requires o in s.objects ==> s.objects[o].digest == q.digest
    ensures Adds(s, AddReference(s1, if q.kind == Job then q.(idempotency := None) else q, o), q)
  {
    assert AddsRow(s, AddReference(s1, if q.kind == Job then q.(idempotency := None) else q, o), q, s1.next, o);
  }

  /** How the transaction of a stored upload is answered, in every reachable state: a
      conflict exactly when the requester holds another content (for a document, or
      another name) under the same key; a replay exactly when the key agrees or, without
      a row under the key, when the requester holds the content; otherwise one new row
      is added. A conflict or a replay changes nothing. */
  lemma UploadIsAnswered(states: seq<State>, steps: seq<Step>, n: nat, u: nat)
    requires Run(states, steps) && n < |states| && u in states[n].uploads && states[n].uploads[u].phase.Stored?
    requires states[n].uploads[u].request.kind != Attachment
    ensures var s, q := states[n], states[n].uploads[u].request;
      var (s1, outcome) := Transaction(s, q, states[n].uploads[u].key);
      && (outcome == Rejected <==> Conflicts(s, q)) && (outcome == Reused <==> !Conflicts(s, q) && Replays(s, q))
      && (if outcome.Created? then Adds(s, s1, q) else s1 == s)
  {
    hide Run, Inv, UniqueLive, Conflicts, Replays, Adds, CreateResume, CreateDocument, CreateJob;
    RunKeeps(states, steps, n);
    RunKeepsUnique(states, steps, n);
    var s, q, key := states[n], states[n].uploads[u].request, states[n].uploads[u].key;
    StoredIsFree(s, u);
    CreatedAdds(s, q, key);
    match q.kind
    case Resume => ResumeIsAnswered(s, q, key);
    case Document => DocumentIsAnswered(s, q, key);
    case Job => JobIsAnswered(s, q, key);
  }

  // ----- logical deletion ---------------------------------------------------

  /** Deleting the last owner of a row makes the row free for the cleaner, from one hour
      after its last update on. */
  lemma LastDeletionFrees(s: State, r: nat, o: nat)
    requires Enabled(s, DeleteReference(r)) && s.refs[r].file == Some(o) && o in s.objects
    requires forall t :: t in s.refs && t != r && s.refs[t].file == Some(o) ==> !Live(s.refs[t], s.now)
    ensures var s1 := Apply(s, DeleteReference(r));
      && Unused(s1, o) && s1.objects == s.objects && s1.disk == s.disk && s1.uploads == s.uploads
      && (forall t :: t in s.refs && t != r ==> t in s1.refs && s1.refs[t] == s.refs[t])
      && (Due(s1, o) <==> s.objects[o].updatedAt + 3600 < s.now)
  {}
}
