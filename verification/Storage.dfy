/** The content-addressed object directory: its tables, the files on disk, the
    uploads and the cleaner that race on them, and one step per transaction or
    disk operation. `uuid4` values are drawn from one counter; a digest stands
    for the content it identifies. */
module Storage {
  import opened Common

  // ----- tables -------------------------------------------------------------

  datatype ObjectStatus = Writing | Ready | Deleting

  datatype Object = Object(key: nat, digest: nat, status: ObjectStatus, updatedAt: int)

  datatype RefKind = Resume | Document | Job | Attachment

  /** One row of resumes, candidate_documents, jobs or message_attachments.
      `file` is nullable for attachments only. */
  datatype Reference = Reference(
    kind: RefKind, owner: nat, file: Option<nat>, idempotency: Option<nat>,
    name: string, deleted: bool, expiresAt: int)

  // ----- operations in flight -----------------------------------------------

  /** `name`: the stripped display name (see UploadName). */
  datatype Request = Request(kind: RefKind, owner: nat, digest: nat, idempotency: Option<nat>, name: string)

  predicate NameFits(q: Request) {
    1 <= |q.name| <= 255
  }

  /** `upload_resume` checks the name after `put` and before the `try` whose handler
      erases the file. Documents are checked inside the `try`, jobs not at all. */
  predicate NameRejected(q: Request) {
    q.kind == Resume && !NameFits(q)
  }

  /** `Stored`: the file is written, the transaction has not run.
      `Finishing`: the transaction is over; these disk deletes are still to come. */
  datatype Phase = Stored | Finishing(discardOwn: bool, replaced: Option<nat>)

  datatype Upload = Upload(request: Request, key: nat, phase: Phase)

  datatype Claim = Claim(row: nat, key: nat, previous: ObjectStatus)

  /** Where the cleaner is with the first of its remaining claims. */
  datatype Stage = Erasing | Erased | EraseFailed

  datatype Cleaner = Idle | Batch(claims: seq<Claim>, stage: Stage)

  datatype State = State(
    now: int, next: nat,
    objects: map<nat, Object>, refs: map<nat, Reference>, disk: map<nat, nat>,
    uploads: map<nat, Upload>, cleaner: Cleaner)

  const RETENTION: int := 3600
  const ATTACHMENT_TTL: int := 604800

  predicate Live(ref: Reference, now: int) {
    if ref.kind == Attachment then ref.file.Some? && ref.expiresAt > now else !ref.deleted
  }

  predicate HasReference(s: State, o: nat) {
    exists r :: r in s.refs && Live(s.refs[r], s.now) && s.refs[r].file == Some(o)
  }

  /** resumes, candidate_documents and jobs reference objects ON DELETE RESTRICT,
      whether or not they are logically deleted. */
  predicate Restricted(s: State, o: nat) {
    exists r :: r in s.refs && s.refs[r].kind != Attachment && s.refs[r].file == Some(o)
  }

  // ----- acquire_for_reference ----------------------------------------------

  datatype Acquired = Acquired(row: nat, usedNewUpload: bool, replaced: Option<nat>)

  ghost predicate Holds(objects: map<nat, Object>, o: nat, digest: nat) {
    o in objects && objects[o].digest == digest
  }

  /** `_as_ready_reference` on the row `o` that holds the digest. */
  function AsReadyReference(s: State, o: nat, key: nat): (State, Acquired)
    requires o in s.objects
  {
    var row := s.objects[o];
    if row.status == Ready then
      (s, Acquired(o, row.key == key, None))
    else
      (s.(objects := s.objects[o := row.(status := Ready, key := key, updatedAt := s.now)]),
       Acquired(o, true, Some(row.key)))
  }

  ghost function Acquire(s: State, key: nat, digest: nat): (State, Acquired) {
    if exists o :: Holds(s.objects, o, digest) then
      var o :| Holds(s.objects, o, digest);
      AsReadyReference(s, o, key)
    else
      var s1 := s.(next := s.next + 1, objects := s.objects[s.next := Object(key, digest, Ready, s.now)]);
      AsReadyReference(s1, s.next, key)
  }

  // ----- the three upload transactions --------------------------------------

  /** What the transaction tells the service. `Reused` carries no flags: the
      repository returns `used_new_file_object = False, replaced = None`. */
  datatype Outcome = Created(usedNewUpload: bool, replaced: Option<nat>) | Reused | Rejected

  predicate Owned(s: State, r: nat, kind: RefKind, owner: nat) {
    r in s.refs && s.refs[r].kind == kind && s.refs[r].owner == owner && !s.refs[r].deleted
    && s.refs[r].file.Some? && s.refs[r].file.value in s.objects
  }

  predicate ByKey(s: State, r: nat, q: Request) {
    Owned(s, r, q.kind, q.owner) && q.idempotency.Some? && s.refs[r].idempotency == q.idempotency
  }

  predicate ByContent(s: State, r: nat, q: Request) {
    Owned(s, r, q.kind, q.owner) && s.objects[s.refs[r].file.value].digest == q.digest
  }

  function AddReference(s: State, q: Request, o: nat): State {
    s.(next := s.next + 1,
       refs := s.refs[s.next := Reference(q.kind, q.owner, Some(o), q.idempotency, q.name, false, 0)])
  }

  /** `create_resume`: acquires the object first, then looks for a replay. */
  ghost function CreateResume(s: State, q: Request, key: nat): (State, Outcome) {
    var (s1, a) := Acquire(s, key, q.digest);
    if exists r :: ByKey(s1, r, q) then
      var r :| ByKey(s1, r, q);
      if s1.objects[s1.refs[r].file.value].digest != q.digest then (s, Rejected) else (s1, Reused)
    else if exists r :: ByContent(s1, r, q) then (s1, Reused)
    else (AddReference(s1, q, a.row), Created(a.usedNewUpload, a.replaced))
  }

  /** `create_document`: looks for a replay first; a name change is a conflict too. */
  ghost function CreateDocument(s: State, q: Request, key: nat): (State, Outcome) {
    if exists r :: ByKey(s, r, q) then
      var r :| ByKey(s, r, q);
      if s.refs[r].name != q.name || s.objects[s.refs[r].file.value].digest != q.digest
      then (s, Rejected) else (s, Reused)
    else if exists r :: ByContent(s, r, q) then (s, Reused)
    else
      var (s1, a) := Acquire(s, key, q.digest);
      (AddReference(s1, q, a.row), Created(a.usedNewUpload, a.replaced))
  }

  /** `find_active_by_digest` then `create_job`; jobs carry no idempotency key. */
  ghost function CreateJob(s: State, q: Request, key: nat): (State, Outcome) {
    if exists r :: ByContent(s, r, q) then (s, Reused)
    else
      var (s1, a) := Acquire(s, key, q.digest);
      (AddReference(s1, q.(idempotency := None), a.row), Created(a.usedNewUpload, a.replaced))
  }

  ghost function Transaction(s: State, q: Request, key: nat): (State, Outcome) {
    match q.kind
    case Resume => CreateResume(s, q, key)
    case Document => CreateDocument(s, q, key)
    case Job => CreateJob(s, q, key)
    case Attachment => (s, Rejected)
  }

  // ----- uploads ------------------------------------------------------------

  function SetUpload(s: State, u: nat, up: Upload): State {
    s.(uploads := s.uploads[u := up])
  }

  function EndUpload(s: State, u: nat): State {
    s.(uploads := s.uploads - {u})
  }

  function Erase(s: State, key: nat): State {
    s.(disk := s.disk - {key})
  }

  /** `LocalObjectStorage.put`: a new file under a new key. */
  function Put(s: State, q: Request): State {
    s.(next := s.next + 2,
       disk := s.disk[s.next := q.digest],
       uploads := s.uploads[s.next + 1 := Upload(q, s.next, Stored)])
  }

  function AfterTransaction(outcome: Outcome): Phase {
    match outcome
    case Created(used, replaced) => Finishing(!used, replaced)
    case Reused => Finishing(true, None)
    case Rejected => Finishing(true, None)
  }

  ghost function Commit(s: State, u: nat): State
    requires u in s.uploads
  {
    var up := s.uploads[u];
    var (s1, outcome) := Transaction(s, up.request, up.key);
    SetUpload(s1, u, up.(phase := AfterTransaction(outcome)))
  }

  /** Any exception inside the transaction: rolled back, the new file is dropped next. */
  function Rollback(s: State, u: nat): State
    requires u in s.uploads
  {
    SetUpload(s, u, s.uploads[u].(phase := Finishing(true, None)))
  }

  /** `storage.delete(upload.storage_key)`; an OSError ends the upload there. */
  function DiscardOwn(s: State, u: nat, ok: bool): State
    requires u in s.uploads && s.uploads[u].phase.Finishing?
  {
    var up := s.uploads[u];
    if ok then SetUpload(Erase(s, up.key), u, up.(phase := Finishing(false, up.phase.replaced)))
    else EndUpload(s, u)
  }

  /** `_delete_transient_upload(replaced_storage_key)`; an OSError is ignored. */
  function DropReplaced(s: State, u: nat, ok: bool): State
    requires u in s.uploads && s.uploads[u].phase.Finishing? && s.uploads[u].phase.replaced.Some?
  {
    EndUpload(if ok then Erase(s, s.uploads[u].phase.replaced.value) else s, u)
  }

  // ----- the cleaner --------------------------------------------------------

  predicate Expired(s: State, o: nat) {
    o in s.objects && s.objects[o].updatedAt < s.now - RETENTION && !HasReference(s, o)
  }

  function ExpiredSet(s: State): set<nat> {
    set o | o in s.objects && Expired(s, o)
  }

  function Age(s: State): map<nat, Rank> {
    map o | o in s.objects :: Rank(s.objects[o].updatedAt, o, 0)
  }

  lemma AgesDiffer(s: State)
    ensures DistinctRanks(ExpiredSet(s), Age(s))
  {}

  function Selected(s: State, limit: nat): seq<nat> {
    AgesDiffer(s);
    Limit(Ordered(ExpiredSet(s), Age(s)), limit)
  }

  function ClaimOf(objects: map<nat, Object>, o: nat): Claim {
    if o in objects then Claim(o, objects[o].key, objects[o].status) else Claim(o, 0, Deleting)
  }

  function ClaimsOf(objects: map<nat, Object>, ids: seq<nat>): (c: seq<Claim>)
    ensures |c| == |ids|
    ensures forall i :: 0 <= i < |ids| ==> c[i] == ClaimOf(objects, ids[i])
  {
    if ids == [] then [] else [ClaimOf(objects, ids[0])] + ClaimsOf(objects, ids[1..])
  }

  /** `value.status = "deleting"`; the update trigger fires only on a real change. */
  function MarkDeleting(row: Object, now: int): Object {
    if row.status == Deleting then row else row.(status := Deleting, updatedAt := now)
  }

  function MarkAll(objects: map<nat, Object>, ids: seq<nat>, now: int): map<nat, Object> {
    map o | o in objects :: if o in ids then MarkDeleting(objects[o], now) else objects[o]
  }

  function ClaimExpired(s: State, limit: nat): (State, seq<Claim>) {
    var ids := Selected(s, limit);
    (s.(objects := MarkAll(s.objects, ids, s.now)), ClaimsOf(s.objects, ids))
  }

  datatype Finalized = Removed | Kept | Refused

  function Detach(refs: map<nat, Reference>, o: nat): map<nat, Reference> {
    map r | r in refs :: if refs[r].file == Some(o) then refs[r].(file := None) else refs[r]
  }

  /** `finalize_deletion`. `Refused`: the foreign key of a logically deleted
      resume, document or job makes the DELETE fail. */
  function Finalize(s: State, o: nat): (State, Finalized) {
    if o !in s.objects || s.objects[o].status != Deleting || HasReference(s, o) then (s, Kept)
    else if Restricted(s, o) then (s, Refused)
    else (s.(objects := s.objects - {o}, refs := Detach(s.refs, o)), Removed)
  }

  /** `restore_after_delete_failure`. */
  function Restore(s: State, claim: Claim): State {
    var o := claim.row;
    if o in s.objects && s.objects[o].status == Deleting then
      var row := s.objects[o];
      s.(objects := s.objects[o := if claim.previous == Deleting then row
                                   else row.(status := claim.previous, updatedAt := s.now)])
    else s
  }

  function Advance(s: State): State
    requires s.cleaner.Batch? && s.cleaner.claims != []
  {
    var rest := s.cleaner.claims[1..];
    s.(cleaner := if rest == [] then Idle else Batch(rest, Erasing))
  }

  ghost function Settle(s: State, ok: bool): State
    requires s.cleaner.Batch? && s.cleaner.claims != []
  {
    var claim := s.cleaner.claims[0];
    if s.cleaner.stage == EraseFailed then
      if ok then Advance(Restore(s, claim)) else s.(cleaner := Idle)
    else
      Advance(if ok then Finalize(s, claim.row).0 else s)
  }

  // ----- the transition system ----------------------------------------------

  datatype Step =
    | Tick(elapsed: nat)
    | Store(request: Request)
    | CommitStep(upload: nat)
    | RollbackStep(upload: nat)
    | RejectStep(upload: nat)
    | DiscardStep(upload: nat, ok: bool)
    | DropStep(upload: nat, ok: bool)
    | ReturnStep(upload: nat)
    | CrashUpload(upload: nat)
    | DeleteReference(ref: nat)
    | Attach(document: nat)
    | ClaimStep(limit: nat)
    | EraseStep(ok: bool)
    | SettleStep(ok: bool)
    | CrashCleaner

  ghost predicate Enabled(s: State, step: Step) {
    match step
    case Tick(_) => true
    case Store(q) => q.kind != Attachment
    case CommitStep(u) =>
      u in s.uploads && s.uploads[u].phase.Stored? && (s.uploads[u].request.kind == Job || NameFits(s.uploads[u].request))
    case RollbackStep(u) => u in s.uploads && s.uploads[u].phase.Stored? && !NameRejected(s.uploads[u].request)
    case RejectStep(u) => u in s.uploads && s.uploads[u].phase.Stored? && NameRejected(s.uploads[u].request)
    case DiscardStep(u, _) => u in s.uploads && s.uploads[u].phase.Finishing? && s.uploads[u].phase.discardOwn
    case DropStep(u, _) =>
      u in s.uploads && s.uploads[u].phase.Finishing? && !s.uploads[u].phase.discardOwn && s.uploads[u].phase.replaced.Some?
    case ReturnStep(u) => u in s.uploads && s.uploads[u].phase == Finishing(false, None)
    case CrashUpload(u) => u in s.uploads
    case DeleteReference(r) => r in s.refs && s.refs[r].kind != Attachment
    case Attach(r) => r in s.refs && Owned(s, r, Document, s.refs[r].owner) && s.objects[s.refs[r].file.value].status == Ready
    case ClaimStep(limit) => s.cleaner.Idle? && 1 <= limit <= 500
    case EraseStep(_) => s.cleaner.Batch? && s.cleaner.claims != [] && s.cleaner.stage == Erasing
    case SettleStep(_) => s.cleaner.Batch? && s.cleaner.claims != [] && s.cleaner.stage != Erasing
    case CrashCleaner => true
  }

  ghost function Apply(s: State, step: Step): State
    requires Enabled(s, step)
  {
    match step
    case Tick(elapsed) => s.(now := s.now + elapsed)
    case Store(q) => Put(s, q)
    case CommitStep(u) => Commit(s, u)
    case RollbackStep(u) => Rollback(s, u)
    case RejectStep(u) => EndUpload(s, u)
    case DiscardStep(u, ok) => DiscardOwn(s, u, ok)
    case DropStep(u, ok) => DropReplaced(s, u, ok)
    case ReturnStep(u) => EndUpload(s, u)
    case CrashUpload(u) => EndUpload(s, u)
    case DeleteReference(r) => s.(refs := s.refs[r := s.refs[r].(deleted := true)])
    case Attach(r) =>
      s.(next := s.next + 1,
         refs := s.refs[s.next := Reference(Attachment, s.refs[r].owner, s.refs[r].file, None,
                                             s.refs[r].name, false, s.now + ATTACHMENT_TTL)])
    case ClaimStep(limit) =>
      var (s1, claims) := ClaimExpired(s, limit);
      s1.(cleaner := if claims == [] then Idle else Batch(claims, Erasing))
    case EraseStep(ok) =>
      (if ok then Erase(s, s.cleaner.claims[0].key) else s)
      .(cleaner := s.cleaner.(stage := if ok then Erased else EraseFailed))
    case SettleStep(ok) => Settle(s, ok)
    case CrashCleaner => s.(cleaner := Idle)
  }

  const Start := State(0, 0, map[], map[], map[], map[], Idle)

  /** A run: every state follows from the one before by an enabled step. */
  ghost predicate Run(states: seq<State>, steps: seq<Step>) {
    && |states| == |steps| + 1
    && states[0] == Start
    && forall i :: 0 <= i < |steps| ==> Enabled(states[i], steps[i]) && states[i + 1] == Apply(states[i], steps[i])
  }
}
