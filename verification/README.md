# CareerPass: a verified model of the backend protocols

This project models the stateful core of `careerpass-backend` in Dafny and proves what it
keeps: the content-addressed object directory and its cleaner, the durable parsing tasks
with their leases, the agent run with matching, applications and offers, the HR
conversations, and the deterministic algorithms. `dafny verify dfyconfig.toml` checks all
of it.

## How it is built

Each `async with ...begin()` or `transaction()` block is one atomic step. What lies between
two blocks (disk, broker, language model) is a point where any other step may come in. A
component is a state, a function per transaction, and a run: a sequence of states in which
every state follows from the one before by an enabled step. Theorems are about every run.
Beside the transition systems stand classes whose fields are the tables. Their methods are
written as the source writes them, with its loops, and are proved to take exactly the
steps of the transition system, so the theorems about runs hold of them. The modules
*Decisions* and *Provenance* say what each step does on the tables, without its definition:
when a request is accepted, what it leaves, and where a stored value came from. Table rows that
begin with *glue* are such methods of one transaction: they tie the code to its step and
claim nothing beyond it.

| part | files |
|---|---|
| object directory | UploadName, Storage, StorageSafety, StorageConservation, StorageReplay, StorageDecisions, StorageService |
| parsing tasks | Tasks, TaskInvariant, TaskHistory, TaskLeases, TaskFacts, TaskFrame, TaskProvenance, TaskDecisions, TaskRepository, Readiness |
| agent run | AgentFlow, AgentInvariant, AgentFacts, AgentTheorems, AgentRounds, AgentVisibility, AgentDecisions, AgentService |
| conversations | GoalGap, Chat, ChatInvariant, ChatTheorems, ChatDecisions, ChatService |
| algorithms | Text, Experience, ExperienceLevel, MatchScore, MatchInsertion, BinaryAnswer, JobDescription, JobFields |
| shared | Common |

Ids and `uuid4` values are drawn from one counter, so they are fresh and ordered. A digest
stands for its content. Times are integers (microseconds for tasks), and every transaction
moves the clock strictly forward; `delete_job`, which orders tasks by creation time, needs
that, because two generations created in one instant would be told apart by random ids
only. Transactions are serial. There is one cleaner. The settings bounds of
`core/config.py` are the bounds of the steps. A worker writes only with the lease it
claimed.

## What the proofs found

* `finalize_deletion` never removes a row. Resumes, documents and jobs are only ever
  deleted logically, and their foreign key (ON DELETE RESTRICT) outlives that, so the
  DELETE of an expired object is refused in every run and the row stays `deleting` until
  an upload revives it (`NoRowIsEverRemoved`).
* `upload_resume` writes the file, then checks the display name, and only then enters the
  `try` whose handler erases the file. A resume sent with a name of spaces only, or of more
  than 255 characters, leaves a file that no row has and nothing ever erases. Storage is
  conserved exactly in the runs without such a name (`FilesAreConserved`,
  `OrphansAreRejectedNames`, `RejectedNameIsForever`, `BlankNameLeavesAFile`). Documents and
  jobs are not affected.
* `fail_execution_after_timeout` carries no token. The soft time limit only raises the
  exception; the transaction of the handler comes later, bounded by the hard limit alone.
  The handler of a worker that still has its lease is safe exactly when the hard limit does
  not exceed the execution lease (`TimeoutSafeIff`). The settings tie neither limit to the
  lease, so unsafe pairs can be configured; soft 179, lease 180, hard 300 is one
  (`SoftLimitBelowLeaseIsNotEnough`). The defaults (150 and 180) are safe. A worker
  interrupted between giving its lease back and returning is safe under no setting
  (`ReleasedWorkerIsNeverSafe`).
* The HR list and the status update look at the latest run of all candidates. From the
  moment any candidate starts a run, the applications of every older run are invisible and
  frozen, and an older run short of its offer target never reaches it
  (`OlderRunsAreInvisible`, `StartHidesEveryRun`, `HiddenAppsAreFrozen`,
  `HiddenRunNeverReaches`).
* Only the last uploaded resume of a candidate can ever be deleted; an earlier one, once
  replaced, cannot (`DeleteResumeIff`).
* The restart after a round without matches cannot happen. `start` creates a second run
  for the same candidate and goal, which `uq_agent_run_candidate_goal` rejects
  (`NeverRestarted`).
* A description whose first section is empty under a heading that maps to another field
  passes the check for missing fields without a title and then fails model validation,
  which the worker treats as a temporary failure (`TitleTrapIff`, `TitleTrap`, and
  `ParseTrap` on a text of four lines).
* The closing tail of a heading needs no space before it, so "# C#" is read as "C"
  (`HashIsLost`; `HeadingText` says what every heading is read as).
* The replacement of full-width letters in `_normalize` comes after case folding and never
  fires (`ReplaceIsDead`).
* A text appended to the project highlights never lowers a score
  (`HighlightNeverHurts`), but a text put anywhere else can, because joining drops the gaps
  between items and neighbours can form a term together. It can at a position exactly when
  a required skill is found across that position only (`InsertionNeverHurtsIff`,
  `SkillScoreNeverFallsIff`, `TotalNeverFallsIff`, `MatchSurvivesIff`). For a job "ai开发"
  that asks for "js", a candidate with the skill "j" and the highlight "s" is matched, and
  not matched any more with a second skill "#" (`AnotherSkillLosesTheMatch`; the titles "ai"
  and "ai开发" have a similarity of 2/3, below 0.78).
* A queued task whose publication was confirmed waits for its delivery alone: neither the
  dispatcher nor the recovery pass looks at it again (`ConfirmedWaitsForDelivery`).

## Model

| member | source | states |
|---|---|---|
| StorageSafety.StorageIsSafe | careerpass-backend/app/repositories/object_storage_repository.py:47-173 | at every point of every run of uploads, revivals, deletions and one cleaner: a ready row's file is on disk with the row's content, and every undeleted resume, document or job and every unexpired attachment points to a ready row |
| StorageSafety.RunKeeps | careerpass-backend/app/services/object_cleanup_service.py:21-47 | the full invariant over operations in flight that safety needs: who may still erase which key, which claim still owns its row |
| StorageSafety.AcquireCases | careerpass-backend/app/repositories/object_storage_repository.py:47-102 | acquiring a digest leaves exactly one ready row for it: the row as it was, the row revived under the new key with the old key handed back, or a new row |
| StorageSafety.ReplayAcquiresNothing | careerpass-backend/app/repositories/candidate_preparation_repository.py:49-78 | on a replay the acquire at the head of `create_resume` neither used the new upload nor replaced a key, so dropping its flags loses nothing |
| StorageSafety.RestoreKeeps | careerpass-backend/app/repositories/object_storage_repository.py:168-173 | restoring a row after a failed erase keeps safety |
| StorageConservation.FilesAreConserved | careerpass-backend/app/services/candidate_preparation_service.py:58-96 | in every run without crashes and failed disk operations, when no upload is in flight: every file on disk is the key of exactly one row if and only if no resume was uploaded under a display name that, stripped, is empty or longer than 255 characters |
| StorageConservation.OrphansAreRejectedNames | careerpass-backend/app/services/candidate_preparation_service.py:68-91 | the same file by file: the files no row has are exactly those written for resumes whose name was then rejected |
| StorageConservation.RejectedNameIsForever | careerpass-backend/app/services/candidate_preparation_service.py:69-70 | such a file is never erased and never gets a row, in any continuation, crashes and cleaner batches included |
| StorageConservation.BlankNameLeavesAFile | careerpass-backend/app/services/candidate_preparation_service.py:252-256 | the concrete run: a form name of three spaces or of 256 letters, two steps, no fault, a file without a row |
| StorageConservation.StepAccounts | careerpass-backend/app/services/job_upload_service.py:78-130 | each step accounts for every file: a row has it, an upload still carries it, or its name was rejected |
| StorageConservation.NoRowIsEverRemoved | careerpass-backend/app/repositories/object_storage_repository.py:159-166 | in no run does `finalize_deletion` remove a row: the foreign key of the logically deleted resume, document or job refuses it, or the row was revived |
| StorageDecisions.BatchTakesTheOldestDue | careerpass-backend/app/repositories/object_storage_repository.py:104-157 | a cleaner batch claims the oldest rows last updated more than 3600 seconds ago that no undeleted resume, document or job and no unexpired attachment names: as many as it may, each once, with key and status; every such row left out is younger by (updated, id) |
| StorageDecisions.BatchMarks | careerpass-backend/app/repositories/object_storage_repository.py:155-157 | exactly the claimed rows become `deleting`, key and content unchanged |
| StorageDecisions.ClaimsWereDue | careerpass-backend/app/services/object_cleanup_service.py:21-36 | in every run, any claim the cleaner works on was taken from a row that was due at that moment |
| StorageDecisions.FailedEraseGivesBack | careerpass-backend/app/repositories/object_storage_repository.py:168-173 | after a failed erase the row has its status from before the claim, unless it was revived; nothing else changes |
| StorageDecisions.AttachmentOutlivesItsDocument | careerpass-backend/app/repositories/conversation_repository.py:401-424 | for 604800 seconds after a document was attached its row is ready, holds the same content and has its file on disk, in every run, whatever happens to the document |
| StorageDecisions.UploadIsAnswered | careerpass-backend/app/repositories/candidate_preparation_repository.py:49-118 | in every reachable state: a conflict iff another content (or document name) is held under the key; a replay iff the key agrees or, without the key, the content is held; otherwise exactly one new row; only the latter changes anything |
| StorageDecisions.LastDeletionFrees | careerpass-backend/app/repositories/business_resource_deletion_repository.py:96-115 | deleting the last owner of a row frees it for the cleaner, one hour after its last update, and touches nothing else |
| StorageReplay.RunKeepsUnique | careerpass-backend/app/repositories/candidate_preparation_repository.py:178-246 | per owner at most one undeleted resume, document or job per content and per idempotency key, in every run |
| StorageReplay.ReplayIsHarmless | careerpass-backend/app/repositories/candidate_preparation_repository.py:80-118 | uploading content its owner already holds changes no table and leaves only the new file to be erased |
| StorageService.ObjectDirectory.AcquireForReference | careerpass-backend/app/repositories/object_storage_repository.py:47-82 | glue: the repository method takes exactly the acquire step of the model |
| StorageService.ObjectDirectory.MakeReady | careerpass-backend/app/repositories/object_storage_repository.py:84-102 | glue: revives a dying row in place under the new key and returns the old one |
| StorageService.ObjectDirectory.ClaimExpiredUnreferenced | careerpass-backend/app/repositories/object_storage_repository.py:104-157 | claims the oldest expired unreferenced rows in one batch and marks each deleting |
| StorageService.ObjectDirectory.FinalizeDeletion | careerpass-backend/app/repositories/object_storage_repository.py:159-166 | glue: removes the row exactly when it is still deleting, unreferenced and not pinned by a foreign key |
| StorageService.ObjectDirectory.RestoreAfterDeleteFailure | careerpass-backend/app/repositories/object_storage_repository.py:168-173 | glue: puts the previous status back, or nothing when the row moved on |
| StorageService.ObjectDirectory.RunOnce | careerpass-backend/app/services/object_cleanup_service.py:21-47 | the whole batch equals claim, then erase and settle per claim; the count returned is the number of rows removed; a batch size outside 1..500 is an error and changes nothing |
| StorageService.CleanedIsTwoSteps | careerpass-backend/app/services/object_cleanup_service.py:26-46 | one turn of the cleaner loop is one disk step and one transaction of the model, so every interleaving theorem covers it |
| StorageService.ObjectDirectory.CreateResume | careerpass-backend/app/repositories/candidate_preparation_repository.py:49-78 | glue: the transaction of a resume upload, with its replay by key and by content |
| StorageService.ObjectDirectory.CreateDocument | careerpass-backend/app/repositories/candidate_preparation_repository.py:80-118 | glue: the transaction of a document upload; another name or content under the same key is rejected |
| StorageService.ObjectDirectory.CreateJob | careerpass-backend/app/services/job_upload_service.py:78-130 | glue: the transaction of a job upload, reused by content |
| StorageService.ObjectDirectory.Upload | careerpass-backend/app/services/candidate_preparation_service.py:58-96 | put, name check, transaction, then discard the unused or replaced file; a rejected resume name ends it after the put; safety and uniqueness of the tables are kept |
| StorageService.UploadConserves | careerpass-backend/app/services/candidate_preparation_service.py:58-96 | an upload left to itself, with an accepted name and a working disk, leaves no file without a row |
| TaskHistory.RunKeeps | careerpass-backend/app/repositories/async_task_repository.py:52-332 | every transaction of the protocol keeps the full invariant of tasks, resumes, profiles, jobs and snapshots |
| TaskHistory.StepKeeps | careerpass-backend/app/repositories/document_parsing_repository.py:94-170 | the same for one arbitrary transaction |
| TaskProvenance.SnapshotWasHandedIn | careerpass-backend/app/repositories/job_description_repository.py:235-280 | in every run each snapshot is the argument of an earlier terminal write for that job under the current token |
| TaskProvenance.HandedInLasts | careerpass-backend/app/repositories/job_description_repository.py:245-280 | and every such write stores exactly its snapshot, succeeds its task, changes no other snapshot or task, and lasts until the job is deleted |
| TaskProvenance.FailureHasItsReason | careerpass-backend/app/repositories/job_description_repository.py:282-302 | every failed task failed at one accepted write: its worker's own with the reason on the row, or a timeout or a recovery from 600 seconds on, with the reason reserved for them |
| TaskProvenance.GivingUpIsKept | careerpass-backend/app/repositories/document_parsing_repository.py:147-170 | a worker's accepted failure is on the row from then on, for ever, with its code or semantics |
| TaskProvenance.RunningOutIsKept | careerpass-backend/app/repositories/async_task_repository.py:282-332 | a timeout inside the lease or a recovery leaves `temporary_technical_failure` on a JD task and `internal_error` on a resume task, for ever |
| TaskProvenance.ProfileWasHandedIn | careerpass-backend/app/repositories/document_parsing_repository.py:94-145 | in every run each profile holds the facts its resume's worker handed in under the current token, and is ready iff they name a person (more than spaces), a contact, an education, and work or a project |
| TaskProvenance.HandedInProfileLasts | careerpass-backend/app/repositories/document_parsing_repository.py:116-140 | and every such write stores exactly its facts, for ever |
| TaskDecisions.ResumeHasItsUploader | careerpass-backend/app/repositories/candidate_preparation_repository.py:65-72 | every resume belongs to the candidate who uploaded it |
| TaskDecisions.JobHasItsUploader | careerpass-backend/app/services/job_upload_service.py:101-112 | every job belongs to the HR who uploaded it and is as old as that upload |
| TaskDecisions.CurrentIsNewest | careerpass-backend/app/repositories/candidate_preparation_repository.py:73-77 | the current resume is the last uploaded one, until that is deleted |
| TaskDecisions.DeleteResumeIff | careerpass-backend/app/repositories/business_resource_deletion_repository.py:53-87 | deletable iff it is the last uploaded, undeleted, not being parsed and no run was started; exactly the mark and the current resume change |
| TaskDecisions.DeleteJobIff | careerpass-backend/app/repositories/business_resource_deletion_repository.py:117-159 | deletable iff owned, undeleted, no open task in any generation and no reference; exactly the mark and the snapshot change |
| TaskDecisions.SubmitAndRetryIff | careerpass-backend/app/repositories/job_description_repository.py:76-161 | a new queued task of the next generation iff the job is owned, its file ready and every task so far failed; a retry asks for no reference besides and says whether |
| TaskDecisions.DispatchIsExclusive | careerpass-backend/app/repositories/async_task_repository.py:177-214 | from a batch until the end of its dispatch lease no other batch takes the task, unless the lease was given back or a worker returned the task |
| TaskDecisions.ReturnedIsDispatchable | careerpass-backend/app/repositories/async_task_repository.py:267-280 | a returned task waits for dispatch again, from the end of a dispatch lease still on it |
| TaskLeases.LeaseIsExclusive | careerpass-backend/app/repositories/async_task_repository.py:245-265 | from a claim until its expiry the row stays the worker's or closed and no other claim succeeds, unless the worker released |
| TaskLeases.ClaimsAreApart | careerpass-backend/app/repositories/async_task_repository.py:339-344 | of two successful claims of one task the second comes at or after the expiry of the first or after its release, under a later token |
| TaskLeases.SupersededTokensAreFenced | careerpass-backend/app/repositories/document_parsing_repository.py:172-187 | once a token is off the row, every later release, completion and failure that carries it returns false and changes nothing, for ever |
| TaskLeases.LeaseOutcome | careerpass-backend/app/repositories/job_description_repository.py:322-334 | over any run a lease is either still held with its own expiry or superseded |
| TaskLeases.ClosedForever | careerpass-backend/app/repositories/async_task_repository.py:282-332 | terminal rows never change again |
| TaskLeases.RowMoves | careerpass-backend/app/repositories/async_task_repository.py:216-280 | everything one transaction can do to an existing row |
| TaskLeases.TimeoutClosesOwnLeaseIff | careerpass-backend/app/repositories/async_task_repository.py:282-304 | a worker's timeout handler that succeeds closes the worker's own lease exactly when it runs before that lease's expiry |
| TaskLeases.TimeoutSafeIff | careerpass-backend/app/core/config.py:56-60 | with the handler anywhere between the soft and the hard limit: a worker that still has its lease never closes another's, in any run, if and only if the hard limit does not exceed the execution lease |
| TaskLeases.SoftLimitBelowLeaseIsNotEnough | careerpass-backend/app/core/config.py:115 | soft 179, lease 180, hard 300 is a permitted setting and unsafe |
| TaskLeases.LateTimeoutHappens | careerpass-backend/app/infrastructure/tasks/worker.py:207-214 | for every hard limit above the lease and every soft limit below it, a concrete run in which the handler closes another worker's lease |
| TaskLeases.ReleasedWorkerIsNeverSafe | careerpass-backend/app/infrastructure/tasks/worker.py:254-263 | under every setting, a concrete run in which a worker interrupted after it gave its lease back closes another worker's lease |
| TaskFacts.ParsingIsCoupled | careerpass-backend/app/repositories/document_parsing_repository.py:94-170 | open means processing, succeeded means succeeded with exactly one profile, failed means failed with the same code and no profile; a deleted resume is not open |
| TaskFacts.CurrentTokenWrites | careerpass-backend/app/repositories/document_parsing_repository.py:107-116 | with a current token the further early returns of complete and fail are unreachable |
| TaskFacts.ChecksHold | careerpass-backend/alembic/versions/20260815_0008_s03_failure_constraint.py:19-26 | no step breaks the finish, failure and generation CHECKs or the unique idempotency key |
| TaskFacts.OneResumeTask | careerpass-backend/app/repositories/async_task_repository.py:52-110 | no resume ever has two parsing tasks |
| TaskFacts.GenerationsAreContiguous | careerpass-backend/app/repositories/job_description_repository.py:76-161 | the generations of a job are 1..m without gaps, all but the last failed, and ordering by creation time picks the same last one |
| TaskHistory.LastCreatedIsLatest | careerpass-backend/app/repositories/business_resource_deletion_repository.py:131-142 | `delete_job` orders by creation time, the other queries by generation; in reachable states they agree |
| TaskFacts.SnapshotIffSucceeded | careerpass-backend/app/repositories/job_description_repository.py:235-302 | a job has a snapshot exactly when it is undeleted and its last task succeeded |
| TaskFacts.UndispatchedIsClaimable | careerpass-backend/app/repositories/async_task_repository.py:177-214 | an undispatched queued task is claimable exactly from the expiry of its dispatch lease on |
| TaskFacts.BatchIsOldestPrefix | careerpass-backend/app/repositories/async_task_repository.py:190-199 | a batch is the oldest eligible prefix: right size, no repetition, everything left out is younger |
| TaskDecisions.BatchTakesTheOldest | careerpass-backend/app/repositories/async_task_repository.py:190-199 | the same with every condition written out: queued, unconfirmed, no running dispatch lease, oldest by (created, id) |
| TaskFacts.DispatchedWasPublished | careerpass-backend/app/repositories/async_task_repository.py:216-229 | `dispatched_at` implies a publication of that task |
| TaskFacts.CeleryIdIsStable | careerpass-backend/app/repositories/async_task_repository.py:202-206 | a Celery id is never replaced |
| TaskFacts.RecoveryClosesIff | careerpass-backend/app/repositories/async_task_repository.py:306-332 | a recovery pass closes a running task exactly when it started 600 seconds ago or earlier, and never a live lease |
| TaskFacts.ConfirmedWaitsForDelivery | careerpass-backend/app/infrastructure/tasks/dispatcher.py:57-75 | a queued task with a confirmed publication is changed by nothing but a delivery |
| TaskRepository.TaskTables.ClaimDispatchBatch | careerpass-backend/app/repositories/async_task_repository.py:177-214 | the claiming loop equals the model's batch claim |
| TaskRepository.TaskTables.Confirm | careerpass-backend/app/repositories/async_task_repository.py:216-229 | glue: confirms only for the holder of the dispatch token |
| TaskRepository.TaskTables.Release | careerpass-backend/app/repositories/async_task_repository.py:231-243 | glue: releases only for the holder of the dispatch token |
| TaskRepository.TaskTables.Claim | careerpass-backend/app/repositories/async_task_repository.py:245-265 | glue: claims a queued or expired row under a new token |
| TaskRepository.TaskTables.ReleaseExecution | careerpass-backend/app/repositories/async_task_repository.py:267-280 | glue: returns the row to the queue for the holder of the execution token |
| TaskRepository.TaskTables.FailExecutionAfterTimeout | careerpass-backend/app/repositories/async_task_repository.py:282-304 | glue: closes whatever unexpired lease it finds, with its resume |
| TaskRepository.TaskTables.FailStalledTasks | careerpass-backend/app/repositories/async_task_repository.py:306-332 | the loop closes every stalled task and its resume, in any order, and counts them |
| TaskRepository.TaskTables.UploadResumeRow | careerpass-backend/app/repositories/async_task_repository.py:52-110 | glue: the resume, its current mark and its task in one transaction |
| TaskRepository.TaskTables.UploadJobRow | careerpass-backend/app/repositories/async_task_repository.py:112-175 | glue: the job and its first task in one transaction |
| TaskRepository.TaskTables.CreateOrGetQueuedTask | careerpass-backend/app/repositories/job_description_repository.py:76-128 | glue: a new generation only after none or a failed one |
| TaskRepository.TaskTables.RetryFailedTask | careerpass-backend/app/repositories/job_description_repository.py:130-161 | glue: a new generation only for an owned, failed, unmatched job |
| TaskRepository.TaskTables.CompleteResumeExecution | careerpass-backend/app/repositories/document_parsing_repository.py:94-145 | glue: profile, resume and task in one write |
| TaskRepository.TaskTables.FailResumeExecution | careerpass-backend/app/repositories/document_parsing_repository.py:147-170 | glue: resume and task fail with one code |
| TaskRepository.TaskTables.CompleteJobExecution | careerpass-backend/app/repositories/job_description_repository.py:235-280 | glue: snapshot and task in one write |
| TaskRepository.TaskTables.FailJobExecution | careerpass-backend/app/repositories/job_description_repository.py:282-302 | glue: the task fails with its semantics |
| TaskRepository.TaskTables.DeleteResumeRow | careerpass-backend/app/repositories/business_resource_deletion_repository.py:53-87 | glue: logical deletion behind its guards |
| TaskRepository.TaskTables.DeleteJobRow | careerpass-backend/app/repositories/business_resource_deletion_repository.py:117-159 | glue: logical deletion behind its guards, snapshot removed |
| TaskRepository.TaskTables.DispatchOnce | careerpass-backend/app/infrastructure/tasks/dispatcher.py:41-75 | claim a batch, then publish and confirm or release each lease |
| TaskRepository.PassSettlesEveryLease | careerpass-backend/app/infrastructure/tasks/dispatcher.py:57-75 | after an undisturbed pass every leased task is confirmed with its publication recorded, or claimable again at once |
| TaskRepository.TaskTables.ProcessResume | careerpass-backend/app/services/resume_parse_worker_service.py:56-98 | a claimed delivery nobody disturbs always ends with its write accepted, even past its lease: succeeded, failed or queued for retry |
| TaskFrame.SnapshotIsFrozen | careerpass-backend/app/repositories/job_description_repository.py:235-280 | a snapshot, once there, changes by nothing but the deletion of its job |
| TaskFrame.ParsedResumesRemain | careerpass-backend/app/repositories/business_resource_deletion_repository.py:72-85 | a parsed resume changes by nothing but its deletion before any run |
| Readiness.LatestTasks | careerpass-backend/app/repositories/agent_run_repository.py:150-166 | the `setdefault` loop finds the latest task of every job |
| Readiness.GetJobReadiness | careerpass-backend/app/repositories/agent_run_repository.py:138-180 | the counting loop over unordered rows |
| Readiness.LoadJobInputs | careerpass-backend/app/repositories/matching_repository.py:111-162 | the counting loop of matching, and its first twenty eligible jobs by age |
| Readiness.ReadinessAddsUp | careerpass-backend/app/repositories/matching_repository.py:140-162 | active = eligible + pending + failed, eligible jobs are exactly those with a snapshot, for the counts that both routines return |
| TaskDecisions.CountsMean | careerpass-backend/app/repositories/matching_repository.py:140-162 | in every reachable state: eligible counts the snapshots, pending the undeleted jobs with an open task, failed those all of whose tasks failed |
| TaskDecisions.InputsAreTheOldest | careerpass-backend/app/repositories/matching_repository.py:111-162 | the round reads the oldest jobs with a snapshot by (created, id), at most twenty |
| AgentInvariant.TraceKeeps | careerpass-backend/app/services/matching_service.py:17-45 | the global invariant over goals, runs, matches, applications, conversations and events |
| AgentTheorems.MatchedJobIsFrozen | careerpass-backend/app/repositories/business_resource_deletion_repository.py:143-151 | a job with a match stays undeleted with an unchanged snapshot for ever |
| AgentTheorems.RunBasisIsFrozen | careerpass-backend/app/repositories/business_resource_deletion_repository.py:72-80 | a run's resume and profile are never deleted, the terms of its goal never change, a finished run never changes |
| AgentTheorems.ListsAreComplete | careerpass-backend/app/repositories/application_repository.py:48-87 | the inner joins of the candidate list and of the HR list drop no application |
| AgentVisibility.OlderRunsAreInvisible | careerpass-backend/app/repositories/application_repository.py:48-79 | from the moment a newer run exists, whoever's it is, no HR sees an application of the older run and every update of one is not found, for ever |
| AgentVisibility.StartHidesEveryRun | careerpass-backend/app/repositories/application_repository.py:95-134 | a run just started hides the runs of all candidates |
| AgentVisibility.HiddenAppsAreFrozen | careerpass-backend/app/services/application_service.py:46-86 | the applications of a hidden run keep their status for ever |
| AgentVisibility.HiddenRunNeverReaches | careerpass-backend/app/repositories/application_repository.py:148-158 | a run short of its offer target when a newer run appears never reaches it |
| AgentTheorems.NeverRestarted | careerpass-backend/app/services/agent_run_service.py:52-78 | a candidate never gets a second run: the restart the code tries is rejected exactly when its own guard lets it through |
| AgentTheorems.OneRun | careerpass-backend/alembic/versions/20260817_0012_s07_agent_runs.py:33 | one run per candidate |
| AgentTheorems.OffersAddUp | careerpass-backend/app/repositories/application_repository.py:148-194 | a running run has fewer offers than its target; a goal is achieved exactly when its run reached the target; a no-match run has no application |
| AgentTheorems.FinishesAtTheTarget | careerpass-backend/app/services/application_service.py:46-86 | the update that finishes a run is an offer and makes the count equal to the target |
| AgentRounds.RoundIsComplete | careerpass-backend/app/services/matching_service.py:17-45 | after a round every job it read has its match, and either there is an application or the run ended without match |
| AgentRounds.SecondRoundChangesNothing | careerpass-backend/app/services/matching_service.py:17-45 | a second round over unchanged jobs changes nothing, whatever its verdicts |
| AgentRounds.VerdictDecides | careerpass-backend/app/repositories/matching_repository.py:169-241 | a new match carries the verdict; a suitable job gets application, creation event and conversation with it |
| AgentRounds.RecordsCorrespond | careerpass-backend/app/repositories/matching_repository.py:189-241 | one match per run and job, never left `matched`; created matches, applications, conversations and creation events are in bijection |
| AgentRounds.ProgressIsAChain | careerpass-backend/app/services/application_service.py:61-97 | an application's events run from nothing over submitted to its status, strictly rising, closed by offer or terminated, at most eight |
| AgentRounds.LogOnlyGrows | careerpass-backend/app/repositories/application_repository.py:160-180 | the event table is append-only |
| AgentDecisions.StatusUpdateIff | careerpass-backend/app/services/application_service.py:46-97 | in every reachable state: not found iff the application is not of the newest run or not for this HR's job; changed iff the status is neither offer nor terminated and the new one is terminated or comes later in the order; otherwise unchanged or a conflict, and nothing changes; a change sets exactly the status and adds one event |
| AgentDecisions.UpdateFinishesIff | careerpass-backend/app/services/application_service.py:78-86 | run and goal finish iff the change is an offer by which the offers of a running run reach the target; no other run or goal changes |
| AgentDecisions.GoalIsSavedIff | careerpass-backend/app/services/job_goal_service.py:26-41 | the goal can be saved exactly until the candidate has a run; a save leaves one active goal of exactly these terms |
| AgentDecisions.StartsIff | careerpass-backend/app/services/agent_run_service.py:52-104 | a candidate without a run gets one iff there is a goal, the last uploaded resume is undeleted with a profile that may match, and some job has a snapshot; the run is on exactly these |
| AgentDecisions.StartAgainIff | careerpass-backend/app/services/agent_run_service.py:52-78 | a second start hands the run back, or, iff it ended without a match and a run might start, tries the restart and is rejected; nothing changes |
| AgentDecisions.RoundDecides | careerpass-backend/app/services/matching_service.py:17-45 | a round does nothing unless the run is the candidate's and running; it adds matches of this run for jobs it read only, each with the status of its verdict |
| AgentDecisions.RoundReadsTheOldest | careerpass-backend/app/repositories/matching_repository.py:111-162 | what a round reads, in every reachable state of the whole flow |
| AgentRounds.OffersAreLogged | careerpass-backend/app/repositories/application_repository.py:148-158 | a run's offer count is the number of its events that reach offer |
| AgentService.AgentTables.SaveCurrent | careerpass-backend/app/services/job_goal_service.py:26-41 | glue: the goal is saved only while no run exists and the goal is active |
| AgentService.AgentTables.Prepared | careerpass-backend/app/services/agent_run_service.py:95-104 | glue: the start prerequisites over the locked rows |
| AgentService.AgentTables.Start | careerpass-backend/app/services/agent_run_service.py:52-78 | glue: the first transaction of `start` |
| AgentService.AgentTables.EnsureApp | careerpass-backend/app/repositories/matching_repository.py:189-229 | glue: application, event and match status in one step, idempotent |
| AgentService.AgentTables.MatchOne | careerpass-backend/app/services/matching_service.py:25-39 | glue: one turn of the matching loop |
| AgentService.AgentTables.ExecuteRound | careerpass-backend/app/services/matching_service.py:17-45 | the matching round |
| AgentService.AgentTables.Update | careerpass-backend/app/services/application_service.py:46-86 | glue: the status update with its event and its offer accounting |
| ChatInvariant.StoryKeeps | careerpass-backend/app/services/conversation_service.py:191-440 | the invariant over messages, turns, attachments and calls in flight |
| ChatTheorems.AtMostOneReply | careerpass-backend/app/repositories/conversation_repository.py:288-378 | one HR message per client id, one turn per HR message, every agent message the result of exactly one turn, exactly one attachment per `attachment_sent` turn |
| ChatTheorems.InserterAnswersAlone | careerpass-backend/app/services/conversation_service.py:318-344 | the inserting call is alone with its unfinished turn, so its write always takes effect and completes it |
| ChatTheorems.OnlyInsertMakesBusy | careerpass-backend/app/services/conversation_service.py:227-262 | only the insert of a new turn makes a call run the responder or deliver |
| ChatTheorems.ResultsAreFinal | careerpass-backend/app/repositories/conversation_repository.py:348-378 | a turn keeps its result message for ever |
| ChatDecisions.AnswerDecides | careerpass-backend/app/services/conversation_service.py:318-490 | the last transaction of a call in every story: a judgement completes turn and question with stop iff the text only affirms and the clause excludes, or only denies and it does not, with continue in the other two clear cases, each by one message; otherwise the question waits on without one; a delivery attaches the resolved document or says there is none; any other turn gets one message |
| ChatDecisions.JudgedAgainstTheQuestion | careerpass-backend/app/services/conversation_service.py:112-151 | an answer is judged against the very condition that was asked in its conversation, whatever happened in between |
| ChatDecisions.InsertDecides | careerpass-backend/app/services/conversation_service.py:238-262 | the insert loses the race iff a message of this client id is there; otherwise message and turn are added, for the waiting question if there is one, else a wanted document, else the resume |
| ChatDecisions.LookDecides | careerpass-backend/app/services/conversation_service.py:209-237 | the first read: turned away, watching or returning for a known client id, or going on to insert; it writes nothing |
| ChatDecisions.ContextIff | careerpass-backend/app/repositories/conversation_repository.py:112-135 | `get_for_hr` finds the context iff the conversation is the application's and the job this HR's: its other joins turn nobody away |
| ChatDecisions.PollDecides | careerpass-backend/app/services/conversation_service.py:422-440 | a watching call stays exactly while the turn is in progress |
| ChatDecisions.RecoverDecides | careerpass-backend/app/services/conversation_service.py:409-420 | a failed delivery fails its open turn and keeps every message |
| ChatDecisions.AskDecides | careerpass-backend/app/services/conversation_service.py:112-151 | a proactive request asks iff it is in context, the goal leaves a gap and nothing was asked before; then one waiting question with one message |
| ChatDecisions.GapDecides | careerpass-backend/app/services/s10_03_goal_communication.py:33-45 | in every story the gap of an application is that of its run's goal against its job's JD, and none once the run has reached its offer target |
| ChatDecisions.TalkingTouchesNoFlow | careerpass-backend/app/services/conversation_service.py:191-262 | no move of a conversation changes the agent flow or the parsing tables |
| ChatTheorems.OneQuestionPerConversation | careerpass-backend/app/services/conversation_service.py:112-151 | at most one proactive goal question per conversation |
| ChatTheorems.AskingAgainChangesNothing | careerpass-backend/app/services/conversation_service.py:126-151 | a further proactive request changes nothing |
| ChatInvariant.QuestionIsFrozen | careerpass-backend/app/services/s10_03_goal_communication.py:33-82 | the question between goal and job never changes once an application exists |
| ChatService.ConversationTables.InsertInbound | careerpass-backend/app/repositories/conversation_repository.py:288-326 | glue: message and turn in one step; a unique violation sends the call back to read |
| ChatService.ConversationTables.AddMessage | careerpass-backend/app/repositories/conversation_repository.py:348-378 | glue: the agent message and its turn |
| ChatService.ConversationTables.JudgeAnswer | careerpass-backend/app/services/conversation_service.py:442-490 | glue: the judgement of a binary answer against the pending question |
| ChatService.ConversationTables.AnswerFor | careerpass-backend/app/services/conversation_service.py:318-420 | glue: the last transaction of a call, by scene |
| ChatService.ConversationTables.LookFor | careerpass-backend/app/services/conversation_service.py:209-237 | glue: the read of the first transaction: replay, watch or insert |
| ChatService.ConversationTables.RecoverFrom | careerpass-backend/app/services/conversation_service.py:409-420 | glue: the failure handler of a delivery closes an unfinished turn only |
| ChatService.ConversationTables.StartQuery | careerpass-backend/app/services/conversation_service.py:112-151 | glue: the proactive question |
| GoalGap.FindGoalConditionGap | careerpass-backend/app/services/s10_03_goal_communication.py:33-82 | the gap of the first clause that is not settled; none exactly when all are |
| GoalGap.GapOfTheFirstClause | careerpass-backend/app/services/s10_03_goal_communication.py:33-82 | the gap is that of the first clause that leaves one; none iff no clause does or the goal is not active |
| GoalGap.ClauseGapIff | careerpass-backend/app/services/s10_03_goal_communication.py:45-82 | a clause leaves a gap iff matching has not settled it, a condition is left of it and the JD does not confirm it; the gap stops on a yes iff the clause excludes |
| GoalGap.ClausesSplit | careerpass-backend/app/services/s10_03_goal_communication.py:118-119 | a separator splits the clauses into those before and those after |
| GoalGap.OneClause | careerpass-backend/app/services/s10_03_goal_communication.py:118-119 | a text without separators is one stripped clause, or none when blank |
| GoalGap.RemoveFirst | careerpass-backend/app/services/s10_03_goal_communication.py:126-131 | `replace` drops the first occurrence and treats the rest alike |
| GoalGap.ConditionIs | careerpass-backend/app/services/s10_03_goal_communication.py:126-131 | the condition of a clause is what is left between the trimmable ends once the words of preference are gone, when that is two characters or more |
| GoalGap.TrimBothIs | careerpass-backend/app/services/s10_03_goal_communication.py:130 | `strip(chars)` leaves the part between the trimmable ends |
| Experience.DeriveYearsOfExperience | careerpass-backend/app/schemas/document_parsing.py:183-215 | sort, merge and sum give the phrase for the number of distinct covered months |
| Experience.TextCountsTheMonths | careerpass-backend/app/schemas/document_parsing.py:183-215 | "unknown" iff no month was worked, otherwise the phrase for the number of months worked: work entries only, both months included, "present" meaning today |
| Experience.Merge | careerpass-backend/app/schemas/document_parsing.py:205-211 | the in-place merge: disjoint non-adjacent intervals covering the same months |
| Experience.ApartTotal | careerpass-backend/app/schemas/document_parsing.py:212 | the sum over merged intervals is the number of distinct months |
| Experience.IntervalsCover | careerpass-backend/app/schemas/document_parsing.py:190-201 | those are exactly the months covered by valid work entries |
| Experience.OrderDoesNotMatter | careerpass-backend/app/schemas/document_parsing.py:205 | order and repetition of entries are irrelevant |
| Experience.MonthReadsBack | careerpass-backend/app/schemas/document_parsing.py:218-222 | a `YYYY-MM` text is read back as its month index exactly when the month is 1..12 |
| ExperienceLevel.LevelOfExperience | careerpass-backend/app/services/matching_algorithm_v0_1.py:221-245 | low up to 29 months, middle from 30 to 65 or unknown, high from 66, through the text and its regular expressions |
| ExperienceLevel.SearchIsLeftmost | careerpass-backend/app/services/matching_algorithm_v0_1.py:240-245 | `re.search` reads the leftmost measure, if there is one |
| MatchScore.ScoresInRange | careerpass-backend/app/services/matching_algorithm_v0_1.py:100-134 | all scores in 0..100, matched iff the total is at least 60, the total within half a hundredth of the weighted sum |
| MatchScore.HighlightNeverHurts | careerpass-backend/app/services/matching_algorithm_v0_1.py:263-284 | one more project highlight never lowers the rounded total and never undoes a match |
| MatchInsertion.InsertionNeverHurtsIff | careerpass-backend/app/services/matching_algorithm_v0_1.py:277-284 | no text put between two parts of a list can cost a skill if and only if the joined list shows no skill that neither part shows |
| MatchInsertion.CoverageNeverFallsIff | careerpass-backend/app/services/matching_algorithm_v0_1.py:263-274 | no text can lower the coverage if and only if every required skill of the joined list is in one of the parts |
| MatchInsertion.SkillScoreNeverFallsIff | careerpass-backend/app/services/matching_algorithm_v0_1.py:263-274 | the same for a candidate, for every list of the evidence and every position |
| MatchInsertion.TotalNeverFallsIff | careerpass-backend/app/services/matching_algorithm_v0_1.py:100-134 | the same for the rounded total of a scored job, for the five lists the role score does not read |
| MatchInsertion.MatchSurvivesIff | careerpass-backend/app/services/matching_algorithm_v0_1.py:121-122 | every text at a position leaves the job matched if and only if the total with the skills of the two parts alone reaches 60 |
| MatchInsertion.AnotherSkillLosesTheMatch | careerpass-backend/app/services/matching_algorithm_v0_1.py:277-284 | a concrete candidate and job through `evaluate`: one more skill takes the total from at least 68 to at most 53 and the match away |
| MatchInsertion.TokensAreClean | careerpass-backend/app/services/matching_algorithm_v0_1.py:82-97 | no normalised alias holds a `#` or fewer than two characters |
| MatchScore.CandidateLevelIff | careerpass-backend/app/services/matching_algorithm_v0_1.py:221-227 | the level of a candidate with a derived history: level words first, the higher ones before the lower, then low up to 29 months, middle from 30 to 65 or unknown, high from 66 |
| MatchScore.CollectSkills | careerpass-backend/app/services/matching_algorithm_v0_1.py:277-284 | the loop over the alias table |
| MatchScore.CoverageInRange | careerpass-backend/app/services/matching_algorithm_v0_1.py:263-274 | the share of required skills is in 0..100 and 100 exactly when all are available |
| MatchScore.CoverageIsTheShare | careerpass-backend/app/services/matching_algorithm_v0_1.py:263-274 | coverage times the number of required skills is 100 times the number available |
| MatchScore.RoleScoreIff | careerpass-backend/app/services/matching_algorithm_v0_1.py:195-208 | when the role score is 0, 40, 80 or 100 |
| MatchScore.JobLevelIff | careerpass-backend/app/services/matching_algorithm_v0_1.py:211-218 | level words first, the higher before the lower, then the years: up to two, up to five, more |
| MatchScore.LevelScoreIff | careerpass-backend/app/services/matching_algorithm_v0_1.py:254-260 | 100 for equal levels, 60 for neighbours, 0 for low against high, symmetric |
| MatchScore.TotalIsWeighted | careerpass-backend/app/services/matching_algorithm_v0_1.py:100-134 | scored iff no filter applies, the filters in order; the total within half a hundredth of 0.35 role + 0.25 level + 0.4 skill; matched iff at least 60 |
| BinaryAnswer.ParseBinaryAnswer | careerpass-backend/app/services/s10_03_goal_communication.py:85-99 | a value exactly when some yes-token occurs and all occurrences share one polarity; that polarity; the first longest token |
| BinaryAnswer.HasAffirmedMatch | careerpass-backend/app/services/s10_03_goal_communication.py:89-91 | the scan of non-overlapping matches finds an occurrence not preceded by 不 iff there is one |
| BinaryAnswer.SpacesDoNotMatter | careerpass-backend/app/services/s10_03_goal_communication.py:87 | whitespace anywhere is irrelevant |
| JobDescription.Sections | careerpass-backend/app/parsers/job_description.py:107-124 | the sectioning loop |
| JobDescription.SectionsAreTheTokens | careerpass-backend/app/parsers/job_description.py:107-130 | the sections hold exactly the headings and lines of the text, in order |
| JobDescription.NothingLostOrInvented | careerpass-backend/app/parsers/job_description.py:107-130 | the bodies are the trimmed non-blank non-heading lines after the first heading; orders 0..n-1 |
| JobDescription.TokensDetermineSections | careerpass-backend/app/parsers/job_description.py:127-130 | no two section lists hold the same tokens |
| JobDescription.ParseOfPrint | careerpass-backend/app/parsers/job_description.py:107-130 | printing canonical sections and parsing the text is the identity |
| JobDescription.HeadingReadsBack | careerpass-backend/app/parsers/job_description.py:40 | a canonical heading is read back by the heading pattern |
| JobDescription.HeadingIff | careerpass-backend/app/parsers/job_description.py:40 | the heading pattern matches exactly the lines that split into at most three spaces, one to six hashes, at least one space and a non-empty rest |
| JobDescription.ContentIsShortest | careerpass-backend/app/parsers/job_description.py:40 | the lazy content is the shortest one the closing tail leaves over |
| JobDescription.ClosingTailIff | careerpass-backend/app/parsers/job_description.py:40 | the closing tail is spaces, hashes, spaces |
| JobDescription.HeadingText | careerpass-backend/app/parsers/job_description.py:40 | for every split of a line: the heading is the stripped content up to the first later position from which only spaces, hashes and spaces follow |
| JobDescription.HeadingReads | careerpass-backend/app/parsers/job_description.py:117-120 | what any line reads as: no heading without a split, else such a content or the empty text |
| JobDescription.EmptyHeading | careerpass-backend/app/parsers/job_description.py:40 | when only spaces follow the hashes, at least two, the heading is empty |
| JobDescription.ClosedHeading | careerpass-backend/app/parsers/job_description.py:40 | a closed heading is read without its hashes |
| JobDescription.HashIsLost | careerpass-backend/app/parsers/job_description.py:40 | a name that ends in a hash loses it |
| JobFields.ParseJobDescription | careerpass-backend/app/parsers/job_description.py:61-104 | a result iff no heading is blank and every core field is supplied; each field is its last supplier; the missing list is the core fields filtered in order |
| JobFields.TitleTrapIff | careerpass-backend/app/parsers/job_description.py:68-77 | exactly when the missing check lets an absent title through |
| JobFields.OtherFieldsAgree | careerpass-backend/app/parsers/job_description.py:75-77 | for the other fields check and assignment agree |
| JobFields.TitleTrap | careerpass-backend/app/parsers/job_description.py:68-77 | concrete sections that pass the check without a title |
| JobFields.ParseTrap | careerpass-backend/app/parsers/job_description.py:61-98 | a concrete text of four lines through the parser: neither a result nor the parser's own error |
| Common.OrderedIsUnique | careerpass-backend/app/repositories/matching_repository.py:114-127 | an ordered listing is determined by its rank |

## Left out

- `debug_reset_repository` and its service: a second claimer that may overlap the cleaner, and a reset of rows the run theorems count.
- Locks and isolation below transactions. Transactions are serial; only `send_message` is split between its read and its insert, so that the lost race on the unique constraint is covered.
- A bound on the number of executions of a task: Celery retries and republication both run.
- That a completed goal query stays completed under concurrent answers: `_judge_goal_answer` does not look at the query's status again, and the model does as the code does.
- Celery, Redis, MCP, HTTP, MinerU and Qwen adapters; what they answer is an arbitrary input of the step that uses it. The broker may lose, delay or repeat deliveries.
- JWT, password hashing, SHA-256 and UUID internals.
- Message texts, file names of jobs, MIME types and sizes, upload validation, audit rows, `failure_reason` and `missing_core_fields` columns.
- The intent detection and the choice among candidate documents: the request says whether a document is wanted, the step which one was resolved.
- The parsing of goal filters in matching and the title similarity: three booleans of `MatchScore.Inputs`.
- The wording of `recommendation_reason` and the stored input snapshot of a match.
- A COMMIT that succeeds although its connection reports an error: an exception in a transaction rolls it back.
- MatchInsertion.TotalNeverFallsIff: for the experience titles and summaries, which the role score and the level read too, the skill score is covered (`SkillScoreNeverFallsIff`), the total is not.
- MatchScore.CaseFold: folds ASCII and full-width letters only; scores are real numbers, so binary rounding is not modelled.
- Text.IsDigit: decimal digits are the ASCII ones.
- JobFields.ParseJobDescription: gives the section of each field, not its items or salary numbers, and starts from decoded text; a text is a sequence of characters.
- ExperienceLevel.LevelOfExperience: the level from the derived years alone; with level words it is `MatchScore.CandidateLevelIff`.
- `validate_month`, `consolidate_explicit_skills` and the other field validators: the entries are the validated ones.
- StorageService.ObjectDirectory.Upload: one upload left to itself; uploads that interleave are the runs of the transition system.
- TaskRepository.TaskTables.ProcessResume: one delivery left to itself; deliveries that interleave are the runs of the transition system.
- The status of attachments that were downloaded too late, and downloads themselves.
- Routes, schemas, logging and the frontend.
