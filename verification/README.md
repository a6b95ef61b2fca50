# A verified model of the student marketplace backend

This project models, in Dafny, the moderation queue of a NestJS marketplace backend and the parts
of its listing, conversation and cookie code that hold an algorithm or an invariant, and proves what
they guarantee. `dafny verify dfyconfig.toml` checks everything.

## What is modelled

**The moderation protocol.** Sellers create and edit listings; every change of moderated content
enqueues a job; workers claim jobs, load the listing, ask the AI service, write an audit row, perhaps
approve the listing, and report back to the queue; stale jobs are recovered; administrators approve,
reject and rerun; listings are deleted. `Protocol` is one transition system over all of that. A state
holds the tables, the clock and the program counter of every worker loop and every request; an action
is one committed database statement, one statement that throws, one answer of the AI service, a crash,
or the passing of time. Any number of workers and requests interleave freely, and every sequence of
actions is a run, so a lemma about `Exec(Init(t), run)` is about all interleavings.

| module | contents |
|---|---|
| `Options`, `Sets`, `Text` | optional values and results; sizes of sets; `trim` and `toLowerCase` |
| `JobQueue` | the job row and each SQL statement of the queue as a function on the table |
| `QueueStatements` | what the statements of the queue do to its rows, field by field and in plain numbers |
| `Moderation` | content, edits, verdicts, audit rows, the test for auto-approval |
| `Protocol` | the transition system and its runs |
| `Fencing` | what every run keeps; permanent fencing of superseded tokens |
| `TokenExclusion` | one live token per running job, and exactly when |
| `Attempts` | the attempt bound, the end of every retry chain, the delays that occur, over every run |
| `Lease` | a report within 90 s is applied, exactly if the worker has its row to itself; and 90 s is exact |
| `NoLostEdit` | a COMPLETED job vouches for the present content, and exactly which edits break that |
| `Approval` | the evidence behind every APPROVED, and exactly which edits take it away |
| `FailedRuns` | what a run of the workflow that ends in an error has done to its listing |
| `Fairness` | bounded overtaking and the number of polls a due job waits |
| `Passages`, `Traces` | concrete runs that show which interleavings the guarantees do not survive |
| `AttemptTraces` | runs that reach the attempt bound |
| `Database` | the shared tables as a mutable object; each method is one awaited statement |
| `Histories` | what a call has passed, won and lost in the history of the tables |
| `Services` | the job, workflow and worker services, statement by statement |
| `Requests` | the listing and administration requests that write listings and queue them |
| `ListingUpdate`, `ListingImages`, `ListingQuery` | remoderation, image reconciliation, query compilation |
| `SlugSearch` | the slug-probing loops of the service and of the seed script |
| `Conversations`, `MessagePages` | unread counts, identity of conversations, pages of messages |
| `Cookies` | cookie extraction from a header |

`Database.Db` carries a ghost history, and its `Valid()` says that the tables are exactly where that
history leads in `Protocol`. The services run on it with arbitrary other processes at every `await` and
with statements that may throw, and append their statements to it one by one; their ghost results list
the phases that a worker has gone through. So a theorem about runs is a theorem about the history of the
services wherever that history meets its condition; `Services.AcceptedTokens` is an instance.

A claim is the three statements `Select`, `CompareAndSwap` and `Reread`, which others may interleave, and
every theorem takes it so. The attempt bound, the end of retries and the delays hold over every run, with
no condition: they count the workers that an enqueue write catches between a compare-and-set and its
re-read. Token exclusion needs that no enqueue write and no recovery comes there (`TokenExclusion.Whole`),
and the lease needs that no second worker owns the row when it is claimed (`Lease.Alone`); both conditions
are exact (`TokenExclusion.WholeExactly`, `Lease.LeaseExactly`). The steps `SwapAndReread` and `Claim`, which
the traces use, are the same statements with nothing in between (`TokenExclusion.ClaimIsThreeStatements`).

## What the proofs found

* The re-read after the compare-and-set takes whatever revision is there by then, so an enqueue
  between the two leaves two workers with accepted tokens (`Traces.TwoLiveTokens`). Such a token may
  count 0 attempts, and that is the only way in which the last backoff entry, 60 s, is ever drawn
  (`Attempts.BackoffApplied`); the other delays are 15 s and 30 s.
* `docs/AI_MODERATION.md:52-53` promises up to 3 retries, for TIMEOUT and PROVIDER errors only. The
  code makes at most 3 attempts, that is 2 retries, per enqueue, plus one attempt for every recovery and
  one for every worker that the enqueue has caught in the middle of a claim (`Attempts.AttemptBound`,
  reached for all numbers of both by `AttemptTraces.AttemptsReached`: a fourth attempt needs no recovery).
  And an exception that leaves the workflow is retried whatever it was.
* The same document promises (lines 54-57) that after a provider error, a timeout or an answer that
  does not parse, the listing stays PENDING and an ERROR row is written. Such a run leaves the listing
  alone and writes the row (`FailedRuns.FailedAnswerLeavesListings`, `FailedRuns.FaultIsRecorded`).
  Of other errors the document says nothing: when the notification that follows an approval throws, the
  listing is APPROVED beside an ERROR row and a FAILED job (`Traces.ApprovedButFailed`), and no other
  statement that throws leaves an approval behind it (`FailedRuns.FaultAfterApproval`).
* The fence protects the job row and not the listing: an edit or a rejection during the evaluation is
  overwritten by APPROVED (`Traces.OverlappingEdit`, `Traces.RejectionOverwritten`). Which edits lead to
  an approval without evidence is exact in `Approval.ClearsExactly` and `Approval.UnclearedWriteApproved`.
* `update` decides about moderation on the row it read before its write. Two interleaved edits can
  therefore leave content that was never judged on an APPROVED listing whose job is COMPLETED
  (`Traces.InterleavedEdits`). Which writes do so is exact in `NoLostEdit.SparesExactly` and
  `NoLostEdit.UnsparedWriteLoses`.
* An image whose URL the seller keeps can lose its stored asset (`ListingImages.KeptUrlLosesAsset`),
  exactly when another old row had the same asset under a URL that goes
  (`ListingImages.KeptUrlKeepsAsset`). Two overlapping updates can also leave a stored row on a destroyed
  asset (`ListingImages.OverlapLosesAsset`), exactly when the one that commits last names an asset that
  the other drops (`ListingImages.OverlapExactly`).
* A select that comes before a retry and a compare-and-set that comes after it jump the backoff
  (`Traces.EarlyClaim`). Such a retry, and a timestamp from before the waiting job fell due, are exactly
  what lets another job get ahead of it (`Fairness.TurnsExactly`).
* Two conversations of the same people become indistinguishable when both their listings are deleted
  (`Conversations.OrphansCollide`).

## Model

| member | source | states |
|---|---|---|
| Fencing.RunSound | src/modules/ai/listing-moderation-job.service.ts:33-229 | in every reachable state job rows belong to existing listings, and no worker's token is ahead of the revision of its row |
| Fencing.RunGrows | src/modules/ai/listing-moderation-job.service.ts:55-64 | over any run the clock and every revision only rise, and a job row lives as long as its listing |
| Fencing.SupersededBy | src/modules/ai/listing-moderation-job.service.ts:55-64 | a step raises the revision of a row if and only if it is the write of an enqueue on it or a recovery that finds it RUNNING and stale |
| Fencing.PermanentFencing | src/modules/ai/listing-moderation-job.service.ts:133-197 | once an enqueue or a recovery has superseded a token, no complete, fail or retry with it changes any row in any later state of any run |
| QueueStatements.EnqueuedRow | src/modules/ai/listing-moderation-job.service.ts:31-65 | every enqueue write, on a new or an existing row, leaves it PENDING, due at once, without attempts or error, at a new revision if there was one, created when it was; and no other row changes |
| QueueStatements.RecoveredRows | src/modules/ai/listing-moderation-job.service.ts:211-224 | a row goes back exactly if it is RUNNING and was written more than 90 000 ms before: PENDING, due at once, new revision, attempts kept; every other row is unchanged |
| QueueStatements.SelectedRow | src/modules/ai/listing-moderation-job.service.ts:90-97 | a select takes a PENDING row that is due exactly if none such has an earlier nextRunAt and, of those with the same, none an earlier createdAt |
| QueueStatements.SwappedRow | src/modules/ai/listing-moderation-job.service.ts:103-118 | the compare-and-set changes the row exactly if it is PENDING at the selected revision, and only its status, attempts, error and time |
| QueueStatements.ReportedRow | src/modules/ai/listing-moderation-job.service.ts:133-197 | a report changes the row exactly if it is RUNNING at the token's revision, to the status, date and error of complete, fail or retry, with the delays of 15, 30 and 60 s |
| QueueStatements.OlderIsServedFirst | src/modules/ai/listing-moderation-job.service.ts:91-97 | over runs: of two rows that one recovery takes, no select takes the younger while both stand as the recovery left them |
| QueueStatements.DeletedListing | prisma/schema.prisma:364-381 | deleting a listing deletes its job and its log, and no other row |
| TokenExclusion.RunExclusive | src/modules/ai/listing-moderation-job.service.ts:83-131 | invariant of every run whose claims of the listing are whole: who has won a row, read back or not, is the only one, and the row is RUNNING at the attempt the token counts |
| TokenExclusion.OneTokenPerRunningJob | src/modules/ai/listing-moderation-job.service.ts:103-130 | with all three statements of a claim interleaved: two outstanding tokens for one listing cannot both carry its current revision, and a PENDING, COMPLETED or FAILED row has none, unless an enqueue write or a recovery came between a compare-and-set and its re-read |
| TokenExclusion.WholeExactly | src/modules/ai/listing-moderation-job.service.ts:103-130 | the condition is exact: after any whole run, a step leaves the tokens exclusive, whichever claim is read back next, if and only if it is not such an intrusion |
| TokenExclusion.ClaimIsThreeStatements | src/modules/ai/listing-moderation-job.service.ts:90-130 | select, compare-and-set and re-read with nothing in between are the claim in one step |
| Attempts.AttemptBound | src/modules/ai/listing-moderation-job.service.ts:103-224 | over every run: attemptCount is at most 3, plus the recoveries since the last enqueue, plus the workers that this enqueue caught between a compare-and-set and its re-read; one less while PENDING |
| Attempts.RetriesEnd | src/modules/ai/listing-moderation-job.service.ts:175-209 | from any reachable state, without enqueue or recovery: every change of a row lowers a rank, and every claim uses up one of the claims left, which count the attempts up to 3 and the workers that can still put the row back |
| Attempts.ThreeClaims | src/modules/ai/listing-moderation-job.service.ts:17-19 | after an enqueue at most three claims and six changes of the row follow, and one claim and two changes more for each worker that the enqueue caught in a claim |
| Attempts.BackoffApplied | src/modules/ai/listing-moderation-job.service.ts:181-197 | over every run: a retry puts its row off by exactly 15 s or 30 s as the worker's token counts 1 or 2 attempts; 60 s takes a token that counts none, and that takes an enqueue write between the compare-and-set and the re-read of its claim; there is no retry after attempt 3 |
| AttemptTraces.AttemptsReached | src/modules/ai/listing-moderation-job.service.ts:103-224 | the attempt bound is exact: for every n and m a run with n recoveries and m workers caught reaches attempt 3 + n + m, so 4 without any recovery |
| Lease.LeaseGuarantee | src/modules/ai/listing-moderation-job.service.ts:133-224 | from any reachable state in which a worker has its row to itself: its report at most 90 000 ms after the row's updatedAt, with no enqueue or deletion in between, is applied to exactly that row, whatever else ran |
| Lease.LeaseExactly | src/modules/ai/listing-moderation-job.service.ts:103-140 | the condition is exact: a worker that holds a current token within 90 000 ms has the row to itself if and only if the token stays current on every undisputed continuation within them |
| Lease.WholeIsAlone | src/modules/ai/listing-moderation-job.service.ts:103-130 | after claims without intrusion a worker whose token is up to date has the row to itself |
| Lease.LeaseLapses | src/modules/ai/listing-moderation-job.service.ts:211-224 | one millisecond later a recovery takes the row, and the worker's report changes nothing ever after |
| NoLostEdit.SparesExactly | src/modules/listings/listings.service.ts:228-290 | from a state in which nothing is lost, a step loses nothing if and only if it spares the listing: an edit's write that is not sent back, with no enqueue owed and content never judged, must find the job not COMPLETED and no worker that the queue may still hear with other content |
| NoLostEdit.RunNothingLost | src/modules/listings/listings.service.ts:228-303 | invariant of every run whose edits spare the listing, with claims fully split: a snapshot the queue may still accept is the present content, or an enqueue is owed, or that content is judged |
| NoLostEdit.CompletedJobIsEvidence | src/modules/listings/listings.service.ts:228-303 | over every such run: a listing with a COMPLETED job has a SUCCESS row for exactly its present content, once any enqueue write, of whichever request, has followed the last write that sent it back |
| NoLostEdit.OwedWhilePending | src/modules/listings/listings.service.ts:258-303 | so in particular whenever no edit is between its content write and its enqueue: only such a request can owe an enqueue, and a request that died there owes it only until another one enqueues |
| NoLostEdit.UnsparedWriteLoses | src/modules/listings/listings.service.ts:228-303 | what the condition is worth: a write spares its listing if and only if on every further run that does so a COMPLETED job keeps vouching for the content, the job being in any status at the write |
| NoLostEdit.StaleReportLoses | src/modules/ai/listing-moderation-worker.service.ts:74-100 | a RUNNING job's worker with an outdated snapshot goes on to complete the job, and the edit is lost |
| NoLostEdit.UndividedEditsSpare | src/modules/listings/listings.service.ts:187-232 | runs in which no write comes between the read and the write of an edit meet the condition |
| Approval.EvidenceForApproval | src/modules/ai/listing-moderation-workflow.service.ts:46-97 | in all interleavings a worker changes a listing only to APPROVED, and only after a SUCCESS row with LOW risk, enough confidence, no violation and APPROVE for the snapshot it loaded itself |
| Approval.ApprovedContent | src/modules/ai/listing-moderation-workflow.service.ts:39-135 | over every run whose edits clear what they write, each APPROVED listing that no administrator approved has qualifying evidence for its present content |
| Approval.ClearsExactly | src/modules/listings/listings.service.ts:228-290 | the step condition is exact: a write keeps the listing and the approvals under way cleared if and only if its content was cleared before, or an approval by the workflow is sent back and every worker that may still approve has looked at just that content |
| Approval.UnclearedWriteApproved | src/modules/ai/listing-moderation-workflow.service.ts:68-122 | what the condition is worth: a write clears if and only if on no further run that does so the listing is APPROVED without evidence or an administrator |
| Approval.EditsApartClear | src/modules/ai/listing-moderation-workflow.service.ts:39-135 | runs whose edits decide on what they overwrite and stay clear of the time between a worker's load and its approval meet the condition |
| Approval.ApprovalWorth | src/modules/ai/listing-moderation-workflow.service.ts:119-122 | the single write of APPROVED, with no condition on the run: if the worker has looked at the present content, qualifying evidence for it is in the log |
| FailedRuns.FaultAfterApproval | src/modules/ai/listing-moderation-workflow.service.ts:68-97 | over every run: when a worker's step ends its evaluation in an error, that evaluation has written APPROVED if and only if what threw was the notification |
| FailedRuns.FailedAnswerLeavesListings | src/modules/ai/listing-moderation-workflow.service.ts:77-106 | after TIMEOUT, PROVIDER or PARSE no step of the worker, from its load to its next one, has changed any listing, however long the run goes on |
| FailedRuns.FaultIsRecorded | src/modules/ai/listing-moderation-workflow.service.ts:90-105 | over every run: after an evaluation has ended in an error, and unless a statement of it throws, the worker reports only with the ERROR row for its snapshot in the log, asking for a retry after TIMEOUT and PROVIDER and for failure otherwise; the row stays as long as the listing |
| Fairness.BoundedOvertaking | src/modules/ai/listing-moderation-job.service.ts:91-130 | with claims split: while a job waits and every step yields to it, each claim takes a row that was ahead of it, or already selected, at the start, each at most once |
| Fairness.TurnsExactly | src/modules/ai/listing-moderation-job.service.ts:91-130 | a step adds no rival if and only if it yields: what it makes PENDING, by enqueue, recovery or retry, sorts behind the waiting job or stood before it already, and a retry puts back no row that another worker has selected |
| Fairness.LateStepsYield | src/modules/ai/listing-moderation-job.service.ts:31-224 | every step stamped after the waiting job fell due yields, however old the stamp is at its commit, except a retry of a row that somebody has selected |
| Fairness.NobodySelecting | src/modules/ai/listing-moderation-job.service.ts:91-114 | while no worker stands between a select and its compare-and-set, as with a lone worker between two polls, the rivals are the rows ahead |
| Fairness.ClaimedWithinPolls | src/modules/ai/listing-moderation-worker.service.ts:45-64 | with a rivals, a due job to which every step yields until then is claimed within ceil((a + 1) / 5) complete polls |
| Traces.OverlappingEdit | src/modules/ai/listing-moderation-workflow.service.ts:68-70 | a run in which one edit during the evaluation leaves content that fails its own evaluation APPROVED beside a COMPLETED job |
| Traces.InterleavedEdits | src/modules/listings/listings.service.ts:228-303 | a run in which two edits leave never judged content APPROVED beside a COMPLETED job |
| Traces.RejectionOverwritten | src/modules/ai/listing-moderation-workflow.service.ts:109-122 | from every state in which a worker holds a snapshot, with a qualifying verdict: a rejection that lands before the status lookup is always overwritten, one between lookup and write is unless the listing was APPROVED at the lookup, and only a later one stands |
| Traces.ApprovedButFailed | src/modules/ai/listing-moderation-workflow.service.ts:68-106 | a run that ends with an APPROVED listing, an ERROR row and a FAILED job |
| Traces.TwoLiveTokens | src/modules/ai/listing-moderation-job.service.ts:103-130 | a run with two accepted tokens for one row, the first of which counts 0 attempts and would draw the 60 s delay |
| Traces.EarlyClaim | src/modules/ai/listing-moderation-job.service.ts:91-114 | a run in which a retried job is claimed before its backoff is over, because the compare-and-set checks only status and revision |
| Database.FirstDueRow | src/modules/ai/listing-moderation-job.service.ts:90-97 | the due row with the earliest nextRunAt, and the earliest createdAt among equals, or nothing if none is due |
| Database.RecoveredRows | src/modules/ai/listing-moderation-job.service.ts:211-224 | the rows after the statement of the recovery, in plain numbers |
| Database.Db.RecoverStale | src/modules/ai/listing-moderation-job.service.ts:211-229 | RUNNING rows older than 90 s become PENDING with a new revision and their attempts kept; no other row changes |
| Database.Db.FindFirstDue | src/modules/ai/listing-moderation-job.service.ts:90-101 | a due PENDING row that no other due row precedes, or nothing if none is due |
| Database.Db.StartIfPending | src/modules/ai/listing-moderation-job.service.ts:103-118 | the compare-and-set on status and revision, and its count |
| Database.Db.FindClaimed | src/modules/ai/listing-moderation-job.service.ts:120-130 | the token carries what the row says at the re-read |
| Database.Db.CompleteIfCurrent | src/modules/ai/listing-moderation-job.service.ts:133-145 | completes the row if and only if it is RUNNING at the token's revision |
| Database.Db.FailIfCurrent | src/modules/ai/listing-moderation-job.service.ts:154-166 | fails the row if and only if it is RUNNING at the token's revision |
| Database.Db.DeferIfCurrent | src/modules/ai/listing-moderation-job.service.ts:184-204 | puts the row off without a new revision if and only if it is RUNNING at the token's revision |
| Database.Db.FindForEnqueue | src/modules/ai/listing-moderation-job.service.ts:33-53 | the read of enqueue; a rerun ends here when the job is RUNNING |
| Database.Db.CreateJob | src/modules/ai/listing-moderation-job.service.ts:38-46 | a first job, unless another request was faster or the listing is gone |
| Database.Db.ResetJob | src/modules/ai/listing-moderation-job.service.ts:55-64 | back to PENDING with a new revision and no attempts, whatever the row has become since the read |
| Database.Db.CreateSuccess | src/modules/ai/moderation-audit.service.ts:35-51 | appends one SUCCESS row to the log of the listing, or throws if the listing is gone |
| Database.Db.CreateError | src/modules/ai/moderation-audit.service.ts:53-68 | appends one ERROR row to the log of the listing, or throws if the listing is gone |
| Database.Db.LoadListing | src/modules/ai/listing-moderation-workflow.service.ts:165-186 | the snapshot is the present content; a missing listing is an exception outside the try block, so the worker will retry |
| Database.Db.FindForApproval | src/modules/ai/listing-moderation-workflow.service.ts:109-117 | an APPROVED listing ends the approval, a missing one throws |
| Database.Db.WriteApproved | src/modules/ai/listing-moderation-workflow.service.ts:119-122 | writes APPROVED and nothing else on the row as it is by then, and throws if it is gone |
| Database.Db.InsertListing | src/modules/listings/listings.service.ts:57-83 | a new listing awaits review and is not queued yet |
| Database.Db.FindForEdit | src/modules/listings/listings.service.ts:187-197 | the row that the decision of an edit rests on |
| Database.Db.WriteDecision | src/modules/ai/listing-moderation-workflow.service.ts:119-150 | an administrator's APPROVED or REJECTED changes the approval of that listing alone |
| Database.Db.UpdateListing | src/modules/listings/listings.service.ts:258-290 | writes the given fields over the present row, and PENDING exactly if the decision taken on the earlier row says so |
| Services.JobService.Enqueue | src/modules/ai/listing-moderation-job.service.ts:27-70 | RUNNING is returned exactly for a rerun that finds the job RUNNING, and then no row has changed; PENDING means that the write was the last statement and left a fresh job, due at the time read at the start; an exception means that the row had come or gone, or its listing gone, in between |
| Services.JobService.ClaimNextJob | src/modules/ai/listing-moderation-job.service.ts:83-131 | stale rows are recovered first; a token belongs to a row that was selected as the first due one and then won, and carries what the row said at the re-read; a lost race or an exception leaves the worker with nothing |
| Services.JobService.SwapAndReread | src/modules/ai/listing-moderation-job.service.ts:103-130 | a token means that the compare-and-set changed PENDING to RUNNING at the selected revision and the token is the row as re-read; nothing without an exception means that the compare-and-set found another status or revision |
| Services.JobService.Complete | src/modules/ai/listing-moderation-job.service.ts:133-152 | one accepted or rejected COMPLETED statement, and the token is returned |
| Services.JobService.Fail | src/modules/ai/listing-moderation-job.service.ts:154-173 | one accepted or rejected FAILED statement, and the token is returned |
| Services.JobService.Retry | src/modules/ai/listing-moderation-job.service.ts:175-209 | the row is put off by 15, 30 or 60 s as the token counts 1, 2 or 0 attempts, or fails from the third on; nothing changes for another status or revision |
| Services.AcceptedTokens | src/modules/ai/listing-moderation-job.service.ts:83-197 | token exclusion for the services as they run: of the tokens that the queue would accept there is one per row, and the row is RUNNING |
| Services.WorkflowService.RunForListing | src/modules/ai/listing-moderation-workflow.service.ts:39-107 | on success the log holds the SUCCESS row for the loaded snapshot and the verdict, the result is applied if and only if the verdict is LOW, confident enough, without violations and APPROVE, and then the listing was APPROVED during the call; on an error the log holds the ERROR row; the steps are those of the workflow in its order |
| Services.WorkflowService.RecordSuccess | src/modules/ai/listing-moderation-workflow.service.ts:46-76 | once the audit row is written it stays, it precedes every other step, and it says APPROVED exactly for a verdict that is LOW, confident enough, without violations and APPROVE |
| Services.WorkflowService.ApproveListing | src/modules/ai/listing-moderation-workflow.service.ts:109-135 | success means that the listing was APPROVED at some moment of the call, found so or written; otherwise the catch block has run |
| Services.WorkflowService.WriteAndNotify | src/modules/ai/listing-moderation-workflow.service.ts:119-134 | the listing is APPROVED before the notification goes out, and a notification that throws still fails the run |
| Services.WorkflowService.RecordError | src/modules/ai/listing-moderation-workflow.service.ts:77-106 | the ERROR row for the snapshot is the last in the log, or an exception leaves the workflow |
| Services.WorkerService.ProcessJob | src/modules/ai/listing-moderation-worker.service.ts:66-110 | the worker goes through the workflow, and the report it ends with is what the queue is told last, unless an exception hits the dispatch and a retry is; if the handler throws too, nothing is; no token is left |
| Services.WorkerService.Dispatch | src/modules/ai/listing-moderation-worker.service.ts:78-100 | TIMEOUT and PROVIDER retry, other failures fail, success completes, and the queue changes accordingly |
| Services.WorkerService.Handle | src/modules/ai/listing-moderation-worker.service.ts:101-108 | the job is retried with the error as its last statement, or the handler throws as well and the token is abandoned |
| Services.WorkerService.Poll | src/modules/ai/listing-moderation-worker.service.ts:45-64 | a second poll does nothing while one runs; otherwise at most five rows are moved to RUNNING, the flag is cleared on every way out and no token is left; and the poll is complete, with five jobs claimed or nothing due at a time after its start, unless a statement has thrown or somebody else has enqueued, deleted or claimed the row it had selected |
| Services.WorkerService.RunPolls | src/modules/ai/listing-moderation-worker.service.ts:32-64 | the interval timer: polls that run their course claim a job that is due at the start, with a rivals, within ceil((a + 1) / 5) of them; only an exception, or an interference with a selected row, keeps one from its course |
| Requests.ListingsService.CreateListing | src/modules/listings/listings.service.ts:45-90 | the insert is always made, before the listing is queued; on success the job is PENDING with no attempts |
| Requests.ListingsService.Update | src/modules/listings/listings.service.ts:186-306 | refused exactly if its checks fail; otherwise the edit is written, and it is queued, due at once, if and only if the decision on the row read first asks for it; an exception has a statement that threw, or the listing gone, behind it |
| Requests.ListingsService.Save | src/modules/listings/listings.service.ts:228-303 | the write comes first, and the enqueue write, if the decision asks for it, after it and last |
| Requests.ListingsService.Queue | src/modules/listings/listings.service.ts:408-415 | on success the job is PENDING with no attempts and due; a request that dies first leaves its write pending |
| Requests.ListingsService.ShouldRemoderate | src/modules/listings/listings.service.ts:417-462 | the tests one after the other decide exactly whether the write would change moderated content |
| Requests.AdminService.Decide | src/modules/admin/admin.service.ts:57-67 | approves or rejects; a listing already decided that way is left alone |
| Requests.AdminService.RerunModeration | src/modules/admin/admin.service.ts:69-88 | with others between the check and the enqueue: a job found RUNNING is reported so and no row changes, any other starts afresh |
| ListingUpdate.RemoderationIsExact | src/modules/listings/listings.service.ts:201-232 | for every accepted payload, shouldRemoderate holds if and only if the write changes one of the four columns, and if and only if the input that moderation loads changes |
| ListingUpdate.PrepareRefines | src/modules/listings/listings.service.ts:210-232 | the decision on trimmed, parsed fields and the write to any later row are those of the protocol's edit |
| ListingUpdate.AcceptedExactly | src/modules/listings/listings.service.ts:201-232 | which payloads are rejected, and what an accepted one writes: trimmed text, a category by its slug in lower case, a department by its shown name, and nothing else |
| ListingUpdate.DepartmentRoundTrip | src/modules/users/user.mapper.ts:23-40 | a department is read back from exactly what is shown for it, up to case and white space |
| ListingImages.ReplaceImages | src/modules/listings/listings.service.ts:238-298 | which payloads are accepted, which rows are stored in which order, and which assets are destroyed, all in terms of the request; none of the stored rows refers to an asset that this request destroys |
| ListingImages.ReconciliationIsExact | src/modules/listings/listings.service.ts:242-256 | an asset is destroyed if and only if some old row with it lost its URL and no new image names the asset |
| ListingImages.KeptUrlLosesAsset | src/modules/listings/listings.service.ts:242-256 | a request that keeps a URL and yet loses the asset behind it |
| ListingImages.KeptUrlKeepsAsset | src/modules/listings/listings.service.ts:242-256 | exactly when that happens: another old row had the asset under a dropped URL and no new image names it |
| ListingImages.OverlapExactly | src/modules/listings/listings.service.ts:238-298 | however requests overlap, a stored row is left without its asset if and only if the request that commits last names an asset that an earlier one read with a row, whose URL it drops, without naming the asset |
| ListingImages.OneByOneKeepsAssets | src/modules/listings/listings.service.ts:238-298 | requests one by one, naming only assets that their rows have or that nobody has destroyed, never leave a stored row without its asset |
| ListingImages.OverlapLosesAsset | src/modules/listings/listings.service.ts:187-298 | two overlapping requests, one that drops an image and one that keeps it, which leave a stored row on a destroyed asset |
| ListingImages.OrderRoundTrip | src/modules/listings/listing.mapper.ts:89-101 | from any permutation of the stored rows, any sort by order yields the URLs of the request in order |
| SlugSearch.GenerateSlug | src/modules/listings/listings.service.ts:689-704 | the loop ends within one probe more than there are listings, with the first candidate that is free or the listing's own |
| SlugSearch.SlugsStayUnique | src/modules/listings/listings.service.ts:679-705 | over every sequence of creates, retitles and deletes no two listings share a slug |
| SlugSearch.ServesOne | src/modules/listings/listings.service.ts:679-705 | a request changes the slug of its own listing only |
| SlugSearch.RetitleKeepsBase | src/modules/listings/listings.service.ts:234-236 | a listing that holds the bare base of its title keeps its slug when it is saved again |
| SlugSearch.DecimalInjective | src/modules/listings/listings.service.ts:702 | different indices print differently, so no candidate is probed twice |
| SlugSearch.DecimalReadsBack | src/modules/listings/listings.service.ts:702 | a suffix is the decimal numeral of its index, digits only, without leading zero |
| SlugSearch.CandidatesDistinct | src/modules/listings/listings.service.ts:689-703 | the candidates of one base are pairwise distinct, also from 'listing' to '-1' for an empty base |
| SlugSearch.UsedAtMost | src/modules/listings/listings.service.ts:692-704 | pigeonhole: no more distinct candidates can be taken than there are slugs in use |
| SlugSearch.FreeSeedSlug | prisma/seed.ts:517-523 | the inner loop ends with the first suffix that no earlier listing uses |
| SlugSearch.SeedSlugs | prisma/seed.ts:503-525 | all seeded slugs are distinct, and each is the first candidate of its title not used before it |
| Conversations.UnreadAgreement | src/modules/conversations/conversations.service.ts:399-436 | the grouped count, 0 by default, is the number of messages that the message view marks unread, for every conversation of any list |
| Conversations.LastReadIsOwn | src/modules/conversations/conversations.service.ts:407-410 | each of the two people has a read mark of their own |
| Conversations.MatchIsBetween | src/modules/conversations/conversations.service.ts:116-134 | the some/some/none filter means exactly the two people |
| Conversations.MatchIsExact | src/modules/conversations/conversations.service.ts:116-132 | the some/some/none filter holds of exactly the conversations whose users are these two |
| Conversations.SameConversation | src/modules/conversations/conversations.service.ts:116-146 | for a listing, whichever of the two asks and whatever findFirst picks, the conversation is the same |
| Conversations.OrphansCollide | prisma/schema.prisma:222 | without a listing it need not be: deleting two listings leaves two conversations that match the same query |
| Conversations.ConversationsService.Create | src/modules/conversations/conversations.service.ts:89-159 | finds the matching conversation or starts one, keeps every conversation at two people and unique per listing and pair, and rejects exactly the stated cases |
| Conversations.ConversationsService.Refusal | src/modules/conversations/conversations.service.ts:229-264 | a message is refused to those who take no part, without content or image, and after a block by somebody else in the conversation, in this order |
| Conversations.ConversationsService.SendMessage | src/modules/conversations/conversations.service.ts:224-280 | raises the badge of those who have not read up to that moment by one, no other badge, and rejects exactly the stated cases |
| Conversations.ConversationsService.MarkRead | src/modules/conversations/conversations.service.ts:328-344 | at a time not before any message clears the caller's badge, and leaves every other badge alone |
| Conversations.ConversationsService.RemoveListing | prisma/schema.prisma:222 | conversations survive their listing, and the identity invariant survives with them |
| MessagePages.PagesPartitionHistory | src/modules/conversations/conversations.service.ts:171-207 | read from the last page to the first, the pages are the history oldest first, each message once |
| MessagePages.PageSizes | src/modules/conversations/conversations.service.ts:175-206 | a page is empty if and only if it lies beyond totalPages, and only the last one can be short |
| ListingQuery.BuildListWhere | src/modules/listings/listings.service.ts:464-561 | the compiled filter admits exactly the rows that meet every requested filter; which queries are rejected, and how |
| ListingQuery.CompileWords | src/modules/listings/listings.service.ts:521-551 | a word counts if it is not empty and stands in the list or is the trimmed single value; duplicates and the collapse of a single value do not change what the filter admits |
| ListingQuery.CompileCategories | src/modules/listings/listings.service.ts:488-519 | the requested slugs are those of the list and of the single value, trimmed and in lower case; rejects if and only if one does not exist, and otherwise admits exactly the requested categories |
| ListingQuery.AllFound | src/modules/listings/listings.service.ts:509-511 | comparing lengths tells exactly whether every requested category exists |
| Cookies.CookieRoundTrip | src/common/utils/cookies.ts:1-19 | from any list of well-formed pairs as section 4.2.1 of RFC 6265 writes them, extraction returns the decoded value of the first pair with the name, '=' in values included, or null |
| Cookies.ExtractedFrom | src/common/utils/cookies.ts:1-19 | over every header: the decoded text behind the name and its '=' in the first trimmed part that starts with them |
| Cookies.NothingExtracted | src/common/utils/cookies.ts:1-15 | null without a header or such a part |
| Cookies.JoinSplit | src/common/utils/cookies.ts:18 | joining what was split at '=' gives the text back |
| Text.TrimExactly | src/modules/listings/listings.service.ts:433 | trim takes white space off both ends and leaves none there |
| Text.LowerExactly | src/modules/listings/listings.service.ts:201 | lower-casing maps A to Z to a to z and leaves everything else alone |

## Left out

- NoLostEdit.CompletedJobIsEvidence: holds on the runs whose edits spare the listing, because the code reads and writes an edit in two statements and the claim is false otherwise (`Traces.InterleavedEdits`); that this is the exact condition is `NoLostEdit.SparesExactly` and `NoLostEdit.UnsparedWriteLoses`.
- Approval.ApprovedContent: holds on the runs whose edits clear what they write, because the claim is false otherwise (`Traces.OverlappingEdit`); that this is the exact condition is `Approval.ClearsExactly` and `Approval.UnclearedWriteApproved`.
- TokenExclusion.OneTokenPerRunningJob: holds on the runs without an intrusion into a claim, because the claim is false otherwise (`Traces.TwoLiveTokens`); that this is the exact condition is `TokenExclusion.WholeExactly`.
- Lease.LeaseGuarantee: holds for a worker that has its row to itself, because a second accepted token may report first; that this is the exact condition is `Lease.LeaseExactly`.
- Fairness.BoundedOvertaking: holds on the runs whose steps yield to the waiting job, because the claim is false otherwise (`Traces.EarlyClaim`); that this is the exact condition on each step is `Fairness.TurnsExactly`.
- A request that dies between its content write and its enqueue is noticed by nothing in the code; its listing is excluded until another request enqueues it.
- A statement that throws has no effect in the model; a commit whose acknowledgement is lost is not modelled.
- Timestamps of different machines are one clock; a statement may carry an older reading of it, never a later one, and the methods of `Database` for workers carry the present one.
- Every run starts with moderation enabled; with it disabled nothing is enqueued and nothing is claimed.
- The audit rows hold the four moderated fields in place of their SHA-256, and leave out model name, summary and processing time.
- The AI call, its prompts and its parsing: the answer is any verdict or any failure.
- Notifications, mail, sockets and logging; that a notification may throw is modelled.
- Cloudinary: only which ids are destroyed, not whether the call succeeds; an update that is refused or throws before its commit destroys nothing.
- Resolving a report rejects its listing in the same way as an administrator's rejection, and has no step of its own.
- Authorisation and payload checks in `update`, `remove` and the admin routes: for an edit their outcome is an input.
- Lower-casing covers ASCII letters; URL validity, `decodeURIComponent`, case-insensitive search and the enum tables of list queries are parameters.
- The base of a slug, which drops diacritics and punctuation, is an input, and a slug search sees one state of the table; concurrent searches meet the unique constraint, which is not modelled.
- `findMany` and `findFirst` without a total order: message pages take one fixed order of the history, and equal rows of the queue may come in either order.
- `create` of a conversation is one atomic request; two at once could start two conversations.
- Sorting, pagination and view counts of listing lists, favourites, reviews and statistics: no property beyond a single statement.
- Accounts and one-time codes: each request is one lookup and one flag, without an invariant that spans steps.
