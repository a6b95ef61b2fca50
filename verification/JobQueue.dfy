/**
 The rows of `listing_moderation_jobs` and the effect of every SQL statement that
 ListingModerationJobService sends.  A table is a map from the listing id, which is unique in the
 schema, to the row.  Each function below is one atomic statement; `at` is the clock value the
 service put into it, which may be older than the moment the statement commits.
 */
module JobQueue {
  import opened Options

  type ListingId = nat

  datatype JobStatus = Pending | Running | Completed | Failed

  datatype Job = Job(
    status: JobStatus,
    revision: nat,
    attempts: nat,
    nextRunAt: nat,
    lastError: Option<string>,
    createdAt: nat,
    updatedAt: nat
  )

  /** What `claimNextJob` hands to a worker. */
  datatype Token = Token(listing: ListingId, revision: nat, attempts: nat)

  type Jobs = map<ListingId, Job>

  const MAX_ATTEMPTS: nat := 3
  const STALE_RUN_MS: nat := 90_000
  const RETRY_BACKOFF_MS: seq<nat> := [15_000, 30_000, 60_000]
  const RECOVERED_ERROR := "Recovered stale moderation job"

  // ----- enqueue -----

  function NewJob(at: nat): Job {
    Job(Pending, 0, 0, at, None, at, at)
  }

  function Requeued(row: Job, at: nat): Job {
    row.(status := Pending, revision := row.revision + 1, attempts := 0, nextRunAt := at,
    lastError := None, updatedAt := at)
  }

  /** Whether `enqueue` with `preserveRunning` returns the row it read without writing. */
  predicate Preserved(row: Job, preserveRunning: bool) {
    preserveRunning && row.status == Running
  }

  // ----- claim -----

  predicate Due(jobs: Jobs, l: ListingId, at: nat) {
    l in jobs && jobs[l].status == Pending && jobs[l].nextRunAt <= at
  }

  /** `ORDER BY nextRunAt, createdAt`; rows equal in both may come in either order. */
  predicate OrderedBefore(a: Job, b: Job) {
    a.nextRunAt < b.nextRunAt || (a.nextRunAt == b.nextRunAt && a.createdAt <= b.createdAt)
  }

  /** A row `findFirst` may return. */
  ghost predicate FirstDue(jobs: Jobs, l: ListingId, at: nat) {
    && Due(jobs, l, at)
    && forall m :: Due(jobs, m, at) ==> OrderedBefore(jobs[l], jobs[m])
  }

  /** The first due row in plain numbers: the earliest `nextRunAt`, and the earliest creation among equals. */
  lemma FirstDueMeans(jobs: Jobs, l: ListingId, at: nat)
    requires FirstDue(jobs, l, at)
    ensures l in jobs && jobs[l].status == Pending && jobs[l].nextRunAt <= at
    ensures forall m :: m in jobs && jobs[m].status == Pending && jobs[m].nextRunAt <= at ==>
              jobs[l].nextRunAt < jobs[m].nextRunAt
              || (jobs[l].nextRunAt == jobs[m].nextRunAt && jobs[l].createdAt <= jobs[m].createdAt)
  {
    forall m | m in jobs && jobs[m].status == Pending && jobs[m].nextRunAt <= at
      ensures jobs[l].nextRunAt < jobs[m].nextRunAt
              || (jobs[l].nextRunAt == jobs[m].nextRunAt && jobs[l].createdAt <= jobs[m].createdAt)
    {
      assert Due(jobs, m, at);
    }
  }

  /** The `where` clause of the compare-and-set in `claimNextJob`. */
  predicate CanSwap(jobs: Jobs, l: ListingId, revision: nat) {
    l in jobs && jobs[l].status == Pending && jobs[l].revision == revision
  }

  function Started(row: Job, at: nat): Job {
    row.(status := Running, attempts := row.attempts + 1, lastError := None, updatedAt := at)
  }

  function Swap(jobs: Jobs, l: ListingId, revision: nat, at: nat): Jobs {
    if CanSwap(jobs, l, revision) then jobs[l := Started(jobs[l], at)] else jobs
  }

  function TokenOf(jobs: Jobs, l: ListingId): Token
    requires l in jobs
  {
    Token(l, jobs[l].revision, jobs[l].attempts)
  }

  // ----- outcomes -----

  /** The `where` clause shared by `complete`, `fail` and `retry`. */
  predicate Current(jobs: Jobs, tok: Token) {
    && tok.listing in jobs
    && jobs[tok.listing].status == Running
    && jobs[tok.listing].revision == tok.revision
  }

  function CompleteRow(jobs: Jobs, tok: Token, at: nat): Jobs {
    if !Current(jobs, tok) then jobs
    else jobs[tok.listing := jobs[tok.listing].(status := Completed, nextRunAt := at,
                                                lastError := None, updatedAt := at)]
  }

  function FailRow(jobs: Jobs, tok: Token, message: string, at: nat): Jobs {
    if !Current(jobs, tok) then jobs
    else jobs[tok.listing := jobs[tok.listing].(status := Failed, nextRunAt := at,
                                                lastError := Some(message), updatedAt := at)]
  }

  /** `retryBackoffMs[attemptCount - 1] ?? retryBackoffMs[length - 1]` */
  function Backoff(attempts: nat): nat {
    if 1 <= attempts <= |RETRY_BACKOFF_MS| then RETRY_BACKOFF_MS[attempts - 1]
    else RETRY_BACKOFF_MS[|RETRY_BACKOFF_MS| - 1]
  }

  function RetryRow(jobs: Jobs, tok: Token, message: string, at: nat): Jobs {
    if tok.attempts >= MAX_ATTEMPTS then FailRow(jobs, tok, message, at)
    else if !Current(jobs, tok) then jobs
    else jobs[tok.listing := jobs[tok.listing].(status := Pending,
                                                nextRunAt := at + Backoff(tok.attempts),
                                                lastError := Some(message), updatedAt := at)]
  }

  // ----- recovery -----

  predicate Stale(row: Job, at: nat) {
    row.status == Running && row.updatedAt + STALE_RUN_MS < at
  }

  function Recovered(row: Job, at: nat): Job {
    row.(status := Pending, revision := row.revision + 1, nextRunAt := at,
    lastError := Some(RECOVERED_ERROR), updatedAt := at)
  }

  function RecoverAll(jobs: Jobs, at: nat): Jobs {
    map l | l in jobs :: if Stale(jobs[l], at) then Recovered(jobs[l], at) else jobs[l]
  }
}
