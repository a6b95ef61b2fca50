/**
 ListingModerationJobService, ListingModerationWorkflowService and ListingModerationWorkerService,
 statement by statement, with other processes acting at every `await` and any statement free to
 throw.  Whatever happens, the database stays on a run of the protocol.  The ghost result `steps` of
 a method lists the phases that the worker has gone through in it.
 */
module Services {
  import opened Options
  import opened JobQueue
  import opened Moderation
  import opened Protocol
  import opened Fencing
  import opened TokenExclusion
  import opened Fairness
  import opened Database
  import opened Histories

  // ----- ListingModerationJobService -----

  /** A RUNNING row at the token's revision has gone to this status, date and error; otherwise, and in all
      other rows, nothing has changed. */
  predicate Outcome(before: Jobs, after: Jobs, tok: Token, status: JobStatus, next: nat, error: Option<string>, at: nat) {
    var l := tok.listing;
    if l in before && before[l].status == Running && before[l].revision == tok.revision then
      after == before[l := Job(status, tok.revision, before[l].attempts, next, error, before[l].createdAt, at)]
    else after == before
  }

  /** The row of the listing is a fresh PENDING job, due at `now`, at a new revision if there was one
      before; no other row has changed. */
  predicate FreshJob(jobs: Jobs, before: Jobs, l: ListingId, now: nat) {
    && jobs - {l} == before - {l}
    && l in jobs && jobs[l].status == Pending && jobs[l].attempts == 0 && jobs[l].lastError == None
    && jobs[l].nextRunAt == now && jobs[l].updatedAt == now
    && jobs[l].revision == (if l in before then before[l].revision + 1 else 0)
    && jobs[l].createdAt == (if l in before then before[l].createdAt else now)
  }

  class JobService {
    const db: Db

    constructor (db: Db)
      ensures this.db == db
    {
      this.db := db;
    }

    /** Queues a listing after an edit, or for a rerun that leaves a running job alone.  None is an
        exception. */
    method Enqueue(ghost c: ClientId, listingId: ListingId, preserveRunning: bool)
      returns (status: Option<JobStatus>, ghost before: State)
      requires db.Valid()
      requires if preserveRunning then c !in db.requests && listingId in db.used
               else c in db.requests && db.requests[c] == EditWritten(listingId)
      modifies db
      ensures db.Valid() && old(db.history) < db.history && old(db.failures) <= db.failures && c !in db.requests
      ensures status.Some? ==> status.value == Pending || status.value == Running
      ensures status == Some(Running) <==>
              preserveRunning && listingId in old(db.jobs) && old(db.jobs)[listingId].status == Running
      ensures status == Some(Running) ==> db.jobs == old(db.jobs)
      ensures status.None? ==>
        && Latest(db.threshold, db.history, Serve(c, EnqueueWrite(old(db.clock))), before) && db.jobs == before.jobs
        && if listingId in old(db.jobs) then listingId !in before.jobs
           else listingId in before.jobs || listingId !in before.listings
      ensures status == Some(Pending) ==>
        && Latest(db.threshold, db.history, Serve(c, EnqueueWrite(old(db.clock))), before)
        && |old(db.history)| < |db.history| - 1
        && FreshJob(db.jobs, before.jobs, listingId, old(db.clock))
    {
      before := db.View();
      hide Walk, Exec, Next, Latest;
      var now := db.clock;
      var existing := db.FindForEnqueue(c, listingId, preserveRunning);
      if existing.Some? && preserveRunning && existing.value.status == Running {
        return Some(Running), before;
      }
      db.OthersThan(c);
      status, before := WriteRow(c, listingId, !preserveRunning, existing.Some?, now);
    }

    /** The write of `enqueue`, with the time read before. */
    method WriteRow(ghost c: ClientId, listingId: ListingId, ghost edit: bool, found: bool, now: nat)
      returns (status: Option<JobStatus>, ghost before: State)
      requires db.Valid() && c in db.requests && now <= db.clock
      requires db.requests[c] == if found then SawJob(listingId, edit) else SawNoJob(listingId, edit)
      modifies db`jobs, db`requests, db`history
      ensures db.Valid() && old(db.history) < db.history && old(db.failures) <= db.failures && c !in db.requests
      ensures status.None? || status == Some(Pending)
      ensures status.None? ==>
        && Latest(db.threshold, db.history, Serve(c, EnqueueWrite(now)), before) && db.jobs == before.jobs
        && if found then listingId !in before.jobs else listingId in before.jobs || listingId !in before.listings
      ensures status.Some? ==>
        && Latest(db.threshold, db.history, Serve(c, EnqueueWrite(now)), before)
        && FreshJob(db.jobs, before.jobs, listingId, now)
    {
      hide Walk, Exec, Next, Latest;
      before := db.View();
      ghost var waited := db.history;
      var written: bool;
      if found {
        written := db.ResetJob(c, listingId, edit, now);
      } else {
        written := db.CreateJob(c, listingId, edit, now);
      }
      status := if written then Some(Pending) else None;
      LatestAppended(db.threshold, waited, Serve(c, EnqueueWrite(now)));
    }

    /** The claim as the caller sees it: a token, or nothing, or an exception; in the last two cases
        the worker is back where it started.  Stale rows are recovered first, and a token belongs to a
        row that was selected as the first due one and then won. */
    method ClaimNextJob(ghost p: WorkerId) returns (claimed: Option<Token>, threw: bool, ghost steps: seq<Phase>)
      requires db.Valid() && p !in db.workers
      modifies db
      ensures db.Valid() && old(db.history) <= db.history && old(db.failures) <= db.failures && db.Steps(p) == old(db.Steps(p)) + steps
      ensures if claimed.Some? then !threw && db.At(p, Claimed(claimed.value)) else p !in db.workers
      ensures !threw ==>
        |old(db.history)| < |db.history| && db.history[|old(db.history)|] == Recover(old(db.clock))
      ensures threw ==> old(db.failures) < db.failures
      ensures |steps| <= 3 && forall i :: 0 <= i < |steps| ==> (steps[i].Swapped? ==> i == 1)
      ensures claimed.Some? ==>
        && |steps| == 3 && steps[0].Selected? && steps[0].candidate == claimed.value.listing
        && steps[1..] == [Swapped(claimed.value.listing), Claimed(claimed.value)]
        && SelectedWithin(db.threshold, old(db.history), db.history, p, claimed.value.listing)
        && SwappedWithin(db.threshold, old(db.history), db.history, p, claimed.value.listing, steps[0].revision)
        && claimed.value.listing in db.jobs && claimed.value == TokenOf(db.jobs, claimed.value.listing)
      ensures claimed.None? && !threw ==>
                IdledWithin(db.threshold, old(db.history), db.history, p, old(db.clock))
                || LostWithin(db.threshold, old(db.history), db.history, p)
    {
      hide Exec, Walk, SelectedWithin, SwappedWithin, IdledWithin, LostWithin, Passed;
      ghost var began := db.history;
      claimed, steps := None, [];
      threw := db.Fails();
      if threw {
        return;
      }
      db.RecoverStale();
      db.Others(p);
      ghost var waited, time := db.history, db.clock;
      threw := db.Fails();
      if !threw {
        claimed, threw, steps := SelectAndClaim(p);
        ClockKept(db.threshold, began, waited);
        if claimed.Some? {
          SinceEarlier(db.threshold, began, waited, db.history, p, claimed.value.listing, steps[0].revision);
        } else if !threw {
          NothingSince(db.threshold, began, waited, db.history, p, time, old(db.clock));
        }
      }
    }

    /** The claim once stale rows have been recovered. */
    method SelectAndClaim(ghost p: WorkerId) returns (claimed: Option<Token>, threw: bool, ghost steps: seq<Phase>)
      requires db.Valid() && p !in db.workers
      modifies db
      ensures db.Valid() && old(db.history) <= db.history && old(db.failures) <= db.failures && db.Steps(p) == old(db.Steps(p)) + steps
      ensures if claimed.Some? then !threw && db.At(p, Claimed(claimed.value)) else p !in db.workers
      ensures threw ==> old(db.failures) < db.failures
      ensures |steps| <= 3 && forall i :: 0 <= i < |steps| ==> (steps[i].Swapped? ==> i == 1)
      ensures claimed.Some? ==>
        && |steps| == 3 && steps[0].Selected? && steps[0].candidate == claimed.value.listing
        && steps[1..] == [Swapped(claimed.value.listing), Claimed(claimed.value)]
        && SelectedWithin(db.threshold, old(db.history), db.history, p, claimed.value.listing)
        && SwappedWithin(db.threshold, old(db.history), db.history, p, claimed.value.listing, steps[0].revision)
        && claimed.value.listing in db.jobs && claimed.value == TokenOf(db.jobs, claimed.value.listing)
      ensures claimed.None? && !threw ==>
                IdledWithin(db.threshold, old(db.history), db.history, p, old(db.clock))
                || LostWithin(db.threshold, old(db.history), db.history, p)
    {
      hide Exec, Walk, SelectedWithin, SwappedWithin, IdledWithin, LostWithin, Passed;
      ghost var began := db.history;
      var candidate := db.FindFirstDue(p);
      if candidate.None? {
        claimed, threw, steps := None, false, [];
        IdledNow(db.threshold, began, db.history, p, db.clock);
        return;
      }
      var (id, revision) := candidate.value;
      ghost var selected := db.history;
      SelectedNow(db.threshold, old(db.history), old(db.history), selected, p, id, db.clock);
      claimed, threw, steps := SwapAndReread(p, id, revision);
      ghost var tail := steps;
      steps := [Selected(id, revision)] + tail;
      assert steps[1..] == tail;
      SelectedStill(db.threshold, old(db.history), selected, db.history, p, id);
      if claimed.Some? {
        SwappedSince(db.threshold, old(db.history), selected, db.history, p, id, revision);
      } else if !threw {
        LostStill(db.threshold, began, selected, db.history, db.history, p);
      }
    }

    /** The compare-and-set and the re-read, with others in between. */
    method SwapAndReread(ghost p: WorkerId, id: ListingId, revision: nat)
      returns (claimed: Option<Token>, threw: bool, ghost steps: seq<Phase>)
      requires db.Valid() && db.At(p, Selected(id, revision)) && CanSwap(db.jobs, id, revision)
      modifies db
      ensures db.Valid() && old(db.history) <= db.history && old(db.failures) <= db.failures && db.Steps(p) == old(db.Steps(p)) + steps
      ensures if claimed.Some? then !threw && db.At(p, Claimed(claimed.value)) else p !in db.workers
      ensures threw ==> old(db.failures) < db.failures
      ensures |steps| <= 2 && forall i :: 0 <= i < |steps| ==> (steps[i].Swapped? ==> i == 0)
      ensures claimed.Some? ==>
        && steps == [Swapped(id), Claimed(claimed.value)]
        && SwappedWithin(db.threshold, old(db.history), db.history, p, id, revision)
        && id in db.jobs && claimed.value == TokenOf(db.jobs, id)
      ensures claimed.None? && !threw ==>
        && steps == [] && |old(db.history)| < |db.history|
        && db.history[|db.history| - 1] == Work(p, CompareAndSwap(db.clock)) && !CanSwap(db.jobs, id, revision)
        && LostWithin(db.threshold, old(db.history), db.history, p)
    {
      hide Walk, SwappedWithin, LostWithin, Passed, Next;
      ghost var began := db.history;
      claimed, steps := None, [];
      var error;
      threw, error := db.Await(p);
      if threw {
        return;
      }
      ghost var waited := db.history;
      ghost var at := db.clock;
      var count := db.StartIfPending(p, id, revision);
      if count == 0 {
        assert began + waited[|began|..] == waited;
        LosesRow(db.threshold, began, waited[|began|..], p, id, revision);
        LostStill(db.threshold, began, began, waited, db.history, p);
        return;
      }
      ghost var swapped := db.history;
      SwappedNow(db.threshold, old(db.history), waited, swapped, p, id, revision, at);
      claimed := ReadClaimed(p, id);
      threw := claimed.None?;
      steps := if claimed.Some? then [Swapped(id), Claimed(claimed.value)] else [Swapped(id)];
      SwappedStill(db.threshold, old(db.history), swapped, db.history, p, id, revision);
    }

    /** `findUniqueOrThrow`; None is an exception. */
    method ReadClaimed(ghost p: WorkerId, id: ListingId) returns (claimed: Option<Token>)
      requires db.Valid() && db.At(p, Swapped(id))
      modifies db
      ensures db.Valid() && old(db.history) <= db.history && old(db.failures) <= db.failures
      ensures if claimed.Some? then db.At(p, Claimed(claimed.value)) else p !in db.workers
      ensures db.Steps(p) == old(db.Steps(p)) + (if claimed.Some? then [Claimed(claimed.value)] else [])
      ensures claimed.Some? ==> id in db.jobs && claimed.value == TokenOf(db.jobs, id)
      ensures claimed.None? ==> old(db.failures) < db.failures
    {
      var threw, error := db.Await(p);
      if threw {
        return None;
      }
      claimed := db.FindClaimed(p, id);
    }

    method Complete(ghost p: WorkerId, job: Token, ghost judged: Input)
      requires db.Valid() && db.At(p, Reporting(job, ReportComplete(judged)))
      modifies db`jobs, db`workers, db`history
      ensures db.Valid() && db.Logged(Work(p, Report(db.clock))) && p !in db.workers
      ensures db.jobs == CompleteRow(old(db.jobs), job, db.clock)
      ensures Outcome(old(db.jobs), db.jobs, job, Completed, db.clock, None, db.clock)
    {
      var count := db.CompleteIfCurrent(p, job, judged);
    }

    method Fail(ghost p: WorkerId, job: Token, message: string, ghost report: Report)
      requires db.Valid() && db.At(p, Reporting(job, report))
      requires report == ReportFail(message) || (report == ReportRetry(message) && job.attempts >= MAX_ATTEMPTS)
      modifies db`jobs, db`workers, db`history
      ensures db.Valid() && db.Logged(Work(p, Report(db.clock))) && p !in db.workers
      ensures db.jobs == FailRow(old(db.jobs), job, message, db.clock)
      ensures Outcome(old(db.jobs), db.jobs, job, Failed, db.clock, Some(message), db.clock)
    {
      var count := db.FailIfCurrent(p, job, message, report);
    }

    method Retry(ghost p: WorkerId, job: Token, message: string)
      requires db.Valid() && db.At(p, Reporting(job, ReportRetry(message)))
      modifies db`jobs, db`workers, db`history
      ensures db.Valid() && db.Logged(Work(p, Report(db.clock))) && p !in db.workers
      ensures db.jobs == RetryRow(old(db.jobs), job, message, db.clock)
      ensures
        if job.attempts >= 3 then Outcome(old(db.jobs), db.jobs, job, Failed, db.clock, Some(message), db.clock)
        else
          var delay := if job.attempts == 1 then 15_000 else if job.attempts == 2 then 30_000 else 60_000;
          Outcome(old(db.jobs), db.jobs, job, Pending, db.clock + delay, Some(message), db.clock)
    {
      if job.attempts >= MAX_ATTEMPTS {
        Fail(p, job, message, ReportRetry(message));
        return;
      }
      var index := job.attempts - 1;
      var delay := if 0 <= index < |RETRY_BACKOFF_MS| then RETRY_BACKOFF_MS[index]
                   else RETRY_BACKOFF_MS[|RETRY_BACKOFF_MS| - 1];
      var count := db.DeferIfCurrent(p, job, delay, message);
    }
  }

  /** What the protocol promises about tokens holds of the services as they run: unless an enqueue or a
      recovery has come between a compare-and-set and its re-read, two workers never hold tokens that
      the queue would both accept, and an accepted token belongs to a RUNNING row. */
  lemma AcceptedTokens(db: Db, p: WorkerId, q: WorkerId, tok: Token, other: Token)
    requires db.Valid() && WholeRun(db.threshold, db.history, tok.listing)
    requires Holds(db.View(), p, tok) && Holds(db.View(), q, other) && tok.listing == other.listing
    ensures AtRevision(db.jobs, tok) ==> Current(db.jobs, tok) && db.jobs[tok.listing].attempts == tok.attempts
    ensures AtRevision(db.jobs, tok) && AtRevision(db.jobs, other) ==> p == q
  {
    OneTokenPerRunningJob(db.threshold, db.history, p, q, tok, other);
  }

  // ----- ListingModerationWorkflowService -----

  /** What `runForListing` returns, or the exception that leaves it. */
  datatype RunResult =
    | RunSuccess(applied: bool)
    | RunError(failure: Failure, message: string)
    | RunThrew(message: string)

  /** The catch block: the error, and the report that its ERROR row, or another exception, leads to. */
  predicate Failing(steps: seq<Phase>, tok: Token, snap: Input, result: RunResult) {
    && |steps| == 2 && steps[0].Faulted? && steps[0].tok == tok && steps[0].snap == snap
    && match result
       case RunSuccess(_) => false
       case RunError(f, m) => steps == [Faulted(tok, snap, f, m), Reporting(tok, AfterError(f, m))]
       case RunThrew(m) => steps[1] == Reporting(tok, ReportRetry(m))
  }

  /** The worker got some way along the path before a statement threw. */
  predicate Fails(steps: seq<Phase>, path: seq<Phase>, tok: Token, snap: Input, result: RunResult) {
    && 2 <= |steps| <= |path| + 2
    && steps[..|steps| - 2] == path[..|steps| - 2]
    && Failing(steps[|steps| - 2..], tok, snap, result)
  }

  /** The worker went the whole path, and completes the job. */
  predicate Succeeds(steps: seq<Phase>, path: seq<Phase>, tok: Token, snap: Input, result: RunResult) {
    result.RunSuccess? && steps == path + [Reporting(tok, ReportComplete(snap))]
  }

  /** From the write of APPROVED: the notification comes after it. */
  predicate WriteRun(steps: seq<Phase>, tok: Token, snap: Input, result: RunResult) {
    || (result == RunSuccess(true) && Succeeds(steps, [Notifying(tok, snap)], tok, snap, result))
    || Fails(steps, [Notifying(tok, snap)], tok, snap, result)
  }

  /** From the decision to approve: the listing is found APPROVED, or is written and then announced. */
  predicate ApprovalRun(steps: seq<Phase>, tok: Token, snap: Input, result: RunResult) {
    var path := [Approving(tok, snap), Notifying(tok, snap)];
    || (result == RunSuccess(true) && (Succeeds(steps, [], tok, snap, result) || Succeeds(steps, path, tok, snap, result)))
    || Fails(steps, path, tok, snap, result)
  }

  /** From the audit row on. */
  predicate AppliedRun(steps: seq<Phase>, tok: Token, snap: Input, ok: bool, result: RunResult) {
    if ok then ApprovalRun(steps, tok, snap, result)
    else result == RunSuccess(false) && Succeeds(steps, [], tok, snap, result)
  }

  /** From the verdict: the audit row comes before everything else, and only a qualifying verdict leads
      to an approval. */
  predicate JudgedRun(steps: seq<Phase>, tok: Token, snap: Input, v: Verdict, threshold: real, result: RunResult) {
    var ok := Qualifies(v, threshold);
    || Fails(steps, [], tok, snap, result)
    || (|steps| > 0 && steps[0] == Recorded(tok, snap, ok)
        && AppliedRun(steps[1..], tok, snap, ok, result))
  }

  /** From the snapshot: the AI service fails, or gives a verdict. */
  predicate EvaluatedRun(steps: seq<Phase>, tok: Token, snap: Input, threshold: real, result: RunResult) {
    || Fails(steps, [], tok, snap, result)
    || (|steps| > 0 && steps[0].Judged? && steps[0] == Judged(tok, snap, steps[0].verdict)
        && JudgedRun(steps[1..], tok, snap, steps[0].verdict, threshold, result))
  }

  /** The whole of `runForListing`. */
  predicate WorkflowRun(steps: seq<Phase>, tok: Token, threshold: real, result: RunResult) {
    || (result.RunThrew? && steps == [Reporting(tok, ReportRetry(result.message))])
    || (|steps| > 0 && steps[0].Evaluating? && steps[0] == Evaluating(tok, steps[0].snap)
        && EvaluatedRun(steps[1..], tok, steps[0].snap, threshold, result))
  }

  class WorkflowService {
    const db: Db

    constructor (db: Db)
      ensures this.db == db
    {
      this.db := db;
    }

    /** Where a result leaves the worker. */
    ghost predicate Reports(p: WorkerId, tok: Token, result: RunResult)
      reads db
    {
      && p in db.workers && db.workers[p].Reporting? && db.workers[p].tok == tok
      && match result
         case RunSuccess(_) => db.workers[p].report.ReportComplete?
         case RunError(f, m) => db.workers[p].report == AfterError(f, m)
         case RunThrew(m) => db.workers[p].report == ReportRetry(m)
    }

    /** The row is in the log of the listing, unless the listing is gone. */
    ghost predicate Logs(l: ListingId, row: AuditRow)
      reads db
    {
      l in db.listings ==> row in Log(db.View(), l)
    }

    /** Nothing of what the catch block owes is missing. */
    ghost predicate LogsError(tok: Token, snap: Input, result: RunResult)
      reads db
    {
      result.RunError? ==> Logs(tok.listing, ErrorRow(snap, result.failure, result.message))
    }

    lemma ListedIsUsed(h: seq<Action>, l: ListingId)
      ensures l in Exec(Init(db.threshold), h).listings ==> l in Exec(Init(db.threshold), h).used
    {
      RunSound(db.threshold, h);
    }

    lemma LogsStill(h: seq<Action>, l: ListingId, row: AuditRow)
      requires db.Valid() && h <= db.history
      requires
        var s := Exec(Init(db.threshold), h);
        l in s.used && row in Log(s, l)
      ensures Logs(l, row)
    {
      if l in db.listings {
        RowKept(db.threshold, h, db.history, l, row);
      }
    }

    /** On success the log holds the SUCCESS row for the snapshot and its verdict, `applied` says whether
        that verdict qualifies, and if so the listing was APPROVED during the call; on an error the log
        holds the ERROR row; and the steps in between are those of the workflow, in its order. */
    method RunForListing(ghost p: WorkerId, tok: Token) returns (result: RunResult, ghost steps: seq<Phase>)
      requires db.Valid() && db.At(p, Claimed(tok))
      modifies db
      ensures db.Valid() && old(db.history) <= db.history && old(db.failures) <= db.failures && Reports(p, tok, result)
      ensures db.Steps(p) == old(db.Steps(p)) + steps && WorkflowRun(steps, tok, db.threshold, result)
      ensures result.RunSuccess? ==>
        && |steps| >= 2 && steps[0].Evaluating? && steps[1].Judged?
        && (result.applied <==> steps[1].verdict.risk == Low && steps[1].verdict.confidence >= db.threshold
                                && steps[1].verdict.violations == [] && steps[1].verdict.recommendation == Approve)
        && Logs(tok.listing, SuccessRow(steps[0].snap, steps[1].verdict, result.applied))
        && (result.applied ==> ApprovedWithin(db.threshold, old(db.history), db.history, tok.listing))
      ensures result.RunError? ==> |steps| >= 1 && steps[0].Evaluating? && LogsError(tok, steps[0].snap, result)
    {
      hide Exec, Walk, Failing, Fails, WriteRun, ApprovalRun, AppliedRun, JudgedRun, EvaluatedRun, WorkflowRun;
      var thrown, error := db.Await(p);
      if thrown {
        ThrowsAtOnce(tok, error, db.threshold);
        return RunThrew(error), [Reporting(tok, ReportRetry(error))];
      }
      var row := db.LoadListing(p, tok);
      if row.None? {
        ThrowsAtOnce(tok, NOT_FOUND, db.threshold);
        return RunThrew(NOT_FOUND), [Reporting(tok, ReportRetry(NOT_FOUND))];
      }
      ghost var loaded := db.history;
      ghost var tail;
      result, tail := EvaluateAndApply(p, tok, row.value.content);
      steps := [Evaluating(tok, row.value.content)] + tail;
      WorkflowRunOf(steps, tail, tok, row.value.content, db.threshold, result);
      if result.RunSuccess? && result.applied {
        ApprovedStill(db.threshold, old(db.history), loaded, db.history, db.history, tok.listing);
      }
    }

    /** The `try` block. */
    method EvaluateAndApply(ghost p: WorkerId, tok: Token, snap: Input) returns (result: RunResult, ghost steps: seq<Phase>)
      requires db.Valid() && db.At(p, Evaluating(tok, snap))
      modifies db
      ensures db.Valid() && old(db.history) <= db.history && old(db.failures) <= db.failures && Reports(p, tok, result)
      ensures db.Steps(p) == old(db.Steps(p)) + steps && EvaluatedRun(steps, tok, snap, db.threshold, result)
      ensures result.RunSuccess? ==>
        && |steps| >= 1 && steps[0].Judged?
        && (result.applied <==> steps[0].verdict.risk == Low && steps[0].verdict.confidence >= db.threshold
                                && steps[0].verdict.violations == [] && steps[0].verdict.recommendation == Approve)
        && Logs(tok.listing, SuccessRow(snap, steps[0].verdict, result.applied))
        && (result.applied ==> ApprovedWithin(db.threshold, old(db.history), db.history, tok.listing))
      ensures LogsError(tok, snap, result)
    {
      hide Exec, Walk, Failing, Fails, WriteRun, ApprovalRun, AppliedRun, JudgedRun, EvaluatedRun, WorkflowRun;
      db.Others(p);
      var answer := db.Evaluate(p, tok, snap);
      ghost var answered := db.history;
      ghost var tail;
      if answer.Fault? {
        result, tail := RecordError(p, tok, snap, answer.failure, answer.message);
        steps := [Faulted(tok, snap, answer.failure, answer.message)] + tail;
        FailsFirst(steps, tok, snap, db.threshold, result);
        return;
      }
      result, tail := RecordSuccess(p, tok, snap, answer.verdict);
      steps := [Judged(tok, snap, answer.verdict)] + tail;
      EvaluatedRunOf(steps, tail, tok, snap, answer.verdict, db.threshold, result);
      if result.RunSuccess? && result.applied {
        ApprovedStill(db.threshold, old(db.history), answered, db.history, db.history, tok.listing);
      }
    }

    /** An `await` in the try block: if the statement throws, the catch block runs. */
    method Guard(ghost p: WorkerId, tok: Token, snap: Input)
      returns (failed: bool, result: RunResult, ghost steps: seq<Phase>)
      requires db.Valid() && p in db.workers && db.workers[p].HasToken() && db.workers[p].tok == tok
      requires db.workers[p].Judged? || (db.workers[p].Recorded? && db.workers[p].approve) || db.workers[p].Approving?
               || db.workers[p].Notifying?
      requires db.workers[p].snap == snap
      modifies db
      ensures db.Valid() && old(db.history) <= db.history && old(db.failures) <= db.failures && db.Steps(p) == old(db.Steps(p)) + steps
      ensures failed ==> Failing(steps, tok, snap, result) && Reports(p, tok, result) && LogsError(tok, snap, result)
      ensures !failed ==> steps == [] && p in db.workers && db.workers[p] == old(db.workers)[p]
    {
      hide Exec, Walk, Failing, Next;
      result, steps := RunThrew(""), [];
      var error;
      failed, error := db.Await(p);
      if failed {
        result, steps := RecordError(p, tok, snap, Unknown, error);
        steps := [Faulted(tok, snap, Unknown, error)] + steps;
      }
    }

    /** The SUCCESS row is in the log before anything else happens, and stays there. */
    method RecordSuccess(ghost p: WorkerId, tok: Token, snap: Input, v: Verdict)
      returns (result: RunResult, ghost steps: seq<Phase>)
      requires db.Valid() && db.At(p, Judged(tok, snap, v))
      modifies db
      ensures db.Valid() && old(db.history) <= db.history && old(db.failures) <= db.failures && Reports(p, tok, result)
      ensures db.Steps(p) == old(db.Steps(p)) + steps && JudgedRun(steps, tok, snap, v, db.threshold, result)
      ensures result.RunSuccess? ==>
        (result.applied <==> v.risk == Low && v.confidence >= db.threshold && v.violations == [] && v.recommendation == Approve)
      ensures |steps| > 0 && steps[0].Recorded? ==> Logs(tok.listing, SuccessRow(snap, v, steps[0].approve))
      ensures |steps| > 0 && steps[0].Recorded? ==>
        (steps[0].approve <==> v.risk == Low && v.confidence >= db.threshold && v.violations == [] && v.recommendation == Approve)
      ensures result.RunSuccess? && result.applied ==> ApprovedWithin(db.threshold, old(db.history), db.history, tok.listing)
      ensures LogsError(tok, snap, result)
    {
      hide Exec, Walk, Failing, Fails, WriteRun, ApprovalRun, AppliedRun, JudgedRun, EvaluatedRun, WorkflowRun;
      var approve := v.risk == Low && v.confidence >= db.threshold && v.violations == [] && v.recommendation == Approve;
      var failed;
      failed, result, steps := Guard(p, tok, snap);
      if failed {
        FailsFirst(steps, tok, snap, db.threshold, result);
        return;
      }
      ghost var waited := db.history;
      ghost var walk := db.Steps(p);
      result, steps := CreateAndApply(p, tok, snap, v, approve);
      assert walk == old(db.Steps(p)) + [] == old(db.Steps(p));
      if result.RunSuccess? && result.applied {
        ApprovedStill(db.threshold, old(db.history), waited, db.history, db.history, tok.listing);
      }
    }

    method CreateAndApply(ghost p: WorkerId, tok: Token, snap: Input, v: Verdict, approve: bool)
      returns (result: RunResult, ghost steps: seq<Phase>)
      requires db.Valid() && db.At(p, Judged(tok, snap, v)) && approve == Qualifies(v, db.threshold)
      modifies db
      ensures db.Valid() && old(db.history) <= db.history && old(db.failures) <= db.failures && Reports(p, tok, result)
      ensures db.Steps(p) == old(db.Steps(p)) + steps && JudgedRun(steps, tok, snap, v, db.threshold, result)
      ensures result.RunSuccess? ==> result.applied == approve
      ensures |steps| > 0 && steps[0].Recorded? ==> steps[0].approve == approve && Logs(tok.listing, SuccessRow(snap, v, approve))
      ensures result.RunSuccess? && approve ==> ApprovedWithin(db.threshold, old(db.history), db.history, tok.listing)
      ensures LogsError(tok, snap, result)
    {
      hide Exec, Walk, Failing, Fails, WriteRun, ApprovalRun, AppliedRun, JudgedRun, EvaluatedRun, WorkflowRun;
      var created := db.CreateSuccess(p, tok, snap, v, approve);
      ghost var tail;
      if !created {
        result, tail := RecordError(p, tok, snap, Unknown, FOREIGN_KEY);
        steps := [Faulted(tok, snap, Unknown, FOREIGN_KEY)] + tail;
        FailsFirst(steps, tok, snap, db.threshold, result);
        return;
      }
      ghost var recorded := db.history;
      ListedIsUsed(recorded, tok.listing);
      result, tail := Apply(p, tok, snap, approve);
      LogsStill(recorded, tok.listing, SuccessRow(snap, v, approve));
      steps := [Recorded(tok, snap, approve)] + tail;
      JudgedRunOf(steps, tail, tok, snap, v, db.threshold, result);
      if result.RunSuccess? && approve {
        ApprovedStill(db.threshold, old(db.history), recorded, db.history, db.history, tok.listing);
      }
    }

    /** Only a qualifying verdict leads to `approveListing`. */
    method Apply(ghost p: WorkerId, tok: Token, snap: Input, approve: bool)
      returns (result: RunResult, ghost steps: seq<Phase>)
      requires db.Valid() && db.At(p, Recorded(tok, snap, approve))
      modifies db
      ensures db.Valid() && old(db.history) <= db.history && old(db.failures) <= db.failures && Reports(p, tok, result)
      ensures db.Steps(p) == old(db.Steps(p)) + steps
      ensures AppliedRun(steps, tok, snap, approve, result) && (result.RunSuccess? ==> result.applied == approve)
      ensures approve && result.RunSuccess? ==> ApprovedWithin(db.threshold, old(db.history), db.history, tok.listing)
      ensures LogsError(tok, snap, result)
    {
      hide Exec, Walk, Failing, Fails, WriteRun, ApprovalRun, AppliedRun, JudgedRun, EvaluatedRun, WorkflowRun;
      if approve {
        result, steps := ApproveListing(p, tok, snap);
        ApprovalApplies(steps, tok, snap, result);
      } else {
        db.Return(p, tok, snap);
        result, steps := RunSuccess(false), [Reporting(tok, ReportComplete(snap))];
        NothingApplied(tok, snap);
      }
    }

    /** Success means that the listing was APPROVED at some moment of the call: found so, or written. */
    method ApproveListing(ghost p: WorkerId, tok: Token, snap: Input) returns (result: RunResult, ghost steps: seq<Phase>)
      requires db.Valid() && db.At(p, Recorded(tok, snap, true))
      modifies db
      ensures db.Valid() && old(db.history) <= db.history && old(db.failures) <= db.failures && Reports(p, tok, result)
      ensures db.Steps(p) == old(db.Steps(p)) + steps && ApprovalRun(steps, tok, snap, result)
      ensures result.RunSuccess? ==> ApprovedWithin(db.threshold, old(db.history), db.history, tok.listing)
      ensures LogsError(tok, snap, result)
    {
      hide Exec, Walk, Failing, Fails, WriteRun, ApprovalRun, AppliedRun, JudgedRun, EvaluatedRun, WorkflowRun;
      var failed;
      failed, result, steps := Guard(p, tok, snap);
      if failed {
        FailsFirst(steps, tok, snap, db.threshold, result);
        return;
      }
      ghost var waited := db.history;
      ghost var walk := db.Steps(p);
      result, steps := LookUpAndWrite(p, tok, snap);
      assert walk == old(db.Steps(p)) + [] == old(db.Steps(p));
      if result.RunSuccess? {
        ApprovedStill(db.threshold, old(db.history), waited, db.history, db.history, tok.listing);
      }
    }

    method LookUpAndWrite(ghost p: WorkerId, tok: Token, snap: Input) returns (result: RunResult, ghost steps: seq<Phase>)
      requires db.Valid() && db.At(p, Recorded(tok, snap, true))
      modifies db
      ensures db.Valid() && old(db.history) <= db.history && old(db.failures) <= db.failures && Reports(p, tok, result)
      ensures db.Steps(p) == old(db.Steps(p)) + steps && ApprovalRun(steps, tok, snap, result)
      ensures result.RunSuccess? ==> ApprovedWithin(db.threshold, old(db.history), db.history, tok.listing)
      ensures LogsError(tok, snap, result)
    {
      hide Exec, Walk, Failing, Fails, WriteRun, ApprovalRun, AppliedRun, JudgedRun, EvaluatedRun, WorkflowRun;
      var row := db.FindForApproval(p, tok, snap);
      ghost var found := db.history;
      ghost var tail;
      if row.None? {
        result, tail := RecordError(p, tok, snap, Unknown, NOT_FOUND);
        steps := [Faulted(tok, snap, Unknown, NOT_FOUND)] + tail;
        FailsFirst(steps, tok, snap, db.threshold, result);
      } else if row.value.approval == Approved {
        result, steps := RunSuccess(true), [Reporting(tok, ReportComplete(snap))];
        ApprovedNow(db.threshold, old(db.history), found, tok.listing);
        ApprovalFound(tok, snap);
      } else {
        result, tail := WriteAndNotify(p, tok, snap);
        steps := [Approving(tok, snap)] + tail;
        ApprovalRunOf(steps, tail, tok, snap, result);
        if result.RunSuccess? {
          ApprovedStill(db.threshold, old(db.history), found, db.history, db.history, tok.listing);
        }
      }
    }

    /** The listing is APPROVED before the notification goes out. */
    method WriteAndNotify(ghost p: WorkerId, tok: Token, snap: Input) returns (result: RunResult, ghost steps: seq<Phase>)
      requires db.Valid() && db.At(p, Approving(tok, snap))
      modifies db
      ensures db.Valid() && old(db.history) <= db.history && old(db.failures) <= db.failures && Reports(p, tok, result)
      ensures db.Steps(p) == old(db.Steps(p)) + steps
      ensures WriteRun(steps, tok, snap, result)
      ensures result.RunSuccess? || (steps != [] && steps[0].Notifying?) ==>
                ApprovedWithin(db.threshold, old(db.history), db.history, tok.listing)
      ensures LogsError(tok, snap, result)
    {
      hide Exec, Walk, Failing, Fails, WriteRun, ApprovalRun, AppliedRun, JudgedRun, EvaluatedRun, WorkflowRun;
      var failed;
      failed, result, steps := Guard(p, tok, snap);
      if failed {
        FailsFirst(steps, tok, snap, db.threshold, result);
        return;
      }
      ghost var waited := db.history;
      ghost var walk := db.Steps(p);
      result, steps := UpdateAndNotify(p, tok, snap);
      assert walk == old(db.Steps(p)) + [] == old(db.Steps(p));
      if result.RunSuccess? || steps[0].Notifying? {
        ApprovedStill(db.threshold, old(db.history), waited, db.history, db.history, tok.listing);
      }
    }

    method UpdateAndNotify(ghost p: WorkerId, tok: Token, snap: Input) returns (result: RunResult, ghost steps: seq<Phase>)
      requires db.Valid() && db.At(p, Approving(tok, snap))
      modifies db
      ensures db.Valid() && old(db.history) <= db.history && old(db.failures) <= db.failures && Reports(p, tok, result)
      ensures db.Steps(p) == old(db.Steps(p)) + steps && WriteRun(steps, tok, snap, result) && steps != []
      ensures result.RunSuccess? || steps[0].Notifying? ==>
                ApprovedWithin(db.threshold, old(db.history), db.history, tok.listing)
      ensures LogsError(tok, snap, result)
    {
      hide Exec, Walk, Failing, Fails, WriteRun, ApprovalRun, AppliedRun, JudgedRun, EvaluatedRun, WorkflowRun;
      var updated := db.WriteApproved(p, tok, snap);
      ghost var tail;
      if !updated {
        result, tail := RecordError(p, tok, snap, Unknown, NOT_FOUND);
        steps := [Faulted(tok, snap, Unknown, NOT_FOUND)] + tail;
        FailsFirst(steps, tok, snap, db.threshold, result);
        return;
      }
      ghost var written := db.history;
      ApprovedNow(db.threshold, old(db.history), written, tok.listing);
      result, tail := Notify(p, tok, snap);
      steps := [Notifying(tok, snap)] + tail;
      WriteRunOf(steps, tail, tok, snap, result);
      ApprovedStill(db.threshold, old(db.history), old(db.history), written, db.history, tok.listing);
    }

    /** The notification to the seller, which is not in the model, may still throw. */
    method Notify(ghost p: WorkerId, tok: Token, snap: Input) returns (result: RunResult, ghost steps: seq<Phase>)
      requires db.Valid() && db.At(p, Notifying(tok, snap))
      modifies db
      ensures db.Valid() && old(db.history) <= db.history && old(db.failures) <= db.failures && Reports(p, tok, result)
      ensures db.Steps(p) == old(db.Steps(p)) + steps
      ensures (result == RunSuccess(true) && Succeeds(steps, [], tok, snap, result)) || Failing(steps, tok, snap, result)
      ensures LogsError(tok, snap, result)
    {
      var failed;
      failed, result, steps := Guard(p, tok, snap);
      if failed {
        return;
      }
      db.Return(p, tok, snap);
      result, steps := RunSuccess(true), [Reporting(tok, ReportComplete(snap))];
    }

    /** The `catch` block: one ERROR row for the snapshot, or an exception. */
    method RecordError(ghost p: WorkerId, tok: Token, snap: Input, failure: Failure, message: string)
      returns (result: RunResult, ghost steps: seq<Phase>)
      requires db.Valid() && db.At(p, Faulted(tok, snap, failure, message))
      modifies db
      ensures db.Valid() && old(db.history) <= db.history && old(db.failures) <= db.failures && Reports(p, tok, result)
      ensures db.Steps(p) == old(db.Steps(p)) + steps
      ensures Failing([Faulted(tok, snap, failure, message)] + steps, tok, snap, result)
      ensures result.RunError? ==>
        && result == RunError(failure, message) && tok.listing in db.listings
        && Log(db.View(), tok.listing) != []
        && Log(db.View(), tok.listing)[|Log(db.View(), tok.listing)| - 1] == ErrorRow(snap, failure, message)
      ensures LogsError(tok, snap, result)
    {
      hide Exec, Walk, Next;
      var thrown, error := db.Await(p);
      if thrown {
        return RunThrew(error), [Reporting(tok, ReportRetry(error))];
      }
      var created := db.CreateError(p, tok, snap, failure, message);
      if created {
        result, steps := RunError(failure, message), [Reporting(tok, AfterError(failure, message))];
      } else {
        result, steps := RunThrew(FOREIGN_KEY), [Reporting(tok, ReportRetry(FOREIGN_KEY))];
      }
    }
  }

  // ----- how the steps of a run are put together -----

  lemma FailsAtOnce(steps: seq<Phase>, path: seq<Phase>, tok: Token, snap: Input, result: RunResult)
    requires Failing(steps, tok, snap, result)
    ensures Fails(steps, path, tok, snap, result)
  {
    assert steps[|steps| - 2..] == steps;
  }

  /** Whatever the worker was about to do, the error comes first. */
  lemma FailsFirst(steps: seq<Phase>, tok: Token, snap: Input, threshold: real, result: RunResult)
    requires Failing(steps, tok, snap, result)
    ensures WriteRun(steps, tok, snap, result) && ApprovalRun(steps, tok, snap, result)
    ensures forall v :: JudgedRun(steps, tok, snap, v, threshold, result)
    ensures EvaluatedRun(steps, tok, snap, threshold, result)
    ensures !result.RunSuccess? && steps != [] && steps[0].Faulted?
  {
    FailsAtOnce(steps, [], tok, snap, result);
    FailsAtOnce(steps, [Notifying(tok, snap)], tok, snap, result);
    FailsAtOnce(steps, [Approving(tok, snap), Notifying(tok, snap)], tok, snap, result);
  }

  lemma WriteRunOf(steps: seq<Phase>, tail: seq<Phase>, tok: Token, snap: Input, result: RunResult)
    requires steps == [Notifying(tok, snap)] + tail
    requires (result == RunSuccess(true) && Succeeds(tail, [], tok, snap, result)) || Failing(tail, tok, snap, result)
    ensures WriteRun(steps, tok, snap, result)
  {
    if !result.RunSuccess? {
      assert steps[|steps| - 2..] == tail;
    }
  }

  lemma ApprovalFound(tok: Token, snap: Input)
    ensures ApprovalRun([Reporting(tok, ReportComplete(snap))], tok, snap, RunSuccess(true))
  {
    assert Succeeds([Reporting(tok, ReportComplete(snap))], [], tok, snap, RunSuccess(true));
  }

  lemma ApprovalRunOf(steps: seq<Phase>, tail: seq<Phase>, tok: Token, snap: Input, result: RunResult)
    requires steps == [Approving(tok, snap)] + tail && WriteRun(tail, tok, snap, result)
    ensures ApprovalRun(steps, tok, snap, result)
  {
    if Fails(tail, [Notifying(tok, snap)], tok, snap, result) {
      var n := |tail| - 2;
      assert steps[|steps| - 2..] == tail[n..];
      assert steps[..|steps| - 2] == [Approving(tok, snap)] + tail[..n];
      assert [Approving(tok, snap), Notifying(tok, snap)][..n + 1] == [Approving(tok, snap)] + [Notifying(tok, snap)][..n];
    }
  }

  lemma ApprovalApplies(steps: seq<Phase>, tok: Token, snap: Input, result: RunResult)
    requires ApprovalRun(steps, tok, snap, result)
    ensures AppliedRun(steps, tok, snap, true, result) && (result.RunSuccess? ==> result.applied)
  {
  }

  lemma NothingApplied(tok: Token, snap: Input)
    ensures AppliedRun([Reporting(tok, ReportComplete(snap))], tok, snap, false, RunSuccess(false))
  {
  }

  lemma JudgedRunOf(steps: seq<Phase>, tail: seq<Phase>, tok: Token, snap: Input, v: Verdict, threshold: real, result: RunResult)
    requires steps == [Recorded(tok, snap, Qualifies(v, threshold))] + tail
    requires AppliedRun(tail, tok, snap, Qualifies(v, threshold), result)
    ensures JudgedRun(steps, tok, snap, v, threshold, result)
    ensures steps[0].Recorded? && (result.RunSuccess? ==> result.applied == Qualifies(v, threshold))
  {
    assert steps[1..] == tail;
  }

  lemma EvaluatedRunOf(steps: seq<Phase>, tail: seq<Phase>, tok: Token, snap: Input, v: Verdict, threshold: real, result: RunResult)
    requires steps == [Judged(tok, snap, v)] + tail && JudgedRun(tail, tok, snap, v, threshold, result)
    ensures EvaluatedRun(steps, tok, snap, threshold, result)
    ensures result.RunSuccess? ==> tail != [] && tail[0].Recorded?
  {
    assert steps[1..] == tail;
  }

  lemma WorkflowRunOf(steps: seq<Phase>, tail: seq<Phase>, tok: Token, snap: Input, threshold: real, result: RunResult)
    requires steps == [Evaluating(tok, snap)] + tail && EvaluatedRun(tail, tok, snap, threshold, result)
    ensures WorkflowRun(steps, tok, threshold, result)
  {
    assert steps[1..] == tail;
  }

  lemma ThrowsAtOnce(tok: Token, error: string, threshold: real)
    ensures WorkflowRun([Reporting(tok, ReportRetry(error))], tok, threshold, RunThrew(error))
  {
  }

  // ----- ListingModerationWorkerService -----

  lemma JobSwapsNothing(walk: seq<Phase>, steps: seq<Phase>)
    requires forall i :: 0 <= i < |steps| ==> !steps[i].Swapped?
    ensures Swaps(walk + steps) == Swaps(walk)
  {
    SwapsConcat(walk, steps);
    NoSwaps(steps);
  }

  lemma OneSwap(steps: seq<Phase>)
    requires |steps| <= 3 && forall i :: 0 <= i < |steps| ==> (steps[i].Swapped? ==> i == 1)
    ensures Swaps(steps) <= 1
    ensures |steps| == 3 && steps[1].Swapped? ==> Swaps(steps) == 1
  {
    if |steps| >= 2 {
      NoSwaps(steps[..1]);
      assert steps[..2][..1] == steps[..1];
      if |steps| == 3 {
        assert steps[..|steps| - 1] == steps[..2];
      }
    } else {
      NoSwaps(steps);
    }
  }

  predicate NoneSwapped(steps: seq<Phase>) {
    forall i :: 0 <= i < |steps| ==> !steps[i].Swapped?
  }

  lemma NoneSwappedFrom(steps: seq<Phase>)
    requires steps != [] && !steps[0].Swapped? && NoneSwapped(steps[1..])
    ensures NoneSwapped(steps)
  {
    forall i | 0 <= i < |steps|
      ensures !steps[i].Swapped?
    {
      assert i > 0 ==> steps[i] == steps[1..][i - 1];
    }
  }

  lemma WorkflowSwapsNothing(steps: seq<Phase>, tok: Token, threshold: real, result: RunResult)
    requires WorkflowRun(steps, tok, threshold, result)
    ensures NoneSwapped(steps) && steps != []
  {
    hide EvaluatedRun;
    if steps[0].Evaluating? {
      EvaluationSwapsNothing(steps[1..], tok, steps[0].snap, threshold, result);
      NoneSwappedFrom(steps);
    }
  }

  lemma EvaluationSwapsNothing(steps: seq<Phase>, tok: Token, snap: Input, threshold: real, result: RunResult)
    requires EvaluatedRun(steps, tok, snap, threshold, result)
    ensures NoneSwapped(steps)
  {
    hide JudgedRun, Fails;
    if Fails(steps, [], tok, snap, result) {
      FailureSwapsNothing(steps, [], tok, snap, result);
    } else {
      JudgementSwapsNothing(steps[1..], tok, snap, steps[0].verdict, threshold, result);
      NoneSwappedFrom(steps);
    }
  }

  lemma JudgementSwapsNothing(steps: seq<Phase>, tok: Token, snap: Input, v: Verdict, threshold: real, result: RunResult)
    requires JudgedRun(steps, tok, snap, v, threshold, result)
    ensures NoneSwapped(steps)
  {
    hide AppliedRun, Fails;
    if Fails(steps, [], tok, snap, result) {
      FailureSwapsNothing(steps, [], tok, snap, result);
    } else {
      ApplicationSwapsNothing(steps[1..], tok, snap, Qualifies(v, threshold), result);
      NoneSwappedFrom(steps);
    }
  }

  lemma ApplicationSwapsNothing(steps: seq<Phase>, tok: Token, snap: Input, ok: bool, result: RunResult)
    requires AppliedRun(steps, tok, snap, ok, result)
    ensures NoneSwapped(steps)
  {
    hide Fails;
    var path := [Approving(tok, snap), Notifying(tok, snap)];
    if Fails(steps, path, tok, snap, result) {
      FailureSwapsNothing(steps, path, tok, snap, result);
    }
  }

  lemma FailureSwapsNothing(steps: seq<Phase>, path: seq<Phase>, tok: Token, snap: Input, result: RunResult)
    requires Fails(steps, path, tok, snap, result) && NoneSwapped(path)
    ensures NoneSwapped(steps)
  {
    var n := |steps| - 2;
    assert steps[n] == steps[n..][0] && steps[n + 1] == steps[n..][1];
    forall i | 0 <= i < n
      ensures steps[i] == path[i]
    {
      assert steps[..n][i] == path[..n][i];
    }
  }

  lemma LatestAppended(threshold: real, run: seq<Action>, a: Action)
    ensures Latest(threshold, run + [a], a, Exec(Init(threshold), run))
  {
    assert (run + [a])[..|run|] == run;
  }

  /** How a poll ends: five jobs claimed, nothing due, the selected row lost to somebody else, a statement
      that threw, or not at all because another poll is running. */
  datatype PollEnd = Five | Idle | Lost | Broken | Skipped

  predicate RunTheirCourse(ends: seq<PollEnd>) {
    forall i :: 0 <= i < |ends| ==> ends[i].Five? || ends[i].Idle?
  }

  lemma NothingSince(threshold: real, earlier: seq<Action>, mid: seq<Action>, later: seq<Action>, p: WorkerId, since: nat, start: nat)
    requires earlier <= mid <= later && start <= since
    requires IdledWithin(threshold, mid, later, p, since) || LostWithin(threshold, mid, later, p)
    ensures IdledWithin(threshold, earlier, later, p, start) || LostWithin(threshold, earlier, later, p)
  {
    if LostWithin(threshold, mid, later, p) {
      LostStill(threshold, earlier, mid, later, later, p);
    } else {
      IdledStill(threshold, earlier, mid, later, p, since, start);
    }
  }

  lemma EndsSince(threshold: real, earlier: seq<Action>, mid: seq<Action>, later: seq<Action>, p: WorkerId, end: PollEnd)
    requires earlier <= mid <= later
    requires end.Idle? ==> IdledWithin(threshold, mid, later, p, Exec(Init(threshold), mid).clock)
    requires end.Lost? ==> LostWithin(threshold, mid, later, p)
    ensures end.Idle? ==> IdledWithin(threshold, earlier, later, p, Exec(Init(threshold), earlier).clock)
    ensures end.Lost? ==> LostWithin(threshold, earlier, later, p)
  {
    ClockKept(threshold, earlier, mid);
    if end.Idle? {
      IdledStill(threshold, earlier, mid, later, p, Exec(Init(threshold), mid).clock, Exec(Init(threshold), earlier).clock);
    } else if end.Lost? {
      LostStill(threshold, earlier, mid, later, later, p);
    }
  }

  lemma NoPolls(s: State)
    ensures CompletePolls(s, []) && Flatten([]) == []
  {
  }

  lemma PollAfter(threshold: real, began: seq<Action>, waited: seq<Action>, later: seq<Action>)
    requires began <= waited <= later && CompletePoll(Exec(Init(threshold), waited), later[|waited|..])
    ensures CompletePoll(Exec(Init(threshold), began), later[|began|..])
  {
    hide Exec, Next, CompletePoll;
    var first := waited[|began|..];
    assert began + first == waited && later[|began|..] == first + later[|waited|..];
    ExecConcat(Init(threshold), began, first);
    RunSound(threshold, began);
    CompleteLater(Exec(Init(threshold), began), first, later[|waited|..]);
  }

  lemma OneMorePoll(threshold: real, began: seq<Action>, before: seq<Action>, now: seq<Action>, p: WorkerId, start: State,
                    ends: seq<PollEnd>, polls: seq<seq<Action>>, end: PollEnd, poll: seq<Action>)
    requires start == Exec(Init(threshold), began) && before == began + Flatten(polls) && now == before + poll
    requires (exists i :: 0 <= i < |ends| && ends[i].Lost?) ==> LostWithin(threshold, began, before, p)
    requires RunTheirCourse(ends) ==> CompletePolls(start, polls)
    requires end.Five? || end.Idle? ==> CompletePoll(Exec(Init(threshold), before), poll)
    requires end.Lost? ==> LostWithin(threshold, before, now, p)
    ensures now == began + Flatten(polls + [poll])
    ensures (exists i :: 0 <= i < |ends| + 1 && (ends + [end])[i].Lost?) ==> LostWithin(threshold, began, now, p)
    ensures RunTheirCourse(ends + [end]) ==> CompletePolls(start, polls + [poll])
  {
    hide Exec, Next, CompletePoll, CompletePolls, LostWithin, Flatten;
    FlattenAppend(polls, poll);
    if exists i :: 0 <= i < |ends| && ends[i].Lost? {
      LostStill(threshold, began, began, before, now, p);
    } else if end.Lost? {
      LostStill(threshold, began, before, now, now, p);
    }
    if RunTheirCourse(ends + [end]) {
      assert RunTheirCourse(ends) by {
        forall i | 0 <= i < |ends|
          ensures ends[i].Five? || ends[i].Idle?
        {
          assert (ends + [end])[i] == ends[i];
        }
      }
      assert (ends + [end])[|ends|] == end;
      ExecConcat(Init(threshold), began, Flatten(polls));
      CompletePollsAppend(start, polls, poll);
    }
  }

  class WorkerService {
    const db: Db
    const jobService: JobService
    const workflowService: WorkflowService
    var running: bool

    constructor (db: Db)
      ensures this.db == db && jobService.db == db && workflowService.db == db && !running
    {
      this.db := db;
      jobService := new JobService(db);
      workflowService := new WorkflowService(db);
      running := false;
    }

    /** The last statement was the worker's report, and it changed the queue as it should. */
    ghost predicate Heard(p: WorkerId, job: Token, report: Report, before: State)
      reads db
    {
      && Latest(db.threshold, db.history, Work(p, Report(db.clock)), before)
      && db.jobs == ReportRow(before.jobs, job, report, db.clock)
    }

    /** The steps are those of the workflow, and the report that they end with is what reaches the queue;
        unless an exception hits the dispatch, and then a retry does, or the error handler fails too.
        Either way the worker holds nothing any more. */
    method ProcessJob(ghost p: WorkerId, job: Token)
      returns (threw: bool, ghost result: RunResult, ghost steps: seq<Phase>, ghost report: Report, ghost before: State)
      requires jobService.db == db && workflowService.db == db
      requires db.Valid() && db.At(p, Claimed(job))
      modifies db
      ensures db.Valid() && old(db.history) <= db.history && old(db.failures) <= db.failures && p !in db.workers
      ensures Swaps(db.Steps(p)) == Swaps(old(db.Steps(p)))
      ensures WorkflowRun(steps, job, db.threshold, result) && steps != [] && steps[|steps| - 1].Reporting?
      ensures
        || (db.Steps(p) == old(db.Steps(p)) + steps && report == steps[|steps| - 1].report)
        || (db.Steps(p) == old(db.Steps(p)) + steps + [Reporting(job, report)] && report.ReportRetry?)
      ensures threw ==> old(db.failures) < db.failures
      ensures if threw then Latest(db.threshold, db.history, Work(p, Crash), before) && db.jobs == before.jobs
              else Heard(p, job, report, before)
    {
      hide Exec, Walk, WorkflowRun, Swaps, Latest, Heard;
      var outcome;
      outcome, steps := workflowService.RunForListing(p, job);
      result := outcome;
      WorkflowSwapsNothing(steps, job, db.threshold, outcome);
      JobSwapsNothing(old(db.Steps(p)), steps);
      LastStep(db.threshold, db.history, p);
      assert db.workers[p] == steps[|steps| - 1];
      report := db.workers[p].report;
      ghost var walk := db.Steps(p);
      if outcome.RunThrew? {
        threw, before := Handle(p, job, outcome.message);
      } else {
        threw, report, before := Settle(p, job, outcome);
        JobSwapsNothing(walk, [Reporting(job, report)]);
      }
    }

    /** The dispatch of a result, inside the `try` block. */
    method Settle(ghost p: WorkerId, job: Token, result: RunResult)
      returns (threw: bool, ghost report: Report, ghost before: State)
      requires jobService.db == db && workflowService.db == db && !result.RunThrew?
      requires db.Valid() && workflowService.Reports(p, job, result)
      modifies db
      ensures db.Valid() && old(db.history) <= db.history && old(db.failures) <= db.failures && p !in db.workers
      ensures
        || (db.Steps(p) == old(db.Steps(p)) && report == old(db.workers)[p].report)
        || (db.Steps(p) == old(db.Steps(p)) + [Reporting(job, report)] && report.ReportRetry?)
      ensures threw ==> old(db.failures) < db.failures
      ensures if threw then Latest(db.threshold, db.history, Work(p, Crash), before) && db.jobs == before.jobs
              else Heard(p, job, report, before)
    {
      hide Walk;
      report := db.workers[p].report;
      var thrown, error := db.Await(p);
      if thrown {
        report := ReportRetry(error);
        threw, before := Handle(p, job, error);
      } else {
        before := db.View();
        ghost var waited := db.history;
        Dispatch(p, job, result);
        threw := false;
        LatestAppended(db.threshold, waited, Work(p, Report(db.clock)));
      }
    }

    /** Maps the result of the workflow to `retry`, `fail` or `complete`. */
    method Dispatch(ghost p: WorkerId, job: Token, result: RunResult)
      requires jobService.db == db && workflowService.db == db && !result.RunThrew?
      requires db.Valid() && workflowService.Reports(p, job, result)
      modifies db`jobs, db`workers, db`history
      ensures db.Valid() && db.Logged(Work(p, Report(db.clock))) && p !in db.workers
      ensures db.jobs == ReportRow(old(db.jobs), job, old(db.workers)[p].report, db.clock)
    {
      match result
      case RunError(failure, message) =>
        if failure == Timeout || failure == Provider {
          jobService.Retry(p, job, message);
        } else {
          jobService.Fail(p, job, message, ReportFail(message));
        }
      case RunSuccess(_) =>
        jobService.Complete(p, job, db.workers[p].report.judged);
    }

    /** The `catch` block: the job is retried, or the handler throws as well and abandons it. */
    method Handle(ghost p: WorkerId, job: Token, error: string) returns (threw: bool, ghost before: State)
      requires jobService.db == db
      requires db.Valid() && db.At(p, Reporting(job, ReportRetry(error)))
      modifies db
      ensures db.Valid() && old(db.history) <= db.history && old(db.failures) <= db.failures && p !in db.workers
      ensures db.Steps(p) == old(db.Steps(p))
      ensures threw ==> old(db.failures) < db.failures
      ensures if threw then Latest(db.threshold, db.history, Work(p, Crash), before) && db.jobs == before.jobs
              else Heard(p, job, ReportRetry(error), before)
    {
      hide Walk;
      threw, before := db.Aborts(p);
      if !threw {
        before := db.View();
        ghost var waited := db.history;
        jobService.Retry(p, job, error);
        LatestAppended(db.threshold, waited, Work(p, Report(db.clock)));
      }
    }

    /** One tick: does nothing while another poll of this worker runs, moves at most five rows to RUNNING,
        and leaves no token behind.  It runs its course, with five jobs claimed or nothing due, unless a
        statement throws or somebody interferes with the row that the worker has selected. */
    method Poll(ghost p: WorkerId) returns (ghost end: PollEnd)
      requires jobService.db == db && workflowService.db == db
      requires db.Valid() && (!running ==> p !in db.workers)
      modifies this`running, db
      ensures db.Valid() && old(db.history) <= db.history && old(db.failures) <= db.failures
      ensures old(running) <==> end.Skipped?
      ensures old(running) ==> running && db.history == old(db.history) && db.View() == old(db.View())
      ensures !old(running) ==> !running && p !in db.workers
      ensures Swaps(db.Steps(p)) <= Swaps(old(db.Steps(p))) + 5
      ensures end.Five? || end.Idle? ==> CompletePoll(old(db.View()), db.history[|old(db.history)|..])
      ensures end.Lost? ==> LostWithin(db.threshold, old(db.history), db.history, p)
      ensures end.Broken? ==> old(db.failures) < db.failures
    {
      if running {
        return Skipped;
      }
      hide Exec, Walk, Swaps, CompletePoll, LostWithin, IdledWithin;
      ghost var began, time := db.history, db.clock;
      running := true;
      end := Five;
      for index := 0 to 5
        invariant running && db.Valid() && began <= db.history && p !in db.workers && end.Five?
        invariant old(db.failures) <= db.failures
        invariant Swaps(db.Steps(p)) == Swaps(old(db.Steps(p))) + index
      {
        ghost var before := db.history;
        var found;
        found, end := ClaimAndProcess(p);
        ClockKept(db.threshold, began, before);
        if !found {
          EndsSince(db.threshold, began, before, db.history, p, end);
          break;
        }
      }
      running := false;
      if end.Five? {
        FiveAreComplete(db.threshold, began, db.history, p);
      } else if end.Idle? {
        IdleIsComplete(db.threshold, began, db.history, p);
      }
    }

    /** The body of the loop; whether the loop goes on, and if not, why. */
    method ClaimAndProcess(ghost p: WorkerId) returns (found: bool, ghost end: PollEnd)
      requires jobService.db == db && workflowService.db == db
      requires db.Valid() && p !in db.workers
      modifies db
      ensures db.Valid() && old(db.history) <= db.history && old(db.failures) <= db.failures && p !in db.workers
      ensures found <==> end.Five?
      ensures if found then Swaps(db.Steps(p)) == Swaps(old(db.Steps(p))) + 1
              else Swaps(db.Steps(p)) <= Swaps(old(db.Steps(p))) + 1
      ensures !end.Skipped?
      ensures end.Idle? ==> IdledWithin(db.threshold, old(db.history), db.history, p, old(db.clock))
      ensures end.Broken? ==> old(db.failures) < db.failures
      ensures end.Lost? ==> LostWithin(db.threshold, old(db.history), db.history, p)
    {
      hide Exec, Walk, Swaps, Heard, Latest, WorkflowRun, IdledWithin, LostWithin;
      ghost var began, time := db.history, db.clock;
      db.Others(p);
      ghost var waited, later := db.history, db.clock;
      ClockKept(db.threshold, began, waited);
      var job, threw;
      ghost var claim, result, steps, report, before;
      ghost var start := db.Steps(p);
      job, threw, claim := jobService.ClaimNextJob(p);
      OneSwap(claim);
      SwapsConcat(start, claim);
      if job.None? {
        found, end := false, Broken;
        if !threw {
          NothingSince(db.threshold, began, waited, db.history, p, later, time);
          end := if IdledWithin(db.threshold, began, db.history, p, time) then Idle else Lost;
        }
        return;
      }
      assert claim[1] == claim[1..][0];
      threw, result, steps, report, before := ProcessJob(p, job.value);
      found := !threw;
      end := if threw then Broken else Five;
    }

    /** The interval timer: polls again and again, with others in between.  If every poll runs its course,
        a job that is due at the start, with `a` rivals, is claimed within ceil((a + 1) / 5) polls, unless
        it is enqueued or deleted first or a step does not yield to it. */
    method RunPolls(ghost p: WorkerId, ticks: nat) returns (ghost ends: seq<PollEnd>, ghost polls: seq<seq<Action>>)
      requires jobService.db == db && workflowService.db == db
      requires db.Valid() && !running && p !in db.workers
      modifies this`running, db
      ensures db.Valid() && !running && p !in db.workers && old(db.failures) <= db.failures
      ensures db.history == old(db.history) + Flatten(polls) && |ends| == |polls| == ticks
      ensures forall i :: 0 <= i < ticks ==> !ends[i].Skipped?
      ensures (exists i :: 0 <= i < ticks && ends[i].Lost?) ==> LostWithin(db.threshold, old(db.history), db.history, p)
      ensures (forall i :: 0 <= i < ticks ==> !ends[i].Broken?) && !LostWithin(db.threshold, old(db.history), db.history, p)
              ==> RunTheirCourse(ends)
      ensures (exists i :: 0 <= i < ticks && ends[i].Broken?) ==> old(db.failures) < db.failures
      ensures RunTheirCourse(ends) ==> CompletePolls(old(db.View()), polls)
      ensures RunTheirCourse(ends) ==>
        forall j :: DueNow(old(db.View()), j) && ticks == (|Rivals(old(db.View()), j)| + 5) / 5
                    && LeftAlone(old(db.View()), Flatten(polls), j)
                    ==> ClaimedIn(old(db.View()), Flatten(polls), j)
    {
      hide Exec, Walk, CompletePoll, CompletePolls, LostWithin, Flatten, Rivals, LeftAlone, ClaimedIn;
      ghost var began, start := db.history, db.View();
      ends, polls := [], [];
      NoPolls(start);
      for tick := 0 to ticks
        invariant db.Valid() && !running && p !in db.workers
        invariant db.history == began + Flatten(polls) && |ends| == |polls| == tick
        invariant forall i :: 0 <= i < tick ==> !ends[i].Skipped?
        invariant old(db.failures) <= db.failures
        invariant (exists i :: 0 <= i < tick && ends[i].Broken?) ==> old(db.failures) < db.failures
        invariant (exists i :: 0 <= i < tick && ends[i].Lost?) ==> LostWithin(db.threshold, began, db.history, p)
        invariant RunTheirCourse(ends) ==> CompletePolls(start, polls)
      {
        ghost var before := db.history;
        ghost var end, poll := Tick(p);
        OneMorePoll(db.threshold, began, before, db.history, p, start, ends, polls, end, poll);
        ends, polls := ends + [end], polls + [poll];
      }
      RunChoices(db.threshold, began);
      if RunTheirCourse(ends) {
        forall j | DueNow(start, j) && ticks == (|Rivals(start, j)| + 5) / 5 && LeftAlone(start, Flatten(polls), j)
          ensures ClaimedIn(start, Flatten(polls), j)
        {
          ClaimedWithinPolls(start, polls, j);
        }
      }
    }

    /** One turn of the timer. */
    method Tick(ghost p: WorkerId) returns (ghost end: PollEnd, ghost poll: seq<Action>)
      requires jobService.db == db && workflowService.db == db
      requires db.Valid() && !running && p !in db.workers
      modifies this`running, db
      ensures db.Valid() && !running && p !in db.workers && !end.Skipped?
      ensures db.history == old(db.history) + poll && old(db.failures) <= db.failures
      ensures end.Broken? ==> old(db.failures) < db.failures
      ensures end.Five? || end.Idle? ==> CompletePoll(old(db.View()), poll)
      ensures end.Lost? ==> LostWithin(db.threshold, old(db.history), db.history, p)
    {
      hide Exec, Walk, CompletePoll, LostWithin;
      ghost var began, start := db.history, db.View();
      db.Others(p);
      ghost var waited := db.history;
      end := Poll(p);
      poll := db.history[|began|..];
      if end.Five? || end.Idle? {
        PollAfter(db.threshold, began, waited, db.history);
      } else if end.Lost? {
        LostStill(db.threshold, began, waited, db.history, db.history, p);
      }
    }
  }
}
