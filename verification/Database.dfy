/**
 The shared database as a mutable object.  Each method is one statement that a service awaits; it
 updates the tables in place and appends its action to `history`, so that the object always stands
 where the run `history` of the protocol leads.  `Others` is what may happen at an `await`.
 */
module Database {
  import opened Options
  import opened JobQueue
  import opened Moderation
  import opened Protocol
  import opened Fencing
  import opened NoLostEdit

  const NOT_FOUND := "Listing not found"
  const FOREIGN_KEY := "Foreign key constraint violated"

  /** The phase that worker `p` enters by this action, if it is its own. */
  ghost function Entered(before: State, a: Action, p: WorkerId): seq<Phase> {
    if a.Work? && a.p == p && Enabled(before, a) && p in Next(before, a).workers then [Next(before, a).workers[p]] else []
  }

  /** The phases that worker `p` has entered by its own steps, in order. */
  ghost function Walk(threshold: real, run: seq<Action>, p: WorkerId): seq<Phase> {
    if run == [] then []
    else
      var prefix := run[..|run| - 1];
      Walk(threshold, prefix, p) + Entered(Exec(Init(threshold), prefix), run[|run| - 1], p)
  }

  lemma RunAppend(threshold: real, run: seq<Action>, a: Action)
    ensures Exec(Init(threshold), run + [a]) == Next(Exec(Init(threshold), run), a)
    ensures forall p :: Walk(threshold, run + [a], p)
                     == Walk(threshold, run, p) + Entered(Exec(Init(threshold), run), a, p)
  {
    assert (run + [a])[..|run|] == run;
  }

  /** The last action of the history, and the state before it. */
  ghost predicate Latest(threshold: real, run: seq<Action>, a: Action, before: State) {
    run != [] && run[|run| - 1] == a && before == Exec(Init(threshold), run[..|run| - 1])
  }

  /** A worker stands where its last step has left it. */
  lemma {:induction false} LastStep(threshold: real, run: seq<Action>, p: WorkerId)
    requires p in Exec(Init(threshold), run).workers
    ensures
      var walk := Walk(threshold, run, p);
      walk != [] && walk[|walk| - 1] == Exec(Init(threshold), run).workers[p]
  {
    var prefix, a := run[..|run| - 1], run[|run| - 1];
    if !(a.Work? && a.p == p && Enabled(Exec(Init(threshold), prefix), a)) {
      PhaseKept(Exec(Init(threshold), prefix), a, p);
      LastStep(threshold, prefix, p);
    }
  }

  /** Listing ids stay used. */
  lemma UsedKept(threshold: real, earlier: seq<Action>, later: seq<Action>)
    requires earlier <= later
    ensures Exec(Init(threshold), earlier).used <= Exec(Init(threshold), later).used
  {
    assert earlier + later[|earlier|..] == later;
    ExecConcat(Init(threshold), earlier, later[|earlier|..]);
    RunSound(threshold, earlier);
    RunGrows(Exec(Init(threshold), earlier), later[|earlier|..]);
  }

  /** The log of a listing only grows as long as the listing exists. */
  lemma RowKept(threshold: real, earlier: seq<Action>, later: seq<Action>, l: ListingId, row: AuditRow)
    requires earlier <= later && row in Log(Exec(Init(threshold), earlier), l)
    requires l in Exec(Init(threshold), earlier).used && l in Exec(Init(threshold), later).listings
    ensures row in Log(Exec(Init(threshold), later), l)
  {
    var more := later[|earlier|..];
    assert earlier + more == later;
    ExecConcat(Init(threshold), earlier, more);
    RunSound(threshold, earlier);
    LogGrows(Exec(Init(threshold), earlier), more, l);
  }

  lemma {:induction false} LogGrows(s: State, run: seq<Action>, l: ListingId)
    requires TablesSound(s) && l in s.used && l in Exec(s, run).listings
    ensures l in s.listings && Log(s, l) <= Log(Exec(s, run), l)
  {
    if run != [] {
      var prefix := run[..|run| - 1];
      RunGrows(s, prefix);
      StepGrows(Exec(s, prefix), run[|run| - 1]);
      LogGrows(s, prefix, l);
      LogKept(Exec(s, prefix), run[|run| - 1], l);
    }
  }

  lemma RecoverStep(s: State)
    ensures Next(s, Recover(s.clock)) == s.(jobs := RecoverAll(s.jobs, s.clock))
  {
  }

  /** A worker's step from its own phase and the tables alone. */
  lemma WorkStepOf(s: State, p: WorkerId, w: WorkStep, m: Move<Phase>)
    requires WorkEnabled(s, p, w) && WorkMove(s, p, w) == m
    ensures Next(s, Work(p, w)) == Perform(s, m.write).(workers := Put(s.workers, p, m.next))
  {
  }

  /** The first of a non-empty set of jobs in queue order. */
  lemma {:induction false} FirstExists(jobs: Jobs, due: set<ListingId>, at: nat)
    requires due != {} && due <= jobs.Keys
    ensures exists l :: l in due && forall m :: m in due ==> OrderedBefore(jobs[l], jobs[m])
  {
    var x :| x in due;
    if due != {x} {
      FirstExists(jobs, due - {x}, at);
      var y :| y in due - {x} && forall m :: m in due - {x} ==> OrderedBefore(jobs[y], jobs[m]);
      var first := if OrderedBefore(jobs[x], jobs[y]) then x else y;
      assert forall m :: m in due ==> m == x || m in due - {x};
      assert forall m :: m in due ==> OrderedBefore(jobs[first], jobs[m]);
    }
  }

  lemma ServeStepOf(s: State, c: ClientId, step: ClientStep, m: Move<Request>)
    requires ServeEnabled(s, c, step) && ServeMove(s, c, step) == m
    ensures Next(s, Serve(c, step)) == Perform(s, m.write).(requests := Put(s.requests, c, m.next))
  {
  }

  lemma DecisionStep(s: State, l: ListingId, approve: bool)
    requires l in s.listings
    ensures
      var a := if approve then AdminApprove(l) else AdminReject(l);
      var decided := s.listings[l].(approval := if approve then Approved else Rejected);
      Next(s, a) == Perform(s, SetListing(l, decided, approve))
  {
  }

  /** On its last attempt a job that asks for a retry fails. */
  lemma LastRetryFails(jobs: Jobs, tok: Token, report: Report, message: string, at: nat)
    requires report == ReportFail(message) || (report == ReportRetry(message) && tok.attempts >= MAX_ATTEMPTS)
    ensures ReportRow(jobs, tok, report, at) == FailRow(jobs, tok, message, at)
  {
  }

  /** The rows after the `updateMany` of the recovery: those RUNNING that were last written more than 90 s
      before go back. */
  method RecoveredRows(jobs: Jobs, now: nat) returns (after: Jobs)
    ensures after == RecoverAll(jobs, now) && after.Keys == jobs.Keys
    ensures forall l :: l in jobs ==>
      var row := jobs[l];
      after[l] == if row.status == Running && row.updatedAt + 90_000 < now
                  then Job(Pending, row.revision + 1, row.attempts, now, Some("Recovered stale moderation job"),
                           row.createdAt, now)
                  else row
  {
    after := map l | l in jobs ::
      if jobs[l].status == Running && jobs[l].updatedAt + STALE_RUN_MS < now
      then jobs[l].(status := Pending, revision := jobs[l].revision + 1, nextRunAt := now,
                    lastError := Some(RECOVERED_ERROR), updatedAt := now)
      else jobs[l];
  }

  /** `findFirst` of the due jobs in queue order: the earliest `nextRunAt`, and the earliest creation among
      equals. */
  method FirstDueRow(jobs: Jobs, now: nat) returns (first: Option<ListingId>)
    ensures
      match first
      case None =>
        && (forall l :: l in jobs && jobs[l].status == Pending ==> jobs[l].nextRunAt > now)
        && (forall l :: !Due(jobs, l, now))
      case Some(l) =>
        && FirstDue(jobs, l, now)
        && l in jobs && jobs[l].status == Pending && jobs[l].nextRunAt <= now
        && forall m :: m in jobs && jobs[m].status == Pending && jobs[m].nextRunAt <= now ==>
             jobs[l].nextRunAt < jobs[m].nextRunAt
             || (jobs[l].nextRunAt == jobs[m].nextRunAt && jobs[l].createdAt <= jobs[m].createdAt)
  {
    var due := set l | l in jobs && jobs[l].status == Pending && jobs[l].nextRunAt <= now;
    if due == {} {
      assert forall l :: l in jobs && jobs[l].status == Pending && jobs[l].nextRunAt <= now ==> l in due;
      return None;
    }
    FirstExists(jobs, due, now);
    var l :| l in due && forall m :: m in due ==> OrderedBefore(jobs[l], jobs[m]);
    assert forall m :: Due(jobs, m, now) ==> m in due;
    FirstDueMeans(jobs, l, now);
    first := Some(l);
  }

  class Db {
    const threshold: real
    var clock: nat
    var used: set<ListingId>
    var listings: map<ListingId, Listing>
    var jobs: Jobs
    var audits: map<ListingId, seq<AuditRow>>
    ghost var byAdmin: set<ListingId>
    ghost var workers: map<WorkerId, Phase>
    ghost var requests: map<ClientId, Request>
    ghost var history: seq<Action>

    /** The statements that have thrown on those who use this object. */
    ghost var failures: nat

    ghost function View(): State
      reads this
    {
      State(threshold, clock, used, listings, jobs, audits, byAdmin, workers, requests)
    }

    ghost predicate Valid()
      reads this
    {
      View() == Exec(Init(threshold), history)
    }

    ghost predicate At(p: WorkerId, ph: Phase)
      reads this
    {
      p in workers && workers[p] == ph
    }

    ghost function Steps(p: WorkerId): seq<Phase>
      reads this
    {
      Walk(threshold, history, p)
    }

    /** The one action by which the run has grown. */
    twostate predicate Logged(a: Action)
      reads this
    {
      && history == old(history) + [a]
      && forall p :: Steps(p) == old(Steps(p)) + (if a.Work? && a.p == p && p in workers then [workers[p]] else [])
    }

    constructor (threshold: real)
      ensures Valid() && this.threshold == threshold && history == []
    {
      this.threshold := threshold;
      clock, used, listings, jobs, audits := 0, {}, map[], map[], map[];
      byAdmin, workers, requests, history, failures := {}, map[], map[], [], 0;
    }

    /** Records the action that has just been carried out. */
    ghost method Record(before: State, a: Action)
      requires before == Exec(Init(threshold), history) && Enabled(before, a) && View() == Next(before, a)
      modifies this`history
      ensures Valid() && Logged(a)
    {
      RunAppend(threshold, history, a);
      history := history + [a];
    }

    /** Whatever the other processes, the administrators and the clock do while worker `p` waits; what
        callers may rely on is the contract alone. */
    method Others(ghost p: WorkerId)
      requires Valid()
      modifies this
      ensures Valid() && old(history) <= history && Steps(p) == old(Steps(p)) && failures == old(failures)
      ensures p in workers <==> p in old(workers)
      ensures p in workers ==> workers[p] == old(workers)[p]
    {
    }

    // ----- listing_moderation_jobs -----

    method RecoverStale()
      requires Valid()
      modifies this`jobs, this`history
      ensures Valid() && Logged(Recover(clock))
      ensures jobs == RecoverAll(old(jobs), clock)
      ensures jobs.Keys == old(jobs).Keys
      ensures forall l :: l in jobs ==>
        var row := old(jobs)[l];
        jobs[l] == if row.status == Running && row.updatedAt + 90_000 < clock
                   then Job(Pending, row.revision + 1, row.attempts, clock, Some("Recovered stale moderation job"),
                            row.createdAt, clock)
                   else row
    {
      hide Walk, Exec, Next, RecoverAll;
      ghost var before := View();
      jobs := RecoveredRows(jobs, clock);
      RecoverStep(before);
      Record(before, Recover(clock));
    }

    /** `findFirst` over the due jobs in queue order. */
    method FindFirstDue(ghost p: WorkerId) returns (candidate: Option<(ListingId, nat)>)
      requires Valid() && p !in workers
      modifies this`workers, this`history
      ensures Valid()
      ensures
        match candidate
        case None =>
          && (forall l :: l in jobs && jobs[l].status == Pending ==> jobs[l].nextRunAt > clock) && p !in workers
          && Logged(Work(p, SelectNothing(clock)))
        case Some((l, revision)) =>
          && FirstDue(jobs, l, clock) && jobs[l].revision == revision && At(p, Selected(l, revision))
          && jobs[l].status == Pending && jobs[l].nextRunAt <= clock
          && (forall m :: m in jobs && jobs[m].status == Pending && jobs[m].nextRunAt <= clock ==>
                jobs[l].nextRunAt < jobs[m].nextRunAt
                || (jobs[l].nextRunAt == jobs[m].nextRunAt && jobs[l].createdAt <= jobs[m].createdAt))
          && Logged(Work(p, Select(l, clock)))
    {
      hide Walk, Exec, Next, FirstDue, Due;
      ghost var before := View();
      var first := FirstDueRow(jobs, clock);
      if first.None? {
        assert before.workers - {p} == before.workers;
        WorkStepOf(before, p, SelectNothing(clock), Move(None, Nothing));
        Record(before, Work(p, SelectNothing(clock)));
        return None;
      }
      var l := first.value;
      candidate := Some((l, jobs[l].revision));
      workers := workers[p := Selected(l, jobs[l].revision)];
      WorkStepOf(before, p, Select(l, clock), Stay(Selected(l, jobs[l].revision)));
      Record(before, Work(p, Select(l, clock)));
    }

    /** `updateMany` of the claim; the number of rows it changed. */
    method StartIfPending(ghost p: WorkerId, l: ListingId, revision: nat) returns (count: nat)
      requires Valid() && At(p, Selected(l, revision))
      modifies this`jobs, this`workers, this`history
      ensures Valid() && Logged(Work(p, CompareAndSwap(clock)))
      ensures jobs == Swap(old(jobs), l, revision, clock)
      ensures count == if CanSwap(old(jobs), l, revision) then 1 else 0
      ensures
        if l in old(jobs) && old(jobs)[l].status == Pending && old(jobs)[l].revision == revision then
          var row := old(jobs)[l];
          count == 1
          && jobs == old(jobs)[l := Job(Running, revision, row.attempts + 1, row.nextRunAt, None, row.createdAt, clock)]
        else count == 0 && jobs == old(jobs)
      ensures if count == 1 then At(p, Swapped(l)) else p !in workers
    {
      hide Walk, Exec, Next;
      ghost var before := View();
      if l in jobs && jobs[l].status == Pending && jobs[l].revision == revision {
        jobs := jobs[l := jobs[l].(status := Running, attempts := jobs[l].attempts + 1, lastError := None,
                                   updatedAt := clock)];
        workers := workers[p := Swapped(l)];
        count := 1;
      } else {
        workers := workers - {p};
        count := 0;
      }
      WorkStepOf(before, p, CompareAndSwap(clock), SwapMove(before.jobs, l, revision, clock));
      Record(before, Work(p, CompareAndSwap(clock)));
    }

    /** `findUniqueOrThrow` of the claimed job. */
    method FindClaimed(ghost p: WorkerId, l: ListingId) returns (claimed: Option<Token>)
      requires Valid() && At(p, Swapped(l))
      modifies this`workers, this`history, this`failures
      ensures Valid() && Logged(Work(p, Reread))
      ensures claimed == if l in jobs then Some(Token(l, jobs[l].revision, jobs[l].attempts)) else None
      ensures if claimed.Some? then At(p, Claimed(claimed.value)) else p !in workers
      ensures failures == old(failures) + if claimed.Some? then 0 else 1
    {
      ghost var before := View();
      if l in jobs {
        claimed := Some(Token(l, jobs[l].revision, jobs[l].attempts));
        workers := workers[p := Claimed(claimed.value)];
      } else {
        claimed := None;
        workers := workers - {p};
        failures := failures + 1;
      }
      WorkStepOf(before, p, Reread, RereadMove(before.jobs, l));
      Record(before, Work(p, Reread));
    }

    /** The statement of `complete`; the number of rows it changed. */
    method CompleteIfCurrent(ghost p: WorkerId, tok: Token, ghost judged: Input) returns (count: nat)
      requires Valid() && At(p, Reporting(tok, ReportComplete(judged)))
      modifies this`jobs, this`workers, this`history
      ensures Valid() && Logged(Work(p, Report(clock))) && p !in workers
      ensures jobs == CompleteRow(old(jobs), tok, clock)
      ensures
        var l := tok.listing;
        if l in old(jobs) && old(jobs)[l].status == Running && old(jobs)[l].revision == tok.revision then
          var row := old(jobs)[l];
          count == 1
          && jobs == old(jobs)[l := Job(Completed, row.revision, row.attempts, clock, None, row.createdAt, clock)]
        else count == 0 && jobs == old(jobs)
    {
      hide Walk, Exec, Next;
      ghost var before := View();
      count := 0;
      var l := tok.listing;
      if l in jobs && jobs[l].revision == tok.revision && jobs[l].status == Running {
        jobs := jobs[l := jobs[l].(status := Completed, nextRunAt := clock, lastError := None, updatedAt := clock)];
        count := 1;
      }
      workers := workers - {p};
      WorkStepOf(before, p, Report(clock), Move(None, SetJobs(jobs)));
      Record(before, Work(p, Report(clock)));
    }

    /** The statement of `fail`, also when `retry` calls it on the last attempt. */
    method FailIfCurrent(ghost p: WorkerId, tok: Token, message: string, ghost report: Report) returns (count: nat)
      requires Valid() && At(p, Reporting(tok, report))
      requires report == ReportFail(message) || (report == ReportRetry(message) && tok.attempts >= MAX_ATTEMPTS)
      modifies this`jobs, this`workers, this`history
      ensures Valid() && Logged(Work(p, Report(clock))) && p !in workers
      ensures jobs == FailRow(old(jobs), tok, message, clock)
      ensures
        var l := tok.listing;
        if l in old(jobs) && old(jobs)[l].status == Running && old(jobs)[l].revision == tok.revision then
          var row := old(jobs)[l];
          count == 1
          && jobs == old(jobs)[l := Job(Failed, row.revision, row.attempts, clock, Some(message), row.createdAt, clock)]
        else count == 0 && jobs == old(jobs)
    {
      hide Walk, Exec, Next;
      ghost var before := View();
      count := 0;
      var l := tok.listing;
      if l in jobs && jobs[l].revision == tok.revision && jobs[l].status == Running {
        jobs := jobs[l := jobs[l].(status := Failed, nextRunAt := clock, lastError := Some(message), updatedAt := clock)];
        count := 1;
      }
      workers := workers - {p};
      LastRetryFails(before.jobs, tok, report, message, clock);
      assert jobs == FailRow(before.jobs, tok, message, clock);
      WorkStepOf(before, p, Report(clock), Move(None, SetJobs(jobs)));
      Record(before, Work(p, Report(clock)));
    }

    /** The statement of `retry` before the last attempt. */
    method DeferIfCurrent(ghost p: WorkerId, tok: Token, delay: nat, message: string) returns (count: nat)
      requires Valid() && At(p, Reporting(tok, ReportRetry(message)))
      requires tok.attempts < MAX_ATTEMPTS && delay == Backoff(tok.attempts)
      modifies this`jobs, this`workers, this`history
      ensures Valid() && Logged(Work(p, Report(clock))) && p !in workers
      ensures jobs == RetryRow(old(jobs), tok, message, clock)
      ensures
        var l := tok.listing;
        if l in old(jobs) && old(jobs)[l].status == Running && old(jobs)[l].revision == tok.revision then
          var row := old(jobs)[l];
          count == 1
          && jobs == old(jobs)[l := Job(Pending, row.revision, row.attempts, clock + delay, Some(message), row.createdAt, clock)]
        else count == 0 && jobs == old(jobs)
    {
      hide Walk, Exec, Next;
      ghost var before := View();
      count := 0;
      var l := tok.listing;
      if l in jobs && jobs[l].revision == tok.revision && jobs[l].status == Running {
        jobs := jobs[l := jobs[l].(status := Pending, nextRunAt := clock + delay, lastError := Some(message),
                                   updatedAt := clock)];
        count := 1;
      }
      workers := workers - {p};
      WorkStepOf(before, p, Report(clock), Move(None, SetJobs(jobs)));
      Record(before, Work(p, Report(clock)));
    }

    /** Whatever happens while request `c` waits. */
    method OthersThan(ghost c: ClientId)
      requires Valid()
      modifies this
      ensures Valid() && old(history) <= history && old(clock) <= clock && failures == old(failures)
      ensures c in requests <==> c in old(requests)
      ensures c in requests ==> requests[c] == old(requests)[c]
    {
    }

    /** The `findUnique` of `enqueue`, for an edit that has written its content or for a rerun. */
    method FindForEnqueue(ghost c: ClientId, l: ListingId, preserveRunning: bool) returns (row: Option<Job>)
      requires Valid()
      requires if preserveRunning then c !in requests && l in used
               else c in requests && requests[c] == EditWritten(l)
      modifies this`requests, this`history
      ensures Valid() && Logged(Serve(c, if preserveRunning then Rerun(l) else EnqueueRead))
      ensures row == if l in jobs then Some(jobs[l]) else None
      ensures
        if row.None? then c in requests && requests[c] == SawNoJob(l, !preserveRunning)
        else if preserveRunning && row.value.status == Running then c !in requests
        else c in requests && requests[c] == SawJob(l, !preserveRunning)
    {
      ghost var before := View();
      row := if l in jobs then Some(jobs[l]) else None;
      ghost var step := if preserveRunning then Rerun(l) else EnqueueRead;
      ghost var m := EnqueueReadMove(jobs, l, !preserveRunning);
      requests := Put(requests, c, m.next);
      ServeStepOf(before, c, step, m);
      Record(before, Serve(c, step));
    }

    /** The `create` of `enqueue`; false when it violates a constraint and throws. */
    method CreateJob(ghost c: ClientId, l: ListingId, ghost edit: bool, now: nat) returns (created: bool)
      requires Valid() && c in requests && requests[c] == SawNoJob(l, edit) && now <= clock
      modifies this`jobs, this`requests, this`history
      ensures Valid() && Logged(Serve(c, EnqueueWrite(now))) && c !in requests
      ensures created <==> l !in old(jobs) && l in listings
      ensures jobs == if created then old(jobs)[l := Job(Pending, 0, 0, now, None, now, now)] else old(jobs)
    {
      ghost var before := View();
      created := l !in jobs && l in listings;
      if created {
        jobs := jobs[l := Job(Pending, 0, 0, now, None, now, now)];
      }
      requests := requests - {c};
      ServeStepOf(before, c, EnqueueWrite(now), EnqueueWriteMove(before, SawNoJob(l, edit), now));
      Record(before, Serve(c, EnqueueWrite(now)));
    }

    /** The `update` of `enqueue`; false when the row has gone and it throws. */
    method ResetJob(ghost c: ClientId, l: ListingId, ghost edit: bool, now: nat) returns (updated: bool)
      requires Valid() && c in requests && requests[c] == SawJob(l, edit) && now <= clock
      modifies this`jobs, this`requests, this`history
      ensures Valid() && Logged(Serve(c, EnqueueWrite(now))) && c !in requests
      ensures updated <==> l in old(jobs)
      ensures updated ==>
        var row := old(jobs)[l];
        jobs == old(jobs)[l := Job(Pending, row.revision + 1, 0, now, None, row.createdAt, now)]
      ensures !updated ==> jobs == old(jobs)
    {
      ghost var before := View();
      updated := l in jobs;
      if updated {
        jobs := jobs[l := jobs[l].(status := Pending, revision := jobs[l].revision + 1, attempts := 0,
                                   nextRunAt := now, lastError := None, updatedAt := now)];
      }
      requests := requests - {c};
      ServeStepOf(before, c, EnqueueWrite(now), EnqueueWriteMove(before, SawJob(l, edit), now));
      Record(before, Serve(c, EnqueueWrite(now)));
    }

    // ----- listings, for the requests of sellers and administrators -----

    /** The `listing.create` of a request, under a fresh id. */
    method InsertListing(ghost c: ClientId, l: ListingId, content: Input)
      requires Valid() && c !in requests && l !in used
      modifies this`used, this`listings, this`requests, this`history
      ensures Valid() && Logged(Serve(c, Create(l, content)))
      ensures listings == old(listings)[l := Listing(content, AwaitingReview)] && used == old(used) + {l}
      ensures requests == old(requests)[c := EditWritten(l)]
    {
      ghost var before := View();
      used := used + {l};
      listings := listings[l := Listing(content, AwaitingReview)];
      requests := requests[c := EditWritten(l)];
      ServeStepOf(before, c, Create(l, content), Move(Some(EditWritten(l)), Insert(l, content)));
      Record(before, Serve(c, Create(l, content)));
    }

    /** The `findUnique` that opens `update`. */
    method FindForEdit(ghost c: ClientId, l: ListingId) returns (row: Option<Listing>)
      requires Valid() && c !in requests
      modifies this`requests, this`history
      ensures Valid() && old(history) <= history
      ensures row == if l in listings then Some(listings[l]) else None
      ensures requests == if row.Some? then old(requests)[c := EditRead(l, row.value.content)] else old(requests)
      ensures if row.Some? then Logged(Serve(c, BeginEdit(l))) else history == old(history)
    {
      if l !in listings {
        return None;
      }
      ghost var before := View();
      row := Some(listings[l]);
      requests := requests[c := EditRead(l, row.value.content)];
      ServeStepOf(before, c, BeginEdit(l), Stay(EditRead(l, row.value.content)));
      Record(before, Serve(c, BeginEdit(l)));
    }

    /** The `listing.update` of an edit; false when the listing has gone and it throws. */
    method UpdateListing(ghost c: ClientId, l: ListingId, ghost read: Input, edit: Edit, remoderate: bool)
      returns (updated: bool)
      requires Valid() && c in requests && requests[c] == EditRead(l, read) && remoderate == Remoderates(read, edit)
      modifies this`listings, this`byAdmin, this`requests, this`history
      ensures Valid() && Logged(Serve(c, WriteEdit(edit)))
      ensures updated <==> l in old(listings)
      ensures
        listings == if !updated then old(listings)
                    else old(listings)[l := Listing(Written(old(listings)[l].content, edit),
                                                    if remoderate then AwaitingReview else old(listings)[l].approval)]
      ensures updated ==>
        var was, now := old(listings)[l].content, listings[l].content;
        && now.title == (if edit.title.Some? then edit.title.value else was.title)
        && now.description == (if edit.description.Some? then edit.description.value else was.description)
        && now.category == (if edit.category.Some? then edit.category.value else was.category)
        && now.department == (if edit.department.Some? then edit.department else was.department)
      ensures requests == if updated && remoderate then old(requests)[c := EditWritten(l)] else old(requests) - {c}
    {
      hide Walk, Exec, Next;
      ghost var before := View();
      ghost var m := WriteEditMove(l, Row(before, l), read, edit);
      updated := l in listings;
      if updated {
        listings := listings[l := Listing(Written(listings[l].content, edit),
                                          if remoderate then AwaitingReview else listings[l].approval)];
        byAdmin := if remoderate then byAdmin - {l} else byAdmin;
      }
      requests := Put(requests, c, m.next);
      ServeStepOf(before, c, WriteEdit(edit), m);
      Record(before, Serve(c, WriteEdit(edit)));
    }

    /** An edit that is refused, or throws, before its write. */
    ghost method AbandonEdit(c: ClientId)
      requires Valid() && c in requests && requests[c].EditRead?
      modifies this`requests, this`history
      ensures Valid() && Logged(Serve(c, Abandon)) && requests == old(requests) - {c}
    {
      var before := View();
      requests := requests - {c};
      ServeStepOf(before, c, Abandon, Move(None, Nothing));
      Record(before, Serve(c, Abandon));
    }

    /** The write of an administrator's decision; false when the listing has gone and it throws. */
    method WriteDecision(l: ListingId, approve: bool) returns (updated: bool)
      requires Valid()
      modifies this`listings, this`byAdmin, this`history
      ensures Valid() && old(history) <= history
      ensures updated <==> l in old(listings)
      ensures updated ==> Logged(if approve then AdminApprove(l) else AdminReject(l))
      ensures listings == if !updated then old(listings)
                          else old(listings)[l := old(listings)[l].(approval := if approve then Approved else Rejected)]
    {
      updated := l in listings;
      if updated {
        ghost var before := View();
        ghost var a := if approve then AdminApprove(l) else AdminReject(l);
        listings := listings[l := listings[l].(approval := if approve then Approved else Rejected)];
        byAdmin := if approve then byAdmin + {l} else byAdmin - {l};
        DecisionStep(before, l, approve);
        Record(before, a);
      }
    }

    // ----- listings and listing_moderation_runs -----

    method LoadListing(ghost p: WorkerId, tok: Token) returns (row: Option<Listing>)
      requires Valid() && At(p, Claimed(tok))
      modifies this`workers, this`history
      ensures Valid() && Logged(Work(p, Load(NOT_FOUND)))
      ensures row == if tok.listing in listings then Some(listings[tok.listing]) else None
      ensures At(p, if row.Some? then Evaluating(tok, row.value.content) else Reporting(tok, ReportRetry(NOT_FOUND)))
    {
      ghost var before := View();
      row := if tok.listing in listings then Some(listings[tok.listing]) else None;
      workers := workers[p := if row.Some? then Evaluating(tok, row.value.content)
                              else Reporting(tok, ReportRetry(NOT_FOUND))];
      WorkStepOf(before, p, Load(NOT_FOUND), LoadMove(tok, row, NOT_FOUND));
      Record(before, Work(p, Load(NOT_FOUND)));
    }

    /** The call of the AI service: a verdict or an evaluation error, chosen by the world. */
    method Evaluate(ghost p: WorkerId, ghost tok: Token, snap: Input) returns (e: Evaluation)
      requires Valid() && At(p, Evaluating(tok, snap))
      modifies this`workers, this`history
      ensures Valid() && Logged(Work(p, Answer(e)))
      ensures At(p, match e case Judgement(v) => Judged(tok, snap, v) case Fault(f, m) => Faulted(tok, snap, f, m))
    {
      ghost var before := View();
      e := *;
      workers := workers[p := match e
                              case Judgement(v) => Judged(tok, snap, v)
                              case Fault(f, m) => Faulted(tok, snap, f, m)];
      WorkStepOf(before, p, Answer(e), AnswerMove(tok, snap, e));
      Record(before, Work(p, Answer(e)));
    }

    /** `createSuccess`; false when the listing is gone and the foreign key throws. */
    method CreateSuccess(ghost p: WorkerId, tok: Token, snap: Input, v: Verdict, applied: bool) returns (created: bool)
      requires Valid() && At(p, Judged(tok, snap, v)) && applied == Qualifies(v, threshold)
      modifies this`audits, this`workers, this`history
      ensures Valid() && Logged(Work(p, Proceed(FOREIGN_KEY)))
      ensures created <==> tok.listing in listings
      ensures
        audits == if !created then old(audits)
                  else old(audits)[tok.listing := Log(old(View()), tok.listing) + [SuccessRow(snap, v, applied)]]
      ensures At(p, if created then Recorded(tok, snap, applied) else Faulted(tok, snap, Unknown, FOREIGN_KEY))
    {
      var l := tok.listing;
      ghost var before := View();
      ghost var m := ProceedMove(Judged(tok, snap, v), Row(before, l), threshold, FOREIGN_KEY);
      created := l in listings;
      if created {
        audits := audits[l := (if l in audits then audits[l] else []) + [SuccessRow(snap, v, applied)]];
      }
      workers := workers[p := m.next.value];
      WorkStepOf(before, p, Proceed(FOREIGN_KEY), m);
      Record(before, Work(p, Proceed(FOREIGN_KEY)));
    }

    /** `createError`; false when the listing is gone and the foreign key throws. */
    method CreateError(ghost p: WorkerId, tok: Token, snap: Input, f: Failure, message: string) returns (created: bool)
      requires Valid() && At(p, Faulted(tok, snap, f, message))
      modifies this`audits, this`workers, this`history
      ensures Valid() && Logged(Work(p, Proceed(FOREIGN_KEY)))
      ensures created <==> tok.listing in listings
      ensures
        audits == if !created then old(audits)
                  else old(audits)[tok.listing := Log(old(View()), tok.listing) + [ErrorRow(snap, f, message)]]
      ensures At(p, Reporting(tok, if !created then ReportRetry(FOREIGN_KEY)
                                   else if Retryable(f) then ReportRetry(message) else ReportFail(message)))
    {
      hide Walk, Exec, Next;
      var l := tok.listing;
      ghost var before := View();
      ghost var m := ProceedMove(Faulted(tok, snap, f, message), Row(before, l), threshold, FOREIGN_KEY);
      created := l in listings;
      if created {
        audits := audits[l := (if l in audits then audits[l] else []) + [ErrorRow(snap, f, message)]];
      }
      workers := workers[p := m.next.value];
      WorkStepOf(before, p, Proceed(FOREIGN_KEY), m);
      Record(before, Work(p, Proceed(FOREIGN_KEY)));
    }

    /** The `findUnique` of `approveListing`. */
    method FindForApproval(ghost p: WorkerId, tok: Token, ghost snap: Input) returns (row: Option<Listing>)
      requires Valid() && At(p, Recorded(tok, snap, true))
      modifies this`workers, this`history
      ensures Valid() && Logged(Work(p, Proceed(NOT_FOUND)))
      ensures row == if tok.listing in listings then Some(listings[tok.listing]) else None
      ensures At(p, if row.None? then Faulted(tok, snap, Unknown, NOT_FOUND)
                    else if row.value.approval == Approved then Reporting(tok, ReportComplete(snap))
                    else Approving(tok, snap))
    {
      ghost var before := View();
      row := if tok.listing in listings then Some(listings[tok.listing]) else None;
      ghost var m := ProceedMove(Recorded(tok, snap, true), row, threshold, NOT_FOUND);
      workers := workers[p := m.next.value];
      WorkStepOf(before, p, Proceed(NOT_FOUND), m);
      Record(before, Work(p, Proceed(NOT_FOUND)));
    }

    /** The `update` of `approveListing`; false when the listing is gone. */
    method WriteApproved(ghost p: WorkerId, tok: Token, ghost snap: Input) returns (updated: bool)
      requires Valid() && At(p, Approving(tok, snap))
      modifies this`listings, this`byAdmin, this`workers, this`history
      ensures Valid() && Logged(Work(p, Proceed(NOT_FOUND)))
      ensures updated <==> tok.listing in old(listings)
      ensures listings == if !updated then old(listings)
                          else old(listings)[tok.listing := old(listings)[tok.listing].(approval := Approved)]
      ensures At(p, if updated then Notifying(tok, snap) else Faulted(tok, snap, Unknown, NOT_FOUND))
    {
      hide Walk, Exec, Next;
      ghost var before := View();
      ghost var m := ProceedMove(Approving(tok, snap), Row(before, tok.listing), threshold, NOT_FOUND);
      updated := tok.listing in listings;
      if updated {
        listings := listings[tok.listing := listings[tok.listing].(approval := Approved)];
        byAdmin := byAdmin - {tok.listing};
      }
      workers := workers[p := m.next.value];
      WorkStepOf(before, p, Proceed(NOT_FOUND), m);
      Record(before, Work(p, Proceed(NOT_FOUND)));
    }

    /** The workflow goes on without a statement on the tables of the model: it returns, or it has
        sent the notification. */
    ghost method Return(p: WorkerId, tok: Token, snap: Input)
      requires Valid() && (At(p, Recorded(tok, snap, false)) || At(p, Notifying(tok, snap)))
      modifies this`workers, this`history
      ensures Valid() && Logged(Work(p, Proceed(NOT_FOUND)))
      ensures At(p, Reporting(tok, ReportComplete(snap)))
    {
      var before := View();
      var m := ProceedMove(workers[p], Row(before, tok.listing), threshold, NOT_FOUND);
      workers := workers[p := m.next.value];
      WorkStepOf(before, p, Proceed(NOT_FOUND), m);
      Record(before, Work(p, Proceed(NOT_FOUND)));
    }

    // ----- failures -----

    /** An `await` of worker `p`: the others act, and then its statement is free to commit, or it has
        thrown `error` without effect. */
    method Await(ghost p: WorkerId) returns (thrown: bool, error: string)
      requires Valid() && p in workers && !(workers[p].Recorded? && !workers[p].approve)
      modifies this
      ensures Valid() && old(history) <= history && failures == old(failures) + if thrown then 1 else 0
      ensures !thrown ==> p in workers && workers[p] == old(workers)[p] && Steps(p) == old(Steps(p))
      ensures thrown ==>
        match ThrowMove(old(workers)[p], error).next
        case None => p !in workers && Steps(p) == old(Steps(p))
        case Some(ph) => At(p, ph) && Steps(p) == old(Steps(p)) + [ph]
    {
      Others(p);
      thrown, error := *, *;
      if thrown {
        ghost var before := View();
        ghost var m := ThrowMove(workers[p], error);
        workers := Put(workers, p, m.next);
        failures := failures + 1;
        WorkStepOf(before, p, Throw(error), m);
        Record(before, Work(p, Throw(error)));
      }
    }

    /** Whether a statement throws that is not among the steps of the protocol. */
    method Fails() returns (failed: bool)
      modifies this`failures
      ensures failures == old(failures) + if failed then 1 else 0
    {
      failed := *;
      if failed {
        failures := failures + 1;
      }
    }

    /** Whether the error handler of worker `p` throws as well, which ends its poll. */
    method Aborts(ghost p: WorkerId) returns (aborted: bool, ghost before: State)
      requires Valid() && p in workers
      modifies this
      ensures Valid() && old(history) <= history && Steps(p) == old(Steps(p))
      ensures failures == old(failures) + if aborted then 1 else 0
      ensures if aborted then p !in workers && Latest(threshold, history, Work(p, Crash), before) && jobs == before.jobs
              else p in workers && workers[p] == old(workers)[p]
    {
      Others(p);
      aborted := *;
      before := View();
      if aborted {
        workers := workers - {p};
        failures := failures + 1;
        WorkStepOf(before, p, Crash, Move(None, Nothing));
        Record(before, Work(p, Crash));
      }
    }
  }
}
