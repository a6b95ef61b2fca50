/** What the statements of the queue do to its rows, field by field and in plain numbers. */
module QueueStatements {
  import opened Options
  import opened JobQueue
  import opened Moderation
  import opened Protocol
  import opened Fencing

  /** Every enqueue write, on a new or an existing row, leaves a fresh job that is due at once. */
  lemma EnqueuedRow(s: State, a: Action, l: ListingId)
    requires EnqueuesRow(s, a, l)
    ensures
      var s' := Next(s, a);
      && l in s'.jobs && s'.jobs[l].status == Pending && s'.jobs[l].nextRunAt == a.client.at
      && s'.jobs[l].attempts == 0 && s'.jobs[l].lastError == None && s'.jobs[l].updatedAt == a.client.at
      && s'.jobs[l].revision == (if l in s.jobs then s.jobs[l].revision + 1 else 0)
      && s'.jobs[l].createdAt == (if l in s.jobs then s.jobs[l].createdAt else a.client.at)
      && s'.jobs - {l} == s.jobs - {l}
    ensures Due(Next(s, a).jobs, l, a.client.at)
  {
    OtherRow(s, a, l);
    EnqueueKeeps(s, a.c, a.client.at, l);
  }

  lemma EnqueueKeeps(s: State, c: ClientId, at: nat, l: ListingId)
    requires EnqueuesRow(s, Serve(c, EnqueueWrite(at)), l)
    ensures l in Next(s, Serve(c, EnqueueWrite(at))).jobs
    ensures Next(s, Serve(c, EnqueueWrite(at))).jobs - {l} == s.jobs - {l}
  {
  }

  /** A recovery takes a row back exactly if it is RUNNING and was last written more than 90 s before;
      the row keeps its attempts and goes to a new revision, due at once.  Every other row is unchanged. */
  lemma RecoveredRows(s: State, at: nat)
    requires Enabled(s, Recover(at))
    ensures
      var jobs := Next(s, Recover(at)).jobs;
      && jobs.Keys == s.jobs.Keys
      && forall l :: l in s.jobs ==>
           var row, row' := s.jobs[l], jobs[l];
           if row.status == Running && row.updatedAt + 90_000 < at then
             && row'.status == Pending && row'.revision == row.revision + 1 && row'.attempts == row.attempts
             && row'.nextRunAt == at && row'.updatedAt == at && row'.createdAt == row.createdAt
             && row'.lastError == Some("Recovered stale moderation job")
           else row' == row
  {
  }

  /** A select takes a due row that no due row precedes: none has an earlier `nextRunAt`, and of those
      with the same, none was created earlier. */
  lemma SelectedRow(s: State, p: WorkerId, l: ListingId, at: nat)
    ensures WorkEnabled(s, p, Select(l, at)) <==>
            && p !in s.workers && at <= s.clock
            && l in s.jobs && s.jobs[l].status == Pending && s.jobs[l].nextRunAt <= at
            && forall m :: m in s.jobs && s.jobs[m].status == Pending && s.jobs[m].nextRunAt <= at ==>
                 && s.jobs[l].nextRunAt <= s.jobs[m].nextRunAt
                 && (s.jobs[l].nextRunAt == s.jobs[m].nextRunAt ==> s.jobs[l].createdAt <= s.jobs[m].createdAt)
    ensures WorkEnabled(s, p, Claim(l, at)) <==> WorkEnabled(s, p, Select(l, at))
  {
    if WorkEnabled(s, p, Select(l, at)) {
      forall m | m in s.jobs && s.jobs[m].status == Pending && s.jobs[m].nextRunAt <= at
        ensures s.jobs[l].nextRunAt <= s.jobs[m].nextRunAt
        ensures s.jobs[l].nextRunAt == s.jobs[m].nextRunAt ==> s.jobs[l].createdAt <= s.jobs[m].createdAt
      {
        assert Due(s.jobs, m, at);
      }
    }
  }

  /** The compare-and-set changes the row exactly if it is PENDING at the selected revision. */
  lemma SwappedRow(s: State, p: WorkerId, at: nat)
    requires WorkEnabled(s, p, CompareAndSwap(at))
    ensures
      var s' := Next(s, Work(p, CompareAndSwap(at)));
      var l := s.workers[p].candidate;
      if l in s.jobs && s.jobs[l].status == Pending && s.jobs[l].revision == s.workers[p].revision then
        && s'.jobs.Keys == s.jobs.Keys && s'.jobs - {l} == s.jobs - {l}
        && s'.jobs[l].status == Running && s'.jobs[l].attempts == s.jobs[l].attempts + 1
        && s'.jobs[l].revision == s.jobs[l].revision && s'.jobs[l].nextRunAt == s.jobs[l].nextRunAt
        && s'.jobs[l].lastError == None && s'.jobs[l].createdAt == s.jobs[l].createdAt && s'.jobs[l].updatedAt == at
        && p in s'.workers && s'.workers[p] == Swapped(l)
      else s'.jobs == s.jobs && p !in s'.workers
  {
  }

  /** A report changes its row exactly if that is RUNNING at the revision of the token. */
  lemma ReportedRow(s: State, p: WorkerId, at: nat)
    requires WorkEnabled(s, p, Report(at))
    ensures
      var s' := Next(s, Work(p, Report(at)));
      var tok := s.workers[p].tok;
      var l := tok.listing;
      && p !in s'.workers
      && if l in s.jobs && s.jobs[l].status == Running && s.jobs[l].revision == tok.revision then
           && s'.jobs.Keys == s.jobs.Keys && s'.jobs - {l} == s.jobs - {l}
           && s'.jobs[l].revision == s.jobs[l].revision && s'.jobs[l].attempts == s.jobs[l].attempts
           && s'.jobs[l].createdAt == s.jobs[l].createdAt && s'.jobs[l].updatedAt == at
           && match s.workers[p].report
              case ReportComplete(_) =>
                s'.jobs[l].status == Completed && s'.jobs[l].nextRunAt == at && s'.jobs[l].lastError == None
              case ReportFail(m) =>
                s'.jobs[l].status == Failed && s'.jobs[l].nextRunAt == at && s'.jobs[l].lastError == Some(m)
              case ReportRetry(m) =>
                && s'.jobs[l].lastError == Some(m)
                && if tok.attempts >= 3 then s'.jobs[l].status == Failed && s'.jobs[l].nextRunAt == at
                   else
                     && s'.jobs[l].status == Pending
                     && s'.jobs[l].nextRunAt
                        == at + (if tok.attempts == 1 then 15_000 else if tok.attempts == 2 then 30_000 else 60_000)
         else s'.jobs == s.jobs
  {
  }

  /** Deleting a listing deletes its job and its log, and nothing else. */
  lemma DeletedListing(s: State, l: ListingId)
    requires Enabled(s, Remove(l))
    ensures
      var s' := Next(s, Remove(l));
      && l !in s'.listings && l !in s'.jobs && l !in s'.audits
      && s'.used == s.used && s'.listings == s.listings - {l} && s'.jobs == s.jobs - {l} && s'.audits == s.audits - {l}
  {
  }

  /** Of two rows that one recovery takes, the one created first is served first: as long as both stand
      as the recovery left them, no select takes the younger, however the run has gone on. */
  lemma OlderIsServedFirst(threshold: real, before: seq<Action>, at: nat, more: seq<Action>, older: ListingId,
                           younger: ListingId, p: WorkerId, now: nat)
    requires
      var s := Exec(Init(threshold), before);
      && Enabled(s, Recover(at)) && older in s.jobs && younger in s.jobs
      && s.jobs[older].status == Running && s.jobs[older].updatedAt + 90_000 < at
      && s.jobs[younger].status == Running && s.jobs[younger].updatedAt + 90_000 < at
      && s.jobs[older].createdAt < s.jobs[younger].createdAt
    requires
      var after := Exec(Init(threshold), before + [Recover(at)]);
      var later := Exec(Init(threshold), before + [Recover(at)] + more);
      && older in after.jobs && older in later.jobs && later.jobs[older] == after.jobs[older]
      && younger in after.jobs && younger in later.jobs && later.jobs[younger] == after.jobs[younger]
    ensures !WorkEnabled(Exec(Init(threshold), before + [Recover(at)] + more), p, Select(younger, now))
  {
    var s := Exec(Init(threshold), before);
    var later := Exec(Init(threshold), before + [Recover(at)] + more);
    ExecLast(Init(threshold), before, Recover(at));
    RecoveredRows(s, at);
    if WorkEnabled(later, p, Select(younger, now)) {
      SelectedRow(later, p, younger, now);
    }
  }
}
