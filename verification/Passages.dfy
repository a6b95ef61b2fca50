/** Stretches of runs that the traces are put together from.  A stretch is a list of actions beside
    the states it passes through. */
module Passages {
  import opened Options
  import opened JobQueue
  import opened Moderation
  import opened Protocol
  import opened Fencing

  lemma {:induction false} Follow(states: seq<State>, run: seq<Action>)
    requires |states| == |run| + 1
    requires forall i :: 0 <= i < |run| ==> Next(states[i], run[i]) == states[i + 1]
    ensures Exec(states[0], run) == states[|run|]
  {
    if run != [] {
      var n := |run| - 1;
      forall i | 0 <= i < n
        ensures Next(states[..n + 1][i], run[..n][i]) == states[..n + 1][i + 1]
      {
        assert states[..n + 1][i] == states[i] && run[..n][i] == run[i] && states[..n + 1][i + 1] == states[i + 1];
      }
      Follow(states[..n + 1], run[..n]);
    }
  }

  lemma Overwrite<V>(m: map<nat, V>, k: nat, a: V, b: V)
    ensures m[k := a][k := b] == m[k := b]
    ensures k !in m ==> m[k := a] - {k} == m
  {
  }

  // ----- one listing, created and enqueued by request 0 at time 0 -----

  function Queued(threshold: real, content: Input): State {
    State(threshold, 0, {0}, map[0 := Listing(content, AwaitingReview)], map[0 := NewJob(0)], map[], {}, map[], map[])
  }

  function Opening(content: Input): seq<Action> {
    [Serve(0, Create(0, content)), Serve(0, EnqueueRead), Serve(0, EnqueueWrite(0))]
  }

  lemma OpeningQueues(threshold: real, content: Input)
    ensures Exec(Init(threshold), Opening(content)) == Queued(threshold, content)
  {
    var created := Queued(threshold, content).(jobs := map[]);
    Follow([Init(threshold), created.(requests := map[0 := EditWritten(0)]),
            created.(requests := map[0 := SawNoJob(0, true)]), Queued(threshold, content)], Opening(content));
  }

  // ----- passages that several traces share -----

  /** Some worker claims the only job and loads its listing. */
  lemma ClaimsAndLoads(s: State, p: WorkerId, job: Job)
    requires s.jobs == map[0 := job] && job.status == Pending && job.nextRunAt <= s.clock
    requires p !in s.workers && 0 in s.listings
    ensures
      Exec(s, [Work(p, Claim(0, s.clock)), Work(p, Load(""))])
      == s.(jobs := map[0 := Started(job, s.clock)],
            workers := s.workers[p := Evaluating(Token(0, job.revision, job.attempts + 1), s.listings[0].content)])
  {
    var tok := Token(0, job.revision, job.attempts + 1);
    var claimed := s.(jobs := map[0 := Started(job, s.clock)], workers := s.workers[p := Claimed(tok)]);
    assert s.jobs[0 := Started(job, s.clock)] == map[0 := Started(job, s.clock)];
    Follow([s, claimed, claimed.(workers := s.workers[p := Evaluating(tok, s.listings[0].content)])],
           [Work(p, Claim(0, s.clock)), Work(p, Load(""))]);
  }

  lemma Judges(s: State, p: WorkerId, tok: Token, snap: Input, v: Verdict)
    requires p in s.workers && s.workers[p] == Evaluating(tok, snap) && tok.listing in s.listings
    ensures
      var ok := Qualifies(v, s.threshold);
      Exec(s, [Work(p, Answer(Judgement(v))), Work(p, Proceed(""))])
      == s.(audits := s.audits[tok.listing := Log(s, tok.listing) + [SuccessRow(snap, v, ok)]],
            workers := s.workers[p := Recorded(tok, snap, ok)])
  {
    var ok := Qualifies(v, s.threshold);
    var judged := s.(workers := s.workers[p := Judged(tok, snap, v)]);
    Overwrite(s.workers, p, Judged(tok, snap, v), Recorded(tok, snap, ok));
    Follow([s, judged, s.(audits := s.audits[tok.listing := Log(s, tok.listing) + [SuccessRow(snap, v, ok)]],
                          workers := s.workers[p := Recorded(tok, snap, ok)])],
           [Work(p, Answer(Judgement(v))), Work(p, Proceed(""))]);
  }

  lemma Approves(s: State, p: WorkerId, tok: Token, snap: Input)
    requires p in s.workers && s.workers[p] == Recorded(tok, snap, true)
    requires tok.listing in s.listings && s.listings[tok.listing].approval != Approved
    ensures
      Exec(s, [Work(p, Proceed("")), Work(p, Proceed("")), Work(p, Proceed(""))])
      == s.(listings := s.listings[tok.listing := s.listings[tok.listing].(approval := Approved)],
            byAdmin := s.byAdmin - {tok.listing},
            workers := s.workers[p := Reporting(tok, ReportComplete(snap))])
  {
    var l := tok.listing;
    var approving := s.(workers := s.workers[p := Approving(tok, snap)]);
    Overwrite(s.workers, p, Approving(tok, snap), Notifying(tok, snap));
    Overwrite(s.workers, p, Notifying(tok, snap), Reporting(tok, ReportComplete(snap)));
    var written := s.(listings := s.listings[l := s.listings[l].(approval := Approved)], byAdmin := s.byAdmin - {l},
                      workers := s.workers[p := Notifying(tok, snap)]);
    Follow([s, approving, written, written.(workers := s.workers[p := Reporting(tok, ReportComplete(snap))])],
           [Work(p, Proceed("")), Work(p, Proceed("")), Work(p, Proceed(""))]);
  }

  lemma Reports(s: State, p: WorkerId, tok: Token, report: Report)
    requires p in s.workers && s.workers[p] == Reporting(tok, report)
    ensures Exec(s, [Work(p, Report(s.clock))])
         == s.(jobs := ReportRow(s.jobs, tok, report, s.clock), workers := s.workers - {p})
  {
    Follow([s, s.(jobs := ReportRow(s.jobs, tok, report, s.clock), workers := s.workers - {p})],
           [Work(p, Report(s.clock))]);
  }

  lemma Records(s: State, p: WorkerId, tok: Token, snap: Input, f: Failure, message: string)
    requires p in s.workers && s.workers[p] == Faulted(tok, snap, f, message) && tok.listing in s.listings
    ensures Next(s, Work(p, Proceed("")))
         == s.(audits := s.audits[tok.listing := Log(s, tok.listing) + [ErrorRow(snap, f, message)]],
               workers := s.workers[p := Reporting(tok, AfterError(f, message))])
  {
  }

  /** The ERROR row and the report that goes with it. */
  lemma RecordsAndReports(s: State, p: WorkerId, tok: Token, snap: Input, f: Failure, message: string,
                          others: map<WorkerId, Phase>)
    requires p !in others && s.workers == others[p := Faulted(tok, snap, f, message)] && tok.listing in s.listings
    ensures
      Exec(s, [Work(p, Proceed("")), Work(p, Report(s.clock))])
      == s.(audits := s.audits[tok.listing := Log(s, tok.listing) + [ErrorRow(snap, f, message)]],
            jobs := ReportRow(s.jobs, tok, AfterError(f, message), s.clock), workers := others)
  {
    var report := AfterError(f, message);
    var logged := s.(audits := s.audits[tok.listing := Log(s, tok.listing) + [ErrorRow(snap, f, message)]],
                     workers := others[p := Reporting(tok, report)]);
    Records(s, p, tok, snap, f, message);
    Overwrite(others, p, Faulted(tok, snap, f, message), Reporting(tok, report));
    Overwrite(others, p, Reporting(tok, report), Reporting(tok, report));
    Follow([s, logged], [Work(p, Proceed(""))]);
    Reports(logged, p, tok, report);
    ExecConcat(s, [Work(p, Proceed(""))], [Work(p, Report(s.clock))]);
    assert [Work(p, Proceed(""))] + [Work(p, Report(s.clock))] == [Work(p, Proceed("")), Work(p, Report(s.clock))];
  }

  lemma LeavesPending(s: State, p: WorkerId, tok: Token, snap: Input)
    requires p in s.workers && s.workers[p] == Recorded(tok, snap, false)
    ensures Exec(s, [Work(p, Proceed(""))]) == s.(workers := s.workers[p := Reporting(tok, ReportComplete(snap))])
  {
    Follow([s, s.(workers := s.workers[p := Reporting(tok, ReportComplete(snap))])], [Work(p, Proceed(""))]);
  }

  lemma WritesEdit(s: State, c: ClientId, edit: Edit)
    requires 0 in s.listings && c !in s.requests && Remoderates(s.listings[0].content, edit)
    ensures
      Exec(s, [Serve(c, BeginEdit(0)), Serve(c, WriteEdit(edit))])
      == s.(listings := s.listings[0 := Listing(Written(s.listings[0].content, edit), AwaitingReview)],
            byAdmin := s.byAdmin - {0}, requests := s.requests[c := EditWritten(0)])
  {
    var content := s.listings[0].content;
    Overwrite(s.requests, c, EditRead(0, content), EditWritten(0));
    Follow([s, s.(requests := s.requests[c := EditRead(0, content)]),
            s.(listings := s.listings[0 := Listing(Written(content, edit), AwaitingReview)],
               byAdmin := s.byAdmin - {0}, requests := s.requests[c := EditWritten(0)])],
           [Serve(c, BeginEdit(0)), Serve(c, WriteEdit(edit))]);
  }

  lemma EnqueuesEdit(s: State, c: ClientId, others: map<ClientId, Request>)
    requires 0 in s.jobs && c !in others && s.requests == others[c := EditWritten(0)]
    ensures Exec(s, [Serve(c, EnqueueRead), Serve(c, EnqueueWrite(s.clock))])
         == s.(jobs := s.jobs[0 := Requeued(s.jobs[0], s.clock)], requests := others)
  {
    var saw := s.(requests := others[c := SawJob(0, true)]);
    Overwrite(others, c, EditWritten(0), SawJob(0, true));
    Overwrite(others, c, SawJob(0, true), SawJob(0, true));
    ReadsJob(s, c);
    WritesJob(saw, c);
    Follow([s, saw, s.(jobs := s.jobs[0 := Requeued(s.jobs[0], s.clock)], requests := others)],
           [Serve(c, EnqueueRead), Serve(c, EnqueueWrite(s.clock))]);
  }

  lemma ReadsJob(s: State, c: ClientId)
    requires 0 in s.jobs && c in s.requests && s.requests[c] == EditWritten(0)
    ensures Next(s, Serve(c, EnqueueRead)) == s.(requests := s.requests[c := SawJob(0, true)])
  {
  }

  lemma WritesJob(s: State, c: ClientId)
    requires 0 in s.jobs && c in s.requests && s.requests[c] == SawJob(0, true)
    ensures Next(s, Serve(c, EnqueueWrite(s.clock)))
         == s.(jobs := s.jobs[0 := Requeued(s.jobs[0], s.clock)], requests := s.requests - {c})
  {
  }

  // ----- claims and attempts of the only job -----

  lemma SelectsAndSwaps(s: State, p: WorkerId, job: Job)
    requires s.jobs == map[0 := job] && job.status == Pending && job.nextRunAt <= s.clock && p !in s.workers
    ensures Exec(s, [Work(p, Select(0, s.clock)), Work(p, CompareAndSwap(s.clock))])
         == s.(jobs := map[0 := Started(job, s.clock)], workers := s.workers[p := Swapped(0)])
  {
    Overwrite(s.workers, p, Selected(0, job.revision), Swapped(0));
    Overwrite(s.jobs, 0, job, Started(job, s.clock));
    Follow([s, s.(workers := s.workers[p := Selected(0, job.revision)]),
            s.(jobs := map[0 := Started(job, s.clock)], workers := s.workers[p := Swapped(0)])],
           [Work(p, Select(0, s.clock)), Work(p, CompareAndSwap(s.clock))]);
  }

  lemma ClaimsJob(s: State, p: WorkerId, job: Job)
    requires s.jobs == map[0 := job] && job.status == Pending && job.nextRunAt <= s.clock && p !in s.workers
    ensures Exec(s, [Work(p, Claim(0, s.clock))])
         == s.(jobs := map[0 := Started(job, s.clock)],
               workers := s.workers[p := Claimed(Token(0, job.revision, job.attempts + 1))])
  {
    var after := s.(jobs := map[0 := Started(job, s.clock)],
                    workers := s.workers[p := Claimed(Token(0, job.revision, job.attempts + 1))]);
    assert s.jobs[0 := Started(job, s.clock)] == map[0 := Started(job, s.clock)];
    Follow([s, after], [Work(p, Claim(0, s.clock))]);
  }

  /** Load and a timeout, then its ERROR row and the retry. */
  function TimesOut(p: WorkerId, at: nat): seq<Action> {
    [Work(p, Load("")), Work(p, Answer(Fault(Timeout, "")))] + [Work(p, Proceed("")), Work(p, Report(at))]
  }

  lemma LoadsAndFaults(s: State, p: WorkerId, tok: Token, others: map<WorkerId, Phase>)
    requires p !in others && s.workers == others[p := Claimed(tok)] && tok.listing in s.listings
    ensures Exec(s, [Work(p, Load("")), Work(p, Answer(Fault(Timeout, "")))])
         == s.(workers := others[p := Faulted(tok, s.listings[tok.listing].content, Timeout, "")])
  {
    var snap := s.listings[tok.listing].content;
    Overwrite(others, p, Claimed(tok), Evaluating(tok, snap));
    Overwrite(others, p, Evaluating(tok, snap), Faulted(tok, snap, Timeout, ""));
    Follow([s, s.(workers := others[p := Evaluating(tok, snap)]),
            s.(workers := others[p := Faulted(tok, snap, Timeout, "")])],
           [Work(p, Load("")), Work(p, Answer(Fault(Timeout, "")))]);
  }

  lemma TimesOutAndRetries(s: State, p: WorkerId, tok: Token, others: map<WorkerId, Phase>)
    requires p !in others && s.workers == others[p := Claimed(tok)] && tok.listing in s.listings
    ensures
      var s' := Exec(s, TimesOut(p, s.clock));
      && s' == s.(audits := s'.audits, workers := others,
                  jobs := RetryRow(s.jobs, tok, "", s.clock))
  {
    LoadsAndFaults(s, p, tok, others);
    var snap := s.listings[tok.listing].content;
    RecordsAndReports(s.(workers := others[p := Faulted(tok, snap, Timeout, "")]), p, tok, snap, Timeout, "", others);
    ExecConcat(s, [Work(p, Load("")), Work(p, Answer(Fault(Timeout, "")))], [Work(p, Proceed("")), Work(p, Report(s.clock))]);
  }

  /** One attempt that times out: the claim of the job and its retry. */
  lemma Attempt(s: State, p: WorkerId, job: Job) returns (run: seq<Action>)
    requires s.jobs == map[0 := job] && job.status == Pending && job.nextRunAt <= s.clock && p !in s.workers
    requires 0 in s.listings && job.attempts + 1 < MAX_ATTEMPTS
    ensures forall a :: a in run ==> a.Work? && !a.work.CompareAndSwap?
    ensures
      var s' := Exec(s, run);
      && s' == s.(audits := s'.audits, jobs := s'.jobs)
      && s'.jobs == map[0 := job.(attempts := job.attempts + 1, nextRunAt := s.clock + Backoff(job.attempts + 1),
                                  lastError := Some(""), updatedAt := s.clock)]
  {
    var tok := Token(0, job.revision, job.attempts + 1);
    ClaimsJob(s, p, job);
    var claimed := s.(jobs := map[0 := Started(job, s.clock)], workers := s.workers[p := Claimed(tok)]);
    TimesOutAndRetries(claimed, p, tok, s.workers);
    run := [Work(p, Claim(0, s.clock))] + TimesOut(p, s.clock);
    ExecConcat(s, [Work(p, Claim(0, s.clock))], TimesOut(p, s.clock));
    Overwrite(map[], 0, Started(job, s.clock), Exec(s, run).jobs[0]);
  }

  /** One passage after another from a known state. */
  lemma Chain(threshold: real, run: seq<Action>, s: State, passage: seq<Action>, s': State)
    requires Exec(Init(threshold), run) == s && Exec(s, passage) == s'
    ensures Exec(Init(threshold), run + passage) == s'
  {
    ExecConcat(Init(threshold), run, passage);
  }
}
