/** Runs that reach the attempt bound, for every number of recoveries and of workers caught in a claim. */
module AttemptTraces {
  import opened Options
  import opened JobQueue
  import opened Moderation
  import opened Protocol
  import opened Fencing
  import opened Attempts
  import opened Passages

  // ----- the counts along a run -----

  lemma Append(threshold: real, run: seq<Action>, a: Action)
    ensures Exec(Init(threshold), run + [a]) == Next(Exec(Init(threshold), run), a)
    ensures Recoveries(threshold, run + [a], 0)
         == if EnqueuesRow(Exec(Init(threshold), run), a, 0) then 0
            else Recoveries(threshold, run, 0) + (if RecoversRow(Exec(Init(threshold), run), a, 0) then 1 else 0)
    ensures Caught(threshold, run + [a], 0)
         == if EnqueuesRow(Exec(Init(threshold), run), a, 0) then |Swappers(Exec(Init(threshold), run), 0)|
            else Caught(threshold, run, 0)
  {
    assert (run + [a])[..|run|] == run;
  }

  ghost predicate Counted(threshold: real, run: seq<Action>, n: nat, m: nat) {
    Recoveries(threshold, run, 0) == n && Caught(threshold, run, 0) == m
  }

  /** Workers and time change neither count. */
  lemma {:induction false} StaysCounted(threshold: real, run: seq<Action>, more: seq<Action>, n: nat, m: nat)
    requires Counted(threshold, run, n, m) && forall a :: a in more ==> a.Work? || a.Tick?
    ensures Counted(threshold, run + more, n, m)
  {
    if more == [] {
      assert run + more == run;
    } else {
      var shorter, a := more[..|more| - 1], more[|more| - 1];
      StaysCounted(threshold, run, shorter, n, m);
      assert run + more == run + shorter + [a];
      Append(threshold, run + shorter, a);
    }
  }

  // ----- workers caught between the compare-and-set and the re-read -----

  function Ids(m: nat): set<WorkerId> {
    if m == 0 then {} else Ids(m - 1) + {m + 1}
  }

  lemma {:induction false} IdsAre(m: nat)
    ensures |Ids(m)| == m && forall p :: p in Ids(m) ==> 2 <= p < m + 2
  {
    if m > 0 {
      IdsAre(m - 1);
    }
  }

  /** The job has just been enqueued, with `m` workers about to re-read it. */
  ghost predicate Catches(s: State, m: nat) {
    && s.clock == 0 && s.requests == map[] && 0 in s.listings && 0 in s.used
    && s.jobs.Keys == {0} && s.jobs[0].status == Pending && s.jobs[0].attempts == 0 && s.jobs[0].nextRunAt == 0
    && s.workers.Keys == Ids(m) && forall p :: p in s.workers ==> s.workers[p] == Swapped(0)
  }

  lemma AsksAgain(s: State)
    requires 0 in s.used && s.jobs.Keys == {0} && s.jobs[0].status == Pending && s.requests == map[]
    ensures Exec(s, [Serve(7, Rerun(0))]) == s.(requests := map[7 := SawJob(0, false)])
  {
    Follow([s, s.(requests := map[7 := SawJob(0, false)])], [Serve(7, Rerun(0))]);
  }

  lemma Requeues(s: State, job: Job)
    requires s.jobs == map[0 := job] && s.requests == map[7 := SawJob(0, false)]
    ensures Next(s, Serve(7, EnqueueWrite(s.clock))) == s.(requests := map[], jobs := map[0 := Requeued(job, s.clock)])
    ensures EnqueuesRow(s, Serve(7, EnqueueWrite(s.clock)), 0)
  {
    assert s.requests - {7} == map[];
    assert s.jobs[0 := Requeued(job, s.clock)] == map[0 := Requeued(job, s.clock)];
  }

  lemma OneMore(workers: map<WorkerId, Phase>, m: nat)
    requires workers.Keys == Ids(m) && forall p :: p in workers ==> workers[p] == Swapped(0)
    ensures m + 2 !in workers
    ensures
      var more := workers[m + 2 := Swapped(0)];
      more.Keys == Ids(m + 1) && forall p :: p in more ==> more[p] == Swapped(0)
  {
    IdsAre(m);
    assert Ids(m + 1) == Ids(m) + {m + 2};
  }

  /** A rerun looks at the job before one more worker wins it. */
  lemma CatchesOneMore(s: State, m: nat) returns (run: seq<Action>)
    requires Catches(s, m)
    ensures Exec(s, run) == s.(requests := map[7 := SawJob(0, false)], jobs := map[0 := Started(s.jobs[0], 0)],
                               workers := s.workers[m + 2 := Swapped(0)])
  {
    var job := s.jobs[0];
    var asked := s.(requests := map[7 := SawJob(0, false)]);
    assert s.jobs == map[0 := job];
    OneMore(s.workers, m);
    AsksAgain(s);
    SelectsAndSwaps(asked, m + 2, job);
    hide Exec, Next;
    var swaps := [Work(m + 2, Select(0, 0)), Work(m + 2, CompareAndSwap(0))];
    run := [Serve(7, Rerun(0))] + swaps;
    ExecConcat(s, [Serve(7, Rerun(0))], swaps);
  }

  lemma {:induction false} CatchWorkers(threshold: real, content: Input, m: nat) returns (run: seq<Action>)
    ensures Catches(Exec(Init(threshold), run), m) && Counted(threshold, run, 0, m)
  {
    if m == 0 {
      run := FirstEnqueue(threshold, content);
    } else {
      var fewer := CatchWorkers(threshold, content, m - 1);
      var s := Exec(Init(threshold), fewer);
      var more := CatchesOneMore(s, m - 1);
      ExecConcat(Init(threshold), fewer, more);
      var caught := Exec(s, more);
      OneMore(s.workers, m - 1);
      hide Next, Exec;
      Requeues(caught, caught.jobs[0]);
      Append(threshold, fewer + more, Serve(7, EnqueueWrite(0)));
      assert Swappers(caught, 0) == Ids(m);
      IdsAre(m);
      run := fewer + more + [Serve(7, EnqueueWrite(0))];
    }
  }

  lemma FirstEnqueue(threshold: real, content: Input) returns (run: seq<Action>)
    ensures Catches(Exec(Init(threshold), run), 0) && Counted(threshold, run, 0, 0)
  {
    run := Opening(content);
    OpeningQueues(threshold, content);
    assert Queued(threshold, content).jobs.Keys == {0};
    var asked := [Serve(0, Create(0, content)), Serve(0, EnqueueRead)];
    assert run == asked + [Serve(0, EnqueueWrite(0))];
    Append(threshold, asked, Serve(0, EnqueueWrite(0)));
    FirstEnqueues(threshold, content);
    assert Swappers(Exec(Init(threshold), asked), 0) == {};
  }

  lemma FirstEnqueues(threshold: real, content: Input)
    ensures
      var s := Exec(Init(threshold), [Serve(0, Create(0, content)), Serve(0, EnqueueRead)]);
      s.workers == map[] && EnqueuesRow(s, Serve(0, EnqueueWrite(0)), 0)
  {
    var created := Queued(threshold, content).(jobs := map[]);
    Follow([Init(threshold), created.(requests := map[0 := EditWritten(0)]),
            created.(requests := map[0 := SawNoJob(0, true)])],
           [Serve(0, Create(0, content)), Serve(0, EnqueueRead)]);
  }

  // ----- their re-reads hand out spare tokens that count no attempt -----

  ghost predicate Stocked(s: State, spares: set<WorkerId>) {
    && 1 !in spares && 0 in s.listings && s.requests == map[] && s.jobs.Keys == {0}
    && forall p :: p in spares ==> p in s.workers && s.workers[p] == Claimed(Token(0, s.jobs[0].revision, 0))
  }

  lemma RereadsOne(s: State, p: WorkerId)
    requires p in s.workers && s.workers[p] == Swapped(0) && s.jobs.Keys == {0}
    ensures Exec(s, [Work(p, Reread)]) == s.(workers := s.workers[p := Claimed(TokenOf(s.jobs, 0))])
  {
    Follow([s, s.(workers := s.workers[p := Claimed(TokenOf(s.jobs, 0))])], [Work(p, Reread)]);
  }

  lemma {:induction false} RereadsAll(s: State, todo: set<WorkerId>, spares: set<WorkerId>) returns (run: seq<Action>)
    requires Stocked(s, spares) && s.workers.Keys == todo + spares && todo !! spares && 1 !in todo
    requires s.jobs[0].attempts == 0 && forall p :: p in todo ==> s.workers[p] == Swapped(0)
    ensures forall a :: a in run ==> a.Work?
    ensures
      var s' := Exec(s, run);
      && s' == s.(workers := s'.workers) && Stocked(s', todo + spares) && s'.workers.Keys == todo + spares
    decreases todo
  {
    if p :| p in todo {
      var a := Work(p, Reread);
      RereadsOne(s, p);
      var more := RereadsAll(Exec(s, [a]), todo - {p}, spares + {p});
      run := [a] + more;
      ExecConcat(s, [a], more);
      assert (todo - {p}) + (spares + {p}) == todo + spares;
    } else {
      run := [];
      assert todo + spares == spares;
    }
  }

  // ----- three attempts of one worker -----

  /** Worker 1 runs the job, beside the spares. */
  ghost predicate RunsBeside(s: State, spares: set<WorkerId>, attempts: nat) {
    && Stocked(s, spares) && s.workers.Keys == spares + {1}
    && s.jobs[0].status == Running && s.jobs[0].attempts == attempts && s.jobs[0].updatedAt == s.clock
  }

  ghost predicate WaitsBeside(s: State, spares: set<WorkerId>, attempts: nat) {
    && Stocked(s, spares) && s.workers.Keys == spares
    && s.jobs[0].status == Pending && s.jobs[0].attempts == attempts && s.jobs[0].nextRunAt <= s.clock
  }

  lemma Waits(s: State, spares: set<WorkerId>, attempts: nat) returns (run: seq<Action>)
    requires Stocked(s, spares) && s.workers.Keys == spares
    requires s.jobs[0].status == Pending && s.jobs[0].attempts == attempts
    ensures forall a :: a in run ==> a.Tick?
    ensures WaitsBeside(Exec(s, run), spares, attempts)
  {
    run := [Tick(s.jobs[0].nextRunAt)];
    Follow([s, s.(clock := s.clock + s.jobs[0].nextRunAt)], run);
  }

  lemma RetriesOnce(s: State, spares: set<WorkerId>, attempts: nat) returns (run: seq<Action>)
    requires WaitsBeside(s, spares, attempts) && attempts + 1 < MAX_ATTEMPTS
    ensures forall a :: a in run ==> a.Work? || a.Tick?
    ensures WaitsBeside(Exec(s, run), spares, attempts + 1)
  {
    assert s.jobs == map[0 := s.jobs[0]];
    run := Attempt(s, 1, s.jobs[0]);
    var tick := Waits(Exec(s, run), spares, attempts + 1);
    ExecConcat(s, run, tick);
    run := run + tick;
  }

  lemma TakesBeside(s: State, spares: set<WorkerId>, attempts: nat) returns (run: seq<Action>)
    requires WaitsBeside(s, spares, attempts)
    ensures forall a :: a in run ==> a.Work?
    ensures RunsBeside(Exec(s, run), spares, attempts + 1)
  {
    assert s.jobs == map[0 := s.jobs[0]];
    ClaimsJob(s, 1, s.jobs[0]);
    run := [Work(1, Claim(0, s.clock))];
  }

  lemma ToThird(s: State, spares: set<WorkerId>) returns (run: seq<Action>)
    requires WaitsBeside(s, spares, 0)
    ensures forall a :: a in run ==> a.Work? || a.Tick?
    ensures RunsBeside(Exec(s, run), spares, 3)
  {
    run := RetriesOnce(s, spares, 0);
    var second := RetriesOnce(Exec(s, run), spares, 1);
    ExecConcat(s, run, second);
    run := run + second;
    var third := TakesBeside(Exec(s, run), spares, 2);
    ExecConcat(s, run, third);
    run := run + third;
  }

  // ----- every spare puts the row back once more -----

  lemma Crashes(s: State)
    requires 1 in s.workers
    ensures Exec(s, [Work(1, Crash)]) == s.(workers := s.workers - {1})
  {
    Follow([s, s.(workers := s.workers - {1})], [Work(1, Crash)]);
  }

  lemma Throws(s: State, q: WorkerId, tok: Token)
    requires q in s.workers && s.workers[q] == Claimed(tok)
    ensures Exec(s, [Work(q, Throw(""))]) == s.(workers := s.workers[q := Reporting(tok, ReportRetry(""))])
  {
    Follow([s, s.(workers := s.workers[q := Reporting(tok, ReportRetry(""))])], [Work(q, Throw(""))]);
  }

  lemma SpareRetries(s: State, spares: set<WorkerId>, attempts: nat, q: WorkerId)
    requires RunsBeside(s, spares, attempts) && q in spares
    ensures
      var s' := Exec(s, [Work(1, Crash)] + [Work(q, Throw(""))] + [Work(q, Report(s.clock))]);
      && Stocked(s', spares - {q}) && s'.workers.Keys == spares - {q}
      && s'.jobs[0].status == Pending && s'.jobs[0].attempts == attempts
  {
    hide Exec, Next;
    var tok := Token(0, s.jobs[0].revision, 0);
    var crashed := s.(workers := s.workers - {1});
    var thrown := crashed.(workers := crashed.workers[q := Reporting(tok, ReportRetry(""))]);
    Crashes(s);
    Throws(crashed, q, tok);
    Reports(thrown, q, tok, ReportRetry(""));
    ExecConcat(s, [Work(1, Crash)], [Work(q, Throw(""))]);
    ExecConcat(s, [Work(1, Crash)] + [Work(q, Throw(""))], [Work(q, Report(s.clock))]);
  }

  lemma SpendsOne(s: State, spares: set<WorkerId>, attempts: nat, q: WorkerId) returns (run: seq<Action>)
    requires RunsBeside(s, spares, attempts) && q in spares
    ensures forall a :: a in run ==> a.Work? || a.Tick?
    ensures RunsBeside(Exec(s, run), spares - {q}, attempts + 1)
  {
    SpareRetries(s, spares, attempts, q);
    hide Exec, Next, RunsBeside, WaitsBeside, Stocked;
    var retries := [Work(1, Crash)] + [Work(q, Throw(""))] + [Work(q, Report(s.clock))];
    var tick := Waits(Exec(s, retries), spares - {q}, attempts);
    ExecConcat(s, retries, tick);
    var claim := TakesBeside(Exec(s, retries + tick), spares - {q}, attempts);
    ExecConcat(s, retries + tick, claim);
    run := retries + tick + claim;
  }

  lemma {:induction false} SpendsSpares(s: State, spares: set<WorkerId>, attempts: nat) returns (run: seq<Action>)
    requires RunsBeside(s, spares, attempts)
    ensures forall a :: a in run ==> a.Work? || a.Tick?
    ensures RunsBeside(Exec(s, run), {}, attempts + |spares|)
    decreases spares
  {
    if q :| q in spares {
      run := SpendsOne(s, spares, attempts, q);
      var more := SpendsSpares(Exec(s, run), spares - {q}, attempts + 1);
      ExecConcat(s, run, more);
      run := run + more;
    } else {
      run := [];
      assert spares == {};
    }
  }

  // ----- recoveries -----

  /** The job is running its attempt number 3 + n + m, after n recoveries and with m workers caught. */
  ghost predicate RunsAttempt(threshold: real, run: seq<Action>, n: nat, m: nat) {
    var s := Exec(Init(threshold), run);
    && Counted(threshold, run, n, m)
    && s.jobs.Keys == {0} && s.jobs[0].status == Running && s.jobs[0].attempts == 3 + n + m
    && s.jobs[0].updatedAt == s.clock && s.workers.Keys == {1}
  }

  lemma WithoutRecovery(threshold: real, content: Input, m: nat) returns (run: seq<Action>)
    ensures RunsAttempt(threshold, run, 0, m)
  {
    run := CatchWorkers(threshold, content, m);
    IdsAre(m);
    var s := Exec(Init(threshold), run);
    var rereads := RereadsAll(s, Ids(m), {});
    var third := ToThird(Exec(s, rereads), Ids(m) + {});
    ExecConcat(s, rereads, third);
    var last := SpendsSpares(Exec(s, rereads + third), Ids(m) + {}, 3);
    ExecConcat(s, rereads + third, last);
    ExecConcat(Init(threshold), run, rereads + third + last);
    StaysCounted(threshold, run, rereads + third + last, 0, m);
    assert Ids(m) + {} == Ids(m);
    run := run + (rereads + third + last);
  }

  lemma CrashesAndLapses(s: State)
    requires s.workers.Keys == {1}
    ensures Next(Next(s, Work(1, Crash)), Tick(STALE_RUN_MS + 1))
         == s.(clock := s.clock + STALE_RUN_MS + 1, workers := map[])
  {
    assert s.workers - {1} == map[];
  }

  lemma Lapses(s: State, job: Job)
    requires s.jobs == map[0 := job] && Stale(job, s.clock)
    ensures Next(s, Recover(s.clock)) == s.(jobs := map[0 := Recovered(job, s.clock)])
    ensures RecoversRow(s, Recover(s.clock), 0)
  {
    assert RecoverAll(s.jobs, s.clock) == map[0 := Recovered(job, s.clock)];
  }

  /** Crash, recovery and claim: one more attempt for one more recovery. */
  lemma RecoverOnce(threshold: real, run: seq<Action>, n: nat, m: nat) returns (run': seq<Action>)
    requires RunsAttempt(threshold, run, n, m)
    ensures RunsAttempt(threshold, run', n + 1, m)
  {
    var s := Exec(Init(threshold), run);
    var late := s.(clock := s.clock + STALE_RUN_MS + 1, workers := map[]);
    CrashesAndLapses(s);
    Append(threshold, run, Work(1, Crash));
    Append(threshold, run + [Work(1, Crash)], Tick(STALE_RUN_MS + 1));
    run' := run + [Work(1, Crash)] + [Tick(STALE_RUN_MS + 1)];
    run' := RecoversAndClaims(threshold, run', late, n, m);
  }

  lemma RecoversAndClaims(threshold: real, run: seq<Action>, s: State, n: nat, m: nat) returns (run': seq<Action>)
    requires s == Exec(Init(threshold), run) && Counted(threshold, run, n, m)
    requires s.jobs.Keys == {0} && s.workers == map[]
    requires Stale(s.jobs[0], s.clock) && s.jobs[0].attempts == 3 + n + m
    ensures RunsAttempt(threshold, run', n + 1, m)
  {
    var job := Recovered(s.jobs[0], s.clock);
    assert s.jobs == map[0 := s.jobs[0]];
    Lapses(s, s.jobs[0]);
    Append(threshold, run, Recover(s.clock));
    var recovered := s.(jobs := map[0 := job]);
    run' := run + [Recover(s.clock)];
    ClaimsJob(recovered, 1, job);
    ExecConcat(Init(threshold), run', [Work(1, Claim(0, s.clock))]);
    Append(threshold, run', Work(1, Claim(0, s.clock)));
    run' := run' + [Work(1, Claim(0, s.clock))];
  }

  /** The bound is exact: for every number of recoveries and every number of workers caught by the last
      enqueue there is a run that reaches it.  With one worker caught, a fourth attempt runs without any
      recovery. */
  lemma {:induction false} AttemptsReached(threshold: real, content: Input, n: nat, m: nat) returns (run: seq<Action>)
    ensures
      var s := Exec(Init(threshold), run);
      && Recoveries(threshold, run, 0) == n && Caught(threshold, run, 0) == m
      && 0 in s.jobs && s.jobs[0].status == Running && s.jobs[0].attempts == 3 + n + m
    ensures RunsAttempt(threshold, run, n, m)
  {
    if n == 0 {
      run := WithoutRecovery(threshold, content, m);
    } else {
      var shorter := AttemptsReached(threshold, content, n - 1, m);
      run := RecoverOnce(threshold, shorter, n - 1, m);
    }
  }
}
