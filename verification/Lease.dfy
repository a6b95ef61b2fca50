/** A worker that has its row to itself and reports within the lease is heard; and exactly then. */
module Lease {
  import opened Options
  import opened JobQueue
  import opened Moderation
  import opened Protocol
  import opened Fencing
  import opened TokenExclusion
  import opened Attempts

  /** Worker `p` keeps its token through the run, and no enqueue write or deletion hits its listing. */
  ghost predicate Undisputed(s: State, run: seq<Action>, p: WorkerId, tok: Token) {
    && (forall i :: 0 <= i <= |run| ==> Holds(Exec(s, run[..i]), p, tok))
    && (forall i :: 0 <= i < |run| ==> !EnqueuesRow(Exec(s, run[..i]), run[i], tok.listing) && run[i] != Remove(tok.listing))
  }

  /** Worker `p` has the row to itself: its token is current, and nobody else has won the row or holds a
      token that is up to date. */
  ghost predicate Alone(s: State, p: WorkerId, tok: Token) {
    && Holds(s, p, tok) && Current(s.jobs, tok)
    && forall q :: q != p ==> !Owns(s, q, tok.listing)
  }

  /** A RUNNING row gets no new owner. */
  lemma NoNewOwner(s: State, a: Action, q: WorkerId, l: ListingId)
    requires Sound(s) && l in s.jobs && s.jobs[l].status == Running && Owns(Next(s, a), q, l)
    requires !EnqueuesRow(s, a, l)
    ensures Owns(s, q, l)
  {
    if a.Work? && Enabled(s, a) {
      WorkRevisions(s, a.p, a.work);
      if a.p == q {
        NoNewOwnStep(s, q, a.work, l);
      }
    } else if Enabled(s, a) {
      assert Next(s, a).workers == s.workers;
      if s.workers[q].HasToken() {
        assert Holds(s, q, s.workers[q].tok) && TokenSound(s, s.workers[q].tok);
        OtherRow(s, a, l);
      }
    }
  }

  lemma NoNewOwnStep(s: State, q: WorkerId, w: WorkStep, l: ListingId)
    requires WorkEnabled(s, q, w) && l in s.jobs && s.jobs[l].status == Running && Owns(Next(s, Work(q, w)), q, l)
    ensures Owns(s, q, l)
  {
    if w.Proceed? {
      ProceedSound(s.workers[q], Row(s, s.workers[q].tok.listing), s.threshold, w.error);
    }
  }

  /** A RUNNING row that is not stale changes only by the report of a worker that owns it. */
  lemma RunningRow(s: State, a: Action, l: ListingId)
    requires TablesSound(s) && l in s.jobs && s.jobs[l].status == Running
    requires !EnqueuesRow(s, a, l) && !RecoversRow(s, a, l) && a != Remove(l)
    ensures l in Next(s, a).jobs
    ensures Next(s, a).jobs[l] != s.jobs[l] ==> a.Work? && a.work.Report? && Enabled(s, a) && Owns(s, a.p, l)
  {
    if a.Work? && Enabled(s, a) {
      RunningWork(s, a.p, a.work, l);
    } else {
      StaysOrRemoved(s, a, l);
      if !a.Work? {
        OtherRow(s, a, l);
      }
    }
  }

  lemma RunningWork(s: State, p: WorkerId, w: WorkStep, l: ListingId)
    requires WorkEnabled(s, p, w) && l in s.jobs && s.jobs[l].status == Running
    ensures l in Next(s, Work(p, w)).jobs
    ensures Next(s, Work(p, w)).jobs[l] != s.jobs[l] ==> w.Report? && Owns(s, p, l)
  {
    WorkRevisions(s, p, w);
    if w.Proceed? {
      ProceedSound(s.workers[p], Row(s, s.workers[p].tok.listing), s.threshold, w.error);
    }
  }

  lemma StepLease(s: State, a: Action, p: WorkerId, tok: Token)
    requires Sound(s) && Alone(s, p, tok) && Holds(Next(s, a), p, tok)
    requires !EnqueuesRow(s, a, tok.listing) && a != Remove(tok.listing)
    requires s.clock <= s.jobs[tok.listing].updatedAt + 90_000
    ensures Alone(Next(s, a), p, tok) && Next(s, a).jobs[tok.listing] == s.jobs[tok.listing]
  {
    RunningRow(s, a, tok.listing);
    if a.Work? && a.p == p && a.work.Report? && Enabled(s, a) {
      Reported(s, p, a.work.at);
    }
    forall q | q != p
      ensures !Owns(Next(s, a), q, tok.listing)
    {
      if Owns(Next(s, a), q, tok.listing) {
        NoNewOwner(s, a, q, tok.listing);
      }
    }
  }

  lemma Reported(s: State, p: WorkerId, at: nat)
    requires WorkEnabled(s, p, Report(at))
    ensures p !in Next(s, Work(p, Report(at))).workers
  {
  }

  lemma UndisputedPrefix(s: State, prefix: seq<Action>, a: Action, p: WorkerId, tok: Token)
    requires Undisputed(s, prefix + [a], p, tok)
    ensures Undisputed(s, prefix, p, tok) && Holds(Exec(s, prefix), p, tok) && Holds(Exec(s, prefix + [a]), p, tok)
    ensures !EnqueuesRow(Exec(s, prefix), a, tok.listing) && a != Remove(tok.listing)
  {
    var run := prefix + [a];
    forall i | 0 <= i <= |prefix|
      ensures prefix[..i] == run[..i]
    {
    }
    assert run[..|run|] == run && prefix[..|prefix|] == prefix && run[|prefix|] == a;
  }

  lemma {:induction false} LeaseKept(threshold: real, before: seq<Action>, run: seq<Action>, p: WorkerId, tok: Token)
    requires Alone(Exec(Init(threshold), before), p, tok)
    requires Undisputed(Exec(Init(threshold), before), run, p, tok)
    requires
      var s := Exec(Init(threshold), before);
      Exec(s, run).clock <= s.jobs[tok.listing].updatedAt + 90_000
    ensures
      var s := Exec(Init(threshold), before);
      Alone(Exec(s, run), p, tok) && Exec(s, run).jobs[tok.listing] == s.jobs[tok.listing]
  {
    var s := Exec(Init(threshold), before);
    if run != [] {
      var prefix, a := run[..|run| - 1], run[|run| - 1];
      assert prefix + [a] == run;
      UndisputedPrefix(s, prefix, a, p, tok);
      ExecConcat(Init(threshold), before, prefix);
      RunSound(threshold, before + prefix);
      StepGrows(Exec(s, prefix), a);
      LeaseKept(threshold, before, prefix, p, tok);
      StepLease(Exec(s, prefix), a, p, tok);
    }
  }

  /** What a report asks for, when the queue accepts it. */
  predicate Applied(before: Job, after: Job, report: Report, attempts: nat, at: nat) {
    && after.revision == before.revision && after.attempts == before.attempts && after.createdAt == before.createdAt
    && after.updatedAt == at
    && match report
       case ReportComplete(_) => after.status == Completed && after.nextRunAt == at && after.lastError == None
       case ReportFail(m) => after.status == Failed && after.nextRunAt == at && after.lastError == Some(m)
       case ReportRetry(m) =>
         && after.lastError == Some(m)
         && (if attempts >= 3 then after.status == Failed && after.nextRunAt == at
             else after.status == Pending && after.nextRunAt == at + (if attempts == 1 then 15_000 else if attempts == 2 then 30_000 else 60_000))
  }

  lemma ReportApplied(s: State, p: WorkerId, tok: Token, at: nat)
    requires Holds(s, p, tok) && Current(s.jobs, tok) && WorkEnabled(s, p, Report(at))
    ensures
      var s' := Next(s, Work(p, Report(at)));
      && s'.jobs.Keys == s.jobs.Keys
      && Applied(s.jobs[tok.listing], s'.jobs[tok.listing], s.workers[p].report, tok.attempts, at)
      && forall l :: l in s.jobs && l != tok.listing ==> s'.jobs[l] == s.jobs[l]
  {
  }

  /** Lease guarantee, from any reachable state: a worker that has its row to itself and reports no more
      than 90 s after the row's `updatedAt`, with no enqueue and no deletion in between, is heard: its
      report is applied to exactly that row, whatever other workers, recoveries, edits and jobs did. */
  lemma LeaseGuarantee(threshold: real, before: seq<Action>, run: seq<Action>, p: WorkerId, tok: Token, at: nat)
    requires Alone(Exec(Init(threshold), before), p, tok)
    requires Undisputed(Exec(Init(threshold), before), run, p, tok)
    requires
      var s := Exec(Init(threshold), before);
      Exec(s, run).clock <= s.jobs[tok.listing].updatedAt + 90_000
    requires WorkEnabled(Exec(Exec(Init(threshold), before), run), p, Report(at))
    ensures
      var s := Exec(Init(threshold), before);
      var end := Exec(s, run);
      var end' := Next(end, Work(p, Report(at)));
      && Current(end.jobs, tok) && end'.jobs.Keys == end.jobs.Keys
      && Applied(s.jobs[tok.listing], end'.jobs[tok.listing], end.workers[p].report, tok.attempts, at)
      && forall l :: l in end.jobs && l != tok.listing ==> end'.jobs[l] == end.jobs[l]
  {
    LeaseKept(threshold, before, run, p, tok);
    ReportApplied(Exec(Exec(Init(threshold), before), run), p, tok, at);
  }

  // ----- exactly then -----

  /** How far a worker is from a report, if every statement throws that can. */
  function ThrowsLeft(ph: Phase): nat {
    match ph
    case Reporting(_, _) => 0
    case Faulted(_, _, _, _) => 1
    case Claimed(_) => 1
    case Recorded(_, _, approve) => if approve then 2 else 1
    case _ => 2
  }

  function Hurry(ph: Phase): WorkStep {
    if ph.Recorded? && !ph.approve then Proceed("") else Throw("")
  }

  lemma Hurries(s: State, q: WorkerId, tok: Token)
    requires Holds(s, q, tok) && !s.workers[q].Reporting?
    ensures
      var s' := Next(s, Work(q, Hurry(s.workers[q])));
      && Holds(s', q, tok) && ThrowsLeft(s'.workers[q]) < ThrowsLeft(s.workers[q])
      && s'.jobs == s.jobs && s'.clock == s.clock
      && forall p :: p != q && p in s.workers ==> p in s'.workers && s'.workers[p] == s.workers[p]
  {
  }

  lemma ReportEnds(s: State, q: WorkerId, tok: Token)
    requires Holds(s, q, tok) && s.workers[q].Reporting? && Current(s.jobs, tok)
    ensures
      var s' := Next(s, Work(q, Report(s.clock)));
      && tok.listing in s'.jobs && s'.jobs[tok.listing].status != Running && s'.clock == s.clock
      && forall p :: p != q && p in s.workers ==> p in s'.workers && s'.workers[p] == s.workers[p]
  {
  }

  /** The run is worker `q`'s alone, and takes no time. */
  ghost predicate OnlyBy(s: State, run: seq<Action>, q: WorkerId) {
    && (forall a :: a in run ==> a.Work? && a.p == q)
    && Exec(s, run).clock == s.clock
  }

  lemma {:induction false} OthersStand(s: State, run: seq<Action>, q: WorkerId, p: WorkerId, tok: Token)
    requires (forall a :: a in run ==> a.Work? && a.p == q) && q != p && Holds(s, p, tok)
    ensures Holds(Exec(s, run), p, tok)
  {
    if run != [] {
      OthersStand(s, run[..|run| - 1], q, p, tok);
      PhaseKept(Exec(s, run[..|run| - 1]), run[|run| - 1], p);
    }
  }

  lemma OnlyByIsUndisputed(s: State, run: seq<Action>, q: WorkerId, p: WorkerId, tok: Token)
    requires OnlyBy(s, run, q) && q != p && Holds(s, p, tok)
    ensures Undisputed(s, run, p, tok)
  {
    forall i | 0 <= i <= |run|
      ensures Holds(Exec(s, run[..i]), p, tok)
    {
      OthersStand(s, run[..i], q, p, tok);
    }
  }

  /** A second owner of the row reports first. */
  lemma {:induction false} RivalReports(s: State, q: WorkerId, tok: Token) returns (run: seq<Action>)
    requires Holds(s, q, tok) && Current(s.jobs, tok)
    ensures OnlyBy(s, run, q)
    ensures
      var jobs := Exec(s, run).jobs;
      tok.listing in jobs && jobs[tok.listing].status != Running
    decreases ThrowsLeft(s.workers[q])
  {
    if s.workers[q].Reporting? {
      run := [Work(q, Report(s.clock))];
      ReportEnds(s, q, tok);
      assert run[..0] == [];
      assert Exec(s, run) == Next(s, run[0]);
    } else {
      var a := Work(q, Hurry(s.workers[q]));
      Hurries(s, q, tok);
      var more := RivalReports(Next(s, a), q, tok);
      run := [a] + more;
      assert [a][..0] == [];
      assert Exec(s, [a]) == Next(s, a);
      ExecConcat(s, [a], more);
    }
  }

  lemma RivalRereads(s: State, q: WorkerId, l: ListingId)
    requires Swapping(s, q, l) && l in s.jobs
    ensures
      var s' := Next(s, Work(q, Reread));
      Holds(s', q, TokenOf(s.jobs, l)) && s'.jobs == s.jobs && s'.clock == s.clock
  {
  }

  lemma RivalTakesRow(s: State, q: WorkerId, l: ListingId) returns (run: seq<Action>)
    requires Owns(s, q, l) && l in s.jobs && s.jobs[l].status == Running
    ensures OnlyBy(s, run, q)
    ensures l in Exec(s, run).jobs && Exec(s, run).jobs[l].status != Running
  {
    if Swapping(s, q, l) {
      var a := Work(q, Reread);
      RivalRereads(s, q, l);
      var more := RivalReports(Next(s, a), q, TokenOf(s.jobs, l));
      run := [a] + more;
      assert [a][..0] == [];
      assert Exec(s, [a]) == Next(s, a);
      ExecConcat(s, [a], more);
    } else {
      run := RivalReports(s, q, s.workers[q].tok);
    }
  }

  /** The condition is exact.  From any reachable state in which a worker holds a current token within
      its lease: it has the row to itself if and only if its token stays current on every undisputed
      continuation within the 90 s. */
  lemma LeaseExactly(threshold: real, before: seq<Action>, p: WorkerId, tok: Token)
    requires
      var s := Exec(Init(threshold), before);
      && Holds(s, p, tok) && Current(s.jobs, tok)
      && s.clock <= s.jobs[tok.listing].updatedAt + 90_000
    ensures
      var s := Exec(Init(threshold), before);
      (forall q :: q != p ==> !Owns(s, q, tok.listing)) <==>
      forall run :: Undisputed(s, run, p, tok) && Exec(s, run).clock <= s.jobs[tok.listing].updatedAt + 90_000 ==> Current(Exec(s, run).jobs, tok)
  {
    var s := Exec(Init(threshold), before);
    if q :| q != p && Owns(s, q, tok.listing) {
      var run := RivalTakesRow(s, q, tok.listing);
      OnlyByIsUndisputed(s, run, q, p, tok);
      assert Undisputed(s, run, p, tok) && Exec(s, run).clock <= s.jobs[tok.listing].updatedAt + 90_000 && !Current(Exec(s, run).jobs, tok);
    } else {
      forall run | Undisputed(s, run, p, tok) && Exec(s, run).clock <= s.jobs[tok.listing].updatedAt + 90_000
        ensures Current(Exec(s, run).jobs, tok)
      {
        LeaseKept(threshold, before, run, p, tok);
      }
    }
  }

  /** After whole claims a worker with an up-to-date token always has the row to itself. */
  lemma WholeIsAlone(threshold: real, before: seq<Action>, p: WorkerId, tok: Token)
    requires WholeRun(threshold, before, tok.listing)
    requires Holds(Exec(Init(threshold), before), p, tok) && AtRevision(Exec(Init(threshold), before).jobs, tok)
    ensures Alone(Exec(Init(threshold), before), p, tok)
  {
    RunExclusive(threshold, before, tok.listing);
    ExclusiveTokens(Exec(Init(threshold), before), tok.listing);
    assert Owns(Exec(Init(threshold), before), p, tok.listing);
  }

  /** The 90 s are exact: one millisecond later any recovery takes the row from the worker, and
      whatever it reports from then on changes nothing. */
  lemma LeaseLapses(threshold: real, before: seq<Action>, p: WorkerId, tok: Token, after: seq<Action>, report: Report, at: nat)
    requires
      var s := Exec(Init(threshold), before);
      && Holds(s, p, tok) && Current(s.jobs, tok)
      && s.jobs[tok.listing].updatedAt + 90_000 < s.clock
    ensures
      var s := Exec(Init(threshold), before);
      var later := Exec(Init(threshold), before + [Recover(s.clock)] + after);
      var row, row' := s.jobs[tok.listing], Next(s, Recover(s.clock)).jobs[tok.listing];
      && row'.status == Pending && row'.revision == row.revision + 1 && row'.nextRunAt == s.clock
      && ReportRow(later.jobs, tok, report, at) == later.jobs
  {
    var s := Exec(Init(threshold), before);
    assert RecoversRow(s, Recover(s.clock), tok.listing);
    SupersededBy(s, Recover(s.clock), tok.listing);
    PermanentFencing(threshold, before, Recover(s.clock), after, p, tok, report, at);
  }
}
