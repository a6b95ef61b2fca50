/** How often a job runs, over every run: the attempt bound, the end of every retry chain, and the
    backoff delays that are ever applied.  Recoveries add attempts, and so do the workers that an
    enqueue write catches between the compare-and-set and the re-read of a claim. */
module Attempts {
  import opened Options
  import opened JobQueue
  import opened Moderation
  import opened Protocol
  import opened Fencing
  import opened TokenExclusion
  import opened Sets

  // ----- what adds attempts -----

  /** The recoveries of `l` since its last enqueue. */
  ghost function Recoveries(threshold: real, run: seq<Action>, l: ListingId): nat {
    if run == [] then 0
    else
      var prefix := run[..|run| - 1];
      var s := Exec(Init(threshold), prefix);
      if EnqueuesRow(s, run[|run| - 1], l) then 0
      else if RecoversRow(s, run[|run| - 1], l) then Recoveries(threshold, prefix, l) + 1
      else Recoveries(threshold, prefix, l)
  }

  /** The workers between the compare-and-set and the re-read of a claim of `l`. */
  function Swappers(s: State, l: ListingId): set<WorkerId> {
    set p | p in s.workers && s.workers[p] == Swapped(l)
  }

  /** How many workers the last enqueue of `l` has caught there. */
  ghost function Caught(threshold: real, run: seq<Action>, l: ListingId): nat {
    if run == [] then 0
    else
      var prefix := run[..|run| - 1];
      var s := Exec(Init(threshold), prefix);
      if EnqueuesRow(s, run[|run| - 1], l) then |Swappers(s, l)| else Caught(threshold, prefix, l)
  }

  // ----- who can still retry -----

  /** The worker holds, or is about to read, a token with which a retry would put the row back. */
  predicate CanRetry(s: State, p: WorkerId, l: ListingId) {
    && p in s.workers && l in s.jobs
    && (|| (s.workers[p] == Swapped(l) && s.jobs[l].attempts < MAX_ATTEMPTS)
        || (s.workers[p].HasToken() && s.workers[p].tok.listing == l && AtRevision(s.jobs, s.workers[p].tok)
            && s.workers[p].tok.attempts < MAX_ATTEMPTS))
  }

  function Retriers(s: State, l: ListingId): set<WorkerId> {
    set p | p in s.workers && CanRetry(s, p, l)
  }

  /** The claims that can still come to a row, if nothing enqueues or recovers it: at least one while it
      is PENDING, up to the third attempt, and one for every worker that can still put it back. */
  function Left(row: Job, retriers: nat): nat {
    match row.status
    case Pending => (if row.attempts + 1 < MAX_ATTEMPTS then MAX_ATTEMPTS - row.attempts else 1) + retriers
    case Running => (if row.attempts + 1 < MAX_ATTEMPTS then MAX_ATTEMPTS - 1 - row.attempts else 0) + retriers
    case _ => 0
  }

  function ClaimsLeft(s: State, l: ListingId): nat
    requires l in s.jobs
  {
    Left(s.jobs[l], |Retriers(s, l)|)
  }

  // ----- one step -----

  ghost predicate ClaimsRow(s: State, a: Action, l: ListingId) {
    l in s.jobs && l in Next(s, a).jobs && s.jobs[l].status == Pending && Next(s, a).jobs[l].status == Running
  }

  /** What one step of a worker does to one row. */
  lemma WorkRow(s: State, p: WorkerId, w: WorkStep, l: ListingId)
    requires WorkEnabled(s, p, w) && l in s.jobs
    ensures
      var row := s.jobs[l];
      var s' := Next(s, Work(p, w));
      && l in s'.jobs
      && (|| s'.jobs[l] == row
          || (row.status == Pending && s'.jobs[l] == Started(row, w.at)
              && p in s'.workers && (s'.workers[p] == Swapped(l) || s'.workers[p] == Claimed(TokenOf(s'.jobs, l))))
          || (row.status == Running && w.Report?
              && s.workers[p].tok.listing == l && AtRevision(s.jobs, s.workers[p].tok) && p !in s'.workers
              && s'.jobs[l] == ReportRow(s.jobs, s.workers[p].tok, s.workers[p].report, w.at)[l]
              && s'.jobs[l].attempts == row.attempts && s'.jobs[l].revision == row.revision
              && (s'.jobs[l].status == Pending ==> s.workers[p].tok.attempts < MAX_ATTEMPTS)
              && s'.jobs[l].status != Running))
  {
    if w.Proceed? {
      ProceedSound(s.workers[p], Row(s, s.workers[p].tok.listing), s.threshold, w.error);
    }
  }

  /** A worker that can retry after a step could do so before it, unless it has just claimed the row. */
  lemma RetrierBefore(s: State, p: WorkerId, w: WorkStep, q: WorkerId, l: ListingId)
    requires WorkEnabled(s, p, w) && l in s.jobs && CanRetry(Next(s, Work(p, w)), q, l)
    ensures CanRetry(s, q, l) || (q == p && ClaimsRow(s, Work(p, w), l))
  {
    WorkRow(s, p, w, l);
    WorkRevisions(s, p, w);
    if q == p {
      OwnRetry(s, p, w, l);
    } else {
      PhaseKept(s, Work(p, w), q);
    }
  }

  lemma OwnRetry(s: State, p: WorkerId, w: WorkStep, l: ListingId)
    requires WorkEnabled(s, p, w) && l in s.jobs && CanRetry(Next(s, Work(p, w)), p, l)
    requires Next(s, Work(p, w)).jobs[l].revision == s.jobs[l].revision
    ensures CanRetry(s, p, l) || ClaimsRow(s, Work(p, w), l)
  {
  }

  lemma NewRetrier(s: State, p: WorkerId, w: WorkStep, l: ListingId)
    requires WorkEnabled(s, p, w) && ClaimsRow(s, Work(p, w), l)
    ensures CanRetry(Next(s, Work(p, w)), p, l) ==> s.jobs[l].attempts + 1 < MAX_ATTEMPTS
  {
    WorkRow(s, p, w, l);
  }

  /** A claim adds the worker to those that can retry, up to the third attempt, and a retry uses one up. */
  lemma RetriersStep(s: State, p: WorkerId, w: WorkStep, l: ListingId)
    requires WorkEnabled(s, p, w) && l in s.jobs && l in Next(s, Work(p, w)).jobs
    ensures
      var s' := Next(s, Work(p, w));
      && |Retriers(s', l)|
         <= |Retriers(s, l)| + (if ClaimsRow(s, Work(p, w), l) && s.jobs[l].attempts + 1 < MAX_ATTEMPTS then 1 else 0)
      && (s.jobs[l].status == Running && s'.jobs[l].status == Pending ==> |Retriers(s', l)| + 1 <= |Retriers(s, l)|)
  {
    hide Next;
    var s' := Next(s, Work(p, w));
    WorkRow(s, p, w, l);
    forall q | q in Retriers(s', l)
      ensures q in Retriers(s, l) || (q == p && ClaimsRow(s, Work(p, w), l))
    {
      RetrierBefore(s, p, w, q, l);
    }
    if ClaimsRow(s, Work(p, w), l) {
      NewRetrier(s, p, w, l);
      SubsetSize(Retriers(s', l), Retriers(s, l) + (if CanRetry(s', p, l) then {p} else {}));
    } else if s.jobs[l].status == Running && s'.jobs[l].status == Pending {
      assert p in Retriers(s, l) && p !in Retriers(s', l);
      SubsetSize(Retriers(s', l), Retriers(s, l) - {p});
    } else {
      SubsetSize(Retriers(s', l), Retriers(s, l));
    }
  }

  /** A worker's step never adds to the attempts that a row can reach. */
  lemma WorkBudget(s: State, p: WorkerId, w: WorkStep, l: ListingId)
    requires WorkEnabled(s, p, w) && l in s.jobs
    ensures
      var s' := Next(s, Work(p, w));
      && l in s'.jobs
      && s'.jobs[l].attempts + ClaimsLeft(s', l) <= s.jobs[l].attempts + ClaimsLeft(s, l)
      && s.jobs[l].attempts <= s'.jobs[l].attempts
  {
    hide Next, Retriers;
    WorkRow(s, p, w, l);
    RetriersStep(s, p, w, l);
  }

  /** Nor does any other step, except a recovery, which adds one, and an enqueue, which starts afresh with
      three and with the workers that it catches. */
  lemma OtherBudget(s: State, a: Action, l: ListingId)
    requires Sound(s) && !a.Work? && l in Next(s, a).jobs
    ensures
      var s' := Next(s, a);
      if EnqueuesRow(s, a, l) then s'.jobs[l].attempts == 0 && ClaimsLeft(s', l) == MAX_ATTEMPTS + |Swappers(s, l)|
      else if RecoversRow(s, a, l) then
        s'.jobs[l].attempts == s.jobs[l].attempts && ClaimsLeft(s', l) <= ClaimsLeft(s, l) + 1
      else l in s.jobs && s'.jobs[l] == s.jobs[l] && ClaimsLeft(s', l) == ClaimsLeft(s, l)
  {
    hide Next, WorkEnabled;
    var s' := Next(s, a);
    OtherRow(s, a, l);
    WorkersStay(s, a);
    if EnqueuesRow(s, a, l) {
      forall p | p in s.workers
        ensures p in Retriers(s', l) <==> p in Swappers(s, l)
      {
        if s.workers[p].HasToken() && s.workers[p].tok.listing == l {
          assert Holds(s, p, s.workers[p].tok) && TokenSound(s, s.workers[p].tok);
        }
      }
      assert Retriers(s', l) == Swappers(s, l);
    } else if RecoversRow(s, a, l) {
      forall p | p in Retriers(s', l)
        ensures p in Retriers(s, l)
      {
        if s.workers[p].HasToken() {
          assert Holds(s, p, s.workers[p].tok) && TokenSound(s, s.workers[p].tok);
        }
      }
      SubsetSize(Retriers(s', l), Retriers(s, l));
    } else {
      assert forall p :: p in s.workers ==> (CanRetry(s', p, l) <==> CanRetry(s, p, l));
      assert Retriers(s', l) == Retriers(s, l);
    }
  }

  lemma WorkersStay(s: State, a: Action)
    requires !a.Work?
    ensures Next(s, a).workers == s.workers
  {
  }

  // ----- the attempt bound -----

  /** The attempts a row has had and those it can still have, at most. */
  ghost predicate WithinBudget(threshold: real, run: seq<Action>, l: ListingId) {
    var s := Exec(Init(threshold), run);
    l in s.jobs ==>
      s.jobs[l].attempts + ClaimsLeft(s, l)
      <= MAX_ATTEMPTS + Recoveries(threshold, run, l) + Caught(threshold, run, l)
  }

  lemma {:induction false} RunBudget(threshold: real, run: seq<Action>, l: ListingId)
    ensures WithinBudget(threshold, run, l)
  {
    if run != [] {
      var prefix, a := run[..|run| - 1], run[|run| - 1];
      var s := Exec(Init(threshold), prefix);
      RunSound(threshold, prefix);
      RunBudget(threshold, prefix, l);
      if l in Next(s, a).jobs {
        if !a.Work? {
          OtherBudget(s, a, l);
        } else if Enabled(s, a) {
          WorkRevisions(s, a.p, a.work);
          WorkBudget(s, a.p, a.work, l);
        }
      }
    }
  }

  /** The attempt bound, over every run: three, one more for each recovery since the last enqueue, and
      one more for each worker that this enqueue caught between a compare-and-set and its re-read; one
      less while the row is PENDING. */
  lemma AttemptBound(threshold: real, run: seq<Action>, l: ListingId)
    requires l in Exec(Init(threshold), run).jobs
    ensures
      var row := Exec(Init(threshold), run).jobs[l];
      row.attempts + (if row.status == Pending then 1 else 0)
      <= 3 + Recoveries(threshold, run, l) + Caught(threshold, run, l)
  {
    RunBudget(threshold, run, l);
  }

  // ----- the end of every retry chain -----

  /** Falls at every claim and at every outcome. */
  function Rank(s: State, l: ListingId): nat
    requires l in s.jobs
  {
    2 * ClaimsLeft(s, l) + (if s.jobs[l].status == Running then 1 else 0)
  }

  ghost function Claims(s: State, run: seq<Action>, l: ListingId): nat {
    if run == [] then 0
    else
      var prefix := run[..|run| - 1];
      Claims(s, prefix, l) + (if ClaimsRow(Exec(s, prefix), run[|run| - 1], l) then 1 else 0)
  }

  ghost function Changes(s: State, run: seq<Action>, l: ListingId): nat {
    if run == [] then 0
    else
      var prefix := run[..|run| - 1];
      var mid := Exec(s, prefix);
      var end := Exec(s, run);
      Changes(s, prefix, l)
      + (if l in mid.jobs && l in end.jobs && mid.jobs[l] != end.jobs[l] then 1 else 0)
  }

  /** Neither an enqueue nor a recovery touches the row of `l`, and its listing is not deleted. */
  ghost predicate Undisturbed(s: State, run: seq<Action>, l: ListingId) {
    forall i :: 0 <= i < |run| ==>
      && !EnqueuesRow(Exec(s, run[..i]), run[i], l)
      && !RecoversRow(Exec(s, run[..i]), run[i], l)
      && run[i] != Remove(l)
  }

  lemma StepRank(s: State, a: Action, l: ListingId)
    requires Sound(s) && l in s.jobs
    requires !EnqueuesRow(s, a, l) && !RecoversRow(s, a, l) && a != Remove(l)
    ensures l in Next(s, a).jobs
    ensures
      var s' := Next(s, a);
      && s.jobs[l].revision == s'.jobs[l].revision
      && (if s'.jobs[l] == s.jobs[l] then Rank(s', l) <= Rank(s, l) else Rank(s', l) < Rank(s, l))
      && ClaimsLeft(s', l) + (if ClaimsRow(s, a, l) then 1 else 0) <= ClaimsLeft(s, l)
  {
    if a.Work? && Enabled(s, a) {
      WorkRow(s, a.p, a.work, l);
      WorkRevisions(s, a.p, a.work);
      WorkBudget(s, a.p, a.work, l);
    } else if Enabled(s, a) {
      StaysOrRemoved(s, a, l);
      OtherRow(s, a, l);
      OtherBudget(s, a, l);
    }
  }

  lemma StaysOrRemoved(s: State, a: Action, l: ListingId)
    requires l in s.jobs && TablesSound(s) && a != Remove(l)
    ensures l in Next(s, a).jobs
  {
    StepGrows(s, a);
  }

  /** From any reachable state: while nothing enqueues or recovers a job, its row changes at most Rank
      times, and every claim uses up one of the claims left. */
  lemma {:induction false} RetriesEnd(threshold: real, before: seq<Action>, run: seq<Action>, l: ListingId)
    requires l in Exec(Init(threshold), before).jobs
    requires Undisturbed(Exec(Init(threshold), before), run, l)
    ensures
      var s := Exec(Init(threshold), before);
      && l in Exec(s, run).jobs
      && Claims(s, run, l) + ClaimsLeft(Exec(s, run), l) <= ClaimsLeft(s, l)
      && Changes(s, run, l) + Rank(Exec(s, run), l) <= Rank(s, l)
  {
    var s := Exec(Init(threshold), before);
    if run != [] {
      var prefix := run[..|run| - 1];
      forall i | 0 <= i < |prefix|
        ensures prefix[..i] == run[..i]
      {
      }
      RetriesEnd(threshold, before, prefix, l);
      ExecConcat(Init(threshold), before, prefix);
      RunSound(threshold, before + prefix);
      StepRank(Exec(s, prefix), run[|run| - 1], l);
    }
  }

  /** After an enqueue that catches nobody in a claim, at most three claims and six changes follow; each
      worker that it does catch adds one claim and two changes. */
  lemma ThreeClaims(threshold: real, before: seq<Action>, enqueue: Action, run: seq<Action>, l: ListingId)
    requires EnqueuesRow(Exec(Init(threshold), before), enqueue, l)
    requires Undisturbed(Exec(Init(threshold), before + [enqueue]), run, l)
    ensures
      var caught := |Swappers(Exec(Init(threshold), before), l)|;
      var s := Exec(Init(threshold), before + [enqueue]);
      Claims(s, run, l) <= 3 + caught && Changes(s, run, l) <= 6 + 2 * caught
  {
    var s := Exec(Init(threshold), before);
    ExecConcat(Init(threshold), before, [enqueue]);
    assert [enqueue][..0] == [];
    assert Exec(s, [enqueue]) == Next(s, enqueue);
    RunSound(threshold, before);
    EnqueuedRow(s, enqueue, l);
    OtherBudget(s, enqueue, l);
    RetriesEnd(threshold, before + [enqueue], run, l);
  }

  lemma EnqueuedRow(s: State, a: Action, l: ListingId)
    requires EnqueuesRow(s, a, l)
    ensures l in Next(s, a).jobs && Next(s, a).jobs[l].status == Pending
  {
  }

  // ----- the delays -----

  /** An enqueue write has hit the row while worker `p` stood between the compare-and-set and the re-read
      of the claim that it is in, or was in last. */
  ghost predicate HitInClaim(threshold: real, run: seq<Action>, p: WorkerId) {
    if run == [] then false
    else
      var prefix, a := run[..|run| - 1], run[|run| - 1];
      var s := Exec(Init(threshold), prefix);
      if a.Work? && a.p == p && Enabled(s, a) && (a.work.CompareAndSwap? || a.work.SwapAndReread? || a.work.Claim?) then false
      else if p in s.workers && s.workers[p].Swapped? && EnqueuesRow(s, a, s.workers[p].candidate) then true
      else HitInClaim(threshold, prefix, p)
  }

  /** A worker's token counts at least one attempt, unless its claim was hit. */
  ghost predicate Counts(s: State, p: WorkerId, hit: bool) {
    !hit && p in s.workers ==>
      && (s.workers[p].Swapped? && s.workers[p].candidate in s.jobs ==> s.jobs[s.workers[p].candidate].attempts >= 1)
      && (s.workers[p].Swapped? && s.workers[p].candidate in s.listings ==> s.workers[p].candidate in s.jobs)
      && (s.workers[p].Swapped? ==> s.workers[p].candidate in s.used)
      && (s.workers[p].HasToken() ==> s.workers[p].tok.attempts >= 1)
  }

  lemma OwnCounts(s: State, p: WorkerId, w: WorkStep, hit: bool)
    requires TablesSound(s) && WorkEnabled(s, p, w) && Counts(s, p, hit)
    ensures
      var claims := w.CompareAndSwap? || w.SwapAndReread? || w.Claim?;
      Counts(Next(s, Work(p, w)), p, if claims then false else hit)
  {
    if w.Proceed? {
      ProceedSound(s.workers[p], Row(s, s.workers[p].tok.listing), s.threshold, w.error);
    }
  }

  lemma OtherCounts(s: State, a: Action, p: WorkerId, hit: bool)
    requires TablesSound(s) && Counts(s, p, hit) && !(a.Work? && a.p == p && Enabled(s, a))
    ensures
      var hits := p in s.workers && s.workers[p].Swapped? && EnqueuesRow(s, a, s.workers[p].candidate);
      Counts(Next(s, a), p, hits || hit)
  {
    PhaseKept(s, a, p);
    StepGrows(s, a);
    if p in s.workers && s.workers[p].Swapped? {
      var l := s.workers[p].candidate;
      if a.Work? && Enabled(s, a) && l in s.jobs {
        WorkRow(s, a.p, a.work, l);
      } else if a.Work? && Enabled(s, a) {
        WorkRevisions(s, a.p, a.work);
      } else if !a.Work? && l in Next(s, a).jobs {
        OtherRow(s, a, l);
      }
    }
  }

  lemma {:induction false} RunCounts(threshold: real, run: seq<Action>, p: WorkerId)
    ensures Counts(Exec(Init(threshold), run), p, HitInClaim(threshold, run, p))
  {
    if run != [] {
      var prefix, a := run[..|run| - 1], run[|run| - 1];
      var s := Exec(Init(threshold), prefix);
      RunSound(threshold, prefix);
      RunCounts(threshold, prefix, p);
      if a.Work? && a.p == p && Enabled(s, a) {
        OwnCounts(s, p, a.work, HitInClaim(threshold, prefix, p));
      } else {
        OtherCounts(s, a, p, HitInClaim(threshold, prefix, p));
      }
    }
  }

  /** The delays, over every run: a retry that puts a row back puts it off by 15 s after attempt 1 and by
      30 s after attempt 2, as the worker's token counts, and there is no third; the 60 s entry applies
      only to a token that counts no attempt, which takes an enqueue write in the middle of its claim. */
  lemma BackoffApplied(threshold: real, run: seq<Action>, p: WorkerId, w: WorkStep, l: ListingId)
    requires WorkEnabled(Exec(Init(threshold), run), p, w) && l in Exec(Init(threshold), run).jobs
    requires
      var s := Exec(Init(threshold), run);
      s.jobs[l].status == Running && Next(s, Work(p, w)).jobs[l].status == Pending
    ensures
      var s := Exec(Init(threshold), run);
      var row' := Next(s, Work(p, w)).jobs[l];
      && w.Report? && s.workers[p].tok.listing == l
      && match s.workers[p].tok.attempts
         case 0 => row'.nextRunAt == w.at + 60_000 && HitInClaim(threshold, run, p)
         case 1 => row'.nextRunAt == w.at + 15_000
         case 2 => row'.nextRunAt == w.at + 30_000
         case _ => false
  {
    RunCounts(threshold, run, p);
    WorkRow(Exec(Init(threshold), run), p, w, l);
  }
}
