/** What happened between two points of the history of the database: which states a call has passed,
    which rows a worker has won or lost in it, and how its steps add up to a poll. */
module Histories {
  import opened Options
  import opened JobQueue
  import opened Moderation
  import opened Protocol
  import opened Fencing
  import opened Attempts
  import opened Fairness
  import opened Database

  /** Between two points of the history, this state was passed. */
  ghost predicate Passed(threshold: real, later: seq<Action>, i: nat, s: State) {
    i <= |later| && s == Exec(Init(threshold), later[..i])
  }

  /** The listing was APPROVED at some moment between the two points of the history. */
  ghost predicate ApprovedWithin(threshold: real, earlier: seq<Action>, later: seq<Action>, l: ListingId) {
    exists i, s :: |earlier| <= i && Passed(threshold, later, i, s) && l in s.listings && s.listings[l].approval == Approved
  }

  lemma ApprovedNow(threshold: real, earlier: seq<Action>, now: seq<Action>, l: ListingId)
    requires earlier <= now
    requires
      var s := Exec(Init(threshold), now);
      l in s.listings && s.listings[l].approval == Approved
    ensures ApprovedWithin(threshold, earlier, now, l)
  {
    assert now[..|now|] == now;
    assert Passed(threshold, now, |now|, Exec(Init(threshold), now));
  }

  lemma ApprovedStill(threshold: real, earlier: seq<Action>, mid: seq<Action>, now: seq<Action>, later: seq<Action>, l: ListingId)
    requires earlier <= mid <= now <= later && ApprovedWithin(threshold, mid, now, l)
    ensures ApprovedWithin(threshold, earlier, later, l)
  {
    var i, s :| |mid| <= i && Passed(threshold, now, i, s) && l in s.listings && s.listings[l].approval == Approved;
    assert later[..i] == now[..i];
    assert Passed(threshold, later, i, s);
  }

  /** Worker `p` has won the compare-and-set of `l` between the two points of the history. */
  ghost predicate SwappedWithin(threshold: real, earlier: seq<Action>, later: seq<Action>, p: WorkerId, l: ListingId, revision: nat) {
    exists i, s, at: nat ::
      && |earlier| <= i < |later| && Passed(threshold, later, i, s)
      && later[i] == Work(p, CompareAndSwap(at)) && CanSwap(s.jobs, l, revision)
      && Next(s, later[i]).jobs == Swap(s.jobs, l, revision, at)
  }

  lemma SwappedStill(threshold: real, earlier: seq<Action>, mid: seq<Action>, later: seq<Action>, p: WorkerId, l: ListingId, revision: nat)
    requires earlier <= mid <= later && SwappedWithin(threshold, earlier, mid, p, l, revision)
    ensures SwappedWithin(threshold, earlier, later, p, l, revision)
  {
    var i, s, at: nat :|
      && |earlier| <= i < |mid| && Passed(threshold, mid, i, s)
      && mid[i] == Work(p, CompareAndSwap(at)) && CanSwap(s.jobs, l, revision)
      && Next(s, mid[i]).jobs == Swap(s.jobs, l, revision, at);
    assert later[..i] == mid[..i] && later[i] == mid[i];
    assert Passed(threshold, later, i, s);
  }

  /** Worker `p` has selected `l` as the first due job between the two points of the history. */
  ghost predicate SelectedWithin(threshold: real, earlier: seq<Action>, later: seq<Action>, p: WorkerId, l: ListingId) {
    exists i, s, at: nat ::
      && |earlier| <= i < |later| && Passed(threshold, later, i, s)
      && later[i] == Work(p, Select(l, at)) && ServedFirst(s.jobs, l, at)
  }

  /** The row is PENDING and due, none that is has an earlier `nextRunAt`, and none with the same was
      created earlier. */
  ghost predicate ServedFirst(jobs: Jobs, l: ListingId, now: nat) {
    && l in jobs && jobs[l].status == Pending && jobs[l].nextRunAt <= now
    && forall m :: m in jobs && jobs[m].status == Pending && jobs[m].nextRunAt <= now ==>
         jobs[l].nextRunAt < jobs[m].nextRunAt
         || (jobs[l].nextRunAt == jobs[m].nextRunAt && jobs[l].createdAt <= jobs[m].createdAt)
  }

  lemma SelectedStill(threshold: real, earlier: seq<Action>, mid: seq<Action>, later: seq<Action>, p: WorkerId, l: ListingId)
    requires earlier <= mid <= later && SelectedWithin(threshold, earlier, mid, p, l)
    ensures SelectedWithin(threshold, earlier, later, p, l)
  {
    var i, s, at: nat :|
      && |earlier| <= i < |mid| && Passed(threshold, mid, i, s)
      && mid[i] == Work(p, Select(l, at)) && ServedFirst(s.jobs, l, at);
    assert later[..i] == mid[..i] && later[i] == mid[i];
    assert Passed(threshold, later, i, s);
  }

  lemma SwappedNow(threshold: real, earlier: seq<Action>, waited: seq<Action>, later: seq<Action>, p: WorkerId, l: ListingId,
                   revision: nat, at: nat)
    requires earlier <= waited && later == waited + [Work(p, CompareAndSwap(at))]
    requires
      var s := Exec(Init(threshold), waited);
      CanSwap(s.jobs, l, revision) && Exec(Init(threshold), later).jobs == Swap(s.jobs, l, revision, at)
    ensures SwappedWithin(threshold, earlier, later, p, l, revision)
  {
    assert later[..|waited|] == waited && later[|waited|] == Work(p, CompareAndSwap(at));
    assert Passed(threshold, later, |waited|, Exec(Init(threshold), waited));
  }

  lemma SelectedNow(threshold: real, earlier: seq<Action>, waited: seq<Action>, later: seq<Action>, p: WorkerId, l: ListingId,
                    at: nat)
    requires earlier <= waited && later == waited + [Work(p, Select(l, at))]
    requires ServedFirst(Exec(Init(threshold), waited).jobs, l, at)
    ensures SelectedWithin(threshold, earlier, later, p, l)
  {
    assert later[..|waited|] == waited && later[|waited|] == Work(p, Select(l, at));
    assert Passed(threshold, later, |waited|, Exec(Init(threshold), waited));
  }

  lemma SinceEarlier(threshold: real, earlier: seq<Action>, mid: seq<Action>, later: seq<Action>, p: WorkerId, l: ListingId, revision: nat)
    requires earlier <= mid <= later
    requires SwappedWithin(threshold, mid, later, p, l, revision) && SelectedWithin(threshold, mid, later, p, l)
    ensures SwappedWithin(threshold, earlier, later, p, l, revision) && SelectedWithin(threshold, earlier, later, p, l)
  {
    SwappedSince(threshold, earlier, mid, later, p, l, revision);
    var i, s, at: nat :|
      && |mid| <= i < |later| && Passed(threshold, later, i, s)
      && later[i] == Work(p, Select(l, at)) && ServedFirst(s.jobs, l, at);
    assert |earlier| <= i;
  }

  lemma SwappedSince(threshold: real, earlier: seq<Action>, mid: seq<Action>, later: seq<Action>, p: WorkerId, l: ListingId, revision: nat)
    requires earlier <= mid <= later && SwappedWithin(threshold, mid, later, p, l, revision)
    ensures SwappedWithin(threshold, earlier, later, p, l, revision)
  {
    var i, s, at: nat :|
      && |mid| <= i < |later| && Passed(threshold, later, i, s)
      && later[i] == Work(p, CompareAndSwap(at)) && CanSwap(s.jobs, l, revision)
      && Next(s, later[i]).jobs == Swap(s.jobs, l, revision, at);
    assert |earlier| <= i;
  }

  /** Worker `p` has looked for a job, at a time no earlier than `since`, and found none due. */
  ghost predicate IdledWithin(threshold: real, earlier: seq<Action>, later: seq<Action>, p: WorkerId, since: nat) {
    exists i, s, at: nat ::
      && |earlier| <= i < |later| && Passed(threshold, later, i, s)
      && later[i] == Work(p, SelectNothing(at)) && WorkEnabled(s, p, SelectNothing(at)) && since <= at
  }

  lemma IdledNow(threshold: real, waited: seq<Action>, later: seq<Action>, p: WorkerId, at: nat)
    requires later == waited + [Work(p, SelectNothing(at))]
    requires WorkEnabled(Exec(Init(threshold), waited), p, SelectNothing(at))
    ensures IdledWithin(threshold, waited, later, p, at)
  {
    assert later[..|waited|] == waited && later[|waited|] == Work(p, SelectNothing(at));
    assert Passed(threshold, later, |waited|, Exec(Init(threshold), waited));
  }

  lemma IdledStill(threshold: real, earlier: seq<Action>, mid: seq<Action>, later: seq<Action>, p: WorkerId,
                   since: nat, start: nat)
    requires earlier <= mid && IdledWithin(threshold, mid, later, p, since) && start <= since
    ensures IdledWithin(threshold, earlier, later, p, start)
  {
    var i, s, at: nat :|
      && |mid| <= i < |later| && Passed(threshold, later, i, s)
      && later[i] == Work(p, SelectNothing(at)) && WorkEnabled(s, p, SelectNothing(at)) && since <= at;
    assert |earlier| <= i && start <= at;
  }

  /** Somebody else enqueues, deletes or claims the row that worker `p` has selected. */
  ghost predicate Interferes(s: State, a: Action, p: WorkerId) {
    exists l: ListingId, revision: nat ::
      Selecting(s, p, l, revision)
      && (EnqueuesRow(s, a, l) || a == Remove(l) || (TakenRow(s, a) == Some(l) && a.p != p))
  }

  ghost predicate LostWithin(threshold: real, earlier: seq<Action>, later: seq<Action>, p: WorkerId) {
    exists k, s :: |earlier| <= k < |later| && Passed(threshold, later, k, s) && Interferes(s, later[k], p)
  }

  lemma LostStill(threshold: real, earlier: seq<Action>, from: seq<Action>, to: seq<Action>, later: seq<Action>, p: WorkerId)
    requires earlier <= from <= to <= later && LostWithin(threshold, from, to, p)
    ensures LostWithin(threshold, earlier, later, p)
  {
    var k, s :| |from| <= k < |to| && Passed(threshold, to, k, s) && Interferes(s, to[k], p);
    assert later[..k] == to[..k] && later[k] == to[k];
    assert Passed(threshold, later, k, s);
  }

  // ----- a lost race -----

  lemma {:induction false} WalkGrows(threshold: real, h: seq<Action>, more: seq<Action>, p: WorkerId)
    ensures Walk(threshold, h, p) <= Walk(threshold, h + more, p)
  {
    if more == [] {
      assert h + more == h;
    } else {
      var prefix := more[..|more| - 1];
      assert (h + more)[..|h + more| - 1] == h + prefix;
      WalkGrows(threshold, h, prefix, p);
    }
  }

  /** A worker that enters nothing stays where it was. */
  lemma StaysAt(s: State, a: Action, p: WorkerId, ph: Phase)
    requires p in Next(s, a).workers && Next(s, a).workers[p] == ph && Entered(s, a, p) == []
    ensures p in s.workers && s.workers[p] == ph
  {
    PhaseKept(s, a, p);
  }

  /** A PENDING row goes to a new revision, to its listing's deletion, or to a claim. */
  lemma LosesStep(s: State, a: Action, l: ListingId, revision: nat)
    requires TablesSound(s) && CanSwap(s.jobs, l, revision) && !CanSwap(Next(s, a).jobs, l, revision)
    ensures EnqueuesRow(s, a, l) || a == Remove(l) || (a.Work? && Enabled(s, a) && ClaimsRow(s, a, l))
  {
    if a != Remove(l) {
      StaysOrRemoved(s, a, l);
      if a.Work? && Enabled(s, a) {
        WorkRow(s, a.p, a.work, l);
      } else if !a.Work? {
        OtherRow(s, a, l);
      }
    }
  }

  lemma ClaimIsTaken(s: State, a: Action, l: ListingId)
    requires a.Work? && Enabled(s, a) && ClaimsRow(s, a, l)
    ensures TakenRow(s, a) == Some(l) && Entered(s, a, a.p) != []
  {
    WorkRow(s, a.p, a.work, l);
    if TakenRow(s, a).None? {
      NothingTaken(s, a, l);
    } else {
      TakesOne(s, a, l);
    }
  }

  lemma NothingTaken(s: State, a: Action, l: ListingId)
    requires a.Work? && Enabled(s, a) && l in s.jobs && TakenRow(s, a).None? && l in Next(s, a).jobs
    ensures !ClaimsRow(s, a, l)
  {
    if a.work.Proceed? {
      ProceedSound(s.workers[a.p], Row(s, s.workers[a.p].tok.listing), s.threshold, a.work.error);
    }
  }

  lemma TakesOne(s: State, a: Action, l: ListingId)
    requires TakenRow(s, a).Some? && ClaimsRow(s, a, l)
    ensures TakenRow(s, a) == Some(l)
  {
  }

  /** If a selected row can no longer be won, somebody has interfered. */
  lemma {:induction false} LosesRow(threshold: real, h: seq<Action>, more: seq<Action>, p: WorkerId, l: ListingId, revision: nat)
    requires CanSwap(Exec(Init(threshold), h).jobs, l, revision)
    requires !CanSwap(Exec(Init(threshold), h + more).jobs, l, revision)
    requires Selecting(Exec(Init(threshold), h + more), p, l, revision)
    requires Walk(threshold, h + more, p) == Walk(threshold, h, p)
    ensures LostWithin(threshold, h, h + more, p)
  {
    hide Exec, Walk, Next, TakenRow;
    assert more != [] || h + more == h;
    var prefix, a := more[..|more| - 1], more[|more| - 1];
    var s := Exec(Init(threshold), h + prefix);
    assert (h + more)[..|h + more| - 1] == h + prefix;
    RunSound(threshold, h + prefix);
    assert (h + prefix) + [a] == h + more;
    WalkGrows(threshold, h, prefix, p);
    RunAppend(threshold, h + prefix, a);
    assert Walk(threshold, h + prefix, p) + Entered(s, a, p) == Walk(threshold, h, p);
    assert |Walk(threshold, h + prefix, p)| + |Entered(s, a, p)| == |Walk(threshold, h, p)|;
    assert Entered(s, a, p) == [] && Walk(threshold, h + prefix, p) == Walk(threshold, h, p);
    StaysAt(s, a, p, Selected(l, revision));
    assert Selecting(s, p, l, revision);
    if CanSwap(s.jobs, l, revision) {
      LosesStep(s, a, l, revision);
      if a.Work? && Enabled(s, a) && ClaimsRow(s, a, l) {
        ClaimIsTaken(s, a, l);
      }
      assert Interferes(s, a, p);
      assert (h + more)[..|h + prefix|] == h + prefix && (h + more)[|h + prefix|] == a;
      assert Passed(threshold, h + more, |h + prefix|, s);
    } else {
      LosesRow(threshold, h, prefix, p, l, revision);
      LostStill(threshold, h, h, h + prefix, h + more, p);
    }
  }

  // ----- the claims of a poll -----

  /** How many rows the worker has moved to RUNNING. */
  function Swaps(steps: seq<Phase>): nat {
    if steps == [] then 0
    else Swaps(steps[..|steps| - 1]) + (if steps[|steps| - 1].Swapped? then 1 else 0)
  }

  lemma {:induction false} SwapsConcat(a: seq<Phase>, b: seq<Phase>)
    ensures Swaps(a + b) == Swaps(a) + Swaps(b)
  {
    if b == [] {
      assert a + b == a;
    } else {
      assert (a + b)[..|a + b| - 1] == a + b[..|b| - 1];
      SwapsConcat(a, b[..|b| - 1]);
    }
  }

  lemma {:induction false} NoSwaps(steps: seq<Phase>)
    requires forall i :: 0 <= i < |steps| ==> !steps[i].Swapped?
    ensures Swaps(steps) == 0
  {
    if steps != [] {
      NoSwaps(steps[..|steps| - 1]);
    }
  }

  lemma SwapIsTaken(s: State, a: Action, p: WorkerId)
    requires Entered(s, a, p) != [] && Entered(s, a, p)[0].Swapped? && !(p in s.workers && s.workers[p].Swapped?)
    ensures TakenRow(s, a).Some?
  {
  }

  lemma SwappedLeaves(s: State, a: Action, p: WorkerId)
    requires p in s.workers && s.workers[p].Swapped? && Entered(s, a, p) != []
    ensures !Entered(s, a, p)[0].Swapped?
  {
  }

  lemma TakenLast(s: State, run: seq<Action>, a: Action)
    ensures Taken(s, run + [a]) == Taken(s, run) + (if TakenRow(Exec(s, run), a).Some? then 1 else 0)
  {
    assert (run + [a])[..|run|] == run;
  }

  lemma SwapsStep(s: State, a: Action, p: WorkerId)
    ensures Swaps(Entered(s, a, p)) <= if TakenRow(s, a).Some? then 1 else 0
  {
    SwapsOfOne(Entered(s, a, p));
    if Entered(s, a, p) != [] && Entered(s, a, p)[0].Swapped? {
      if p in s.workers && s.workers[p].Swapped? {
        SwappedLeaves(s, a, p);
      } else {
        SwapIsTaken(s, a, p);
      }
    }
  }

  /** Every row that the worker has moved to RUNNING is a job claimed. */
  lemma {:induction false} SwapsAreTaken(threshold: real, h: seq<Action>, more: seq<Action>, p: WorkerId)
    ensures Swaps(Walk(threshold, h + more, p)) <= Swaps(Walk(threshold, h, p)) + Taken(Exec(Init(threshold), h), more)
  {
    if more == [] {
      assert h + more == h;
    } else {
      hide Exec, Next, Walk, Taken, Swaps, Entered;
      var prefix, a := more[..|more| - 1], more[|more| - 1];
      var s := Exec(Init(threshold), h + prefix);
      assert h + more == (h + prefix) + [a] && more == prefix + [a];
      SwapsAreTaken(threshold, h, prefix, p);
      ExecConcat(Init(threshold), h, prefix);
      RunAppend(threshold, h + prefix, a);
      TakenLast(Exec(Init(threshold), h), prefix, a);
      SwapsConcat(Walk(threshold, h + prefix, p), Entered(s, a, p));
      SwapsStep(s, a, p);
    }
  }

  lemma SwapsOfOne(steps: seq<Phase>)
    requires |steps| <= 1
    ensures Swaps(steps) == if steps != [] && steps[0].Swapped? then 1 else 0
  {
    if steps != [] {
      assert steps[..0] == [];
    }
  }

  lemma FiveAreComplete(threshold: real, h: seq<Action>, later: seq<Action>, p: WorkerId)
    requires h <= later && Swaps(Walk(threshold, later, p)) >= Swaps(Walk(threshold, h, p)) + POLL_BATCH
    ensures CompletePoll(Exec(Init(threshold), h), later[|h|..])
  {
    hide Exec, Walk, Swaps, Taken;
    assert h + later[|h|..] == later;
    SwapsAreTaken(threshold, h, later[|h|..], p);
  }

  lemma IdleIsComplete(threshold: real, h: seq<Action>, later: seq<Action>, p: WorkerId)
    requires h <= later && IdledWithin(threshold, h, later, p, Exec(Init(threshold), h).clock)
    ensures CompletePoll(Exec(Init(threshold), h), later[|h|..])
  {
    hide Exec, Next, Taken;
    var i, s, at: nat :|
      && |h| <= i < |later| && Passed(threshold, later, i, s) && later[i] == Work(p, SelectNothing(at))
      && WorkEnabled(s, p, SelectNothing(at)) && Exec(Init(threshold), h).clock <= at;
    var poll := later[|h|..];
    assert later[..i] == h + poll[..i - |h|] && poll[i - |h|] == later[i];
    ExecConcat(Init(threshold), h, poll[..i - |h|]);
    assert FindsNothing(Exec(Exec(Init(threshold), h), poll[..i - |h|]), poll[i - |h|], Exec(Init(threshold), h).clock);
  }

  /** The clock never runs back. */
  lemma ClockKept(threshold: real, earlier: seq<Action>, later: seq<Action>)
    requires earlier <= later
    ensures Exec(Init(threshold), earlier).clock <= Exec(Init(threshold), later).clock
  {
    assert earlier + later[|earlier|..] == later;
    ExecConcat(Init(threshold), earlier, later[|earlier|..]);
    RunSound(threshold, earlier);
    RunGrows(Exec(Init(threshold), earlier), later[|earlier|..]);
  }

  // ----- polls one after the other -----

  lemma {:induction false} FlattenAppend(polls: seq<seq<Action>>, poll: seq<Action>)
    ensures Flatten(polls + [poll]) == Flatten(polls) + poll
  {
    if polls == [] {
      assert Flatten([poll]) == poll + Flatten([poll][1..]);
    } else {
      assert (polls + [poll])[1..] == polls[1..] + [poll];
      FlattenAppend(polls[1..], poll);
    }
  }

  lemma {:induction false} CompletePollsAppend(s: State, polls: seq<seq<Action>>, poll: seq<Action>)
    requires CompletePolls(s, polls) && CompletePoll(Exec(s, Flatten(polls)), poll)
    ensures CompletePolls(s, polls + [poll])
    decreases |polls|
  {
    if polls == [] {
      assert Exec(s, Flatten(polls)) == s;
      assert [poll][1..] == [];
    } else {
      assert (polls + [poll])[1..] == polls[1..] + [poll];
      ExecConcat(s, polls[0], Flatten(polls[1..]));
      CompletePollsAppend(Exec(s, polls[0]), polls[1..], poll);
    }
  }
}
