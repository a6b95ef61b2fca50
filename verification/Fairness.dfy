/** A due job is overtaken only by the jobs that were ahead of it, or selected before it was due. */
module Fairness {
  import opened Options
  import opened JobQueue
  import opened Moderation
  import opened Protocol
  import opened Fencing
  import opened Attempts
  import opened Sets

  const POLL_BATCH: nat := 5

  predicate Waiting(s: State, j: ListingId) {
    j in s.jobs && s.jobs[j].status == Pending
  }

  predicate Selecting(s: State, p: WorkerId, l: ListingId, revision: nat) {
    p in s.workers && s.workers[p] == Selected(l, revision)
  }

  /** Some worker stands between the select and the compare-and-set of this row, as it is. */
  ghost predicate Chosen(s: State, l: ListingId)
    requires l in s.jobs
  {
    exists q :: Selecting(s, q, l, s.jobs[l].revision)
  }

  /** The PENDING rows that `ORDER BY nextRunAt, createdAt` may put before `j`. */
  function Ahead(s: State, j: ListingId): set<ListingId>
    requires j in s.jobs
  {
    set l | l in s.jobs && l != j && s.jobs[l].status == Pending && OrderedBefore(s.jobs[l], s.jobs[j])
  }

  /** The PENDING rows that may still be claimed before `j`: those ahead of it, and those that some
      worker has already selected. */
  ghost function Rivals(s: State, j: ListingId): set<ListingId>
    requires j in s.jobs
  {
    set l | l in s.jobs && l != j && s.jobs[l].status == Pending
            && (OrderedBefore(s.jobs[l], s.jobs[j]) || Chosen(s, l))
  }

  lemma NobodySelecting(s: State, j: ListingId)
    requires j in s.jobs && forall p :: p in s.workers ==> !s.workers[p].Selected?
    ensures Rivals(s, j) == Ahead(s, j)
  {
  }

  /** The row that the step moves from PENDING to RUNNING. */
  ghost function TakenRow(s: State, a: Action): Option<ListingId> {
    if !a.Work? || !Enabled(s, a) then None
    else
      match a.work
      case Claim(l, _) => Some(l)
      case CompareAndSwap(_) => TakenBy(s, s.workers[a.p])
      case SwapAndReread(_) => TakenBy(s, s.workers[a.p])
      case _ => None
  }

  function TakenBy(s: State, ph: Phase): Option<ListingId>
    requires ph.Selected?
  {
    if CanSwap(s.jobs, ph.candidate, ph.revision) then Some(ph.candidate) else None
  }

  /** The jobs claimed in the run, by whichever worker. */
  ghost function Taken(s: State, run: seq<Action>): nat {
    if run == [] then 0
    else
      var prefix := run[..|run| - 1];
      Taken(s, prefix) + (if TakenRow(Exec(s, prefix), run[|run| - 1]).Some? then 1 else 0)
  }

  /** A retry puts the row of `l` back. */
  ghost predicate PutsBack(s: State, a: Action, l: ListingId) {
    && a.Work? && l in s.jobs && l in Next(s, a).jobs
    && s.jobs[l].status == Running && Next(s, a).jobs[l].status == Pending
  }

  /** What the step makes PENDING stands behind `j` in the queue: an enqueue write and a recovery stamp
      their row with a time after `j` fell due, and so does a retry, which besides puts back no row that
      another worker has selected and not yet swapped.  A re-enqueued row may stay where it was. */
  ghost predicate Yields(s: State, a: Action, j: ListingId)
    requires j in s.jobs
  {
    && (forall l | EnqueuesRow(s, a, l) && l in Next(s, a).jobs ::
          l in Rivals(s, j) || !OrderedBefore(Next(s, a).jobs[l], s.jobs[j]))
    && (forall l | RecoversRow(s, a, l) :: !OrderedBefore(Recovered(s.jobs[l], a.at), s.jobs[j]))
    && (forall l | PutsBack(s, a, l) :: !OrderedBefore(Next(s, a).jobs[l], s.jobs[j]) && !Chosen(s, l))
  }

  /** The step yields to `j`, and neither re-enqueues, deletes nor claims it. */
  ghost predicate Passes(s: State, a: Action, j: ListingId) {
    && LeavesAlone(s, a, j)
    && !ClaimsRow(s, a, j)
  }

  ghost predicate LeavesAlone(s: State, a: Action, j: ListingId) {
    && (j in s.jobs ==> Yields(s, a, j))
    && !EnqueuesRow(s, a, j)
    && a != Remove(j)
  }

  ghost predicate PassesBy(s: State, run: seq<Action>, j: ListingId) {
    forall i :: 0 <= i < |run| ==> Passes(Exec(s, run[..i]), run[i], j)
  }

  // ----- selections never run ahead of their rows -----

  ghost predicate ChoicesSound(s: State) {
    && TablesSound(s)
    && forall p, l, revision: nat | Selecting(s, p, l, revision) ::
         && l in s.used
         && (l in s.listings ==> l in s.jobs)
         && (l in s.jobs ==> revision <= s.jobs[l].revision)
  }

  lemma SelectOrigin(s: State, a: Action, p: WorkerId, l: ListingId, revision: nat)
    requires Selecting(Next(s, a), p, l, revision) && !Selecting(s, p, l, revision)
    ensures a.Work? && Enabled(s, a) && a.work.Select? && a.p == p && a.work.l == l
    ensures Next(s, a).jobs == s.jobs && FirstDue(s.jobs, l, a.work.at) && s.jobs[l].revision == revision
  {
  }

  lemma StepChoices(s: State, a: Action)
    requires ChoicesSound(s)
    ensures ChoicesSound(Next(s, a))
  {
    var s' := Next(s, a);
    StepGrows(s, a);
    forall p, l, revision: nat | Selecting(s', p, l, revision)
      ensures l in s'.used && (l in s'.listings ==> l in s'.jobs) && (l in s'.jobs ==> revision <= s'.jobs[l].revision)
    {
      if Selecting(s, p, l, revision) {
        assert l in s.used;
      } else {
        SelectOrigin(s, a, p, l, revision);
      }
    }
  }

  /** Every reachable state may start the count. */
  lemma {:induction false} RunChoices(threshold: real, run: seq<Action>)
    ensures ChoicesSound(Exec(Init(threshold), run))
  {
    if run != [] {
      RunChoices(threshold, run[..|run| - 1]);
      StepChoices(Exec(Init(threshold), run[..|run| - 1]), run[|run| - 1]);
    }
  }

  // ----- one step -----

  /** A row that a worker's step makes or leaves PENDING is as it was, or has been put off. */
  lemma WorkPendingRow(s: State, p: WorkerId, w: WorkStep, l: ListingId)
    requires WorkEnabled(s, p, w)
    requires l in Next(s, Work(p, w)).jobs && Next(s, Work(p, w)).jobs[l].status == Pending
    ensures l in s.jobs
    ensures
      var row' := Next(s, Work(p, w)).jobs[l];
      || row' == s.jobs[l]
      || (w.Report? && s.jobs[l].status == Running && row'.revision == s.jobs[l].revision
          && row'.nextRunAt >= w.at + RETRY_BACKOFF_MS[0])
  {
    if w.Proceed? {
      ProceedSound(s.workers[p], Row(s, s.workers[p].tok.listing), s.threshold, w.error);
    }
  }

  /** A row that is PENDING after the step is as it was, or the step has made it so. */
  lemma FreshRow(s: State, a: Action, l: ListingId)
    requires l in Next(s, a).jobs && Next(s, a).jobs[l].status == Pending
    ensures (l in s.jobs && Next(s, a).jobs[l] == s.jobs[l]) || EnqueuesRow(s, a, l) || RecoversRow(s, a, l) || PutsBack(s, a, l)
    ensures RecoversRow(s, a, l) ==> Next(s, a).jobs[l] == Recovered(s.jobs[l], a.at)
  {
    if a.Work? && Enabled(s, a) {
      WorkPendingRow(s, a.p, a.work, l);
    } else if !a.Work? {
      OtherRow(s, a, l);
    }
  }

  /** No earlier selection reaches a row that has been enqueued or recovered. */
  lemma NobodyChose(s: State, a: Action, l: ListingId)
    requires ChoicesSound(s) && (EnqueuesRow(s, a, l) || RecoversRow(s, a, l)) && l in Next(s, a).jobs
    ensures !Chosen(Next(s, a), l)
  {
    var s' := Next(s, a);
    OtherRow(s, a, l);
    forall q
      ensures !Selecting(s', q, l, s'.jobs[l].revision)
    {
      if Selecting(s', q, l, s'.jobs[l].revision) {
        assert Selecting(s, q, l, s'.jobs[l].revision);
      }
    }
  }

  /** A retry neither adds nor removes a selection of the row that it puts back. */
  lemma ChosenBefore(s: State, a: Action, l: ListingId)
    requires PutsBack(s, a, l)
    ensures Chosen(Next(s, a), l) <==> Chosen(s, l)
  {
    var s' := Next(s, a);
    WorkPendingRow(s, a.p, a.work, l);
    forall q
      ensures Selecting(s', q, l, s'.jobs[l].revision) <==> Selecting(s, q, l, s.jobs[l].revision)
    {
      ReportSelects(s, a, q, l, s.jobs[l].revision);
    }
  }

  lemma ReportSelects(s: State, a: Action, q: WorkerId, l: ListingId, revision: nat)
    requires a.Work? && Enabled(s, a) && a.work.Report?
    ensures Selecting(Next(s, a), q, l, revision) <==> Selecting(s, q, l, revision)
  {
  }

  /** A select takes a row ahead of any waiting job, or the job itself, whatever its timestamp. */
  lemma SelectsAhead(s: State, l: ListingId, at: nat, j: ListingId)
    requires Waiting(s, j) && FirstDue(s.jobs, l, at)
    ensures l == j || l in Ahead(s, j)
  {
    if s.jobs[j].nextRunAt <= at {
      assert Due(s.jobs, j, at);
    }
  }

  lemma NewSelection(s: State, a: Action, q: WorkerId, l: ListingId, revision: nat, j: ListingId)
    requires Selecting(Next(s, a), q, l, revision) && !Selecting(s, q, l, revision)
    requires Waiting(s, j)
    ensures Next(s, a).jobs == s.jobs && (l == j || l in Ahead(s, j))
  {
    SelectOrigin(s, a, q, l, revision);
    SelectsAhead(s, l, a.work.at, j);
  }

  lemma TakesRival(s: State, a: Action, j: ListingId)
    requires Waiting(s, j) && Passes(s, a, j) && TakenRow(s, a).Some?
    ensures
      var l := TakenRow(s, a).value;
      && l in Rivals(s, j) && l in Next(s, a).jobs && Next(s, a).jobs[l].status == Running
  {
    var l := TakenRow(s, a).value;
    TakenRuns(s, a);
    if a.work.Claim? {
      SelectsAhead(s, l, a.work.at, j);
    } else {
      assert Selecting(s, a.p, l, s.jobs[l].revision);
      assert Chosen(s, l);
    }
  }

  lemma TakenRuns(s: State, a: Action)
    requires TakenRow(s, a).Some?
    ensures
      var l := TakenRow(s, a).value;
      && l in s.jobs && s.jobs[l].status == Pending
      && l in Next(s, a).jobs && Next(s, a).jobs[l].status == Running && ClaimsRow(s, a, l)
  {
  }

  /** A rival after the step was one before it, or the step has put a row before `j`. */
  lemma RivalBefore(s: State, a: Action, j: ListingId, l: ListingId)
    requires ChoicesSound(s) && Waiting(s, j) && j in Next(s, a).jobs && Next(s, a).jobs[j] == s.jobs[j]
    requires l in Rivals(Next(s, a), j) && Yields(s, a, j)
    ensures l in Rivals(s, j)
  {
    var s' := Next(s, a);
    FreshRow(s, a, l);
    if EnqueuesRow(s, a, l) || RecoversRow(s, a, l) {
      NobodyChose(s, a, l);
    } else if PutsBack(s, a, l) {
      ChosenBefore(s, a, l);
    } else if !OrderedBefore(s'.jobs[l], s'.jobs[j]) {
      var q :| Selecting(s', q, l, s'.jobs[l].revision);
      if !Selecting(s, q, l, s'.jobs[l].revision) {
        NewSelection(s, a, q, l, s'.jobs[l].revision, j);
      }
    }
  }

  lemma StepPasses(s: State, a: Action, j: ListingId)
    requires ChoicesSound(s) && Waiting(s, j) && Passes(s, a, j)
    ensures Waiting(Next(s, a), j) && Next(s, a).jobs[j] == s.jobs[j]
    ensures Rivals(Next(s, a), j) <= Rivals(s, j)
    ensures TakenRow(s, a).Some? ==>
              TakenRow(s, a).value in Rivals(s, j) && TakenRow(s, a).value !in Rivals(Next(s, a), j)
  {
    var s' := Next(s, a);
    StaysOrRemoved(s, a, j);
    StaysWaiting(s, a, j);
    forall l | l in Rivals(s', j)
      ensures l in Rivals(s, j)
    {
      RivalBefore(s, a, j, l);
    }
    if TakenRow(s, a).Some? {
      TakesRival(s, a, j);
    }
  }

  /** Yielding is exactly what keeps a step from adding a rival. */
  lemma TurnsExactly(s: State, a: Action, j: ListingId)
    requires ChoicesSound(s) && Waiting(s, j)
    requires !EnqueuesRow(s, a, j) && a != Remove(j) && !ClaimsRow(s, a, j)
    ensures j in Next(s, a).jobs
    ensures Yields(s, a, j) <==> Rivals(Next(s, a), j) <= Rivals(s, j)
  {
    var s' := Next(s, a);
    StaysOrRemoved(s, a, j);
    if Yields(s, a, j) {
      StepPasses(s, a, j);
    } else {
      StaysWaiting(s, a, j);
      NewRival(s, a, j);
    }
  }

  lemma NewRival(s: State, a: Action, j: ListingId)
    requires Waiting(s, j) && j in Next(s, a).jobs && Next(s, a).jobs[j] == s.jobs[j]
    requires !EnqueuesRow(s, a, j) && !Yields(s, a, j)
    ensures !(Rivals(Next(s, a), j) <= Rivals(s, j))
  {
    hide Next;
    var s' := Next(s, a);
    if l :| EnqueuesRow(s, a, l) && l in s'.jobs && l !in Rivals(s, j) && OrderedBefore(s'.jobs[l], s.jobs[j]) {
      OtherRow(s, a, l);
      assert l in Rivals(s', j);
    } else if l :| RecoversRow(s, a, l) && OrderedBefore(Recovered(s.jobs[l], a.at), s.jobs[j]) {
      RecoveredRow(s, a, l);
      assert l in Rivals(s', j) && l !in Rivals(s, j);
    } else {
      var l :| PutsBack(s, a, l) && (OrderedBefore(s'.jobs[l], s.jobs[j]) || Chosen(s, l));
      ChosenBefore(s, a, l);
      assert l in Rivals(s', j) && l !in Rivals(s, j);
    }
  }

  lemma RecoveredRow(s: State, a: Action, l: ListingId)
    requires RecoversRow(s, a, l)
    ensures l in Next(s, a).jobs && Next(s, a).jobs[l] == Recovered(s.jobs[l], a.at)
  {
  }

  /** A step whose timestamp lies after the time at which `j` fell due yields to it, unless it is a retry
      of a row that somebody has selected. */
  lemma LateStepsYield(s: State, a: Action, j: ListingId)
    requires j in s.jobs && forall l :: PutsBack(s, a, l) ==> !Chosen(s, l)
    requires
      match a
      case Recover(at) => at > s.jobs[j].nextRunAt
      case Work(_, Report(at)) => at + RETRY_BACKOFF_MS[0] > s.jobs[j].nextRunAt
      case Serve(_, EnqueueWrite(at)) => at > s.jobs[j].nextRunAt
      case _ => true
    ensures Yields(s, a, j)
  {
    forall l | EnqueuesRow(s, a, l) && l in Next(s, a).jobs
      ensures !OrderedBefore(Next(s, a).jobs[l], s.jobs[j])
    {
      OtherRow(s, a, l);
    }
    forall l | PutsBack(s, a, l)
      ensures !OrderedBefore(Next(s, a).jobs[l], s.jobs[j])
    {
      WorkPendingRow(s, a.p, a.work, l);
    }
  }

  lemma StaysWaiting(s: State, a: Action, j: ListingId)
    requires TablesSound(s) && Waiting(s, j) && j in Next(s, a).jobs
    requires !EnqueuesRow(s, a, j) && !ClaimsRow(s, a, j)
    ensures Next(s, a).jobs[j] == s.jobs[j]
  {
    if a.Work? && Enabled(s, a) {
      WorkPasses(s, a.p, a.work, j);
    } else if !a.Work? {
      OtherRow(s, a, j);
    }
  }

  lemma WorkPasses(s: State, p: WorkerId, w: WorkStep, j: ListingId)
    requires Waiting(s, j) && WorkEnabled(s, p, w) && !ClaimsRow(s, Work(p, w), j)
    requires j in Next(s, Work(p, w)).jobs
    ensures Next(s, Work(p, w)).jobs[j] == s.jobs[j]
  {
    if w.Proceed? {
      ProceedSound(s.workers[p], Row(s, s.workers[p].tok.listing), s.threshold, w.error);
    }
  }

  // ----- runs -----

  /** Bounded overtaking: as long as a waiting job is neither claimed, re-enqueued nor deleted, every
      claim takes one of the rows that were ahead of it or already selected at the start, each at
      most once.  Claims may be split into their statements, and timestamps may be late. */
  lemma {:induction false} BoundedOvertaking(s: State, run: seq<Action>, j: ListingId)
    requires ChoicesSound(s) && Waiting(s, j) && PassesBy(s, run, j)
    ensures Waiting(Exec(s, run), j) && Exec(s, run).jobs[j] == s.jobs[j] && ChoicesSound(Exec(s, run))
    ensures Taken(s, run) + |Rivals(Exec(s, run), j)| <= |Rivals(s, j)|
  {
    if run != [] {
      var prefix, a := run[..|run| - 1], run[|run| - 1];
      var mid := Exec(s, prefix);
      forall i | 0 <= i < |prefix|
        ensures prefix[..i] == run[..i]
      {
      }
      BoundedOvertaking(s, prefix, j);
      StepPasses(mid, a, j);
      StepChoices(mid, a);
      if TakenRow(mid, a).Some? {
        SubsetSize(Rivals(Next(mid, a), j), Rivals(mid, j) - {TakenRow(mid, a).value});
      } else {
        SubsetSize(Rivals(Next(mid, a), j), Rivals(mid, j));
      }
    }
  }

  // ----- polls -----

  /** What a call of `poll` that runs its course does, among whatever else happens: five jobs are claimed,
      or a claim finds nothing due, at a time no earlier than its start. */
  ghost predicate CompletePoll(s: State, poll: seq<Action>) {
    || Taken(s, poll) >= POLL_BATCH
    || exists i :: 0 <= i < |poll| && FindsNothing(Exec(s, poll[..i]), poll[i], s.clock)
  }

  ghost predicate FindsNothing(s: State, a: Action, since: nat) {
    a.Work? && a.work.SelectNothing? && Enabled(s, a) && since <= a.work.at
  }

  function Flatten(polls: seq<seq<Action>>): seq<Action> {
    if polls == [] then [] else polls[0] + Flatten(polls[1..])
  }

  ghost predicate CompletePolls(s: State, polls: seq<seq<Action>>)
    decreases |polls|
  {
    polls != [] ==> CompletePoll(s, polls[0]) && CompletePolls(Exec(s, polls[0]), polls[1..])
  }

  lemma PassesBySplit(s: State, first: seq<Action>, second: seq<Action>, j: ListingId)
    requires PassesBy(s, first + second, j)
    ensures PassesBy(s, first, j) && PassesBy(Exec(s, first), second, j)
  {
    var run := first + second;
    forall i | 0 <= i < |first|
      ensures Passes(Exec(s, first[..i]), first[i], j)
    {
      assert first[..i] == run[..i] && run[i] == first[i];
    }
    forall i | 0 <= i < |second|
      ensures Passes(Exec(Exec(s, first), second[..i]), second[i], j)
    {
      assert run[..|first| + i] == first + second[..i] && run[|first| + i] == second[i];
      ExecConcat(s, first, second[..i]);
    }
  }

  lemma SomethingDue(s: State, a: Action, j: ListingId, since: nat)
    requires Waiting(s, j) && s.jobs[j].nextRunAt <= since
    ensures !FindsNothing(s, a, since)
  {
    if a.Work? && a.work.SelectNothing? && since <= a.work.at {
      assert Due(s.jobs, j, a.work.at);
    }
  }

  predicate DueNow(s: State, j: ListingId) {
    Waiting(s, j) && s.jobs[j].nextRunAt <= s.clock
  }

  lemma PollTakesFive(s: State, poll: seq<Action>, j: ListingId)
    requires ChoicesSound(s) && DueNow(s, j) && PassesBy(s, poll, j) && CompletePoll(s, poll)
    ensures Taken(s, poll) >= POLL_BATCH
  {
    forall i | 0 <= i < |poll|
      ensures !FindsNothing(Exec(s, poll[..i]), poll[i], s.clock)
    {
      assert poll == poll[..i] + poll[i..];
      PassesBySplit(s, poll[..i], poll[i..], j);
      BoundedOvertaking(s, poll[..i], j);
      SomethingDue(Exec(s, poll[..i]), poll[i], j, s.clock);
    }
  }

  lemma {:induction false} PollsPassBy(s: State, polls: seq<seq<Action>>, j: ListingId)
    requires ChoicesSound(s) && DueNow(s, j) && PassesBy(s, Flatten(polls), j) && CompletePolls(s, polls)
    ensures POLL_BATCH * |polls| <= |Rivals(s, j)|
    decreases |polls|
  {
    if polls != [] {
      var poll, rest := polls[0], polls[1..];
      PassesBySplit(s, poll, Flatten(rest), j);
      PollTakesFive(s, poll, j);
      BoundedOvertaking(s, poll, j);
      RunGrows(s, poll);
      PollsPassBy(Exec(s, poll), rest, j);
    }
  }

  /** What happens before a poll does not take from it. */
  lemma {:induction false} TakenConcat(s: State, first: seq<Action>, second: seq<Action>)
    ensures Taken(s, first + second) == Taken(s, first) + Taken(Exec(s, first), second)
  {
    if second == [] {
      assert first + second == first;
    } else {
      var prefix := second[..|second| - 1];
      assert (first + second)[..|first + second| - 1] == first + prefix;
      TakenConcat(s, first, prefix);
      ExecConcat(s, first, prefix);
    }
  }

  lemma CompleteLater(s: State, first: seq<Action>, poll: seq<Action>)
    requires TablesSound(s) && CompletePoll(Exec(s, first), poll)
    ensures CompletePoll(s, first + poll)
  {
    TakenConcat(s, first, poll);
    RunGrows(s, first);
    if Taken(Exec(s, first), poll) < POLL_BATCH {
      var i :| 0 <= i < |poll| && FindsNothing(Exec(Exec(s, first), poll[..i]), poll[i], Exec(s, first).clock);
      assert (first + poll)[..|first| + i] == first + poll[..i] && (first + poll)[|first| + i] == poll[i];
      ExecConcat(s, first, poll[..i]);
      assert FindsNothing(Exec(s, (first + poll)[..|first| + i]), (first + poll)[|first| + i], s.clock);
    }
  }

  lemma PollsNeeded(rivals: nat)
    ensures POLL_BATCH * ((rivals + POLL_BATCH) / POLL_BATCH) > rivals
  {
  }

  ghost predicate ClaimedIn(s: State, run: seq<Action>, j: ListingId) {
    exists i :: 0 <= i < |run| && ClaimsRow(Exec(s, run[..i]), run[i], j)
  }

  /** Until `j` is claimed, every step of the run leaves it alone. */
  ghost predicate LeftAlone(s: State, run: seq<Action>, j: ListingId) {
    forall i :: 0 <= i < |run| && !ClaimedIn(s, run[..i], j) ==> LeavesAlone(Exec(s, run[..i]), run[i], j)
  }

  lemma ClaimedOrPassed(s: State, run: seq<Action>, j: ListingId)
    requires LeftAlone(s, run, j)
    ensures ClaimedIn(s, run, j) || PassesBy(s, run, j)
  {
    if !ClaimedIn(s, run, j) {
      forall i | 0 <= i < |run|
        ensures Passes(Exec(s, run[..i]), run[i], j)
      {
        forall k | 0 <= k < i
          ensures !ClaimsRow(Exec(s, run[..i][..k]), run[..i][k], j)
        {
          assert run[..i][..k] == run[..k] && run[..i][k] == run[k];
        }
        assert !ClaimedIn(s, run[..i], j);
      }
    }
  }

  /** With `a` rivals, a due job that is not re-enqueued or deleted is claimed within
      ceil((a + 1) / 5) complete polls. */
  lemma ClaimedWithinPolls(s: State, polls: seq<seq<Action>>, j: ListingId)
    requires ChoicesSound(s) && DueNow(s, j) && CompletePolls(s, polls)
    requires |polls| == (|Rivals(s, j)| + 5) / 5
    requires LeftAlone(s, Flatten(polls), j)
    ensures ClaimedIn(s, Flatten(polls), j)
  {
    PollsNeeded(|Rivals(s, j)|);
    ClaimedOrPassed(s, Flatten(polls), j);
    if PassesBy(s, Flatten(polls), j) {
      PollsPassBy(s, polls, j);
    }
  }
}
