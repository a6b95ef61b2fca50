/** Invariants of every run, and permanent fencing: a superseded token never writes again. */
module Fencing {
  import opened Options
  import opened JobQueue
  import opened Moderation
  import opened Protocol

  // ----- what the tables keep -----

  predicate TablesSound(s: State) {
    s.jobs.Keys <= s.listings.Keys <= s.used
  }

  /** The job tables a statement can produce: rows stay, no revision falls, and a new row
      belongs to an existing listing. */
  ghost predicate JobsGrow(s: State, jobs: Jobs) {
    && (forall l :: l in s.jobs ==> l in jobs && s.jobs[l].revision <= jobs[l].revision)
    && (forall l :: l in jobs ==> l in s.listings)
  }

  ghost predicate WriteSound(s: State, w: Write) {
    match w
    case SetJobs(jobs) => JobsGrow(s, jobs)
    case Insert(l, _) => l !in s.used
    case SetListing(l, _, _) => l in s.listings
    case _ => true
  }

  /** What no action can do: turn the clock back, reuse a listing id, lower a revision, or lose the
      job row of a listing that stays. */
  ghost predicate Grows(s: State, s': State) {
    && s.clock <= s'.clock
    && s.threshold == s'.threshold
    && s.used <= s'.used
    && (forall l :: l in s.used && l in s'.listings ==> l in s.listings)
    && (forall l :: l in s.jobs && l in s'.listings ==> l in s'.jobs && s.jobs[l].revision <= s'.jobs[l].revision)
  }

  lemma ProceedSound(ph: Phase, row: Option<Listing>, threshold: real, error: string)
    requires ph.HasToken()
    ensures
      var w := ProceedMove(ph, row, threshold, error).write;
      || w.Nothing?
      || (w.AppendAudit? && w.l == ph.tok.listing && row.Some?)
      || (w.SetListing? && w.l == ph.tok.listing && row.Some? && !w.admin
          && w.listing == row.value.(approval := Approved))
  {
  }

  lemma WorkSound(s: State, p: WorkerId, w: WorkStep)
    requires TablesSound(s) && WorkEnabled(s, p, w)
    ensures WriteSound(s, WorkMove(s, p, w).write)
  {
    if w.Proceed? {
      ProceedSound(s.workers[p], Row(s, s.workers[p].tok.listing), s.threshold, w.error);
    }
  }

  lemma StepGrows(s: State, a: Action)
    requires TablesSound(s)
    ensures TablesSound(Next(s, a)) && Grows(s, Next(s, a))
  {
    if Enabled(s, a) {
      assert WriteSound(s, WriteOf(s, a)) by {
        if a.Work? {
          WorkSound(s, a.p, a.work);
        }
      }
      PerformGrows(s, WriteOf(s, a));
    }
  }

  lemma PerformGrows(s: State, w: Write)
    requires TablesSound(s) && WriteSound(s, w)
    ensures TablesSound(Perform(s, w)) && Grows(s, Perform(s, w))
  {
  }

  // ----- tokens -----

  predicate Holds(s: State, p: WorkerId, tok: Token) {
    p in s.workers && s.workers[p].HasToken() && s.workers[p].tok == tok
  }

  /** A token never runs ahead of its row, and its row lives as long as its listing. */
  predicate TokenSound(s: State, tok: Token) {
    && tok.listing in s.used
    && (tok.listing in s.listings ==> tok.listing in s.jobs)
    && (tok.listing in s.jobs ==> tok.revision <= s.jobs[tok.listing].revision)
  }

  ghost predicate Sound(s: State) {
    && TablesSound(s)
    && forall p, tok :: Holds(s, p, tok) ==> TokenSound(s, tok)
  }

  /** A worker moves only by its own steps. */
  lemma PhaseKept(s: State, a: Action, p: WorkerId)
    requires !(a.Work? && a.p == p && Enabled(s, a))
    ensures p in Next(s, a).workers <==> p in s.workers
    ensures p in s.workers ==> Next(s, a).workers[p] == s.workers[p]
  {
  }

  /** A token that a step leaves a worker with was held before it, or has just been read. */
  lemma TokenOrigin(s: State, a: Action, p: WorkerId, tok: Token)
    requires Holds(Next(s, a), p, tok) && !Holds(s, p, tok)
    ensures a.Work? && a.p == p && (a.work.Reread? || a.work.SwapAndReread? || a.work.Claim?)
    ensures Enabled(s, a) && Next(s, a).workers[p] == Claimed(tok)
    ensures tok.listing in Next(s, a).jobs && tok == TokenOf(Next(s, a).jobs, tok.listing)
  {
  }

  lemma StepSound(s: State, a: Action)
    requires Sound(s)
    ensures Sound(Next(s, a)) && Grows(s, Next(s, a))
  {
    var s' := Next(s, a);
    StepGrows(s, a);
    forall p, tok | Holds(s', p, tok)
      ensures TokenSound(s', tok)
    {
      if Holds(s, p, tok) {
        assert TokenSound(s, tok);
      } else {
        TokenOrigin(s, a, p, tok);
      }
    }
  }

  /** Every state that a run from the empty database reaches is sound. */
  lemma {:induction false} RunSound(threshold: real, run: seq<Action>)
    ensures Sound(Exec(Init(threshold), run))
  {
    if run != [] {
      RunSound(threshold, run[..|run| - 1]);
      StepSound(Exec(Init(threshold), run[..|run| - 1]), run[|run| - 1]);
    }
  }

  // ----- runs one after the other -----

  lemma {:induction false} ExecConcat(s: State, first: seq<Action>, second: seq<Action>)
    ensures Exec(s, first + second) == Exec(Exec(s, first), second)
  {
    if second == [] {
      assert first + second == first;
    } else {
      var whole := first + second;
      assert whole[..|whole| - 1] == first + second[..|second| - 1];
      ExecConcat(s, first, second[..|second| - 1]);
    }
  }

  lemma ExecLast(s: State, run: seq<Action>, a: Action)
    ensures Exec(s, run + [a]) == Next(Exec(s, run), a)
  {
    assert (run + [a])[..|run|] == run;
  }

  lemma {:induction false} RunGrows(s: State, run: seq<Action>)
    requires TablesSound(s)
    ensures TablesSound(Exec(s, run)) && Grows(s, Exec(s, run))
  {
    if run != [] {
      var mid := Exec(s, run[..|run| - 1]);
      RunGrows(s, run[..|run| - 1]);
      StepGrows(mid, run[|run| - 1]);
    }
  }

  // ----- permanent fencing -----

  /** The step is a write of `enqueue` that creates or resets the row of `l`. */
  ghost predicate EnqueuesRow(s: State, a: Action, l: ListingId) {
    && Enabled(s, a) && a.Serve? && a.client.EnqueueWrite?
    && s.requests[a.c].listing == l && Enqueues(s, s.requests[a.c])
  }

  ghost predicate RecoversRow(s: State, a: Action, l: ListingId) {
    Enabled(s, a) && a.Recover? && l in s.jobs && Stale(s.jobs[l], a.at)
  }

  /** The step raises the revision of the row of `l`. */
  ghost predicate Supersedes(s: State, a: Action, l: ListingId) {
    l in s.jobs && l in Next(s, a).jobs && s.jobs[l].revision < Next(s, a).jobs[l].revision
  }

  lemma ServeRow(s: State, c: ClientId, step: ClientStep, l: ListingId)
    requires ServeEnabled(s, c, step) && l in Next(s, Serve(c, step)).jobs
    ensures
      var row' := Next(s, Serve(c, step)).jobs[l];
      if EnqueuesRow(s, Serve(c, step), l) then
        row' == if l in s.jobs then Requeued(s.jobs[l], step.at) else NewJob(step.at)
      else l in s.jobs && row' == s.jobs[l]
    ensures l !in s.jobs ==> l in s.listings
  {
  }

  /** What a step that is not a worker's does to one row. */
  lemma OtherRow(s: State, a: Action, l: ListingId)
    requires !a.Work? && l in Next(s, a).jobs
    ensures
      var row' := Next(s, a).jobs[l];
      if EnqueuesRow(s, a, l) then
        row' == if l in s.jobs then Requeued(s.jobs[l], a.client.at) else NewJob(a.client.at)
      else if RecoversRow(s, a, l) then row' == Recovered(s.jobs[l], a.at)
      else l in s.jobs && row' == s.jobs[l]
    ensures l !in s.jobs ==> l in s.listings
  {
    if a.Serve? && Enabled(s, a) {
      ServeRow(s, a.c, a.client, l);
    }
  }

  lemma WorkRevisions(s: State, p: WorkerId, w: WorkStep)
    requires WorkEnabled(s, p, w)
    ensures Next(s, Work(p, w)).jobs.Keys == s.jobs.Keys
    ensures forall l :: l in s.jobs ==> Next(s, Work(p, w)).jobs[l].revision == s.jobs[l].revision
  {
    if w.Proceed? {
      ProceedSound(s.workers[p], Row(s, s.workers[p].tok.listing), s.threshold, w.error);
    }
  }

  /** Only a re-enqueue and a recovery supersede: an edit or rerun that found the row, whatever the
      row has become since, and a recovery that finds it RUNNING and stale. */
  lemma SupersededBy(s: State, a: Action, l: ListingId)
    requires l in s.jobs
    ensures Supersedes(s, a, l) <==> EnqueuesRow(s, a, l) || RecoversRow(s, a, l)
  {
    if a.Work? && Enabled(s, a) {
      WorkRevisions(s, a.p, a.work);
    } else if !a.Work? && l in Next(s, a).jobs {
      OtherRow(s, a, l);
    }
  }

  /** The token can no longer be current: its row moved on or went with its listing. */
  predicate Superseded(s: State, tok: Token) {
    && tok.listing in s.used
    && (tok.listing in s.listings ==> tok.listing in s.jobs && tok.revision < s.jobs[tok.listing].revision)
  }

  /** Once a re-enqueue or a recovery has superseded a token, no outcome that its worker reports in
      any later state, however far the run goes on, changes any row. */
  lemma PermanentFencing(threshold: real, before: seq<Action>, a: Action, after: seq<Action>, p: WorkerId, tok: Token,
                         report: Report, at: nat)
    requires Holds(Exec(Init(threshold), before), p, tok)
    requires Supersedes(Exec(Init(threshold), before), a, tok.listing)
    ensures
      var later := Exec(Init(threshold), before + [a] + after);
      Superseded(later, tok) && ReportRow(later.jobs, tok, report, at) == later.jobs
  {
    var s := Exec(Init(threshold), before);
    RunSound(threshold, before);
    StepSound(s, a);
    assert TokenSound(s, tok);
    ExecConcat(Init(threshold), before, [a]);
    assert [a][..0] == [];
    assert Exec(s, [a]) == Next(s, a);
    ExecConcat(Init(threshold), before + [a], after);
    RunGrows(Next(s, a), after);
  }
}
