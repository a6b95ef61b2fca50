/** At most one worker holds a token that the queue still accepts, in every run in which no enqueue
    and no recovery hits a row between the compare-and-set and the re-read of its claim; and exactly
    in those. */
module TokenExclusion {
  import opened Options
  import opened JobQueue
  import opened Moderation
  import opened Protocol
  import opened Fencing

  /** The token carries the revision of its row, whatever the status of the row. */
  predicate AtRevision(jobs: Jobs, tok: Token) {
    tok.listing in jobs && jobs[tok.listing].revision == tok.revision
  }

  predicate Swapping(s: State, p: WorkerId, l: ListingId) {
    p in s.workers && s.workers[p] == Swapped(l)
  }

  /** No enqueue write and no recovery hits the row of `l` while a worker stands between the
      compare-and-set and the re-read of a claim of it. */
  ghost predicate Whole(s: State, a: Action, l: ListingId) {
    EnqueuesRow(s, a, l) || RecoversRow(s, a, l) ==> forall p :: !Swapping(s, p, l)
  }

  ghost predicate WholeRun(threshold: real, run: seq<Action>, l: ListingId) {
    forall i :: 0 <= i < |run| ==> Whole(Exec(Init(threshold), run[..i]), run[i], l)
  }

  lemma WholePrefix(threshold: real, run: seq<Action>, more: seq<Action>, l: ListingId)
    requires WholeRun(threshold, run + more, l)
    ensures WholeRun(threshold, run, l)
    ensures more != [] ==> Whole(Exec(Init(threshold), run), more[0], l)
  {
    forall i | 0 <= i < |run|
      ensures Whole(Exec(Init(threshold), run[..i]), run[i], l)
    {
      assert (run + more)[..i] == run[..i] && (run + more)[i] == run[i];
    }
    if more != [] {
      assert (run + more)[..|run|] == run && (run + more)[|run|] == more[0];
    }
  }

  // ----- what whole runs keep -----

  /** Every up-to-date token belongs to a RUNNING row, counts its attempts, and is the only one. */
  ghost predicate TokensExclusive(s: State, l: ListingId) {
    && (forall p, tok | Holds(s, p, tok) && tok.listing == l && AtRevision(s.jobs, tok) ::
          s.jobs[l].status == Running && s.jobs[l].attempts == tok.attempts)
    && (forall p, q, tok, other | Holds(s, p, tok) && Holds(s, q, other) && tok.listing == l && other.listing == l
          :: AtRevision(s.jobs, tok) && AtRevision(s.jobs, other) ==> p == q)
  }

  /** The run of `l` belongs to the worker: it has claimed the row and is about to read it, or its
      token is up to date. */
  predicate Owns(s: State, p: WorkerId, l: ListingId) {
    && p in s.workers
    && (|| s.workers[p] == Swapped(l)
        || (s.workers[p].HasToken() && s.workers[p].tok.listing == l && AtRevision(s.jobs, s.workers[p].tok)))
  }

  ghost predicate Exclusive(s: State, l: ListingId) {
    && (forall p | Owns(s, p, l) && l in s.jobs :: s.jobs[l].status == Running && s.jobs[l].attempts >= 1)
    && (forall p, q | Owns(s, p, l) && Owns(s, q, l) :: p == q)
    && (forall p, tok | Holds(s, p, tok) && tok.listing == l && AtRevision(s.jobs, tok)
          :: s.jobs[l].attempts == tok.attempts)
    && (forall p | Swapping(s, p, l) :: l in s.used && (l in s.listings ==> l in s.jobs))
  }

  lemma ExclusiveTokens(s: State, l: ListingId)
    requires Exclusive(s, l)
    ensures TokensExclusive(s, l)
  {
    forall p, tok | Holds(s, p, tok) && tok.listing == l && AtRevision(s.jobs, tok)
      ensures Owns(s, p, l)
    {
    }
  }

  /** A worker owns a row after its own step only if it owned the same row before, or has just moved
      the row from PENDING to RUNNING. */
  lemma OwnStep(s: State, p: WorkerId, w: WorkStep, l: ListingId)
    requires Exclusive(s, l) && WorkEnabled(s, p, w) && Owns(Next(s, Work(p, w)), p, l)
    ensures
      var s' := Next(s, Work(p, w));
      || (Owns(s, p, l) && s'.jobs == s.jobs)
      || (l in s.jobs && s.jobs[l].status == Pending && l in s'.jobs && s'.jobs[l] == Started(s.jobs[l], w.at))
  {
    if w.Proceed? {
      ProceedSound(s.workers[p], Row(s, s.workers[p].tok.listing), s.threshold, w.error);
    }
  }

  /** A step of one worker leaves the rows that others own alone. */
  lemma OthersOwn(s: State, p: WorkerId, w: WorkStep, q: WorkerId, l: ListingId)
    requires Exclusive(s, l) && WorkEnabled(s, p, w) && q != p && Owns(Next(s, Work(p, w)), q, l)
    ensures Owns(s, q, l) && (l in s.jobs ==> l in Next(s, Work(p, w)).jobs && Next(s, Work(p, w)).jobs[l] == s.jobs[l])
    ensures l in Next(s, Work(p, w)).jobs ==> l in s.jobs
  {
    WorkRevisions(s, p, w);
    assert Owns(s, q, l);
    if w.Proceed? {
      ProceedSound(s.workers[p], Row(s, s.workers[p].tok.listing), s.threshold, w.error);
    }
    if w.Report? && s.workers[p].tok.listing == l && AtRevision(s.jobs, s.workers[p].tok) {
      assert Owns(s, p, l);
    }
  }

  /** The token that a worker's step leaves it with counts the attempts of its row. */
  lemma OwnAttempts(s: State, p: WorkerId, w: WorkStep, tok: Token)
    requires Exclusive(s, tok.listing) && WorkEnabled(s, p, w)
    requires Holds(Next(s, Work(p, w)), p, tok) && AtRevision(Next(s, Work(p, w)).jobs, tok)
    ensures Next(s, Work(p, w)).jobs[tok.listing].attempts == tok.attempts
  {
    if Holds(s, p, tok) {
      OwnStep(s, p, w, tok.listing);
    } else {
      TokenOrigin(s, Work(p, w), p, tok);
    }
  }

  lemma SwappedKept(s: State, p: WorkerId, w: WorkStep, q: WorkerId, l: ListingId)
    requires Sound(s) && WorkEnabled(s, p, w) && Swapping(Next(s, Work(p, w)), q, l)
    ensures Swapping(s, q, l) || (q == p && l in s.jobs)
  {
  }

  lemma WorkExclusive(s: State, p: WorkerId, w: WorkStep, l: ListingId)
    requires Sound(s) && Exclusive(s, l) && WorkEnabled(s, p, w)
    ensures Exclusive(Next(s, Work(p, w)), l)
  {
    var s' := Next(s, Work(p, w));
    WorkRevisions(s, p, w);
    StepGrows(s, Work(p, w));
    forall q | Owns(s', q, l)
      ensures l in s'.jobs ==> s'.jobs[l].status == Running && s'.jobs[l].attempts >= 1
      ensures q == p || Owns(s, q, l)
      ensures q == p ==> Owns(s, q, l) || (l in s.jobs && s.jobs[l].status == Pending)
    {
      if q == p {
        OwnStep(s, p, w, l);
      } else {
        OthersOwn(s, p, w, q, l);
      }
    }
    forall q, tok | Holds(s', q, tok) && tok.listing == l && AtRevision(s'.jobs, tok)
      ensures s'.jobs[l].attempts == tok.attempts
    {
      if q == p {
        OwnAttempts(s, p, w, tok);
      } else {
        assert Holds(s, q, tok) && Owns(s', q, l);
        OthersOwn(s, p, w, q, l);
      }
    }
    forall q | Swapping(s', q, l)
      ensures l in s'.used && (l in s'.listings ==> l in s'.jobs)
    {
      SwappedKept(s, p, w, q, l);
    }
  }

  /** Steps of the queue itself and of requests: in whole runs a row that they change gets a revision
      that no token has, and a row that they create belongs to a listing nobody has claimed. */
  lemma OtherExclusive(s: State, a: Action, l: ListingId)
    requires Sound(s) && Exclusive(s, l) && !a.Work? && Whole(s, a, l)
    ensures Exclusive(Next(s, a), l)
  {
    var s' := Next(s, a);
    assert s'.workers == s.workers;
    StepGrows(s, a);
    forall p | Owns(s', p, l)
      ensures Owns(s, p, l) && (l in s'.jobs ==> l in s.jobs && s'.jobs[l] == s.jobs[l])
    {
      if s.workers[p].HasToken() {
        assert Holds(s, p, s.workers[p].tok) && TokenSound(s, s.workers[p].tok);
      } else {
        assert Swapping(s, p, l);
      }
      if l in s'.jobs {
        OtherRow(s, a, l);
      }
    }
    forall p, tok | Holds(s', p, tok) && tok.listing == l && AtRevision(s'.jobs, tok)
      ensures s'.jobs[l].attempts == tok.attempts
    {
      assert Owns(s', p, l) && Holds(s, p, tok);
    }
    forall p | Swapping(s', p, l)
      ensures l in s'.used && (l in s'.listings ==> l in s'.jobs)
    {
      assert Swapping(s, p, l);
    }
  }

  lemma StepExclusive(s: State, a: Action, l: ListingId)
    requires Sound(s) && Exclusive(s, l) && Whole(s, a, l)
    ensures Exclusive(Next(s, a), l)
  {
    if !Enabled(s, a) {
    } else if a.Work? {
      WorkExclusive(s, a.p, a.work, l);
    } else {
      OtherExclusive(s, a, l);
    }
  }

  lemma {:induction false} RunExclusive(threshold: real, run: seq<Action>, l: ListingId)
    requires WholeRun(threshold, run, l)
    ensures Exclusive(Exec(Init(threshold), run), l) && Sound(Exec(Init(threshold), run))
  {
    RunSound(threshold, run);
    if run != [] {
      var prefix := run[..|run| - 1];
      assert prefix + [run[|run| - 1]] == run;
      WholePrefix(threshold, prefix, [run[|run| - 1]], l);
      RunSound(threshold, prefix);
      RunExclusive(threshold, prefix, l);
      StepExclusive(Exec(Init(threshold), prefix), run[|run| - 1], l);
    }
  }

  /** Token exclusion: a RUNNING row has at most one outstanding token that carries its revision,
      and a row in any other status has none; the token counts the attempts of the row. */
  lemma OneTokenPerRunningJob(threshold: real, run: seq<Action>, p: WorkerId, q: WorkerId, tok: Token, other: Token)
    requires WholeRun(threshold, run, tok.listing)
    requires Holds(Exec(Init(threshold), run), p, tok) && Holds(Exec(Init(threshold), run), q, other)
    requires tok.listing == other.listing
    ensures
      var jobs := Exec(Init(threshold), run).jobs;
      && (AtRevision(jobs, tok) ==> jobs[tok.listing].status == Running && jobs[tok.listing].attempts == tok.attempts)
      && (AtRevision(jobs, tok) && AtRevision(jobs, other) ==> p == q)
  {
    RunExclusive(threshold, run, tok.listing);
    ExclusiveTokens(Exec(Init(threshold), run), tok.listing);
  }

  // ----- exactly then -----

  /** The re-read hands out a token for the row as it has become. */
  lemma RereadAfterIntrusion(s: State, a: Action, p: WorkerId, l: ListingId)
    requires Sound(s) && Exclusive(s, l) && Swapping(s, p, l) && (EnqueuesRow(s, a, l) || RecoversRow(s, a, l))
    ensures
      var s' := Next(Next(s, a), Work(p, Reread));
      && l in s'.jobs && Holds(s', p, TokenOf(s'.jobs, l)) && s'.jobs[l].status == Pending
  {
    var mid := Next(s, a);
    assert l in s.jobs && mid.workers == s.workers && l in mid.jobs;
    OtherRow(s, a, l);
    assert mid.jobs[l].status == Pending;
    assert WorkEnabled(mid, p, Reread);
  }

  /** The condition is exact: after any whole run, a step leaves the tokens exclusive, whichever
      claim is read back next, if and only if it is whole itself. */
  lemma WholeExactly(threshold: real, run: seq<Action>, a: Action, l: ListingId)
    requires WholeRun(threshold, run, l)
    ensures
      var s := Exec(Init(threshold), run);
      Whole(s, a, l) <==>
      TokensExclusive(Next(s, a), l) && forall p: WorkerId :: TokensExclusive(Next(Next(s, a), Work(p, Reread)), l)
  {
    var s := Exec(Init(threshold), run);
    RunExclusive(threshold, run, l);
    StepSound(s, a);
    if Whole(s, a, l) {
      StepExclusive(s, a, l);
      ExclusiveTokens(Next(s, a), l);
      forall p: WorkerId
        ensures TokensExclusive(Next(Next(s, a), Work(p, Reread)), l)
      {
        StepExclusive(Next(s, a), Work(p, Reread), l);
        ExclusiveTokens(Next(Next(s, a), Work(p, Reread)), l);
      }
    } else {
      var p :| Swapping(s, p, l);
      RereadAfterIntrusion(s, a, p, l);
      var s' := Next(Next(s, a), Work(p, Reread));
      assert Holds(s', p, TokenOf(s'.jobs, l)) && AtRevision(s'.jobs, TokenOf(s'.jobs, l));
      assert !TokensExclusive(s', l);
    }
  }

  // ----- claims in one step -----

  /** Three statements with nothing in between are the claim in one step. */
  lemma ClaimIsThreeStatements(s: State, p: WorkerId, l: ListingId, at: nat)
    requires WorkEnabled(s, p, Select(l, at))
    ensures Exec(s, [Work(p, Select(l, at)), Work(p, CompareAndSwap(at)), Work(p, Reread)])
         == Exec(s, [Work(p, Select(l, at)), Work(p, SwapAndReread(at))])
         == Exec(s, [Work(p, Claim(l, at))])
  {
    var selected := Next(s, Work(p, Select(l, at)));
    var joined := Next(selected, Work(p, SwapAndReread(at)));
    AdjacentIsJoined(selected, p, at);
    ClaimIsJoined(s, p, l, at);
    ExecTwo(s, Work(p, Select(l, at)), Work(p, SwapAndReread(at)));
    ExecTwo(s, Work(p, Select(l, at)), Work(p, CompareAndSwap(at)));
    var three := [Work(p, Select(l, at)), Work(p, CompareAndSwap(at)), Work(p, Reread)];
    assert three[..2] == [Work(p, Select(l, at)), Work(p, CompareAndSwap(at))];
    assert [Work(p, Claim(l, at))][..0] == [];
    assert Exec(s, [Work(p, Claim(l, at))]) == Next(s, Work(p, Claim(l, at)));
  }

  lemma ExecTwo(s: State, a: Action, b: Action)
    ensures Exec(s, [a, b]) == Next(Next(s, a), b)
  {
    assert [a, b][..1] == [a] && [a][..0] == [];
    assert Exec(s, [a]) == Next(s, a);
  }

  lemma AdjacentIsJoined(s: State, p: WorkerId, at: nat)
    requires WorkEnabled(s, p, CompareAndSwap(at)) && CanSwap(s.jobs, s.workers[p].candidate, s.workers[p].revision)
    ensures Next(Next(s, Work(p, CompareAndSwap(at))), Work(p, Reread)) == Next(s, Work(p, SwapAndReread(at)))
  {
    var l := s.workers[p].candidate;
    var jobs := Swap(s.jobs, l, s.workers[p].revision, at);
    assert s.workers[p := Swapped(l)][p := Claimed(TokenOf(jobs, l))] == s.workers[p := Claimed(TokenOf(jobs, l))];
  }

  lemma ClaimIsJoined(s: State, p: WorkerId, l: ListingId, at: nat)
    requires WorkEnabled(s, p, Select(l, at))
    ensures Next(Next(s, Work(p, Select(l, at))), Work(p, SwapAndReread(at))) == Next(s, Work(p, Claim(l, at)))
    ensures CanSwap(Next(s, Work(p, Select(l, at))).jobs, l, s.jobs[l].revision)
    ensures WorkEnabled(Next(s, Work(p, Select(l, at))), p, CompareAndSwap(at))
    ensures Next(s, Work(p, Select(l, at))).workers[p] == Selected(l, s.jobs[l].revision)
  {
    var jobs := Swap(s.jobs, l, s.jobs[l].revision, at);
    assert s.workers[p := Selected(l, s.jobs[l].revision)][p := Claimed(TokenOf(jobs, l))]
        == s.workers[p := Claimed(TokenOf(jobs, l))];
  }

  /** The compare-and-set and the re-read are one step. */
  predicate Joined(a: Action) {
    a.Work? ==> !a.work.CompareAndSwap?
  }

  predicate JoinedRun(run: seq<Action>) {
    forall i :: 0 <= i < |run| ==> Joined(run[i])
  }

  lemma {:induction false} NobodySwapping(threshold: real, run: seq<Action>, p: WorkerId)
    requires JoinedRun(run)
    ensures p in Exec(Init(threshold), run).workers ==> !Exec(Init(threshold), run).workers[p].Swapped?
  {
    if run != [] {
      NobodySwapping(threshold, run[..|run| - 1], p);
    }
  }

  lemma JoinedIsWhole(threshold: real, run: seq<Action>, l: ListingId)
    requires JoinedRun(run)
    ensures WholeRun(threshold, run, l)
  {
    forall i | 0 <= i < |run|
      ensures Whole(Exec(Init(threshold), run[..i]), run[i], l)
    {
      forall p
        ensures !Swapping(Exec(Init(threshold), run[..i]), p, l)
      {
        NobodySwapping(threshold, run[..i], p);
      }
    }
  }
}
