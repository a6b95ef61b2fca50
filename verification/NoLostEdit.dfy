/** A COMPLETED job vouches for the present content of its listing, however workers, edits, reruns,
    recoveries, administrators and deletions interleave, and with every claim split into its
    three statements, as long as the edits of the listing spare it; and exactly so long. */
module NoLostEdit {
  import opened Options
  import opened JobQueue
  import opened Moderation
  import opened Protocol
  import opened Fencing
  import opened TokenExclusion

  ghost predicate HasSuccess(s: State, l: ListingId, input: Input) {
    exists row :: row in Log(s, l) && row.SuccessRow? && row.input == input
  }

  /** The phase stands on the way to `complete` with this snapshot. */
  predicate Carries(ph: Phase, snap: Input) {
    if ph.Reporting? then ph.report == ReportComplete(snap)
    else (ph.Evaluating? || ph.Judged? || ph.Recorded? || ph.Approving? || ph.Notifying?) && ph.snap == snap
  }

  predicate AfterAudit(ph: Phase) {
    !ph.Evaluating? && !ph.Judged?
  }

  predicate Carrying(s: State, p: WorkerId, tok: Token, snap: Input) {
    Holds(s, p, tok) && Carries(s.workers[p], snap)
  }

  /** The queue may still come to accept the token. */
  predicate Live(s: State, tok: Token) {
    && tok.listing in s.jobs
    && s.jobs[tok.listing].revision == tok.revision
    && (s.jobs[tok.listing].status == Pending || s.jobs[tok.listing].status == Running)
  }

  // ----- what is owed to moderation -----

  /** The step writes content of `l`. */
  ghost predicate WritesContent(s: State, a: Action, l: ListingId) {
    a.Serve? && a.client.WriteEdit? && Enabled(s, a) && s.requests[a.c].listing == l && l in s.listings
  }

  /** The step sends `l` back to moderation: a write that its request means to enqueue. */
  ghost predicate SendsBack(s: State, a: Action, l: ListingId) {
    WritesContent(s, a, l) && Remoderates(s.requests[a.c].read, a.client.edit)
  }

  /** Sending back owes the listing an enqueue; any enqueue write of its row settles that, whichever
      request it belongs to. */
  ghost predicate OwedAfter(s: State, a: Action, l: ListingId, owed: bool) {
    !EnqueuesRow(s, a, l) && (SendsBack(s, a, l) || owed)
  }

  ghost predicate OwedFrom(s: State, run: seq<Action>, l: ListingId, owed: bool) {
    if run == [] then owed
    else
      var prefix := run[..|run| - 1];
      OwedAfter(Exec(s, prefix), run[|run| - 1], l, OwedFrom(s, prefix, l, owed))
  }

  /** No enqueue write of the row has followed the last write that sent the listing back. */
  ghost predicate Owed(threshold: real, run: seq<Action>, l: ListingId) {
    OwedFrom(Init(threshold), run, l, false)
  }

  // ----- what nobody may have lost -----

  /** The snapshot is the present content, or an enqueue is owed, or the content has been judged. */
  ghost predicate SnapshotSound(s: State, tok: Token, snap: Input, owed: bool) {
    Live(s, tok) && tok.listing in s.listings ==>
      || snap == s.listings[tok.listing].content
      || owed
      || HasSuccess(s, tok.listing, s.listings[tok.listing].content)
  }

  ghost predicate CompletedSound(s: State, l: ListingId, owed: bool) {
    l in s.jobs && l in s.listings && s.jobs[l].status == Completed ==>
      owed || HasSuccess(s, l, s.listings[l].content)
  }

  ghost predicate NothingLost(s: State, l: ListingId, owed: bool) {
    && (forall p, tok, snap | Carrying(s, p, tok, snap) && tok.listing == l :: SnapshotSound(s, tok, snap, owed))
    && CompletedSound(s, l, owed)
  }

  /** Behind the audit statement there is its row, in all runs. */
  ghost predicate Audited(s: State) {
    forall p, tok, snap | Carrying(s, p, tok, snap) && AfterAudit(s.workers[p]) && tok.listing in s.listings ::
      HasSuccess(s, tok.listing, snap)
  }

  // ----- the edits that spare a listing -----

  /** If the step writes an edit of `l`: the edit goes back to moderation, or an earlier one is about to,
      or the new content has been judged, or nobody vouches for other content, neither a COMPLETED
      job nor a worker that the queue may still hear. */
  ghost predicate Spares(s: State, a: Action, l: ListingId, owed: bool) {
    WritesContent(s, a, l) ==>
      var content := Written(s.listings[l].content, a.client.edit);
      || Remoderates(s.requests[a.c].read, a.client.edit)
      || owed
      || HasSuccess(s, l, content)
      || ((l in s.jobs ==> s.jobs[l].status != Completed)
          && forall p, tok, snap | Carrying(s, p, tok, snap) && tok.listing == l && Live(s, tok) :: snap == content)
  }

  ghost predicate SparedFrom(s: State, run: seq<Action>, l: ListingId, owed: bool) {
    forall i :: 0 <= i < |run| ==> Spares(Exec(s, run[..i]), run[i], l, OwedFrom(s, run[..i], l, owed))
  }

  /** Every edit of the run spares the listing. */
  ghost predicate SparedRun(threshold: real, run: seq<Action>, l: ListingId) {
    SparedFrom(Init(threshold), run, l, false)
  }

  lemma SparedPrefix(s: State, prefix: seq<Action>, a: Action, l: ListingId, owed: bool)
    requires SparedFrom(s, prefix + [a], l, owed)
    ensures SparedFrom(s, prefix, l, owed) && Spares(Exec(s, prefix), a, l, OwedFrom(s, prefix, l, owed))
  {
    var run := prefix + [a];
    forall i | 0 <= i < |prefix|
      ensures Spares(Exec(s, prefix[..i]), prefix[i], l, OwedFrom(s, prefix[..i], l, owed))
    {
      assert run[..i] == prefix[..i] && run[i] == prefix[i];
    }
    assert run[..|prefix|] == prefix && run[|prefix|] == a;
  }

  // ----- what one step keeps -----

  lemma SuccessKept(s: State, a: Action, l: ListingId, input: Input)
    requires HasSuccess(s, l, input) && l in s.used && l in Next(s, a).listings && TablesSound(s)
    ensures HasSuccess(Next(s, a), l, input)
  {
    var row :| row in Log(s, l) && row.SuccessRow? && row.input == input;
    LogKept(s, a, l);
    assert row in Log(Next(s, a), l);
  }

  lemma LogKept(s: State, a: Action, l: ListingId)
    requires l in Next(s, a).listings
    ensures Log(s, l) <= Log(Next(s, a), l)
  {
  }

  lemma WorkKeepsContent(s: State, p: WorkerId, w: WorkStep)
    requires WorkEnabled(s, p, w)
    ensures
      var s' := Next(s, Work(p, w));
      && s'.listings.Keys == s.listings.Keys
      && (forall l :: l in s.listings ==> s'.listings[l].content == s.listings[l].content)
  {
    if w.Proceed? {
      ProceedSound(s.workers[p], Row(s, s.workers[p].tok.listing), s.threshold, w.error);
    }
  }

  lemma ProceedCarries(ph: Phase, row: Option<Listing>, threshold: real, error: string, snap: Input)
    requires ph.HasToken() && !ph.Evaluating?
    requires ProceedMove(ph, row, threshold, error).next.Some?
    requires Carries(ProceedMove(ph, row, threshold, error).next.value, snap)
    ensures ProceedMove(ph, row, threshold, error).next.value.HasToken()
    ensures ProceedMove(ph, row, threshold, error).next.value.tok == ph.tok
    ensures Carries(ph, snap)
    ensures
      var w := ProceedMove(ph, row, threshold, error).write;
      AfterAudit(ph) || (w.AppendAudit? && w.l == ph.tok.listing && w.row.SuccessRow? && w.row.input == snap)
  {
  }

  /** A snapshot on the way to `complete` was there before the step, or has just been loaded; and
      it enters the second half of the workflow only with its SUCCESS row. */
  lemma CarryOrigin(s: State, a: Action, p: WorkerId, tok: Token, snap: Input)
    requires Holds(Next(s, a), p, tok) && Carries(Next(s, a).workers[p], snap)
    ensures
      if Holds(s, p, tok) && Carries(s.workers[p], snap) then
        AfterAudit(Next(s, a).workers[p]) ==>
          AfterAudit(s.workers[p]) || HasSuccess(Next(s, a), tok.listing, snap)
      else
        && Holds(s, p, tok) && Next(s, a).listings == s.listings
        && tok.listing in s.listings && s.listings[tok.listing].content == snap
        && !AfterAudit(Next(s, a).workers[p])
  {
    var s' := Next(s, a);
    if a.Work? && a.p == p && Enabled(s, a) && a.work.Proceed? {
      var row := Row(s, s.workers[p].tok.listing);
      ProceedCarries(s.workers[p], row, s.threshold, a.work.error, snap);
      var w := ProceedMove(s.workers[p], row, s.threshold, a.work.error).write;
      if w.AppendAudit? {
        assert w.row in Log(s', w.l);
      }
    }
  }

  /** A row becomes COMPLETED only by the accepted report of a worker that carries a snapshot. */
  lemma CompletedOrigin(s: State, a: Action, l: ListingId)
    requires l in Next(s, a).jobs && Next(s, a).jobs[l].status == Completed
    requires l in s.jobs ==> s.jobs[l].status != Completed
    ensures a.Work? && Enabled(s, a) && a.work.Report? && s.workers[a.p].report.ReportComplete?
    ensures s.workers[a.p].tok.listing == l && Current(s.jobs, s.workers[a.p].tok)
    ensures Next(s, a).listings == s.listings
  {
    if a.Work? && Enabled(s, a) {
      WorkCompleted(s, a.p, a.work, l);
    } else if !a.Work? {
      OtherRow(s, a, l);
    }
  }

  lemma WorkCompleted(s: State, p: WorkerId, w: WorkStep, l: ListingId)
    requires WorkEnabled(s, p, w)
    requires l in Next(s, Work(p, w)).jobs && Next(s, Work(p, w)).jobs[l].status == Completed
    requires l in s.jobs ==> s.jobs[l].status != Completed
    ensures w.Report? && s.workers[p].report.ReportComplete?
    ensures s.workers[p].tok.listing == l && Current(s.jobs, s.workers[p].tok)
  {
    if w.Proceed? {
      ProceedSound(s.workers[p], Row(s, s.workers[p].tok.listing), s.threshold, w.error);
    }
  }

  // ----- the audit row -----

  lemma StepAudited(s: State, a: Action)
    requires Sound(s) && Audited(s)
    ensures Audited(Next(s, a))
  {
    var s' := Next(s, a);
    StepSound(s, a);
    forall p, tok, snap | Carrying(s', p, tok, snap) && AfterAudit(s'.workers[p]) && tok.listing in s'.listings
      ensures HasSuccess(s', tok.listing, snap)
    {
      CarryOrigin(s, a, p, tok, snap);
      if AfterAudit(s.workers[p]) {
        assert Carrying(s, p, tok, snap) && TokenSound(s, tok);
        SuccessKept(s, a, tok.listing, snap);
      }
    }
  }

  lemma {:induction false} RunAudited(threshold: real, run: seq<Action>)
    ensures Sound(Exec(Init(threshold), run)) && Audited(Exec(Init(threshold), run))
  {
    RunSound(threshold, run);
    if run != [] {
      RunAudited(threshold, run[..|run| - 1]);
      StepAudited(Exec(Init(threshold), run[..|run| - 1]), run[|run| - 1]);
    }
  }

  // ----- one step -----

  /** A row that is PENDING or RUNNING at the revision of an older token was so before the step. */
  lemma LiveBefore(s: State, a: Action, p: WorkerId, tok: Token)
    requires Sound(s) && Holds(s, p, tok) && Live(Next(s, a), tok)
    ensures Live(s, tok) && !EnqueuesRow(s, a, tok.listing)
  {
    var l := tok.listing;
    assert TokenSound(s, tok);
    if a.Work? && Enabled(s, a) {
      LiveBeforeWork(s, a.p, a.work, tok);
    } else if !a.Work? {
      OtherRow(s, a, l);
    }
  }

  lemma LiveBeforeWork(s: State, p: WorkerId, w: WorkStep, tok: Token)
    requires WorkEnabled(s, p, w) && Live(Next(s, Work(p, w)), tok)
    ensures Live(s, tok)
  {
    WorkRevisions(s, p, w);
    if w.Proceed? {
      ProceedSound(s.workers[p], Row(s, s.workers[p].tok.listing), s.threshold, w.error);
    }
  }

  lemma ContentAfter(s: State, a: Action, l: ListingId)
    requires TablesSound(s) && l in s.listings && l in Next(s, a).listings
    ensures Next(s, a).listings[l].content
         == if WritesContent(s, a, l) then Written(s.listings[l].content, a.client.edit) else s.listings[l].content
  {
    if a.Work? && Enabled(s, a) {
      WorkKeepsContent(s, a.p, a.work);
    } else if a.Serve? && Enabled(s, a) {
      ServeContent(s, a.c, a.client, l);
    }
  }

  lemma ServeContent(s: State, c: ClientId, step: ClientStep, l: ListingId)
    requires TablesSound(s) && ServeEnabled(s, c, step) && l in s.listings && l in Next(s, Serve(c, step)).listings
    ensures Next(s, Serve(c, step)).listings[l].content
         == if step.WriteEdit? && s.requests[c].listing == l then Written(s.listings[l].content, step.edit)
            else s.listings[l].content
  {
  }

  lemma WriteStep(s: State, a: Action, l: ListingId)
    requires WritesContent(s, a, l)
    ensures
      var s' := Next(s, a);
      s'.jobs == s.jobs && s'.audits == s.audits && s'.workers == s.workers && l in s'.listings
  {
  }

  /** Steps other than the write of an edit keep the word of every snapshot. */
  lemma KeepsSnapshot(s: State, a: Action, p: WorkerId, tok: Token, snap: Input, owed: bool)
    requires Sound(s) && NothingLost(s, tok.listing, owed) && !WritesContent(s, a, tok.listing)
    requires Carrying(Next(s, a), p, tok, snap)
    ensures SnapshotSound(Next(s, a), tok, snap, OwedAfter(s, a, tok.listing, owed))
  {
    var s' := Next(s, a);
    var l := tok.listing;
    StepGrows(s, a);
    CarryOrigin(s, a, p, tok, snap);
    if Live(s', tok) && l in s'.listings {
      LiveBefore(s, a, p, tok);
      assert TokenSound(s, tok);
      ContentAfter(s, a, l);
      KeepsWord(s, a, l);
      if Carrying(s, p, tok, snap) {
        assert SnapshotSound(s, tok, snap, owed);
      }
    }
  }

  /** What stands behind a listing outlasts every step. */
  lemma KeepsWord(s: State, a: Action, l: ListingId)
    requires TablesSound(s) && l in s.jobs && l in Next(s, a).listings
    ensures l in s.listings && forall input :: HasSuccess(s, l, input) ==> HasSuccess(Next(s, a), l, input)
  {
    forall input | HasSuccess(s, l, input)
      ensures HasSuccess(Next(s, a), l, input)
    {
      SuccessKept(s, a, l, input);
    }
  }

  lemma KeepsCompleted(s: State, a: Action, l: ListingId, owed: bool)
    requires Sound(s) && Audited(s) && NothingLost(s, l, owed) && !WritesContent(s, a, l)
    ensures CompletedSound(Next(s, a), l, OwedAfter(s, a, l, owed))
  {
    var s' := Next(s, a);
    StepGrows(s, a);
    if l in s'.jobs && l in s'.listings && s'.jobs[l].status == Completed {
      NotEnqueued(s, a, l);
      if l in s.jobs && s.jobs[l].status == Completed {
        ContentAfter(s, a, l);
        KeepsWord(s, a, l);
      } else {
        CompletedOrigin(s, a, l);
        var tok, snap := s.workers[a.p].tok, s.workers[a.p].report.judged;
        assert Carrying(s, a.p, tok, snap) && Live(s, tok);
        assert SnapshotSound(s, tok, snap, owed);
        KeepsWord(s, a, l);
      }
    }
  }

  lemma NotEnqueued(s: State, a: Action, l: ListingId)
    requires l in Next(s, a).jobs && Next(s, a).jobs[l].status == Completed
    ensures !EnqueuesRow(s, a, l)
  {
    if !a.Work? {
      OtherRow(s, a, l);
    }
  }

  /** The condition is exact: from a state in which nothing is lost, a step loses nothing if and only
      if it spares the listing. */
  lemma SparesExactly(s: State, a: Action, l: ListingId, owed: bool)
    requires Sound(s) && Audited(s) && NothingLost(s, l, owed)
    ensures NothingLost(Next(s, a), l, OwedAfter(s, a, l, owed)) <==> Spares(s, a, l, owed)
  {
    if WritesContent(s, a, l) {
      WriteStep(s, a, l);
      ContentAfter(s, a, l);
      WriteKeeps(s, a, l, owed);
    } else {
      forall p, tok, snap | Carrying(Next(s, a), p, tok, snap) && tok.listing == l
        ensures SnapshotSound(Next(s, a), tok, snap, OwedAfter(s, a, l, owed))
      {
        KeepsSnapshot(s, a, p, tok, snap, owed);
      }
      KeepsCompleted(s, a, l, owed);
    }
  }

  lemma WriteKeeps(s: State, a: Action, l: ListingId, owed: bool)
    requires WritesContent(s, a, l) && NothingLost(s, l, owed) && l in Next(s, a).listings
    requires
      var s' := Next(s, a);
      && s'.jobs == s.jobs && s'.audits == s.audits && s'.workers == s.workers
      && s'.listings[l].content == Written(s.listings[l].content, a.client.edit)
    ensures NothingLost(Next(s, a), l, OwedAfter(s, a, l, owed)) <==> Spares(s, a, l, owed)
  {
    var s' := Next(s, a);
    var content := s'.listings[l].content;
    var owed' := OwedAfter(s, a, l, owed);
    assert HasSuccess(s', l, content) <==> HasSuccess(s, l, content);
    assert forall p, tok, snap :: Carrying(s', p, tok, snap) <==> Carrying(s, p, tok, snap);
    assert forall tok :: Live(s', tok) <==> Live(s, tok);
    if !owed' && !HasSuccess(s', l, content) {
      assert CompletedSound(s', l, owed') <==> (l in s.jobs ==> s.jobs[l].status != Completed);
      assert forall p, tok, snap | Carrying(s', p, tok, snap) && tok.listing == l && Live(s', tok)
          :: SnapshotSound(s', tok, snap, owed') <==> snap == content;
    }
  }

  // ----- runs -----

  lemma {:induction false} KeepsNothingLost(s: State, run: seq<Action>, l: ListingId, owed: bool)
    requires Sound(s) && Audited(s) && NothingLost(s, l, owed) && SparedFrom(s, run, l, owed)
    ensures Sound(Exec(s, run)) && Audited(Exec(s, run)) && NothingLost(Exec(s, run), l, OwedFrom(s, run, l, owed))
  {
    if run != [] {
      var prefix, a := run[..|run| - 1], run[|run| - 1];
      assert prefix + [a] == run;
      SparedPrefix(s, prefix, a, l, owed);
      KeepsNothingLost(s, prefix, l, owed);
      StepSound(Exec(s, prefix), a);
      StepAudited(Exec(s, prefix), a);
      SparesExactly(Exec(s, prefix), a, l, OwedFrom(s, prefix, l, owed));
    }
  }

  lemma RunNothingLost(threshold: real, run: seq<Action>, l: ListingId)
    requires SparedRun(threshold, run, l)
    ensures Sound(Exec(Init(threshold), run)) && Audited(Exec(Init(threshold), run))
    ensures NothingLost(Exec(Init(threshold), run), l, Owed(threshold, run, l))
  {
    KeepsNothingLost(Init(threshold), run, l, false);
  }

  /** No lost edit: a listing whose job is COMPLETED has a SUCCESS row for exactly its present content,
      once any enqueue write has followed the last write that sent it back. */
  lemma CompletedJobIsEvidence(threshold: real, run: seq<Action>, l: ListingId)
    requires SparedRun(threshold, run, l)
    requires
      var s := Exec(Init(threshold), run);
      l in s.jobs && s.jobs[l].status == Completed && !Owed(threshold, run, l)
    ensures
      var s := Exec(Init(threshold), run);
      l in s.listings && exists row :: row in Log(s, l) && row.SuccessRow? && row.input == s.listings[l].content
  {
    RunNothingLost(threshold, run, l);
    assert CompletedSound(Exec(Init(threshold), run), l, false);
  }

  // ----- an enqueue is owed only while a request is at work -----

  /** The request has written content of `l` and its enqueue has yet to find the job row. */
  predicate AwaitsEnqueue(r: Request, l: ListingId) {
    r.listing == l && (r.EditWritten? || (r.SawJob? && r.edit))
  }

  ghost predicate EditPending(s: State, l: ListingId) {
    exists c :: c in s.requests && AwaitsEnqueue(s.requests[c], l)
  }

  /** The request that owes the enqueue, wherever it stands. */
  ghost predicate Debtor(s: State, c: ClientId, l: ListingId) {
    && c in s.requests
    && (|| s.requests[c] == EditWritten(l)
        || (s.requests[c] == SawJob(l, true) && l in s.jobs)
        || (s.requests[c] == SawNoJob(l, true) && l !in s.jobs))
  }

  lemma DebtorKept(s: State, a: Action, c: ClientId, l: ListingId)
    requires TablesSound(s) && Debtor(s, c, l) && l in s.used && l in Next(s, a).listings && !EnqueuesRow(s, a, l)
    ensures Debtor(Next(s, a), c, l)
  {
    StepGrows(s, a);
    assert l in s.listings;
    if a.Work? && Enabled(s, a) {
      WorkRevisions(s, a.p, a.work);
    } else if a.Serve? && Enabled(s, a) {
      ServeDebtor(s, a.c, a.client, c, l);
    }
  }

  lemma ServeDebtor(s: State, d: ClientId, step: ClientStep, c: ClientId, l: ListingId)
    requires ServeEnabled(s, d, step) && Debtor(s, c, l) && l in s.listings && !EnqueuesRow(s, Serve(d, step), l)
    requires l in s.jobs ==> l in Next(s, Serve(d, step)).jobs
    ensures Debtor(Next(s, Serve(d, step)), c, l)
  {
    if l in Next(s, Serve(d, step)).jobs {
      ServeRow(s, d, step, l);
    }
  }

  /** A request that dies after its write owes its enqueue, until any other request enqueues the row;
      so while no edit is between its content write and its enqueue, nothing is owed. */
  lemma {:induction false} OwedWhilePending(threshold: real, run: seq<Action>, l: ListingId)
    requires Owed(threshold, run, l) && l in Exec(Init(threshold), run).listings
    ensures exists c :: Debtor(Exec(Init(threshold), run), c, l)
    ensures l in Exec(Init(threshold), run).jobs ==> EditPending(Exec(Init(threshold), run), l)
  {
    var prefix, a := run[..|run| - 1], run[|run| - 1];
    var s := Exec(Init(threshold), prefix);
    RunSound(threshold, prefix);
    StepGrows(s, a);
    if SendsBack(s, a, l) {
      assert Debtor(Next(s, a), a.c, l);
    } else {
      OwedListing(threshold, prefix, l);
      OwedWhilePending(threshold, prefix, l);
      var c :| Debtor(s, c, l);
      DebtorKept(s, a, c, l);
    }
  }

  lemma {:induction false} OwedListing(threshold: real, run: seq<Action>, l: ListingId)
    requires Owed(threshold, run, l)
    ensures l in Exec(Init(threshold), run).used
  {
    var prefix, a := run[..|run| - 1], run[|run| - 1];
    RunSound(threshold, prefix);
    StepGrows(Exec(Init(threshold), prefix), a);
    if !SendsBack(Exec(Init(threshold), prefix), a, l) {
      OwedListing(threshold, prefix, l);
    }
  }

  // ----- edits whose row has not changed since they read it -----

  ghost predicate Undivided(s: State, a: Action, l: ListingId) {
    WritesContent(s, a, l) ==> s.listings[l].content == s.requests[a.c].read
  }

  lemma UndividedSpares(s: State, a: Action, l: ListingId, owed: bool)
    requires NothingLost(s, l, owed) && Undivided(s, a, l)
    ensures Spares(s, a, l, owed)
  {
    if WritesContent(s, a, l) && !Remoderates(s.requests[a.c].read, a.client.edit) {
      assert Written(s.listings[l].content, a.client.edit) == s.listings[l].content;
      if !owed && !HasSuccess(s, l, s.listings[l].content) {
        forall p, tok, snap | Carrying(s, p, tok, snap) && tok.listing == l && Live(s, tok)
          ensures snap == s.listings[l].content
        {
          assert SnapshotSound(s, tok, snap, owed);
        }
      }
    }
  }

  ghost predicate UndividedRun(threshold: real, run: seq<Action>, l: ListingId) {
    forall i :: 0 <= i < |run| ==> Undivided(Exec(Init(threshold), run[..i]), run[i], l)
  }

  lemma UndividedPrefix(threshold: real, prefix: seq<Action>, a: Action, l: ListingId)
    requires UndividedRun(threshold, prefix + [a], l)
    ensures UndividedRun(threshold, prefix, l) && Undivided(Exec(Init(threshold), prefix), a, l)
  {
    var run := prefix + [a];
    forall i | 0 <= i < |prefix|
      ensures Undivided(Exec(Init(threshold), prefix[..i]), prefix[i], l)
    {
      assert run[..i] == prefix[..i] && run[i] == prefix[i];
    }
    assert run[..|prefix|] == prefix && run[|prefix|] == a;
  }

  lemma SparedAppend(s: State, prefix: seq<Action>, a: Action, l: ListingId, owed: bool)
    requires SparedFrom(s, prefix, l, owed) && Spares(Exec(s, prefix), a, l, OwedFrom(s, prefix, l, owed))
    ensures SparedFrom(s, prefix + [a], l, owed)
  {
    var run := prefix + [a];
    forall i | 0 <= i < |run|
      ensures Spares(Exec(s, run[..i]), run[i], l, OwedFrom(s, run[..i], l, owed))
    {
      if i < |prefix| {
        assert run[..i] == prefix[..i] && run[i] == prefix[i];
      } else {
        assert run[..i] == prefix;
      }
    }
  }

  lemma {:induction false} UndividedEditsSpare(threshold: real, run: seq<Action>, l: ListingId)
    requires UndividedRun(threshold, run, l)
    ensures SparedRun(threshold, run, l)
  {
    if run != [] {
      var prefix, a := run[..|run| - 1], run[|run| - 1];
      assert prefix + [a] == run;
      UndividedPrefix(threshold, prefix, a, l);
      UndividedEditsSpare(threshold, prefix, l);
      RunNothingLost(threshold, prefix, l);
      UndividedSpares(Exec(Init(threshold), prefix), a, l, Owed(threshold, prefix, l));
      SparedAppend(Init(threshold), prefix, a, l, false);
    }
  }

  // ----- an edit that does not spare its listing -----

  /** How far the worker is from its report. */
  function StepsLeft(ph: Phase): nat {
    match ph
    case Evaluating(_, _) => 5
    case Judged(_, _, _) => 4
    case Recorded(_, _, _) => 3
    case Approving(_, _) => 2
    case Notifying(_, _) => 1
    case _ => 0
  }

  const UNDECIDED := Verdict(High, 0.0, [], ManualReview)

  /** The worker's next step, if nothing throws. */
  function Onward(ph: Phase): WorkStep {
    if ph.Evaluating? then Answer(Judgement(UNDECIDED)) else Proceed("")
  }

  /** A worker carries on towards `complete` without regard to what the listing says by now. */
  lemma CarriesOn(s: State, p: WorkerId, tok: Token, snap: Input)
    requires Carrying(s, p, tok, snap) && !s.workers[p].Reporting? && tok.listing in s.listings
    ensures
      var s' := Next(s, Work(p, Onward(s.workers[p])));
      && Carrying(s', p, tok, snap) && StepsLeft(s'.workers[p]) < StepsLeft(s.workers[p])
      && s'.jobs == s.jobs
      && tok.listing in s'.listings && s'.listings[tok.listing].content == s.listings[tok.listing].content
  {
  }

  lemma NothingElseJudged(s: State, p: WorkerId, tok: Token, snap: Input, input: Input)
    requires Carrying(s, p, tok, snap) && !s.workers[p].Reporting? && tok.listing in s.listings
    requires input != snap && HasSuccess(Next(s, Work(p, Onward(s.workers[p]))), tok.listing, input)
    ensures HasSuccess(s, tok.listing, input)
  {
    var s' := Next(s, Work(p, Onward(s.workers[p])));
    OnwardLog(s, p, tok, snap);
    var row :| row in Log(s', tok.listing) && row.SuccessRow? && row.input == input;
    assert row in Log(s, tok.listing);
  }

  lemma OnwardLog(s: State, p: WorkerId, tok: Token, snap: Input)
    requires Carrying(s, p, tok, snap) && !s.workers[p].Reporting? && tok.listing in s.listings
    ensures
      var s' := Next(s, Work(p, Onward(s.workers[p])));
      || Log(s', tok.listing) == Log(s, tok.listing)
      || (s.workers[p].Judged?
          && Log(s', tok.listing) == Log(s, tok.listing)
                                     + [SuccessRow(snap, s.workers[p].verdict, Qualifies(s.workers[p].verdict, s.threshold))])
  {
  }

  /** The edit is lost: left to itself, a worker whose snapshot is out of date completes the job,
      and nothing vouches for the content. */
  lemma {:induction false} StaleReportLoses(s: State, p: WorkerId, tok: Token, snap: Input) returns (rest: seq<Action>)
    requires Carrying(s, p, tok, snap) && Current(s.jobs, tok) && tok.listing in s.listings
    requires
      var content := s.listings[tok.listing].content;
      snap != content && !HasSuccess(s, tok.listing, content)
    ensures forall a :: a in rest ==> a.Work? && a.p == p
    ensures !CompletedSound(Exec(s, rest), tok.listing, false)
    decreases StepsLeft(s.workers[p])
  {
    if s.workers[p].Reporting? {
      rest := [Work(p, Report(s.clock))];
      assert rest[..0] == [];
      assert Exec(s, rest) == Next(s, rest[0]);
      ReportCompletes(s, p, tok, snap);
    } else {
      var a := Work(p, Onward(s.workers[p]));
      CarriesOn(s, p, tok, snap);
      if HasSuccess(Next(s, a), tok.listing, s.listings[tok.listing].content) {
        NothingElseJudged(s, p, tok, snap, s.listings[tok.listing].content);
      }
      var more := StaleReportLoses(Next(s, a), p, tok, snap);
      rest := [a] + more;
      assert [a][..0] == [];
      assert Exec(s, [a]) == Next(s, a);
      ExecConcat(s, [a], more);
    }
  }

  lemma ReportCompletes(s: State, p: WorkerId, tok: Token, snap: Input)
    requires Carrying(s, p, tok, snap) && s.workers[p].Reporting? && Current(s.jobs, tok)
    ensures
      var s' := Next(s, Work(p, Report(s.clock)));
      && s'.listings == s.listings && s'.audits == s.audits
      && tok.listing in s'.jobs && s'.jobs[tok.listing].status == Completed
  {
  }

  // ----- making the queue take up a PENDING row -----

  /** Deleting every other listing that has a job leaves the row as the only one. */
  lemma {:induction false} DeletesOthers(s: State, l: ListingId) returns (run: seq<Action>)
    requires TablesSound(s) && l in s.jobs
    ensures forall a :: a in run ==> !a.Serve?
    ensures
      var s' := Exec(s, run);
      && s'.jobs == map[l := s.jobs[l]] && s'.workers == s.workers && s'.requests == s.requests && s'.clock == s.clock
      && l in s.listings && l in s'.listings && s'.listings[l] == s.listings[l] && Log(s', l) == Log(s, l)
    decreases s.jobs.Keys
  {
    if m :| m in s.jobs.Keys && m != l {
      var s1 := Next(s, Remove(m));
      assert s1.jobs == s.jobs - {m};
      StepGrows(s, Remove(m));
      var rest := DeletesOthers(s1, l);
      run := [Remove(m)] + rest;
      ExecConcat(s, [Remove(m)], rest);
      assert [Remove(m)][..0] == [];
      assert Exec(s, [Remove(m)]) == s1;
    } else {
      run := [];
      assert s.jobs == map[l := s.jobs[l]];
    }
  }

  lemma {:induction false} Above(ids: set<WorkerId>) returns (q: WorkerId)
    ensures forall p :: p in ids ==> p < q
  {
    if p :| p in ids {
      var r := Above(ids - {p});
      q := if p < r then r else p + 1;
      assert forall x :: x in ids ==> x == p || x in ids - {p};
    } else {
      q := 0;
    }
  }

  lemma ClaimsAlone(s: State, l: ListingId, q: WorkerId)
    requires s.jobs.Keys == {l} && s.jobs[l].status == Pending && s.jobs[l].nextRunAt <= s.clock && q !in s.workers
    ensures
      var s' := Next(s, Work(q, Claim(l, s.clock)));
      && l in s'.jobs && s'.jobs[l] == Started(s.jobs[l], s.clock)
      && s'.listings == s.listings && s'.audits == s.audits && s'.requests == s.requests
      && forall p :: p in s.workers ==> p in s'.workers && s'.workers[p] == s.workers[p]
  {
    assert FirstDue(s.jobs, l, s.clock);
  }

  /** However long the queue, some continuation gets to the row. */
  lemma TakesUp(s: State, l: ListingId) returns (run: seq<Action>)
    requires TablesSound(s) && l in s.jobs && s.jobs[l].status == Pending
    ensures forall a :: a in run ==> !a.Serve?
    ensures
      var s' := Exec(s, run);
      && l in s'.jobs && s'.jobs[l].status == Running && s'.jobs[l].revision == s.jobs[l].revision
      && s'.requests == s.requests && l in s.listings && l in s'.listings && s'.listings[l] == s.listings[l]
      && Log(s', l) == Log(s, l)
      && forall p :: p in s.workers ==> p in s'.workers && s'.workers[p] == s.workers[p]
  {
    var deletes := DeletesOthers(s, l);
    var s1 := Exec(s, deletes);
    var due := Tick(s.jobs[l].nextRunAt);
    var s2 := Next(s1, due);
    var q := Above(s.workers.Keys);
    var claim := Work(q, Claim(l, s2.clock));
    ClaimsAlone(s2, l, q);
    run := deletes + [due, claim];
    ExecConcat(s, deletes, [due, claim]);
    ExecTwo(s1, due, claim);
  }

  lemma {:induction false} NothingNewOwed(s: State, run: seq<Action>, l: ListingId)
    requires forall a :: a in run ==> !a.Serve?
    ensures !OwedFrom(s, run, l, false)
  {
    if run != [] {
      NothingNewOwed(s, run[..|run| - 1], l);
    }
  }

  /** What the condition is worth to the seller: an edit spares its listing if and only if, on every
      continuation that spares it too, a COMPLETED job keeps vouching for the content. */
  lemma UnsparedWriteLoses(threshold: real, run: seq<Action>, a: Action, l: ListingId)
    requires SparedRun(threshold, run, l)
    ensures
      var s := Exec(Init(threshold), run);
      var owed := OwedAfter(s, a, l, Owed(threshold, run, l));
      Spares(s, a, l, Owed(threshold, run, l)) <==>
      forall rest :: SparedFrom(Next(s, a), rest, l, owed) ==>
        CompletedSound(Exec(Next(s, a), rest), l, OwedFrom(Next(s, a), rest, l, owed))
  {
    var s := Exec(Init(threshold), run);
    var owed := OwedAfter(s, a, l, Owed(threshold, run, l));
    RunNothingLost(threshold, run, l);
    SparesExactly(s, a, l, Owed(threshold, run, l));
    StepSound(s, a);
    StepAudited(s, a);
    if Spares(s, a, l, Owed(threshold, run, l)) {
      forall rest | SparedFrom(Next(s, a), rest, l, owed)
        ensures CompletedSound(Exec(Next(s, a), rest), l, OwedFrom(Next(s, a), rest, l, owed))
      {
        KeepsNothingLost(Next(s, a), rest, l, owed);
      }
    } else {
      var rest := Loss(s, a, l, Owed(threshold, run, l));
      NothingNewOwed(Next(s, a), rest, l);
      assert SparedFrom(Next(s, a), rest, l, owed);
    }
  }

  lemma Loss(s: State, a: Action, l: ListingId, owed: bool) returns (rest: seq<Action>)
    requires TablesSound(s) && !Spares(s, a, l, owed)
    ensures !OwedAfter(s, a, l, owed)
    ensures forall b :: b in rest ==> !b.Serve?
    ensures !CompletedSound(Exec(Next(s, a), rest), l, false)
  {
    var s' := Next(s, a);
    WriteStep(s, a, l);
    ContentAfter(s, a, l);
    StepGrows(s, a);
    assert forall input :: HasSuccess(s', l, input) <==> HasSuccess(s, l, input);
    rest := [];
    if l !in s.jobs || s.jobs[l].status != Completed {
      var p, tok, snap :| Carrying(s, p, tok, snap) && tok.listing == l && Live(s, tok)
                          && snap != Written(s.listings[l].content, a.client.edit);
      rest := LiveLoses(s', p, tok, snap);
    }
  }

  /** A token that may still be accepted is enough. */
  lemma LiveLoses(s: State, p: WorkerId, tok: Token, snap: Input) returns (rest: seq<Action>)
    requires TablesSound(s) && Carrying(s, p, tok, snap) && Live(s, tok) && tok.listing in s.listings
    requires
      var content := s.listings[tok.listing].content;
      snap != content && !HasSuccess(s, tok.listing, content)
    ensures forall a :: a in rest ==> !a.Serve?
    ensures !CompletedSound(Exec(s, rest), tok.listing, false)
  {
    if s.jobs[tok.listing].status == Running {
      rest := StaleReportLoses(s, p, tok, snap);
    } else {
      var first := TakesUp(s, tok.listing);
      var more := StaleReportLoses(Exec(s, first), p, tok, snap);
      rest := first + more;
      ExecConcat(s, first, more);
    }
  }
}
