/** Concrete runs that show which interleavings the guarantees do not survive. */
module Traces {
  import opened Options
  import opened JobQueue
  import opened Moderation
  import opened Protocol
  import opened Fencing
  import opened TokenExclusion
  import opened NoLostEdit
  import opened Approval
  import opened Attempts
  import opened Passages

  // ----- an edit during the evaluation -----

  /** An edit lands between the load of a worker and its approval.  The worker approves the content it
      never saw; its stale token changes no job; and when the next worker's verdict on that content
      does not qualify, the listing stays APPROVED beside a COMPLETED job, on no administrator's word. */
  lemma OverlappingEdit(threshold: real, before: Input, edit: Edit, good: Verdict, bad: Verdict) returns (run: seq<Action>)
    requires Remoderates(before, edit) && Qualifies(good, threshold) && !Qualifies(bad, threshold)
    ensures
      var s := Exec(Init(threshold), run);
      && s.listings == map[0 := Listing(Written(before, edit), Approved)] && s.byAdmin == {} && s.requests == map[]
      && 0 in s.jobs && s.jobs[0].status == Completed
      && Log(s, 0) == [SuccessRow(before, good, true), SuccessRow(Written(before, edit), bad, false)]
  {
    var after := Written(before, edit);
    var tok := Token(0, 0, 1);
    var s0 := Queued(threshold, before);
    OpeningQueues(threshold, before);
    run := Opening(before);

    ClaimsAndLoads(s0, 1, NewJob(0));
    var s1 := s0.(jobs := map[0 := Started(NewJob(0), 0)], workers := map[1 := Evaluating(tok, before)]);
    Chain(threshold, run, s0, [Work(1, Claim(0, 0)), Work(1, Load(""))], s1);
    run := run + [Work(1, Claim(0, 0)), Work(1, Load(""))];

    WritesEdit(s1, 1, edit);
    var s2 := s1.(listings := map[0 := Listing(after, AwaitingReview)], requests := map[1 := EditWritten(0)]);
    assert s1.byAdmin - {0} == {};
    Chain(threshold, run, s1, [Serve(1, BeginEdit(0)), Serve(1, WriteEdit(edit))], s2);
    run := run + [Serve(1, BeginEdit(0)), Serve(1, WriteEdit(edit))];

    EnqueuesEdit(s2, 1, map[]);
    var s3 := s2.(jobs := map[0 := Requeued(Started(NewJob(0), 0), 0)], requests := map[]);
    Chain(threshold, run, s2, [Serve(1, EnqueueRead), Serve(1, EnqueueWrite(0))], s3);
    run := run + [Serve(1, EnqueueRead), Serve(1, EnqueueWrite(0))];

    var rest := ApprovesFirst(s3, before, after, good, tok);
    var s4 := s3.(audits := map[0 := [SuccessRow(before, good, true)]], listings := map[0 := Listing(after, Approved)],
                  workers := map[]);
    Chain(threshold, run, s3, rest, s4);
    run := run + rest;

    var last := SecondLook(s4, after, bad);
    ExecConcat(Init(threshold), run, last);
    run := run + last;
  }

  /** The first worker approves on the strength of its snapshot, whatever the listing now says. */
  lemma ApprovesFirst(s: State, before: Input, after: Input, good: Verdict, tok: Token) returns (run: seq<Action>)
    requires s.clock == 0 && s.byAdmin == {} && s.audits == map[] && Qualifies(good, s.threshold)
    requires s.listings == map[0 := Listing(after, AwaitingReview)] && tok.listing == 0
    requires s.workers == map[1 := Evaluating(tok, before)]
    ensures Exec(s, run) == s.(audits := map[0 := [SuccessRow(before, good, true)]],
                               listings := map[0 := Listing(after, Approved)],
                               jobs := CompleteRow(s.jobs, tok, 0), workers := map[])
  {
    hide Exec, Next;
    Judges(s, 1, tok, before, good);
    assert Log(s, 0) + [SuccessRow(before, good, true)] == [SuccessRow(before, good, true)];
    var s1 := s.(audits := map[0 := [SuccessRow(before, good, true)]], workers := map[1 := Recorded(tok, before, true)]);
    run := [Work(1, Answer(Judgement(good))), Work(1, Proceed(""))];
    assert Exec(s, run) == s1;
    Approves(s1, 1, tok, before);
    assert s1.byAdmin - {0} == s1.byAdmin && s1.listings[0 := Listing(after, Approved)] == map[0 := Listing(after, Approved)];
    var s2 := s1.(listings := map[0 := Listing(after, Approved)], workers := map[1 := Reporting(tok, ReportComplete(before))]);
    assert Exec(s1, [Work(1, Proceed("")), Work(1, Proceed("")), Work(1, Proceed(""))]) == s2;
    ExecConcat(s, run, [Work(1, Proceed("")), Work(1, Proceed("")), Work(1, Proceed(""))]);
    run := run + [Work(1, Proceed("")), Work(1, Proceed("")), Work(1, Proceed(""))];
    Reports(s2, 1, tok, ReportComplete(before));
    ExecConcat(s, run, [Work(1, Report(0))]);
    run := run + [Work(1, Report(0))];
  }

  lemma SecondLook(s: State, after: Input, bad: Verdict) returns (run: seq<Action>)
    requires s.clock == 0 && s.workers == map[] && !Qualifies(bad, s.threshold)
    requires s.listings == map[0 := Listing(after, Approved)]
    requires 0 in s.jobs && s.jobs == map[0 := s.jobs[0]] && s.jobs[0].status == Pending && s.jobs[0].nextRunAt == 0
    ensures
      var s' := Exec(s, run);
      && s'.listings == s.listings && s'.byAdmin == s.byAdmin && s'.requests == s.requests
      && 0 in s'.jobs && s'.jobs[0].status == Completed
      && Log(s', 0) == Log(s, 0) + [SuccessRow(after, bad, false)]
  {
    var tok := Token(0, s.jobs[0].revision, s.jobs[0].attempts + 1);
    ClaimsAndLoads(s, 2, s.jobs[0]);
    var s1 := s.(jobs := map[0 := Started(s.jobs[0], 0)], workers := map[2 := Evaluating(tok, after)]);
    run := [Work(2, Claim(0, 0)), Work(2, Load(""))];
    assert Exec(s, run) == s1;
    var rest := LooksAndReports(s1, tok, after, bad);
    ExecConcat(s, run, rest);
    run := run + rest;
  }

  lemma LooksAndReports(s: State, tok: Token, after: Input, bad: Verdict) returns (run: seq<Action>)
    requires s.clock == 0 && s.workers == map[2 := Evaluating(tok, after)] && !Qualifies(bad, s.threshold)
    requires tok.listing == 0 && 0 in s.listings && Current(s.jobs, tok)
    ensures Exec(s, run) == s.(audits := s.audits[0 := Log(s, 0) + [SuccessRow(after, bad, false)]],
                               jobs := CompleteRow(s.jobs, tok, 0), workers := map[])
  {
    hide Exec, Next;
    Judges(s, 2, tok, after, bad);
    var s2 := s.(audits := s.audits[0 := Log(s, 0) + [SuccessRow(after, bad, false)]],
                 workers := map[2 := Recorded(tok, after, false)]);
    run := [Work(2, Answer(Judgement(bad))), Work(2, Proceed(""))];
    assert Exec(s, run) == s2;
    LeavesPending(s2, 2, tok, after);
    var s3 := s2.(workers := map[2 := Reporting(tok, ReportComplete(after))]);
    assert Exec(s2, [Work(2, Proceed(""))]) == s3;
    ExecConcat(s, run, [Work(2, Proceed(""))]);
    run := run + [Work(2, Proceed(""))];
    Reports(s3, 2, tok, ReportComplete(after));
    ExecConcat(s, run, [Work(2, Report(0))]);
    run := run + [Work(2, Report(0))];
  }

  // ----- two edits of one listing -----

  /** Request 1 reads the listing, request 2 edits it and is judged and approved, and request 1 then
      writes back the title it had read.  Its decision sees no change, so nothing is enqueued: the
      listing is APPROVED with content that no row of the log mentions, and its job is COMPLETED. */
  lemma InterleavedEdits(threshold: real, before: Input, title: string, description: string, good: Verdict)
    returns (run: seq<Action>)
    requires title != before.title && description != before.description && Qualifies(good, threshold)
    ensures
      var s := Exec(Init(threshold), run);
      && s.listings == map[0 := Listing(before.(description := description), Approved)] && s.byAdmin == {}
      && s.requests == map[] && 0 in s.jobs && s.jobs[0].status == Completed
      && Log(s, 0) == [SuccessRow(before.(title := title, description := description), good, true)]
  {
    var edit := Edit(Some(title), Some(description), None, None);
    var after := Written(before, edit);
    var s0 := Queued(threshold, before);
    OpeningQueues(threshold, before);
    run := Opening(before);

    var s1 := s0.(requests := map[1 := EditRead(0, before)]);
    Follow([s0, s1], [Serve(1, BeginEdit(0))]);
    Chain(threshold, run, s0, [Serve(1, BeginEdit(0))], s1);
    run := run + [Serve(1, BeginEdit(0))];

    WritesEdit(s1, 2, edit);
    var s2 := s1.(listings := map[0 := Listing(after, AwaitingReview)], requests := s1.requests[2 := EditWritten(0)]);
    assert s1.byAdmin - {0} == {};
    Chain(threshold, run, s1, [Serve(2, BeginEdit(0)), Serve(2, WriteEdit(edit))], s2);
    run := run + [Serve(2, BeginEdit(0)), Serve(2, WriteEdit(edit))];

    EnqueuesEdit(s2, 2, s1.requests);
    var s3 := s2.(jobs := map[0 := Requeued(NewJob(0), 0)], requests := s1.requests);
    Chain(threshold, run, s2, [Serve(2, EnqueueRead), Serve(2, EnqueueWrite(0))], s3);
    run := run + [Serve(2, EnqueueRead), Serve(2, EnqueueWrite(0))];

    var rest := JudgedThenOverwritten(s3, before, after, good);
    ExecConcat(Init(threshold), run, rest);
    run := run + rest;
  }

  lemma JudgedThenOverwritten(s: State, before: Input, after: Input, good: Verdict) returns (run: seq<Action>)
    requires s.clock == 0 && s.byAdmin == {} && s.audits == map[] && s.workers == map[] && Qualifies(good, s.threshold)
    requires s.listings == map[0 := Listing(after, AwaitingReview)] && s.requests == map[1 := EditRead(0, before)]
    requires s.jobs == map[0 := Requeued(NewJob(0), 0)]
    ensures
      var s' := Exec(s, run);
      && s'.listings == map[0 := Listing(after.(title := before.title), Approved)] && s'.byAdmin == {}
      && s'.requests == map[] && 0 in s'.jobs && s'.jobs[0].status == Completed
      && Log(s', 0) == [SuccessRow(after, good, true)]
  {
    var job := Requeued(NewJob(0), 0);
    ClaimsAndLoads(s, 1, job);
    var s1 := s.(jobs := map[0 := Started(job, 0)], workers := map[1 := Evaluating(Token(0, 1, 1), after)]);
    run := [Work(1, Claim(0, 0)), Work(1, Load(""))];
    assert Exec(s, run) == s1;
    var rest := ApprovesFirst(s1, after, after, good, Token(0, 1, 1));
    ExecConcat(s, run, rest);
    run := run + rest;
    var edit := Edit(Some(before.title), None, None, None);
    OverwritesTitle(Exec(s, run), before, after);
    ExecConcat(s, run, [Serve(1, WriteEdit(edit))]);
    run := run + [Serve(1, WriteEdit(edit))];
  }

  lemma OverwritesTitle(s: State, before: Input, after: Input)
    requires s.listings == map[0 := Listing(after, Approved)] && s.requests == map[1 := EditRead(0, before)]
    ensures Exec(s, [Serve(1, WriteEdit(Edit(Some(before.title), None, None, None)))])
         == s.(listings := map[0 := Listing(after.(title := before.title), Approved)], requests := map[])
  {
    Follow([s, s.(listings := map[0 := Listing(after.(title := before.title), Approved)], requests := map[])],
           [Serve(1, WriteEdit(Edit(Some(before.title), None, None, None)))]);
  }

  // ----- a rejection during the evaluation -----

  /** The steps of a worker from its snapshot to the write of APPROVED, and an administrator's rejection
      that lands after `k` of them. */
  function ApprovalSteps(p: WorkerId, v: Verdict): seq<Action> {
    [Work(p, Answer(Judgement(v))), Work(p, Proceed("")), Work(p, Proceed("")), Work(p, Proceed(""))]
  }

  function RejectedAfter(k: nat, p: WorkerId, v: Verdict, l: ListingId): seq<Action>
    requires k <= 4
  {
    ApprovalSteps(p, v)[..k] + [AdminReject(l)] + ApprovalSteps(p, v)[k..]
  }

  /** How far the worker has come, and whether the listing is APPROVED. */
  datatype Fate = Fate(stage: nat, approved: bool)

  function Advanced(f: Fate): Fate {
    match f.stage
    case 0 => Fate(1, f.approved)
    case 1 => Fate(2, f.approved)
    case 2 => Fate(if f.approved then 5 else 3, f.approved)
    case 3 => Fate(4, true)
    case _ => f
  }

  function FateAfter(n: nat, k: nat, approved: bool): Fate {
    if n == 0 then Fate(0, approved)
    else
      var f := FateAfter(n - 1, k, approved);
      if n - 1 == k then f.(approved := false) else Advanced(f)
  }

  predicate AtStage(s: State, p: WorkerId, tok: Token, snap: Input, v: Verdict, f: Fate) {
    && p in s.workers && tok.listing in s.listings
    && (s.listings[tok.listing].approval == Approved <==> f.approved)
    && match f.stage
       case 0 => s.workers[p] == Evaluating(tok, snap)
       case 1 => s.workers[p] == Judged(tok, snap, v)
       case 2 => s.workers[p] == Recorded(tok, snap, true)
       case 3 => s.workers[p] == Approving(tok, snap)
       case 4 => s.workers[p] == Notifying(tok, snap)
       case _ => s.workers[p] == Reporting(tok, ReportComplete(snap))
  }

  lemma Advances(s: State, p: WorkerId, tok: Token, snap: Input, v: Verdict, f: Fate)
    requires AtStage(s, p, tok, snap, v, f) && Qualifies(v, s.threshold) && f.stage != 4
    ensures
      var s' := Next(s, Work(p, if f.stage == 0 then Answer(Judgement(v)) else Proceed("")));
      AtStage(s', p, tok, snap, v, Advanced(f)) && s'.threshold == s.threshold
  {
  }

  /** Each of the worker's four steps takes it one stage on, or it has given up at the lookup. */
  lemma StageBound(n: nat, k: nat, approved: bool)
    requires n <= 5 && k <= 4
    ensures FateAfter(n, k, approved).stage == 5 || FateAfter(n, k, approved).stage == (if n <= k then n else n - 1)
  {
  }

  lemma ActionAt(n: nat, k: nat, p: WorkerId, v: Verdict, l: ListingId, approved: bool)
    requires n < 5 && k <= 4
    ensures |RejectedAfter(k, p, v, l)| == 5
    ensures FateAfter(n, k, approved).stage == 4 ==> n == k
    ensures RejectedAfter(k, p, v, l)[n]
         == if n == k then AdminReject(l)
            else Work(p, if FateAfter(n, k, approved).stage == 0 then Answer(Judgement(v)) else Proceed(""))
  {
    StageBound(n, k, approved);
  }

  lemma Rejects(s: State, p: WorkerId, tok: Token, snap: Input, v: Verdict, f: Fate)
    requires AtStage(s, p, tok, snap, v, f)
    ensures AtStage(Next(s, AdminReject(tok.listing)), p, tok, snap, v, f.(approved := false))
    ensures Next(s, AdminReject(tok.listing)).threshold == s.threshold
  {
  }

  lemma FateStep(s: State, run: seq<Action>, p: WorkerId, tok: Token, snap: Input, v: Verdict, k: nat, n: nat, approved: bool)
    requires n < 5 && k <= 4 && run == RejectedAfter(k, p, v, tok.listing)
    requires AtStage(s, p, tok, snap, v, FateAfter(n, k, approved)) && Qualifies(v, s.threshold)
    ensures |run| == 5
    ensures AtStage(Next(s, run[n]), p, tok, snap, v, FateAfter(n + 1, k, approved)) && Next(s, run[n]).threshold == s.threshold
  {
    ActionAt(n, k, p, v, tok.listing, approved);
    hide Next, AtStage, RejectedAfter;
    if n == k {
      Rejects(s, p, tok, snap, v, FateAfter(n, k, approved));
    } else {
      Advances(s, p, tok, snap, v, FateAfter(n, k, approved));
    }
  }

  lemma {:induction false} FateComes(s: State, p: WorkerId, tok: Token, snap: Input, v: Verdict, k: nat, n: nat)
    requires p in s.workers && s.workers[p] == Evaluating(tok, snap) && tok.listing in s.listings
    requires Qualifies(v, s.threshold) && k <= 4 && n <= 5
    ensures
      var s' := Exec(s, RejectedAfter(k, p, v, tok.listing)[..n]);
      AtStage(s', p, tok, snap, v, FateAfter(n, k, s.listings[tok.listing].approval == Approved)) && s'.threshold == s.threshold
  {
    var run := RejectedAfter(k, p, v, tok.listing);
    if n > 0 {
      FateComes(s, p, tok, snap, v, k, n - 1);
      hide Exec, Next, AtStage, RejectedAfter, FateAfter;
      var mid := Exec(s, run[..n - 1]);
      FateStep(mid, run, p, tok, snap, v, k, n - 1, s.listings[tok.listing].approval == Approved);
      assert run[..n] == run[..n - 1] + [run[n - 1]];
      ExecLast(s, run[..n - 1], run[n - 1]);
    }
  }

  lemma LastFate(k: nat, approved: bool)
    requires k <= 4
    ensures FateAfter(5, k, approved).approved <==> k <= 2 || (k == 3 && !approved)
  {
    assert FateAfter(1, k, approved) == if k == 0 then Fate(0, false) else Fate(1, approved);
    assert FateAfter(2, k, approved) == Fate(if k <= 1 then 1 else 2, if k <= 1 then false else approved);
    assert FateAfter(3, k, approved) == if k <= 2 then Fate(2, false) else Fate(if approved then 5 else 3, approved);
    assert k <= 2 ==> FateAfter(4, k, approved) == Fate(3, false);
    assert k == 3 ==> FateAfter(4, k, approved) == Fate(if approved then 5 else 3, false);
    assert k == 4 ==> FateAfter(4, k, approved).approved;
  }

  /** A rejection during the evaluation is overwritten.  From every state in which a worker holds a
      snapshot, and with a qualifying verdict: if the rejection lands before the worker looks at the
      status, the listing ends APPROVED all the same, because `approveListing` stops at nothing but
      APPROVED; if it lands between the look and the write, it is overwritten too, unless the listing
      was APPROVED when the worker looked; and it stands only after the write. */
  lemma RejectionOverwritten(s: State, p: WorkerId, tok: Token, snap: Input, v: Verdict, k: nat)
    requires p in s.workers && s.workers[p] == Evaluating(tok, snap) && tok.listing in s.listings
    requires Qualifies(v, s.threshold) && k <= 4
    ensures
      var s' := Exec(s, RejectedAfter(k, p, v, tok.listing));
      && tok.listing in s'.listings
      && (s'.listings[tok.listing].approval == Approved <==>
          k <= 2 || (k == 3 && s.listings[tok.listing].approval != Approved))
  {
    var run := RejectedAfter(k, p, v, tok.listing);
    FateComes(s, p, tok, snap, v, k, 5);
    LastFate(k, s.listings[tok.listing].approval == Approved);
    assert run[..5] == run;
  }

  // ----- a notification that fails -----

  lemma LooksUp(s: State, tok: Token, snap: Input)
    requires s.workers == map[1 := Recorded(tok, snap, true)] && tok.listing in s.listings
    requires s.listings[tok.listing].approval != Approved
    ensures Next(s, Work(1, Proceed(""))) == s.(workers := map[1 := Approving(tok, snap)])
  {
  }

  lemma WritesApproved(s: State, tok: Token, snap: Input)
    requires s.workers == map[1 := Approving(tok, snap)] && tok.listing in s.listings && tok.listing !in s.byAdmin
    ensures Next(s, Work(1, Proceed("")))
         == s.(listings := s.listings[tok.listing := s.listings[tok.listing].(approval := Approved)],
               workers := map[1 := Notifying(tok, snap)])
  {
    assert s.byAdmin - {tok.listing} == s.byAdmin;
  }

  lemma NotificationThrows(s: State, tok: Token, snap: Input, error: string)
    requires s.workers == map[1 := Notifying(tok, snap)]
    ensures Next(s, Work(1, Throw(error))) == s.(workers := map[1 := Faulted(tok, snap, Unknown, error)])
  {
  }

  lemma ApprovesWithoutNotice(s: State, tok: Token, snap: Input, error: string)
    requires s.workers == map[1 := Recorded(tok, snap, true)] && tok.listing in s.listings
    requires s.listings[tok.listing].approval != Approved && tok.listing !in s.byAdmin
    ensures
      Exec(s, [Work(1, Proceed("")), Work(1, Proceed("")), Work(1, Throw(error))])
      == s.(listings := s.listings[tok.listing := s.listings[tok.listing].(approval := Approved)],
            workers := map[1 := Faulted(tok, snap, Unknown, error)])
  {
    var l := tok.listing;
    var approving := s.(workers := map[1 := Approving(tok, snap)]);
    var written := s.(listings := s.listings[l := s.listings[l].(approval := Approved)],
                      workers := map[1 := Notifying(tok, snap)]);
    LooksUp(s, tok, snap);
    WritesApproved(approving, tok, snap);
    NotificationThrows(written, tok, snap, error);
    Follow([s, approving, written, written.(workers := map[1 := Faulted(tok, snap, Unknown, error)])],
           [Work(1, Proceed("")), Work(1, Proceed("")), Work(1, Throw(error))]);
  }

  /** An error run need not leave the listing PENDING: when the notification after the approval
      throws, the listing is APPROVED, its log ends with an ERROR row, and its job is FAILED. */
  lemma ApprovedButFailed(threshold: real, content: Input, good: Verdict, error: string) returns (run: seq<Action>)
    requires Qualifies(good, threshold)
    ensures
      var s := Exec(Init(threshold), run);
      && s.listings == map[0 := Listing(content, Approved)] && s.byAdmin == {}
      && 0 in s.jobs && s.jobs[0].status == Failed && s.jobs[0].lastError == Some(error)
      && Log(s, 0) == [SuccessRow(content, good, true), ErrorRow(content, Unknown, error)]
  {
    var tok := Token(0, 0, 1);
    var s0 := Queued(threshold, content);
    OpeningQueues(threshold, content);
    run := Opening(content);

    ClaimsAndLoads(s0, 1, NewJob(0));
    var s1 := s0.(jobs := map[0 := Started(NewJob(0), 0)], workers := map[1 := Evaluating(tok, content)]);
    Chain(threshold, run, s0, [Work(1, Claim(0, 0)), Work(1, Load(""))], s1);
    run := run + [Work(1, Claim(0, 0)), Work(1, Load(""))];

    var rest := JudgedThenFails(s1, tok, content, good, error);
    ExecConcat(Init(threshold), run, rest);
    run := run + rest;
  }

  lemma JudgedThenFails(s: State, tok: Token, snap: Input, good: Verdict, error: string) returns (run: seq<Action>)
    requires s.workers == map[1 := Evaluating(tok, snap)] && Qualifies(good, s.threshold) && s.byAdmin == {}
    requires tok.listing in s.listings && s.listings[tok.listing].approval != Approved
    ensures
      Exec(s, run)
      == s.(listings := s.listings[tok.listing := s.listings[tok.listing].(approval := Approved)],
            audits := s.audits[tok.listing := Log(s, tok.listing) + [SuccessRow(snap, good, true)]
                                              + [ErrorRow(snap, Unknown, error)]],
            jobs := FailRow(s.jobs, tok, error, s.clock), workers := map[])
  {
    hide Exec, Next;
    var l := tok.listing;
    var log := Log(s, l) + [SuccessRow(snap, good, true)];
    Judges(s, 1, tok, snap, good);
    var s1 := s.(audits := s.audits[l := log], workers := map[1 := Recorded(tok, snap, true)]);
    run := [Work(1, Answer(Judgement(good))), Work(1, Proceed(""))];
    assert Exec(s, run) == s1;

    ApprovesWithoutNotice(s1, tok, snap, error);
    var s2 := s1.(listings := s.listings[l := s.listings[l].(approval := Approved)],
                  workers := map[1 := Faulted(tok, snap, Unknown, error)]);
    ExecConcat(s, run, [Work(1, Proceed("")), Work(1, Proceed("")), Work(1, Throw(error))]);
    run := run + [Work(1, Proceed("")), Work(1, Proceed("")), Work(1, Throw(error))];
    assert Exec(s, run) == s2;

    RecordsAndReports(s2, 1, tok, snap, Unknown, error, map[]);
    ExecConcat(s, run, [Work(1, Proceed("")), Work(1, Report(s2.clock))]);
    run := run + [Work(1, Proceed("")), Work(1, Report(s2.clock))];
  }

  // ----- claims that are not one step -----

  /** With the compare-and-set and the re-read apart, an enqueue between them hands its revision to
      the first worker while the row is PENDING, and a second worker claims it: two live tokens for
      one row.  The first counts no attempt, so its retry would use the last entry of the backoff
      table. */
  lemma TwoLiveTokens(threshold: real, content: Input) returns (run: seq<Action>)
    ensures
      var s := Exec(Init(threshold), run);
      && Holds(s, 1, Token(0, 1, 0)) && Current(s.jobs, Token(0, 1, 0)) && Backoff(0) == 60_000
      && Holds(s, 2, Token(0, 1, 1)) && Current(s.jobs, Token(0, 1, 1))
  {
    var s0 := Queued(threshold, content);
    OpeningQueues(threshold, content);
    run := Opening(content);

    var s1 := s0.(requests := map[7 := SawJob(0, false)]);
    Follow([s0, s1], [Serve(7, Rerun(0))]);
    Chain(threshold, run, s0, [Serve(7, Rerun(0))], s1);
    run := run + [Serve(7, Rerun(0))];

    SelectsAndSwaps(s1, 1, NewJob(0));
    var s2 := s1.(jobs := map[0 := Started(NewJob(0), 0)], workers := map[1 := Swapped(0)]);
    Chain(threshold, run, s1, [Work(1, Select(0, 0)), Work(1, CompareAndSwap(0))], s2);
    run := run + [Work(1, Select(0, 0)), Work(1, CompareAndSwap(0))];

    var rest := RerunBetween(s2);
    ExecConcat(Init(threshold), run, rest);
    run := run + rest;
  }

  lemma RerunBetween(s: State) returns (run: seq<Action>)
    requires s.clock == 0 && s.requests == map[7 := SawJob(0, false)] && s.workers == map[1 := Swapped(0)]
    requires s.jobs == map[0 := Started(NewJob(0), 0)]
    ensures Exec(s, run) == s.(requests := map[], jobs := map[0 := Started(Requeued(Started(NewJob(0), 0), 0), 0)],
                               workers := map[1 := Claimed(Token(0, 1, 0)), 2 := Claimed(Token(0, 1, 1))])
  {
    var job := Requeued(Started(NewJob(0), 0), 0);
    var requeued := s.(requests := map[], jobs := map[0 := job]);
    Follow([s, requeued], [Serve(7, EnqueueWrite(0))]);
    var reread := requeued.(workers := map[1 := Claimed(Token(0, 1, 0))]);
    Follow([requeued, reread], [Work(1, Reread)]);
    ExecConcat(s, [Serve(7, EnqueueWrite(0))], [Work(1, Reread)]);
    ClaimsJob(reread, 2, job);
    run := [Serve(7, EnqueueWrite(0))] + [Work(1, Reread)];
    ExecConcat(s, run, [Work(2, Claim(0, 0))]);
    run := run + [Work(2, Claim(0, 0))];
  }

  /** With the select and the compare-and-set apart, a retried job can run before its backoff is over:
      `retry` keeps the revision, and the compare-and-set does not look at `nextRunAt`. */
  lemma EarlyClaim(threshold: real, content: Input) returns (run: seq<Action>)
    ensures
      var s := Exec(Init(threshold), run);
      && WholeRun(threshold, run, 0) && s.clock == 0 && 0 in s.jobs && s.jobs[0].status == Running && s.jobs[0].nextRunAt == 15_000
      && Holds(s, 2, Token(0, 0, 2))
  {
    var s0 := Queued(threshold, content);
    OpeningQueues(threshold, content);
    run := Opening(content);

    var s1 := s0.(workers := map[2 := Selected(0, 0)]);
    Follow([s0, s1], [Work(2, Select(0, 0))]);
    Chain(threshold, run, s0, [Work(2, Select(0, 0))], s1);
    run := run + [Work(2, Select(0, 0))];

    var rest := Attempt(s1, 1, NewJob(0));
    ExecConcat(Init(threshold), run, rest);
    run := run + rest;

    SwapsEarly(Exec(Init(threshold), run));
    ExecConcat(Init(threshold), run, [Work(2, SwapAndReread(0))]);
    run := run + [Work(2, SwapAndReread(0))];
    JoinedIsWhole(threshold, run, 0);
  }

  lemma SwapsEarly(s: State)
    requires s.workers == map[2 := Selected(0, 0)] && CanSwap(s.jobs, 0, 0) && s.jobs[0].attempts == 1
    ensures
      var s' := Exec(s, [Work(2, SwapAndReread(0))]);
      && s'.clock == s.clock && s'.jobs == s.jobs[0 := Started(s.jobs[0], 0)] && Holds(s', 2, Token(0, 0, 2))
  {
    Follow([s, Next(s, Work(2, SwapAndReread(0)))], [Work(2, SwapAndReread(0))]);
  }
}
