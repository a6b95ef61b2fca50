/** What stands behind every APPROVED listing, and exactly which edits take it away. */
module Approval {
  import opened Options
  import opened JobQueue
  import opened Moderation
  import opened Protocol
  import opened Fencing
  import opened NoLostEdit

  /** A SUCCESS row for this content that met every condition of auto-approval. */
  predicate Grounds(row: AuditRow, input: Input, threshold: real) {
    && row.SuccessRow? && row.input == input && row.applied
    && row.verdict.risk == Low && row.verdict.confidence >= threshold && row.verdict.violations == []
    && row.verdict.recommendation == Approve
  }

  ghost predicate HasGrounds(s: State, l: ListingId, input: Input) {
    exists row :: row in Log(s, l) && Grounds(row, input, s.threshold)
  }

  /** The worker has decided to approve. */
  predicate WillApprove(ph: Phase) {
    (ph.Recorded? && ph.approve) || ph.Approving? || ph.Notifying?
  }

  ghost predicate Grounded(s: State) {
    forall p | p in s.workers && WillApprove(s.workers[p]) && s.workers[p].tok.listing in s.listings
      :: HasGrounds(s, s.workers[p].tok.listing, s.workers[p].snap)
  }

  lemma GroundsKept(s: State, a: Action, l: ListingId, input: Input)
    requires HasGrounds(s, l, input) && l in Next(s, a).listings
    ensures HasGrounds(Next(s, a), l, input)
  {
    LogKept(s, a, l);
    var row :| row in Log(s, l) && Grounds(row, input, s.threshold);
    assert row in Log(Next(s, a), l) && Grounds(row, input, Next(s, a).threshold);
  }

  lemma MoveDecision(s: State, p: WorkerId, w: WorkStep)
    requires WorkEnabled(s, p, w)
    requires WorkMove(s, p, w).next.Some? && WillApprove(WorkMove(s, p, w).next.value)
    ensures
      var ph' := WorkMove(s, p, w).next.value;
      && p in s.workers && s.workers[p].HasToken() && s.workers[p].tok == ph'.tok
      && (|| (WillApprove(s.workers[p]) && s.workers[p].snap == ph'.snap)
          || (WorkMove(s, p, w).write.AppendAudit? && WorkMove(s, p, w).write.l == ph'.tok.listing
              && Grounds(WorkMove(s, p, w).write.row, ph'.snap, s.threshold)))
  {
  }

  /** A worker decides to approve only in the statement that records the grounds. */
  lemma DecisionOrigin(s: State, a: Action, p: WorkerId)
    requires p in Next(s, a).workers && WillApprove(Next(s, a).workers[p])
    ensures
      var ph' := Next(s, a).workers[p];
      || (p in s.workers && WillApprove(s.workers[p]) && s.workers[p].tok == ph'.tok && s.workers[p].snap == ph'.snap)
      || HasGrounds(Next(s, a), ph'.tok.listing, ph'.snap)
  {
    if a.Work? && Enabled(s, a) && a.p == p {
      MoveDecision(s, p, a.work);
      var write := WorkMove(s, p, a.work).write;
      if write.AppendAudit? {
        assert write.row in Log(Next(s, a), write.l);
      }
    } else {
      PhaseKept(s, a, p);
    }
  }

  lemma StepGrounded(s: State, a: Action)
    requires Sound(s) && Grounded(s)
    ensures Grounded(Next(s, a))
  {
    var s' := Next(s, a);
    forall p | p in s'.workers && WillApprove(s'.workers[p]) && s'.workers[p].tok.listing in s'.listings
      ensures HasGrounds(s', s'.workers[p].tok.listing, s'.workers[p].snap)
    {
      var l, snap := s'.workers[p].tok.listing, s'.workers[p].snap;
      DecisionOrigin(s, a, p);
      if !HasGrounds(s', l, snap) {
        assert Holds(s, p, s.workers[p].tok);
        StepGrows(s, a);
        GroundsKept(s, a, l, snap);
      }
    }
  }

  lemma {:induction false} RunGrounded(threshold: real, run: seq<Action>)
    ensures Grounded(Exec(Init(threshold), run)) && Exec(Init(threshold), run).threshold == threshold
  {
    if run != [] {
      var mid := Exec(Init(threshold), run[..|run| - 1]);
      RunGrounded(threshold, run[..|run| - 1]);
      RunSound(threshold, run[..|run| - 1]);
      StepGrounded(mid, run[|run| - 1]);
      StepGrows(mid, run[|run| - 1]);
    }
  }

  /** Evidence for every auto-approval, in all interleavings: if a step of a worker changes the
      approval of a listing at all, it changes it to APPROVED, and the log of that listing already
      holds a SUCCESS row with LOW risk, enough confidence, no violation and APPROVE, for the very
      snapshot this worker loaded.  No step of a worker writes PENDING or REJECTED. */
  lemma EvidenceForApproval(threshold: real, run: seq<Action>, p: WorkerId, w: WorkStep, l: ListingId)
    requires l in Exec(Init(threshold), run).listings
    ensures
      var s := Exec(Init(threshold), run);
      var s' := Next(s, Work(p, w));
      && l in s'.listings
      && (s'.listings[l].approval != s.listings[l].approval ==>
            && s'.listings[l].approval == Approved
            && p in s.workers && s.workers[p].Approving? && s.workers[p].tok.listing == l
            && exists row :: row in Log(s, l)
                 && row.SuccessRow? && row.input == s.workers[p].snap && row.applied
                 && row.verdict.risk == Low && row.verdict.confidence >= threshold && row.verdict.violations == []
                 && row.verdict.recommendation == Approve)
  {
    var s := Exec(Init(threshold), run);
    RunGrounded(threshold, run);
    if WorkEnabled(s, p, w) {
      WorkKeepsContent(s, p, w);
      if Next(s, Work(p, w)).listings[l].approval != s.listings[l].approval {
        ApprovalWrite(s, p, w, l);
      }
    }
  }

  lemma ApprovalWrite(s: State, p: WorkerId, w: WorkStep, l: ListingId)
    requires WorkEnabled(s, p, w) && l in s.listings && l in Next(s, Work(p, w)).listings
    requires Next(s, Work(p, w)).listings[l] != s.listings[l]
    ensures w.Proceed? && s.workers[p].Approving? && s.workers[p].tok.listing == l
    ensures Next(s, Work(p, w)).listings[l] == s.listings[l].(approval := Approved)
  {
  }

  // ----- approved content -----

  /** The worker may come to write APPROVED. */
  predicate MayApprove(ph: Phase, threshold: real) {
    || ph.Evaluating?
    || (ph.Judged? && Qualifies(ph.verdict, threshold))
    || (ph.Recorded? && ph.approve)
    || ph.Approving?
  }

  predicate MayApproveListing(s: State, p: WorkerId, l: ListingId) {
    p in s.workers && MayApprove(s.workers[p], s.threshold) && s.workers[p].tok.listing == l
  }

  ghost predicate Justified(s: State, l: ListingId) {
    (l in s.listings && s.listings[l].approval == Approved && l !in s.byAdmin) ==>
      HasGrounds(s, l, s.listings[l].content)
  }

  /** The listing is justified, and so is any approval that is under way. */
  ghost predicate Cleared(s: State, l: ListingId) {
    && Justified(s, l)
    && forall p | MayApproveListing(s, p, l) && l in s.listings ::
         s.workers[p].snap == s.listings[l].content || HasGrounds(s, l, s.listings[l].content)
  }

  /** If the step writes an edit of `l`: the new content has been cleared before, or an approval by
      the workflow is taken back and every worker that may still approve has looked at just that
      content. */
  ghost predicate Clears(s: State, a: Action, l: ListingId) {
    WritesContent(s, a, l) ==>
      var content := Written(s.listings[l].content, a.client.edit);
      || HasGrounds(s, l, content)
      || ((s.listings[l].approval == Approved && l !in s.byAdmin ==> Remoderates(s.requests[a.c].read, a.client.edit))
          && forall p | MayApproveListing(s, p, l) :: s.workers[p].snap == content)
  }

  ghost predicate ClearedFrom(s: State, run: seq<Action>, l: ListingId) {
    forall i :: 0 <= i < |run| ==> Clears(Exec(s, run[..i]), run[i], l)
  }

  lemma ClearedPrefix(s: State, prefix: seq<Action>, a: Action, l: ListingId)
    requires ClearedFrom(s, prefix + [a], l)
    ensures ClearedFrom(s, prefix, l) && Clears(Exec(s, prefix), a, l)
  {
    var run := prefix + [a];
    forall i | 0 <= i < |prefix|
      ensures Clears(Exec(s, prefix[..i]), prefix[i], l)
    {
      assert run[..i] == prefix[..i] && run[i] == prefix[i];
    }
    assert run[..|prefix|] == prefix && run[|prefix|] == a;
  }

  // ----- one step -----

  lemma MoveMayApprove(s: State, p: WorkerId, w: WorkStep)
    requires WorkEnabled(s, p, w)
    requires WorkMove(s, p, w).next.Some? && MayApprove(WorkMove(s, p, w).next.value, s.threshold)
    ensures
      var ph' := WorkMove(s, p, w).next.value;
      || (p in s.workers && MayApprove(s.workers[p], s.threshold)
          && s.workers[p].tok == ph'.tok && s.workers[p].snap == ph'.snap)
      || (ph'.tok.listing in s.listings && WorkMove(s, p, w).write == Nothing
          && ph'.snap == s.listings[ph'.tok.listing].content)
  {
  }

  lemma MayApproveOrigin(s: State, a: Action, p: WorkerId, l: ListingId)
    requires MayApproveListing(Next(s, a), p, l) && Next(s, a).threshold == s.threshold
    ensures
      var ph' := Next(s, a).workers[p];
      || (MayApproveListing(s, p, l) && s.workers[p].tok == ph'.tok && s.workers[p].snap == ph'.snap)
      || (l in s.listings && Next(s, a).listings == s.listings && ph'.snap == s.listings[l].content)
  {
    if a.Work? && Enabled(s, a) && a.p == p {
      MoveMayApprove(s, p, a.work);
    } else {
      PhaseKept(s, a, p);
    }
  }

  /** A worker's step leaves a listing justified. */
  lemma WorkJustified(s: State, p: WorkerId, w: WorkStep, l: ListingId)
    requires Grounded(s) && WorkEnabled(s, p, w) && Cleared(s, l)
    ensures Justified(Next(s, Work(p, w)), l)
  {
    var s' := Next(s, Work(p, w));
    WorkKeepsContent(s, p, w);
    if l in s.listings {
      if HasGrounds(s, l, s.listings[l].content) {
        GroundsKept(s, Work(p, w), l, s.listings[l].content);
      } else if s'.listings[l] != s.listings[l] {
        ApprovalWrite(s, p, w, l);
        assert MayApproveListing(s, p, l);
      } else {
        ByAdminKept(s, p, w, l);
        if w.Proceed? && s.workers[p].Approving? && s.workers[p].tok.listing == l {
          assert MayApproveListing(s, p, l);
        }
      }
    }
  }

  lemma ByAdminKept(s: State, p: WorkerId, w: WorkStep, l: ListingId)
    requires WorkEnabled(s, p, w)
    ensures l in s.byAdmin ==>
              l in Next(s, Work(p, w)).byAdmin
              || (w.Proceed? && s.workers[p].Approving? && s.workers[p].tok.listing == l && l in s.listings)
  {
  }

  /** A step of somebody else leaves an APPROVED listing as it was, unless it writes the content or
      is an administrator's. */
  lemma OtherApproved(s: State, a: Action, l: ListingId)
    requires TablesSound(s) && !(a.Work? && Enabled(s, a)) && !WritesContent(s, a, l)
    requires l in Next(s, a).listings && Next(s, a).listings[l].approval == Approved && l !in Next(s, a).byAdmin
    ensures l in s.listings && s.listings[l] == Next(s, a).listings[l] && l !in s.byAdmin
  {
    if a.Serve? && Enabled(s, a) {
      ServeApproved(s, a.c, a.client, l);
    }
  }

  lemma ServeApproved(s: State, c: ClientId, step: ClientStep, l: ListingId)
    requires TablesSound(s) && ServeEnabled(s, c, step) && !(step.WriteEdit? && s.requests[c].listing == l)
    requires l in Next(s, Serve(c, step)).listings && Next(s, Serve(c, step)).listings[l].approval == Approved
    ensures l in s.listings && s.listings[l] == Next(s, Serve(c, step)).listings[l]
    ensures l in s.byAdmin ==> l in Next(s, Serve(c, step)).byAdmin
  {
  }

  lemma KeepsCleared(s: State, a: Action, l: ListingId)
    requires Sound(s) && Grounded(s) && Cleared(s, l) && !WritesContent(s, a, l)
    ensures Cleared(Next(s, a), l)
  {
    var s' := Next(s, a);
    StepGrows(s, a);
    if l in s'.listings {
      if a.Work? && Enabled(s, a) {
        WorkJustified(s, a.p, a.work, l);
      } else if s'.listings[l].approval == Approved && l !in s'.byAdmin {
        OtherApproved(s, a, l);
        GroundsKept(s, a, l, s.listings[l].content);
      }
      forall p | MayApproveListing(s', p, l)
        ensures s'.workers[p].snap == s'.listings[l].content || HasGrounds(s', l, s'.listings[l].content)
      {
        MayApproveOrigin(s, a, p, l);
        KeepsClearance(s, a, p, l);
      }
    }
  }

  lemma KeepsClearance(s: State, a: Action, p: WorkerId, l: ListingId)
    requires Sound(s) && Cleared(s, l) && !WritesContent(s, a, l) && l in Next(s, a).listings
    requires Grows(s, Next(s, a)) && MayApproveListing(Next(s, a), p, l)
    requires
      var ph' := Next(s, a).workers[p];
      || (MayApproveListing(s, p, l) && s.workers[p].tok == ph'.tok && s.workers[p].snap == ph'.snap)
      || (l in s.listings && Next(s, a).listings == s.listings && ph'.snap == s.listings[l].content)
    ensures
      var s' := Next(s, a);
      s'.workers[p].snap == s'.listings[l].content || HasGrounds(s', l, s'.listings[l].content)
  {
    if MayApproveListing(s, p, l) {
      assert Holds(s, p, s.workers[p].tok);
      ContentAfter(s, a, l);
      if HasGrounds(s, l, s.listings[l].content) {
        GroundsKept(s, a, l, s.listings[l].content);
      }
    }
  }

  /** What the write of an edit does to the approval. */
  lemma WriteApproval(s: State, a: Action, l: ListingId)
    requires WritesContent(s, a, l)
    ensures
      var s' := Next(s, a);
      && l in s'.listings && s'.audits == s.audits && s'.workers == s.workers && s'.threshold == s.threshold
      && s'.listings[l].content == Written(s.listings[l].content, a.client.edit)
      && (if Remoderates(s.requests[a.c].read, a.client.edit) then s'.listings[l].approval == AwaitingReview
          else s'.listings[l].approval == s.listings[l].approval && (l in s'.byAdmin <==> l in s.byAdmin))
  {
  }

  lemma WriteClears(s: State, a: Action, l: ListingId)
    requires WritesContent(s, a, l) && l in Next(s, a).listings
    requires
      var s' := Next(s, a);
      && s'.audits == s.audits && s'.workers == s.workers && s'.threshold == s.threshold
      && s'.listings[l].content == Written(s.listings[l].content, a.client.edit)
      && (if Remoderates(s.requests[a.c].read, a.client.edit) then s'.listings[l].approval == AwaitingReview
          else s'.listings[l].approval == s.listings[l].approval && (l in s'.byAdmin <==> l in s.byAdmin))
    ensures Cleared(Next(s, a), l) <==> Clears(s, a, l)
  {
    var s' := Next(s, a);
    var content := s'.listings[l].content;
    assert HasGrounds(s', l, content) <==> HasGrounds(s, l, content);
    assert forall p :: MayApproveListing(s', p, l) <==> MayApproveListing(s, p, l);
  }

  /** The condition is exact: a step keeps a listing and its approvals under way cleared if and only
      if it clears what it writes. */
  lemma ClearsExactly(s: State, a: Action, l: ListingId)
    requires Sound(s) && Grounded(s) && Cleared(s, l)
    ensures Cleared(Next(s, a), l) <==> Clears(s, a, l)
  {
    if WritesContent(s, a, l) {
      WriteApproval(s, a, l);
      WriteClears(s, a, l);
    } else {
      KeepsCleared(s, a, l);
    }
  }

  // ----- runs -----

  lemma {:induction false} RunCleared(s: State, run: seq<Action>, l: ListingId)
    requires Sound(s) && Grounded(s) && Cleared(s, l) && ClearedFrom(s, run, l)
    ensures Sound(Exec(s, run)) && Grounded(Exec(s, run)) && Cleared(Exec(s, run), l)
  {
    if run != [] {
      var prefix, a := run[..|run| - 1], run[|run| - 1];
      assert prefix + [a] == run;
      ClearedPrefix(s, prefix, a, l);
      RunCleared(s, prefix, l);
      StepSound(Exec(s, prefix), a);
      StepGrounded(Exec(s, prefix), a);
      ClearsExactly(Exec(s, prefix), a, l);
    }
  }

  /** Approved content: over every run whose edits of a listing clear what they write, the listing, if
      it is APPROVED and no administrator approved it, has qualifying evidence for its present
      content. */
  lemma ApprovedContent(threshold: real, run: seq<Action>, l: ListingId)
    requires ClearedFrom(Init(threshold), run, l)
    ensures
      var s := Exec(Init(threshold), run);
      l in s.listings && s.listings[l].approval == Approved && l !in s.byAdmin ==>
        exists row :: row in Log(s, l)
          && row.SuccessRow? && row.input == s.listings[l].content && row.applied
          && row.verdict.risk == Low && row.verdict.confidence >= threshold && row.verdict.violations == []
          && row.verdict.recommendation == Approve
  {
    RunGrounded(threshold, run);
    RunCleared(Init(threshold), run, l);
  }

  // ----- edits apart from evaluations -----

  /** The edit decides on the content that it overwrites, and if it changes that, no worker is between
      the load of the listing and its approval. */
  ghost predicate Apart(s: State, a: Action, l: ListingId) {
    && Undivided(s, a, l)
    && (WritesContent(s, a, l) && Written(s.listings[l].content, a.client.edit) != s.listings[l].content ==>
          forall p :: !MayApproveListing(s, p, l))
  }

  ghost predicate ApartRun(threshold: real, run: seq<Action>, l: ListingId) {
    forall i :: 0 <= i < |run| ==> Apart(Exec(Init(threshold), run[..i]), run[i], l)
  }

  lemma ApartClears(s: State, a: Action, l: ListingId)
    requires Cleared(s, l) && Apart(s, a, l)
    ensures Clears(s, a, l)
  {
  }

  lemma ApartPrefix(threshold: real, prefix: seq<Action>, a: Action, l: ListingId)
    requires ApartRun(threshold, prefix + [a], l)
    ensures ApartRun(threshold, prefix, l) && Apart(Exec(Init(threshold), prefix), a, l)
  {
    var run := prefix + [a];
    forall i | 0 <= i < |prefix|
      ensures Apart(Exec(Init(threshold), prefix[..i]), prefix[i], l)
    {
      assert run[..i] == prefix[..i] && run[i] == prefix[i];
    }
    assert run[..|prefix|] == prefix && run[|prefix|] == a;
  }

  lemma ClearedAppend(s: State, prefix: seq<Action>, a: Action, l: ListingId)
    requires ClearedFrom(s, prefix, l) && Clears(Exec(s, prefix), a, l)
    ensures ClearedFrom(s, prefix + [a], l)
  {
    var run := prefix + [a];
    forall i | 0 <= i < |run|
      ensures Clears(Exec(s, run[..i]), run[i], l)
    {
      if i < |prefix| {
        assert run[..i] == prefix[..i] && run[i] == prefix[i];
      } else {
        assert run[..i] == prefix;
      }
    }
  }

  /** Runs whose edits stay apart from the evaluations of the listing meet the condition. */
  lemma {:induction false} EditsApartClear(threshold: real, run: seq<Action>, l: ListingId)
    requires ApartRun(threshold, run, l)
    ensures ClearedFrom(Init(threshold), run, l)
  {
    if run != [] {
      var prefix, a := run[..|run| - 1], run[|run| - 1];
      assert prefix + [a] == run;
      ApartPrefix(threshold, prefix, a, l);
      EditsApartClear(threshold, prefix, l);
      RunCleared(Init(threshold), prefix, l);
      ApartClears(Exec(Init(threshold), prefix), a, l);
      ClearedAppend(Init(threshold), prefix, a, l);
    }
  }

  // ----- an edit that does not clear what it writes -----

  function Convinced(threshold: real): Verdict {
    Verdict(Low, threshold, [], Approve)
  }

  /** The worker's next step towards approval, if nothing throws. */
  function Upward(ph: Phase, threshold: real): WorkStep {
    if ph.Evaluating? then Answer(Judgement(Convinced(threshold))) else Proceed("")
  }

  lemma GoesOn(s: State, p: WorkerId, l: ListingId)
    requires MayApproveListing(s, p, l) && !s.workers[p].Approving?
    requires l in s.listings && s.listings[l].approval != Approved
    ensures
      var s' := Next(s, Work(p, Upward(s.workers[p], s.threshold)));
      && MayApproveListing(s', p, l) && s'.workers[p].snap == s.workers[p].snap
      && StepsLeft(s'.workers[p]) < StepsLeft(s.workers[p])
      && s'.listings == s.listings && s'.byAdmin == s.byAdmin && s'.threshold == s.threshold
  {
  }

  lemma UpwardLog(s: State, p: WorkerId, l: ListingId)
    requires MayApproveListing(s, p, l) && l in s.listings
    ensures
      var s' := Next(s, Work(p, Upward(s.workers[p], s.threshold)));
      || Log(s', l) == Log(s, l)
      || (s.workers[p].Judged? && Log(s', l) == Log(s, l) + [SuccessRow(s.workers[p].snap, s.workers[p].verdict, true)])
  {
  }

  lemma NoNewGrounds(s: State, p: WorkerId, l: ListingId, input: Input)
    requires MayApproveListing(s, p, l) && l in s.listings && input != s.workers[p].snap
    requires HasGrounds(Next(s, Work(p, Upward(s.workers[p], s.threshold))), l, input)
    ensures HasGrounds(s, l, input)
  {
    var s' := Next(s, Work(p, Upward(s.workers[p], s.threshold)));
    UpwardLog(s, p, l);
    var row :| row in Log(s', l) && Grounds(row, input, s'.threshold);
    assert row in Log(s, l);
  }

  /** Left to itself, a worker approves content it has never seen. */
  lemma {:induction false} StaleApproval(s: State, p: WorkerId, l: ListingId) returns (rest: seq<Action>)
    requires MayApproveListing(s, p, l) && l in s.listings && s.listings[l].approval != Approved
    requires s.workers[p].snap != s.listings[l].content && !HasGrounds(s, l, s.listings[l].content)
    ensures forall a :: a in rest ==> a.Work?
    ensures !Justified(Exec(s, rest), l)
    decreases StepsLeft(s.workers[p])
  {
    var a := Work(p, Upward(s.workers[p], s.threshold));
    assert [a][..0] == [];
    assert Exec(s, [a]) == Next(s, a);
    if HasGrounds(Next(s, a), l, s.listings[l].content) {
      NoNewGrounds(s, p, l, s.listings[l].content);
    }
    if s.workers[p].Approving? {
      rest := [a];
      ApprovalStep(s, p, "");
    } else {
      GoesOn(s, p, l);
      var more := StaleApproval(Next(s, a), p, l);
      rest := [a] + more;
      ExecConcat(s, [a], more);
    }
  }

  lemma ApprovalStep(s: State, p: WorkerId, error: string)
    requires p in s.workers && s.workers[p].Approving? && s.workers[p].tok.listing in s.listings
    ensures
      var l := s.workers[p].tok.listing;
      var s' := Next(s, Work(p, Proceed(error)));
      && s'.listings == s.listings[l := s.listings[l].(approval := Approved)] && s'.byAdmin == s.byAdmin - {l}
      && Log(s', l) == Log(s, l) && s'.threshold == s.threshold
  {
  }

  /** A single write of APPROVED, with no condition on the run: if the worker has looked at the present
      content, the log already holds qualifying evidence for what is now APPROVED. */
  lemma ApprovalWorth(threshold: real, run: seq<Action>, p: WorkerId, error: string)
    requires
      var s := Exec(Init(threshold), run);
      && p in s.workers && s.workers[p].Approving? && s.workers[p].tok.listing in s.listings
      && s.workers[p].snap == s.listings[s.workers[p].tok.listing].content
    ensures
      var s := Exec(Init(threshold), run);
      var l := s.workers[p].tok.listing;
      var s' := Next(s, Work(p, Proceed(error)));
      && l in s'.listings && s'.listings[l].approval == Approved && l !in s'.byAdmin
      && exists row :: row in Log(s, l)
           && row.SuccessRow? && row.input == s'.listings[l].content && row.applied
           && row.verdict.risk == Low && row.verdict.confidence >= threshold && row.verdict.violations == []
           && row.verdict.recommendation == Approve
  {
    RunGrounded(threshold, run);
    ApprovalStep(Exec(Init(threshold), run), p, error);
  }

  lemma RejectionFirst(s: State, l: ListingId)
    requires l in s.listings
    ensures
      var s' := Next(s, AdminReject(l));
      && l in s'.listings && s'.listings[l] == s.listings[l].(approval := Rejected)
      && s'.workers == s.workers && s'.audits == s.audits && s'.threshold == s.threshold
  {
  }

  lemma Unjustifies(s: State, a: Action, l: ListingId) returns (rest: seq<Action>)
    requires !Clears(s, a, l)
    ensures forall b :: b in rest ==> !b.Serve?
    ensures !Justified(Exec(Next(s, a), rest), l)
  {
    var s' := Next(s, a);
    WriteApproval(s, a, l);
    var content := s'.listings[l].content;
    assert HasGrounds(s', l, content) <==> HasGrounds(s, l, content);
    rest := [];
    if Justified(s', l) {
      var p :| MayApproveListing(s, p, l) && s.workers[p].snap != content;
      var rejected := Next(s', AdminReject(l));
      RejectionFirst(s', l);
      assert HasGrounds(rejected, l, content) <==> HasGrounds(s', l, content);
      rest := StaleApproval(rejected, p, l);
      ExecConcat(s', [AdminReject(l)], rest);
      assert [AdminReject(l)][..0] == [];
      assert Exec(s', [AdminReject(l)]) == rejected;
      rest := [AdminReject(l)] + rest;
    }
  }

  /** What the condition is worth: an edit clears what it writes if and only if, on every continuation
      whose edits do so too, the listing is never APPROVED without evidence or an administrator. */
  lemma UnclearedWriteApproved(threshold: real, run: seq<Action>, a: Action, l: ListingId)
    requires ClearedFrom(Init(threshold), run, l)
    ensures
      var s := Exec(Init(threshold), run);
      Clears(s, a, l) <==>
      forall rest :: ClearedFrom(Next(s, a), rest, l) ==> Justified(Exec(Next(s, a), rest), l)
  {
    var s := Exec(Init(threshold), run);
    RunCleared(Init(threshold), run, l);
    ClearsExactly(s, a, l);
    StepSound(s, a);
    StepGrounded(s, a);
    if Clears(s, a, l) {
      forall rest | ClearedFrom(Next(s, a), rest, l)
        ensures Justified(Exec(Next(s, a), rest), l)
      {
        RunCleared(Next(s, a), rest, l);
      }
    } else {
      var rest := Unjustifies(s, a, l);
      assert ClearedFrom(Next(s, a), rest, l);
    }
  }
}
