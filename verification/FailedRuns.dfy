/** What a run of the workflow that ends in an error has done to its listing: nothing, unless the
    statement that threw was the notification. */
module FailedRuns {
  import opened Options
  import opened JobQueue
  import opened Moderation
  import opened Protocol
  import opened Fencing
  import opened NoLostEdit

  ghost predicate Own(s: State, a: Action, p: WorkerId) {
    a.Work? && a.p == p && Enabled(s, a)
  }

  /** The evaluation that worker `p` is in, or was in last, has written APPROVED. */
  ghost function Wrote(threshold: real, run: seq<Action>, p: WorkerId): bool {
    if run == [] then false
    else
      var prefix, a := run[..|run| - 1], run[|run| - 1];
      var s := Exec(Init(threshold), prefix);
      if Own(s, a, p) && a.work.Load? then false
      else if Own(s, a, p) && a.work.Proceed? && s.workers[p].Approving? && s.workers[p].tok.listing in s.listings then true
      else Wrote(threshold, prefix, p)
  }

  /** No step of worker `p` since its last load has changed any listing. */
  ghost function Untouched(threshold: real, run: seq<Action>, p: WorkerId): bool {
    if run == [] then true
    else
      var prefix, a := run[..|run| - 1], run[|run| - 1];
      var s := Exec(Init(threshold), prefix);
      if Own(s, a, p) && a.work.Load? then true
      else if Own(s, a, p) then Untouched(threshold, prefix, p) && Next(s, a).listings == s.listings
      else Untouched(threshold, prefix, p)
  }

  /** What a phase tells about the evaluation so far. */
  predicate Tells(ph: Phase, wrote: bool) {
    && (ph.InFlight() ==> !wrote)
    && (ph.Notifying? ==> wrote)
    && (ph.Faulted? && ph.failure != Unknown ==> !wrote)
  }

  lemma OwnTells(s: State, p: WorkerId, w: WorkStep, wrote: bool)
    requires WorkEnabled(s, p, w) && (p in s.workers ==> Tells(s.workers[p], wrote))
    ensures
      var s' := Next(s, Work(p, w));
      var wrote' := if w.Load? then false
                    else if w.Proceed? && s.workers[p].Approving? && s.workers[p].tok.listing in s.listings then true
                    else wrote;
      p in s'.workers ==> Tells(s'.workers[p], wrote')
  {
  }

  lemma {:induction false} PhaseTells(threshold: real, run: seq<Action>, p: WorkerId)
    ensures
      var s := Exec(Init(threshold), run);
      p in s.workers ==> Tells(s.workers[p], Wrote(threshold, run, p))
  {
    if run != [] {
      var prefix, a := run[..|run| - 1], run[|run| - 1];
      var s := Exec(Init(threshold), prefix);
      PhaseTells(threshold, prefix, p);
      if Own(s, a, p) {
        OwnTells(s, p, a.work, Wrote(threshold, prefix, p));
      } else {
        PhaseKept(s, a, p);
      }
    }
  }

  lemma FaultKeeps(s: State, p: WorkerId, w: WorkStep)
    requires WorkEnabled(s, p, w) && p in s.workers && !s.workers[p].Faulted?
    requires p in Next(s, Work(p, w)).workers && Next(s, Work(p, w)).workers[p].Faulted?
    ensures s.workers[p].InFlight() || s.workers[p].Notifying?
    ensures !w.Load? && !(w.Proceed? && s.workers[p].Approving? && s.workers[p].tok.listing in s.listings)
  {
  }

  /** Over every run: when a step of a worker ends its evaluation in an error, this evaluation has
      already written APPROVED if and only if what threw was the notification. */
  lemma FaultAfterApproval(threshold: real, run: seq<Action>, p: WorkerId, w: WorkStep)
    requires
      var s := Exec(Init(threshold), run);
      var s' := Next(s, Work(p, w));
      && WorkEnabled(s, p, w) && p in s.workers && !s.workers[p].Faulted?
      && p in s'.workers && s'.workers[p].Faulted?
    ensures Wrote(threshold, run + [Work(p, w)], p) <==> Exec(Init(threshold), run).workers[p].Notifying?
  {
    assert (run + [Work(p, w)])[..|run|] == run;
    PhaseTells(threshold, run, p);
    FaultKeeps(Exec(Init(threshold), run), p, w);
  }

  lemma {:induction false} UnwrittenIsUntouched(threshold: real, run: seq<Action>, p: WorkerId)
    requires !Wrote(threshold, run, p)
    ensures Untouched(threshold, run, p)
  {
    if run != [] {
      var prefix, a := run[..|run| - 1], run[|run| - 1];
      var s := Exec(Init(threshold), prefix);
      if Own(s, a, p) && !a.work.Load? {
        KeepsListings(s, p, a.work);
      }
      if !(Own(s, a, p) && a.work.Load?) {
        UnwrittenIsUntouched(threshold, prefix, p);
      }
    }
  }

  lemma KeepsListings(s: State, p: WorkerId, w: WorkStep)
    requires WorkEnabled(s, p, w)
    requires !(w.Proceed? && s.workers[p].Approving? && s.workers[p].tok.listing in s.listings)
    ensures Next(s, Work(p, w)).listings == s.listings
  {
  }

  /** The worker has nothing under way that could write a listing before its next load. */
  predicate Quiet(s: State, p: WorkerId) {
    p in s.workers ==> !s.workers[p].InFlight() && !s.workers[p].Notifying?
  }

  lemma StaysQuiet(s: State, a: Action, p: WorkerId)
    requires Quiet(s, p) && !(a.Work? && a.p == p && a.work.Load?)
    ensures Quiet(Next(s, a), p)
    ensures Own(s, a, p) ==> Next(s, a).listings == s.listings
  {
    if Own(s, a, p) {
      KeepsListings(s, p, a.work);
    } else {
      PhaseKept(s, a, p);
    }
  }

  /** A timeout, a provider error and an answer that does not parse leave the listing alone: from its
      load to the end of the evaluation, through the ERROR row and the report, and however long the
      run goes on, no step of this worker changes any listing before it loads the next one. */
  lemma {:induction false} FailedAnswerLeavesListings(threshold: real, run: seq<Action>, more: seq<Action>, p: WorkerId)
    requires
      var s := Exec(Init(threshold), run);
      p in s.workers && s.workers[p].Faulted? && s.workers[p].failure != Unknown
    requires forall i :: 0 <= i < |more| ==> !(more[i].Work? && more[i].p == p && more[i].work.Load?)
    ensures Untouched(threshold, run + more, p) && Quiet(Exec(Init(threshold), run + more), p)
  {
    if more == [] {
      assert run + more == run;
      PhaseTells(threshold, run, p);
      UnwrittenIsUntouched(threshold, run, p);
    } else {
      var shorter, a := more[..|more| - 1], more[|more| - 1];
      assert (run + more)[..|run + more| - 1] == run + shorter;
      FailedAnswerLeavesListings(threshold, run, shorter, p);
      StaysQuiet(Exec(Init(threshold), run + shorter), a, p);
    }
  }

  // ----- the ERROR row -----

  /** The worker is about to record its fault, or the row is there and the report follows from it. */
  ghost predicate Recording(s: State, p: WorkerId, fault: Phase)
    requires fault.Faulted?
  {
    || (p in s.workers && s.workers[p] == fault)
    || (&& ErrorRow(fault.snap, fault.failure, fault.message) in Log(s, fault.tok.listing)
        && (p in s.workers && s.workers[p].HasToken() ==>
              s.workers[p].Claimed? || s.workers[p] == Reporting(fault.tok, AfterError(fault.failure, fault.message))))
  }

  predicate Goes(a: Action, p: WorkerId) {
    a.Work? && a.p == p ==> !a.work.Load? && !a.work.Throw? && !a.work.Crash?
  }

  lemma StepRecording(s: State, a: Action, p: WorkerId, fault: Phase)
    requires TablesSound(s) && fault.Faulted? && Recording(s, p, fault) && Goes(a, p)
    requires fault.tok.listing in s.listings && fault.tok.listing in Next(s, a).listings
    ensures Recording(Next(s, a), p, fault)
  {
    LogKept(s, a, fault.tok.listing);
    if Own(s, a, p) {
      OwnRecording(s, p, a.work, fault);
    } else {
      PhaseKept(s, a, p);
    }
  }

  lemma OwnRecording(s: State, p: WorkerId, w: WorkStep, fault: Phase)
    requires WorkEnabled(s, p, w) && fault.Faulted? && Recording(s, p, fault) && Goes(Work(p, w), p)
    requires fault.tok.listing in s.listings && Log(s, fault.tok.listing) <= Log(Next(s, Work(p, w)), fault.tok.listing)
    ensures Recording(Next(s, Work(p, w)), p, fault)
  {
  }

  /** The audit says so: after an evaluation has ended in an error, and unless one of its statements
      throws, the worker reports only once the ERROR row for its snapshot is in the log, and it asks for
      a retry after TIMEOUT and PROVIDER and for failure after any other; the row stays for as long as
      the listing does, however the run goes on. */
  lemma {:induction false} FaultIsRecorded(threshold: real, run: seq<Action>, more: seq<Action>, p: WorkerId, fault: Phase)
    requires fault.Faulted?
    requires p in Exec(Init(threshold), run).workers && Exec(Init(threshold), run).workers[p] == fault
    requires forall i :: 0 <= i < |more| ==> Goes(more[i], p)
    requires fault.tok.listing in Exec(Init(threshold), run + more).listings
    ensures
      var s := Exec(Init(threshold), run + more);
      || (p in s.workers && s.workers[p] == fault)
      || (&& ErrorRow(fault.snap, fault.failure, fault.message) in Log(s, fault.tok.listing)
          && (p in s.workers && s.workers[p].Reporting? ==>
                s.workers[p].report == if fault.failure in {Timeout, Provider} then ReportRetry(fault.message)
                                       else ReportFail(fault.message)))
  {
    RecordingKept(threshold, run, more, p, fault);
  }

  lemma {:induction false} RecordingKept(threshold: real, run: seq<Action>, more: seq<Action>, p: WorkerId, fault: Phase)
    requires fault.Faulted?
    requires p in Exec(Init(threshold), run).workers && Exec(Init(threshold), run).workers[p] == fault
    requires forall i :: 0 <= i < |more| ==> Goes(more[i], p)
    requires fault.tok.listing in Exec(Init(threshold), run + more).listings
    ensures Recording(Exec(Init(threshold), run + more), p, fault)
  {
    if more == [] {
      assert run + more == run;
    } else {
      var shorter, a := more[..|more| - 1], more[|more| - 1];
      assert (run + more)[..|run + more| - 1] == run + shorter;
      var s := Exec(Init(threshold), run + shorter);
      RunSound(threshold, run + shorter);
      StepGrows(s, a);
      FaultListing(threshold, run, shorter, p, fault);
      RecordingKept(threshold, run, shorter, p, fault);
      StepRecording(s, a, p, fault);
    }
  }

  /** The listing of a token has existed, so it is not created anew. */
  lemma FaultListing(threshold: real, run: seq<Action>, more: seq<Action>, p: WorkerId, fault: Phase)
    requires fault.Faulted?
    requires p in Exec(Init(threshold), run).workers && Exec(Init(threshold), run).workers[p] == fault
    ensures fault.tok.listing in Exec(Init(threshold), run + more).used
  {
    RunSound(threshold, run);
    assert Holds(Exec(Init(threshold), run), p, fault.tok);
    ExecConcat(Init(threshold), run, more);
    RunGrows(Exec(Init(threshold), run), more);
  }
}
