/**
 The moderation queue and everything around it as one transition system.  A state holds the
 database (listings, job rows, audit rows), the clock, and the program counters of the running
 worker loops and HTTP requests.  An action is one committed database statement of one of them, a
 statement that throws, a verdict of the AI service, a crash, or the passing of time; any number of
 processes interleave freely.  A run is any sequence of actions: an action that is not enabled
 leaves the state alone, so every sequence is a run.
 */
module Protocol {
  import opened Options
  import opened JobQueue
  import opened Moderation

  type WorkerId = nat
  type ClientId = nat

  datatype ApprovalStatus = AwaitingReview | Approved | Rejected

  datatype Listing = Listing(content: Input, approval: ApprovalStatus)

  /** What the worker calls on the queue once `runForListing` has returned or thrown. */
  datatype Report =
    | ReportComplete(judged: Input)
    | ReportFail(message: string)
    | ReportRetry(message: string)

  /** Where a worker loop stands. A worker that is not in the table is between two claims. */
  datatype Phase =
    | Selected(candidate: ListingId, revision: nat)
    | Swapped(candidate: ListingId)
    | Claimed(tok: Token)
    | Evaluating(tok: Token, snap: Input)
    | Judged(tok: Token, snap: Input, verdict: Verdict)
    | Recorded(tok: Token, snap: Input, approve: bool)
    | Approving(tok: Token, snap: Input)
    | Notifying(tok: Token, snap: Input)
    | Faulted(tok: Token, snap: Input, failure: Failure, message: string)
    | Reporting(tok: Token, report: Report)
  {
    predicate HasToken() {
      !Selected? && !Swapped?
    }

    /** From the load of the snapshot to the write of APPROVED. */
    predicate InFlight() {
      Evaluating? || Judged? || Recorded? || Approving?
    }
  }

  /** Where a request of a seller (`edit`) or of an administrator's rerun stands. */
  datatype Request =
    | EditRead(listing: ListingId, read: Input)
    | EditWritten(listing: ListingId)
    | SawJob(listing: ListingId, edit: bool)
    | SawNoJob(listing: ListingId, edit: bool)

  datatype WorkStep =
    | Select(l: ListingId, at: nat)
    | SelectNothing(at: nat)
    | CompareAndSwap(at: nat)
    | Reread
    | SwapAndReread(at: nat)
    | Claim(l: ListingId, at: nat)
    | Load(error: string)
    | Answer(evaluation: Evaluation)
    | Proceed(error: string)
    | Throw(error: string)
    | Report(at: nat)
    | Crash

  datatype ClientStep =
    | Create(l: ListingId, content: Input)
    | BeginEdit(l: ListingId)
    | WriteEdit(edit: Edit)
    | EnqueueRead
    | EnqueueWrite(at: nat)
    | Rerun(l: ListingId)
    | Abandon

  datatype Action =
    | Tick(ms: nat)
    | Recover(at: nat)
    | Work(p: WorkerId, work: WorkStep)
    | Serve(c: ClientId, client: ClientStep)
    | AdminApprove(l: ListingId)
    | AdminReject(l: ListingId)
    | Remove(l: ListingId)

  /** `used` are the listing ids ever handed out; `byAdmin` the listings whose APPROVED was last
      written by an administrator.  Neither is read by any step. */
  datatype State = State(
    threshold: real,
    clock: nat,
    used: set<ListingId>,
    listings: map<ListingId, Listing>,
    jobs: Jobs,
    audits: map<ListingId, seq<AuditRow>>,
    byAdmin: set<ListingId>,
    workers: map<WorkerId, Phase>,
    requests: map<ClientId, Request>
  )

  function Init(threshold: real): State {
    State(threshold, 0, {}, map[], map[], map[], {}, map[], map[])
  }

  function Log(s: State, l: ListingId): seq<AuditRow> {
    if l in s.audits then s.audits[l] else []
  }

  function Row(s: State, l: ListingId): Option<Listing> {
    if l in s.listings then Some(s.listings[l]) else None
  }

  // ----- writes -----

  /** What one committed statement or transaction changes in the database. */
  datatype Write =
    | Nothing
    | SetJobs(jobs: Jobs)
    | AppendAudit(l: ListingId, row: AuditRow)
    | Insert(l: ListingId, content: Input)
    | SetContent(l: ListingId, content: Input)
    | SetListing(l: ListingId, listing: Listing, admin: bool)
    | Delete(l: ListingId)

  function Perform(s: State, w: Write): State {
    match w
    case Nothing => s
    case SetJobs(jobs) => s.(jobs := jobs)
    case AppendAudit(l, row) => s.(audits := s.audits[l := Log(s, l) + [row]])
    case Insert(l, content) => s.(used := s.used + {l}, listings := s.listings[l := Listing(content, AwaitingReview)])
    case SetContent(l, content) =>
      if l in s.listings then s.(listings := s.listings[l := s.listings[l].(content := content)]) else s
    case SetListing(l, listing, admin) =>
      s.(listings := s.listings[l := listing], byAdmin := if admin then s.byAdmin + {l} else s.byAdmin - {l})
    case Delete(l) =>
      // the foreign keys cascade
      s.(listings := s.listings - {l}, jobs := s.jobs - {l}, audits := s.audits - {l}, byAdmin := s.byAdmin - {l})
  }

  /** The new value of a table entry; None removes it. */
  function Put<V>(table: map<nat, V>, k: nat, v: Option<V>): map<nat, V> {
    if v.Some? then table[k := v.value] else table - {k}
  }

  // ----- the worker -----

  /** A step of a process: its next program counter and the write it commits. */
  datatype Move<+T> = Move(next: Option<T>, write: Write)

  function Stay<T>(next: T): Move<T> {
    Move(Some(next), Nothing)
  }

  ghost predicate WorkEnabled(s: State, p: WorkerId, w: WorkStep) {
    match w
    case Select(l, at) => p !in s.workers && at <= s.clock && FirstDue(s.jobs, l, at)
    case Claim(l, at) => p !in s.workers && at <= s.clock && FirstDue(s.jobs, l, at)
    case SelectNothing(at) => p !in s.workers && at <= s.clock && forall l :: !Due(s.jobs, l, at)
    case CompareAndSwap(at) => p in s.workers && s.workers[p].Selected? && at <= s.clock
    case SwapAndReread(at) => p in s.workers && s.workers[p].Selected? && at <= s.clock
    case Reread => p in s.workers && s.workers[p].Swapped?
    case Load(_) => p in s.workers && s.workers[p].Claimed?
    case Answer(_) => p in s.workers && s.workers[p].Evaluating?
    case Proceed(_) =>
      p in s.workers && (s.workers[p].Judged? || s.workers[p].Recorded? || s.workers[p].Approving?
                         || s.workers[p].Notifying? || s.workers[p].Faulted?)
    case Throw(_) => p in s.workers
    case Report(at) => p in s.workers && s.workers[p].Reporting? && at <= s.clock
    case Crash => p in s.workers
  }

  /** The compare-and-set of `claimNextJob`; on a count of 0 the claim returns null. */
  function SwapMove(jobs: Jobs, l: ListingId, revision: nat, at: nat): Move<Phase> {
    if CanSwap(jobs, l, revision) then Move(Some(Swapped(l)), SetJobs(Swap(jobs, l, revision, at)))
    else Move(None, Nothing)
  }

  function RereadMove(jobs: Jobs, l: ListingId): Move<Phase> {
    Move(if l in jobs then Some(Claimed(TokenOf(jobs, l))) else None, Nothing)
  }

  function SwapAndRereadMove(jobs: Jobs, l: ListingId, revision: nat, at: nat): Move<Phase> {
    if CanSwap(jobs, l, revision)
    then
      var after := Swap(jobs, l, revision, at);
      Move(Some(Claimed(TokenOf(after, l))), SetJobs(after))
    else Move(None, Nothing)
  }

  /** `loadModerationInput` runs outside the `try` of `runForListing`. */
  function LoadMove(tok: Token, row: Option<Listing>, error: string): Move<Phase> {
    Stay(if row.Some? then Evaluating(tok, row.value.content) else Reporting(tok, ReportRetry(error)))
  }

  function AnswerMove(tok: Token, snap: Input, e: Evaluation): Move<Phase> {
    Stay(match e
         case Judgement(v) => Judged(tok, snap, v)
         case Fault(f, message) => Faulted(tok, snap, f, message))
  }

  /** What the worker asks for once the ERROR row is written. */
  function AfterError(f: Failure, message: string): Report {
    if Retryable(f) then ReportRetry(message) else ReportFail(message)
  }

  /** The next database statement of `runForListing` or `approveListing`, given the row of the
      listing.  On a missing row it throws `error`, by a foreign key or as NotFoundException. */
  function ProceedMove(ph: Phase, row: Option<Listing>, threshold: real, error: string): Move<Phase> {
    match ph
    case Judged(tok, snap, v) =>
      var approve := Qualifies(v, threshold);
      if row.None? then Stay(Faulted(tok, snap, Unknown, error))
      else Move(Some(Recorded(tok, snap, approve)), AppendAudit(tok.listing, SuccessRow(snap, v, approve)))
    case Recorded(tok, snap, approve) =>
      if !approve then Stay(Reporting(tok, ReportComplete(snap)))
      else if row.None? then Stay(Faulted(tok, snap, Unknown, error))
      else if row.value.approval == Approved then Stay(Reporting(tok, ReportComplete(snap)))
      else Stay(Approving(tok, snap))
    case Approving(tok, snap) =>
      if row.None? then Stay(Faulted(tok, snap, Unknown, error))
      else Move(Some(Notifying(tok, snap)), SetListing(tok.listing, row.value.(approval := Approved), false))
    case Notifying(tok, snap) => Stay(Reporting(tok, ReportComplete(snap)))
    case Faulted(tok, snap, f, message) =>
      if row.None? then Stay(Reporting(tok, ReportRetry(error)))
      else
        Move(Some(Reporting(tok, AfterError(f, message))),
             AppendAudit(tok.listing, ErrorRow(snap, f, message)))
    case _ => Stay(ph)
  }

  /** The next statement of the worker throws without effect. */
  function ThrowMove(ph: Phase, error: string): Move<Phase> {
    match ph
    case Selected(_, _) => Move(None, Nothing)
    case Swapped(_) => Move(None, Nothing)
    case Claimed(tok) => Stay(Reporting(tok, ReportRetry(error)))
    case Evaluating(tok, snap) => Stay(Faulted(tok, snap, Unknown, error))
    case Judged(tok, snap, _) => Stay(Faulted(tok, snap, Unknown, error))
    case Recorded(tok, snap, approve) => Stay(if approve then Faulted(tok, snap, Unknown, error) else ph)
    case Approving(tok, snap) => Stay(Faulted(tok, snap, Unknown, error))
    case Notifying(tok, snap) => Stay(Faulted(tok, snap, Unknown, error))
    case Faulted(tok, _, _, _) => Stay(Reporting(tok, ReportRetry(error)))
    case Reporting(tok, _) => Stay(Reporting(tok, ReportRetry(error)))
  }

  /** The statement of `complete`, `fail` or `retry`. */
  function ReportRow(jobs: Jobs, tok: Token, report: Report, at: nat): Jobs {
    match report
    case ReportComplete(_) => CompleteRow(jobs, tok, at)
    case ReportFail(message) => FailRow(jobs, tok, message, at)
    case ReportRetry(message) => RetryRow(jobs, tok, message, at)
  }

  ghost function WorkMove(s: State, p: WorkerId, w: WorkStep): Move<Phase>
    requires WorkEnabled(s, p, w)
  {
    match w
    case Select(l, at) => Stay(Selected(l, s.jobs[l].revision))
    case Claim(l, at) => SwapAndRereadMove(s.jobs, l, s.jobs[l].revision, at)
    case SelectNothing(_) => Move(None, Nothing)
    case CompareAndSwap(at) => SwapMove(s.jobs, s.workers[p].candidate, s.workers[p].revision, at)
    case SwapAndReread(at) => SwapAndRereadMove(s.jobs, s.workers[p].candidate, s.workers[p].revision, at)
    case Reread => RereadMove(s.jobs, s.workers[p].candidate)
    case Load(error) => LoadMove(s.workers[p].tok, Row(s, s.workers[p].tok.listing), error)
    case Answer(e) => AnswerMove(s.workers[p].tok, s.workers[p].snap, e)
    case Proceed(error) => ProceedMove(s.workers[p], Row(s, s.workers[p].tok.listing), s.threshold, error)
    case Throw(error) => ThrowMove(s.workers[p], error)
    case Report(at) => Move(None, SetJobs(ReportRow(s.jobs, s.workers[p].tok, s.workers[p].report, at)))
    case Crash => Move(None, Nothing)
  }

  // ----- the requests -----

  predicate ServeEnabled(s: State, c: ClientId, step: ClientStep) {
    match step
    case Create(l, _) => c !in s.requests && l !in s.used
    case BeginEdit(l) => c !in s.requests && l in s.listings
    case Rerun(l) => c !in s.requests && l in s.used
    case WriteEdit(_) => c in s.requests && s.requests[c].EditRead?
    case EnqueueRead => c in s.requests && s.requests[c].EditWritten?
    case EnqueueWrite(at) => c in s.requests && (s.requests[c].SawJob? || s.requests[c].SawNoJob?) && at <= s.clock
    case Abandon => c in s.requests && s.requests[c].EditRead?
  }

  /** `listing.update`: writes the fields, and PENDING when the row read earlier asks for it. */
  function WriteEditMove(l: ListingId, row: Option<Listing>, read: Input, edit: Edit): Move<Request> {
    if row.None? then Move(None, Nothing)
    else if Remoderates(read, edit) then
      Move(Some(EditWritten(l)), SetListing(l, Listing(Written(row.value.content, edit), AwaitingReview), false))
    else Move(None, SetContent(l, Written(row.value.content, edit)))
  }

  /** The `findUnique` that opens the transaction of `enqueue`; a rerun preserves a running job. */
  function EnqueueReadMove(jobs: Jobs, l: ListingId, edit: bool): Move<Request> {
    if l !in jobs then Stay(SawNoJob(l, edit))
    else if Preserved(jobs[l], !edit) then Move(None, Nothing)
    else Stay(SawJob(l, edit))
  }

  /** Whether the write of `enqueue` changes a row; otherwise it throws, on a missing row, on the
      unique listing id, or on the foreign key. */
  predicate Enqueues(s: State, r: Request) {
    || (r.SawJob? && r.listing in s.jobs)
    || (r.SawNoJob? && r.listing !in s.jobs && r.listing in s.listings)
  }

  function EnqueueWriteMove(s: State, r: Request, at: nat): Move<Request> {
    Move(None,
         if !Enqueues(s, r) then Nothing
         else if r.SawJob? then SetJobs(s.jobs[r.listing := Requeued(s.jobs[r.listing], at)])
         else SetJobs(s.jobs[r.listing := NewJob(at)]))
  }

  function ServeMove(s: State, c: ClientId, step: ClientStep): Move<Request>
    requires ServeEnabled(s, c, step)
  {
    match step
    case Create(l, content) => Move(Some(EditWritten(l)), Insert(l, content))
    case BeginEdit(l) => Stay(EditRead(l, s.listings[l].content))
    case Rerun(l) => EnqueueReadMove(s.jobs, l, false)
    case WriteEdit(edit) =>
      WriteEditMove(s.requests[c].listing, Row(s, s.requests[c].listing), s.requests[c].read, edit)
    case EnqueueRead => EnqueueReadMove(s.jobs, s.requests[c].listing, true)
    case EnqueueWrite(at) => EnqueueWriteMove(s, s.requests[c], at)
    case Abandon => Move(None, Nothing)
  }

  // ----- one step, and runs -----

  ghost predicate Enabled(s: State, a: Action) {
    match a
    case Tick(_) => true
    case Recover(at) => at <= s.clock
    case Work(p, w) => WorkEnabled(s, p, w)
    case Serve(c, step) => ServeEnabled(s, c, step)
    case AdminApprove(l) => l in s.listings
    case AdminReject(l) => l in s.listings
    case Remove(l) => l in s.listings
  }

  ghost function WriteOf(s: State, a: Action): Write
    requires Enabled(s, a)
  {
    match a
    case Tick(_) => Nothing
    case Recover(at) => SetJobs(RecoverAll(s.jobs, at))
    case Work(p, w) => WorkMove(s, p, w).write
    case Serve(c, step) => ServeMove(s, c, step).write
    case AdminApprove(l) => SetListing(l, s.listings[l].(approval := Approved), true)
    case AdminReject(l) => SetListing(l, s.listings[l].(approval := Rejected), false)
    case Remove(l) => Delete(l)
  }

  ghost function Effect(s: State, a: Action): State
    requires Enabled(s, a)
  {
    Perform(s, WriteOf(s, a)).(
    clock := if a.Tick? then s.clock + a.ms else s.clock,
    workers := if a.Work? then Put(s.workers, a.p, WorkMove(s, a.p, a.work).next) else s.workers,
    requests := if a.Serve? then Put(s.requests, a.c, ServeMove(s, a.c, a.client).next) else s.requests)
  }

  ghost function Next(s: State, a: Action): State {
    if Enabled(s, a) then Effect(s, a) else s
  }

  ghost function Exec(s: State, run: seq<Action>): State {
    if run == [] then s else Next(Exec(s, run[..|run| - 1]), run[|run| - 1])
  }
}
