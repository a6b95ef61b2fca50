/**
 The requests that write listings and queue them: ListingsService.create and update, and the three
 decisions of AdminService.  Other processes act at every `await`, and a statement may throw.
 */
module Requests {
  import opened Options
  import opened JobQueue
  import opened Moderation
  import opened Protocol
  import opened Fencing
  import opened Database
  import opened Services

  datatype Outcome = Saved(queued: Option<JobStatus>) | NotFound | Refused | Threw

  class ListingsService {
    const db: Db
    const jobService: JobService

    constructor (db: Db)
      ensures this.db == db && jobService.db == db
    {
      this.db := db;
      jobService := new JobService(db);
    }

    /** `create` once the payload is accepted: the listing awaits review, and is then queued.  Between
        the two the request may die, and then its listing stays without a job. */
    method CreateListing(ghost c: ClientId, l: ListingId, content: Input) returns (r: Outcome)
      requires jobService.db == db && db.Valid() && c !in db.requests && l !in db.used
      modifies db
      ensures db.Valid() && old(db.history) < db.history && old(db.failures) <= db.failures && l in db.used
      ensures db.history[|old(db.history)|] == Serve(c, Create(l, content))
      ensures r == Saved(Some(Pending)) || r == Threw
      ensures r == Saved(Some(Pending)) ==> c !in db.requests && QueuedLast(c, l, |old(db.history)|)
      ensures r == Threw ==> old(db.failures) < db.failures || EnqueueFailed(c)
      ensures c in db.requests ==> db.requests[c] == EditWritten(l)
    {
      db.InsertListing(c, l, content);
      ghost var inserted := db.history;
      r := Queue(c, l);
      UsedKept(db.threshold, inserted, db.history);
      assert db.history[|inserted| - 1] == Serve(c, Create(l, content));
    }

    /** The enqueue write of the request is the last action, after the action number `i`, and it leaves a
        fresh job that is due. */
    ghost predicate QueuedLast(c: ClientId, l: ListingId, i: nat)
      reads db
    {
      && i < |db.history| - 1
      && l in db.jobs && db.jobs[l].status == Pending && db.jobs[l].attempts == 0 && db.jobs[l].lastError == None
      && db.history[|db.history| - 1] == Serve(c, EnqueueWrite(db.jobs[l].nextRunAt)) && db.jobs[l].nextRunAt <= db.clock
    }

    /** The enqueue write of the request is the last action, and it has thrown. */
    ghost predicate EnqueueFailed(c: ClientId)
      reads db
    {
      exists at, before :: Latest(db.threshold, db.history, Serve(c, EnqueueWrite(at)), before) && db.jobs == before.jobs
    }

    /** `update`, with the outcome of its permission and payload checks: decides on the row it reads, writes,
        and queues the listing if the decision says so. */
    method Update(ghost c: ClientId, l: ListingId, edit: Edit, accepted: bool) returns (r: Outcome, ghost i: nat)
      requires jobService.db == db && db.Valid() && c !in db.requests
      modifies db
      ensures db.Valid() && old(db.history) <= db.history && old(db.failures) <= db.failures
      ensures r.NotFound? <==> l !in old(db.listings)
      ensures r.NotFound? ==> db.View() == old(db.View()) && db.history == old(db.history)
      ensures r.Refused? <==> l in old(db.listings) && !accepted
      ensures r.Threw? ==> old(db.failures) < db.failures || EnqueueFailed(c) || l !in db.listings
      ensures r.Saved? || r.NotFound? || r.Refused? ==> c !in db.requests
      ensures r.Saved? ==> |old(db.history)| <= i < |db.history| && db.history[i] == Serve(c, WriteEdit(edit))
      ensures r.Saved? ==> l in old(db.listings)
      ensures r.Saved? ==> (r.queued == Some(Pending) <==> Remoderates(old(db.listings)[l].content, edit))
      ensures r.Saved? ==> r.queued.None? || (r.queued == Some(Pending) && QueuedLast(c, l, i))
    {
      i := 0;
      var row := db.FindForEdit(c, l);
      if row.None? {
        r := NotFound;
        return;
      }
      db.OthersThan(c);
      if !accepted {
        db.AbandonEdit(c);
        r := Refused;
        return;
      }
      r, i := Save(c, l, row.value.content, edit);
    }

    /** The decision, the write as action number `i`, and after it the enqueue that it asks for. */
    method Save(ghost c: ClientId, l: ListingId, read: Input, edit: Edit) returns (r: Outcome, ghost i: nat)
      requires jobService.db == db && db.Valid() && c in db.requests && db.requests[c] == EditRead(l, read)
      modifies db
      ensures db.Valid() && old(db.history) <= db.history && old(db.failures) <= db.failures
      ensures r.Saved? || r.Threw?
      ensures r.Threw? ==> old(db.failures) < db.failures || EnqueueFailed(c) || l !in db.listings
      ensures r.Saved? ==> c !in db.requests
      ensures r.Saved? ==> |old(db.history)| <= i < |db.history| && db.history[i] == Serve(c, WriteEdit(edit))
      ensures r.Saved? ==> (r.queued == Some(Pending) <==> Remoderates(read, edit))
      ensures r.Saved? ==> r.queued.None? || (r.queued == Some(Pending) && QueuedLast(c, l, i))
    {
      var remoderate := ShouldRemoderate(read, edit);
      db.OthersThan(c);
      i := |db.history|;
      var updated := db.UpdateListing(c, l, read, edit, remoderate);
      if !updated {
        r := Threw;
        return;
      }
      if !remoderate {
        r := Saved(None);
        return;
      }
      ghost var written := db.history;
      r := Queue(c, l);
      assert db.history[i] == written[i];
    }

    /** `shouldRemoderate`, test by test. */
    method ShouldRemoderate(read: Input, edit: Edit) returns (remoderate: bool)
      ensures remoderate == (Written(read, edit) != read)
      ensures remoderate == Remoderates(read, edit)
    {
      if edit.title.Some? && edit.title.value != read.title {
        return true;
      }
      if edit.description.Some? && edit.description.value != read.description {
        return true;
      }
      if edit.category.Some? && edit.category.value != read.category {
        return true;
      }
      if edit.department.Some? && edit.department != read.department {
        return true;
      }
      return false;
    }

    /** `enqueueModerationAndReload`, which the request may not live to call. */
    method Queue(ghost c: ClientId, l: ListingId) returns (r: Outcome)
      requires jobService.db == db && db.Valid() && c in db.requests && db.requests[c] == EditWritten(l)
      requires db.history != []
      modifies db
      ensures db.Valid() && old(db.history) <= db.history && old(db.failures) <= db.failures
      ensures r == Saved(Some(Pending)) || r == Threw
      ensures r == Threw ==> old(db.failures) < db.failures || EnqueueFailed(c)
      ensures r.Saved? ==> c !in db.requests && QueuedLast(c, l, |old(db.history)| - 1)
      ensures c in db.requests ==> db.requests[c] == EditWritten(l)
    {
      db.OthersThan(c);
      var died := db.Fails();
      if died {
        return Threw;
      }
      var status;
      ghost var before;
      status, before := jobService.Enqueue(c, l, false);
      r := if status.Some? then Saved(status) else Threw;
    }
  }

  class AdminService {
    const db: Db
    const jobService: JobService

    constructor (db: Db)
      ensures this.db == db && jobService.db == db
    {
      this.db := db;
      jobService := new JobService(db);
    }

    /** `approveListing` and `rejectListing`: the listing already decided that way is left alone. */
    method Decide(ghost c: ClientId, l: ListingId, approve: bool) returns (r: Outcome)
      requires db.Valid()
      modifies db
      ensures db.Valid() && old(db.history) <= db.history && old(db.failures) <= db.failures
      ensures r.Saved? || r.NotFound? || (r.Threw? && l !in db.listings)
      ensures r.NotFound? <==> l !in old(db.listings)
      ensures l in old(db.listings) && old(db.listings)[l].approval == (if approve then Approved else Rejected) ==>
                r == Saved(None) && db.View() == old(db.View()) && db.history == old(db.history)
      ensures r.Saved? && old(db.listings)[l].approval != (if approve then Approved else Rejected) ==>
                l in db.listings && db.listings[l].approval == (if approve then Approved else Rejected)
    {
      if l !in db.listings {
        return NotFound;
      }
      if db.listings[l].approval == (if approve then Approved else Rejected) {
        return Saved(None);
      }
      db.OthersThan(c);
      var updated := db.WriteDecision(l, approve);
      r := if updated then Saved(None) else Threw;
    }

    /** `rerunModeration`, with `looked` the table of jobs that its enqueue finds: a job that is RUNNING
        there is left to finish, any other starts afresh.  The listing may go after the check. */
    method RerunModeration(ghost c: ClientId, l: ListingId) returns (r: Outcome, ghost looked: Jobs)
      requires jobService.db == db && db.Valid() && c !in db.requests
      modifies db
      ensures db.Valid() && old(db.history) <= db.history && old(db.failures) <= db.failures && c !in db.requests
      ensures r.NotFound? <==> l !in old(db.listings)
      ensures r.Saved? || r.NotFound? || r.Threw?
      ensures r.Threw? ==>
        exists at, before :: Latest(db.threshold, db.history, Serve(c, EnqueueWrite(at)), before) && db.jobs == before.jobs
                             && if l in looked then l !in before.jobs else l in before.jobs || l !in before.listings
      ensures r.NotFound? ==> db.View() == old(db.View()) && db.history == old(db.history)
      ensures r == Saved(Some(Running)) <==> l in old(db.listings) && l in looked && looked[l].status == Running
      ensures r == Saved(Some(Running)) ==> db.jobs == looked
      ensures r.Saved? && r != Saved(Some(Running)) ==>
                r == Saved(Some(Pending)) && l in db.jobs && db.jobs[l].status == Pending && db.jobs[l].attempts == 0
                && old(db.clock) <= db.jobs[l].nextRunAt <= db.clock
    {
      looked := db.jobs;
      if l !in db.listings {
        r := NotFound;
        return;
      }
      ghost var seen := db.history;
      RunSound(db.threshold, seen);
      db.OthersThan(c);
      UsedKept(db.threshold, seen, db.history);
      looked := db.jobs;
      var status;
      ghost var before;
      status, before := jobService.Enqueue(c, l, true);
      r := if status.Some? then Saved(status) else Threw;
    }
  }
}
