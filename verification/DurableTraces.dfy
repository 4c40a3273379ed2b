/**
 What an answer of a worker rests on, told by the I/O calls the worker made for
 it: the entries of the log that are its own, from the call that invoked it on.
 The predicates here speak of requests and replies alone, not of the code.
 */
module DurableTraces {
  import opened Basics
  import opened FlashTypes
  import opened DurableJob
  import opened DurableWorker
  import opened DurableSystem

  /** The entries worker `p` has made from position `lo` on, oldest first. */
  function Own(log: seq<Entry>, lo: nat, p: Pid): seq<Entry> {
    if |log| <= lo then []
    else
      var earlier := Own(log[..|log| - 1], lo, p);
      if Last(log).worker == p then earlier + [Last(log)] else earlier
  }

  lemma {:induction false} OwnAreEntries(log: seq<Entry>, lo: nat, p: Pid, e: Entry)
    ensures e in Own(log, lo, p) <==> e.worker == p && exists n :: lo <= n < |log| && log[n] == e
  {
    if |log| > lo {
      var front := log[..|log| - 1];
      OwnAreEntries(front, lo, p, e);
      assert log[|log| - 1] == Last(log);
      assert forall n :: lo <= n < |front| ==> front[n] == log[n];
    }
  }

  lemma OwnSnoc(log: seq<Entry>, lo: nat, p: Pid, e: Entry)
    requires lo <= |log|
    ensures Own(log + [e], lo, p) == if e.worker == p then Own(log, lo, p) + [e] else Own(log, lo, p)
  {
    assert (log + [e])[..|log|] == log;
  }

  // The replies a request may get; a record comes under its own name.
  predicate Answers(req: Request, reply: Reply) {
    reply.Failed? ||
    match req
    case ReadJob(job) => reply.Missing? || (reply.Loaded? && reply.state.jobId == job)
    case CreateJob(_) => reply.Done? || reply.Conflict?
    case WriteJob(_, _, _) => reply.Done? || reply.Conflict?
    case PutIndex(_) => reply.Done? || reply.Conflict?
    case ReadIndex(_) => reply.Missing? || reply.Found?
    case SendMessage(_) => reply.Done?
    case ReceiveMessage(_) => reply.Empty? || reply.Got?
    case UpdateMessage(_, _, _) => reply.Rotated?
    case DeleteMessage(_, _, _) => reply.Done? || reply.Gone?
    case Verify(_, _) => reply.Approved? || reply.Rejected?
    case Notify(_, _, _) => reply.Done?
    case ListJobs(limit) => reply.Page? && |reply.jobs| <= limit
    case SaveCursor => reply.Done? || reply.Conflict?
  }

  // The last call raised: it failed, or it read a record that does not exist.  Notifier calls never raise.
  predicate LastRaised(own: seq<Entry>) {
    && own != [] && !Last(own).request.Notify?
    && (Last(own).reply.Failed? || (Last(own).request.ReadJob? && Last(own).reply.Missing?))
  }

  // ----- records and claims -----

  predicate ReadsRecord(e: Entry, job: JobId) {
    e.request == ReadJob(job) && e.reply.Loaded? && e.reply.state.jobId == job
  }

  /** The claim is the current one of the record, and neither its lease nor the deadline is over at `t`. */
  predicate HeldAt(c: ClaimContext, j: JobState, t: real) {
    && j.generation == c.generation && j.leaseId == Some(Sha256(c.token))
    && j.acceptedResult == None && j.terminalReason == None
    && t < (if j.leaseExpiresAt.Some? then j.leaseExpiresAt.value else 0.0)
    && t < j.startedAt + j.contract.budget.wallSeconds
  }

  // The call ended by `end` right after reading the record, the claim not being held at a time since.
  ghost predicate LastReadNotHeld(own: seq<Entry>, c: ClaimContext, end: real) {
    own != [] && ReadsRecord(Last(own), c.jobId) &&
    exists t: real :: Last(own).when <= t <= end && !HeldAt(c, Last(own).reply.state, t)
  }

  // The call ended with a conditional upload of the record that met a conflict.
  predicate LastWriteConflicts(own: seq<Entry>, job: JobId) {
    own != [] && Last(own).request.WriteJob? && Last(own).request.next.jobId == job && Last(own).reply.Conflict?
  }

  // ----- notification recovery -----

  predicate IsPending(j: JobState) {
    j.notificationPending && !j.notificationSent && j.acceptedAttemptId.Some? && j.acceptedResult.Some?
  }

  predicate Notifies(e: Entry, j: JobState) {
    IsPending(j) && e.request == Notify(j.jobId, j.acceptedAttemptId.value, j.acceptedResult.value)
  }

  predicate MarksSent(e: Entry, j: JobState) {
    e.request.WriteJob? && e.request.next == j.(notificationPending := false, notificationSent := true)
  }

  /**
   Entry `i` reads the record of `job`; if it was waiting, the next call notifies
   its destination, and if that succeeded the one after marks the record as sent.
   */
  predicate AttemptedAt(own: seq<Entry>, i: int, job: JobId) {
    && 0 <= i < |own| && ReadsRecord(own[i], job)
    && (IsPending(own[i].reply.state) ==>
          && i + 1 < |own| && Notifies(own[i + 1], own[i].reply.state)
          && (own[i + 1].reply.Done? ==> i + 2 < |own| && MarksSent(own[i + 2], own[i].reply.state)))
  }

  predicate ListsPage(e: Entry, limit: nat) {
    e.request == ListJobs(limit) && e.reply.Page? && |e.reply.jobs| <= limit
  }

  // Since entry `m` listed a page, each of its jobs is among `ahead` or has been attempted,
  // at a cost of no more than three calls a job.
  ghost predicate UnderWayFrom(own: seq<Entry>, m: int, limit: nat, ahead: seq<JobId>) {
    && 0 <= m < |own| && ListsPage(own[m], limit)
    && (forall job :: job in own[m].reply.jobs ==> job in ahead || exists i :: m < i && AttemptedAt(own, i, job))
    && |own| + 3 * |ahead| <= m + 1 + 3 * |own[m].reply.jobs|
  }

  /** The page listed by entry `m` was attempted job by job, and then the cursor was saved by entry `n`. */
  ghost predicate RecoveredBy(own: seq<Entry>, m: int, n: int, limit: nat)
    requires 0 <= m < n < |own|
  {
    && n <= m + 1 + 3 * limit && ListsPage(own[m], limit) && own[n].request.SaveCursor? && !own[n].reply.Failed?
    && forall job :: job in own[m].reply.jobs ==> exists i :: m < i < n && AttemptedAt(own, i, job)
  }

  lemma AttemptStays(own: seq<Entry>, e: Entry, i: int, job: JobId)
    requires AttemptedAt(own, i, job)
    ensures AttemptedAt(own + [e], i, job)
  {
  }

  lemma RecoveryStays(own: seq<Entry>, e: Entry, m: int, n: int, limit: nat)
    requires 0 <= m < n < |own| && RecoveredBy(own, m, n, limit)
    ensures RecoveredBy(own + [e], m, n, limit)
  {
    var own' := own + [e];
    assert own'[m] == own[m] && own'[n] == own[n];
    forall job | job in own'[m].reply.jobs ensures exists i :: m < i < n && AttemptedAt(own', i, job) {
      var i :| m < i < n && AttemptedAt(own, i, job);
      AttemptStays(own, e, i, job);
    }
  }
}
