/**
 The fleet lease controller: every operation replays the log, checks its guard
 against the replayed state, and appends one event.  Other writers may add
 completions, interruptions and unrelated events in between.
 */
module FleetController {
  import opened Basics
  import opened FleetTypes
  import opened FleetReplay
  import opened FleetHistory

  // The vessel is available under exactly this lease.
  predicate Holds(f: Fleet, vesselId: string, leaseId: string) {
    && vesselId !in f.unavailable && vesselId in f.vessels
    && f.vessels[vesselId].lease.Some? && f.vessels[vesselId].lease.value.id == leaseId
  }

  predicate CanAdmit(f: Fleet, v: Vessel, now: real) {
    && v.lifecycle != Persistent && v.lease.Some? && v.lease.value.ActiveAt(now)
    && !(v.id in f.vessels && v.id !in f.unavailable)
  }

  predicate CanRenew(f: Fleet, vesselId: string, leaseId: string, end: real, now: real) {
    && Holds(f, vesselId, leaseId)
    && var lease := f.vessels[vesselId].lease.value;
    && lease.renewable && lease.ActiveAt(now) && now < end
    && (lease.expiresAt.Some? ==> lease.expiresAt.value < end)
  }

  predicate CanStart(f: Fleet, attemptId: string, vesselId: string, leaseId: string, now: real) {
    && Holds(f, vesselId, leaseId) && f.vessels[vesselId].lease.value.ActiveAt(now)
    && attemptId !in f.attempts
  }

  predicate CanDisappear(f: Fleet, vesselId: string, leaseId: string, reason: Termination) {
    reason != ExecutionTimeout && Holds(f, vesselId, leaseId)
  }

  predicate RunsUnder(f: Fleet, attemptId: string, vesselId: string, leaseId: string) {
    IsRunning(f, attemptId) && f.attempts[attemptId].vesselId == vesselId && f.attempts[attemptId].leaseId == leaseId
  }

  // `ids` lists the attempts running under the lease, each once, in some order.
  ghost predicate Lists(f: Fleet, vesselId: string, leaseId: string, ids: seq<string>) {
    NoDup(ids) && forall id :: id in ids <==> RunsUnder(f, id, vesselId, leaseId)
  }

  /** The attempts among `ids` that run under the lease, in the order of `ids`. */
  function RunningUnder(f: Fleet, ids: seq<string>, vesselId: string, leaseId: string): seq<string> {
    if ids == [] then []
    else
      var front := RunningUnder(f, ids[..|ids| - 1], vesselId, leaseId);
      if RunsUnder(f, Last(ids), vesselId, leaseId) then front + [Last(ids)] else front
  }

  lemma {:induction false} RunningUnderFilters(f: Fleet, ids: seq<string>, vesselId: string, leaseId: string)
    requires NoDup(ids)
    ensures var r := RunningUnder(f, ids, vesselId, leaseId);
            NoDup(r) && forall id :: id in r <==> id in ids && RunsUnder(f, id, vesselId, leaseId)
  {
    if ids != [] {
      RunningUnderFilters(f, ids[..|ids| - 1], vesselId, leaseId);
      assert ids == ids[..|ids| - 1] + [Last(ids)];
    }
  }

  // The attempts recorded are all those under the lease.
  lemma InterruptedAreListed(log: seq<Event>, vesselId: string, leaseId: string)
    requires Replay(log).Some?
    ensures var f := Replay(log).value; Lists(f, vesselId, leaseId, RunningUnder(f, f.order, vesselId, leaseId))
  {
    ReplayOrders(EMPTY_FLEET, log);
    var f := Replay(log).value;
    RunningUnderFilters(f, f.order, vesselId, leaseId);
  }

  /** What the controller may append to a log that replays to `f`, and what other writers add. */
  ghost predicate Permitted(f: Fleet, e: Event) {
    match e.payload
    case ResourceAdmitted(v) => v.Valid() && CanAdmit(f, v, e.timestamp)
    case ResourceLeaseRenewed(vesselId, lease) =>
      && vesselId in f.vessels && f.vessels[vesselId].lease.Some? && lease.expiresAt.Some?
      && CanRenew(f, vesselId, f.vessels[vesselId].lease.value.id, lease.expiresAt.value, e.timestamp)
      && lease == f.vessels[vesselId].lease.value.(expiresAt := lease.expiresAt)
    case ResourceDisappeared(vesselId, leaseId, reason, interrupted) =>
      && CanDisappear(f, vesselId, leaseId, reason) && Lists(f, vesselId, leaseId, interrupted)
      && interrupted == RunningUnder(f, f.order, vesselId, leaseId)
    case WorkAttemptStarted(attemptId, _, vesselId, leaseId, _) =>
      CanStart(f, attemptId, vesselId, leaseId, e.timestamp)
    case WorkAttemptTimedOut(attemptId) => IsRunning(f, attemptId)
    case WorkAttemptInterrupted(_, reason) => reason != ExecutionTimeout
    case WorkAttemptCompleted(_) => true
    case EmbodimentChanged(_, _) => false
    case CompetenceUpdated(_) => false
    case Malformed => false
    case Unrelated => true
  }

  /** A log written by one controller, with completions, interruptions and unrelated events, but no crew events. */
  ghost predicate Produced(log: seq<Event>)
    decreases |log|
  {
    log == [] ||
    (var prior := log[..|log| - 1];
     Produced(prior) && Replay(prior).Some? && Permitted(Replay(prior).value, Last(log)))
  }

  lemma ProducedOneMore(log: seq<Event>, e: Event)
    requires Produced(log) && Replay(log).Some? && Permitted(Replay(log).value, e)
    ensures Produced(log + [e])
  {
    assert (log + [e])[..|log|] == log;
  }

  datatype Reply = Appended(event: Event) | LifecycleError | ReplayError

  class FleetLeaseController {
    var log: seq<Event>

    constructor (log: seq<Event>)
      ensures this.log == log
    {
      this.log := log;
    }

    method Append(eventId: string, payload: Payload, now: real) returns (reply: Reply)
      modifies this
      ensures reply == Appended(Event(eventId, now, payload)) && log == old(log) + [reply.event]
      ensures Produced(old(log)) && Replay(old(log)).Some? && Permitted(Replay(old(log)).value, reply.event) ==>
                Produced(log)
    {
      ghost var before := log;
      var event := Event(eventId, now, payload);
      log := log + [event];
      reply := Appended(event);
      if Produced(before) && Replay(before).Some? && Permitted(Replay(before).value, event) {
        ProducedOneMore(before, event);
      }
    }

    method Admit(vessel: Vessel, eventId: string, now: real) returns (reply: Reply)
      requires vessel.Valid()
      modifies this
      ensures var f, e := Replay(old(log)), Event(eventId, now, ResourceAdmitted(vessel));
              if vessel.lifecycle == Persistent || vessel.lease.None? || !vessel.lease.value.ActiveAt(now)
              then reply == LifecycleError && log == old(log)
              else if f.None? then reply == ReplayError && log == old(log)
              else if CanAdmit(f.value, vessel, now) then reply == Appended(e) && log == old(log) + [e]
              else reply == LifecycleError && log == old(log)
      ensures reply.Appended? <==>
                && Replay(old(log)).Some? && vessel.lifecycle != Persistent && vessel.lease.Some?
                && var f, lease := Replay(old(log)).value, vessel.lease.value;
                && lease.acquiredAt <= now && (lease.expiresAt.Some? ==> now < lease.expiresAt.value)
                && (vessel.id in f.vessels ==> vessel.id in f.unavailable)
      ensures Produced(old(log)) ==> Produced(log)
    {
      if vessel.lifecycle == Persistent || vessel.lease.None? {
        return LifecycleError;
      }
      if !vessel.lease.value.ActiveAt(now) {
        return LifecycleError;
      }
      var ok, current := Materialize(log, {}, []);
      if !ok {
        return ReplayError;
      }
      if vessel.id in current.vessels && vessel.id !in current.unavailable {
        return LifecycleError;
      }
      reply := Append(eventId, ResourceAdmitted(vessel), now);
    }

    method Renew(vesselId: string, leaseId: string, expiresAt: real, eventId: string, now: real) returns (reply: Reply)
      modifies this
      ensures var f := Replay(old(log));
              if f.None? then reply == ReplayError && log == old(log)
              else if !CanRenew(f.value, vesselId, leaseId, expiresAt, now)
              then reply == LifecycleError && log == old(log)
              else
                var lease := f.value.vessels[vesselId].lease.value.(expiresAt := Some(expiresAt));
                var e := Event(eventId, now, ResourceLeaseRenewed(vesselId, lease));
                reply == Appended(e) && log == old(log) + [e]
      ensures reply.Appended? <==>
                && Replay(old(log)).Some? && vesselId in Replay(old(log)).value.vessels
                && vesselId !in Replay(old(log)).value.unavailable
                && Replay(old(log)).value.vessels[vesselId].lease.Some?
                && var lease := Replay(old(log)).value.vessels[vesselId].lease.value;
                && lease.id == leaseId && lease.renewable && lease.acquiredAt <= now < expiresAt
                && (lease.expiresAt.Some? ==> now < lease.expiresAt.value < expiresAt)
      ensures Produced(old(log)) ==> Produced(log)
    {
      var ok, current := Materialize(log, {}, []);
      if !ok {
        return ReplayError;
      }
      if vesselId !in current.vessels || current.vessels[vesselId].lease.None? {
        return LifecycleError;
      }
      var lease := current.vessels[vesselId].lease.value;
      if vesselId in current.unavailable || lease.id != leaseId {
        return LifecycleError;
      }
      if !lease.renewable {
        return LifecycleError;
      }
      if !lease.ActiveAt(now) || expiresAt <= now {
        return LifecycleError;
      }
      if lease.expiresAt.Some? && expiresAt <= lease.expiresAt.value {
        return LifecycleError;
      }
      reply := Append(eventId, ResourceLeaseRenewed(vesselId, lease.(expiresAt := Some(expiresAt))), now);
    }

    method StartAttempt(attemptId: string, missionId: string, vesselId: string, leaseId: string, restartable: bool,
                        eventId: string, now: real) returns (reply: Reply)
      modifies this
      ensures var f := Replay(old(log));
              var e := Event(eventId, now, WorkAttemptStarted(attemptId, missionId, vesselId, leaseId, restartable));
              if f.None? then reply == ReplayError && log == old(log)
              else if CanStart(f.value, attemptId, vesselId, leaseId, now)
              then reply == Appended(e) && log == old(log) + [e]
              else reply == LifecycleError && log == old(log)
      ensures reply.Appended? <==>
                && Replay(old(log)).Some? && attemptId !in Replay(old(log)).value.attempts
                && vesselId in Replay(old(log)).value.vessels && vesselId !in Replay(old(log)).value.unavailable
                && Replay(old(log)).value.vessels[vesselId].lease.Some?
                && var lease := Replay(old(log)).value.vessels[vesselId].lease.value;
                && lease.id == leaseId && lease.acquiredAt <= now
                && (lease.expiresAt.Some? ==> now < lease.expiresAt.value)
      ensures Produced(old(log)) ==> Produced(log)
    {
      var ok, current := Materialize(log, {}, []);
      if !ok {
        return ReplayError;
      }
      if vesselId !in current.vessels || current.vessels[vesselId].lease.None? {
        return LifecycleError;
      }
      var lease := current.vessels[vesselId].lease.value;
      if vesselId in current.unavailable || lease.id != leaseId {
        return LifecycleError;
      }
      if !lease.ActiveAt(now) {
        return LifecycleError;
      }
      if attemptId in current.attempts {
        return LifecycleError;
      }
      reply := Append(eventId, WorkAttemptStarted(attemptId, missionId, vesselId, leaseId, restartable), now);
    }

    method Disappear(vesselId: string, leaseId: string, reason: Termination, eventId: string, now: real)
      returns (reply: Reply)
      modifies this
      ensures var f := Replay(old(log));
              if reason == ExecutionTimeout then reply == LifecycleError && log == old(log)
              else if f.None? then reply == ReplayError && log == old(log)
              else if !CanDisappear(f.value, vesselId, leaseId, reason) then reply == LifecycleError && log == old(log)
              else
                var interrupted := RunningUnder(f.value, f.value.order, vesselId, leaseId);
                var e := Event(eventId, now, ResourceDisappeared(vesselId, leaseId, reason, interrupted));
                && reply == Appended(e) && log == old(log) + [e]
                && Lists(f.value, vesselId, leaseId, interrupted)
      ensures reply.Appended? <==>
                && reason in {LeaseLost, RunnerInterrupted} && Replay(old(log)).Some?
                && vesselId in Replay(old(log)).value.vessels && vesselId !in Replay(old(log)).value.unavailable
                && Replay(old(log)).value.vessels[vesselId].lease.Some?
                && Replay(old(log)).value.vessels[vesselId].lease.value.id == leaseId
      ensures Produced(old(log)) ==> Produced(log)
    {
      if reason == ExecutionTimeout {
        return LifecycleError;
      }
      var ok, current := Materialize(log, {}, []);
      if !ok {
        return ReplayError;
      }
      if vesselId in current.unavailable || vesselId !in current.vessels || current.vessels[vesselId].lease.None?
         || current.vessels[vesselId].lease.value.id != leaseId {
        return LifecycleError;
      }
      ghost var f := current.View();
      var interrupted: seq<string> := [];
      for i := 0 to |current.order|
        invariant interrupted == RunningUnder(f, f.order[..i], vesselId, leaseId)
      {
        assert f.order[..i + 1][..i] == f.order[..i];
        var attemptId := current.order[i];
        if attemptId in current.attempts && current.attempts[attemptId].status == Running
           && current.attempts[attemptId].vesselId == vesselId && current.attempts[attemptId].leaseId == leaseId {
          interrupted := interrupted + [attemptId];
        }
      }
      assert f.order[..|f.order|] == f.order;
      InterruptedAreListed(log, vesselId, leaseId);
      reply := Append(eventId, ResourceDisappeared(vesselId, leaseId, reason, interrupted), now);
    }

    method RecordExecutionTimeout(attemptId: string, eventId: string, now: real) returns (reply: Reply)
      modifies this
      ensures var f, e := Replay(old(log)), Event(eventId, now, WorkAttemptTimedOut(attemptId));
              if f.None? then reply == ReplayError && log == old(log)
              else if IsRunning(f.value, attemptId) then reply == Appended(e) && log == old(log) + [e]
              else reply == LifecycleError && log == old(log)
      ensures Produced(old(log)) ==> Produced(log)
    {
      var ok, current := Materialize(log, {}, []);
      if !ok {
        return ReplayError;
      }
      if attemptId !in current.attempts || current.attempts[attemptId].status != Running {
        return LifecycleError;
      }
      reply := Append(eventId, WorkAttemptTimedOut(attemptId), now);
    }
  }

  // ----- every produced log -----

  /** Each running attempt sits on an available vessel whose current lease is the attempt's own. */
  predicate OnLease(f: Fleet) {
    forall id | id in f.attempts :: IsRunning(f, id) ==> Holds(f, f.attempts[id].vesselId, f.attempts[id].leaseId)
  }

  predicate VesselsValid(f: Fleet) {
    forall v | v in f.vessels :: f.vessels[v].Valid() && f.vessels[v].id == v
  }

  // Nothing runs in f' that did not run, on the same vessel and lease, in f.
  ghost predicate OnlyEnds(f: Fleet, f': Fleet) {
    && f'.vessels == f.vessels && f'.unavailable == f.unavailable
    && forall id | IsRunning(f', id) :: IsRunning(f, id) && f'.attempts[id] == f.attempts[id]
  }

  lemma {:induction false} InterruptOnlyEnds(f: Fleet, ids: seq<string>, e: Event, reason: Termination)
    ensures OnlyEnds(f, Interrupt(f, ids, e, reason))
    ensures forall id :: id in ids ==> !IsRunning(Interrupt(f, ids, e, reason), id)
    decreases |ids|
  {
    if ids != [] {
      InterruptOnlyEnds(f, ids[..|ids| - 1], e, reason);
      forall id | id in ids ensures !IsRunning(Interrupt(f, ids, e, reason), id) {
        if id != Last(ids) {
          assert id in ids[..|ids| - 1];
        }
      }
    }
  }

  lemma EndingKeepsLeases(f: Fleet, f': Fleet)
    requires OnLease(f) && VesselsValid(f) && OnlyEnds(f, f')
    ensures OnLease(f') && VesselsValid(f')
  {
    forall id | id in f'.attempts && IsRunning(f', id)
      ensures Holds(f', f'.attempts[id].vesselId, f'.attempts[id].leaseId)
    {
      assert IsRunning(f, id);
    }
  }

  lemma DisappearanceKeepsLeases(f: Fleet, e: Event)
    requires OnLease(f) && VesselsValid(f) && Permitted(f, e) && e.payload.ResourceDisappeared?
    ensures Apply(f, e).Some? && OnLease(Apply(f, e).value) && VesselsValid(Apply(f, e).value)
    ensures forall id | IsRunning(Apply(f, e).value, id) ::
              Apply(f, e).value.attempts[id].vesselId != e.payload.vesselId
  {
    var p := e.payload;
    var gone := f.(unavailable := f.unavailable[p.vesselId := p.leaseId]);
    var f' := Interrupt(gone, p.interrupted, e, p.reason);
    InterruptOnlyEnds(gone, p.interrupted, e, p.reason);
    forall id | IsRunning(f', id)
      ensures f'.attempts[id].vesselId != p.vesselId && Holds(f', f'.attempts[id].vesselId, f'.attempts[id].leaseId)
    {
      assert IsRunning(gone, id) && IsRunning(f, id);
      assert Holds(f, f.attempts[id].vesselId, f.attempts[id].leaseId);
      assert RunsUnder(f, id, p.vesselId, p.leaseId) <==> id in p.interrupted;
    }
  }

  // While a vessel cannot be admitted over, or is gone, nothing runs on it.
  lemma AdmissionKeepsLeases(f: Fleet, e: Event)
    requires OnLease(f) && VesselsValid(f) && Permitted(f, e) && e.payload.ResourceAdmitted?
    ensures Apply(f, e).Some? && OnLease(Apply(f, e).value) && VesselsValid(Apply(f, e).value)
    ensures forall id | IsRunning(Apply(f, e).value, id) ::
              Apply(f, e).value.attempts[id].vesselId != e.payload.vessel.id
  {
    var f' := Apply(f, e).value;
    forall id | IsRunning(f', id)
      ensures f'.attempts[id].vesselId != e.payload.vessel.id &&
              Holds(f', f'.attempts[id].vesselId, f'.attempts[id].leaseId)
    {
      assert IsRunning(f, id);
    }
  }

  lemma RenewalKeepsLeases(f: Fleet, e: Event)
    requires OnLease(f) && VesselsValid(f) && Permitted(f, e) && e.payload.ResourceLeaseRenewed?
    ensures Apply(f, e).Some? && OnLease(Apply(f, e).value) && VesselsValid(Apply(f, e).value)
  {
    var f' := Apply(f, e).value;
    forall id | id in f'.attempts && IsRunning(f', id)
      ensures Holds(f', f'.attempts[id].vesselId, f'.attempts[id].leaseId)
    {
      assert IsRunning(f, id);
    }
  }

  lemma StartKeepsLeases(f: Fleet, e: Event)
    requires OnLease(f) && VesselsValid(f) && Permitted(f, e) && e.payload.WorkAttemptStarted?
    ensures Apply(f, e).Some? && OnLease(Apply(f, e).value) && VesselsValid(Apply(f, e).value)
  {
    var f' := Apply(f, e).value;
    forall id | id in f'.attempts && IsRunning(f', id)
      ensures Holds(f', f'.attempts[id].vesselId, f'.attempts[id].leaseId)
    {
      if id != e.payload.attemptId {
        assert IsRunning(f, id);
      }
    }
  }

  lemma PermittedKeepsLeases(f: Fleet, e: Event)
    requires OnLease(f) && VesselsValid(f) && Permitted(f, e)
    ensures Apply(f, e).Some? && OnLease(Apply(f, e).value) && VesselsValid(Apply(f, e).value)
  {
    match e.payload {
      case ResourceAdmitted(_) => AdmissionKeepsLeases(f, e);
      case ResourceLeaseRenewed(_, _) => RenewalKeepsLeases(f, e);
      case ResourceDisappeared(_, _, _, _) => DisappearanceKeepsLeases(f, e);
      case WorkAttemptStarted(_, _, _, _, _) => StartKeepsLeases(f, e);
      case WorkAttemptTimedOut(_) => EndingKeepsLeases(f, Apply(f, e).value);
      case WorkAttemptInterrupted(_, _) => EndingKeepsLeases(f, Apply(f, e).value);
      case WorkAttemptCompleted(_) => EndingKeepsLeases(f, Apply(f, e).value);
      case Unrelated =>
      case _ =>
    }
  }

  /**
   Every log the controller produces, whatever completions and interruptions but
   no crew events are mixed in, replays without error to a fleet whose running
   attempts all sit on available vessels under their own current lease, with
   exact missions.
   */
  lemma {:induction false} ProducedLogsKeepLeases(log: seq<Event>)
    requires Produced(log)
    ensures Replay(log).Some? && OnLease(Replay(log).value) && VesselsValid(Replay(log).value)
    ensures FreshStarts(log) && Exact(Replay(log).value)
    decreases |log|
  {
    if log != [] {
      var prior, e := log[..|log| - 1], Last(log);
      ProducedLogsKeepLeases(prior);
      PermittedKeepsLeases(Replay(prior).value, e);
      ProducedStartsAreFresh(log);
      FreshLogsAreExact(EMPTY_FLEET, log);
    }
  }

  lemma ProducedStartsAreFresh(log: seq<Event>)
    requires Produced(log) && log != [] && FreshStarts(log[..|log| - 1])
    ensures FreshStarts(log)
  {
    var prior, e := log[..|log| - 1], Last(log);
    assert forall i :: 0 <= i < |prior| ==> prior[i] == log[i];
    if e.payload.WorkAttemptStarted? {
      AttemptsWereStarted(EMPTY_FLEET, prior, e.payload.attemptId);
    }
  }

  lemma {:induction false} InterruptMarks(f: Fleet, ids: seq<string>, e: Event, reason: Termination, id: string)
    requires id in ids && IsRunning(f, id)
    ensures id in Interrupt(f, ids, e, reason).attempts
    ensures Interrupt(f, ids, e, reason).attempts[id] == Ended(f.attempts[id], e, Inconclusive, Some(reason))
    decreases |ids|
  {
    var front := ids[..|ids| - 1];
    if id in front {
      InterruptMarks(f, front, e, reason, id);
    } else {
      assert id == Last(ids);
      InterruptLeaves(f, front, e, reason, id);
    }
  }

  lemma {:induction false} InterruptLeaves(f: Fleet, ids: seq<string>, e: Event, reason: Termination, id: string)
    requires id !in ids
    ensures id in Interrupt(f, ids, e, reason).attempts <==> id in f.attempts
    ensures id in f.attempts ==> Interrupt(f, ids, e, reason).attempts[id] == f.attempts[id]
    decreases |ids|
  {
    if ids != [] {
      InterruptLeaves(f, ids[..|ids| - 1], e, reason, id);
    }
  }

  /** A disappearance ends every attempt running on the vessel, with its reason and event, and no other attempt. */
  lemma DisappearanceEndsExactlyItsAttempts(log: seq<Event>, e: Event, id: string)
    requires Produced(log) && Produced(log + [e]) && e.payload.ResourceDisappeared?
    requires Replay(log).Some? && id in Replay(log).value.attempts
    ensures Replay(log + [e]).Some? && id in Replay(log + [e]).value.attempts
    ensures var a, a' := Replay(log).value.attempts[id], Replay(log + [e]).value.attempts[id];
            a' == if a.status == Running && a.vesselId == e.payload.vesselId
                  then Ended(a, e, Inconclusive, Some(e.payload.reason)) else a
  {
    assert (log + [e])[..|log|] == log;
    ProducedLogsKeepLeases(log);
    ReplayOneMore(log, e);
    var f, p := Replay(log).value, e.payload;
    var gone := f.(unavailable := f.unavailable[p.vesselId := p.leaseId]);
    assert RunsUnder(f, id, p.vesselId, p.leaseId) <==> id in p.interrupted;
    if id in p.interrupted {
      InterruptMarks(gone, p.interrupted, e, p.reason, id);
    } else {
      InterruptLeaves(gone, p.interrupted, e, p.reason, id);
    }
  }

  /** A vessel admitted, for the first time or again, inherits no running attempt. */
  lemma AdmissionInheritsNothing(log: seq<Event>, e: Event, id: string)
    requires Produced(log + [e]) && e.payload.ResourceAdmitted?
    ensures Replay(log + [e]).Some?
    ensures IsRunning(Replay(log + [e]).value, id) ==>
              Replay(log + [e]).value.attempts[id].vesselId != e.payload.vessel.id
  {
    assert (log + [e])[..|log|] == log;
    ProducedLogsKeepLeases(log);
    ReplayOneMore(log, e);
    AdmissionKeepsLeases(Replay(log).value, e);
  }

  /**
   A renewal covers everything the old lease covered exactly when the old lease
   had an end: renewing an unbounded lease cuts it down to the new expiry.
   */
  lemma RenewalCoversIffBounded(f: Fleet, vesselId: string, leaseId: string, end: real, now: real)
    requires CanRenew(f, vesselId, leaseId, end, now)
    ensures var lease := f.vessels[vesselId].lease.value;
            (forall t :: lease.ActiveAt(t) ==> lease.(expiresAt := Some(end)).ActiveAt(t)) <==> lease.expiresAt.Some?
  {
    var lease := f.vessels[vesselId].lease.value;
    if lease.expiresAt.None? {
      assert lease.ActiveAt(end) && !lease.(expiresAt := Some(end)).ActiveAt(end);
    }
  }

  /** A produced log in which a renewal cuts an unbounded lease short: it was active at 20 and no longer is. */
  lemma RenewalCanShorten()
    ensures var lease := ResourceLease("l", 0.0, None, false, true);
            var admitted := Event("e1", 1.0, ResourceAdmitted(Vessel("v", Ephemeral, Some(lease))));
            var renewed := Event("e2", 2.0, ResourceLeaseRenewed("v", lease.(expiresAt := Some(10.0))));
            && Produced([admitted, renewed])
            && Replay([admitted]).Some? && Replay([admitted, renewed]).Some?
            && Replay([admitted]).value.vessels["v"].lease.value.ActiveAt(20.0)
            && !Replay([admitted, renewed]).value.vessels["v"].lease.value.ActiveAt(20.0)
  {
    var lease := ResourceLease("l", 0.0, None, false, true);
    var admitted := Event("e1", 1.0, ResourceAdmitted(Vessel("v", Ephemeral, Some(lease))));
    var renewed := Event("e2", 2.0, ResourceLeaseRenewed("v", lease.(expiresAt := Some(10.0))));
    assert [] + [admitted] == [admitted] && [admitted] + [renewed] == [admitted, renewed];
    ReplayOneMore([], admitted);
    ProducedOneMore([], admitted);
    ReplayOneMore([admitted], renewed);
    ProducedOneMore([admitted], renewed);
  }
}
