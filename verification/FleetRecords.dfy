/** Every attempt and vessel of a replayed fleet, told by the events of the log that made it what it is. */
module FleetRecords {
  import opened Basics
  import opened FleetTypes
  import opened FleetReplay
  import opened FleetHistory

  // ----- attempts -----

  predicate Starts(e: Event, id: string) {
    e.payload.WorkAttemptStarted? && e.payload.attemptId == id
  }

  // The event names the attempt as over.
  predicate Ends(e: Event, id: string) {
    match e.payload
    case ResourceDisappeared(_, _, _, interrupted) => id in interrupted
    case WorkAttemptInterrupted(attemptId, _) => attemptId == id
    case WorkAttemptTimedOut(attemptId) => attemptId == id
    case WorkAttemptCompleted(finished) => finished == Some(id)
    case _ => false
  }

  predicate LastStart(log: seq<Event>, s: int, id: string) {
    0 <= s < |log| && Starts(log[s], id) && forall k :: s < k < |log| ==> !Starts(log[k], id)
  }

  predicate NoEndSince(log: seq<Event>, s: int, id: string) {
    forall k :: 0 <= s < k < |log| ==> !Ends(log[k], id)
  }

  predicate FirstEnd(log: seq<Event>, s: int, n: int, id: string) {
    0 <= s < n < |log| && Ends(log[n], id) && forall k :: s < k < n ==> !Ends(log[k], id)
  }

  predicate StartedBy(a: WorkAttempt, e: Event) {
    && e.payload.WorkAttemptStarted? && a.attemptId == e.payload.attemptId && a.missionId == e.payload.missionId
    && a.vesselId == e.payload.vesselId && a.leaseId == e.payload.leaseId && a.restartable == e.payload.restartable
    && a.startedAt == e.timestamp && a.startEventId == e.id
  }

  predicate StillRuns(a: WorkAttempt) {
    a.status == Running && a.termination == None && a.endedAt == None && a.endEventId == None
  }

  predicate EndedBy(a: WorkAttempt, e: Event) {
    && a.endedAt == Some(e.timestamp) && a.endEventId == Some(e.id)
    && match e.payload
       case ResourceDisappeared(_, _, reason, _) => a.status == Inconclusive && a.termination == Some(reason)
       case WorkAttemptInterrupted(_, reason) => a.status == Inconclusive && a.termination == Some(reason)
       case WorkAttemptTimedOut(_) => a.status == TimedOut && a.termination == Some(ExecutionTimeout)
       case WorkAttemptCompleted(_) => a.status == Completed && a.termination == None
       case _ => false
  }

  // The attempt as started by entry `s`, and ended by the first event since that names it.
  ghost predicate Tells(log: seq<Event>, s: int, id: string, a: WorkAttempt) {
    && LastStart(log, s, id) && StartedBy(a, log[s])
    && (NoEndSince(log, s, id) ==> StillRuns(a))
    && (!NoEndSince(log, s, id) ==> exists n :: FirstEnd(log, s, n, id) && EndedBy(a, log[n]))
  }

  lemma {:induction false} InterruptedAttempt(f: Fleet, ids: seq<string>, e: Event, reason: Termination, id: string)
    requires id in f.attempts
    ensures id in Interrupt(f, ids, e, reason).attempts
    ensures Interrupt(f, ids, e, reason).attempts[id] ==
            if id in ids && IsRunning(f, id) then Ended(f.attempts[id], e, Inconclusive, Some(reason))
            else f.attempts[id]
  {
    if ids != [] {
      InterruptedAttempt(f, ids[..|ids| - 1], e, reason, id);
      assert ids == ids[..|ids| - 1] + [Last(ids)];
    }
  }

  // What one event does to an attempt that it does not start.
  lemma EventOnAttempt(f: Fleet, e: Event, id: string)
    requires Apply(f, e).Some? && id in f.attempts && !Starts(e, id)
    ensures id in Apply(f, e).value.attempts
    ensures var a, b := f.attempts[id], Apply(f, e).value.attempts[id];
            if Ends(e, id) && a.status == Running
            then EndedBy(b, e) && b == a.(status := b.status, termination := b.termination, endedAt := b.endedAt,
                                          endEventId := b.endEventId)
            else b == a
  {
    match e.payload {
      case ResourceDisappeared(vesselId, leaseId, reason, interrupted) =>
        InterruptedAttempt(f.(unavailable := f.unavailable[vesselId := leaseId]), interrupted, e, reason, id);
      case _ =>
    }
  }

  lemma ToldStays(log: seq<Event>, e: Event, s: int, id: string, a: WorkAttempt)
    requires Tells(log, s, id, a) && !Starts(e, id) && (!Ends(e, id) || a.status != Running)
    ensures Tells(log + [e], s, id, a)
  {
    var longer := log + [e];
    assert forall k :: 0 <= k < |log| ==> longer[k] == log[k];
    assert longer[|log|] == e;
    if !NoEndSince(log, s, id) {
      var n :| FirstEnd(log, s, n, id) && EndedBy(a, log[n]);
      assert FirstEnd(longer, s, n, id);
    }
  }

  lemma ToldEnds(log: seq<Event>, e: Event, s: int, id: string, a: WorkAttempt, b: WorkAttempt)
    requires Tells(log, s, id, a) && !Starts(e, id) && Ends(e, id) && a.status == Running && EndedBy(b, e)
    requires b == a.(status := b.status, termination := b.termination, endedAt := b.endedAt, endEventId := b.endEventId)
    ensures Tells(log + [e], s, id, b)
  {
    var longer := log + [e];
    assert forall k :: 0 <= k < |log| ==> longer[k] == log[k];
    assert longer[|log|] == e;
    assert NoEndSince(log, s, id);
    assert FirstEnd(longer, s, |log|, id);
  }

  /**
   An attempt is the one its last start event describes; it runs exactly while no
   event since has named it as over, and is otherwise ended by the first that did,
   with that event's time, id and kind.
   */
  lemma {:induction false} AttemptByHistory(initial: Fleet, log: seq<Event>, id: string)
    requires NoWork(initial) && ReplayFrom(initial, log).Some? && id in ReplayFrom(initial, log).value.attempts
    ensures exists s :: Tells(log, s, id, ReplayFrom(initial, log).value.attempts[id])
  {
    if log != [] {
      hide Tells, EndedBy, Ends;
      var prior, e := log[..|log| - 1], Last(log);
      assert log == prior + [e];
      var f := ReplayFrom(initial, prior).value;
      var b := ReplayFrom(initial, log).value.attempts[id];
      if Starts(e, id) {
        JustStarted(prior, e, id, b);
      } else {
        EventOnOthers(f, e, id);
        EventOnAttempt(f, e, id);
        AttemptByHistory(initial, prior, id);
        var s :| Tells(prior, s, id, f.attempts[id]);
        if Ends(e, id) && f.attempts[id].status == Running {
          ToldEnds(prior, e, s, id, f.attempts[id], b);
        } else {
          ToldStays(prior, e, s, id, b);
        }
      }
    }
  }

  lemma JustStarted(prior: seq<Event>, e: Event, id: string, a: WorkAttempt)
    requires Starts(e, id) && a == Started(e.payload, e)
    ensures Tells(prior + [e], |prior|, id, a)
  {
    assert (prior + [e])[|prior|] == e;
  }

  // An event brings in no attempt but the one it starts.
  lemma EventOnOthers(f: Fleet, e: Event, id: string)
    requires Apply(f, e).Some? && id in Apply(f, e).value.attempts && !Starts(e, id)
    ensures id in f.attempts
  {
    if e.payload.ResourceDisappeared? {
      var p := e.payload;
      InterruptKeepsOrder(f.(unavailable := f.unavailable[p.vesselId := p.leaseId]), p.interrupted, e, p.reason);
    }
  }

  // ----- vessels -----

  predicate Admits(e: Event, v: string) {
    e.payload.ResourceAdmitted? && e.payload.vessel.id == v
  }

  predicate Renews(e: Event, v: string) {
    e.payload.ResourceLeaseRenewed? && e.payload.vesselId == v
  }

  predicate Removes(e: Event, v: string) {
    e.payload.ResourceDisappeared? && e.payload.vesselId == v
  }

  // The vessel was admitted by entry `s`, or is of the initial vessels if that is -1 (and then the last of its id).
  predicate Joins(vessels: seq<Vessel>, log: seq<Event>, s: int, v: string, base: Vessel) {
    && -1 <= s < |log| && (forall k :: s < k < |log| ==> !Admits(log[k], v))
    && if s >= 0 then Admits(log[s], v) && base == log[s].payload.vessel
       else exists i :: 0 <= i < |vessels| && vessels[i] == base && base.id == v &&
                        forall k :: i < k < |vessels| ==> vessels[k].id != v
  }

  // Its lease is that of the last renewal since, or the one it came with.
  predicate Leased(log: seq<Event>, s: int, v: string, base: Vessel, now: Vessel) {
    && now.id == base.id && now.lifecycle == base.lifecycle
    && if exists k :: 0 <= k < |log| && k > s && Renews(log[k], v)
       then exists k :: 0 <= k < |log| && k > s && Renews(log[k], v) && now.lease == Some(log[k].payload.lease) &&
                        forall l :: k < l < |log| ==> !Renews(log[l], v)
       else now.lease == base.lease
  }

  ghost predicate VesselTold(vessels: seq<Vessel>, log: seq<Event>, v: string, now: Vessel) {
    exists s, base :: Joins(vessels, log, s, v, base) && Leased(log, s, v, base, now)
  }

  // The last event that removed or admitted the vessel is its removal, from under this lease.
  predicate Gone(log: seq<Event>, v: string, leaseId: string) {
    exists k :: 0 <= k < |log| && Removes(log[k], v) && log[k].payload.leaseId == leaseId &&
                forall l :: k < l < |log| ==> !Removes(log[l], v) && !Admits(log[l], v)
  }

  lemma {:induction false} SeededIsLast(vessels: seq<Vessel>, v: string) returns (i: int)
    requires v in ById(vessels)
    ensures 0 <= i < |vessels| && vessels[i] == ById(vessels)[v] && vessels[i].id == v
    ensures forall k :: i < k < |vessels| ==> vessels[k].id != v
  {
    i := |vessels| - 1;
    if Last(vessels).id != v {
      var front := vessels[..|vessels| - 1];
      i := SeededIsLast(front, v);
      assert forall k :: 0 <= k < |front| ==> front[k] == vessels[k];
    }
  }

  lemma SeededVessel(vessels: seq<Vessel>, v: string)
    requires v in ById(vessels)
    ensures VesselTold(vessels, [], v, ById(vessels)[v])
  {
    var i := SeededIsLast(vessels, v);
    assert Joins(vessels, [], -1, v, vessels[i]) && Leased([], -1, v, vessels[i], vessels[i]);
  }

  lemma VesselStays(vessels: seq<Vessel>, log: seq<Event>, e: Event, v: string, now: Vessel)
    requires VesselTold(vessels, log, v, now) && !Admits(e, v) && !Renews(e, v)
    ensures VesselTold(vessels, log + [e], v, now)
  {
    var s, base :| Joins(vessels, log, s, v, base) && Leased(log, s, v, base, now);
    var longer := log + [e];
    assert forall k :: 0 <= k < |log| ==> longer[k] == log[k];
    assert longer[|log|] == e;
    assert Joins(vessels, longer, s, v, base);
    if k :| 0 <= k < |log| && k > s && Renews(log[k], v) && now.lease == Some(log[k].payload.lease) &&
            forall l :: k < l < |log| ==> !Renews(log[l], v) {
      assert Renews(longer[k], v);
    }
    assert Leased(longer, s, v, base, now);
  }

  lemma VesselRenewed(vessels: seq<Vessel>, log: seq<Event>, e: Event, v: string, now: Vessel)
    requires VesselTold(vessels, log, v, now) && Renews(e, v)
    ensures VesselTold(vessels, log + [e], v, now.(lease := Some(e.payload.lease)))
  {
    var s, base :| Joins(vessels, log, s, v, base) && Leased(log, s, v, base, now);
    var longer := log + [e];
    assert forall k :: 0 <= k < |log| ==> longer[k] == log[k];
    assert longer[|log|] == e;
    assert Joins(vessels, longer, s, v, base);
    assert Leased(longer, s, v, base, now.(lease := Some(e.payload.lease)));
  }

  lemma VesselAdmitted(vessels: seq<Vessel>, log: seq<Event>, e: Event, v: string)
    requires Admits(e, v)
    ensures VesselTold(vessels, log + [e], v, e.payload.vessel)
  {
    var longer := log + [e];
    assert longer[|log|] == e;
    assert Joins(vessels, longer, |log|, v, e.payload.vessel);
    assert Leased(longer, |log|, v, e.payload.vessel, e.payload.vessel);
  }

  lemma EventOnVessels(f: Fleet, e: Event, v: string)
    requires Apply(f, e).Some? && v in Apply(f, e).value.vessels
    ensures Admits(e, v) ==> Apply(f, e).value.vessels[v] == e.payload.vessel
    ensures !Admits(e, v) ==> v in f.vessels
    ensures Renews(e, v) ==> Apply(f, e).value.vessels[v] == f.vessels[v].(lease := Some(e.payload.lease))
    ensures !Admits(e, v) && !Renews(e, v) ==> Apply(f, e).value.vessels[v] == f.vessels[v]
  {
    if e.payload.ResourceDisappeared? {
      var p := e.payload;
      InterruptKeepsVessels(f.(unavailable := f.unavailable[p.vesselId := p.leaseId]), p.interrupted, e, p.reason);
    }
  }

  /** A vessel is the one last admitted under its id, or first given, under the lease of its last renewal since. */
  lemma {:induction false} VesselByHistory(crew: set<string>, vessels: seq<Vessel>, log: seq<Event>, v: string)
    requires ReplayFrom(Seeded(crew, vessels), log).Some?
    requires v in ReplayFrom(Seeded(crew, vessels), log).value.vessels
    ensures VesselTold(vessels, log, v, ReplayFrom(Seeded(crew, vessels), log).value.vessels[v])
  {
    hide VesselTold, Apply;
    if log == [] {
      SeededVessel(vessels, v);
    } else {
      var prior, e := log[..|log| - 1], Last(log);
      assert log == prior + [e];
      var f := ReplayFrom(Seeded(crew, vessels), prior).value;
      EventOnVessels(f, e, v);
      if Admits(e, v) {
        VesselAdmitted(vessels, prior, e, v);
      } else {
        VesselByHistory(crew, vessels, prior, v);
        if Renews(e, v) {
          VesselRenewed(vessels, prior, e, v, f.vessels[v]);
        } else {
          VesselStays(vessels, prior, e, v, f.vessels[v]);
        }
      }
    }
  }

  lemma {:induction false} InterruptKeepsUnavailable(f: Fleet, ids: seq<string>, e: Event, reason: Termination)
    ensures Interrupt(f, ids, e, reason).unavailable == f.unavailable
    decreases |ids|
  {
    if ids != [] {
      InterruptKeepsUnavailable(f, ids[..|ids| - 1], e, reason);
    }
  }

  lemma EventOnUnavailable(f: Fleet, e: Event)
    requires Apply(f, e).Some?
    ensures var gone := Apply(f, e).value.unavailable;
            gone == match e.payload
                    case ResourceAdmitted(v) => f.unavailable - {v.id}
                    case ResourceDisappeared(v, leaseId, _, _) => f.unavailable[v := leaseId]
                    case _ => f.unavailable
  {
    if e.payload.ResourceDisappeared? {
      var p := e.payload;
      InterruptKeepsUnavailable(f.(unavailable := f.unavailable[p.vesselId := p.leaseId]), p.interrupted, e, p.reason);
    }
  }

  lemma GoneSnoc(log: seq<Event>, e: Event, v: string, leaseId: string)
    ensures Gone(log + [e], v, leaseId) <==>
            || (Removes(e, v) && e.payload.leaseId == leaseId)
            || (!Removes(e, v) && !Admits(e, v) && Gone(log, v, leaseId))
  {
    var longer := log + [e];
    assert forall k :: 0 <= k < |log| ==> longer[k] == log[k];
    assert longer[|log|] == e;
    if Gone(log, v, leaseId) {
      var k :| 0 <= k < |log| && Removes(log[k], v) && log[k].payload.leaseId == leaseId &&
               forall l :: k < l < |log| ==> !Removes(log[l], v) && !Admits(log[l], v);
      assert Removes(longer[k], v);
    }
  }

  /** A vessel is unavailable exactly if its removal, from under the lease recorded, is the last word on it. */
  lemma {:induction false} UnavailableByHistory(
    crew: set<string>, vessels: seq<Vessel>, log: seq<Event>, v: string, leaseId: string)
    requires ReplayFrom(Seeded(crew, vessels), log).Some?
    ensures var gone := ReplayFrom(Seeded(crew, vessels), log).value.unavailable;
            v in gone && gone[v] == leaseId <==> Gone(log, v, leaseId)
  {
    if log != [] {
      hide Gone, Apply;
      var prior, e := log[..|log| - 1], Last(log);
      assert log == prior + [e];
      UnavailableByHistory(crew, vessels, prior, v, leaseId);
      EventOnUnavailable(ReplayFrom(Seeded(crew, vessels), prior).value, e);
      GoneSnoc(prior, e, v, leaseId);
    }
  }
}
