/** When replay raises, and what that does to the controller. */
module FleetFailures {
  import opened Basics
  import opened FleetTypes
  import opened FleetReplay
  import opened FleetController

  // ----- exactly when replay raises -----

  // One of the first `n` events admits a vessel of this id.
  predicate AdmittedBefore(log: seq<Event>, n: nat, vesselId: string)
    requires n <= |log|
  {
    exists i :: 0 <= i < n && log[i].payload.ResourceAdmitted? && log[i].payload.vessel.id == vesselId
  }

  /** The i-th event is invalid, or about a crew member that was not there from the start. */
  predicate Breaks(initial: Fleet, log: seq<Event>, i: nat)
    requires i < |log|
  {
    match log[i].payload
    case ResourceAdmitted(v) => !v.Valid()
    case ResourceLeaseRenewed(vesselId, lease) =>
      !lease.Valid() && (vesselId in initial.vessels || AdmittedBefore(log, i, vesselId))
    case ResourceDisappeared(_, _, reason, _) => reason == ExecutionTimeout
    case WorkAttemptInterrupted(_, reason) => reason == ExecutionTimeout
    case EmbodimentChanged(crewId, valid) => crewId !in initial.crew || !valid
    case CompetenceUpdated(crewId) => crewId !in initial.crew
    case Malformed => true
    case _ => false
  }

  lemma {:induction false} InterruptKeepsFleet(f: Fleet, ids: seq<string>, e: Event, reason: Termination)
    ensures Interrupt(f, ids, e, reason).vessels == f.vessels && Interrupt(f, ids, e, reason).crew == f.crew
    decreases |ids|
  {
    if ids != [] {
      InterruptKeepsFleet(f, ids[..|ids| - 1], e, reason);
    }
  }

  // Only admissions add vessels, and nothing adds crew.
  lemma ApplyKeepsFleet(f: Fleet, e: Event)
    requires Apply(f, e).Some?
    ensures var f' := Apply(f, e).value;
            && f'.crew == f.crew
            && f'.vessels.Keys == f.vessels.Keys + if e.payload.ResourceAdmitted? then {e.payload.vessel.id} else {}
  {
    if e.payload.ResourceDisappeared? {
      var p := e.payload;
      InterruptKeepsFleet(f.(unavailable := f.unavailable[p.vesselId := p.leaseId]), p.interrupted, e, p.reason);
    }
  }

  lemma AdmittedBeforeSnoc(log: seq<Event>, n: nat, vesselId: string)
    requires n < |log|
    ensures AdmittedBefore(log[..|log| - 1], n, vesselId) == AdmittedBefore(log, n, vesselId)
    ensures AdmittedBefore(log, n + 1, vesselId) <==>
            AdmittedBefore(log, n, vesselId) ||
            (log[n].payload.ResourceAdmitted? && log[n].payload.vessel.id == vesselId)
  {
    var prior := log[..|log| - 1];
    assert forall i :: 0 <= i < n ==> prior[i] == log[i];
  }

  lemma {:induction false} ReplayKnowsVessels(initial: Fleet, log: seq<Event>)
    requires ReplayFrom(initial, log).Some?
    ensures var f := ReplayFrom(initial, log).value;
            && f.crew == initial.crew
            && forall v :: v in f.vessels <==> v in initial.vessels || AdmittedBefore(log, |log|, v)
    decreases |log|
  {
    hide Apply;
    if log != [] {
      var prior := log[..|log| - 1];
      ReplayKnowsVessels(initial, prior);
      ApplyKeepsFleet(ReplayFrom(initial, prior).value, Last(log));
      var f := ReplayFrom(initial, log).value;
      forall v ensures v in f.vessels <==> v in initial.vessels || AdmittedBefore(log, |log|, v) {
        AdmittedBeforeSnoc(log, |log| - 1, v);
      }
    }
  }

  lemma LastBreaks(initial: Fleet, log: seq<Event>)
    requires log != [] && ReplayFrom(initial, log[..|log| - 1]).Some?
    ensures ReplayFrom(initial, log).None? <==> Breaks(initial, log, |log| - 1)
  {
    var prior := log[..|log| - 1];
    ReplayKnowsVessels(initial, prior);
    if Last(log).payload.ResourceLeaseRenewed? {
      AdmittedBeforeSnoc(log, |log| - 1, Last(log).payload.vesselId);
    }
  }

  lemma EarlierBreaks(initial: Fleet, log: seq<Event>, i: nat)
    requires i < |log| - 1
    ensures Breaks(initial, log[..|log| - 1], i) == Breaks(initial, log, i)
  {
    if log[i].payload.ResourceLeaseRenewed? {
      AdmittedBeforeSnoc(log, i, log[i].payload.vesselId);
    }
  }

  /** Replay raises exactly when some event is invalid where it stands or about an unknown crew member. */
  lemma {:induction false} ReplayRaisesIff(initial: Fleet, log: seq<Event>)
    ensures ReplayFrom(initial, log).None? <==> exists i :: 0 <= i < |log| && Breaks(initial, log, i)
    decreases |log|
  {
    hide Breaks;
    if log != [] {
      var prior := log[..|log| - 1];
      ReplayRaisesIff(initial, prior);
      forall i | 0 <= i < |prior| ensures Breaks(initial, prior, i) == Breaks(initial, log, i) {
        EarlierBreaks(initial, log, i);
      }
      if ReplayFrom(initial, prior).None? {
        var i :| 0 <= i < |prior| && Breaks(initial, prior, i);
        assert Breaks(initial, log, i);
      } else {
        LastBreaks(initial, log);
      }
    }
  }

  // ----- crew events in the controller's log -----

  predicate AboutCrew(p: Payload) {
    p.EmbodimentChanged? || p.CompetenceUpdated?
  }

  predicate ByOthers(p: Payload) {
    p.WorkAttemptCompleted? || p.Unrelated? || (p.WorkAttemptInterrupted? && p.reason != ExecutionTimeout)
  }

  /** A log written by one controller, with anything well-formed from other writers mixed in, crew events included. */
  ghost predicate Mixed(log: seq<Event>)
    decreases |log|
  {
    log == [] ||
    (var prior, e := log[..|log| - 1], Last(log);
     && Mixed(prior)
     && (|| AboutCrew(e.payload) || ByOthers(e.payload)
         || (Replay(prior).Some? && Permitted(Replay(prior).value, e))))
  }

  lemma MixedOneMore(log: seq<Event>, e: Event)
    requires Mixed(log)
    requires || AboutCrew(e.payload) || ByOthers(e.payload)
             || (Replay(log).Some? && Permitted(Replay(log).value, e))
    ensures Mixed(log + [e])
  {
    assert (log + [e])[..|log|] == log;
  }

  /**
   The controller replays its log without any crew: it goes on working exactly as
   long as nobody has written an event about a crew member, and until then the
   log is one of those it produces.
   */
  lemma {:induction false} MixedLogsReplayIff(log: seq<Event>)
    requires Mixed(log)
    ensures Replay(log).Some? <==> forall i :: 0 <= i < |log| ==> !AboutCrew(log[i].payload)
    ensures Replay(log).Some? ==> Produced(log)
    decreases |log|
  {
    if log != [] {
      var prior, e := log[..|log| - 1], Last(log);
      MixedLogsReplayIff(prior);
      assert log == prior + [e];
      if exists i :: 0 <= i < |log| && AboutCrew(log[i].payload) {
        var i :| 0 <= i < |log| && AboutCrew(log[i].payload);
        assert Breaks(EMPTY_FLEET, log, i);
        ReplayRaisesIff(EMPTY_FLEET, log);
      } else {
        assert forall i :: 0 <= i < |prior| ==> prior[i] == log[i];
        assert log[|log| - 1] == e;
        assert Permitted(Replay(prior).value, e);
        ProducedLogsKeepLeases(log);
      }
    }
  }

  /** An admission, and then an event about a crew member: every later operation of the controller raises. */
  lemma CrewEventStopsController()
    ensures var lease := ResourceLease("l", 0.0, None, false, true);
            var admitted := Event("e1", 1.0, ResourceAdmitted(Vessel("v", Ephemeral, Some(lease))));
            var changed := Event("e2", 2.0, EmbodimentChanged("c", true));
            Mixed([admitted, changed]) && Replay([admitted]).Some? && Replay([admitted, changed]).None?
  {
    var lease := ResourceLease("l", 0.0, None, false, true);
    var admitted := Event("e1", 1.0, ResourceAdmitted(Vessel("v", Ephemeral, Some(lease))));
    var changed := Event("e2", 2.0, EmbodimentChanged("c", true));
    assert [] + [admitted] == [admitted] && [admitted] + [changed] == [admitted, changed];
    ReplayOneMore([], admitted);
    MixedOneMore([], admitted);
    ReplayOneMore([admitted], changed);
    MixedOneMore([admitted], changed);
  }
}
