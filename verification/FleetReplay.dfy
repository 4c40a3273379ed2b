/**
 Replaying the fleet event log.  The functions say what one event does to the
 fleet; the class is the state that replay updates in place, and its methods
 are proved to do what the functions say.  None stands for the exception of a
 payload that fails validation, lacks a key, or names an unknown crew member.
 */
module FleetReplay {
  import opened Basics
  import opened FleetTypes

  function Without(ids: seq<string>, id: string): (rest: seq<string>)
    ensures forall x :: x in rest <==> x in ids && x != id
  {
    if ids == [] then []
    else if ids[0] == id then Without(ids[1..], id)
    else [ids[0]] + Without(ids[1..], id)
  }

  function MissionOf(f: Fleet, missionId: string): MissionRun {
    if missionId in f.missions then f.missions[missionId] else MissionRun(missionId, Active, [], [])
  }

  function StatusAfter(active: seq<string>, ended: AttemptStatus): MissionStatus {
    if active != [] then Active else if ended == Completed then MissionCompleted else ReplanRequired
  }

  predicate IsRunning(f: Fleet, attemptId: string) {
    attemptId in f.attempts && f.attempts[attemptId].status == Running
  }

  function Ended(a: WorkAttempt, e: Event, status: AttemptStatus, termination: Option<Termination>): WorkAttempt {
    a.(status := status, termination := termination, endedAt := Some(e.timestamp), endEventId := Some(e.id))
  }

  /** A running attempt ends once; ending any other attempt changes nothing. */
  function EndAttempt(
    f: Fleet, attemptId: string, e: Event, status: AttemptStatus, termination: Option<Termination>): Fleet
  {
    if !IsRunning(f, attemptId) then f
    else
      var a := f.attempts[attemptId];
      var m := MissionOf(f, a.missionId);
      var active := Without(m.activeAttemptIds, attemptId);
      f.(attempts := f.attempts[attemptId := Ended(a, e, status, termination)],
         missions := f.missions[a.missionId := m.(activeAttemptIds := active, status := StatusAfter(active, status))])
  }

  function Interrupt(f: Fleet, ids: seq<string>, e: Event, reason: Termination): Fleet
    decreases |ids|
  {
    if ids == [] then f
    else EndAttempt(Interrupt(f, ids[..|ids| - 1], e, reason), Last(ids), e, Inconclusive, Some(reason))
  }

  function Started(p: Payload, e: Event): WorkAttempt
    requires p.WorkAttemptStarted?
  {
    WorkAttempt(p.attemptId, p.missionId, p.vesselId, p.leaseId, p.restartable,
                Running, None, e.timestamp, None, e.id, None)
  }

  function Start(f: Fleet, e: Event): Fleet
    requires e.payload.WorkAttemptStarted?
  {
    var p := e.payload;
    var m := MissionOf(f, p.missionId);
    f.(attempts := f.attempts[p.attemptId := Started(p, e)],
       order := if p.attemptId in f.attempts then f.order else f.order + [p.attemptId],
       missions := f.missions[p.missionId := m.(status := Active, attemptIds := m.attemptIds + [p.attemptId],
                                                activeAttemptIds := m.activeAttemptIds + [p.attemptId])])
  }

  function Apply(f: Fleet, e: Event): Option<Fleet> {
    match e.payload
    case ResourceAdmitted(v) =>
      if !v.Valid() then None
      else Some(f.(vessels := f.vessels[v.id := v], unavailable := f.unavailable - {v.id}))
    case ResourceLeaseRenewed(vesselId, lease) =>
      if vesselId !in f.vessels then Some(f)
      else if !lease.Valid() then None
      else Some(f.(vessels := f.vessels[vesselId := f.vessels[vesselId].(lease := Some(lease))]))
    case ResourceDisappeared(vesselId, leaseId, reason, interrupted) =>
      if reason == ExecutionTimeout then None
      else Some(Interrupt(f.(unavailable := f.unavailable[vesselId := leaseId]), interrupted, e, reason))
    case WorkAttemptStarted(_, _, _, _, _) => Some(Start(f, e))
    case WorkAttemptInterrupted(id, reason) =>
      if reason == ExecutionTimeout then None else Some(EndAttempt(f, id, e, Inconclusive, Some(reason)))
    case WorkAttemptTimedOut(id) => Some(EndAttempt(f, id, e, TimedOut, Some(ExecutionTimeout)))
    case WorkAttemptCompleted(finished) =>
      if finished.None? then Some(f) else Some(EndAttempt(f, finished.value, e, Completed, None))
    case EmbodimentChanged(crewId, valid) => if crewId in f.crew && valid then Some(f) else None
    case CompetenceUpdated(crewId) => if crewId in f.crew then Some(f) else None
    case Malformed => None
    case Unrelated => Some(f)
  }

  function ReplayFrom(initial: Fleet, log: seq<Event>): Option<Fleet>
    decreases |log|
  {
    if log == [] then Some(initial)
    else
      var before := ReplayFrom(initial, log[..|log| - 1]);
      if before.None? then None else Apply(before.value, Last(log))
  }

  function Replay(log: seq<Event>): Option<Fleet> {
    ReplayFrom(EMPTY_FLEET, log)
  }

  // A dictionary by id: of vessels sharing one, the last.
  function ById(vessels: seq<Vessel>): map<string, Vessel> {
    if vessels == [] then map[] else ById(vessels[..|vessels| - 1])[Last(vessels).id := Last(vessels)]
  }

  /** The fleet before any event: initial crew and vessels, and no work. */
  function Seeded(crew: set<string>, vessels: seq<Vessel>): Fleet {
    EMPTY_FLEET.(crew := crew, vessels := ById(vessels))
  }

  predicate NoWork(f: Fleet) {
    f.attempts == map[] && f.missions == map[] && f.order == []
  }

  lemma ReplayFromOneMore(initial: Fleet, log: seq<Event>, e: Event)
    ensures var before := ReplayFrom(initial, log);
            ReplayFrom(initial, log + [e]) == if before.None? then None else Apply(before.value, e)
  {
    assert (log + [e])[..|log|] == log;
  }

  lemma ReplayOneMore(log: seq<Event>, e: Event)
    ensures Replay(log + [e]) == if Replay(log).None? then None else Apply(Replay(log).value, e)
  {
    ReplayFromOneMore(EMPTY_FLEET, log, e);
  }

  /** The materialized state, updated in place by each event. */
  class FleetState {
    const crew: set<string>
    var vessels: map<string, Vessel>
    var unavailable: map<string, string>
    var attempts: map<string, WorkAttempt>
    var order: seq<string>
    var missions: map<string, MissionRun>

    function View(): Fleet
      reads this
    {
      Fleet(crew, vessels, unavailable, attempts, order, missions)
    }

    constructor (crew: set<string>, vessels: map<string, Vessel>)
      ensures View() == EMPTY_FLEET.(crew := crew, vessels := vessels)
    {
      this.crew := crew;
      this.vessels, unavailable, attempts, order, missions := vessels, map[], map[], [], map[];
    }

    method End(attemptId: string, e: Event, status: AttemptStatus, termination: Option<Termination>)
      modifies this
      ensures View() == EndAttempt(old(View()), attemptId, e, status, termination)
    {
      if attemptId !in attempts || attempts[attemptId].status != Running {
        return;
      }
      var attempt := attempts[attemptId];
      attempts := attempts[attemptId := Ended(attempt, e, status, termination)];
      if attempt.missionId !in missions {
        missions := missions[attempt.missionId := MissionRun(attempt.missionId, Active, [], [])];
      }
      var mission := missions[attempt.missionId];
      var active := Without(mission.activeAttemptIds, attemptId);
      mission := mission.(activeAttemptIds := active);
      if active != [] {
        mission := mission.(status := Active);
      } else if status == Completed {
        mission := mission.(status := MissionCompleted);
      } else {
        mission := mission.(status := ReplanRequired);
      }
      missions := missions[attempt.missionId := mission];
    }

    method ApplyDisappeared(e: Event) returns (ok: bool)
      requires e.payload.ResourceDisappeared?
      modifies this
      ensures ok == Apply(old(View()), e).Some?
      ensures ok ==> View() == Apply(old(View()), e).value
    {
      var p := e.payload;
      unavailable := unavailable[p.vesselId := p.leaseId];
      if p.reason == ExecutionTimeout {
        return false;
      }
      ghost var gone := View();
      for i := 0 to |p.interrupted|
        invariant View() == Interrupt(gone, p.interrupted[..i], e, p.reason)
      {
        assert p.interrupted[..i + 1][..i] == p.interrupted[..i];
        End(p.interrupted[i], e, Inconclusive, Some(p.reason));
      }
      assert p.interrupted[..|p.interrupted|] == p.interrupted;
      return true;
    }

    method ApplyStarted(e: Event)
      requires e.payload.WorkAttemptStarted?
      modifies this
      ensures View() == Start(old(View()), e)
    {
      var p := e.payload;
      if p.attemptId !in attempts {
        order := order + [p.attemptId];
      }
      attempts := attempts[p.attemptId := Started(p, e)];
      if p.missionId !in missions {
        missions := missions[p.missionId := MissionRun(p.missionId, Active, [], [])];
      }
      var mission := missions[p.missionId];
      mission := mission.(status := Active);
      mission := mission.(attemptIds := mission.attemptIds + [p.attemptId]);
      mission := mission.(activeAttemptIds := mission.activeAttemptIds + [p.attemptId]);
      missions := missions[p.missionId := mission];
    }

    method ApplyEvent(e: Event) returns (ok: bool)
      modifies this
      ensures ok == Apply(old(View()), e).Some?
      ensures ok ==> View() == Apply(old(View()), e).value
    {
      ok := true;
      match e.payload {
        case ResourceAdmitted(v) =>
          if !v.Valid() {
            return false;
          }
          vessels := vessels[v.id := v];
          unavailable := unavailable - {v.id};
        case ResourceLeaseRenewed(vesselId, lease) =>
          if vesselId in vessels {
            if !lease.Valid() {
              return false;
            }
            vessels := vessels[vesselId := vessels[vesselId].(lease := Some(lease))];
          }
        case ResourceDisappeared(_, _, _, _) =>
          ok := ApplyDisappeared(e);
        case WorkAttemptStarted(_, _, _, _, _) =>
          ApplyStarted(e);
        case WorkAttemptInterrupted(id, reason) =>
          if reason == ExecutionTimeout {
            return false;
          }
          End(id, e, Inconclusive, Some(reason));
        case WorkAttemptTimedOut(id) =>
          End(id, e, TimedOut, Some(ExecutionTimeout));
        case WorkAttemptCompleted(finished) =>
          if finished.Some? {
            End(finished.value, e, Completed, None);
          }
        case EmbodimentChanged(crewId, valid) =>
          ok := crewId in crew && valid;
        case CompetenceUpdated(crewId) =>
          ok := crewId in crew;
        case Malformed =>
          ok := false;
        case Unrelated =>
      }
    }
  }

  /** Replays a whole log over initial crew and vessels; `ok` is false when the handler of some event raises. */
  method Materialize(events: seq<Event>, initialCrew: set<string>, initialVessels: seq<Vessel>)
    returns (ok: bool, state: FleetState)
    ensures fresh(state)
    ensures ok == ReplayFrom(Seeded(initialCrew, initialVessels), events).Some?
    ensures ok ==> state.View() == ReplayFrom(Seeded(initialCrew, initialVessels), events).value
  {
    ghost var initial := Seeded(initialCrew, initialVessels);
    state := new FleetState(initialCrew, ById(initialVessels));
    ok := true;
    for i := 0 to |events|
      invariant ok ==> ReplayFrom(initial, events[..i]) == Some(state.View())
      invariant !ok ==> ReplayFrom(initial, events[..i]).None?
      invariant fresh(state)
    {
      assert events[..i + 1] == events[..i] + [events[i]];
      ReplayFromOneMore(initial, events[..i], events[i]);
      if ok {
        ok := state.ApplyEvent(events[i]);
      }
    }
    assert events[..|events|] == events;
  }
}
