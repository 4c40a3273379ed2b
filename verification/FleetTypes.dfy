/** Vessels, leases, attempts, missions and the events that change them. */
module FleetTypes {
  import opened Basics

  datatype VesselLifecycle = Persistent | Ephemeral | External

  datatype AttemptStatus = Running | Inconclusive | TimedOut | Completed

  datatype Termination = LeaseLost | RunnerInterrupted | ExecutionTimeout

  datatype MissionStatus = Active | ReplanRequired | MissionCompleted

  datatype ResourceLease = ResourceLease(
    id: string, acquiredAt: real, expiresAt: Option<real>, preemptible: bool, renewable: bool)
  {
    predicate Valid() {
      id != "" && (expiresAt.Some? ==> acquiredAt < expiresAt.value)
    }

    // Expiry is exclusive.
    predicate ActiveAt(now: real) {
      acquiredAt <= now && (expiresAt.None? || now < expiresAt.value)
    }
  }

  datatype Vessel = Vessel(id: string, lifecycle: VesselLifecycle, lease: Option<ResourceLease>) {
    predicate Valid() {
      lease.Some? == (lifecycle != Persistent) && (lease.Some? ==> lease.value.Valid())
    }
  }

  datatype WorkAttempt = WorkAttempt(
    attemptId: string, missionId: string, vesselId: string, leaseId: string, restartable: bool,
    status: AttemptStatus, termination: Option<Termination>,
    startedAt: real, endedAt: Option<real>, startEventId: string, endEventId: Option<string>)

  datatype MissionRun = MissionRun(
    missionId: string, status: MissionStatus, attemptIds: seq<string>, activeAttemptIds: seq<string>)

  // `Malformed` is an event whose payload lacks something its handler reads, and `valid` says whether the
  // embodiment in an event passes validation.  `Unrelated` is every event type without a handler, and the
  // ruptures and repairs, whose handlers only keep a list of their own.
  datatype Payload =
    | ResourceAdmitted(vessel: Vessel)
    | ResourceLeaseRenewed(vesselId: string, lease: ResourceLease)
    | ResourceDisappeared(vesselId: string, leaseId: string, reason: Termination, interrupted: seq<string>)
    | WorkAttemptStarted(attemptId: string, missionId: string, vesselId: string, leaseId: string, restartable: bool)
    | WorkAttemptInterrupted(attemptId: string, reason: Termination)
    | WorkAttemptTimedOut(attemptId: string)
    | WorkAttemptCompleted(finished: Option<string>)
    | EmbodimentChanged(crewId: string, valid: bool)
    | CompetenceUpdated(crewId: string)
    | Malformed
    | Unrelated

  datatype Event = Event(id: string, timestamp: real, payload: Payload)

  // `crew` holds the ids of the crew members, and `order` is the order in which the ids of `attempts` were
  // first inserted.
  datatype Fleet = Fleet(
    crew: set<string>, vessels: map<string, Vessel>, unavailable: map<string, string>,
    attempts: map<string, WorkAttempt>, order: seq<string>, missions: map<string, MissionRun>)

  const EMPTY_FLEET := Fleet({}, map[], map[], map[], [], map[])
}
