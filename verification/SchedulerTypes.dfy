/** Fleet, profiles, evidence and candidates as the scheduler sees them. */
module SchedulerTypes {
  import opened Basics

  datatype ExecutionMode = Local | Pool | Pipeline | Compose

  // A time stamp with or without a time zone.
  datatype Instant = Aware(at: real) | Naive

  datatype Metric = Finite(value: real) | NotFinite

  datatype NetworkValue = Number(metric: Metric) | Label(text: string)

  datatype MemoryUnit = MiB | GiB | Bytes

  // Other capacities play no part in the memory bound.
  datatype Capacity = Memory(amount: real, memoryUnit: MemoryUnit) | OtherCapacity(kind: string, amount: real)

  function AsMib(amount: real, memoryUnit: MemoryUnit): real {
    match memoryUnit
    case MiB => amount
    case GiB => amount * 1024.0
    case Bytes => amount / 1048576.0
  }

  datatype Resource = Resource(id: string, capacities: seq<Capacity>)

  datatype ResourceLease = ResourceLease(acquiredAt: real, expiresAt: Option<real>, preemptible: bool)
  {
    predicate Active(now: real) {
      acquiredAt <= now && (expiresAt.None? || now < expiresAt.value)
    }
  }

  datatype Vessel = Vessel(id: string, resources: seq<Resource>, lease: Option<ResourceLease>)

  datatype Link = Link(source: string, target: string, tailscale: bool, direct: bool, directPath: bool)

  // Fields that are only compared stand for their canonical JSON.
  datatype Profile = Profile(
    id: string,
    runtimeId: string,
    strategy: string,
    artifactKey: string,
    resources: seq<string>,
    requirements: seq<Capacity>,
    options: string)

  datatype Runtime = Runtime(runtimeId: string, version: Option<string>, buildId: Option<string>, detail: string)

  datatype ValidationState = Supported | Unsupported | Undetermined

  datatype Validation = Validation(
    runtime: Runtime,
    profileId: string,
    artifactKey: string,
    resources: seq<string>,
    strategy: string,
    options: string,
    state: ValidationState,
    rationale: string,
    detail: string)

  datatype Workload = Workload(name: string, promptTokens: int, outputTokens: int, cold: bool)

  datatype Observation = Observation(
    id: string,
    timestamp: Instant,
    profile: Profile,
    mode: ExecutionMode,
    resources: seq<string>,
    workload: Workload,
    measured: bool,
    failed: bool,
    runtime: Option<Runtime>,
    loadSeconds: Option<Metric>,
    ttftSeconds: Option<Metric>,
    prefillTps: Option<Metric>,
    decodeTps: Option<Metric>,
    powerWatts: Option<Metric>,
    residencyMib: map<string, Metric>,
    utilization: map<string, Metric>,
    network: map<string, NetworkValue>)

  datatype PreemptionPolicy = Allow | Prefer | Forbid

  datatype Mission = Mission(
    requiredResources: set<string>,
    synchronousAcrossNodes: bool,
    allowModes: set<ExecutionMode>,
    workload: Option<Workload>,
    evidenceNotBefore: Option<Instant>,
    safetyOk: bool,
    cooperationOk: bool,
    minimumMemoryMib: real,
    allowUnknownRuntime: bool,
    preemptionPolicy: PreemptionPolicy)

  datatype Plan = Plan(
    planId: string, mode: ExecutionMode, vessels: seq<string>, resources: seq<string>, profileId: string)

  datatype Reason =
    | NoFeasibilityValidation
    | ProfileUnsupported(rationale: string)
    | ProfileUnknown(rationale: string)
    | SafetyFailed
    | CooperationFailed
    | ModeOutsideConstraints
    | RequiredResourceMissing
    | PairingMismatch
    | VesselUnavailable
    | LeaseNotActive(vesselId: string)
    | PreemptibleForbidden(vesselId: string)
    | CapacityUnknown
    | CapacityExceeded
    | NoDirectPath
    | NoComparableEvidence

  // `tier` stands for the leading components, equal for all eligible candidates.
  datatype Rank = Rank(tier: int, unmeasured: int, preference: int, discontinuity: int, slowness: real)

  datatype Candidate = Candidate(
    plan: Plan,
    eligible: bool,
    reasons: seq<Reason>,
    evidence: Option<Observation>,
    preference: int,
    rank: Option<Rank>)
}
