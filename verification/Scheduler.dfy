/** Evidence-gated choice of an execution plan. */
module Scheduler {
  import opened Basics
  import opened Ordering
  import opened SchedulerTypes

  // What a scheduler knows; the fields do not change once it is built.
  datatype Scheduler = Scheduler(
    vessels: seq<Vessel>,
    links: seq<Link>,
    benchmarks: seq<Observation>,
    validations: seq<Validation>,
    currentRuntimes: map<string, Runtime>,
    now: real)

  // ----- the current runtimes -----

  ghost predicate OneRuntime(runtimes: seq<Runtime>, id: string, runtime: Runtime) {
    && runtime in runtimes && runtime.runtimeId == id
    && forall r :: r in runtimes && r.runtimeId == id ==> r == runtime
  }

  function AllEqual(group: seq<Runtime>): (b: bool)
    requires group != []
    ensures b <==> forall r :: r in group ==> r == group[0]
  {
    forall r :: r in group ==> r == group[0]
  }

  /** A runtime is current exactly when every report of its id agrees on it. */
  method CurrentRuntimes(runtimes: seq<Runtime>) returns (current: map<string, Runtime>)
    ensures forall id, runtime :: id in current && current[id] == runtime <==> OneRuntime(runtimes, id, runtime)
  {
    var groups: map<string, seq<Runtime>> := map[];
    for i := 0 to |runtimes|
      invariant forall id :: id in groups ==> groups[id] != []
      invariant forall id, r :: id in groups && r in groups[id] <==> r in runtimes[..i] && r.runtimeId == id
    {
      var runtime := runtimes[i];
      assert runtimes[..i + 1] == runtimes[..i] + [runtime];
      var group := if runtime.runtimeId in groups then groups[runtime.runtimeId] else [];
      groups := groups[runtime.runtimeId := group + [runtime]];
    }
    assert runtimes[..|runtimes|] == runtimes;
    current := map id | id in groups && groups[id] != [] && AllEqual(groups[id]) :: groups[id][0];
    forall id, runtime
      ensures id in current && current[id] == runtime <==> OneRuntime(runtimes, id, runtime)
    {
      if OneRuntime(runtimes, id, runtime) {
        assert runtime in groups[id];
      }
    }
  }

  method Create(
    vessels: seq<Vessel>,
    links: seq<Link>,
    benchmarks: seq<Observation>,
    validations: seq<Validation>,
    runtimes: seq<Runtime>,
    now: Instant)
    returns (scheduler: Option<Scheduler>)
    ensures scheduler.Some? <==> now.Aware?
    ensures scheduler.Some? ==> Built(scheduler.value, vessels, links, benchmarks, validations, runtimes, now.at)
  {
    var current := CurrentRuntimes(runtimes);
    if now.Naive? {
      return None;
    }
    return Some(Scheduler(vessels, links, benchmarks, validations, current, now.at));
  }

  ghost predicate Built(
    s: Scheduler, vessels: seq<Vessel>, links: seq<Link>, benchmarks: seq<Observation>, validations: seq<Validation>,
    runtimes: seq<Runtime>, now: real)
  {
    && s == Scheduler(vessels, links, benchmarks, validations, s.currentRuntimes, now)
    && forall id, runtime ::
         id in s.currentRuntimes && s.currentRuntimes[id] == runtime <==> OneRuntime(runtimes, id, runtime)
  }

  function RuntimeFor(s: Scheduler, profile: Profile): Option<Runtime> {
    if profile.runtimeId in s.currentRuntimes then Some(s.currentRuntimes[profile.runtimeId]) else None
  }

  predicate Known(text: Option<string>) {
    text.Some? && text.value != ""
  }

  // ----- validation -----

  predicate Certifies(v: Validation, runtime: Runtime, profile: Profile) {
    && v.profileId == profile.id && v.runtime == runtime
    && v.artifactKey == profile.artifactKey
    && v.resources == profile.resources
    && v.strategy == profile.strategy && v.options == profile.options
  }

  ghost predicate SoleValidation(s: Scheduler, profile: Profile, v: Validation) {
    var runtime := RuntimeFor(s, profile);
    && runtime.Some? && (Known(runtime.value.version) || Known(runtime.value.buildId))
    && v in s.validations && Certifies(v, runtime.value, profile)
    && forall w :: w in s.validations && Certifies(w, runtime.value, profile) ==> w == v
  }

  function SoleElement<T(==, !new)>(elements: set<T>): (r: Option<T>)
    ensures forall x :: r == Some(x) <==> elements == {x}
  {
    if |elements| != 1 then None
    else
      assert exists x :: elements == {x} by { Singleton(elements); }
      var x :| x in elements;
      Some(x)
  }

  lemma Singleton<T>(elements: set<T>)
    requires |elements| == 1
    ensures exists x :: elements == {x}
  {
    var x :| x in elements;
    assert |elements - {x}| == 0;
    assert elements == {x};
  }

  /** The one validation that certifies a profile on an identified runtime; contradictory ones certify nothing. */
  function ValidationFor(s: Scheduler, profile: Profile): (r: Option<Validation>)
    ensures forall v :: r == Some(v) <==> SoleValidation(s, profile, v)
  {
    var runtime := RuntimeFor(s, profile);
    if runtime.None? || !(Known(runtime.value.version) || Known(runtime.value.buildId)) then None
    else
      var matches := set v | v in s.validations && Certifies(v, runtime.value, profile);
      assert forall v :: matches == {v} <==> SoleValidation(s, profile, v) by {
        forall v ensures matches == {v} <==> SoleValidation(s, profile, v) { SoleMatch(s, profile, matches, v); }
      }
      SoleElement(matches)
  }

  lemma SoleMatch(s: Scheduler, profile: Profile, matches: set<Validation>, v: Validation)
    requires var runtime := RuntimeFor(s, profile);
             && runtime.Some? && (Known(runtime.value.version) || Known(runtime.value.buildId))
             && matches == set w | w in s.validations && Certifies(w, runtime.value, profile)
    ensures matches == {v} <==> SoleValidation(s, profile, v)
  {
    if matches == {v} {
      assert v in matches;
      forall w | w in s.validations && Certifies(w, RuntimeFor(s, profile).value, profile) ensures w == v {
        assert w in matches;
      }
    }
  }

  // ----- evidence -----

  predicate IsFresh(timestamp: Instant, cutoff: Instant, clock: real) {
    timestamp.Aware? && cutoff.Aware? && cutoff.at <= timestamp.at <= clock
  }

  predicate Compatible(b: Observation, mission: Mission, plan: Plan, profile: Profile, runtime: Runtime) {
    && b.profile == profile && b.mode == plan.mode
    && b.resources == plan.resources && Some(b.workload) == mission.workload
    && b.runtime == Some(runtime) && !b.failed
    && b.measured
  }

  predicate PrefillOnly(workload: Workload) {
    workload.promptTokens != 0 && workload.outputTokens == 0
  }

  // The metric the workload is about.
  function Throughput(b: Observation): Option<Metric> {
    if PrefillOnly(b.workload) then b.prefillTps else b.decodeTps
  }

  predicate Sensible(metric: Metric) {
    metric.Finite? && metric.value >= 0.0
  }

  predicate SensibleOrAbsent(metric: Option<Metric>) {
    metric.Some? ==> Sensible(metric.value)
  }

  predicate ValidMetrics(b: Observation) {
    && Throughput(b).Some?
    && SensibleOrAbsent(b.loadSeconds) && SensibleOrAbsent(b.ttftSeconds) && SensibleOrAbsent(b.prefillTps)
    && SensibleOrAbsent(b.decodeTps) && SensibleOrAbsent(b.powerWatts)
    && (forall k :: k in b.residencyMib ==> Sensible(b.residencyMib[k]))
    && (forall k :: k in b.utilization ==> Sensible(b.utilization[k]))
    && (forall k :: k in b.network && b.network[k].Number? ==> Sensible(b.network[k].metric))
  }

  predicate Comparable(s: Scheduler, clock: real, mission: Mission, plan: Plan, profile: Profile, b: Observation) {
    var runtime, cutoff := RuntimeFor(s, profile), mission.evidenceNotBefore;
    && runtime.Some? && mission.workload.Some? && cutoff.Some?
    && Compatible(b, mission, plan, profile, runtime.value)
    && IsFresh(b.timestamp, cutoff.value, clock) && ValidMetrics(b)
  }

  function WithoutId(b: Observation): Observation {
    b.(id := "")
  }

  /** Comparable, no comparable record differs in more than its id, and none has a later id. */
  ghost predicate SoleEvidence(
    s: Scheduler, clock: real, mission: Mission, plan: Plan, profile: Profile, b: Observation)
  {
    && b in s.benchmarks && Comparable(s, clock, mission, plan, profile, b)
    && forall c :: c in s.benchmarks && Comparable(s, clock, mission, plan, profile, c) ==>
         WithoutId(c) == WithoutId(b) && !StringLess(b.id, c.id)
  }

  function Comparables(
    s: Scheduler, clock: real, mission: Mission, plan: Plan, profile: Profile, n: nat): (r: seq<Observation>)
    requires n <= |s.benchmarks|
    ensures forall b :: b in r <==> b in s.benchmarks[..n] && Comparable(s, clock, mission, plan, profile, b)
  {
    if n == 0 then []
    else
      assert s.benchmarks[..n] == s.benchmarks[..n - 1] + [s.benchmarks[n - 1]];
      var earlier := Comparables(s, clock, mission, plan, profile, n - 1);
      var b := s.benchmarks[n - 1];
      if Comparable(s, clock, mission, plan, profile, b) then earlier + [b] else earlier
  }

  predicate EarlierId(a: Observation, b: Observation) {
    StringLess(a.id, b.id)
  }

  lemma IdsAreSortable()
    ensures Sortable(EarlierId)
  {
    StringsAreSortable();
    assert forall a: Observation, b: Observation :: EarlierId(a, b) <==> Precedes(a.id, b.id);
  }

  ghost predicate Stands(b: Observation, comparable: seq<Observation>) {
    && b in comparable
    && forall c :: c in comparable ==> WithoutId(c) == WithoutId(b) && !StringLess(b.id, c.id)
  }

  // The last of the records sorted by id, if they agree on everything else.
  function Representative(comparable: seq<Observation>): (r: Option<Observation>)
    ensures forall b :: r == Some(b) <==> Stands(b, comparable)
  {
    var unique := set b | b in comparable :: WithoutId(b);
    if |unique| != 1 then
      assert forall b :: Stands(b, comparable) ==> unique == {WithoutId(b)};
      None
    else
      assert comparable != [];
      LastIsOnlyCandidate(comparable, unique);
      Some(Last(Sorted(comparable, EarlierId)))
  }

  /** Repeated records of one measurement count once; different measurements leave the matter open. */
  function EvidenceFor(
    s: Scheduler, clock: real, mission: Mission, plan: Plan, profile: Profile): (r: Option<Observation>)
    ensures forall b :: r == Some(b) <==> SoleEvidence(s, clock, mission, plan, profile, b)
  {
    assert s.benchmarks[..|s.benchmarks|] == s.benchmarks;
    Representative(Comparables(s, clock, mission, plan, profile, |s.benchmarks|))
  }

  // The last of the records sorted by id stands for all of them.
  lemma LastIsOnlyCandidate(comparable: seq<Observation>, unique: set<Observation>)
    requires comparable != [] && unique == (set b | b in comparable :: WithoutId(b)) && |unique| == 1
    ensures Sorted(comparable, EarlierId) != []
    ensures var last := Last(Sorted(comparable, EarlierId));
            forall b :: b == last <==> Stands(b, comparable)
  {
    IdsAreSortable();
    SortedIsOrdered(comparable, EarlierId);
    var sorted := Sorted(comparable, EarlierId);
    assert |sorted| == |comparable| by { assert |multiset(sorted)| == |multiset(comparable)|; }
    forall b ensures b in sorted <==> b in comparable {
      assert b in multiset(sorted) <==> b in multiset(comparable);
    }
    assert SoleElement(unique).Some?;
    var last := Last(sorted);
    forall c | c in comparable ensures WithoutId(c) == WithoutId(last) && !StringLess(last.id, c.id) {
      assert WithoutId(c) in unique && WithoutId(last) in unique;
      StringLessIsAsymmetric(last.id, last.id);
      var i :| 0 <= i < |sorted| && sorted[i] == c;
      assert i == |sorted| - 1 || !EarlierId(last, sorted[i]);
    }
    forall b | Stands(b, comparable)
      ensures b == last
    {
      StringLessIsTotal(b.id, last.id);
      assert WithoutId(b) == WithoutId(last) && b.id == last.id;
    }
  }

  // ----- plans -----

  const ALL_MODES: seq<ExecutionMode> := [Local, Pool, Pipeline, Compose]

  function ModeName(mode: ExecutionMode): string {
    match mode
    case Local => "local"
    case Pool => "pool"
    case Pipeline => "pipeline"
    case Compose => "compose"
  }

  predicate Hosts(v: Vessel, resources: seq<string>) {
    exists r :: r in v.resources && r.id in resources
  }

  // The ids of the vessels that host one of the resources, each once.
  function HostIds(vessels: seq<Vessel>, resources: seq<string>): (ids: seq<string>)
    ensures forall id :: id in ids <==> exists v :: v in vessels && v.id == id && Hosts(v, resources)
    ensures forall i, j :: 0 <= i < j < |ids| ==> ids[i] != ids[j]
  {
    if vessels == [] then []
    else
      var ids, v := HostIds(vessels[..|vessels| - 1], resources), Last(vessels);
      if Hosts(v, resources) && v.id !in ids then ids + [v.id] else ids
  }

  function PlanFor(s: Scheduler, profile: Profile, mode: ExecutionMode): Plan {
    Plan(ModeName(mode) + ":" + profile.id, mode, Sorted(HostIds(s.vessels, profile.resources), Precedes),
         profile.resources, profile.id)
  }

  ghost predicate PlansOf(s: Scheduler, profiles: seq<Profile>, plans: seq<Plan>) {
    && |plans| == 4 * |profiles|
    && forall k :: 0 <= k < |plans| ==> plans[k] == PlanFor(s, profiles[k / 4], ALL_MODES[k % 4])
  }

  /** One plan for each profile and mode. */
  method Generate(s: Scheduler, profiles: seq<Profile>) returns (output: seq<Plan>)
    ensures PlansOf(s, profiles, output)
  {
    hide Sorted, HostIds, ModeName;
    output := [];
    for i := 0 to |profiles|
      invariant PlansOf(s, profiles[..i], output)
    {
      var profile := profiles[i];
      var vessels := Sorted(HostIds(s.vessels, profile.resources), Precedes);
      for m := 0 to |ALL_MODES|
        invariant |output| == 4 * i + m
        invariant forall k :: 0 <= k < |output| ==> output[k] == PlanFor(s, profiles[k / 4], ALL_MODES[k % 4])
      {
        var mode := ALL_MODES[m];
        output := output + [Plan(ModeName(mode) + ":" + profile.id, mode, vessels, profile.resources, profile.id)];
      }
    }
    assert profiles[..|profiles|] == profiles;
  }

  // ----- placement -----

  // The last vessel with an id counts, as in a dictionary built from the list.
  function VesselById(vessels: seq<Vessel>, id: string): (r: Option<Vessel>)
    ensures r.Some? <==> exists v :: v in vessels && v.id == id
    ensures r.Some? ==> r.value in vessels && r.value.id == id
  {
    if vessels == [] then None
    else if Last(vessels).id == id then Some(Last(vessels))
    else VesselById(vessels[..|vessels| - 1], id)
  }

  function AllResources(vessels: seq<Vessel>): seq<Resource> {
    if vessels == [] then [] else AllResources(vessels[..|vessels| - 1]) + Last(vessels).resources
  }

  function ResourceById(resources: seq<Resource>, id: string): Option<Resource> {
    if resources == [] then None
    else if Last(resources).id == id then Some(Last(resources))
    else ResourceById(resources[..|resources| - 1], id)
  }

  function MemoryMib(capacities: seq<Capacity>): Option<real> {
    if capacities == [] then None
    else match capacities[0]
      case Memory(amount, memoryUnit) => Some(AsMib(amount, memoryUnit))
      case OtherCapacity(_, _) => MemoryMib(capacities[1..])
  }

  /** The largest of a list of bounds and `least`. */
  function Largest(bounds: seq<real>, least: real): (r: real)
    ensures r >= least && (forall b :: b in bounds ==> r >= b) && (r == least || r in bounds)
  {
    if bounds == [] then least
    else
      assert bounds == [bounds[0]] + bounds[1..];
      var rest := Largest(bounds[1..], least);
      if bounds[0] > rest then bounds[0] else rest
  }

  function RequiredMib(requirements: seq<Capacity>): seq<real> {
    if requirements == [] then []
    else match requirements[0]
      case Memory(amount, memoryUnit) => [AsMib(amount, memoryUnit)] + RequiredMib(requirements[1..])
      case OtherCapacity(_, _) => RequiredMib(requirements[1..])
  }

  function KnownCapacities(s: Scheduler, resources: seq<string>): seq<real> {
    if resources == [] then []
    else
      var resource, rest := ResourceById(AllResources(s.vessels), resources[0]), KnownCapacities(s, resources[1..]);
      if resource.None? || MemoryMib(resource.value.capacities).None? then rest
      else [MemoryMib(resource.value.capacities).value] + rest
  }

  function MemoryIssue(s: Scheduler, mission: Mission, plan: Plan, profile: Profile): Option<Reason> {
    var known := KnownCapacities(s, plan.resources);
    var required := Largest(RequiredMib(profile.requirements), mission.minimumMemoryMib);
    if required == 0.0 then None
    else if known == [] then Some(CapacityUnknown)
    else if Largest(known[1..], known[0]) < required then Some(CapacityExceeded)
    else None
  }

  predicate GoodLink(link: Link) {
    link.tailscale && link.direct && link.directPath
  }

  predicate UnacceptablePipelineLink(s: Scheduler, mission: Mission, plan: Plan) {
    && plan.mode == Pipeline && |plan.vessels| > 1 && mission.synchronousAcrossNodes
    && !exists link :: link in s.links && {link.source, link.target} == AsSet(plan.vessels) && GoodLink(link)
  }

  function With(reasons: seq<Reason>, condition: bool, reason: Reason): (r: seq<Reason>)
    ensures forall x :: x in r <==> x in reasons || (condition && x == reason)
  {
    if condition then reasons + [reason] else reasons
  }

  function VesselReasons(s: Scheduler, mission: Mission, id: string, before: seq<Reason>): seq<Reason> {
    var vessel := VesselById(s.vessels, id);
    if vessel.None? || vessel.value.lease.None? then before
    else
      var lease := vessel.value.lease.value;
      With(With(before, !lease.Active(s.now), LeaseNotActive(id)),
           mission.preemptionPolicy == Forbid && lease.preemptible, PreemptibleForbidden(id))
  }

  function AllVesselReasons(s: Scheduler, mission: Mission, ids: seq<string>, before: seq<Reason>): seq<Reason> {
    if ids == [] then before
    else VesselReasons(s, mission, Last(ids), AllVesselReasons(s, mission, ids[..|ids| - 1], before))
  }

  predicate SomeVesselMissing(s: Scheduler, ids: seq<string>) {
    exists id :: id in ids && VesselById(s.vessels, id).None?
  }

  function LeaseReasons(s: Scheduler, mission: Mission, plan: Plan): seq<Reason> {
    AllVesselReasons(s, mission, plan.vessels, With([], SomeVesselMissing(s, plan.vessels), VesselUnavailable))
  }

  method BuildLeaseReasons(s: Scheduler, mission: Mission, plan: Plan) returns (reasons: seq<Reason>)
    ensures reasons == LeaseReasons(s, mission, plan)
  {
    reasons := [];
    if SomeVesselMissing(s, plan.vessels) {
      reasons := reasons + [VesselUnavailable];
    }
    ghost var before := reasons;
    for i := 0 to |plan.vessels|
      invariant reasons == AllVesselReasons(s, mission, plan.vessels[..i], before)
    {
      assert plan.vessels[..i + 1][..i] == plan.vessels[..i];
      var id := plan.vessels[i];
      var vessel := VesselById(s.vessels, id);
      if vessel.None? || vessel.value.lease.None? {
        continue;
      }
      if !vessel.value.lease.value.Active(s.now) {
        reasons := reasons + [LeaseNotActive(id)];
      }
      if mission.preemptionPolicy == Forbid && vessel.value.lease.value.preemptible {
        reasons := reasons + [PreemptibleForbidden(id)];
      }
    }
    assert plan.vessels[..|plan.vessels|] == plan.vessels;
  }

  function AsSet(ids: seq<string>): set<string> {
    set id | id in ids
  }

  // The reasons that come before the leases.
  function MissionReasons(mission: Mission, plan: Plan, profile: Profile): seq<Reason> {
    With(With(With(With(With([], !mission.safetyOk, SafetyFailed),
      !mission.cooperationOk, CooperationFailed),
      plan.mode !in mission.allowModes, ModeOutsideConstraints),
      !(mission.requiredResources <= AsSet(plan.resources)), RequiredResourceMissing),
      AsSet(profile.resources) != AsSet(plan.resources), PairingMismatch)
  }

  function PlacementReasons(s: Scheduler, mission: Mission, plan: Plan, profile: Profile): seq<Reason> {
    var memory := MemoryIssue(s, mission, plan, profile);
    var placed := MissionReasons(mission, plan, profile) + LeaseReasons(s, mission, plan);
    With(With(placed, memory.Some?, if memory.Some? then memory.value else CapacityUnknown),
         UnacceptablePipelineLink(s, mission, plan), NoDirectPath)
  }

  method BuildPlacementReasons(s: Scheduler, mission: Mission, plan: Plan, profile: Profile)
    returns (reasons: seq<Reason>)
    ensures reasons == PlacementReasons(s, mission, plan, profile)
  {
    hide LeaseReasons, MemoryIssue, UnacceptablePipelineLink;
    reasons := [];
    if !mission.safetyOk { reasons := reasons + [SafetyFailed]; }
    if !mission.cooperationOk { reasons := reasons + [CooperationFailed]; }
    if plan.mode !in mission.allowModes { reasons := reasons + [ModeOutsideConstraints]; }
    if !(mission.requiredResources <= AsSet(plan.resources)) { reasons := reasons + [RequiredResourceMissing]; }
    if AsSet(profile.resources) != AsSet(plan.resources) { reasons := reasons + [PairingMismatch]; }
    assert reasons == MissionReasons(mission, plan, profile);
    var leases := BuildLeaseReasons(s, mission, plan);
    reasons := reasons + leases;
    var memory := MemoryIssue(s, mission, plan, profile);
    if memory.Some? { reasons := reasons + [memory.value]; }
    if UnacceptablePipelineLink(s, mission, plan) { reasons := reasons + [NoDirectPath]; }
  }

  // ----- evaluation -----

  function ValidationReasons(validation: Option<Validation>, mission: Mission): seq<Reason> {
    if validation.None? then [NoFeasibilityValidation]
    else if validation.value.state == Unsupported then [ProfileUnsupported(validation.value.rationale)]
    else if validation.value.state == Undetermined && !mission.allowUnknownRuntime then
      [ProfileUnknown(validation.value.rationale)]
    else []
  }

  predicate UsesPreemptible(s: Scheduler, plan: Plan) {
    exists id :: id in plan.vessels && VesselById(s.vessels, id).Some? && Preemptible(VesselById(s.vessels, id).value)
  }

  predicate Preemptible(v: Vessel) {
    v.lease.Some? && v.lease.value.preemptible
  }

  function Evaluated(s: Scheduler, clock: real, mission: Mission, plan: Plan, profile: Profile): Candidate {
    var evidence := EvidenceFor(s, clock, mission, plan, profile);
    var blocking := ValidationReasons(ValidationFor(s, profile), mission) + PlacementReasons(s, mission, plan, profile);
    var preferred := mission.preemptionPolicy == Prefer && !UsesPreemptible(s, plan);
    Candidate(plan, blocking == [], With(blocking, evidence.None?, NoComparableEvidence), evidence,
              if preferred then 1 else 0, None)
  }

  /** Missing evidence alone never makes a plan ineligible. */
  method Evaluate(s: Scheduler, clock: real, mission: Mission, plan: Plan, profile: Profile) returns (result: Candidate)
    ensures result == Evaluated(s, clock, mission, plan, profile)
  {
    hide PlacementReasons, EvidenceFor, ValidationFor, UsesPreemptible;
    var reasons: seq<Reason> := [];
    var validation := ValidationFor(s, profile);
    if validation.None? {
      reasons := reasons + [NoFeasibilityValidation];
    } else if validation.value.state == Unsupported {
      reasons := reasons + [ProfileUnsupported(validation.value.rationale)];
    } else if validation.value.state == Undetermined && !mission.allowUnknownRuntime {
      reasons := reasons + [ProfileUnknown(validation.value.rationale)];
    }
    assert reasons == ValidationReasons(validation, mission);
    var placement := BuildPlacementReasons(s, mission, plan, profile);
    reasons := reasons + placement;
    ghost var blocking := reasons;
    BlockingReasonsBlock(s, mission, plan, profile);
    assert NoComparableEvidence !in blocking;
    var evidence := EvidenceFor(s, clock, mission, plan, profile);
    if evidence.None? {
      reasons := reasons + [NoComparableEvidence];
    }
    assert reasons == With(blocking, evidence.None?, NoComparableEvidence);
    assert reasons == [NoComparableEvidence] ==> blocking == [];
    var usesPreemptible := UsesPreemptible(s, plan);
    var preference := if mission.preemptionPolicy == Prefer && !usesPreemptible then 1 else 0;
    result := Candidate(plan, reasons == [] || reasons == [NoComparableEvidence], reasons, evidence, preference, None);
  }

  lemma {:induction false} VesselReasonsBlock(s: Scheduler, mission: Mission, ids: seq<string>, before: seq<Reason>)
    requires NoComparableEvidence !in before
    ensures NoComparableEvidence !in AllVesselReasons(s, mission, ids, before)
  {
    if ids != [] { VesselReasonsBlock(s, mission, ids[..|ids| - 1], before); }
  }

  lemma BlockingReasonsBlock(s: Scheduler, mission: Mission, plan: Plan, profile: Profile)
    ensures NoComparableEvidence !in ValidationReasons(ValidationFor(s, profile), mission)
    ensures NoComparableEvidence !in PlacementReasons(s, mission, plan, profile)
  {
    hide ValidationFor;
    VesselReasonsBlock(s, mission, plan.vessels, With([], SomeVesselMissing(s, plan.vessels), VesselUnavailable));
  }

  // ----- ranking -----

  function MetricOr(metric: Option<Metric>, default: real): real {
    if metric.Some? && metric.value.Finite? then metric.value.value else default
  }

  function RankOf(c: Candidate): Rank {
    Rank(0,
         if c.evidence.Some? && c.evidence.value.measured then -1 else 0,
         c.preference,
         if c.plan.mode != Pipeline then -1 else 0,
         if c.evidence.Some? then -MetricOr(Throughput(c.evidence.value), 0.0) else 0.0)
  }

  function WithRank(c: Candidate): Candidate {
    if c.eligible then c.(rank := Some(RankOf(c))) else c
  }

  function RankOrLast(c: Candidate): Rank {
    if c.rank.Some? then c.rank.value else Rank(99, 99, 99, 99, 99.0)
  }

  predicate RankLess(a: Rank, b: Rank) {
    if a.tier != b.tier then a.tier < b.tier
    else if a.unmeasured != b.unmeasured then a.unmeasured < b.unmeasured
    else if a.preference != b.preference then a.preference < b.preference
    else if a.discontinuity != b.discontinuity then a.discontinuity < b.discontinuity
    else a.slowness < b.slowness
  }

  /** Eligible candidates first, then by rank, then by plan id. */
  predicate Before(a: Candidate, b: Candidate) {
    if a.eligible != b.eligible then a.eligible
    else if RankOrLast(a) != RankOrLast(b) then RankLess(RankOrLast(a), RankOrLast(b))
    else StringLess(a.plan.planId, b.plan.planId)
  }

  lemma CandidatesAreSortable()
    ensures Sortable(Before)
  {
    forall a, b ensures Before(a, b) ==> !Before(b, a) {
      StringLessIsAsymmetric(a.plan.planId, b.plan.planId);
    }
    forall a, b, c ensures !Before(b, a) && !Before(c, b) ==> !Before(c, a) {
      StringsNotAfter(a.plan.planId, b.plan.planId, c.plan.planId);
      RanksAreTotal(RankOrLast(a), RankOrLast(b), RankOrLast(c));
    }
  }

  lemma RanksAreTotal(a: Rank, b: Rank, c: Rank)
    ensures a == b || RankLess(a, b) || RankLess(b, a)
    ensures b == c || RankLess(b, c) || RankLess(c, b)
    ensures RankLess(a, b) && RankLess(b, c) ==> RankLess(a, c)
    ensures RankLess(a, c) ==> !RankLess(c, a)
    ensures !RankLess(a, a)
  {
  }

  function AllRanked(candidates: seq<Candidate>): (r: seq<Candidate>)
    ensures |r| == |candidates| && forall i :: 0 <= i < |candidates| ==> r[i] == WithRank(candidates[i])
  {
    seq(|candidates|, i requires 0 <= i < |candidates| => WithRank(candidates[i]))
  }

  method RankCandidates(candidates: seq<Candidate>) returns (ranked: seq<Candidate>)
    ensures ranked == Sorted(AllRanked(candidates), Before)
  {
    var results := candidates;
    for i := 0 to |results|
      invariant |results| == |candidates|
      invariant forall k :: 0 <= k < i ==> results[k] == WithRank(candidates[k])
      invariant forall k :: i <= k < |results| ==> results[k] == candidates[k]
    {
      var result := results[i];
      if !result.eligible { continue; }
      var measured := if result.evidence.Some? && result.evidence.value.measured then 1 else 0;
      var continuity := if result.plan.mode != Pipeline then 1 else 0;
      var throughput := if result.evidence.Some? then Throughput(result.evidence.value) else None;
      var efficiency := -MetricOr(throughput, 0.0);
      results := results[i := result.(rank := Some(Rank(0, -measured, result.preference, -continuity, efficiency)))];
    }
    assert results == AllRanked(candidates);
    ranked := Sorted(results, Before);
  }

  // ----- selection -----

  // A dictionary by id: the last profile of an id, at the place of the first.
  function Latest(profiles: seq<Profile>): (r: seq<Profile>)
    ensures forall p :: p in r ==> p in profiles
    ensures DistinctIds(r)
  {
    if profiles == [] then []
    else
      var earlier, p := Latest(profiles[..|profiles| - 1]), Last(profiles);
      assert profiles == profiles[..|profiles| - 1] + [p];
      if exists k :: 0 <= k < |earlier| && earlier[k].id == p.id then
        seq(|earlier|, k requires 0 <= k < |earlier| => if earlier[k].id == p.id then p else earlier[k])
      else earlier + [p]
  }

  function ProfileById(profiles: seq<Profile>, id: string): (r: Profile)
    requires exists p :: p in profiles && p.id == id
    ensures r in profiles && r.id == id
  {
    if Last(profiles).id == id then Last(profiles) else ProfileById(profiles[..|profiles| - 1], id)
  }

  function Judged(s: Scheduler, clock: real, mission: Mission, profile: Profile, mode: ExecutionMode): Candidate {
    WithRank(Evaluated(s, clock, mission, PlanFor(s, profile, mode), profile))
  }

  lemma JudgedPlan(s: Scheduler, clock: real, mission: Mission, profile: Profile, mode: ExecutionMode)
    ensures Judged(s, clock, mission, profile, mode).plan.planId == ModeName(mode) + ":" + profile.id
  {
  }

  ghost predicate IsCandidate(s: Scheduler, clock: real, mission: Mission, profiles: seq<Profile>, c: Candidate) {
    exists p, mode :: p in profiles && c == Judged(s, clock, mission, p, mode)
  }

  /** Eligible, and before every other eligible candidate. */
  ghost predicate Chosen(s: Scheduler, clock: real, mission: Mission, profiles: seq<Profile>, c: Candidate) {
    && IsCandidate(s, clock, mission, profiles, c) && c.eligible
    && forall d :: IsCandidate(s, clock, mission, profiles, d) && d.eligible ==> d == c || Before(c, d)
  }

  /** None stands for the error that no plan is eligible. */
  method Select(s: Scheduler, clock: real, mission: Mission, profiles: seq<Profile>) returns (choice: Option<Candidate>)
    ensures choice.None? <==> forall c :: IsCandidate(s, clock, mission, Latest(profiles), c) ==> !c.eligible
    ensures choice.Some? ==> Chosen(s, clock, mission, Latest(profiles), choice.value)
  {
    hide Latest, Evaluated, PlanFor, Sorted, AllRanked, IsCandidate, Judged;
    var byId := Latest(profiles);
    var plans := Generate(s, byId);
    var candidates: seq<Candidate> := [];
    for k := 0 to |plans|
      invariant |candidates| == k
      invariant forall j :: 0 <= j < k ==> Judges(s, clock, mission, byId, j, candidates[j])
    {
      PlanAt(s, byId, plans, k);
      var result := Evaluate(s, clock, mission, plans[k], ProfileById(byId, plans[k].profileId));
      candidates := candidates + [result];
    }
    var ranked := RankCandidates(candidates);
    RankedAreCandidates(s, clock, mission, byId, candidates);
    var i := 0;
    while i < |ranked| && !ranked[i].eligible
      invariant i <= |ranked| && forall j :: 0 <= j < i ==> !ranked[j].eligible
    {
      i := i + 1;
    }
    if i == |ranked| {
      return None;
    }
    FirstEligibleIsChosen(s, clock, mission, byId, ranked, i);
    return Some(ranked[i]);
  }

  // ----- the candidates of a selection -----

  predicate DistinctIds(profiles: seq<Profile>) {
    forall i, j :: 0 <= i < j < |profiles| ==> profiles[i].id != profiles[j].id
  }

  // The j-th plan is the one of profile j / 4 in mode j % 4.
  ghost predicate Judges(s: Scheduler, clock: real, mission: Mission, profiles: seq<Profile>, j: nat, c: Candidate) {
    j / 4 < |profiles| &&
    var p := profiles[j / 4];
    c == Evaluated(s, clock, mission, PlanFor(s, p, ALL_MODES[j % 4]), p)
  }

  lemma PlanAt(s: Scheduler, profiles: seq<Profile>, plans: seq<Plan>, k: nat)
    requires DistinctIds(profiles) && PlansOf(s, profiles, plans) && k < |plans|
    ensures var p := profiles[k / 4];
            plans[k] == PlanFor(s, p, ALL_MODES[k % 4]) && p in profiles && p.id == plans[k].profileId &&
            ProfileById(profiles, plans[k].profileId) == p
  {
  }

  lemma RankedAreCandidates(
    s: Scheduler, clock: real, mission: Mission, profiles: seq<Profile>, candidates: seq<Candidate>)
    requires |candidates| == 4 * |profiles|
    requires forall j :: 0 <= j < |candidates| ==> Judges(s, clock, mission, profiles, j, candidates[j])
    ensures var ranked := Sorted(AllRanked(candidates), Before);
            Ordered(ranked, Before) && forall c :: c in ranked <==> IsCandidate(s, clock, mission, profiles, c)
  {
    var all := AllRanked(candidates);
    var ranked := Sorted(all, Before);
    CandidatesAreSortable();
    SortedIsOrdered(all, Before);
    forall c ensures c in ranked <==> IsCandidate(s, clock, mission, profiles, c) {
      assert c in multiset(ranked) <==> c in multiset(all);
      if c in all {
        var j :| 0 <= j < |all| && all[j] == c;
        JudgesCandidate(s, clock, mission, profiles, j, candidates[j]);
      }
      if IsCandidate(s, clock, mission, profiles, c) {
        var j := CandidateIsJudged(s, clock, mission, profiles, candidates, c);
      }
    }
  }

  lemma JudgesCandidate(s: Scheduler, clock: real, mission: Mission, profiles: seq<Profile>, j: nat, c: Candidate)
    requires Judges(s, clock, mission, profiles, j, c)
    ensures IsCandidate(s, clock, mission, profiles, WithRank(c))
  {
    hide Evaluated, PlanFor, WithRank;
    var p, mode := profiles[j / 4], ALL_MODES[j % 4];
    assert p in profiles && WithRank(c) == Judged(s, clock, mission, p, mode);
  }

  lemma CandidateIsJudged(
    s: Scheduler, clock: real, mission: Mission, profiles: seq<Profile>, candidates: seq<Candidate>, c: Candidate)
    returns (j: nat)
    requires |candidates| == 4 * |profiles|
    requires forall j :: 0 <= j < |candidates| ==> Judges(s, clock, mission, profiles, j, candidates[j])
    requires IsCandidate(s, clock, mission, profiles, c)
    ensures j < |candidates| && WithRank(candidates[j]) == c
  {
    hide Evaluated, PlanFor, WithRank;
    var p, mode :| p in profiles && c == Judged(s, clock, mission, p, mode);
    var i :| 0 <= i < |profiles| && profiles[i] == p;
    var m := match mode { case Local => 0 case Pool => 1 case Pipeline => 2 case Compose => 3 };
    assert ALL_MODES[m] == mode;
    j := 4 * i + m;
    assert j / 4 == i && j % 4 == m;
    assert Judges(s, clock, mission, profiles, j, candidates[j]);
  }

  lemma PlanIdsDiffer(a: ExecutionMode, b: ExecutionMode, x: string, y: string)
    requires ModeName(a) + ":" + x == ModeName(b) + ":" + y
    ensures a == b && x == y
  {
    var p, q := ModeName(a) + ":" + x, ModeName(b) + ":" + y;
    assert p[0] == q[0] && p[1] == q[1];
    assert a == b;
    assert p[|ModeName(a)| + 1..] == x && q[|ModeName(b)| + 1..] == y;
  }

  lemma CandidateOfPlanId(
    s: Scheduler, clock: real, mission: Mission, profiles: seq<Profile>, c: Candidate, d: Candidate)
    requires DistinctIds(profiles)
    requires IsCandidate(s, clock, mission, profiles, c) && IsCandidate(s, clock, mission, profiles, d)
    requires c.plan.planId == d.plan.planId
    ensures c == d
  {
    hide Judged, ModeName;
    var p, mode :| p in profiles && c == Judged(s, clock, mission, p, mode);
    var q, mode' :| q in profiles && d == Judged(s, clock, mission, q, mode');
    JudgedPlan(s, clock, mission, p, mode);
    JudgedPlan(s, clock, mission, q, mode');
    PlanIdsDiffer(mode, mode', p.id, q.id);
  }

  lemma BeforeOrSame(s: Scheduler, clock: real, mission: Mission, profiles: seq<Profile>, c: Candidate, d: Candidate)
    requires DistinctIds(profiles)
    requires IsCandidate(s, clock, mission, profiles, c) && IsCandidate(s, clock, mission, profiles, d)
    ensures c == d || Before(c, d) || Before(d, c)
  {
    RanksAreTotal(RankOrLast(c), RankOrLast(d), RankOrLast(d));
    StringLessIsTotal(c.plan.planId, d.plan.planId);
    if c.plan.planId == d.plan.planId {
      CandidateOfPlanId(s, clock, mission, profiles, c, d);
    }
  }

  lemma FirstEligibleIsChosen(
    s: Scheduler, clock: real, mission: Mission, profiles: seq<Profile>, ranked: seq<Candidate>, i: nat)
    requires DistinctIds(profiles) && Ordered(ranked, Before)
    requires forall c :: c in ranked <==> IsCandidate(s, clock, mission, profiles, c)
    requires i < |ranked| && ranked[i].eligible && forall j :: 0 <= j < i ==> !ranked[j].eligible
    ensures Chosen(s, clock, mission, profiles, ranked[i])
  {
    forall d | IsCandidate(s, clock, mission, profiles, d) && d.eligible
      ensures d == ranked[i] || Before(ranked[i], d)
    {
      var j :| 0 <= j < |ranked| && ranked[j] == d;
      if j != i {
        BeforeOrSame(s, clock, mission, profiles, ranked[i], d);
      }
    }
  }
}
