/** What makes a plan eligible and what counts as evidence for it, told by the fields of the things themselves. */
module SchedulerGrounds {
  import opened Basics
  import opened Ordering
  import opened SchedulerTypes
  import opened Scheduler
  import opened SchedulerChoice

  // ----- validation -----

  // The record is about this profile as it is, on the runtime that is current for it.
  predicate IsAbout(v: Validation, s: Scheduler, profile: Profile) {
    && profile.runtimeId in s.currentRuntimes && v.runtime == s.currentRuntimes[profile.runtimeId]
    && v.profileId == profile.id && v.artifactKey == profile.artifactKey && v.resources == profile.resources
    && v.strategy == profile.strategy && v.options == profile.options
  }

  // The runtime is identified, and the record is the only one about the profile.
  ghost predicate SoleRecord(s: Scheduler, profile: Profile, v: Validation) {
    && profile.runtimeId in s.currentRuntimes && Identified(s.currentRuntimes[profile.runtimeId])
    && v in s.validations && IsAbout(v, s, profile)
    && forall w :: w in s.validations && IsAbout(w, s, profile) ==> w == v
  }

  // All records about the profile agree, and they permit its use.
  ghost predicate Certified(s: Scheduler, mission: Mission, profile: Profile) {
    exists v :: SoleRecord(s, profile, v) &&
                (v.state == Supported || (v.state == Undetermined && mission.allowUnknownRuntime))
  }

  // The runtime names its version or its build.
  predicate Identified(runtime: Runtime) {
    runtime.version !in {None, Some("")} || runtime.buildId !in {None, Some("")}
  }

  // ----- leases -----

  // The vessel at `i` counts for the id, and its lease, if any, covers the present and may be used.
  predicate Serves(s: Scheduler, mission: Mission, i: int, id: string) {
    && InCharge(s.vessels, i) && s.vessels[i].id == id
    && (s.vessels[i].lease.Some? ==>
          var lease := s.vessels[i].lease.value;
          && lease.acquiredAt <= s.now && (lease.expiresAt.Some? ==> s.now < lease.expiresAt.value)
          && (mission.preemptionPolicy == Forbid ==> !lease.preemptible))
  }

  ghost predicate Available(s: Scheduler, mission: Mission, plan: Plan) {
    forall id :: id in plan.vessels ==> exists i :: Serves(s, mission, i, id)
  }

  lemma UsableByPlace(s: Scheduler, mission: Mission, id: string)
    ensures Usable(s, mission, id) <==> exists i :: Serves(s, mission, i, id)
  {
    if VesselById(s.vessels, id).Some? {
      var i := FoundIsInCharge(s.vessels, id);
      assert Usable(s, mission, id) <==> Serves(s, mission, i, id);
    }
    if j :| Serves(s, mission, j, id) {
      InChargeIsFound(s.vessels, j);
    }
  }

  // ----- memory -----

  function Mib(c: Capacity): real
    requires c.Memory?
  {
    if c.memoryUnit == MiB then c.amount
    else if c.memoryUnit == GiB then 1024.0 * c.amount
    else c.amount / (1024.0 * 1024.0)
  }

  // The first memory capacity of a list.
  predicate FirstMemory(capacities: seq<Capacity>, k: int) {
    0 <= k < |capacities| && capacities[k].Memory? && forall j :: 0 <= j < k ==> !capacities[j].Memory?
  }

  // Resource `r` of vessel `v` counts for its id: none after it in the fleet has the same.
  predicate LastResource(vessels: seq<Vessel>, v: int, r: int) {
    && 0 <= v < |vessels| && 0 <= r < |vessels[v].resources|
    && (forall q :: r < q < |vessels[v].resources| ==> vessels[v].resources[q].id != vessels[v].resources[r].id)
    && (forall w, q :: v < w < |vessels| && 0 <= q < |vessels[w].resources| ==>
          vessels[w].resources[q].id != vessels[v].resources[r].id)
  }

  predicate HasMemory(s: Scheduler, id: string, mib: real, v: int, r: int, k: int) {
    && LastResource(s.vessels, v, r) && s.vessels[v].resources[r].id == id
    && FirstMemory(s.vessels[v].resources[r].capacities, k)
    && mib == Mib(s.vessels[v].resources[r].capacities[k])
  }

  ghost predicate Holds(s: Scheduler, id: string, mib: real) {
    exists v, r, k :: HasMemory(s, id, mib, v, r, k)
  }

  // `bound` is what the mission asks for at least, or what some requirement of the profile does.
  predicate Asked(mission: Mission, profile: Profile, bound: real) {
    || bound == mission.minimumMemoryMib
    || exists c :: c in profile.requirements && c.Memory? && Mib(c) == bound
  }

  // Nothing above zero is asked for, or one resource of the plan holds all that is.
  ghost predicate Roomy(s: Scheduler, mission: Mission, plan: Plan, profile: Profile) {
    || (Asked(mission, profile, 0.0) && forall bound :: Asked(mission, profile, bound) ==> bound <= 0.0)
    || exists id, mib :: id in plan.resources && Holds(s, id, mib) &&
                         forall bound :: Asked(mission, profile, bound) ==> mib >= bound
  }

  lemma {:induction false} RequiredAre(requirements: seq<Capacity>, bound: real)
    ensures bound in RequiredMib(requirements) <==> exists c :: c in requirements && c.Memory? && Mib(c) == bound
  {
    if requirements != [] {
      RequiredAre(requirements[1..], bound);
      assert requirements == [requirements[0]] + requirements[1..];
    }
  }

  lemma {:induction false} MemoryIsFirst(capacities: seq<Capacity>) returns (k: int)
    ensures MemoryMib(capacities).None? ==> forall j :: 0 <= j < |capacities| ==> !capacities[j].Memory?
    ensures MemoryMib(capacities).Some? ==>
              FirstMemory(capacities, k) && MemoryMib(capacities).value == Mib(capacities[k])
  {
    k := 0;
    if capacities != [] && !capacities[0].Memory? {
      k := MemoryIsFirst(capacities[1..]);
      assert forall j :: 0 < j < |capacities| ==> capacities[j] == capacities[1..][j - 1];
      k := k + 1;
    }
  }

  lemma FirstMemoryIsOne(capacities: seq<Capacity>, k: int)
    requires FirstMemory(capacities, k)
    ensures MemoryMib(capacities) == Some(Mib(capacities[k]))
  {
    var j := MemoryIsFirst(capacities);
    assert j == k;
  }

  // The last resource of an id in a list.
  predicate LastOfId(resources: seq<Resource>, r: int) {
    0 <= r < |resources| && forall q :: r < q < |resources| ==> resources[q].id != resources[r].id
  }

  lemma {:induction false} LastOfIdIsFound(resources: seq<Resource>, r: int)
    requires LastOfId(resources, r)
    ensures ResourceById(resources, resources[r].id) == Some(resources[r])
  {
    if r < |resources| - 1 {
      var front := resources[..|resources| - 1];
      assert Last(resources) == resources[|resources| - 1];
      assert forall q :: 0 <= q < |front| ==> front[q] == resources[q];
      LastOfIdIsFound(front, r);
    }
  }

  lemma {:induction false} AbsentIsNotFound(resources: seq<Resource>, id: string)
    requires forall r :: r in resources ==> r.id != id
    ensures ResourceById(resources, id) == None
  {
    if resources != [] {
      assert Last(resources) in resources;
      AbsentIsNotFound(resources[..|resources| - 1], id);
    }
  }

  lemma {:induction false} FoundInSum(a: seq<Resource>, b: seq<Resource>, id: string)
    ensures ResourceById(a + b, id) == if ResourceById(b, id).Some? then ResourceById(b, id) else ResourceById(a, id)
  {
    if b == [] {
      assert a + b == a;
    } else {
      assert (a + b)[..|a + b| - 1] == a + b[..|b| - 1] && Last(a + b) == Last(b);
      FoundInSum(a, b[..|b| - 1], id);
    }
  }

  lemma {:induction false} FoundIsLastOfId(resources: seq<Resource>, id: string) returns (r: int)
    requires ResourceById(resources, id).Some?
    ensures LastOfId(resources, r) && resources[r].id == id && ResourceById(resources, id) == Some(resources[r])
  {
    if Last(resources).id == id {
      r := |resources| - 1;
    } else {
      var front := resources[..|resources| - 1];
      r := FoundIsLastOfId(front, id);
      assert forall q :: 0 <= q < |front| ==> front[q] == resources[q];
    }
  }

  /** The resource found for an id is the last of that id in the fleet. */
  lemma {:induction false} FoundIsLastResource(vessels: seq<Vessel>, id: string) returns (v: int, r: int)
    requires ResourceById(AllResources(vessels), id).Some?
    ensures LastResource(vessels, v, r) && vessels[v].resources[r].id == id
    ensures ResourceById(AllResources(vessels), id) == Some(vessels[v].resources[r])
  {
    var front, last := vessels[..|vessels| - 1], Last(vessels);
    FoundInSum(AllResources(front), last.resources, id);
    if ResourceById(last.resources, id).Some? {
      v := |vessels| - 1;
      r := FoundIsLastOfId(last.resources, id);
    } else {
      v, r := FoundIsLastResource(front, id);
      assert forall w :: 0 <= w < |front| ==> front[w] == vessels[w];
      NotFoundIsAbsent(last.resources, id);
    }
  }

  lemma NotFoundIsAbsent(resources: seq<Resource>, id: string)
    requires ResourceById(resources, id).None?
    ensures forall r :: 0 <= r < |resources| ==> resources[r].id != id
  {
    ResourceByIdFinds(resources, id);
  }

  lemma {:induction false} LastResourceIsFound(vessels: seq<Vessel>, v: int, r: int)
    requires LastResource(vessels, v, r)
    ensures ResourceById(AllResources(vessels), vessels[v].resources[r].id) == Some(vessels[v].resources[r])
  {
    var front, last, id := vessels[..|vessels| - 1], Last(vessels), vessels[v].resources[r].id;
    FoundInSum(AllResources(front), last.resources, id);
    if v == |vessels| - 1 {
      assert LastOfId(last.resources, r);
      LastOfIdIsFound(last.resources, r);
    } else {
      assert forall w :: 0 <= w < |front| ==> front[w] == vessels[w];
      assert vessels[|vessels| - 1] == last;
      LastResourceIsFound(front, v, r);
      AbsentIsNotFound(last.resources, id);
    }
  }

  lemma {:induction false} CapacitiesAre(s: Scheduler, resources: seq<string>, mib: real)
    ensures mib in KnownCapacities(s, resources) <==> exists id :: id in resources && Holds(s, id, mib)
  {
    if resources != [] {
      CapacitiesAre(s, resources[1..], mib);
      assert resources == [resources[0]] + resources[1..];
      CapacityIs(s, resources[0], mib);
    }
  }

  // What the fleet knows of the memory of one resource.
  function KnownFor(s: Scheduler, id: string): Option<real> {
    var resource := ResourceById(AllResources(s.vessels), id);
    if resource.None? then None else MemoryMib(resource.value.capacities)
  }

  lemma CapacityIs(s: Scheduler, id: string, mib: real)
    ensures KnownFor(s, id) == Some(mib) <==> Holds(s, id, mib)
  {
    hide AllResources, ResourceById, MemoryMib;
    if KnownFor(s, id).Some? {
      var v, r := FoundIsLastResource(s.vessels, id);
      var k := MemoryIsFirst(s.vessels[v].resources[r].capacities);
      assert HasMemory(s, id, KnownFor(s, id).value, v, r, k);
    }
    if Holds(s, id, mib) {
      var v, r, k :| HasMemory(s, id, mib, v, r, k);
      LastResourceIsFound(s.vessels, v, r);
      FirstMemoryIsOne(s.vessels[v].resources[r].capacities, k);
    }
  }

  lemma RoomIff(s: Scheduler, mission: Mission, plan: Plan, profile: Profile)
    ensures MemoryFits(s, mission, plan, profile) <==> Roomy(s, mission, plan, profile)
  {
    hide RequiredMib, KnownCapacities, Holds;
    var required, known := RequiredMib(profile.requirements), KnownCapacities(s, plan.resources);
    forall bound ensures Asked(mission, profile, bound) <==> bound == mission.minimumMemoryMib || bound in required {
      RequiredAre(profile.requirements, bound);
    }
    forall mib ensures mib in known <==> exists id :: id in plan.resources && Holds(s, id, mib) {
      CapacitiesAre(s, plan.resources, mib);
    }
    var largest := Largest(required, mission.minimumMemoryMib);
    assert Asked(mission, profile, largest) && Asked(mission, profile, mission.minimumMemoryMib);
    assert forall b :: b in required ==> Asked(mission, profile, b);
    if Roomy(s, mission, plan, profile) && largest != 0.0 {
      var id, mib :| id in plan.resources && Holds(s, id, mib) &&
                     forall bound :: Asked(mission, profile, bound) ==> mib >= bound;
      assert mib in known && mib >= mission.minimumMemoryMib && forall b :: b in required ==> mib >= b;
    }
    if MemoryFits(s, mission, plan, profile) && largest != 0.0 {
      var c :| c in known && c >= mission.minimumMemoryMib && forall b :: b in required ==> c >= b;
      var id :| id in plan.resources && Holds(s, id, c);
      assert forall bound :: Asked(mission, profile, bound) ==> c >= bound;
    }
  }

  // ----- links -----

  // A synchronous pipeline over several vessels runs on a direct link that joins just them.
  predicate Joined(s: Scheduler, mission: Mission, plan: Plan) {
    plan.mode == Pipeline && |plan.vessels| > 1 && mission.synchronousAcrossNodes ==>
      exists link :: link in s.links && link.tailscale && link.direct && link.directPath && Joins(link, plan.vessels)
  }

  predicate Joins(link: Link, ids: seq<string>) {
    link.source in ids && link.target in ids && forall id :: id in ids ==> id == link.source || id == link.target
  }

  lemma JoinedIff(s: Scheduler, mission: Mission, plan: Plan)
    ensures Joined(s, mission, plan) <==> !UnacceptablePipelineLink(s, mission, plan)
  {
    forall link: Link ensures {link.source, link.target} == AsSet(plan.vessels) <==> Joins(link, plan.vessels) {
      JoinsBySet(link, plan.vessels);
    }
  }

  lemma JoinsBySet(link: Link, ids: seq<string>)
    ensures {link.source, link.target} == AsSet(ids) <==> Joins(link, ids)
  {
    var both := {link.source, link.target};
    assert forall id :: id in AsSet(ids) <==> id in ids;
    assert both == AsSet(ids) <==> both <= AsSet(ids) && AsSet(ids) <= both;
    assert both <= AsSet(ids) <==> link.source in ids && link.target in ids by {
      assert link.source in both && link.target in both;
    }
  }

  // ----- eligibility -----

  lemma CertifiedIff(s: Scheduler, mission: Mission, profile: Profile)
    ensures Certified(s, mission, profile) <==>
            exists v :: SoleValidation(s, profile, v) && v.state != Unsupported &&
                        (v.state == Undetermined ==> mission.allowUnknownRuntime)
  {
    forall v ensures SoleValidation(s, profile, v) <==> SoleRecord(s, profile, v) {
      SoleRecordIff(s, profile, v);
    }
  }

  lemma SoleRecordIff(s: Scheduler, profile: Profile, v: Validation)
    ensures SoleValidation(s, profile, v) <==> SoleRecord(s, profile, v)
  {
    if profile.runtimeId in s.currentRuntimes {
      var runtime := s.currentRuntimes[profile.runtimeId];
      forall w: Validation ensures IsAbout(w, s, profile) <==> Certifies(w, runtime, profile) {
      }
    }
  }

  predicate MissionAllows(mission: Mission, plan: Plan, profile: Profile) {
    && mission.safetyOk && mission.cooperationOk && plan.mode in mission.allowModes
    && (forall id :: id in mission.requiredResources ==> id in plan.resources)
    && (forall id :: id in plan.resources ==> id in profile.resources)
    && (forall id :: id in profile.resources ==> id in plan.resources)
  }

  /**
   A plan is eligible exactly if its profile is certified, the mission allows it,
   every vessel it names is there with a lease that permits it, one resource has
   the memory asked for, and a synchronous pipeline has its direct link.
   */
  lemma EligibleOnGrounds(s: Scheduler, clock: real, mission: Mission, plan: Plan, profile: Profile)
    ensures Evaluated(s, clock, mission, plan, profile).eligible <==>
            && Certified(s, mission, profile) && MissionAllows(mission, plan, profile)
            && Available(s, mission, plan) && Roomy(s, mission, plan, profile) && Joined(s, mission, plan)
  {
    hide Evaluated, Certified, SoleValidation, Roomy, MemoryFits, Joined, UnacceptablePipelineLink, Usable, Serves;
    EligibleIff(s, clock, mission, plan, profile);
    CertifiedIff(s, mission, profile);
    RoomIff(s, mission, plan, profile);
    JoinedIff(s, mission, plan);
    forall id ensures Usable(s, mission, id) <==> exists i :: Serves(s, mission, i, id) {
      UsableByPlace(s, mission, id);
    }
    assert AsSet(plan.resources) == AsSet(profile.resources) <==>
      (forall id :: id in plan.resources <==> id in profile.resources) by {
      assert forall id :: id in AsSet(plan.resources) <==> id in plan.resources;
      assert forall id :: id in AsSet(profile.resources) <==> id in profile.resources;
    }
  }

  // ----- reasons -----

  // The lease of the vessel that counts for the id is not active at present.
  predicate Lapsed(s: Scheduler, i: int, id: string) {
    && InCharge(s.vessels, i) && s.vessels[i].id == id && s.vessels[i].lease.Some?
    && var lease := s.vessels[i].lease.value;
       s.now < lease.acquiredAt || (lease.expiresAt.Some? && lease.expiresAt.value <= s.now)
  }

  predicate Barred(s: Scheduler, mission: Mission, i: int, id: string) {
    && InCharge(s.vessels, i) && s.vessels[i].id == id && s.vessels[i].lease.Some?
    && mission.preemptionPolicy == Forbid && s.vessels[i].lease.value.preemptible
  }

  // Whether `reason` is one about the vessels of a plan, and holds of them.
  ghost predicate VesselGround(s: Scheduler, mission: Mission, ids: seq<string>, reason: Reason) {
    match reason
    case LeaseNotActive(id) => id in ids && exists i :: Lapsed(s, i, id)
    case PreemptibleForbidden(id) => id in ids && exists i :: Barred(s, mission, i, id)
    case _ => false
  }

  lemma GroundsByLease(s: Scheduler, mission: Mission, id: string)
    ensures var vessel := VesselById(s.vessels, id);
            && ((exists i :: Lapsed(s, i, id)) <==>
                  vessel.Some? && vessel.value.lease.Some? && !vessel.value.lease.value.Active(s.now))
            && ((exists i :: Barred(s, mission, i, id)) <==>
                  vessel.Some? && vessel.value.lease.Some? && mission.preemptionPolicy == Forbid &&
                  vessel.value.lease.value.preemptible)
  {
    if VesselById(s.vessels, id).Some? {
      var i := FoundIsInCharge(s.vessels, id);
      var held := s.vessels[i].lease;
      assert Lapsed(s, i, id) <==> held.Some? && !held.value.Active(s.now);
      assert Barred(s, mission, i, id) <==>
        held.Some? && mission.preemptionPolicy == Forbid && held.value.preemptible;
    }
    forall j | InCharge(s.vessels, j) && s.vessels[j].id == id
      ensures VesselById(s.vessels, id) == Some(s.vessels[j])
    {
      InChargeIsFound(s.vessels, j);
    }
  }

  lemma VesselGroundOf(s: Scheduler, mission: Mission, id: string, before: seq<Reason>, reason: Reason)
    ensures reason in VesselReasons(s, mission, id, before) <==>
            reason in before || VesselGround(s, mission, [id], reason)
  {
    hide Lapsed, Barred, VesselById;
    GroundsByLease(s, mission, id);
  }

  lemma {:induction false} VesselGroundsOf(
    s: Scheduler, mission: Mission, ids: seq<string>, before: seq<Reason>, reason: Reason)
    ensures reason in AllVesselReasons(s, mission, ids, before) <==>
            reason in before || VesselGround(s, mission, ids, reason)
  {
    if ids != [] {
      var front := ids[..|ids| - 1];
      assert ids == front + [Last(ids)];
      VesselGroundsOf(s, mission, front, before, reason);
      VesselGroundOf(s, mission, Last(ids), AllVesselReasons(s, mission, front, before), reason);
    }
  }

  // What each reason says of a plan.
  ghost predicate Ground(
    s: Scheduler, clock: real, mission: Mission, plan: Plan, profile: Profile, reason: Reason)
  {
    match reason
    case NoFeasibilityValidation => !exists v :: SoleValidation(s, profile, v)
    case ProfileUnsupported(why) =>
      exists v :: SoleValidation(s, profile, v) && v.state == Unsupported && v.rationale == why
    case ProfileUnknown(why) =>
      !mission.allowUnknownRuntime &&
      exists v :: SoleValidation(s, profile, v) && v.state == Undetermined && v.rationale == why
    case SafetyFailed => !mission.safetyOk
    case CooperationFailed => !mission.cooperationOk
    case ModeOutsideConstraints => plan.mode !in mission.allowModes
    case RequiredResourceMissing => exists id :: id in mission.requiredResources && id !in plan.resources
    case PairingMismatch => exists id :: (id in plan.resources) != (id in profile.resources)
    case VesselUnavailable => exists id :: id in plan.vessels && forall v :: v in s.vessels ==> v.id != id
    case LeaseNotActive(id) => id in plan.vessels && exists i :: Lapsed(s, i, id)
    case PreemptibleForbidden(id) => id in plan.vessels && exists i :: Barred(s, mission, i, id)
    case CapacityUnknown =>
      !Roomy(s, mission, plan, profile) && !exists id, mib :: id in plan.resources && Holds(s, id, mib)
    case CapacityExceeded =>
      !Roomy(s, mission, plan, profile) && exists id, mib :: id in plan.resources && Holds(s, id, mib)
    case NoDirectPath => !Joined(s, mission, plan)
    case NoComparableEvidence => forall b :: !SoleEvidence(s, clock, mission, plan, profile, b)
  }

  lemma MissionGroundsOf(
    s: Scheduler, clock: real, mission: Mission, plan: Plan, profile: Profile, reason: Reason)
    ensures reason in MissionReasons(mission, plan, profile) <==>
            && reason in {SafetyFailed, CooperationFailed, ModeOutsideConstraints, RequiredResourceMissing,
                          PairingMismatch}
            && Ground(s, clock, mission, plan, profile, reason)
  {
    hide SoleValidation, SoleEvidence, Roomy, Holds, Joined, Lapsed, Barred;
    assert mission.requiredResources <= AsSet(plan.resources) <==>
      !exists id :: id in mission.requiredResources && id !in plan.resources;
    assert AsSet(profile.resources) != AsSet(plan.resources) <==>
      exists id :: (id in plan.resources) != (id in profile.resources) by {
      SetsDiffer(plan.resources, profile.resources);
    }
  }

  lemma SetsDiffer(a: seq<string>, b: seq<string>)
    ensures AsSet(b) != AsSet(a) <==> exists id :: (id in a) != (id in b)
  {
    assert forall id :: id in AsSet(a) <==> id in a;
    assert forall id :: id in AsSet(b) <==> id in b;
  }

  lemma MemoryGroundsOf(
    s: Scheduler, clock: real, mission: Mission, plan: Plan, profile: Profile, reason: Reason)
    ensures MemoryIssue(s, mission, plan, profile) == Some(reason) <==>
            reason in {CapacityUnknown, CapacityExceeded} && Ground(s, clock, mission, plan, profile, reason)
  {
    hide Roomy, Holds, MemoryFits;
    NoMemoryIssueIff(s, mission, plan, profile);
    RoomIff(s, mission, plan, profile);
    var known := KnownCapacities(s, plan.resources);
    forall mib ensures mib in known <==> exists id :: id in plan.resources && Holds(s, id, mib) {
      CapacitiesAre(s, plan.resources, mib);
    }
    assert known == [] <==> !exists id, mib :: id in plan.resources && Holds(s, id, mib) by {
      if known != [] {
        assert known[0] in known;
        var id :| id in plan.resources && Holds(s, id, known[0]);
      }
      if id, mib :| id in plan.resources && Holds(s, id, mib) {
        assert mib in known;
      }
    }
  }

  lemma PlacementMembers(s: Scheduler, mission: Mission, plan: Plan, profile: Profile, reason: Reason)
    ensures reason in PlacementReasons(s, mission, plan, profile) <==>
            || reason in MissionReasons(mission, plan, profile) || reason in LeaseReasons(s, mission, plan)
            || MemoryIssue(s, mission, plan, profile) == Some(reason)
            || (UnacceptablePipelineLink(s, mission, plan) && reason == NoDirectPath)
  {
    hide MissionReasons, LeaseReasons, MemoryIssue, UnacceptablePipelineLink;
  }

  /** A candidate carries a reason exactly if what the reason says is so. */
  lemma ReasonsAreGrounds(s: Scheduler, clock: real, mission: Mission, plan: Plan, profile: Profile, reason: Reason)
    ensures reason in Evaluated(s, clock, mission, plan, profile).reasons <==>
            Ground(s, clock, mission, plan, profile, reason)
  {
    hide MissionReasons, MemoryIssue, UnacceptablePipelineLink, Joined, Roomy, SoleValidation, SoleEvidence;
    hide AllVesselReasons, ValidationFor, EvidenceFor, UsesPreemptible, Lapsed, Barred, Holds, SomeVesselMissing;
    hide PlacementReasons;
    PlacementMembers(s, mission, plan, profile, reason);
    MissionGroundsOf(s, clock, mission, plan, profile, reason);
    VesselGroundsOf(s, mission, plan.vessels, With([], SomeVesselMissing(s, plan.vessels), VesselUnavailable), reason);
    MemoryGroundsOf(s, clock, mission, plan, profile, reason);
    JoinedIff(s, mission, plan);
    MissingIff(s, plan.vessels);
    var validation, evidence := ValidationFor(s, profile), EvidenceFor(s, clock, mission, plan, profile);
    assert forall v :: validation == Some(v) <==> SoleValidation(s, profile, v);
    assert forall b :: evidence == Some(b) <==> SoleEvidence(s, clock, mission, plan, profile, b);
  }

  lemma MissingIff(s: Scheduler, ids: seq<string>)
    ensures SomeVesselMissing(s, ids) <==> exists id :: id in ids && forall v :: v in s.vessels ==> v.id != id
  {
    forall id ensures VesselById(s.vessels, id).None? <==> forall v :: v in s.vessels ==> v.id != id {
    }
  }

  // ----- evidence -----

  predicate Plausible(m: Option<Metric>) {
    m.None? || (m.value.Finite? && m.value.value >= 0.0)
  }

  predicate AllPlausible(values: map<string, Metric>) {
    forall k :: k in values ==> values[k].Finite? && values[k].value >= 0.0
  }

  // What was measured is this plan for this profile on its current runtime under the mission's workload.
  predicate MeasuresPlan(b: Observation, s: Scheduler, mission: Mission, plan: Plan, profile: Profile) {
    && profile.runtimeId in s.currentRuntimes && b.runtime == Some(s.currentRuntimes[profile.runtimeId])
    && b.profile == profile && b.mode == plan.mode && b.resources == plan.resources
    && mission.workload == Some(b.workload) && b.measured && !b.failed
  }

  // It is of the period asked for, judged by `clock`.
  predicate IsRecent(b: Observation, clock: real, mission: Mission) {
    && mission.evidenceNotBefore.Some? && mission.evidenceNotBefore.value.Aware? && b.timestamp.Aware?
    && mission.evidenceNotBefore.value.at <= b.timestamp.at <= clock
  }

  // It reports the speed its workload is about, and nothing it reports is negative or not finite.
  predicate IsSound(b: Observation) {
    && (if b.workload.promptTokens != 0 && b.workload.outputTokens == 0 then b.prefillTps.Some? else b.decodeTps.Some?)
    && Plausible(b.loadSeconds) && Plausible(b.ttftSeconds) && Plausible(b.prefillTps) && Plausible(b.decodeTps)
    && Plausible(b.powerWatts) && AllPlausible(b.residencyMib) && AllPlausible(b.utilization)
    && (forall k :: k in b.network && b.network[k].Number? ==>
          b.network[k].metric.Finite? && b.network[k].metric.value >= 0.0)
  }

  predicate Tells(b: Observation, s: Scheduler, clock: real, mission: Mission, plan: Plan, profile: Profile) {
    b in s.benchmarks && MeasuresPlan(b, s, mission, plan, profile) && IsRecent(b, clock, mission) && IsSound(b)
  }

  lemma ComparableTells(
    s: Scheduler, clock: real, mission: Mission, plan: Plan, profile: Profile, b: Observation)
    requires b in s.benchmarks
    ensures Comparable(s, clock, mission, plan, profile, b) <==> Tells(b, s, clock, mission, plan, profile)
  {
    assert IsSound(b) <==> ValidMetrics(b);
  }

  /**
   The evidence for a plan is a record that tells of it, all such records being
   the same but for their ids, and of these the one with the greatest id.
   */
  lemma EvidenceOnGrounds(
    s: Scheduler, clock: real, mission: Mission, plan: Plan, profile: Profile, b: Observation)
    ensures EvidenceFor(s, clock, mission, plan, profile) == Some(b) <==>
            && Tells(b, s, clock, mission, plan, profile)
            && forall c :: Tells(c, s, clock, mission, plan, profile) ==>
                 c.(id := b.id) == b && !StringLess(b.id, c.id)
  {
    hide EvidenceFor, Comparable, WithoutId, StringLess, MeasuresPlan, IsRecent, IsSound;
    forall c: Observation | c in s.benchmarks
      ensures Comparable(s, clock, mission, plan, profile, c) <==> Tells(c, s, clock, mission, plan, profile)
    {
      ComparableTells(s, clock, mission, plan, profile, c);
    }
    forall c: Observation ensures WithoutId(c) == WithoutId(b) <==> c.(id := b.id) == b {
      SameButForId(b, c);
    }
    assert EvidenceFor(s, clock, mission, plan, profile) == Some(b) <==>
      SoleEvidence(s, clock, mission, plan, profile, b);
  }

  lemma SameButForId(b: Observation, c: Observation)
    ensures WithoutId(c) == WithoutId(b) <==> c.(id := b.id) == b
  {
    assert WithoutId(c).(id := b.id) == c.(id := b.id) && WithoutId(b).(id := b.id) == b;
    assert WithoutId(c.(id := b.id)) == WithoutId(c);
  }

  // ----- plans -----

  /**
   The candidates of a selection are one for each profile and mode, each with the
   plan that runs the profile's resources on all vessels hosting one of them, the
   vessels named once each in ascending order.
   */
  lemma CandidatesArePlans(s: Scheduler, clock: real, mission: Mission, profiles: seq<Profile>, c: Candidate)
    requires IsCandidate(s, clock, mission, profiles, c)
    ensures exists p :: p in profiles && c.plan.profileId == p.id && c.plan.resources == p.resources
                        && c.plan.planId == ModeName(c.plan.mode) + ":" + p.id
    ensures forall i, j :: 0 <= i < j < |c.plan.vessels| ==> StringLess(c.plan.vessels[i], c.plan.vessels[j])
    ensures forall id :: id in c.plan.vessels <==>
              exists v, r :: v in s.vessels && v.id == id && r in v.resources && r.id in c.plan.resources
  {
    hide Evaluated, ModeName, Sorted;
    var p, mode :| p in profiles && c == Judged(s, clock, mission, p, mode);
    var plan := PlanFor(s, p, mode);
    assert c.plan == plan by { JudgedHasPlan(s, clock, mission, p, mode); }
    var sorted := SortedStrictly(HostIds(s.vessels, p.resources));
    assert plan.vessels == sorted;
  }

  lemma JudgedHasPlan(s: Scheduler, clock: real, mission: Mission, profile: Profile, mode: ExecutionMode)
    ensures Judged(s, clock, mission, profile, mode).plan == PlanFor(s, profile, mode)
  {
  }

  /** No profile and mode is without a candidate. */
  lemma EveryModeIsCandidate(
    s: Scheduler, clock: real, mission: Mission, profiles: seq<Profile>, p: Profile, mode: ExecutionMode)
    requires p in profiles
    ensures exists c :: IsCandidate(s, clock, mission, profiles, c) && c.plan.mode == mode && c.plan.profileId == p.id
  {
    var c := Judged(s, clock, mission, p, mode);
    JudgedHasPlan(s, clock, mission, p, mode);
    assert IsCandidate(s, clock, mission, profiles, c);
  }
}
