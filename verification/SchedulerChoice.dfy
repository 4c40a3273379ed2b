/** What selection guarantees: exact gating, the best plan, and independence of collection order. */
module SchedulerChoice {
  import opened Basics
  import opened Ordering
  import opened SchedulerTypes
  import opened Scheduler

  // ----- which plans are eligible -----

  predicate Usable(s: Scheduler, mission: Mission, id: string) {
    var vessel := VesselById(s.vessels, id);
    && vessel.Some?
    && (vessel.value.lease.Some? ==>
          vessel.value.lease.value.Active(s.now) &&
          !(mission.preemptionPolicy == Forbid && vessel.value.lease.value.preemptible))
  }

  lemma {:induction false} NoLeaseReasonsIff(s: Scheduler, mission: Mission, ids: seq<string>, before: seq<Reason>)
    ensures AllVesselReasons(s, mission, ids, before) == [] && !SomeVesselMissing(s, ids) <==>
            before == [] && forall id :: id in ids ==> Usable(s, mission, id)
    ensures AllVesselReasons(s, mission, ids, before) == [] ==> before == []
  {
    if ids != [] {
      var front := ids[..|ids| - 1];
      assert ids == front + [Last(ids)];
      NoLeaseReasonsIff(s, mission, front, before);
      LastVesselReasons(s, mission, Last(ids), AllVesselReasons(s, mission, front, before));
      assert SomeVesselMissing(s, ids) <==> SomeVesselMissing(s, front) || VesselById(s.vessels, Last(ids)).None?;
      assert (forall id :: id in ids ==> Usable(s, mission, id)) <==>
             (forall id :: id in front ==> Usable(s, mission, id)) && Usable(s, mission, Last(ids));
    }
  }

  lemma LastVesselReasons(s: Scheduler, mission: Mission, id: string, before: seq<Reason>)
    ensures VesselReasons(s, mission, id, before) == [] && VesselById(s.vessels, id).Some? <==>
            before == [] && Usable(s, mission, id)
    ensures VesselReasons(s, mission, id, before) == [] ==> before == []
  {
  }

  predicate MemoryFits(s: Scheduler, mission: Mission, plan: Plan, profile: Profile) {
    var known, required := KnownCapacities(s, plan.resources), RequiredMib(profile.requirements);
    || Largest(required, mission.minimumMemoryMib) == 0.0
    || exists c :: c in known && c >= mission.minimumMemoryMib && forall b :: b in required ==> c >= b
  }

  lemma NoMemoryIssueIff(s: Scheduler, mission: Mission, plan: Plan, profile: Profile)
    ensures MemoryIssue(s, mission, plan, profile).None? <==> MemoryFits(s, mission, plan, profile)
  {
    var known, bounds := KnownCapacities(s, plan.resources), RequiredMib(profile.requirements);
    var required := Largest(bounds, mission.minimumMemoryMib);
    if known != [] {
      var best := Largest(known[1..], known[0]);
      assert known == [known[0]] + known[1..];
      assert best in known;
      if MemoryFits(s, mission, plan, profile) && required != 0.0 {
        var c :| c in known && c >= mission.minimumMemoryMib && forall b :: b in bounds ==> c >= b;
        assert best >= c >= required;
      }
    }
  }

  /** Everything a plan has to meet; the absence of benchmark evidence is not among it. */
  ghost predicate Meets(s: Scheduler, mission: Mission, plan: Plan, profile: Profile) {
    && (exists v :: SoleValidation(s, profile, v) && v.state != Unsupported &&
                    (v.state == Undetermined ==> mission.allowUnknownRuntime))
    && mission.safetyOk && mission.cooperationOk && plan.mode in mission.allowModes
    && mission.requiredResources <= AsSet(plan.resources) == AsSet(profile.resources)
    && (forall id :: id in plan.vessels ==> Usable(s, mission, id))
    && MemoryFits(s, mission, plan, profile)
    && !UnacceptablePipelineLink(s, mission, plan)
  }

  lemma EligibleIff(s: Scheduler, clock: real, mission: Mission, plan: Plan, profile: Profile)
    ensures Evaluated(s, clock, mission, plan, profile).eligible <==> Meets(s, mission, plan, profile)
  {
    hide MemoryIssue, MemoryFits, UnacceptablePipelineLink, AllVesselReasons;
    hide SoleValidation, ValidationFor, EvidenceFor, UsesPreemptible;
    NoLeaseReasonsIff(s, mission, plan.vessels, With([], SomeVesselMissing(s, plan.vessels), VesselUnavailable));
    NoMemoryIssueIff(s, mission, plan, profile);
    var validation := ValidationFor(s, profile);
    assert forall v :: validation == Some(v) <==> SoleValidation(s, profile, v);
    PlacementIff(s, mission, plan, profile);
    assert ValidationReasons(validation, mission) == [] <==>
      validation.Some? && validation.value.state != Unsupported &&
      (validation.value.state == Undetermined ==> mission.allowUnknownRuntime);
  }

  lemma PlacementIff(s: Scheduler, mission: Mission, plan: Plan, profile: Profile)
    ensures PlacementReasons(s, mission, plan, profile) == [] <==>
            && MissionReasons(mission, plan, profile) == [] && LeaseReasons(s, mission, plan) == []
            && MemoryIssue(s, mission, plan, profile).None? && !UnacceptablePipelineLink(s, mission, plan)
  {
    hide MissionReasons, LeaseReasons, MemoryIssue, UnacceptablePipelineLink;
  }

  // ----- what the preference means -----

  // The vessel at `i` counts for its id: none after it has the same.
  predicate InCharge(vessels: seq<Vessel>, i: int) {
    0 <= i < |vessels| && forall j :: i < j < |vessels| ==> vessels[j].id != vessels[i].id
  }

  /** Some vessel that counts for an id of the plan is held under a preemptible lease. */
  predicate OnPreemptible(s: Scheduler, plan: Plan) {
    exists i :: 0 <= i < |s.vessels| && InCharge(s.vessels, i) && s.vessels[i].id in plan.vessels &&
                s.vessels[i].lease.Some? && s.vessels[i].lease.value.preemptible
  }

  lemma {:induction false} InChargeIsFound(vessels: seq<Vessel>, i: int)
    requires InCharge(vessels, i)
    ensures VesselById(vessels, vessels[i].id) == Some(vessels[i])
  {
    if i < |vessels| - 1 {
      var front := vessels[..|vessels| - 1];
      assert Last(vessels) == vessels[|vessels| - 1];
      assert forall j :: i < j < |front| ==> front[j] == vessels[j];
      InChargeIsFound(front, i);
    }
  }

  lemma {:induction false} FoundIsInCharge(vessels: seq<Vessel>, id: string) returns (i: int)
    requires VesselById(vessels, id).Some?
    ensures InCharge(vessels, i) && vessels[i].id == id && VesselById(vessels, id) == Some(vessels[i])
  {
    if Last(vessels).id == id {
      i := |vessels| - 1;
    } else {
      var front := vessels[..|vessels| - 1];
      i := FoundIsInCharge(front, id);
      assert forall j :: 0 <= j < |front| ==> front[j] == vessels[j];
    }
  }

  lemma PreemptibleByPlace(s: Scheduler, plan: Plan)
    ensures UsesPreemptible(s, plan) <==> OnPreemptible(s, plan)
  {
    if UsesPreemptible(s, plan) {
      var id :| id in plan.vessels && VesselById(s.vessels, id).Some? && Preemptible(VesselById(s.vessels, id).value);
      var i := FoundIsInCharge(s.vessels, id);
    }
    if OnPreemptible(s, plan) {
      var i :| 0 <= i < |s.vessels| && InCharge(s.vessels, i) && s.vessels[i].id in plan.vessels &&
               s.vessels[i].lease.Some? && s.vessels[i].lease.value.preemptible;
      InChargeIsFound(s.vessels, i);
    }
  }

  /** Under Prefer the preference of a candidate is 0 exactly if it uses preemptible capacity; elsewhere it is 0. */
  lemma PreferenceIff(s: Scheduler, clock: real, mission: Mission, profiles: seq<Profile>, c: Candidate)
    requires IsCandidate(s, clock, mission, profiles, c)
    ensures c.preference == if mission.preemptionPolicy == Prefer && !OnPreemptible(s, c.plan) then 1 else 0
  {
    hide PlanFor, EvidenceFor, ValidationFor, PlacementReasons, UsesPreemptible, OnPreemptible, RankOf;
    var p, mode :| p in profiles && c == Judged(s, clock, mission, p, mode);
    PreemptibleByPlace(s, c.plan);
  }

  // ----- the chosen plan is the best -----

  // The speed an observation shows: prefill for a prompt without output, decoding otherwise.
  function SpeedOf(c: Candidate): real {
    if c.evidence.None? then 0.0
    else
      var b := c.evidence.value;
      var speed := if b.workload.promptTokens != 0 && b.workload.outputTokens == 0 then b.prefillTps else b.decodeTps;
      if speed.Some? && speed.value.Finite? then speed.value.value else 0.0
  }

  // Both plans have evidence or both have none, and the mission's policy makes no difference between them.
  predicate OnAPar(s: Scheduler, mission: Mission, c: Candidate, d: Candidate) {
    && (c.evidence.Some? <==> d.evidence.Some?)
    && (mission.preemptionPolicy == Prefer ==> (OnPreemptible(s, c.plan) <==> OnPreemptible(s, d.plan)))
  }

  // On a par, and both run as a pipeline or neither does.
  predicate OnALevel(s: Scheduler, mission: Mission, c: Candidate, d: Candidate) {
    OnAPar(s, mission, c, d) && (c.plan.mode == Pipeline <==> d.plan.mode == Pipeline)
  }

  /**
   Against every other eligible plan, the chosen one has evidence if the other
   has; at equal standing, if preemptible capacity is preferred and the other
   uses it, so does the chosen one; at equal standing in that as well it avoids a
   pipeline if the other does, is then at least as fast, and else has the lesser id.
   */
  lemma ChosenIsBest(s: Scheduler, clock: real, mission: Mission, profiles: seq<Profile>, c: Candidate, d: Candidate)
    requires Chosen(s, clock, mission, profiles, c)
    requires IsCandidate(s, clock, mission, profiles, d) && d.eligible
    ensures d.evidence.Some? ==> c.evidence.Some?
    ensures (c.evidence.Some? <==> d.evidence.Some?) && mission.preemptionPolicy == Prefer ==>
              (OnPreemptible(s, d.plan) ==> OnPreemptible(s, c.plan))
    ensures OnAPar(s, mission, c, d) && c.plan.mode == Pipeline ==> d.plan.mode == Pipeline
    ensures OnALevel(s, mission, c, d) ==> SpeedOf(c) >= SpeedOf(d)
    ensures OnALevel(s, mission, c, d) && SpeedOf(c) == SpeedOf(d) && c != d ==>
              StringLess(c.plan.planId, d.plan.planId)
  {
    hide IsCandidate, SpeedOf, OnPreemptible;
    RankOfCandidate(s, clock, mission, profiles, c);
    RankOfCandidate(s, clock, mission, profiles, d);
    PreferenceIff(s, clock, mission, profiles, c);
    PreferenceIff(s, clock, mission, profiles, d);
    assert c == d || Before(c, d);
  }

  lemma RankOfCandidate(s: Scheduler, clock: real, mission: Mission, profiles: seq<Profile>, c: Candidate)
    requires IsCandidate(s, clock, mission, profiles, c) && c.eligible
    ensures c.rank == Some(Rank(0, if c.evidence.Some? then -1 else 0, c.preference,
                                if c.plan.mode == Pipeline then 0 else -1, -SpeedOf(c)))
  {
    hide Judged, RankOf;
    var p, mode :| p in profiles && c == Judged(s, clock, mission, p, mode);
    JudgedRank(s, clock, mission, p, mode);
  }

  lemma JudgedRank(s: Scheduler, clock: real, mission: Mission, profile: Profile, mode: ExecutionMode)
    requires Judged(s, clock, mission, profile, mode).eligible
    ensures var c := Judged(s, clock, mission, profile, mode);
            c.rank == Some(Rank(0, if c.evidence.Some? then -1 else 0, c.preference,
                                if c.plan.mode == Pipeline then 0 else -1, -SpeedOf(c)))
  {
    hide PlanFor, EvidenceFor, ValidationFor, PlacementReasons, UsesPreemptible;
    var plan := PlanFor(s, profile, mode);
    var evidence := EvidenceFor(s, clock, mission, plan, profile);
    if evidence.Some? {
      assert SoleEvidence(s, clock, mission, plan, profile, evidence.value);
    }
  }

  lemma ChoiceIsUnique(s: Scheduler, clock: real, mission: Mission, profiles: seq<Profile>, c: Candidate, d: Candidate)
    requires Chosen(s, clock, mission, profiles, c) && Chosen(s, clock, mission, profiles, d)
    ensures c == d
  {
    CandidatesAreSortable();
    assert c == d || Before(c, d);
    assert d == c || Before(d, c);
  }

  // ----- profiles by id -----

  // `p` is the last of its id.
  ghost predicate LastOfItsId(profiles: seq<Profile>, p: Profile) {
    exists i :: 0 <= i < |profiles| && profiles[i] == p && forall j :: i < j < |profiles| ==> profiles[j].id != p.id
  }

  /** Among profiles of one id the last counts. */
  lemma {:induction false} LatestKeepsLast(profiles: seq<Profile>)
    ensures forall p :: p in Latest(profiles) <==> LastOfItsId(profiles, p)
  {
    if profiles != [] {
      var front, last := profiles[..|profiles| - 1], Last(profiles);
      LatestKeepsLast(front);
      assert profiles == front + [last];
      forall p ensures p in Latest(profiles) <==> LastOfItsId(profiles, p) {
        LatestSnoc(front, last, p);
        LastOfItsIdSnoc(front, last, p);
        assert p in Latest(front) <==> LastOfItsId(front, p);
      }
    }
  }

  lemma LastOfItsIdSnoc(front: seq<Profile>, last: Profile, p: Profile)
    ensures LastOfItsId(front + [last], p) <==> p == last || (p.id != last.id && LastOfItsId(front, p))
  {
    var all := front + [last];
    if p == last { assert all[|front|] == p; }
    if LastOfItsId(all, p) && p != last {
      var i :| 0 <= i < |all| && all[i] == p && forall j :: i < j < |all| ==> all[j].id != p.id;
      assert front[i] == p && all[|front|] == last;
      assert forall j :: i < j < |front| ==> front[j] == all[j];
    }
    if p.id != last.id && LastOfItsId(front, p) {
      var i :| 0 <= i < |front| && front[i] == p && forall j :: i < j < |front| ==> front[j].id != p.id;
      assert all[i] == p;
      assert forall j :: i < j < |front| ==> front[j] == all[j];
    }
  }

  lemma LatestSnoc(front: seq<Profile>, last: Profile, p: Profile)
    ensures p in Latest(front + [last]) <==> p == last || (p.id != last.id && p in Latest(front))
  {
    assert (front + [last])[..|front|] == front;
    var earlier, now := Latest(front), Latest(front + [last]);
    if k :| 0 <= k < |earlier| && earlier[k].id == last.id {
      assert now[k] == last;
      if p in earlier && p.id != last.id {
        var i :| 0 <= i < |earlier| && earlier[i] == p;
        assert now[i] == p;
      }
      if p in now && p != last {
        var i :| 0 <= i < |now| && now[i] == p;
        assert earlier[i] == p;
      }
    }
  }

  // ----- collection order -----

  predicate Alike<T(==)>(a: seq<T>, b: seq<T>) {
    (forall x :: x in a ==> x in b) && (forall x :: x in b ==> x in a)
  }

  predicate VesselIdsTell(vessels: seq<Vessel>) {
    forall v, w :: v in vessels && w in vessels && v.id == w.id ==> v == w
  }

  predicate ResourceIdsTell(vessels: seq<Vessel>) {
    forall r, q :: r in AllResources(vessels) && q in AllResources(vessels) && r.id == q.id ==> r == q
  }

  /** The same knowledge, whatever the order and repetition of its parts. */
  ghost predicate SameKnowledge(s: Scheduler, t: Scheduler) {
    && Alike(s.vessels, t.vessels) && VesselIdsTell(s.vessels) && ResourceIdsTell(s.vessels)
    && Alike(s.links, t.links)
    && Alike(s.benchmarks, t.benchmarks) && Alike(s.validations, t.validations)
    && s.currentRuntimes == t.currentRuntimes && s.now == t.now
  }

  lemma VesselByIdAlike(vessels: seq<Vessel>, others: seq<Vessel>, id: string)
    requires Alike(vessels, others) && VesselIdsTell(vessels)
    ensures VesselById(vessels, id) == VesselById(others, id)
  {
  }

  lemma {:induction false} ResourceInFleet(vessels: seq<Vessel>, r: Resource)
    ensures r in AllResources(vessels) <==> exists v :: v in vessels && r in v.resources
  {
    if vessels != [] {
      ResourceInFleet(vessels[..|vessels| - 1], r);
      assert vessels == vessels[..|vessels| - 1] + [Last(vessels)];
    }
  }

  lemma {:induction false} ResourceByIdFinds(resources: seq<Resource>, id: string)
    ensures var r := ResourceById(resources, id);
            && (r.Some? <==> exists x :: x in resources && x.id == id)
            && (r.Some? ==> r.value in resources && r.value.id == id)
  {
    if resources != [] {
      ResourceByIdFinds(resources[..|resources| - 1], id);
      assert resources == resources[..|resources| - 1] + [Last(resources)];
    }
  }

  lemma ResourceByIdAlike(vessels: seq<Vessel>, others: seq<Vessel>, id: string)
    requires Alike(vessels, others) && ResourceIdsTell(vessels)
    ensures ResourceById(AllResources(vessels), id) == ResourceById(AllResources(others), id)
  {
    var a, b := AllResources(vessels), AllResources(others);
    ResourceByIdFinds(a, id);
    ResourceByIdFinds(b, id);
    forall r ensures r in a <==> r in b {
      ResourceInFleet(vessels, r);
      ResourceInFleet(others, r);
    }
  }

  lemma {:induction false} KnownCapacitiesAlike(s: Scheduler, t: Scheduler, resources: seq<string>)
    requires SameKnowledge(s, t)
    ensures KnownCapacities(s, resources) == KnownCapacities(t, resources)
  {
    hide MemoryMib, ResourceById, AllResources;
    if resources != [] {
      KnownCapacitiesAlike(s, t, resources[1..]);
      ResourceByIdAlike(s.vessels, t.vessels, resources[0]);
    }
  }

  lemma {:induction false} StrictlySortedIsUnique(a: seq<string>, b: seq<string>)
    requires forall i, j :: 0 <= i < j < |a| ==> StringLess(a[i], a[j])
    requires forall i, j :: 0 <= i < j < |b| ==> StringLess(b[i], b[j])
    requires forall x :: x in a <==> x in b
    ensures a == b
  {
    if a != [] { assert a[0] in a; }
    if b != [] { assert b[0] in b; }
    if a != [] {
      LastIsGreatest(a, b);
      LastIsGreatest(b, a);
      StringLessIsAsymmetric(Last(a), Last(b));
      var front, front' := a[..|a| - 1], b[..|b| - 1];
      assert a == front + [Last(a)] && b == front' + [Last(b)];
      forall x ensures x in front <==> x in front' {
        FrontMembers(a, x);
        FrontMembers(b, x);
      }
      StrictlySortedIsUnique(front, front');
    }
  }

  lemma LastIsGreatest(a: seq<string>, b: seq<string>)
    requires a != [] && b != [] && Last(b) in a
    requires forall i, j :: 0 <= i < j < |a| ==> StringLess(a[i], a[j])
    ensures Last(b) == Last(a) || StringLess(Last(b), Last(a))
  {
    var i :| 0 <= i < |a| && a[i] == Last(b);
  }

  lemma FrontMembers(a: seq<string>, x: string)
    requires a != [] && forall i, j :: 0 <= i < j < |a| ==> StringLess(a[i], a[j])
    ensures x in a[..|a| - 1] <==> x in a && x != Last(a)
  {
    assert a == a[..|a| - 1] + [Last(a)];
    StringLessIsAsymmetric(x, x);
  }

  lemma SortedStrictly(ids: seq<string>) returns (r: seq<string>)
    requires forall i, j :: 0 <= i < j < |ids| ==> ids[i] != ids[j]
    ensures r == Sorted(ids, Precedes)
    ensures (forall i, j :: 0 <= i < j < |r| ==> StringLess(r[i], r[j])) && forall x :: x in r <==> x in ids
  {
    r := Sorted(ids, Precedes);
    StringsAreSortable();
    SortedIsOrdered(ids, Precedes);
    forall x ensures x in r <==> x in ids {
      assert x in multiset(r) <==> x in multiset(ids);
    }
    forall i, j | 0 <= i < j < |r| ensures StringLess(r[i], r[j]) {
      StringLessIsTotal(r[i], r[j]);
      if r[i] == r[j] { SameMultisetDistinct(r, ids, i, j); }
    }
  }

  // The count of a value that occurs twice is above that of one that occurs at most once.
  lemma SameMultisetDistinct(r: seq<string>, ids: seq<string>, i: nat, j: nat)
    requires multiset(r) == multiset(ids) && i < j < |r| && r[i] == r[j]
    ensures exists k, l :: 0 <= k < l < |ids| && ids[k] == ids[l]
  {
    var x := r[i];
    assert r == r[..j] + [r[j]] + r[j + 1..];
    assert r[..j] == r[..i] + [r[i]] + r[i + 1..j];
    assert multiset(r)[x] >= 2;
    TwiceMeansTwoPlaces(ids, x);
  }

  lemma {:induction false} TwiceMeansTwoPlaces(ids: seq<string>, x: string)
    requires multiset(ids)[x] >= 2
    ensures exists k, l :: 0 <= k < l < |ids| && ids[k] == ids[l]
  {
    var front := ids[..|ids| - 1];
    assert ids == front + [Last(ids)];
    if Last(ids) == x {
      assert x in multiset(front);
      var k :| 0 <= k < |front| && front[k] == x;
      assert ids[k] == ids[|ids| - 1];
    } else {
      TwiceMeansTwoPlaces(front, x);
      var k, l :| 0 <= k < l < |front| && front[k] == front[l];
      assert ids[k] == ids[l];
    }
  }

  lemma PlanAlike(s: Scheduler, t: Scheduler, profile: Profile, mode: ExecutionMode)
    requires SameKnowledge(s, t)
    ensures PlanFor(s, profile, mode) == PlanFor(t, profile, mode)
  {
    var a, b := HostIds(s.vessels, profile.resources), HostIds(t.vessels, profile.resources);
    var x := SortedStrictly(a);
    var y := SortedStrictly(b);
    StrictlySortedIsUnique(x, y);
  }

  lemma {:induction false} VesselReasonsAlike(
    s: Scheduler, t: Scheduler, mission: Mission, ids: seq<string>, before: seq<Reason>)
    requires SameKnowledge(s, t)
    ensures AllVesselReasons(s, mission, ids, before) == AllVesselReasons(t, mission, ids, before)
  {
    if ids != [] {
      VesselReasonsAlike(s, t, mission, ids[..|ids| - 1], before);
      VesselByIdAlike(s.vessels, t.vessels, Last(ids));
    }
  }

  lemma PlacementAlike(s: Scheduler, t: Scheduler, mission: Mission, plan: Plan, profile: Profile)
    requires SameKnowledge(s, t)
    ensures PlacementReasons(s, mission, plan, profile) == PlacementReasons(t, mission, plan, profile)
    ensures UsesPreemptible(s, plan) == UsesPreemptible(t, plan)
  {
    forall id ensures VesselById(s.vessels, id) == VesselById(t.vessels, id) {
      VesselByIdAlike(s.vessels, t.vessels, id);
    }
    assert SomeVesselMissing(s, plan.vessels) == SomeVesselMissing(t, plan.vessels);
    VesselReasonsAlike(s, t, mission, plan.vessels, With([], SomeVesselMissing(s, plan.vessels), VesselUnavailable));
    KnownCapacitiesAlike(s, t, plan.resources);
    assert UnacceptablePipelineLink(s, mission, plan) == UnacceptablePipelineLink(t, mission, plan);
  }

  lemma EvidenceAlike(s: Scheduler, t: Scheduler, clock: real, mission: Mission, plan: Plan, profile: Profile)
    requires SameKnowledge(s, t)
    ensures EvidenceFor(s, clock, mission, plan, profile) == EvidenceFor(t, clock, mission, plan, profile)
  {
    hide Comparables, Representative;
    forall b
      ensures Comparable(s, clock, mission, plan, profile, b) == Comparable(t, clock, mission, plan, profile, b)
    {
    }
    forall b
      ensures SoleEvidence(s, clock, mission, plan, profile, b) == SoleEvidence(t, clock, mission, plan, profile, b)
    {
    }
  }

  lemma ValidationAlike(s: Scheduler, t: Scheduler, profile: Profile)
    requires SameKnowledge(s, t)
    ensures ValidationFor(s, profile) == ValidationFor(t, profile)
  {
    forall v ensures SoleValidation(s, profile, v) == SoleValidation(t, profile, v) {}
  }

  lemma JudgedAlike(s: Scheduler, t: Scheduler, clock: real, mission: Mission, profile: Profile, mode: ExecutionMode)
    requires SameKnowledge(s, t)
    ensures Judged(s, clock, mission, profile, mode) == Judged(t, clock, mission, profile, mode)
  {
    hide PlanFor, EvidenceFor, ValidationFor, PlacementReasons, UsesPreemptible, WithRank, SameKnowledge;
    var plan := PlanFor(s, profile, mode);
    PlanAlike(s, t, profile, mode);
    EvidenceAlike(s, t, clock, mission, plan, profile);
    ValidationAlike(s, t, profile);
    PlacementAlike(s, t, mission, plan, profile);
  }

  /** The choice does not depend on the order or repetition of what the scheduler is given. */
  lemma ChoiceIsOrderFree(
    s: Scheduler, t: Scheduler, clock: real, mission: Mission,
    profiles: seq<Profile>, others: seq<Profile>, c: Candidate)
    requires SameKnowledge(s, t) && Alike(profiles, others)
    ensures Chosen(s, clock, mission, profiles, c) <==> Chosen(t, clock, mission, others, c)
    ensures IsCandidate(s, clock, mission, profiles, c) <==> IsCandidate(t, clock, mission, others, c)
  {
    hide SameKnowledge, Judged, Before;
    forall d ensures IsCandidate(s, clock, mission, profiles, d) <==> IsCandidate(t, clock, mission, others, d) {
      forall p, mode ensures Judged(s, clock, mission, p, mode) == Judged(t, clock, mission, p, mode) {
        JudgedAlike(s, t, clock, mission, p, mode);
      }
    }
  }

  lemma RuntimesAlike(
    runtimes: seq<Runtime>, others: seq<Runtime>, current: map<string, Runtime>, current': map<string, Runtime>)
    requires Alike(runtimes, others)
    requires forall id, r :: id in current && current[id] == r <==> OneRuntime(runtimes, id, r)
    requires forall id, r :: id in current' && current'[id] == r <==> OneRuntime(others, id, r)
    ensures current == current'
  {
    forall id, r ensures OneRuntime(runtimes, id, r) <==> OneRuntime(others, id, r) {}
    forall id ensures id in current <==> id in current' {
      if id in current { assert OneRuntime(runtimes, id, current[id]); }
      if id in current' { assert OneRuntime(others, id, current'[id]); }
    }
    forall id | id in current ensures current[id] == current'[id] {
      assert OneRuntime(runtimes, id, current[id]);
    }
  }

  lemma {:induction false} DistinctAreLatest(profiles: seq<Profile>)
    requires DistinctIds(profiles)
    ensures Latest(profiles) == profiles
  {
    if profiles != [] {
      var front := profiles[..|profiles| - 1];
      DistinctAreLatest(front);
      assert profiles == front + [Last(profiles)];
    }
  }

  /**
   Two schedulers built from the same vessels, links, observations, validations
   and runtimes, each in any order and repeated at will, choose the same plan for
   the same profiles with distinct ids, or both choose none.
   */
  lemma SelectionIsOrderFree(
    s: Scheduler, t: Scheduler, vessels: seq<Vessel>, vessels': seq<Vessel>, links: seq<Link>, links': seq<Link>,
    benchmarks: seq<Observation>, benchmarks': seq<Observation>,
    validations: seq<Validation>, validations': seq<Validation>,
    runtimes: seq<Runtime>, runtimes': seq<Runtime>, now: real, clock: real, mission: Mission,
    profiles: seq<Profile>, profiles': seq<Profile>, c: Candidate)
    requires Built(s, vessels, links, benchmarks, validations, runtimes, now)
    requires Built(t, vessels', links', benchmarks', validations', runtimes', now)
    requires Alike(vessels, vessels') && VesselIdsTell(vessels) && ResourceIdsTell(vessels)
    requires Alike(links, links') && Alike(benchmarks, benchmarks')
    requires Alike(validations, validations') && Alike(runtimes, runtimes')
    requires Alike(profiles, profiles') && DistinctIds(profiles) && DistinctIds(profiles')
    ensures Chosen(s, clock, mission, Latest(profiles), c) <==> Chosen(t, clock, mission, Latest(profiles'), c)
    ensures IsCandidate(s, clock, mission, Latest(profiles), c) <==>
            IsCandidate(t, clock, mission, Latest(profiles'), c)
  {
    hide Chosen, Latest;
    RuntimesAlike(runtimes, runtimes', s.currentRuntimes, t.currentRuntimes);
    DistinctAreLatest(profiles);
    DistinctAreLatest(profiles');
    ChoiceIsOrderFree(s, t, clock, mission, profiles, profiles', c);
  }
}
