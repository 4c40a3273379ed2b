/**
 The one-job lease machine: what a sequence of claims, renewals, abandonments
 and completions may do to a job, each guard evaluated at explicit clock
 readings.  The in-memory delivery object lives as one run of this machine, and
 so does the committed history of every durable job record.
 */
module LeaseMachine {
  import opened Basics
  import opened FlashTypes

  datatype Terms = Terms(startedAt: real, budget: WorkBudget) {
    function Deadline(): real {
      startedAt + budget.wallSeconds
    }
  }

  datatype Held<L> = Held(leaseId: L, attempt: nat, expiresAt: real)

  datatype Machine<L> = Machine(attempts: nat, current: Option<Held<L>>, accepted: Option<ResultJson>)

  // Every `at...` component is a clock reading, listed in the order it is taken.
  datatype Action<L> =
    | Claim(leaseId: L, lease: real, atDeadline: real, atExpiry: real, atGrant: real)
    | Renew(leaseId: L, lease: real, atCheck: real, atGrant: real)
    | Abandon(leaseId: L, atCheck: real)
    | Complete(leaseId: L, result: ResultJson, atEntry: real, atCommit: real)
    | Stutter

  function Fresh<L>(): Machine<L> {
    Machine(0, None, None)
  }

  predicate HeldAt<L(==)>(m: Machine<L>, leaseId: L, t: real) {
    m.accepted.None? && m.current.Some? && m.current.value.leaseId == leaseId && t < m.current.value.expiresAt
  }

  predicate Enabled<L(==)>(terms: Terms, m: Machine<L>, a: Action<L>) {
    match a
    case Claim(_, lease, atDeadline, atExpiry, _) =>
      && lease > 0.0
      && m.accepted.None?
      && atDeadline < terms.Deadline()
      && m.attempts < terms.budget.maxAttempts
      && (m.current.Some? ==> m.current.value.expiresAt <= atExpiry)
    case Renew(leaseId, lease, atCheck, _) => lease > 0.0 && HeldAt(m, leaseId, atCheck)
    case Abandon(leaseId, atCheck) => HeldAt(m, leaseId, atCheck)
    case Complete(leaseId, _, atEntry, atCommit) => HeldAt(m, leaseId, atEntry) && HeldAt(m, leaseId, atCommit)
    case Stutter => true
  }

  function Apply<L(==)>(terms: Terms, m: Machine<L>, a: Action<L>): Machine<L>
    requires Enabled(terms, m, a)
  {
    match a
    case Claim(leaseId, lease, _, _, atGrant) =>
      m.(attempts := m.attempts + 1,
         current := Some(Held(leaseId, m.attempts + 1, Min(atGrant + lease, terms.Deadline()))))
    case Renew(_, lease, _, atGrant) =>
      m.(current := Some(m.current.value.(expiresAt := Min(atGrant + lease, terms.Deadline()))))
    case Abandon(_, _) => m.(current := None)
    case Complete(_, result, _, _) => m.(accepted := Some(result))
    case Stutter => m
  }

  // The readings of `a` are taken in order, after `before` and no later than `after`.
  predicate Timed<L>(a: Action<L>, before: real, after: real) {
    match a
    case Claim(_, _, t0, t1, t2) => before <= t0 <= t1 <= t2 <= after
    case Renew(_, _, t0, t1) => before <= t0 <= t1 <= after
    case Abandon(_, t0) => before <= t0 <= after
    case Complete(_, _, t0, t1) => before <= t0 <= t1 <= after
    case Stutter => before <= after
  }

  predicate Moves<L(==)>(terms: Terms, m: Machine<L>, a: Action<L>, m': Machine<L>, before: real, after: real) {
    Enabled(terms, m, a) && m' == Apply(terms, m, a) && Timed(a, before, after)
  }

  /** `ms[i]` is the machine at time `times[i]`, and `acts[i]` leads from it to `ms[i + 1]`. */
  predicate Run<L(==)>(terms: Terms, ms: seq<Machine<L>>, acts: seq<Action<L>>, times: seq<real>) {
    && |ms| == |acts| + 1 == |times|
    && ms[0] == Fresh()
    && forall i :: 0 <= i < |acts| ==> Moves(terms, ms[i], acts[i], ms[i + 1], times[i], times[i + 1])
  }

  predicate WellFormed<L(==)>(terms: Terms, m: Machine<L>) {
    && m.attempts <= terms.budget.maxAttempts
    && (m.current.Some? ==>
          m.current.value.attempt == m.attempts && m.attempts >= 1 && m.current.value.expiresAt <= terms.Deadline())
    && (m.accepted.Some? ==> m.current.Some?)
  }

  /** Attempts stay within budget and no lease outlives the wall deadline, in every machine of a run. */
  lemma {:induction false} RunIsWellFormed<L>(
    terms: Terms, ms: seq<Machine<L>>, acts: seq<Action<L>>, times: seq<real>, i: nat)
    requires Run(terms, ms, acts, times) && i < |ms|
    ensures WellFormed(terms, ms[i])
  {
    if i > 0 {
      RunIsWellFormed(terms, ms, acts, times, i - 1);
      assert Moves(terms, ms[i - 1], acts[i - 1], ms[i], times[i - 1], times[i]);
    }
  }

  lemma {:induction false} TimesAreOrdered<L>(
    terms: Terms, ms: seq<Machine<L>>, acts: seq<Action<L>>, times: seq<real>, i: nat, k: nat)
    requires Run(terms, ms, acts, times) && i <= k < |ms|
    ensures times[i] <= times[k]
  {
    if i < k {
      TimesAreOrdered(terms, ms, acts, times, i, k - 1);
      assert Moves(terms, ms[k - 1], acts[k - 1], ms[k], times[k - 1], times[k]);
    }
  }

  /** Once a result is accepted, nothing about the machine ever changes again. */
  lemma {:induction false} AcceptanceIsFinal<L>(
    terms: Terms, ms: seq<Machine<L>>, acts: seq<Action<L>>, times: seq<real>, i: nat, k: nat)
    requires Run(terms, ms, acts, times) && i <= k < |ms|
    requires ms[i].accepted.Some?
    ensures ms[k] == ms[i]
    ensures forall j :: i <= j < k ==> acts[j].Stutter?
  {
    if i < k {
      AcceptanceIsFinal(terms, ms, acts, times, i, k - 1);
      assert Moves(terms, ms[k - 1], acts[k - 1], ms[k], times[k - 1], times[k]);
    }
  }

  lemma {:induction false} AttemptsOnlyGrow<L>(
    terms: Terms, ms: seq<Machine<L>>, acts: seq<Action<L>>, times: seq<real>, i: nat, k: nat)
    requires Run(terms, ms, acts, times) && i <= k < |ms|
    ensures ms[i].attempts <= ms[k].attempts
    ensures (exists j :: i <= j < k && acts[j].Claim?) ==> ms[i].attempts < ms[k].attempts
  {
    if i < k {
      AttemptsOnlyGrow(terms, ms, acts, times, i, k - 1);
      assert Moves(terms, ms[k - 1], acts[k - 1], ms[k], times[k - 1], times[k]);
    }
  }

  // No renewal in the run gives a lease an earlier end than it had.
  ghost predicate RenewalsExtend<L(!new)>(ms: seq<Machine<L>>, acts: seq<Action<L>>) {
    |ms| == |acts| + 1 &&
    forall i :: 0 <= i < |acts| && acts[i].Renew? && ms[i].current.Some? && ms[i + 1].current.Some? ==>
                  ms[i].current.value.expiresAt <= ms[i + 1].current.value.expiresAt
  }

  // The lease held in ms[i] was abandoned by some action in [i, k) whose check came no later than t.
  ghost predicate AbandonedBetween<L(!new)>(ms: seq<Machine<L>>, acts: seq<Action<L>>, i: nat, k: nat, t: real)
    requires |ms| == |acts| + 1 && i < |ms| && ms[i].current.Some?
  {
    exists j :: i <= j < k <= |acts| && acts[j].Abandon? && acts[j].atCheck <= t &&
                ms[j].current.Some? && ms[j].current.value.attempt == ms[i].current.value.attempt
  }

  /**
   Leases never overlap: when a claim is granted, every lease held earlier in
   the run has either ended by the claim's own clock or itself been given up before.
   */
  lemma {:induction false} LeasesNeverOverlap<L(!new)>(
    terms: Terms, ms: seq<Machine<L>>, acts: seq<Action<L>>, times: seq<real>, i: nat, k: nat)
    requires Run(terms, ms, acts, times) && RenewalsExtend(ms, acts)
    requires i <= k < |acts| && acts[k].Claim? && ms[i].current.Some?
    ensures ms[i].current.value.expiresAt <= acts[k].atExpiry || AbandonedBetween(ms, acts, i, k, acts[k].atDeadline)
    decreases k - i
  {
    assert Moves(terms, ms[i], acts[i], ms[i + 1], times[i], times[i + 1]);
    if i < k {
      TimesAreOrdered(terms, ms, acts, times, i + 1, k);
      assert Moves(terms, ms[k], acts[k], ms[k + 1], times[k], times[k + 1]);
      if !acts[i].Abandon? {
        LeasesNeverOverlap(terms, ms, acts, times, i + 1, k);
      }
    }
  }

  // Every lease of the run was granted or renewed for the same number of seconds.
  ghost predicate UniformLease<L(!new)>(acts: seq<Action<L>>, lease: real) {
    forall i :: 0 <= i < |acts| ==>
                  (acts[i].Claim? ==> acts[i].lease == lease) && (acts[i].Renew? ==> acts[i].lease == lease)
  }

  lemma {:induction false} LeaseEndsWithinTerm<L(!new)>(
    terms: Terms, ms: seq<Machine<L>>, acts: seq<Action<L>>, times: seq<real>, lease: real, i: nat)
    requires Run(terms, ms, acts, times) && UniformLease(acts, lease) && i < |ms|
    ensures ms[i].current.Some? ==> ms[i].current.value.expiresAt <= Min(times[i] + lease, terms.Deadline())
  {
    if i > 0 {
      LeaseEndsWithinTerm(terms, ms, acts, times, lease, i - 1);
      assert Moves(terms, ms[i - 1], acts[i - 1], ms[i], times[i - 1], times[i]);
    }
  }

  /** With one lease length and a clock that never runs backwards, renewals never shorten. */
  lemma UniformRenewalsExtend<L(!new)>(
    terms: Terms, ms: seq<Machine<L>>, acts: seq<Action<L>>, times: seq<real>, lease: real)
    requires Run(terms, ms, acts, times) && UniformLease(acts, lease)
    ensures RenewalsExtend(ms, acts)
  {
    forall i | 0 <= i < |acts| && acts[i].Renew? && ms[i].current.Some? && ms[i + 1].current.Some?
      ensures ms[i].current.value.expiresAt <= ms[i + 1].current.value.expiresAt
    {
      LeaseEndsWithinTerm(terms, ms, acts, times, lease, i);
      assert Moves(terms, ms[i], acts[i], ms[i + 1], times[i], times[i + 1]);
    }
  }
}
