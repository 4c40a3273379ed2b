/** Detection of repetition and stagnation over the steps of an attempt, in bounded state. */
module Progress {
  import opened Basics

  datatype ProgressKind = Information | StateChange | Verification | Recovery | NoProgress

  datatype StepOutcome = Success | Failure | Unknown

  // The arguments stand for their canonical JSON.
  datatype AttemptStep = AttemptStep(
    action: string,
    arguments: string,
    outcome: StepOutcome,
    progress: ProgressKind,
    resultFingerprint: Option<string>)

  datatype Signature = Sha256(text: string)

  datatype FailurePair = FailurePair(signature: Signature, fingerprint: string)

  datatype ProgressPolicy = ProgressPolicy(
    recentWindow: nat,
    repeatedCallLimit: nat,
    consecutiveLimit: nat,
    repeatedFailureLimit: nat,
    maxNoProgressSteps: nat)
  {
    predicate Valid() {
      && recentWindow >= 1 && repeatedCallLimit >= 2 && consecutiveLimit >= 2
      && repeatedFailureLimit >= 2 && maxNoProgressSteps >= 1
    }
  }

  datatype Reason = RepeatedFailurePair | ConsecutiveRepeatedAction | RepeatedAction | NoProgressBudgetExhausted

  datatype Intervention = Intervention(
    reason: Reason,
    signature: Signature,
    recentCount: nat,
    consecutiveCount: nat,
    noProgressSteps: nat,
    terminateAttempt: bool)

  function StableSignature(step: AttemptStep): Signature {
    Sha256(step.action + ":" + step.arguments)
  }

  function FailurePairSignature(step: AttemptStep): Option<FailurePair> {
    if step.outcome != Failure then None
    else
      var known := step.resultFingerprint.Some? && step.resultFingerprint.value != "";
      Some(FailurePair(StableSignature(step), if known then step.resultFingerprint.value else "unknown"))
  }

  function Suffix<T>(s: seq<T>, n: nat): (r: seq<T>)
    ensures |r| <= n && |r| <= |s|
  {
    if |s| <= n then s else s[|s| - n..]
  }

  function Count<T(==)>(s: seq<T>, x: T): nat {
    if s == [] then 0 else Count(s[..|s| - 1], x) + if Last(s) == x then 1 else 0
  }

  // ----- what the full history says -----

  function Signatures(history: seq<AttemptStep>): (r: seq<Signature>)
    ensures |r| == |history| && forall i :: 0 <= i < |history| ==> r[i] == StableSignature(history[i])
  {
    seq(|history|, i requires 0 <= i < |history| => StableSignature(history[i]))
  }

  function FailurePairs(history: seq<AttemptStep>): seq<FailurePair> {
    if history == [] then []
    else
      var pairs, pair := FailurePairs(history[..|history| - 1]), FailurePairSignature(Last(history));
      if pair.None? then pairs else pairs + [pair.value]
  }

  /** The greatest number of last steps that all repeat one action. */
  function TrailingRun(history: seq<AttemptStep>): nat {
    if |history| <= 1 then |history|
    else
      var n := |history|;
      if StableSignature(history[n - 2]) != StableSignature(history[n - 1]) then 1
      else TrailingRun(history[..n - 1]) + 1
  }

  predicate Resets(step: AttemptStep) {
    step.progress in {StateChange, Recovery} || (step.progress == Verification && step.outcome == Success)
  }

  /** The number of steps after the last one that resets the budget. */
  function SinceReset(history: seq<AttemptStep>): nat {
    if history == [] || Resets(Last(history)) then 0 else SinceReset(history[..|history| - 1]) + 1
  }

  // The last step's occurrences: among the failures remembered, and among the actions remembered before it.
  function FailureCount(policy: ProgressPolicy, history: seq<AttemptStep>): nat
    requires history != []
  {
    var pair := FailurePairSignature(Last(history));
    if pair.None? then 0 else Count(Suffix(FailurePairs(history), policy.recentWindow), pair.value)
  }

  function RecentCount(policy: ProgressPolicy, history: seq<AttemptStep>): nat
    requires history != []
  {
    Count(Suffix(Signatures(history[..|history| - 1]), policy.recentWindow), StableSignature(Last(history))) + 1
  }

  /** Why the last step of a history calls for an intervention, if it does. */
  function ReasonAt(policy: ProgressPolicy, history: seq<AttemptStep>): Option<Reason>
    requires history != []
  {
    if FailureCount(policy, history) >= policy.repeatedFailureLimit then Some(RepeatedFailurePair)
    else if TrailingRun(history) >= policy.consecutiveLimit then Some(ConsecutiveRepeatedAction)
    else if RecentCount(policy, history) >= policy.repeatedCallLimit && Last(history).progress != Verification then
      Some(RepeatedAction)
    else if SinceReset(history) >= policy.maxNoProgressSteps then Some(NoProgressBudgetExhausted)
    else None
  }

  function InterventionAt(policy: ProgressPolicy, history: seq<AttemptStep>): Option<Intervention>
    requires history != []
  {
    var reason := ReasonAt(policy, history);
    if reason.None? then None
    else
      var idle := SinceReset(history);
      Some(Intervention(reason.value, StableSignature(Last(history)), RecentCount(policy, history),
                        TrailingRun(history), idle, idle >= policy.maxNoProgressSteps))
  }

  function Interventions(policy: ProgressPolicy, history: seq<AttemptStep>): nat {
    if history == [] then 0
    else Interventions(policy, history[..|history| - 1]) + if ReasonAt(policy, history).Some? then 1 else 0
  }

  // ----- the monitor -----

  class ProgressMonitor {
    const policy: ProgressPolicy
    var signatures: seq<Signature>
    var lastSignature: Option<Signature>
    var consecutiveCount: nat
    var noProgressSteps: nat
    var failurePairs: seq<FailurePair>
    var interventions: nat
    // Every step observed.
    ghost var history: seq<AttemptStep>

    ghost predicate Tracks(history: seq<AttemptStep>)
      reads this
    {
      && signatures == Suffix(Signatures(history), policy.recentWindow)
      && lastSignature == (if history == [] then None else Some(StableSignature(Last(history))))
      && consecutiveCount == TrailingRun(history)
      && noProgressSteps == SinceReset(history)
      && failurePairs == Suffix(FailurePairs(history), policy.recentWindow)
    }

    /** The state is a window onto the full history. */
    ghost predicate Valid()
      reads this
    {
      policy.Valid() && Tracks(history) && interventions == Interventions(policy, history)
    }

    constructor (policy: ProgressPolicy)
      requires policy.Valid()
      ensures Valid() && this.policy == policy && history == []
    {
      this.policy := policy;
      signatures, lastSignature, consecutiveCount, noProgressSteps := [], None, 0, 0;
      failurePairs, interventions, history := [], 0, [];
    }

    /** The bounded state decides exactly as the full history would. */
    method Observe(step: AttemptStep) returns (intervention: Option<Intervention>)
      requires Valid()
      modifies this
      ensures Valid() && history == old(history) + [step]
      ensures intervention == InterventionAt(policy, history)
    {
      hide Interventions, FailureCount, RecentCount;
      ghost var full := history + [step];
      assert Last(full) == step;
      InterventionsSnoc(policy, history, step);
      var signature := StableSignature(step);
      var recentCount, consecutive, repeatedFailures := Remember(step);

      var reason: Option<Reason> := None;
      if repeatedFailures >= policy.repeatedFailureLimit {
        reason := Some(RepeatedFailurePair);
      } else if consecutive >= policy.consecutiveLimit {
        reason := Some(ConsecutiveRepeatedAction);
      } else if recentCount >= policy.repeatedCallLimit && step.progress != Verification {
        reason := Some(RepeatedAction);
      } else if noProgressSteps >= policy.maxNoProgressSteps {
        reason := Some(NoProgressBudgetExhausted);
      }
      history := full;

      if reason.None? {
        return None;
      }
      interventions := interventions + 1;
      intervention := Some(Intervention(reason.value, signature, recentCount, consecutive, noProgressSteps,
                                        noProgressSteps >= policy.maxNoProgressSteps));
    }

    // The first half of Observe: update the windows and counters.
    method Remember(step: AttemptStep) returns (recentCount: nat, consecutive: nat, repeatedFailures: nat)
      requires Valid()
      modifies this
      ensures Tracks(history + [step]) && history == old(history) && interventions == old(interventions)
      ensures var full := history + [step];
              recentCount == RecentCount(policy, full) && consecutive == TrailingRun(full) &&
              repeatedFailures == FailureCount(policy, full)
    {
      hide TrailingRun, SinceReset, FailurePairs, Signatures, Suffix, Count, FailureCount, RecentCount;
      ghost var full := history + [step];
      assert Last(full) == step;
      HistorySnoc(history, step);
      CountsSnoc(policy, history, step);

      var signature := StableSignature(step);
      var recent := Suffix(signatures, policy.recentWindow);
      SuffixTwice(Signatures(history), policy.recentWindow);
      recentCount := Count(recent, signature) + 1;
      consecutive := if Some(signature) == lastSignature then consecutiveCount + 1 else 1;

      SuffixSnoc(Signatures(history), signature, policy.recentWindow);
      signatures := signatures + [signature];
      signatures := Suffix(signatures, policy.recentWindow);
      lastSignature := Some(signature);
      consecutiveCount := consecutive;

      if step.progress in {StateChange, Recovery} {
        noProgressSteps := 0;
      } else if step.progress == Verification && step.outcome == Success {
        noProgressSteps := 0;
      } else {
        noProgressSteps := noProgressSteps + 1;
      }

      var failureSignature := FailurePairSignature(step);
      repeatedFailures := 0;
      if failureSignature.Some? {
        SuffixSnoc(FailurePairs(history), failureSignature.value, policy.recentWindow);
        failurePairs := failurePairs + [failureSignature.value];
        failurePairs := Suffix(failurePairs, policy.recentWindow);
        repeatedFailures := Count(failurePairs, failureSignature.value);
      }
    }
  }

  // ----- one step more -----

  lemma HistorySnoc(history: seq<AttemptStep>, step: AttemptStep)
    ensures Signatures(history + [step]) == Signatures(history) + [StableSignature(step)]
    ensures FailurePairs(history + [step]) ==
            if FailurePairSignature(step).None? then FailurePairs(history)
            else FailurePairs(history) + [FailurePairSignature(step).value]
    ensures TrailingRun(history + [step]) ==
            if history == [] || StableSignature(Last(history)) != StableSignature(step) then 1
            else TrailingRun(history) + 1
    ensures SinceReset(history + [step]) == if Resets(step) then 0 else SinceReset(history) + 1
  {
    assert (history + [step])[..|history|] == history;
  }

  lemma InterventionsSnoc(policy: ProgressPolicy, history: seq<AttemptStep>, step: AttemptStep)
    ensures Interventions(policy, history + [step]) ==
            Interventions(policy, history) + if ReasonAt(policy, history + [step]).Some? then 1 else 0
  {
    assert (history + [step])[..|history|] == history;
  }

  lemma CountsSnoc(policy: ProgressPolicy, history: seq<AttemptStep>, step: AttemptStep)
    ensures var full := history + [step];
            && FailureCount(policy, full) == (
                 if FailurePairSignature(step).None? then 0
                 else Count(Suffix(FailurePairs(full), policy.recentWindow), FailurePairSignature(step).value))
            && RecentCount(policy, full) ==
               Count(Suffix(Signatures(history), policy.recentWindow), StableSignature(step)) + 1
  {
    assert (history + [step])[..|history|] == history;
  }

  lemma SuffixTwice<T>(s: seq<T>, n: nat)
    ensures Suffix(Suffix(s, n), n) == Suffix(s, n)
  {
  }

  lemma SuffixSnoc<T>(s: seq<T>, x: T, n: nat)
    ensures Suffix(Suffix(s, n) + [x], n) == Suffix(s + [x], n)
  {
  }

  // ----- what the counts mean -----

  predicate SameAction(a: AttemptStep, b: AttemptStep) {
    StableSignature(a) == StableSignature(b)
  }

  /** The trailing run is the longest stretch of last steps that all repeat the last action. */
  lemma {:induction false} TrailingRunIsLongest(history: seq<AttemptStep>)
    requires history != []
    ensures var n, run := |history|, TrailingRun(history);
            && 1 <= run <= n
            && (forall i :: n - run <= i < n ==> SameAction(history[i], Last(history)))
            && (run < n ==> !SameAction(history[n - run - 1], Last(history)))
  {
    var n := |history|;
    if n > 1 && SameAction(history[n - 2], history[n - 1]) {
      var front := history[..n - 1];
      TrailingRunIsLongest(front);
      assert Last(front) == history[n - 2];
      forall i | n - TrailingRun(history) <= i < n ensures SameAction(history[i], Last(history)) {
        if i < n - 1 { assert front[i] == history[i]; }
      }
    }
  }

  /** The budget counts the steps after the last one that reset it. */
  lemma {:induction false} SinceResetCounts(history: seq<AttemptStep>)
    ensures var n, k := |history|, SinceReset(history);
            && k <= n
            && (forall i :: n - k <= i < n ==> !Resets(history[i]))
            && (k < n ==> Resets(history[n - k - 1]))
  {
    var n := |history|;
    if history != [] && !Resets(Last(history)) {
      var front := history[..n - 1];
      SinceResetCounts(front);
      forall i | n - SinceReset(history) <= i < n ensures !Resets(history[i]) {
        if i < n - 1 { assert front[i] == history[i]; }
      }
    }
  }

  /**
   The attempt is told to stop exactly when its last steps exhaust the budget
   without one that resets it, whatever else the monitor has to say about them.
   */
  lemma StopsExactlyOnExhaustedBudget(policy: ProgressPolicy, history: seq<AttemptStep>)
    requires policy.Valid() && history != []
    ensures var n, limit, answer := |history|, policy.maxNoProgressSteps, InterventionAt(policy, history);
            answer.Some? && answer.value.terminateAttempt <==>
            n >= limit && forall i :: n - limit <= i < n ==> !Resets(history[i])
  {
    SinceResetCounts(history);
  }

  /** Positions at or after `from` whose entry is x. */
  function Positions<T(==)>(s: seq<T>, from: nat, x: T): set<nat> {
    set i: nat | from <= i < |s| && s[i] == x
  }

  lemma PositionsSnoc<T>(s: seq<T>, from: nat, last: T, x: T)
    requires from <= |s|
    ensures |Positions(s + [last], from, x)| == |Positions(s, from, x)| + if last == x then 1 else 0
  {
    var at: nat := |s|;
    assert Positions(s + [last], from, x) == Positions(s, from, x) + if last == x then {at} else {};
  }

  lemma {:induction false} CountFrom<T>(s: seq<T>, from: nat, x: T)
    requires from <= |s|
    ensures Count(s[from..], x) == |Positions(s, from, x)|
  {
    if from == |s| {
      assert Positions(s, from, x) == {};
    } else {
      var front := s[..|s| - 1];
      CountFrom(front, from, x);
      assert s[from..][..|s| - from - 1] == front[from..];
      assert s == front + [Last(s)];
      PositionsSnoc(front, from, Last(s), x);
    }
  }

  /**
   An action is reported as repeated by the number of its occurrences among the
   last recentWindow + 1 steps, the current one included.
   */
  lemma RecentCountByPositions(policy: ProgressPolicy, history: seq<AttemptStep>)
    requires history != []
    ensures var from := if |history| <= policy.recentWindow + 1 then 0 else |history| - 1 - policy.recentWindow;
            RecentCount(policy, history) == |Positions(Signatures(history), from, StableSignature(Last(history)))|
  {
    var front := history[..|history| - 1];
    var signatures, last := Signatures(front), StableSignature(Last(history));
    var from := if |history| <= policy.recentWindow + 1 then 0 else |history| - 1 - policy.recentWindow;
    assert Suffix(signatures, policy.recentWindow) == signatures[from..];
    CountFrom(signatures, from, last);
    PositionsSnoc(signatures, from, last, last);
    assert Signatures(history) == signatures + [last];
  }

  // ----- whole runs -----

  lemma {:induction false} QuietPrefix(policy: ProgressPolicy, history: seq<AttemptStep>, n: nat)
    requires 0 < n <= |history| && Interventions(policy, history) == 0
    ensures TrailingRun(history[..n]) < policy.consecutiveLimit && SinceReset(history[..n]) < policy.maxNoProgressSteps
  {
    if n == |history| {
      assert ReasonAt(policy, history).None?;
      assert history[..n] == history;
    } else {
      QuietPrefix(policy, history[..|history| - 1], n);
      assert history[..|history| - 1][..n] == history[..n];
    }
  }

  /** A run without interventions nowhere repeats an action consecutiveLimit times in a row. */
  lemma {:induction false} QuietRunsVaryActions(policy: ProgressPolicy, history: seq<AttemptStep>, from: nat)
    requires policy.Valid() && Interventions(policy, history) == 0
    requires from + policy.consecutiveLimit <= |history|
    ensures exists i :: from <= i < from + policy.consecutiveLimit && !SameAction(history[i], history[from])
  {
    hide Interventions, TrailingRun, StableSignature;
    var n := from + policy.consecutiveLimit;
    QuietPrefix(policy, history, n);
    TrailingRunIsLongest(history[..n]);
    var k := n - TrailingRun(history[..n]) - 1;
    assert history[..n][k] == history[k] && Last(history[..n]) == history[n - 1];
    assert !SameAction(history[k], history[n - 1]);
    if SameAction(history[k], history[from]) {
      assert !SameAction(history[n - 1], history[from]);
    }
  }

  /** Every stretch of maxNoProgressSteps steps of such a run holds one that resets the budget. */
  lemma {:induction false} QuietRunsMakeProgress(policy: ProgressPolicy, history: seq<AttemptStep>, from: nat)
    requires policy.Valid() && Interventions(policy, history) == 0
    requires from + policy.maxNoProgressSteps <= |history|
    ensures exists i :: from <= i < from + policy.maxNoProgressSteps && Resets(history[i])
  {
    var n := from + policy.maxNoProgressSteps;
    QuietPrefix(policy, history, n);
    SinceResetCounts(history[..n]);
    var k := n - SinceReset(history[..n]) - 1;
    assert history[..n][k] == history[k];
  }

  // ----- when the window is too short -----

  lemma {:induction false} CountIsAtMostLength<T>(s: seq<T>, x: T)
    ensures Count(s, x) <= |s|
  {
    if s != [] { CountIsAtMostLength(s[..|s| - 1], x); }
  }

  function Repeated(step: AttemptStep, n: nat): (r: seq<AttemptStep>)
    ensures |r| == n && forall i :: 0 <= i < n ==> r[i] == step
  {
    seq(n, _ => step)
  }

  lemma {:induction false} RepeatedFailuresAdd(step: AttemptStep, n: nat, window: nat)
    requires step.outcome == Failure && n <= window
    ensures var pairs, pair := FailurePairs(Repeated(step, n)), FailurePairSignature(step).value;
            |pairs| == n && Suffix(pairs, window) == pairs && Count(pairs, pair) == n
  {
    if n > 0 {
      RepeatedFailuresAdd(step, n - 1, window);
      assert Repeated(step, n)[..n - 1] == Repeated(step, n - 1);
      var before, pair := FailurePairs(Repeated(step, n - 1)), FailurePairSignature(step).value;
      assert (before + [pair])[..n - 1] == before;
    }
  }

  /** Repeated failures can be reported at all exactly when the window is long enough to hold them. */
  lemma RepeatedFailuresReportedIff(policy: ProgressPolicy)
    requires policy.Valid()
    ensures (exists history :: history != [] && ReasonAt(policy, history) == Some(RepeatedFailurePair)) <==>
            policy.repeatedFailureLimit <= policy.recentWindow
  {
    if policy.repeatedFailureLimit <= policy.recentWindow {
      var step := AttemptStep("a", "{}", Failure, NoProgress, None);
      var history := Repeated(step, policy.repeatedFailureLimit);
      RepeatedFailuresAdd(step, policy.repeatedFailureLimit, policy.recentWindow);
      assert ReasonAt(policy, history) == Some(RepeatedFailurePair);
    } else {
      forall history | history != [] ensures ReasonAt(policy, history) != Some(RepeatedFailurePair) {
        var pair := FailurePairSignature(Last(history));
        if pair.Some? {
          CountIsAtMostLength(Suffix(FailurePairs(history), policy.recentWindow), pair.value);
        }
      }
    }
  }

  /** A valid policy that remembers one failure and asks for two: no repetition is ever reported. */
  lemma ShortWindowNeverReports(history: seq<AttemptStep>)
    requires history != []
    ensures ProgressPolicy(1, 3, 3, 2, 6).Valid()
    ensures ReasonAt(ProgressPolicy(1, 3, 3, 2, 6), history) != Some(RepeatedFailurePair)
  {
    RepeatedFailuresReportedIff(ProgressPolicy(1, 3, 3, 2, 6));
  }
}
