/** When a monitor answers, and what: told by the steps observed and their positions alone. */
module ProgressReasons {
  import opened Basics
  import opened Progress

  // ----- vocabulary -----

  predicate SameCall(a: AttemptStep, b: AttemptStep) {
    a.action + ":" + a.arguments == b.action + ":" + b.arguments
  }

  function FingerprintOf(step: AttemptStep): string {
    if step.resultFingerprint.None? || step.resultFingerprint.value == "" then "unknown"
    else step.resultFingerprint.value
  }

  // Two failures of one call with one result.
  predicate SameFailure(a: AttemptStep, b: AttemptStep) {
    && a.outcome == Failure && b.outcome == Failure
    && SameCall(a, b) && FingerprintOf(a) == FingerprintOf(b)
  }

  // The step changed something, recovered something or verified something.
  predicate Renews(step: AttemptStep) {
    || step.progress == StateChange || step.progress == Recovery
    || (step.progress == Verification && step.outcome == Success)
  }

  function FailuresSince(history: seq<AttemptStep>, i: nat): set<nat> {
    set p: nat | i <= p < |history| && history[p].outcome == Failure
  }

  // The failures like `step` among the last `window` failures.
  function FailuresLike(history: seq<AttemptStep>, step: AttemptStep, window: nat): set<nat> {
    set i: nat | i < |history| && SameFailure(history[i], step) && |FailuresSince(history, i)| <= window
  }

  // The calls like `step` among the last `span` steps.
  function CallsLike(history: seq<AttemptStep>, step: AttemptStep, span: nat): set<nat> {
    set i: nat | |history| - span <= i < |history| && SameCall(history[i], step)
  }

  predicate AllLike(history: seq<AttemptStep>, step: AttemptStep, span: nat) {
    |history| >= span && forall i :: |history| - span <= i < |history| ==> SameCall(history[i], step)
  }

  predicate NoneRenews(history: seq<AttemptStep>, span: nat) {
    |history| >= span && forall i :: |history| - span <= i < |history| ==> !Renews(history[i])
  }

  // ----- the four grounds -----

  /** The last step fails as repeatedFailureLimit of the last recentWindow failures do. */
  predicate FailsRepeatedly(policy: ProgressPolicy, history: seq<AttemptStep>)
    requires history != []
  {
    && Last(history).outcome == Failure
    && |FailuresLike(history, Last(history), policy.recentWindow)| >= policy.repeatedFailureLimit
  }

  /** The last consecutiveLimit steps all make the last call. */
  predicate Stutters(policy: ProgressPolicy, history: seq<AttemptStep>)
    requires history != []
  {
    AllLike(history, Last(history), policy.consecutiveLimit)
  }

  /** The last step is no verification and makes a call made by repeatedCallLimit of the last recentWindow + 1 steps. */
  predicate Repeats(policy: ProgressPolicy, history: seq<AttemptStep>)
    requires history != []
  {
    && Last(history).progress != Verification
    && |CallsLike(history, Last(history), policy.recentWindow + 1)| >= policy.repeatedCallLimit
  }

  /** The last maxNoProgressSteps steps hold none that renews the budget. */
  predicate Idles(policy: ProgressPolicy, history: seq<AttemptStep>) {
    NoneRenews(history, policy.maxNoProgressSteps)
  }

  // The first ground that applies.
  function FirstGround(policy: ProgressPolicy, history: seq<AttemptStep>): Option<Reason>
    requires history != []
  {
    if FailsRepeatedly(policy, history) then Some(RepeatedFailurePair)
    else if Stutters(policy, history) then Some(ConsecutiveRepeatedAction)
    else if Repeats(policy, history) then Some(RepeatedAction)
    else if Idles(policy, history) then Some(NoProgressBudgetExhausted)
    else None
  }

  // ----- counting -----

  lemma SinceSnoc(front: seq<AttemptStep>, last: AttemptStep, i: nat)
    requires i <= |front|
    ensures |FailuresSince(front + [last], i)| == |FailuresSince(front, i)| + if last.outcome == Failure then 1 else 0
  {
    var at: nat := |front|;
    var more: set<nat> := if last.outcome == Failure then {at} else {};
    assert FailuresSince(front + [last], i) == FailuresSince(front, i) + more;
  }

  lemma LikeSnoc(front: seq<AttemptStep>, last: AttemptStep, step: AttemptStep, window: nat)
    ensures last.outcome != Failure ==>
              FailuresLike(front + [last], step, window) == FailuresLike(front, step, window)
    ensures last.outcome == Failure && window == 0 ==> FailuresLike(front + [last], step, window) == {}
    ensures last.outcome == Failure && window > 0 ==>
              |FailuresLike(front + [last], step, window)| ==
              |FailuresLike(front, step, window - 1)| + if SameFailure(last, step) then 1 else 0
  {
    var history := front + [last];
    forall i: nat | i <= |front|
      ensures |FailuresSince(history, i)| == |FailuresSince(front, i)| + if last.outcome == Failure then 1 else 0
    {
      SinceSnoc(front, last, i);
    }
    var at: nat := |front|;
    assert FailuresSince(front, at) == {};
    if last.outcome == Failure && window > 0 {
      var more: set<nat> := if SameFailure(last, step) then {at} else {};
      assert FailuresLike(history, step, window) == FailuresLike(front, step, window - 1) + more;
    }
  }

  lemma CountSnoc<T>(s: seq<T>, last: T, x: T)
    ensures Count(s + [last], x) == Count(s, x) + if last == x then 1 else 0
  {
    assert (s + [last])[..|s|] == s;
  }

  lemma SuffixOfSnoc<T>(s: seq<T>, last: T, n: nat)
    ensures Suffix(s + [last], n) == if n == 0 then [] else Suffix(s, n - 1) + [last]
  {
  }

  lemma PairsAgree(a: AttemptStep, b: AttemptStep)
    requires a.outcome == Failure && b.outcome == Failure
    ensures FailurePairSignature(a) == FailurePairSignature(b) <==> SameFailure(a, b)
  {
  }

  lemma CountOfLonger(pairs: seq<FailurePair>, last: FailurePair, x: FailurePair, window: nat)
    ensures Count(Suffix(pairs + [last], window), x) ==
            if window == 0 then 0 else Count(Suffix(pairs, window - 1), x) + if last == x then 1 else 0
  {
    SuffixOfSnoc(pairs, last, window);
    if window > 0 {
      CountSnoc(Suffix(pairs, window - 1), last, x);
    }
  }

  lemma PairsOfLonger(front: seq<AttemptStep>, last: AttemptStep)
    ensures FailurePairs(front + [last]) ==
            if last.outcome == Failure then FailurePairs(front) + [FailurePairSignature(last).value]
            else FailurePairs(front)
  {
    assert (front + [last])[..|front|] == front;
  }

  /** The count of a failure among those remembered is the number of positions like it, of all they stand for. */
  lemma {:induction false} FailureCountByPositions(history: seq<AttemptStep>, step: AttemptStep, window: nat)
    requires step.outcome == Failure
    ensures Count(Suffix(FailurePairs(history), window), FailurePairSignature(step).value) ==
            |FailuresLike(history, step, window)|
  {
    if history == [] {
      assert FailuresLike(history, step, window) == {};
    } else {
      hide Count, Suffix, FailurePairs, FailuresLike, FailurePairSignature, SameFailure;
      var front, last, x := history[..|history| - 1], Last(history), FailurePairSignature(step).value;
      assert history == front + [last];
      LikeSnoc(front, last, step, window);
      PairsOfLonger(front, last);
      FailureHasPair(step);
      if last.outcome == Failure {
        FailureHasPair(last);
        PairsAgree(last, step);
        CountOfLonger(FailurePairs(front), FailurePairSignature(last).value, x, window);
        if window > 0 {
          FailureCountByPositions(front, step, window - 1);
        } else {
          assert |FailuresLike(history, step, window)| == 0;
        }
      } else {
        FailureCountByPositions(front, step, window);
      }
    }
  }

  lemma FailureHasPair(step: AttemptStep)
    ensures FailurePairSignature(step).Some? <==> step.outcome == Failure
  {
  }

  lemma CallsAreCounted(policy: ProgressPolicy, history: seq<AttemptStep>)
    requires history != []
    ensures RecentCount(policy, history) == |CallsLike(history, Last(history), policy.recentWindow + 1)|
  {
    RecentCountByPositions(policy, history);
    var from := if |history| <= policy.recentWindow + 1 then 0 else |history| - 1 - policy.recentWindow;
    assert Positions(Signatures(history), from, StableSignature(Last(history)))
        == CallsLike(history, Last(history), policy.recentWindow + 1);
  }

  // ----- the grounds are those of the counters -----

  lemma StuttersByRun(policy: ProgressPolicy, history: seq<AttemptStep>)
    requires history != []
    ensures Stutters(policy, history) <==> TrailingRun(history) >= policy.consecutiveLimit
  {
    TrailingRunIsLongest(history);
    var n, run := |history|, TrailingRun(history);
    assert forall a: AttemptStep, b: AttemptStep :: SameAction(a, b) <==> SameCall(a, b);
    if run < policy.consecutiveLimit <= n {
      assert !SameCall(history[n - run - 1], Last(history));
    }
  }

  lemma IdlesByBudget(policy: ProgressPolicy, history: seq<AttemptStep>)
    ensures Idles(policy, history) <==> SinceReset(history) >= policy.maxNoProgressSteps
  {
    SinceResetCounts(history);
    var n, k := |history|, SinceReset(history);
    if k < policy.maxNoProgressSteps <= n {
      assert Renews(history[n - k - 1]);
    }
  }

  // What an intervention says of the history it answers.
  ghost predicate Describes(policy: ProgressPolicy, history: seq<AttemptStep>, told: Intervention)
    requires history != []
  {
    var n, last := |history|, Last(history);
    && told.signature == Sha256(last.action + ":" + last.arguments)
    && told.recentCount == |CallsLike(history, last, policy.recentWindow + 1)|
    && AllLike(history, last, told.consecutiveCount) && !AllLike(history, last, told.consecutiveCount + 1)
    && NoneRenews(history, told.noProgressSteps) && !NoneRenews(history, told.noProgressSteps + 1)
    && (told.terminateAttempt <==> Idles(policy, history))
  }

  /**
   The monitor keeps quiet exactly if none of the four grounds applies, and
   otherwise names the first that does; what it reports are the numbers of the
   steps that show it.
   */
  lemma AnswersByPositions(policy: ProgressPolicy, history: seq<AttemptStep>)
    requires policy.Valid() && history != []
    ensures var answer := InterventionAt(policy, history);
            && (answer.None? <==>
                  && !FailsRepeatedly(policy, history) && !Stutters(policy, history)
                  && !Repeats(policy, history) && !Idles(policy, history))
            && (answer.Some? ==>
                  FirstGround(policy, history) == Some(answer.value.reason) &&
                  Describes(policy, history, answer.value))
  {
    hide Count, Suffix, FailurePairs, RecentCount, TrailingRun, SinceReset, FailuresLike, CallsLike;
    if Last(history).outcome == Failure {
      FailureCountByPositions(history, Last(history), policy.recentWindow);
    }
    StuttersByRun(policy, history);
    CallsAreCounted(policy, history);
    IdlesByBudget(policy, history);
    CountersAreExact(history);
  }

  lemma CountersAreExact(history: seq<AttemptStep>)
    requires history != []
    ensures AllLike(history, Last(history), TrailingRun(history))
    ensures !AllLike(history, Last(history), TrailingRun(history) + 1)
    ensures NoneRenews(history, SinceReset(history)) && !NoneRenews(history, SinceReset(history) + 1)
  {
    TrailingRunIsLongest(history);
    SinceResetCounts(history);
    var n, run, k := |history|, TrailingRun(history), SinceReset(history);
    assert forall a: AttemptStep, b: AttemptStep :: SameAction(a, b) <==> SameCall(a, b);
    if run < n {
      assert !SameCall(history[n - run - 1], Last(history));
    }
    if k < n {
      assert Renews(history[n - k - 1]);
    }
  }
}
