/** What claims, renewals, abandonments and recoveries answer over every run, and how long any call can take. */
module DurableAnswers {
  import opened Basics
  import opened FlashTypes
  import opened DurableWorker
  import opened DurableSystem
  import opened DurableInvariant
  import opened DurableRuns
  import opened DurableRetries
  import opened DurableTraces
  import opened DurableRecoveries
  import opened DurableEnqueues
  import opened DurableCompletions
  import opened DurableLookups
  import opened DurableHolds
  import opened DurableGrants
  import opened DurableCalls
  import opened DurableOutcomes

  // Worker `p` got `call` at step `j` and has ended it in run[k].
  ghost predicate Ended(run: seq<System>, steps: seq<Step>, j: nat, k: nat, p: Pid, call: Call) {
    && Run(run, steps) && j < k < |run| && Undisturbed(steps, j, k, p, call)
    && p in run[j].procs && p in run[k].procs && run[k].procs[p].op.Idle?
  }

  lemma EndedIsTold(run: seq<System>, steps: seq<Step>, j: nat, k: nat, p: Pid, call: Call)
    requires Ended(run, steps, j, k, p, call)
    ensures Story(call, Called(run, j, p), Made(run, j, k, p), run[k].procs[p])
    ensures Timely(Called(run, j, p), Made(run, j, k, p), run[k].procs[p])
    ensures AllNamed(Called(run, j, p)) && Called(run, j, p).options.Valid()
  {
    hide Run, Story, SharedOk, ClaimsOk, OpOk;
    CallIsTold(run, steps, j, k, p, call);
    RunKeepsInv(run, steps, j);
    assert WorkerOk(run[j], p, run[j].procs[p]);
  }

  // ----- claim -----

  /**
   How a claim ends, by the calls it made.  With a delivery: a page was recovered,
   messages of accepted jobs were drained, and then a message was received whose
   record was open at a clock reading and the grant of that reading committed;
   the delivery and the local claim say just that.  Without: there was no room
   for a claim, no message, or no open record, or the drain limit was reached.
   */
  lemma ClaimEndsBy(run: seq<System>, steps: seq<Step>, j: nat, k: nat, p: Pid)
    requires Ended(run, steps, j, k, p, Claim)
    ensures ClaimEnds(Called(run, j, p), Made(run, j, k, p), run[k].procs[p], run[k].procs[p].op.last)
  {
    hide Run, Undisturbed, ClaimEnds, ClaimProceeds, Story;
    EndedIsTold(run, steps, j, k, p, Claim);
    StoryOfEndedClaim(Called(run, j, p), Made(run, j, k, p), run[k].procs[p]);
  }

  lemma StoryOfEndedClaim(w0: Proc, own: seq<Entry>, w: Proc)
    requires Story(Claim, w0, own, w) && w.op.Idle?
    ensures ClaimEnds(w0, own, w, w.op.last)
  {
    hide ClaimEnds, ClaimProceeds;
  }

  // The last message received was by call `n`, and its record was open when read and still at the end.
  predicate TakesOpen(own: seq<Entry>, n: nat, lease: real, end: real) {
    && TakesLast(own, n, lease)
    && OpenAt(own[n + 1].reply.state, own[n + 1].when) && OpenAt(own[n + 1].reply.state, end)
  }

  predicate TakesLast(own: seq<Entry>, n: nat, lease: real) {
    Takes(own, n, lease) && forall i :: n < i < |own| ==> !own[i].request.ReceiveMessage?
  }

  predicate NoneRefused(own: seq<Entry>) {
    && NoneRaised(own)
    && forall i :: 0 <= i < |own| && (own[i].request.WriteJob? || own[i].request.DeleteMessage?) ==> own[i].reply.Done?
  }

  /**
   A claim delivers if the record of the last message it received was open, the
   writes and deletions were done and no call raised.
   */
  lemma OpenRecordIsDelivered(run: seq<System>, steps: seq<Step>, j: nat, k: nat, p: Pid, n: nat)
    requires Ended(run, steps, j, k, p, Claim) && NoneRefused(Made(run, j, k, p))
    requires TakesOpen(Made(run, j, k, p), n, run[j].procs[p].options.leaseSeconds as real, run[k].procs[p].since)
    ensures run[k].procs[p].op.last.Delivered?
    ensures run[k].procs[p].op.last.delivery.jobId == Made(run, j, k, p)[n].reply.message.job
  {
    hide Run, Undisturbed, ClaimEnds, TakesOpen, NoneRefused, Story;
    ClaimEndsBy(run, steps, j, k, p);
    EndedIsTold(run, steps, j, k, p, Claim);
    OpenEndsInDelivery(Called(run, j, p), Made(run, j, k, p), run[k].procs[p], n);
  }

  lemma NothingMeansNotOpen(own: seq<Entry>, n: nat, m: int, lease: real, end: real)
    requires NoneRefused(own) && TakesLast(own, n, lease) && NothingToClaim(own, m, lease, end)
    requires forall i :: 0 <= i < |own| ==> own[i].when <= end
    ensures !TakesOpen(own, n, lease, end)
  {
    assert n >= m;
    assert n == m;
  }

  lemma DrainedMeansNotOpen(own: seq<Entry>, n: nat, b: int, k: int, o: Options, end: real)
    requires TakesLast(own, n, o.leaseSeconds as real) && Drained(own, b, k, o) && |own| == b + 3 * k && k > 0
    ensures !TakesOpen(own, n, o.leaseSeconds as real, end)
  {
    hide RecoveredBy;
    assert DrainedAt(own, b, k - 1, o.leaseSeconds as real);
    assert n == b + 3 * (k - 1);
  }

  lemma DeliversTheLast(own: seq<Entry>, n: nat, m: int, lease: real, d: Delivery<AttemptId, Token>)
    requires TakesLast(own, n, lease) && Delivers(own, m, lease, d)
    ensures d.jobId == own[n].reply.message.job
  {
    assert n >= m;
    assert n == m;
  }

  lemma OpenEndsInDelivery(w0: Proc, own: seq<Entry>, w: Proc, n: nat)
    requires w.op.Idle? && ClaimEnds(w0, own, w, w.op.last) && NoneRefused(own) && w0.options.Valid()
    requires Timely(w0, own, w) && TakesOpen(own, n, w0.options.leaseSeconds as real, w.since)
    ensures w.op.last.Delivered? && w.op.last.delivery.jobId == own[n].reply.message.job
  {
    hide Kept, NothingToClaim, Drained, PutsGrant;
    var o := w0.options;
    var lease := o.leaseSeconds as real;
    if w.op.last.Nothing? {
      var b, k :| Drained(own, b, k, o) &&
                  ((k == o.acceptedTriggerDrainLimit && |own| == b + 3 * k) ||
                   (k < o.acceptedTriggerDrainLimit && NothingToClaim(own, b + 3 * k, lease, w.since)));
      if k < o.acceptedTriggerDrainLimit {
        NothingMeansNotOpen(own, n, b + 3 * k, lease, w.since);
      } else {
        DrainedMeansNotOpen(own, n, b, k, o, w.since);
      }
    } else if w.op.last.Delivered? {
      var d := w.op.last.delivery;
      var b, k, kept :| Kept(w0, kept, w.since) && Drained(own, b, k, o) && k < o.acceptedTriggerDrainLimit &&
                        Delivers(own, b + 3 * k, lease, d) &&
                        w.claims == kept[d.leaseId := ContextOf(own, b + 3 * k, d)];
      DeliversTheLast(own, n, b + 3 * k, lease, d);
    }
  }

  // ----- renew and abandon -----

  /**
   How a renewal ends, by the calls it made.  With a delivery: the record was read,
   the message hidden on, the record read again and its lease moved, all as the
   delivery says.  With a lease error: the claim was unknown, not held under a
   record just read, out of time, or lost to a conflict.  The receipt kept is the
   newest the queue gave out.
   */
  lemma RenewalEndsBy(run: seq<System>, steps: seq<Step>, j: nat, k: nat, p: Pid, token: Token)
    requires Ended(run, steps, j, k, p, Renew(token))
    ensures RenewalEnds(Called(run, j, p), token, Made(run, j, k, p), run[k].procs[p], run[k].procs[p].op.last)
  {
    hide Run, Undisturbed, RenewalEnds;
    EndedIsTold(run, steps, j, k, p, Renew(token));
  }

  /**
   How an abandonment ends, by the calls it made.  Normally: the lease was given
   up in the record, then the message made visible, and the claim dropped.  With a
   lease error: the claim was unknown, not held under the record just read, or
   lost to a conflict.
   */
  lemma AbandonmentEndsBy(run: seq<System>, steps: seq<Step>, j: nat, k: nat, p: Pid, token: Token)
    requires Ended(run, steps, j, k, p, Abandon(token))
    ensures AbandonmentEnds(Called(run, j, p), token, Made(run, j, k, p), run[k].procs[p], run[k].procs[p].op.last)
  {
    hide Run, Undisturbed, AbandonmentEnds;
    EndedIsTold(run, steps, j, k, p, Abandon(token));
  }

  // Under every record read, the claim was still held at the end, and no call raised or met a conflict.
  predicate HeldThroughout(own: seq<Entry>, c: ClaimContext, end: real) {
    && NoneRefused(own)
    && forall i :: 0 <= i < |own| && ReadsRecord(own[i], c.jobId) ==> HeldAt(c, own[i].reply.state, end)
  }

  /** A claim that is held throughout is abandoned when asked for. */
  lemma HeldClaimIsAbandoned(run: seq<System>, steps: seq<Step>, j: nat, k: nat, p: Pid, token: Token)
    requires Ended(run, steps, j, k, p, Abandon(token)) && token in run[j].procs[p].claims
    requires HeldThroughout(Made(run, j, k, p), run[j].procs[p].claims[token], run[k].procs[p].since)
    ensures run[k].procs[p].op.last == Nothing && token !in run[k].procs[p].claims
    ensures Abandons(Made(run, j, k, p), run[j].procs[p].claims[token])
  {
    hide Run, Undisturbed, Story;
    AbandonmentEndsBy(run, steps, j, k, p, token);
    EndedIsTold(run, steps, j, k, p, Abandon(token));
  }

  lemma HeldIsNotRefused(w0: Proc, token: Token, own: seq<Entry>, w: Proc)
    requires Timely(w0, own, w) && token in w0.claims && HeldThroughout(own, w0.claims[token], w.since)
    requires w.since < w0.claims[token].delivery.leaseExpiresAt
    requires own != [] ==> w.since < own[0].when + LeaseOf(w)
    ensures !RenewalRefused(w0, token, own, w) && !LastRaised(own)
  {
    var c := w0.claims[token];
    if own != [] {
      assert own[|own| - 1] == Last(own) && own[0].when <= w.since;
      assert ReadsRecord(own[0], c.jobId) ==> HeldAt(c, own[0].reply.state, w.since);
      assert ReadsRecord(own[|own| - 1], c.jobId) ==> HeldAt(c, Last(own).reply.state, w.since);
    }
  }

  /**
   A claim that is held throughout is renewed when asked for, if by the end the
   old delivery is not over and the lease has not run from the first reading on.
   */
  lemma HeldClaimIsRenewed(run: seq<System>, steps: seq<Step>, j: nat, k: nat, p: Pid, token: Token)
    requires Ended(run, steps, j, k, p, Renew(token)) && token in run[j].procs[p].claims
    requires HeldThroughout(Made(run, j, k, p), run[j].procs[p].claims[token], run[k].procs[p].since)
    requires run[k].procs[p].since < run[j].procs[p].claims[token].delivery.leaseExpiresAt
    requires var own := Made(run, j, k, p);
             own != [] ==> run[k].procs[p].since < own[0].when + run[j].procs[p].options.leaseSeconds as real
    ensures run[k].procs[p].op.last.Delivered?
    ensures Renews(Made(run, j, k, p), run[j].procs[p].claims[token],
                   run[j].procs[p].options.leaseSeconds as real, run[k].procs[p].op.last.delivery)
  {
    hide Run, Undisturbed, Renews, RenewalRefused, HeldThroughout, LastRaised;
    EndedIsTold(run, steps, j, k, p, Renew(token));
    HeldIsNotRefused(Called(run, j, p), token, Made(run, j, k, p), run[k].procs[p]);
  }

  // ----- recover_notifications -----

  /**
   A recovery that returns has listed a page, then attempted every job on it that
   was waiting, and saved the cursor only then; otherwise its last call raised.
   */
  lemma RecoveryEndsBy(run: seq<System>, steps: seq<Step>, j: nat, k: nat, p: Pid)
    requires Ended(run, steps, j, k, p, RecoverNotifications)
    ensures var own, w := Made(run, j, k, p), run[k].procs[p];
            && w.claims == run[j].procs[p].claims
            && if w.op.last == Nothing
               then |own| > 1 && RecoveredBy(own, 0, |own| - 1, w.options.recoveryScanLimit)
               else w.op.last == OtherError(RecoverNotifications) && LastRaised(own)
  {
    hide Run, Undisturbed, RecoveredBy, LastRaised, Recovering;
    EndedIsTold(run, steps, j, k, p, RecoverNotifications);
  }

  // ----- every call ends -----

  // How many calls to storage, queue, verifier and notifier an operation may take.
  function MaxCalls(call: Call, o: Options): nat {
    match call
    case Enqueue(_, _) => 3
    case Claim => 3 + 3 * o.recoveryScanLimit + 3 * o.acceptedTriggerDrainLimit
    case Renew(_) => 4
    case Abandon(_) => 3
    case Complete(_, _) => 10 + 3 * o.recoveryScanLimit
    case RecoverNotifications => 2 + 3 * o.recoveryScanLimit
  }

  lemma RecoveringIsShort(own: seq<Entry>, w: Proc, m: int)
    requires InRecovery(w.op) && Recovering(own, w, m)
    ensures |own| <= m + 1 + 3 * w.options.recoveryScanLimit
  {
  }

  lemma ClaimIsShort(w0: Proc, own: seq<Entry>, w: Proc)
    requires ClaimStory(w0, own, w) && !w.op.Idle?
    ensures |own| < MaxCalls(Claim, w0.options)
  {
    hide Recovering, Kept, AllDrained, PutsSpent;
    if InRecovery(w.op) {
      RecoveringIsShort(own, w, 0);
    }
  }

  lemma CompletionIsShort(w0: Proc, c: ClaimContext, result: ResultJson, own: seq<Entry>, w: Proc)
    requires CompletionStory(w0, c, result, own, w) && !w.op.Idle?
    ensures |own| < MaxCalls(Complete(c.token, result), w0.options)
  {
    hide Recovering, NoDelete;
    if InRecovery(w.op) {
      var n :| Dequeues(own, c, result, n) && Recovering(own, w, n + 1);
      RecoveringIsShort(own, w, n + 1);
    }
  }

  lemma OtherCallsAreShort(call: Call, w0: Proc, own: seq<Entry>, w: Proc)
    requires Story(call, w0, own, w) && !w.op.Idle?
    requires !call.Claim? && (call.Complete? ==> call.token !in w0.claims)
    ensures |own| < MaxCalls(call, w0.options)
  {
    hide Recovering;
    if InRecovery(w.op) {
      RecoveringIsShort(own, w, if call.Complete? then 2 else 0);
    }
  }

  lemma StoryIsShort(call: Call, w0: Proc, own: seq<Entry>, w: Proc)
    requires Story(call, w0, own, w) && !w.op.Idle?
    ensures |own| < MaxCalls(call, w0.options)
  {
    hide ClaimStory, CompletionStory, EnqueueStory, RenewalStory, AbandonmentStory, LookupStory, RecoveryStory;
    if call.Claim? {
      ClaimIsShort(w0, own, w);
    } else if call.Complete? && call.token in w0.claims {
      CompletionIsShort(w0, w0.claims[call.token], call.result, own, w);
    } else {
      OtherCallsAreShort(call, w0, own, w);
    }
  }

  /** No call goes on for ever: left undisturbed, it makes no more I/O calls than its kind and options allow. */
  lemma {:induction false} CallsAreBounded(run: seq<System>, steps: seq<Step>, j: nat, k: nat, p: Pid, call: Call)
    requires Run(run, steps) && Undisturbed(steps, j, k, p, call) && k < |run| && p in run[j].procs
    ensures |Made(run, j, k, p)| <= MaxCalls(call, run[j].procs[p].options)
  {
    hide Run, Undisturbed, Story, MaxCalls;
    UndisturbedBefore(steps, j, k, p, call);
    if k > j + 1 {
      CallsAreBounded(run, steps, j, k - 1, p, call);
      CallIsTold(run, steps, j, k - 1, p, call);
      if steps[k - 1].Io? && steps[k - 1].worker == p {
        OwnCallAdds(run, steps, j, k - 1, p);
        StoryIsShort(call, Called(run, j, p), Made(run, j, k - 1, p), run[k - 1].procs[p]);
      } else {
        OthersAddNone(run, steps, j, k - 1, p);
      }
    } else {
      OthersAddNone(run, steps, j, j, p);
      NoneMadeYet(run[j].log, p);
    }
  }

  lemma NoneMadeYet(log: seq<Entry>, p: Pid)
    ensures Own(log, |log|, p) == []
  {
  }

  lemma OwnCallAdds(run: seq<System>, steps: seq<Step>, j: nat, i: nat, p: Pid)
    requires Run(run, steps) && j <= i < |steps| && |run[j].log| <= |run[i].log|
    requires steps[i].Io? && steps[i].worker == p
    ensures p in run[i].procs && !run[i].procs[p].op.Idle?
    ensures |Made(run, j, i + 1, p)| == |Made(run, j, i, p)| + 1
  {
    hide NextTurn, Resume;
    assert Enabled(run[i], steps[i]) && run[i + 1] == Apply(run[i], steps[i]);
    OwnSnoc(run[i].log, |run[j].log|, p, Last(run[i + 1].log));
  }
}
