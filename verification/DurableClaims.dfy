/** The claim map a worker keeps stays within its bound. */
module DurableClaims {
  import opened FlashTypes
  import opened DurableWorker
  import opened DurableSystem

  // The operation in progress may still add a claim.
  predicate Claiming(op: Op) {
    || op.ClaimReceive? || op.ClaimRead? || op.ClaimWrite? || op.ClaimDiscard?
    || ((op.RecoverPage? || op.RecoverRead? || op.RecoverNotify? || op.RecoverMark?) && op.after.ThenReceive?)
  }

  predicate Capped(w: Proc) {
    |w.claims| <= w.options.maxLocalClaims && (Claiming(w.op) ==> |w.claims| < w.options.maxLocalClaims)
  }

  lemma {:induction false} SubsetSize<T>(a: set<T>, b: set<T>)
    requires a <= b
    ensures |a| <= |b|
  {
    if a != {} {
      var x :| x in a;
      SubsetSize(a - {x}, b - {x});
    }
  }

  lemma KeysBoundSize(a: map<Token, ClaimContext>, b: map<Token, ClaimContext>, token: Token)
    ensures a.Keys <= b.Keys ==> |a| <= |b|
    ensures a.Keys <= b.Keys + {token} ==> |a| <= |b| + 1
  {
    assert |a| == |a.Keys| && |b| == |b.Keys|;
    if a.Keys <= b.Keys { SubsetSize(a.Keys, b.Keys); }
    if a.Keys <= b.Keys + {token} { SubsetSize(a.Keys, b.Keys + {token}); }
  }

  // Nothing is added to the claims, and no claim begins.
  predicate AddsNone(w: Proc, w': Proc) {
    w'.options == w.options && w'.claims.Keys <= w.claims.Keys && (Claiming(w'.op) ==> Claiming(w.op))
  }

  // One claim is added, at the end of an operation that may.
  predicate AddsOne(w: Proc, w': Proc, token: Token) {
    w'.options == w.options && w'.claims.Keys <= w.claims.Keys + {token} && Claiming(w.op) && !Claiming(w'.op)
  }

  lemma AddingKeepsCapped(w: Proc, w': Proc, token: Token)
    requires Capped(w) && (AddsNone(w, w') || AddsOne(w, w', token))
    ensures Capped(w')
  {
    KeysBoundSize(w'.claims, w.claims, token);
  }

  lemma ClaimReplyAdds(w: Proc, r: Readings, minted: Token, reply: Reply, here: nat)
    requires w.op.ClaimReceive? || w.op.ClaimRead? || w.op.ClaimWrite? || w.op.ClaimDiscard?
    ensures var w' := ClaimResume(w, r, minted, reply, here); AddsNone(w, w') || AddsOne(w, w', minted)
  {
  }

  lemma RenewReplyAdds(w: Proc, r: Readings, reply: Reply, here: nat)
    requires (w.op.RenewRead? || w.op.RenewExtend? || w.op.RenewReread? || w.op.RenewWrite?) && w.Holds(w.op.token)
    ensures AddsNone(w, RenewResume(w, r, reply, here))
  {
  }

  lemma AbandonReplyAdds(w: Proc, reply: Reply, here: nat)
    requires (w.op.AbandonRead? || w.op.AbandonWrite? || w.op.AbandonRelease?) && w.Holds(w.op.token)
    ensures AddsNone(w, AbandonResume(w, reply, here))
  {
  }

  lemma CompleteReplyAdds(w: Proc, r: Readings, reply: Reply, here: nat)
    requires Completing(w.op) && w.Holds(w.op.token)
    ensures AddsNone(w, CompleteResume(w, r, reply, here))
  {
  }

  lemma OtherReplyAdds(w: Proc, reply: Reply, here: nat)
    ensures w.op.EnqueueCreate? || w.op.EnqueueCheck? || w.op.EnqueueSend? ==> AddsNone(w, EnqueueResume(w, reply))
    ensures w.op.CompleteLookup? || w.op.CompleteConfirm? ==> AddsNone(w, LookupResume(w, reply))
    ensures w.op.RecoverPage? || w.op.RecoverRead? || w.op.RecoverNotify? || w.op.RecoverMark? ==>
              AddsNone(w, RecoverResume(w, reply, here))
  {
  }

  lemma ReplyCapped(w: Proc, r: Readings, minted: Token, reply: Reply, here: nat)
    requires Capped(w) && Runnable(w) && NextTurn(w, r, minted).Ask?
    ensures Capped(Resume(w, r, minted, reply, here))
  {
    hide Capped, AddsNone, AddsOne;
    hide ClaimResume, RenewResume, AbandonResume, CompleteResume, EnqueueResume, LookupResume, RecoverResume;
    if w.op.ClaimReceive? || w.op.ClaimRead? || w.op.ClaimWrite? || w.op.ClaimDiscard? {
      ClaimReplyAdds(w, r, minted, reply, here);
    } else if w.op.RenewRead? || w.op.RenewExtend? || w.op.RenewReread? || w.op.RenewWrite? {
      RenewReplyAdds(w, r, reply, here);
    } else if w.op.AbandonRead? || w.op.AbandonWrite? || w.op.AbandonRelease? {
      AbandonReplyAdds(w, reply, here);
    } else if Completing(w.op) {
      CompleteReplyAdds(w, r, reply, here);
    } else {
      OtherReplyAdds(w, reply, here);
    }
    AddingKeepsCapped(w, Resume(w, r, minted, reply, here), minted);
  }

  // Entering a claim checks for room after pruning; every other local step ends an operation.
  lemma MoveCapped(w: Proc, r: Readings, minted: Token)
    requires Capped(w) && Runnable(w) && NextTurn(w, r, minted).Move?
    ensures Capped(NextTurn(w, r, minted).proc)
  {
    if w.op.ClaimBegin? {
      KeysBoundSize(Prune(w.claims, r.t0), w.claims, minted);
    } else {
      var w' := NextTurn(w, r, minted).proc;
      assert w'.claims == w.claims && w'.options == w.options && w'.op.Idle?;
    }
  }

  lemma StepCapped(s: System, step: Step, p: Pid)
    requires Enabled(s, step) && p in s.procs && Capped(s.procs[p])
    ensures p in Apply(s, step).procs && Capped(Apply(s, step).procs[p])
  {
    hide NextTurn, Resume;
    var w := s.procs[p];
    if !step.Tick? && step.worker == p {
      match step {
        case Crash(_) =>
        case Invoke(_, call) =>
        case Local(_, r, minted) => MoveCapped(w, r, minted);
        case Io(_, r, minted, reply, _) => ReplyCapped(w, r, minted, reply, |s.log|);
      }
    }
  }

  /** A worker never holds more local claims than its options allow. */
  lemma {:induction false} LocalClaimsAreBounded(run: seq<System>, steps: seq<Step>, i: nat, p: Pid)
    requires Run(run, steps) && i < |run| && p in run[0].procs
    ensures p in run[i].procs && Capped(run[i].procs[p])
    ensures |run[i].procs[p].claims| <= run[i].procs[p].options.maxLocalClaims
  {
    if i > 0 {
      LocalClaimsAreBounded(run, steps, i - 1, p);
      StepCapped(run[i - 1], steps[i - 1], p);
      assert run[i - 1 + 1] == Apply(run[i - 1], steps[i - 1]);
    }
  }
}
