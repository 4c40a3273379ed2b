/** What a worker hands out: deliveries that match the record. */
module DurableDeliveries {
  import opened Basics
  import opened FlashTypes
  import opened DurableJob
  import opened DurableWorker
  import opened DurableSystem
  import opened DurableInvariant
  import opened DurableEffects
  import opened DurableRequests
  import opened DurableReplies
  import opened DurableRuns
  import opened DurableRefusals

  // The record grants exactly what `d` says.
  predicate Grants(j: JobState, d: Delivery<AttemptId, Token>) {
    && !j.Settled()
    && d.jobId == j.jobId && d.contractId == j.contract.contractId
    && d.attemptId == AttemptId(j.jobId, j.attemptNumber)
    && j.leaseId == Some(Sha256(d.leaseId)) && j.leaseExpiresAt == Some(d.leaseExpiresAt)
  }

  lemma ClaimDelivers(s: System, s': System, p: Pid, w: Proc, r: Readings, minted: Token, reply: Reply)
    requires w.op.ClaimWrite? && ClaimTurn(w, r, minted).Ask?
    requires Answered(s, s', p, w, r, minted, ClaimTurn(w, r, minted).request, reply)
    requires ClaimResume(w, r, minted, reply, |s.log|).op.Idle?
    requires ClaimResume(w, r, minted, reply, |s.log|).op.last.Delivered?
    ensures var d := ClaimResume(w, r, minted, reply, |s.log|).op.last.delivery;
            Known(s', d.jobId) && Grants(Current(s', d.jobId), d)
  {
    hide SharedOk, Effect, Grows, Knows, ClaimsOk;
    Installed(s, s', p, w, r, minted, reply);
    ClaimWriteUnsettled(s, p, w);
  }

  lemma ClaimWriteUnsettled(s: System, p: Pid, w: Proc)
    requires WorkerOk(s, p, w) && w.op.ClaimWrite?
    ensures !w.op.snap.state.Settled()
  {
  }

  lemma RenewDelivers(s: System, s': System, p: Pid, w: Proc, r: Readings, minted: Token, reply: Reply)
    requires w.op.RenewWrite? && w.Holds(w.op.token) && RenewTurn(w, r).Ask? && reply.Done?
    requires Answered(s, s', p, w, r, minted, RenewTurn(w, r).request, reply)
    ensures RenewResume(w, r, reply, |s.log|).op.Idle? && RenewResume(w, r, reply, |s.log|).op.last.Delivered?
    ensures var d := RenewResume(w, r, reply, |s.log|).op.last.delivery;
            Known(s', d.jobId) && Grants(Current(s', d.jobId), d)
  {
    hide SharedOk, Effect, Grows, ClaimsOk, Knows;
    var job := JobOf(w, w.op.token);
    ContextCarries(s, s', p, w, w.op.token);
    RenewalFacts(s, p, w);
    SnapshotIsVersion(s, p, w, job, w.op.snap, r.t0);
    CommitTells(s, s', p, w, RenewTurn(w, r).request, reply);
    LawfulOkAt(s', job);
    ContextGeneration(s', p, w.claims[w.op.token]);
  }

  lemma ContextGeneration(s: System, p: Pid, c: ClaimContext)
    requires ContextOk(s, p, c.token, c)
    ensures c.delivery.jobId == c.jobId && c.delivery.attemptId == AttemptId(c.jobId, c.generation)
    ensures c.delivery.contractId == H(s, c.jobId)[0].state.contract.contractId
  {
  }

  // Only a committed claim or renewal ends an I/O call with a delivery.
  lemma DeliveryComesFrom(w: Proc, r: Readings, minted: Token, reply: Reply, here: nat)
    requires Runnable(w) && NextTurn(w, r, minted).Ask?
    requires Resume(w, r, minted, reply, here).op.Idle? && Resume(w, r, minted, reply, here).op.last.Delivered?
    ensures (w.op.ClaimWrite? || w.op.RenewWrite?) && reply.Done?
  {
  }

  /** A delivery handed to a caller by a claim or renewal is exactly what the job record grants at that moment. */
  lemma DeliveriesAreCommitted(run: seq<System>, steps: seq<Step>, i: nat, d: Delivery<AttemptId, Token>)
    requires Run(run, steps) && i < |steps| && steps[i].Io?
    requires run[i + 1].procs[steps[i].worker].op == Idle(Delivered(d))
    ensures Known(run[i + 1], d.jobId) && Grants(Current(run[i + 1], d.jobId), d)
  {
    RunKeepsInv(run, steps, i);
    IoAnswered(run[i], steps[i]);
    var s, s', p := run[i], run[i + 1], steps[i].worker;
    DeliveryTurn(s, s', p, s.procs[p], steps[i].readings, steps[i].minted, steps[i].reply, d);
  }

  lemma DeliveryTurn(s: System, s': System, p: Pid, w: Proc, r: Readings, minted: Token, reply: Reply,
                     d: Delivery<AttemptId, Token>)
    requires Runnable(w) && NextTurn(w, r, minted).Ask?
    requires Answered(s, s', p, w, r, minted, NextTurn(w, r, minted).request, reply)
    requires Resume(w, r, minted, reply, |s.log|).op == Idle(Delivered(d))
    ensures Known(s', d.jobId) && Grants(Current(s', d.jobId), d)
  {
    hide SharedOk, Effect, Grows, Knows, ClaimsOk;
    DeliveryComesFrom(w, r, minted, reply, |s.log|);
    if w.op.ClaimWrite? {
      ClaimDelivers(s, s', p, w, r, minted, reply);
    } else {
      RenewDelivers(s, s', p, w, r, minted, reply);
    }
  }
}
