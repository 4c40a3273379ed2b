/**
 Retrying a completion.  A second, thin invariant: while a worker is between
 reading an unaccepted record and its own acceptance write, nobody has accepted
 the job under the worker's token.  It follows that a completion is never
 refused while the job stands accepted under that very token and result.
 */
module DurableRefusals {
  import opened Basics
  import opened FlashTypes
  import opened DurableJob
  import opened DurableWorker
  import opened DurableSystem
  import opened DurableInvariant
  import opened DurableGrowth
  import opened DurableEffects
  import opened DurableRequests
  import opened DurableReplies
  import opened DurableRuns

  predicate AcceptedUnder(s: System, token: Token) {
    Minted(s, token) && Current(s, s.grants[token].job).acceptedClaimHash == Some(Sha256(token))
  }

  predicate MidCompletion(op: Op) {
    op.CompleteVerify? || op.CompleteReread? || op.CompleteIndex? || op.CompleteIndexCheck? || op.CompleteFinalRead? ||
    op.CompleteAccept?
  }

  predicate Undecided(s: System, w: Proc) {
    MidCompletion(w.op) ==> !AcceptedUnder(s, w.op.token)
  }

  ghost predicate AllUndecided(s: System) {
    forall p :: p in s.procs ==> Undecided(s, s.procs[p])
  }

  // Only the worker a token was minted for can bring about acceptance under it.
  lemma OnlyTheHolderAccepts(s: System, s': System, q: Pid, w: Proc, req: Request, reply: Reply, token: Token)
    requires SharedOk(s) && RequestOk(s, q, w, req) && Effect(s, s', q, w, req, reply) && Grows(s, s') && BlobsOk(s')
    requires Minted(s, token) && !AcceptedUnder(s, token) && AcceptedUnder(s', token)
    ensures req.WriteJob? && req.update.Accepted? && req.update.token == token && s.grants[token].worker == q
  {
    hide SharedOk;
    var job := s.grants[token].job;
    BlobCases(s, s', q, w, req, reply);
    assert s'.grants[token] == s.grants[token];
    if NewVersion(s, s', job, Commit(req.next, req.update, s.now)) && req.WriteJob? && req.next.jobId == job {
      HashComesFromAcceptance(H(s, job)[req.version - 1], Commit(req.next, req.update, s.now));
    }
  }

  lemma HashComesFromAcceptance(prev: Commit, c: Commit)
    requires Legal(prev, c)
    ensures c.state.acceptedClaimHash == prev.state.acceptedClaimHash ||
            (c.update.Accepted? && c.state.acceptedClaimHash == Some(Sha256(c.update.token)))
  {
  }

  // ----- a worker's own turn -----

  // Without a commit by the worker itself, what was not accepted under its token still is not.
  lemma StillUndecided(s: System, s': System, p: Pid, w: Proc, req: Request, reply: Reply, token: Token)
    requires SharedOk(s) && RequestOk(s, p, w, req) && Effect(s, s', p, w, req, reply) && Grows(s, s') && BlobsOk(s')
    requires Minted(s, token) && !AcceptedUnder(s, token) && !req.WriteJob?
    ensures !AcceptedUnder(s', token)
  {
    if AcceptedUnder(s', token) {
      OnlyTheHolderAccepts(s, s', p, w, req, reply, token);
    }
  }

  lemma HolderIsMinted(s: System, p: Pid, w: Proc, token: Token)
    requires SharedOk(s) && WorkerOk(s, p, w) && w.Holds(token)
    ensures Minted(s, token) && s.grants[token] == Grant(p, JobOf(w, token), w.claims[token].generation)
  {
    ContextFor(s, p, w, token);
  }

  // A record read without any acceptance on it is not accepted under any token.
  lemma ReadUndecided(s: System, s': System, p: Pid, w: Proc, req: Request, reply: Reply, token: Token)
    requires Effect(s, s', p, w, req, reply) && SharedOk(s') && req.ReadJob? && reply.Loaded?
    requires Minted(s', token) && req.job == s'.grants[token].job && reply.state.acceptedResult.None?
    ensures !AcceptedUnder(s', token)
  {
    ReadTells(s, s', p, w, req, reply);
  }

  // Operations other than a completion neither enter the undecided stretch nor refuse a completion.
  lemma OtherTurns(w: Proc, r: Readings, minted: Token, reply: Reply, here: nat, token: Token, result: ResultJson)
    requires Runnable(w) && NextTurn(w, r, minted).Ask?
    requires !Completing(w.op) && !w.op.CompleteLookup? && !w.op.CompleteConfirm?
    ensures !MidCompletion(Resume(w, r, minted, reply, here).op)
    ensures !RefusesCompletion(Resume(w, r, minted, reply, here).op, token, result)
  {
    if w.op.EnqueueCreate? || w.op.EnqueueCheck? || w.op.EnqueueSend? {
      EnqueueTurns(w, reply, token, result);
    } else if w.op.ClaimReceive? || w.op.ClaimRead? || w.op.ClaimWrite? || w.op.ClaimDiscard? {
      ClaimTurns(w, r, minted, reply, here, token, result);
    } else if w.op.RecoverPage? || w.op.RecoverRead? || w.op.RecoverNotify? || w.op.RecoverMark? {
      RecoverTurns(w, reply, here, token, result);
    }
  }

  lemma EnqueueTurns(w: Proc, reply: Reply, token: Token, result: ResultJson)
    requires w.op.EnqueueCreate? || w.op.EnqueueCheck? || w.op.EnqueueSend?
    ensures !MidCompletion(EnqueueResume(w, reply).op) && !RefusesCompletion(EnqueueResume(w, reply).op, token, result)
  {
  }

  lemma ClaimTurns(w: Proc, r: Readings, minted: Token, reply: Reply, here: nat, token: Token, result: ResultJson)
    requires w.op.ClaimReceive? || w.op.ClaimRead? || w.op.ClaimWrite? || w.op.ClaimDiscard?
    ensures !MidCompletion(ClaimResume(w, r, minted, reply, here).op)
    ensures !RefusesCompletion(ClaimResume(w, r, minted, reply, here).op, token, result)
  {
  }

  lemma RecoverTurns(w: Proc, reply: Reply, here: nat, token: Token, result: ResultJson)
    requires w.op.RecoverPage? || w.op.RecoverRead? || w.op.RecoverNotify? || w.op.RecoverMark?
    ensures !MidCompletion(RecoverResume(w, reply, here).op)
    ensures !RefusesCompletion(RecoverResume(w, reply, here).op, token, result)
  {
  }

  lemma LookupTurns(w: Proc, r: Readings, minted: Token, reply: Reply, here: nat)
    requires Runnable(w) && NextTurn(w, r, minted).Ask? && (w.op.CompleteLookup? || w.op.CompleteConfirm?)
    ensures !MidCompletion(Resume(w, r, minted, reply, here).op)
  {
  }

  lemma CompleteTurns(w: Proc, r: Readings, reply: Reply, here: nat)
    requires Completing(w.op) && w.Holds(w.op.token) && CompleteTurn(w, r).Ask?
    requires MidCompletion(CompleteResume(w, r, reply, here).op)
    ensures CompleteResume(w, r, reply, here).op.token == w.op.token && !CompleteTurn(w, r).request.WriteJob?
    ensures MidCompletion(w.op) ||
            (w.op.CompleteRead? && reply.Loaded? && reply.state.acceptedResult.None? &&
             CompleteTurn(w, r).request == ReadJob(JobOf(w, w.op.token)))
  {
  }

  // Where an undecided completion came from.
  lemma MidComesFrom(w: Proc, r: Readings, minted: Token, reply: Reply, here: nat)
    requires Runnable(w) && NextTurn(w, r, minted).Ask? && MidCompletion(Resume(w, r, minted, reply, here).op)
    ensures var w' := Resume(w, r, minted, reply, here);
            && Completing(w.op) && w'.op.token == w.op.token && !NextTurn(w, r, minted).request.WriteJob?
            && (MidCompletion(w.op) ||
                (w.op.CompleteRead? && reply.Loaded? && reply.state.acceptedResult.None? &&
                 NextTurn(w, r, minted).request == ReadJob(JobOf(w, w.op.token))))
  {
    if !Completing(w.op) {
      if w.op.CompleteLookup? || w.op.CompleteConfirm? {
        LookupTurns(w, r, minted, reply, here);
      } else {
        OtherTurns(w, r, minted, reply, here, 0, "");
      }
    } else {
      CompleteTurns(w, r, reply, here);
    }
  }

  lemma OwnTurnUndecided(s: System, step: Step)
    requires Inv(s) && AllUndecided(s) && Enabled(s, step) && step.Io?
    ensures Undecided(Apply(s, step), Apply(s, step).procs[step.worker])
  {
    hide SharedOk;
    var p, r, minted := step.worker, step.readings, step.minted;
    var s', w := Apply(s, step), s.procs[p];
    assert WorkerOk(s, p, w) && Undecided(s, w);
    var req := NextTurn(w, r, minted).request;
    IoKeepsInv(s, step);
    RequestIsJustified(s, p, w, r, minted);
    IoIsEffect(s, step);
    if MidCompletion(s'.procs[p].op) {
      MidComesFrom(w, r, minted, step.reply, |s.log|);
      HolderIsMinted(s, p, w, w.op.token);
      if MidCompletion(w.op) {
        BlobsAreOk(s');
        StillUndecided(s, s', p, w, req, step.reply, w.op.token);
      } else {
        ContextCarries(s, s', p, w, w.op.token);
        ReadUndecided(s, s', p, w, req, step.reply, w.op.token);
      }
    }
  }

  lemma BlobsAreOk(s: System)
    requires SharedOk(s)
    ensures BlobsOk(s)
  {
  }

  // A worker that stands still stays undecided, whatever another is answered.
  lemma OtherStaysUndecided(s: System, s': System, p: Pid, w: Proc, req: Request, reply: Reply, q: Pid, v: Proc)
    requires SharedOk(s) && RequestOk(s, p, w, req) && Effect(s, s', p, w, req, reply) && Grows(s, s') && BlobsOk(s')
    requires WorkerOk(s, q, v) && q != p && Undecided(s, v)
    ensures Undecided(s', v)
  {
    hide SharedOk, Effect, Grows, RequestOk, BlobsOk, ClaimsOk, Knows, Facts;
    if MidCompletion(v.op) {
      HolderIsMinted(s, q, v, v.op.token);
      if AcceptedUnder(s', v.op.token) {
        OnlyTheHolderAccepts(s, s', p, w, req, reply, v.op.token);
      }
    }
  }

  lemma OthersUndecided(s: System, step: Step, q: Pid)
    requires Inv(s) && AllUndecided(s) && Enabled(s, step) && step.Io? && q in s.procs && q != step.worker
    ensures Undecided(Apply(s, step), Apply(s, step).procs[q])
  {
    hide SharedOk, WorkerOk, RequestOk, Effect, Grows, BlobsOk, NextTurn, Resume;
    var p, r, minted := step.worker, step.readings, step.minted;
    var s', w := Apply(s, step), s.procs[p];
    assert WorkerOk(s, p, w) && WorkerOk(s, q, s.procs[q]) && Undecided(s, s.procs[q]);
    IoKeepsInv(s, step);
    RequestIsJustified(s, p, w, r, minted);
    IoIsEffect(s, step);
    BlobsAreOk(s');
    OtherStaysUndecided(s, s', p, w, NextTurn(w, r, minted).request, step.reply, q, s.procs[q]);
  }

  lemma MoveLeavesCompletion(w: Proc, r: Readings, minted: Token)
    requires Runnable(w) && NextTurn(w, r, minted).Move?
    ensures !MidCompletion(NextTurn(w, r, minted).proc.op)
  {
  }

  lemma IoKeepsUndecided(s: System, step: Step)
    requires Inv(s) && AllUndecided(s) && Enabled(s, step) && step.Io?
    ensures AllUndecided(Apply(s, step))
  {
    hide Inv, Undecided, NextTurn, Resume;
    forall q | q in Apply(s, step).procs ensures Undecided(Apply(s, step), Apply(s, step).procs[q]) {
      if q == step.worker {
        OwnTurnUndecided(s, step);
      } else {
        OthersUndecided(s, step, q);
      }
    }
  }

  // Without I/O nothing is accepted, and a worker that moves leaves its completion.
  lemma QuietKeepsUndecided(s: System, step: Step)
    requires AllUndecided(s) && Enabled(s, step) && !step.Io?
    ensures AllUndecided(Apply(s, step))
  {
    hide NextTurn;
    var s' := Apply(s, step);
    assert s'.store == s.store && s'.grants == s.grants;
    forall q | q in s'.procs ensures Undecided(s', s'.procs[q]) {
      assert Undecided(s, s.procs[q]);
      if step.Local? && q == step.worker {
        MoveLeavesCompletion(s.procs[q], step.readings, step.minted);
      }
    }
  }

  lemma StepKeepsUndecided(s: System, step: Step)
    requires Inv(s) && AllUndecided(s) && Enabled(s, step)
    ensures AllUndecided(Apply(s, step))
  {
    hide Inv, AllUndecided, Enabled, Apply;
    if step.Io? {
      IoKeepsUndecided(s, step);
    } else {
      QuietKeepsUndecided(s, step);
    }
  }

  lemma {:induction false} RunKeepsUndecided(run: seq<System>, steps: seq<Step>, i: nat)
    requires Run(run, steps) && i < |run|
    ensures AllUndecided(run[i])
  {
    if i > 0 {
      RunKeepsUndecided(run, steps, i - 1);
      RunKeepsInv(run, steps, i - 1);
      StepKeepsUndecided(run[i - 1], steps[i - 1]);
      assert run[i - 1 + 1] == Apply(run[i - 1], steps[i - 1]);
    }
  }

  // ----- what an accepted job looks like to a retry -----

  lemma {:induction false} AcceptanceHasCommit(job: JobId, h: History, n: nat) returns (i: nat)
    requires Lawful(job, h) && n < |h| && h[n].state.acceptedResult.Some?
    ensures 0 < i <= n && h[i].update.Accepted? && h[i - 1].state.generation == h[n].state.generation
    ensures h[n].state.AcceptedAs(h[i].update.token, h[i].update.result)
    ensures h[n].state.leaseId == Some(Sha256(h[i].update.token))
    decreases n
  {
    LawfulIsSound(job, h, n);
    assert n > 0;
    assert Legal(h[n - 1], h[n]);
    if h[n].update.Accepted? {
      i := n;
    } else {
      i := AcceptanceHasCommit(job, h, n - 1);
    }
  }

  /**
   An accepted claim has its write-once index entry, and the accepted fields of
   the record agree with it and with the claim the token was minted for.
   */
  lemma AcceptedClaimIsIndexed(s: System, token: Token, result: ResultJson)
    requires Inv(s) && IsAccepted(s, token, result)
    ensures Sha256(token) in s.store.index && s.store.index[Sha256(token)] == TheEntry(s, token)
    ensures var j := Current(s, s.grants[token].job);
            && j.acceptedGeneration == Some(s.grants[token].generation)
            && j.acceptedAttemptId == Some(AttemptId(s.grants[token].job, s.grants[token].generation))
  {
    var job := s.grants[token].job;
    var h := H(s, job);
    LawfulOk(s, job, |h| - 1);
    var i := AcceptanceHasCommit(job, h, |h| - 1);
    LawfulOk(s, job, i - 1);
    assert AcceptanceOk(s, job, i);
    assert LeaseOwned(s, job, |h| - 1);
  }

  // ----- refusals -----

  predicate RefusesCompletion(op: Op, token: Token, result: ResultJson) {
    op == Idle(LeaseError(Complete(token, result))) || op == Idle(VerificationError(Complete(token, result)))
  }

  // The accepting write of a completion.
  predicate AcceptsFor(req: Request, token: Token, result: ResultJson) {
    req.WriteJob? && req.update.Accepted? && req.update.token == token && req.update.result == result
  }

  // A refusal that meets the worker's own accepting write, which took effect before it was repeated.
  predicate MeetsOwnCommit(s: System, req: Request, reply: Reply, token: Token, result: ResultJson) {
    AcceptsFor(req, token, result) && reply.Conflict? && !IsAccepted(s, token, result)
  }

  lemma CompleteRefusals(w: Proc, r: Readings, reply: Reply, here: nat, token: Token, result: ResultJson)
    requires Completing(w.op) && w.Holds(w.op.token) && CompleteTurn(w, r).Ask?
    requires RefusesCompletion(CompleteResume(w, r, reply, here).op, token, result)
    ensures w.op.token == token && w.op.result == result && !w.op.CompleteSettle?
    ensures MidCompletion(w.op) && CompleteTurn(w, r).request.WriteJob? ==>
              reply.Conflict? && AcceptsFor(CompleteTurn(w, r).request, token, result)
    ensures w.op.CompleteRead? ==>
              && CompleteTurn(w, r).request == ReadJob(JobOf(w, token))
              && reply.Loaded? && reply.state.acceptedResult.Some?
              && !(reply.state.acceptedGeneration == Some(w.claims[token].generation)
                   && reply.state.AcceptedAs(token, result))
  {
  }

  lemma LookupRefusals(w: Proc, reply: Reply, token: Token, result: ResultJson)
    requires w.op.CompleteLookup? || w.op.CompleteConfirm?
    requires RefusesCompletion(LookupResume(w, reply).op, token, result)
    ensures w.op.token == token && w.op.result == result
    ensures w.op.CompleteLookup? ==>
              && LookupTurn(w).request == ReadIndex(Sha256(token))
              && (reply.Missing? || (reply.Found? && reply.index.claimHash != Sha256(token)))
    ensures w.op.CompleteConfirm? ==>
              && LookupTurn(w).request == ReadJob(w.op.index.jobId) && reply.Loaded?
              && !(reply.state.AcceptedAs(token, result)
                   && reply.state.acceptedGeneration == Some(w.op.index.generation)
                   && reply.state.acceptedAttemptId == Some(w.op.index.attemptId))
  {
  }

  lemma MidRefusal(s: System, s': System, p: Pid, w: Proc, r: Readings, minted: Token, reply: Reply,
                   token: Token, result: ResultJson)
    requires MidCompletion(w.op) && w.Holds(w.op.token) && CompleteTurn(w, r).Ask?
    requires Answered(s, s', p, w, r, minted, CompleteTurn(w, r).request, reply)
    requires RequestOk(s, p, w, CompleteTurn(w, r).request) && Undecided(s, w)
    requires RefusesCompletion(CompleteResume(w, r, reply, |s.log|).op, token, result)
    ensures IsAccepted(s', token, result) ==> MeetsOwnCommit(s, CompleteTurn(w, r).request, reply, token, result)
  {
    hide SharedOk, Grows, Knows, ClaimsOk, RequestOk;
    var req := CompleteTurn(w, r).request;
    CompleteRefusals(w, r, reply, |s.log|, token, result);
    HolderIsMinted(s, p, w, token);
    BlobsAreOk(s');
    if IsAccepted(s', token, result) && !req.WriteJob? {
      StillUndecided(s, s', p, w, req, reply, token);
    }
  }

  lemma ReadRefusal(s: System, s': System, p: Pid, w: Proc, r: Readings, minted: Token, reply: Reply,
                    token: Token, result: ResultJson)
    requires w.op.CompleteRead? && w.Holds(w.op.token) && Inv(s')
    requires Answered(s, s', p, w, r, minted, CompleteTurn(w, r).request, reply)
    requires RefusesCompletion(CompleteResume(w, r, reply, |s.log|).op, token, result)
    ensures !IsAccepted(s', token, result)
  {
    hide SharedOk, Effect, Grows, Knows, ClaimsOk;
    CompleteRefusals(w, r, reply, |s.log|, token, result);
    if IsAccepted(s', token, result) {
      AcceptedClaimIsIndexed(s', token, result);
      ReadTells(s, s', p, w, CompleteTurn(w, r).request, reply);
      ContextCarries(s, s', p, w, token);
    }
  }

  lemma MissRefusal(s: System, s': System, p: Pid, w: Proc, r: Readings, minted: Token, reply: Reply,
                    token: Token, result: ResultJson)
    requires w.op.CompleteLookup? && Inv(s')
    requires Answered(s, s', p, w, r, minted, LookupTurn(w).request, reply)
    requires RefusesCompletion(LookupResume(w, reply).op, token, result)
    ensures !IsAccepted(s', token, result)
  {
    hide SharedOk, Grows, Knows, ClaimsOk;
    LookupRefusals(w, reply, token, result);
    if IsAccepted(s', token, result) {
      AcceptedClaimIsIndexed(s', token, result);
    }
  }

  lemma ConfirmRefusal(s: System, s': System, p: Pid, w: Proc, r: Readings, minted: Token, reply: Reply,
                       token: Token, result: ResultJson)
    requires w.op.CompleteConfirm? && Inv(s')
    requires Answered(s, s', p, w, r, minted, LookupTurn(w).request, reply)
    requires RefusesCompletion(LookupResume(w, reply).op, token, result)
    ensures !IsAccepted(s', token, result)
  {
    hide SharedOk, Effect, Grows, ClaimsOk;
    LookupRefusals(w, reply, token, result);
    if IsAccepted(s', token, result) {
      AcceptedClaimIsIndexed(s', token, result);
      assert EntryStored(w.op.index) in Facts(w);
      Carry(s, s', p, w, EntryStored(w.op.index));
      ReadTells(s, s', p, w, LookupTurn(w).request, reply);
    }
  }

  // A finished I/O step, seen from the worker that took it.
  lemma IoAnswered(s: System, step: Step)
    requires Inv(s) && Enabled(s, step) && step.Io?
    ensures var p, w, s' := step.worker, s.procs[step.worker], Apply(s, step);
            var req := NextTurn(w, step.readings, step.minted).request;
            && Answered(s, s', p, w, step.readings, step.minted, req, step.reply)
            && RequestOk(s, p, w, req) && Inv(s') && WorkerOk(s, p, w)
            && s'.procs[p].op == Resume(w, step.readings, step.minted, step.reply, |s.log|).op
  {
    hide SharedOk;
    IoKeepsInv(s, step);
    RequestIsJustified(s, step.worker, s.procs[step.worker], step.readings, step.minted);
    IoIsEffect(s, step);
  }

  lemma TurnRefusal(s: System, s': System, p: Pid, w: Proc, r: Readings, minted: Token, reply: Reply,
                    token: Token, result: ResultJson)
    requires Runnable(w) && NextTurn(w, r, minted).Ask? && Inv(s') && Undecided(s, w)
    requires Answered(s, s', p, w, r, minted, NextTurn(w, r, minted).request, reply)
    requires RequestOk(s, p, w, NextTurn(w, r, minted).request)
    requires RefusesCompletion(Resume(w, r, minted, reply, |s.log|).op, token, result)
    ensures IsAccepted(s', token, result) ==> MeetsOwnCommit(s, NextTurn(w, r, minted).request, reply, token, result)
  {
    hide SharedOk, Effect, Grows, Knows, ClaimsOk, RequestOk, Inv;
    if MidCompletion(w.op) {
      MidRefusal(s, s', p, w, r, minted, reply, token, result);
    } else if w.op.CompleteLookup? {
      MissRefusal(s, s', p, w, r, minted, reply, token, result);
    } else if w.op.CompleteConfirm? {
      ConfirmRefusal(s, s', p, w, r, minted, reply, token, result);
    } else if w.op.CompleteRead? {
      ReadRefusal(s, s', p, w, r, minted, reply, token, result);
    } else if w.op.CompleteSettle? {
      CompleteRefusals(w, r, reply, |s.log|, token, result);
    } else {
      OtherTurns(w, r, minted, reply, |s.log|, token, result);
    }
  }

  lemma LocalRefusal(s: System, step: Step, token: Token, result: ResultJson)
    requires Inv(s) && AllUndecided(s) && Enabled(s, step) && step.Local?
    requires RefusesCompletion(Apply(s, step).procs[step.worker].op, token, result)
    ensures !IsAccepted(Apply(s, step), token, result)
  {
    var w := s.procs[step.worker];
    assert Undecided(s, w);
    LocalRefusalComesFrom(w, step.readings, step.minted, token, result);
  }

  lemma LocalRefusalComesFrom(w: Proc, r: Readings, minted: Token, token: Token, result: ResultJson)
    requires Runnable(w) && NextTurn(w, r, minted).Move?
    requires RefusesCompletion(NextTurn(w, r, minted).proc.op, token, result)
    ensures MidCompletion(w.op) && w.op.token == token
  {
  }

  lemma BeginRefusesNothing(w: Proc, call: Call, token: Token, result: ResultJson)
    ensures !RefusesCompletion(Begin(w, call).op, token, result)
  {
  }

  /**
   No step ends a completion with a lease or verification error while the job
   is accepted under the same token with the same result, whichever worker
   retries the winning completion, before or after restarts: the one exception is
   the accepting write itself, when it took effect, was repeated, and met its own
   effect as a conflict.
   */
  lemma WinnerIsNeverRefused(run: seq<System>, steps: seq<Step>, i: nat, p: Pid, token: Token, result: ResultJson)
    requires Run(run, steps) && i < |steps|
    requires (steps[i].Io? || steps[i].Local? || steps[i].Invoke?) && steps[i].worker == p
    requires RefusesCompletion(run[i + 1].procs[p].op, token, result)
    ensures !IsAccepted(run[i], token, result)
    ensures IsAccepted(run[i + 1], token, result) ==>
              steps[i].Io? &&
              MeetsOwnCommit(run[i], NextTurn(run[i].procs[p], steps[i].readings, steps[i].minted).request,
                             steps[i].reply, token, result)
  {
    hide SharedOk, Facts, NextTurn, Resume, Begin, IsAccepted;
    RunKeepsInv(run, steps, i);
    RunKeepsUndecided(run, steps, i);
    if steps[i].Io? {
      IoAnswered(run[i], steps[i]);
      assert Undecided(run[i], run[i].procs[p]);
      TurnRefusal(run[i], run[i + 1], p, run[i].procs[p],
                  steps[i].readings, steps[i].minted, steps[i].reply, token, result);
    } else if steps[i].Local? {
      LocalRefusal(run[i], steps[i], token, result);
    } else {
      BeginRefusesNothing(run[i].procs[p], steps[i].call, token, result);
    }
    if IsAccepted(run[i], token, result) {
      RunKeepsInv(run, steps, i + 1);
      RunGrows(run, steps, i, i + 1);
      BlobsAreOk(run[i + 1]);
      AcceptancePersists(run[i], run[i + 1], token, result);
    }
  }

  /** Every accepting write that commits can be answered so, and then its completion is refused although it won. */
  lemma OwnCommitCanBeRefused(s: System, step: Step, token: Token, result: ResultJson)
    requires Inv(s) && Enabled(s, step) && step.Io? && step.reply.Done?
    requires AcceptsFor(NextTurn(s.procs[step.worker], step.readings, step.minted).request, token, result)
    ensures var again := step.(reply := Conflict);
            && Enabled(s, again) && IsAccepted(Apply(s, again), token, result)
            && RefusesCompletion(Apply(s, again).procs[step.worker].op, token, result)
  {
    hide SharedOk, ClaimsOk, OpOk, NextTurn, Resume, IsAccepted;
    var p, r, minted := step.worker, step.readings, step.minted;
    var w, again := s.procs[p], step.(reply := Conflict);
    assert WorkerOk(s, p, w);
    AcceptingOp(w, r, minted, token, result, |s.log|);
    RequestIsJustified(s, p, w, r, minted);
    assert Enabled(s, again);
    CommitIsAcceptance(s, Apply(s, again), p, w, NextTurn(w, r, minted).request, token, result);
  }

  lemma AcceptingOp(w: Proc, r: Readings, minted: Token, token: Token, result: ResultJson, here: nat)
    requires Runnable(w) && NextTurn(w, r, minted).Ask? && AcceptsFor(NextTurn(w, r, minted).request, token, result)
    ensures RefusesCompletion(Resume(w, r, minted, Conflict, here).op, token, result)
  {
  }

  lemma CommitIsAcceptance(s: System, s': System, p: Pid, w: Proc, req: Request, token: Token, result: ResultJson)
    requires AcceptsFor(req, token, result) && RequestOk(s, p, w, req) && s'.grants == Grants(s, p, req)
    requires CanCommit(s.store, req.next.jobId, req.version)
    requires s'.store == Committed(s.store, req.next.jobId, Commit(req.next, req.update, s.now))
    ensures IsAccepted(s', token, result)
  {
  }
}
