/** Whatever a request is answered, the worker that made it ends its turn with true facts only. */
module DurableReplies {
  import opened FlashTypes
  import opened DurableJob
  import opened DurableWorker
  import opened DurableSystem
  import opened DurableInvariant
  import opened DurableGrowth
  import opened DurableEffects
  import opened DurableRequests

  ghost predicate Answered(
    s: System, s': System, p: Pid, w: Proc, r: Readings, minted: Token, req: Request, reply: Reply)
  {
    && Poised(s, p, w, r, minted) && Effect(s, s', p, w, req, reply)
    && SharedOk(s') && Grows(s, s')
  }

  // `w'` as it stands in `s'` once its turn is over.
  ghost predicate Landed(s: System, s': System, p: Pid, w': Proc) {
    WorkerOk(s', p, w'.(since := s.now))
  }

  lemma Carry(s: System, s': System, p: Pid, w: Proc, f: Fact)
    requires WorkerOk(s, p, w) && Grows(s, s') && SharedOk(s') && f in Facts(w)
    ensures Knows(s', p, s.now, f)
  {
    FactPersists(s, s', p, w.since, s.now, f);
  }

  lemma CarryClaims(s: System, s': System, p: Pid, w: Proc)
    requires WorkerOk(s, p, w) && Grows(s, s') && SharedOk(s')
    ensures ClaimsOk(s', p, w) && w.options.Valid() && s.now <= s'.now
  {
    ClaimsPersist(s, s', p, w);
  }

  /** A worker that stops, or moves on knowing nothing new. */
  lemma Lands(s: System, s': System, p: Pid, w: Proc, w': Proc)
    requires WorkerOk(s, p, w) && Grows(s, s') && SharedOk(s')
    requires w'.options == w.options && w'.claims == w.claims
    requires (w'.op.Idle? || Runnable(w')) && LocalsOk(w'.(since := s.now))
    requires forall f :: f in Facts(w') ==> Knows(s', p, s.now, f)
    ensures Landed(s, s', p, w')
  {
    hide Knows, Grows, SharedOk, ContextOk, HoldingFacts, FactsAfter;
    CarryClaims(s, s', p, w);
    assert Facts(w'.(since := s.now)) == Facts(w') by { FactsIgnoreSince(w', s.now); }
    assert ClaimsOk(s', p, w'.(since := s.now));
  }

  lemma FactsIgnoreSince(w: Proc, t: real)
    requires w.op.Idle? || Runnable(w)
    ensures Facts(w.(since := t)) == Facts(w)
  {
  }

  lemma ReadTells(s: System, s': System, p: Pid, w: Proc, req: Request, reply: Reply)
    requires Effect(s, s', p, w, req, reply) && SharedOk(s') && req.ReadJob? && reply.Loaded?
    ensures Known(s', req.job) && Current(s', req.job) == reply.state && reply.version == |H(s', req.job)|
    ensures Knows(s', p, s.now, RecordRead(req.job, Snapshot(reply.state, reply.version, |s.log|)))
    ensures Sound(req.job, reply.state)
    ensures reply.state.contract == H(s', req.job)[0].state.contract
    ensures reply.state.Deadline() == H(s', req.job)[0].state.Deadline()
  {
    LawfulOk(s', req.job, |H(s', req.job)| - 1);
    assert s'.log[|s.log|] == Entry(p, req, reply, s.now);
  }

  lemma LastEntry(s: System, s': System, p: Pid, w: Proc, req: Request, reply: Reply)
    requires Effect(s, s', p, w, req, reply)
    ensures |s'.log| == |s.log| + 1 && s'.log[|s.log|] == Entry(p, req, reply, s.now)
  {
  }

  // Log positions a worker remembers lie in the past.
  lemma PositionIsPast(s: System, p: Pid, since: real, f: Fact)
    requires Knows(s, p, since, f) && (f.ResultVerified? || f.ClaimIndexed? || f.JobNotified?)
    ensures f.at < |s.log|
  {
  }

  lemma SettlementTells(s': System, p: Pid, now: real, job: JobId)
    requires Known(s', job) && Current(s', job).Settled()
    ensures Knows(s', p, now, JobSettled(job))
  {
  }

  lemma AcceptanceTells(s': System, p: Pid, now: real, token: Token, result: ResultJson)
    requires Minted(s', token) && Current(s', s'.grants[token].job).AcceptedAs(token, result)
    ensures Knows(s', p, now, ClaimAccepted(token, result))
  {
  }

  // A snapshot determines the immutable parts of the record.
  lemma SnapshotTells(s': System, p: Pid, now: real, job: JobId, snap: Snapshot)
    requires SharedOk(s') && Knows(s', p, now, RecordRead(job, snap))
    ensures Knows(s', p, now, ContractIs(job, snap.state.contract))
    ensures Knows(s', p, now, DeadlineIs(job, snap.state.Deadline()))
  {
    LawfulOk(s', job, snap.version - 1);
  }

  lemma VerdictTells(s: System, s': System, p: Pid, w: Proc, token: Token, req: Request, reply: Reply)
    requires Effect(s, s', p, w, req, reply) && reply == Approved && req.Verify? && Minted(s', token)
    requires Knows(s', p, s.now, ContractIs(s'.grants[token].job, req.contract))
    ensures Knows(s', p, s.now, ResultVerified(token, |s.log|, req.result))
  {
    LastEntry(s, s', p, w, req, reply);
  }

  lemma NotificationTells(s: System, s': System, p: Pid, w: Proc, req: Request, reply: Reply)
    requires Effect(s, s', p, w, req, reply) && req.Notify? && reply == Done
    ensures Knows(s', p, s.now, JobNotified(req.job, |s.log|))
  {
    LastEntry(s, s', p, w, req, reply);
  }

  // The entry a worker computes from a snapshot is the entry its claim must have.
  lemma EntryTells(s': System, p: Pid, now: real, c: ClaimContext, snap: Snapshot, contract: WorkContract)
    requires SharedOk(s') && ContextOk(s', p, c.token, c)
    requires Knows(s', p, now, RecordRead(c.jobId, snap)) && Knows(s', p, now, ContractIs(c.jobId, contract))
    ensures Knows(s', p, now, EntryIs(c.token, IndexFor(c, snap.state.startedAt, contract)))
  {
    LawfulOk(s', c.jobId, snap.version - 1);
  }

  lemma IndexTells(s: System, s': System, p: Pid, w: Proc, token: Token, req: Request, reply: Reply, e: ClaimIndex)
    requires Effect(s, s', p, w, req, reply) && Knows(s', p, s.now, EntryIs(token, e))
    requires (req == PutIndex(e) && reply == Done) || (req == ReadIndex(e.claimHash) && reply == Found(e))
    ensures Knows(s', p, s.now, ClaimIndexed(token, |s.log|))
  {
    LastEntry(s, s', p, w, req, reply);
  }

  lemma ContextCarries(s: System, s': System, p: Pid, w: Proc, token: Token)
    requires WorkerOk(s, p, w) && Grows(s, s') && SharedOk(s') && w.Holds(token)
    ensures ContextOk(s', p, token, w.claims[token]) && Minted(s', token) && s'.grants[token].job == JobOf(w, token)
  {
    CarryClaims(s, s', p, w);
    assert ContextOk(s', p, token, w.claims[token]);
  }

  lemma CommitTells(s: System, s': System, p: Pid, w: Proc, req: Request, reply: Reply)
    requires Effect(s, s', p, w, req, reply) && req.WriteJob? && reply == Done
    ensures Known(s', req.next.jobId) && Current(s', req.next.jobId) == req.next
  {
  }

  // ----- enqueue -----

  lemma EnqueueTells(s: System, s': System, p: Pid, w: Proc, req: Request, reply: Reply, job: JobId)
    requires Effect(s, s', p, w, req, reply) && SharedOk(s')
    requires (req == ReadJob(job) && reply.Loaded?) || (req.CreateJob? && req.state.jobId == job && reply == Done)
    ensures Knows(s', p, s.now, JobKnown(job))
  {
    if req.CreateJob? {
      assert BlobOk(s', job);
    }
  }

  lemma EnqueueReply(s: System, s': System, p: Pid, w: Proc, r: Readings, minted: Token, reply: Reply)
    requires w.op.EnqueueCreate? || w.op.EnqueueCheck? || w.op.EnqueueSend?
    requires Answered(s, s', p, w, r, minted, EnqueueTurn(w, r).request, reply)
    ensures Landed(s, s', p, EnqueueResume(w, reply))
  {
    hide SharedOk, Effect, Grows, Knows, ClaimsOk;
    var w' := EnqueueResume(w, reply);
    var req := EnqueueTurn(w, r).request;
    if w'.op.EnqueueSend? {
      var job := w'.op.job;
      EnqueueTells(s, s', p, w, req, reply, job);
    }
    Lands(s, s', p, w, w');
  }

  // ----- claim -----

  lemma QueueIsKnown(s: System, id: nat)
    requires SharedOk(s) && id in s.store.queue
    ensures id < s.store.serial && Known(s, s.store.queue[id].job)
  {
  }

  lemma KnownPersists(s: System, s': System, job: JobId)
    requires SharedOk(s') && Grows(s, s') && Known(s, job)
    ensures Known(s', job)
  {
    JobGrows(s, s', job);
  }

  lemma GotMessage(s: System, s': System, p: Pid, w: Proc, req: Request, reply: Reply)
    requires Effect(s, s', p, w, req, reply) && SharedOk(s) && SharedOk(s') && Grows(s, s')
    requires req.ReceiveMessage? && reply.Got?
    ensures Knows(s', p, s.now, MessageIs(reply.message))
  {
    hide SharedOk;
    var id := reply.message.id;
    QueueIsKnown(s, id);
    KnownPersists(s, s', s.store.queue[id].job);
  }

  lemma ClaimReadReply(s: System, s': System, p: Pid, w: Proc, r: Readings, minted: Token, reply: Reply)
    requires w.op.ClaimRead?
    requires Answered(s, s', p, w, r, minted, ClaimTurn(w, r, minted).request, reply)
    ensures Landed(s, s', p, ClaimResume(w, r, minted, reply, |s.log|))
  {
    hide SharedOk, Effect, Grows, Knows, ClaimsOk;
    Carry(s, s', p, w, MessageIs(w.op.message));
    if reply.Loaded? {
      ReadTells(s, s', p, w, ClaimTurn(w, r, minted).request, reply);
      if reply.state.Settled() {
        SettlementTells(s', p, s.now, w.op.message.job);
      }
    }
    Lands(s, s', p, w, ClaimResume(w, r, minted, reply, |s.log|));
  }

  lemma LawfulOkAt(s: System, job: JobId)
    requires SharedOk(s) && Known(s, job)
    ensures Sound(job, Current(s, job)) && Current(s, job).contract == H(s, job)[0].state.contract
    ensures Current(s, job).startedAt == H(s, job)[0].state.startedAt
  {
    LawfulOk(s, job, |H(s, job)| - 1);
  }

  lemma Installed(s: System, s': System, p: Pid, w: Proc, r: Readings, minted: Token, reply: Reply)
    requires w.op.ClaimWrite? && ClaimTurn(w, r, minted).Ask?
    requires Answered(s, s', p, w, r, minted, ClaimTurn(w, r, minted).request, reply)
    ensures var n := ClaimDecision(w, w.op.snap, r.t0, minted).value.0;
            && n.jobId == w.op.message.job && n.generation == n.attemptNumber
    ensures reply.Done? ==>
              && Known(s', w.op.message.job)
              && Current(s', w.op.message.job) == ClaimDecision(w, w.op.snap, r.t0, minted).value.0
              && H(s', w.op.message.job)[0].state.contract == w.op.snap.state.contract
  {
    hide SharedOk, Effect, Grows, ClaimsOk, Knows;
    var snap := w.op.snap;
    assert RecordRead(w.op.message.job, snap) in Facts(w);
    SnapshotIsVersion(s, p, w, w.op.message.job, snap, s.now);
    if reply.Done? {
      CommitTells(s, s', p, w, ClaimTurn(w, r, minted).request, reply);
      LawfulOkAt(s', w.op.message.job);
    }
  }

  lemma NewContextOk(s: System, s': System, p: Pid, w: Proc, r: Readings, minted: Token, reply: Reply)
    requires w.op.ClaimWrite? && ClaimTurn(w, r, minted).Ask? && reply.Done?
    requires Answered(s, s', p, w, r, minted, ClaimTurn(w, r, minted).request, reply)
    requires ClaimDecision(w, w.op.snap, r.t0, minted).value.1.Claimed?
    ensures var next := ClaimDecision(w, w.op.snap, r.t0, minted).value.0;
            ContextOk(s', p, minted, NewContext(w.op.message, next, minted))
  {
    hide SharedOk, Grows, ClaimsOk;
    Installed(s, s', p, w, r, minted, reply);
    assert MessageIs(w.op.message) in Facts(w);
    Carry(s, s', p, w, MessageIs(w.op.message));
  }

  lemma ClaimAdded(s: System, s': System, p: Pid, w: Proc, w': Proc, token: Token, c: ClaimContext)
    requires WorkerOk(s, p, w) && Grows(s, s') && SharedOk(s') && ContextOk(s', p, token, c)
    requires w'.claims == w.claims[token := c] && w'.options == w.options
    ensures ClaimsOk(s', p, w'.(since := s.now)) && w'.options.Valid() && s.now <= s'.now
  {
    CarryClaims(s, s', p, w);
  }

  lemma ClaimWriteReply(s: System, s': System, p: Pid, w: Proc, r: Readings, minted: Token, reply: Reply)
    requires w.op.ClaimWrite? && ClaimTurn(w, r, minted).Ask?
    requires Answered(s, s', p, w, r, minted, ClaimTurn(w, r, minted).request, reply)
    ensures Landed(s, s', p, ClaimResume(w, r, minted, reply, |s.log|))
  {
    hide SharedOk, Effect, Grows, Knows, ClaimsOk;
    var w' := ClaimResume(w, r, minted, reply, |s.log|);
    if reply.Done? && ClaimDecision(w, w.op.snap, r.t0, minted).value.1.Claimed? {
      NewContextOk(s, s', p, w, r, minted, reply);
      ClaimAdded(s, s', p, w, w', minted, w'.claims[minted]);
      assert Facts(w'.(since := s.now)) == {};
    } else {
      if reply.Done? {
        Installed(s, s', p, w, r, minted, reply);
        assert MessageIs(w.op.message) in Facts(w);
        Carry(s, s', p, w, MessageIs(w.op.message));
        SettlementTells(s', p, s.now, w.op.message.job);
      }
      Lands(s, s', p, w, w');
    }
  }

  lemma ClaimReply(s: System, s': System, p: Pid, w: Proc, r: Readings, minted: Token, reply: Reply)
    requires w.op.ClaimReceive? || w.op.ClaimRead? || w.op.ClaimWrite? || w.op.ClaimDiscard?
    requires ClaimTurn(w, r, minted).Ask?
    requires Answered(s, s', p, w, r, minted, ClaimTurn(w, r, minted).request, reply)
    ensures Landed(s, s', p, ClaimResume(w, r, minted, reply, |s.log|))
  {
    hide SharedOk, Effect, Grows, Knows, ClaimsOk;
    if w.op.ClaimRead? {
      ClaimReadReply(s, s', p, w, r, minted, reply);
    } else if w.op.ClaimWrite? {
      ClaimWriteReply(s, s', p, w, r, minted, reply);
    } else {
      if w.op.ClaimReceive? && reply.Got? {
        GotMessage(s, s', p, w, ClaimTurn(w, r, minted).request, reply);
      }
      Lands(s, s', p, w, ClaimResume(w, r, minted, reply, |s.log|));
    }
  }

  // ----- renew -----

  // What the freshly read lease of a held claim owes to its holder's own earlier clock readings.
  lemma OwnLeaseIsOld(s: System, s': System, p: Pid, w: Proc, token: Token, req: Request, reply: Reply, t: real)
    requires SharedOk(s) && SharedOk(s') && Effect(s, s', p, w, req, reply) && WorkerOk(s, p, w) && w.Holds(token)
    requires req == ReadJob(JobOf(w, token)) && reply.Loaded? && w.since <= t
    ensures Knows(s', p, s.now,
                  RenewalExtends(req.job, token, Snapshot(reply.state, reply.version, |s.log|), t, w.options.Lease()))
  {
    ReadTells(s, s', p, w, req, reply);
    assert Current(s, req.job) == reply.state && s'.store.blobs == s.store.blobs;
    assert LeaseOwned(s, req.job, reply.version - 1);
    ContextFor(s, p, w, token);
  }

  lemma RenewReadReply(s: System, s': System, p: Pid, w: Proc, r: Readings, minted: Token, reply: Reply)
    requires (w.op.RenewRead? || w.op.RenewReread?) && w.Holds(w.op.token)
    requires Answered(s, s', p, w, r, minted, RenewTurn(w, r).request, reply)
    ensures Landed(s, s', p, RenewResume(w, r, reply, |s.log|))
  {
    hide SharedOk, Effect, Grows, Knows, ClaimsOk;
    if reply.Loaded? {
      ReadTells(s, s', p, w, RenewTurn(w, r).request, reply);
      if w.op.RenewReread? {
        OwnLeaseIsOld(s, s', p, w, w.op.token, RenewTurn(w, r).request, reply, r.t0);
        Carry(s, s', p, w, DeadlineIs(JobOf(w, w.op.token), w.op.deadline));
      }
    }
    Lands(s, s', p, w, RenewResume(w, r, reply, |s.log|));
  }

  // Changing a receipt or a delivery inside a held context leaves it a good context.
  lemma ClaimsUpdated(s: System, s': System, p: Pid, w: Proc, w': Proc, token: Token, c: ClaimContext)
    requires WorkerOk(s, p, w) && Grows(s, s') && SharedOk(s') && w.Holds(token)
    requires w'.claims == w.claims[token := c] && w'.options == w.options
    requires c == w.claims[token].(popReceipt := c.popReceipt, delivery := c.delivery)
    requires c.delivery == w.claims[token].delivery.(leaseId := token, leaseExpiresAt := c.delivery.leaseExpiresAt) ||
             c.delivery == w.claims[token].delivery
    ensures ClaimsOk(s', p, w'.(since := s.now)) && w'.options.Valid() && s.now <= s'.now
    ensures w'.Holds(token) && JobOf(w', token) == JobOf(w, token)
  {
    CarryClaims(s, s', p, w);
    assert ContextOk(s', p, token, w.claims[token]);
  }

  lemma RenewExtendReply(s: System, s': System, p: Pid, w: Proc, r: Readings, minted: Token, reply: Reply)
    requires w.op.RenewExtend? && w.Holds(w.op.token) && RenewTurn(w, r).Ask?
    requires Answered(s, s', p, w, r, minted, RenewTurn(w, r).request, reply)
    ensures Landed(s, s', p, RenewResume(w, r, reply, |s.log|))
  {
    hide SharedOk, Effect, Grows, Knows, ClaimsOk;
    var w' := RenewResume(w, r, reply, |s.log|);
    var token, job := w.op.token, JobOf(w, w.op.token);
    if reply.Rotated? {
      ClaimsUpdated(s, s', p, w, w', token, w.claims[token].(popReceipt := reply.receipt));
      assert RecordRead(job, w.op.snap) in Facts(w);
      Carry(s, s', p, w, RecordRead(job, w.op.snap));
      SnapshotTells(s', p, s.now, job, w.op.snap);
      assert Facts(w'.(since := s.now)) == {DeadlineIs(job, w.op.snap.state.Deadline())};
    } else {
      Lands(s, s', p, w, w');
    }
  }

  lemma RenewWriteReply(s: System, s': System, p: Pid, w: Proc, r: Readings, minted: Token, reply: Reply)
    requires w.op.RenewWrite? && w.Holds(w.op.token) && RenewTurn(w, r).Ask?
    requires Answered(s, s', p, w, r, minted, RenewTurn(w, r).request, reply)
    ensures Landed(s, s', p, RenewResume(w, r, reply, |s.log|))
  {
    hide SharedOk, Effect, Grows, Knows, ClaimsOk;
    var w' := RenewResume(w, r, reply, |s.log|);
    var token := w.op.token;
    if reply.Done? {
      ClaimsUpdated(s, s', p, w, w', token, w'.claims[token]);
      assert Facts(w'.(since := s.now)) == {};
    } else {
      Lands(s, s', p, w, w');
    }
  }

  lemma RenewReply(s: System, s': System, p: Pid, w: Proc, r: Readings, minted: Token, reply: Reply)
    requires w.op.RenewRead? || w.op.RenewExtend? || w.op.RenewReread? || w.op.RenewWrite?
    requires w.Holds(w.op.token) && RenewTurn(w, r).Ask?
    requires Answered(s, s', p, w, r, minted, RenewTurn(w, r).request, reply)
    ensures Landed(s, s', p, RenewResume(w, r, reply, |s.log|))
  {
    hide SharedOk, Effect, Grows, Knows, ClaimsOk;
    if w.op.RenewExtend? {
      RenewExtendReply(s, s', p, w, r, minted, reply);
    } else if w.op.RenewWrite? {
      RenewWriteReply(s, s', p, w, r, minted, reply);
    } else {
      RenewReadReply(s, s', p, w, r, minted, reply);
    }
  }

  // ----- abandon -----

  lemma ClaimDropped(s: System, s': System, p: Pid, w: Proc, w': Proc, token: Token)
    requires WorkerOk(s, p, w) && Grows(s, s') && SharedOk(s')
    requires w'.claims == w.claims - {token} && w'.options == w.options
    ensures ClaimsOk(s', p, w'.(since := s.now)) && w'.options.Valid() && s.now <= s'.now
  {
    CarryClaims(s, s', p, w);
  }

  lemma AbandonReply(s: System, s': System, p: Pid, w: Proc, r: Readings, minted: Token, reply: Reply)
    requires w.op.AbandonRead? || w.op.AbandonWrite? || w.op.AbandonRelease?
    requires w.Holds(w.op.token) && AbandonTurn(w, r).Ask?
    requires Answered(s, s', p, w, r, minted, AbandonTurn(w, r).request, reply)
    ensures Landed(s, s', p, AbandonResume(w, reply, |s.log|))
  {
    hide SharedOk, Effect, Grows, Knows, ClaimsOk;
    var w' := AbandonResume(w, reply, |s.log|);
    if w.op.AbandonRelease? && reply.Rotated? {
      ClaimDropped(s, s', p, w, w', w.op.token);
      assert Facts(w'.(since := s.now)) == {};
    } else {
      if w.op.AbandonRead? && reply.Loaded? {
        ReadTells(s, s', p, w, AbandonTurn(w, r).request, reply);
      }
      Lands(s, s', p, w, w');
    }
  }

  // ----- complete -----

  lemma CompleteReadReply(s: System, s': System, p: Pid, w: Proc, r: Readings, minted: Token, reply: Reply)
    requires w.op.CompleteRead? && w.Holds(w.op.token)
    requires Answered(s, s', p, w, r, minted, CompleteTurn(w, r).request, reply)
    ensures Landed(s, s', p, CompleteResume(w, r, reply, |s.log|))
  {
    hide SharedOk, Effect, Grows, Knows, ClaimsOk;
    var token, result := w.op.token, w.op.result;
    if reply.Loaded? {
      ReadTells(s, s', p, w, CompleteTurn(w, r).request, reply);
      ContextCarries(s, s', p, w, token);
      if reply.state.AcceptedAs(token, result) {
        AcceptanceTells(s', p, s.now, token, result);
      }
    }
    Lands(s, s', p, w, CompleteResume(w, r, reply, |s.log|));
  }

  lemma CompleteVerifyReply(s: System, s': System, p: Pid, w: Proc, r: Readings, minted: Token, reply: Reply)
    requires w.op.CompleteVerify? && w.Holds(w.op.token) && CompleteTurn(w, r).Ask?
    requires Answered(s, s', p, w, r, minted, CompleteTurn(w, r).request, reply)
    ensures Landed(s, s', p, CompleteResume(w, r, reply, |s.log|))
  {
    hide SharedOk, Effect, Grows, Knows, ClaimsOk;
    var token, job := w.op.token, JobOf(w, w.op.token);
    ContextCarries(s, s', p, w, token);
    assert RecordRead(job, w.op.snap) in Facts(w);
    Carry(s, s', p, w, RecordRead(job, w.op.snap));
    SnapshotTells(s', p, s.now, job, w.op.snap);
    if reply.Approved? {
      VerdictTells(s, s', p, w, token, CompleteTurn(w, r).request, reply);
    }
    Lands(s, s', p, w, CompleteResume(w, r, reply, |s.log|));
  }

  lemma CompleteRereadReply(s: System, s': System, p: Pid, w: Proc, r: Readings, minted: Token, reply: Reply)
    requires w.op.CompleteReread? && w.Holds(w.op.token)
    requires Answered(s, s', p, w, r, minted, CompleteTurn(w, r).request, reply)
    ensures Landed(s, s', p, CompleteResume(w, r, reply, |s.log|))
  {
    hide SharedOk, Effect, Grows, Knows, ClaimsOk;
    if reply.Loaded? {
      ReadTells(s, s', p, w, CompleteTurn(w, r).request, reply);
      Carry(s, s', p, w, ContractIs(JobOf(w, w.op.token), w.op.contract));
      Carry(s, s', p, w, ResultVerified(w.op.token, w.op.verified, w.op.result));
    }
    Lands(s, s', p, w, CompleteResume(w, r, reply, |s.log|));
  }

  lemma CompleteIndexReply(s: System, s': System, p: Pid, w: Proc, r: Readings, minted: Token, reply: Reply)
    requires w.op.CompleteIndex? && w.Holds(w.op.token) && CompleteTurn(w, r).Ask?
    requires Answered(s, s', p, w, r, minted, CompleteTurn(w, r).request, reply)
    ensures Landed(s, s', p, CompleteResume(w, r, reply, |s.log|))
  {
    hide SharedOk, Effect, Grows, Knows, ClaimsOk;
    var token, job, snap := w.op.token, JobOf(w, w.op.token), w.op.snap;
    ContextCarries(s, s', p, w, token);
    assert RecordRead(job, snap) in Facts(w) && ContractIs(job, w.op.contract) in Facts(w)
           && ResultVerified(token, w.op.verified, w.op.result) in Facts(w);
    Carry(s, s', p, w, RecordRead(job, snap));
    Carry(s, s', p, w, ContractIs(job, w.op.contract));
    Carry(s, s', p, w, ResultVerified(token, w.op.verified, w.op.result));
    PositionIsPast(s, p, w.since, ResultVerified(token, w.op.verified, w.op.result));
    EntryTells(s', p, s.now, w.claims[token], snap, w.op.contract);
    if reply.Done? {
      IndexTells(s, s', p, w, token, CompleteTurn(w, r).request, reply,
                 IndexFor(w.claims[token], snap.state.startedAt, w.op.contract));
    }
    Lands(s, s', p, w, CompleteResume(w, r, reply, |s.log|));
  }

  lemma CompleteIndexCheckReply(s: System, s': System, p: Pid, w: Proc, r: Readings, minted: Token, reply: Reply)
    requires w.op.CompleteIndexCheck? && w.Holds(w.op.token)
    requires Answered(s, s', p, w, r, minted, CompleteTurn(w, r).request, reply)
    ensures Landed(s, s', p, CompleteResume(w, r, reply, |s.log|))
  {
    hide SharedOk, Effect, Grows, Knows, ClaimsOk;
    Carry(s, s', p, w, EntryIs(w.op.token, w.op.index));
    Carry(s, s', p, w, ResultVerified(w.op.token, w.op.verified, w.op.result));
    PositionIsPast(s, p, w.since, ResultVerified(w.op.token, w.op.verified, w.op.result));
    if reply.Found? && reply.index == w.op.index {
      IndexTells(s, s', p, w, w.op.token, CompleteTurn(w, r).request, reply, w.op.index);
    }
    Lands(s, s', p, w, CompleteResume(w, r, reply, |s.log|));
  }

  lemma CompleteFinalReadReply(s: System, s': System, p: Pid, w: Proc, r: Readings, minted: Token, reply: Reply)
    requires w.op.CompleteFinalRead? && w.Holds(w.op.token)
    requires Answered(s, s', p, w, r, minted, CompleteTurn(w, r).request, reply)
    ensures Landed(s, s', p, CompleteResume(w, r, reply, |s.log|))
  {
    hide SharedOk, Effect, Grows, Knows, ClaimsOk;
    assert ClaimIndexed(w.op.token, w.op.indexed) in Facts(w);
    PositionIsPast(s, p, w.since, ClaimIndexed(w.op.token, w.op.indexed));
    if reply.Loaded? {
      ReadTells(s, s', p, w, CompleteTurn(w, r).request, reply);
      Carry(s, s', p, w, ClaimIndexed(w.op.token, w.op.indexed));
      Carry(s, s', p, w, ResultVerified(w.op.token, w.op.verified, w.op.result));
    }
    Lands(s, s', p, w, CompleteResume(w, r, reply, |s.log|));
  }

  lemma CompleteAcceptReply(s: System, s': System, p: Pid, w: Proc, r: Readings, minted: Token, reply: Reply)
    requires w.op.CompleteAccept? && w.Holds(w.op.token) && CompleteTurn(w, r).Ask?
    requires Answered(s, s', p, w, r, minted, CompleteTurn(w, r).request, reply)
    ensures Landed(s, s', p, CompleteResume(w, r, reply, |s.log|))
  {
    hide SharedOk, Effect, Grows, Knows, ClaimsOk;
    if reply.Done? {
      ContextCarries(s, s', p, w, w.op.token);
      assert RecordRead(JobOf(w, w.op.token), w.op.snap) in Facts(w);
      SnapshotIsVersion(s, p, w, JobOf(w, w.op.token), w.op.snap, s.now);
      CommitTells(s, s', p, w, CompleteTurn(w, r).request, reply);
      AcceptanceTells(s', p, s.now, w.op.token, w.op.result);
    }
    Lands(s, s', p, w, CompleteResume(w, r, reply, |s.log|));
  }

  lemma CompleteSettleReply(s: System, s': System, p: Pid, w: Proc, r: Readings, minted: Token, reply: Reply)
    requires w.op.CompleteSettle? && w.Holds(w.op.token)
    requires Answered(s, s', p, w, r, minted, CompleteTurn(w, r).request, reply)
    ensures Landed(s, s', p, CompleteResume(w, r, reply, |s.log|))
  {
    hide SharedOk, Effect, Grows, Knows, ClaimsOk;
    var w' := CompleteResume(w, r, reply, |s.log|);
    if reply.Done? || reply.Gone? {
      ClaimDropped(s, s', p, w, w', w.op.token);
      Carry(s, s', p, w, ClaimAccepted(w.op.token, w.op.result));
      assert Facts(w'.(since := s.now)) == {ClaimAccepted(w.op.token, w.op.result)};
    } else {
      Lands(s, s', p, w, w');
    }
  }

  lemma CompleteReply(s: System, s': System, p: Pid, w: Proc, r: Readings, minted: Token, reply: Reply)
    requires Completing(w.op) && w.Holds(w.op.token) && CompleteTurn(w, r).Ask?
    requires Answered(s, s', p, w, r, minted, CompleteTurn(w, r).request, reply)
    ensures Landed(s, s', p, CompleteResume(w, r, reply, |s.log|))
  {
    hide SharedOk, Effect, Grows, Knows, ClaimsOk;
    match w.op {
      case CompleteRead(_, _) => CompleteReadReply(s, s', p, w, r, minted, reply);
      case CompleteVerify(_, _, _) => CompleteVerifyReply(s, s', p, w, r, minted, reply);
      case CompleteReread(_, _, _, _) => CompleteRereadReply(s, s', p, w, r, minted, reply);
      case CompleteIndex(_, _, _, _, _) => CompleteIndexReply(s, s', p, w, r, minted, reply);
      case CompleteIndexCheck(_, _, _, _) => CompleteIndexCheckReply(s, s', p, w, r, minted, reply);
      case CompleteFinalRead(_, _, _, _) => CompleteFinalReadReply(s, s', p, w, r, minted, reply);
      case CompleteAccept(_, _, _, _, _) => CompleteAcceptReply(s, s', p, w, r, minted, reply);
      case CompleteSettle(_, _) => CompleteSettleReply(s, s', p, w, r, minted, reply);
    }
  }

  lemma StoredEntryTells(s': System, p: Pid, now: real, e: ClaimIndex)
    requires SharedOk(s') && Knows(s', p, now, EntryStored(e))
    ensures IndexEntryOk(s', e) && Minted(s', e.claimHash.token) && s'.grants[e.claimHash.token].job == e.jobId
  {
    assert IndexEntryOk(s', s'.store.index[e.claimHash]);
  }

  lemma LookupTells(s: System, s': System, p: Pid, w: Proc, req: Request, reply: Reply)
    requires Effect(s, s', p, w, req, reply) && SharedOk(s') && req.ReadIndex? && reply.Found?
    ensures Knows(s', p, s.now, EntryStored(reply.index))
  {
  }

  lemma LookupReply(s: System, s': System, p: Pid, w: Proc, r: Readings, minted: Token, reply: Reply)
    requires w.op.CompleteLookup? || w.op.CompleteConfirm?
    requires Answered(s, s', p, w, r, minted, LookupTurn(w).request, reply)
    ensures Landed(s, s', p, LookupResume(w, reply))
  {
    hide SharedOk, Effect, Grows, Knows, ClaimsOk;
    if w.op.CompleteConfirm? {
      Carry(s, s', p, w, EntryStored(w.op.index));
      if reply.Loaded? {
        ReadTells(s, s', p, w, LookupTurn(w).request, reply);
        StoredEntryTells(s', p, s.now, w.op.index);
        if reply.state.AcceptedAs(w.op.token, w.op.result) {
          AcceptanceTells(s', p, s.now, w.op.token, w.op.result);
        }
      }
    } else if reply.Found? {
      LookupTells(s, s', p, w, LookupTurn(w).request, reply);
    }
    Lands(s, s', p, w, LookupResume(w, reply));
  }

  // ----- recover_notifications -----

  lemma AfterCarries(s: System, s': System, p: Pid, w: Proc)
    requires WorkerOk(s, p, w) && Grows(s, s') && SharedOk(s')
    requires w.op.RecoverPage? || w.op.RecoverRead? || w.op.RecoverNotify? || w.op.RecoverMark?
    ensures forall f :: f in FactsAfter(w.op.after) ==> Knows(s', p, s.now, f)
  {
    hide SharedOk, Grows, Knows, ClaimsOk;
    forall f | f in FactsAfter(w.op.after) ensures Knows(s', p, s.now, f) {
      assert f in Facts(w);
      Carry(s, s', p, w, f);
    }
  }

  // The part of the page still ahead of a recovery.
  function Ahead(op: Op): seq<JobId> {
    match op
    case RecoverRead(todo, _) => todo
    case RecoverNotify(rest, _, _, _, _) => rest
    case RecoverMark(rest, _, _, _) => rest
    case _ => []
  }

  lemma PageCarries(s: System, s': System, p: Pid, w: Proc, jobs: seq<JobId>)
    requires WorkerOk(s, p, w) && Grows(s, s') && SharedOk(s')
    requires w.op.RecoverRead? || w.op.RecoverNotify? || w.op.RecoverMark?
    requires forall job :: job in jobs ==> job in Ahead(w.op)
    ensures forall f :: f in FactsOfPage(jobs) ==> Knows(s', p, s.now, f)
  {
    hide SharedOk, Grows, Knows, ClaimsOk;
    forall f | f in FactsOfPage(jobs) ensures Knows(s', p, s.now, f) {
      assert f in FactsOfPage(Ahead(w.op)) && f in Facts(w);
      Carry(s, s', p, w, f);
    }
  }

  lemma PageTells(s: System, s': System, p: Pid, w: Proc, req: Request, reply: Reply)
    requires Effect(s, s', p, w, req, reply) && SharedOk(s') && req.ListJobs? && reply.Page?
    ensures forall f :: f in FactsOfPage(reply.jobs) ==> Knows(s', p, s.now, f)
  {
    forall job | job in reply.jobs ensures Known(s', job) {
      assert BlobOk(s', job);
    }
  }

  lemma RecoverReadReply(s: System, s': System, p: Pid, w: Proc, r: Readings, minted: Token, reply: Reply)
    requires w.op.RecoverRead? && w.op.todo != []
    requires Answered(s, s', p, w, r, minted, RecoverTurn(w).request, reply)
    ensures Landed(s, s', p, RecoverResume(w, reply, |s.log|))
  {
    hide SharedOk, Effect, Grows, Knows, ClaimsOk, FactsOfPage;
    AfterCarries(s, s', p, w);
    PageCarries(s, s', p, w, w.op.todo[1..]);
    if reply.Loaded? {
      ReadTells(s, s', p, w, RecoverTurn(w).request, reply);
    }
    Lands(s, s', p, w, RecoverResume(w, reply, |s.log|));
  }

  lemma RecoverNotifyReply(s: System, s': System, p: Pid, w: Proc, r: Readings, minted: Token, reply: Reply)
    requires w.op.RecoverNotify?
    requires Answered(s, s', p, w, r, minted, RecoverTurn(w).request, reply)
    ensures Landed(s, s', p, RecoverResume(w, reply, |s.log|))
  {
    hide SharedOk, Effect, Grows, Knows, ClaimsOk, FactsOfPage;
    AfterCarries(s, s', p, w);
    PageCarries(s, s', p, w, w.op.rest);
    var job, snap := w.op.snap.state.jobId, w.op.snap;
    RecoveryRead(s, p, w);
    assert RecordRead(job, snap) in Facts(w);
    Carry(s, s', p, w, RecordRead(job, snap));
    if reply.Done? {
      NotificationTells(s, s', p, w, RecoverTurn(w).request, reply);
    }
    Lands(s, s', p, w, RecoverResume(w, reply, |s.log|));
  }

  lemma RecoverReply(s: System, s': System, p: Pid, w: Proc, r: Readings, minted: Token, reply: Reply)
    requires w.op.RecoverPage? || w.op.RecoverRead? || w.op.RecoverNotify? || w.op.RecoverMark?
    requires RecoverTurn(w).Ask?
    requires Answered(s, s', p, w, r, minted, RecoverTurn(w).request, reply)
    ensures Landed(s, s', p, RecoverResume(w, reply, |s.log|))
  {
    hide SharedOk, Effect, Grows, Knows, ClaimsOk, FactsOfPage;
    if w.op.RecoverRead? && w.op.todo != [] {
      RecoverReadReply(s, s', p, w, r, minted, reply);
    } else if w.op.RecoverNotify? {
      RecoverNotifyReply(s, s', p, w, r, minted, reply);
    } else {
      AfterCarries(s, s', p, w);
      if w.op.RecoverPage? && reply.Page? {
        PageTells(s, s', p, w, RecoverTurn(w).request, reply);
      } else if w.op.RecoverMark? {
        PageCarries(s, s', p, w, w.op.rest);
      }
      Lands(s, s', p, w, RecoverResume(w, reply, |s.log|));
    }
  }

  lemma ReplyLands(s: System, s': System, p: Pid, w: Proc, r: Readings, minted: Token, reply: Reply)
    requires Runnable(w) && NextTurn(w, r, minted).Ask?
    requires Answered(s, s', p, w, r, minted, NextTurn(w, r, minted).request, reply)
    ensures Landed(s, s', p, Resume(w, r, minted, reply, |s.log|))
  {
    hide SharedOk, Effect, Grows, Knows, ClaimsOk;
    if w.op.EnqueueCreate? || w.op.EnqueueCheck? || w.op.EnqueueSend? {
      EnqueueReply(s, s', p, w, r, minted, reply);
    } else if w.op.ClaimReceive? || w.op.ClaimRead? || w.op.ClaimWrite? || w.op.ClaimDiscard? {
      ClaimReply(s, s', p, w, r, minted, reply);
    } else if w.op.RenewRead? || w.op.RenewExtend? || w.op.RenewReread? || w.op.RenewWrite? {
      RenewReply(s, s', p, w, r, minted, reply);
    } else if w.op.AbandonRead? || w.op.AbandonWrite? || w.op.AbandonRelease? {
      AbandonReply(s, s', p, w, r, minted, reply);
    } else if Completing(w.op) {
      CompleteReply(s, s', p, w, r, minted, reply);
    } else if w.op.CompleteLookup? || w.op.CompleteConfirm? {
      LookupReply(s, s', p, w, r, minted, reply);
    } else {
      RecoverReply(s, s', p, w, r, minted, reply);
    }
  }
}
