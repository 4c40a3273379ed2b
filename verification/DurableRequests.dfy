/** Every request a worker makes is justified by the facts it holds and its clock readings. */
module DurableRequests {
  import opened FlashTypes
  import opened DurableJob
  import opened DurableWorker
  import opened DurableSystem
  import opened DurableInvariant
  import opened DurableEffects

  // Worker `p`, in state `w`, is about to take a turn with readings `r` and token `minted`.
  ghost predicate Poised(s: System, p: Pid, w: Proc, r: Readings, minted: Token) {
    && SharedOk(s) && WorkerOk(s, p, w) && p in s.procs && s.procs[p] == w
    && Runnable(w) && r.Within(w.since, s.now) && minted !in s.grants
  }

  // A snapshot a worker holds is a version of the record, sound and dated no later than `t`.
  lemma SnapshotIsVersion(s: System, p: Pid, w: Proc, job: JobId, snap: Snapshot, t: real)
    requires SharedOk(s) && Knows(s, p, w.since, RecordRead(job, snap)) && w.since <= t
    ensures Known(s, job) && 1 <= snap.version <= |H(s, job)|
    ensures H(s, job)[snap.version - 1].state == snap.state && H(s, job)[snap.version - 1].when <= t
    ensures Sound(job, snap.state) && Lawful(job, H(s, job))
    ensures snap.state.contract == H(s, job)[0].state.contract && snap.state.startedAt == H(s, job)[0].state.startedAt
    ensures snap.state.Deadline() == H(s, job)[0].state.Deadline()
  {
    LawfulOk(s, job, snap.version - 1);
  }

  // The read behind a recovery that found something to deliver.
  lemma RecoveryRead(s: System, p: Pid, w: Proc)
    requires WorkerOk(s, p, w) && (w.op.RecoverNotify? || w.op.RecoverMark?)
    ensures Knows(s, p, w.since, RecordRead(w.op.snap.state.jobId, w.op.snap)) && Pending(w.op.snap.state)
    ensures w.op.RecoverMark? ==> NotifiedAt(s, w.op.notified, w.op.snap.state.jobId)
  {
    assert RecordRead(w.op.snap.state.jobId, w.op.snap) in Facts(w);
    if w.op.RecoverMark? {
      assert JobNotified(w.op.snap.state.jobId, w.op.notified) in Facts(w);
      assert Knows(s, p, w.since, JobNotified(w.op.snap.state.jobId, w.op.notified));
    }
  }

  lemma RenewalFacts(s: System, p: Pid, w: Proc)
    requires WorkerOk(s, p, w) && w.op.RenewWrite? && w.Holds(w.op.token)
    ensures w.op.renewedAt <= w.since
    ensures var job := JobOf(w, w.op.token);
            && Knows(s, p, w.since, RecordRead(job, w.op.snap)) && Knows(s, p, w.since, DeadlineIs(job, w.op.deadline))
            && Knows(s, p, w.since, RenewalExtends(job, w.op.token, w.op.snap, w.op.renewedAt, w.options.Lease()))
  {
    var job := JobOf(w, w.op.token);
    assert RecordRead(job, w.op.snap) in Facts(w) && DeadlineIs(job, w.op.deadline) in Facts(w)
           && RenewalExtends(job, w.op.token, w.op.snap, w.op.renewedAt, w.options.Lease()) in Facts(w);
  }

  lemma AcceptanceFacts(s: System, p: Pid, w: Proc)
    requires WorkerOk(s, p, w) && w.op.CompleteAccept? && w.Holds(w.op.token)
    ensures && Knows(s, p, w.since, RecordRead(JobOf(w, w.op.token), w.op.snap))
            && Knows(s, p, w.since, ResultVerified(w.op.token, w.op.verified, w.op.result))
            && Knows(s, p, w.since, ClaimIndexed(w.op.token, w.op.indexed))
  {
    hide ClaimsOk, Knows;
    assert RecordRead(JobOf(w, w.op.token), w.op.snap) in Facts(w)
           && ResultVerified(w.op.token, w.op.verified, w.op.result) in Facts(w)
           && ClaimIndexed(w.op.token, w.op.indexed) in Facts(w);
  }

  lemma ContextFor(s: System, p: Pid, w: Proc, token: Token)
    requires WorkerOk(s, p, w) && w.Holds(token)
    ensures ContextOk(s, p, token, w.claims[token])
  {
  }

  lemma EnqueueRequest(s: System, p: Pid, w: Proc, r: Readings, minted: Token)
    requires Poised(s, p, w, r, minted) && (w.op.EnqueueCreate? || w.op.EnqueueCheck? || w.op.EnqueueSend?)
    requires EnqueueTurn(w, r).Ask?
    ensures RequestOk(s, p, w, EnqueueTurn(w, r).request)
  {
    if w.op.EnqueueSend? {
      assert Knows(s, p, w.since, JobKnown(w.op.job));
    }
  }

  lemma ClaimWriteRequest(s: System, p: Pid, w: Proc, r: Readings, minted: Token)
    requires Poised(s, p, w, r, minted) && w.op.ClaimWrite? && ClaimTurn(w, r, minted).Ask?
    ensures RequestOk(s, p, w, ClaimTurn(w, r, minted).request)
  {
    var snap := w.op.snap;
    assert Knows(s, p, w.since, RecordRead(w.op.message.job, snap));
    SnapshotIsVersion(s, p, w, w.op.message.job, snap, r.t0);
    var d := ClaimDecision(w, snap, r.t0, minted).value;
    assert Legal(H(s, d.0.jobId)[snap.version - 1], Commit(d.0, d.1, s.now));
  }

  lemma ClaimRequest(s: System, p: Pid, w: Proc, r: Readings, minted: Token)
    requires Poised(s, p, w, r, minted)
    requires w.op.ClaimReceive? || w.op.ClaimRead? || w.op.ClaimWrite? || w.op.ClaimDiscard?
    requires ClaimTurn(w, r, minted).Ask?
    ensures RequestOk(s, p, w, ClaimTurn(w, r, minted).request)
  {
    if w.op.ClaimWrite? {
      ClaimWriteRequest(s, p, w, r, minted);
    } else if w.op.ClaimDiscard? {
      var m := w.op.message;
      assert MessageIs(m) in Facts(w) && JobSettled(m.job) in Facts(w);
      assert Knows(s, p, w.since, MessageIs(m)) && Knows(s, p, w.since, JobSettled(m.job));
    }
  }

  lemma RenewalIsLegal(w: Proc, prev: Commit, r: Readings, now: real)
    requires w.op.RenewWrite? && w.Holds(w.op.token) && RenewTurn(w, r).Ask? && w.options.Valid()
    requires prev.state == w.op.snap.state && Sound(prev.state.jobId, prev.state)
    requires w.op.deadline == prev.state.Deadline()
    requires prev.when <= w.op.renewedAt <= r.t0 <= now
    requires prev.state.leaseExpiresAt.Some? ==> prev.state.leaseExpiresAt.value <= w.op.renewedAt + w.options.Lease()
    ensures RenewTurn(w, r).request.WriteJob? && RenewTurn(w, r).request.version == w.op.snap.version
    ensures var req := RenewTurn(w, r).request;
            && Legal(prev, Commit(req.next, req.update, now))
            && req.next.jobId == prev.state.jobId && req.next.generation == w.claims[w.op.token].generation
            && req.update == Renewed(w.op.token, w.options.Lease(), w.op.renewedAt, r.t0)
  {
  }

  lemma RenewWriteRequest(s: System, p: Pid, w: Proc, r: Readings, minted: Token)
    requires Poised(s, p, w, r, minted) && w.op.RenewWrite? && RenewTurn(w, r).Ask?
    ensures RequestOk(s, p, w, RenewTurn(w, r).request)
  {
    var job := JobOf(w, w.op.token);
    ContextFor(s, p, w, w.op.token);
    RenewalFacts(s, p, w);
    SnapshotIsVersion(s, p, w, job, w.op.snap, r.t0);
    RenewalIsLegal(w, H(s, job)[w.op.snap.version - 1], r, s.now);
  }

  lemma RenewRequest(s: System, p: Pid, w: Proc, r: Readings, minted: Token)
    requires Poised(s, p, w, r, minted)
    requires w.op.RenewRead? || w.op.RenewExtend? || w.op.RenewReread? || w.op.RenewWrite?
    requires RenewTurn(w, r).Ask?
    ensures RequestOk(s, p, w, RenewTurn(w, r).request)
  {
    if w.op.RenewWrite? {
      RenewWriteRequest(s, p, w, r, minted);
    }
  }

  lemma AbandonRequest(s: System, p: Pid, w: Proc, r: Readings, minted: Token)
    requires Poised(s, p, w, r, minted)
    requires w.op.AbandonRead? || w.op.AbandonWrite? || w.op.AbandonRelease?
    requires AbandonTurn(w, r).Ask?
    ensures RequestOk(s, p, w, AbandonTurn(w, r).request)
  {
    if w.op.AbandonWrite? {
      var job, token, snap := JobOf(w, w.op.token), w.op.token, w.op.snap;
      ContextFor(s, p, w, token);
      assert Knows(s, p, w.since, RecordRead(job, snap));
      SnapshotIsVersion(s, p, w, job, snap, r.t0);
      var req := AbandonTurn(w, r).request;
      assert Legal(H(s, job)[snap.version - 1], Commit(req.next, req.update, s.now));
    }
  }

  lemma AcceptRequest(s: System, p: Pid, w: Proc, r: Readings, minted: Token)
    requires Poised(s, p, w, r, minted) && w.op.CompleteAccept? && CompleteTurn(w, r).Ask?
    ensures RequestOk(s, p, w, CompleteTurn(w, r).request)
  {
    hide SharedOk, Legal, Lawful, Sound, ClaimsOk, Facts;
    var job, token, snap := JobOf(w, w.op.token), w.op.token, w.op.snap;
    ContextFor(s, p, w, token);
    AcceptanceFacts(s, p, w);
    SnapshotIsVersion(s, p, w, job, snap, r.t0);
    AcceptanceIsLegal(w, w.claims[token], H(s, job)[snap.version - 1], r, s.now);
    assert EntryFor(snap.state, token) == TheEntry(s, token);
    assert Grounds(s, snap.state, snap.version, CompleteTurn(w, r).request.update);
  }

  lemma AcceptanceIsLegal(w: Proc, c: ClaimContext, prev: Commit, r: Readings, now: real)
    requires w.op.CompleteAccept? && w.Holds(w.op.token) && c == w.claims[w.op.token] && CompleteTurn(w, r).Ask?
    requires c.token == w.op.token && prev.state == w.op.snap.state && prev.when <= r.t0 <= now
    requires c.attemptId == AttemptId(prev.state.jobId, c.generation)
    ensures CompleteTurn(w, r).request.WriteJob? && CompleteTurn(w, r).request.version == w.op.snap.version
    ensures var req := CompleteTurn(w, r).request;
            Legal(prev, Commit(req.next, req.update, now)) && req.next.jobId == prev.state.jobId &&
            req.next.generation == c.generation &&
            req.update == Accepted(w.op.token, w.op.result, r.t0, w.op.verified, w.op.indexed, w.op.snap.loaded)
  {
  }

  lemma IndexRequest(s: System, p: Pid, w: Proc, r: Readings, minted: Token)
    requires Poised(s, p, w, r, minted) && w.op.CompleteIndex? && CompleteTurn(w, r).Ask?
    ensures RequestOk(s, p, w, CompleteTurn(w, r).request)
  {
    var job, token, snap := JobOf(w, w.op.token), w.op.token, w.op.snap;
    ContextFor(s, p, w, token);
    assert RecordRead(job, snap) in Facts(w) && ContractIs(job, w.op.contract) in Facts(w);
    assert Knows(s, p, w.since, RecordRead(job, snap)) && Knows(s, p, w.since, ContractIs(job, w.op.contract));
    SnapshotIsVersion(s, p, w, job, snap, r.t0);
  }

  lemma CompleteRequest(s: System, p: Pid, w: Proc, r: Readings, minted: Token)
    requires Poised(s, p, w, r, minted) && Completing(w.op) && CompleteTurn(w, r).Ask?
    ensures RequestOk(s, p, w, CompleteTurn(w, r).request)
  {
    var token := w.op.token;
    ContextFor(s, p, w, token);
    match w.op {
      case CompleteIndex(_, _, _, _, _) => IndexRequest(s, p, w, r, minted);
      case CompleteAccept(_, _, _, _, _) => AcceptRequest(s, p, w, r, minted);
      case CompleteSettle(_, result) =>
        assert Knows(s, p, w.since, ClaimAccepted(token, result));
      case _ =>
    }
  }

  // The acceptance a recovery read is still the acceptance on record.
  lemma SnapshotAcceptanceStands(s: System, p: Pid, w: Proc)
    requires SharedOk(s) && WorkerOk(s, p, w) && (w.op.RecoverNotify? || w.op.RecoverMark?)
    ensures var job, snap := w.op.snap.state.jobId, w.op.snap;
            && Knows(s, p, w.since, RecordRead(job, snap)) && Known(s, job)
            && Current(s, job).acceptedAttemptId == snap.state.acceptedAttemptId
            && Current(s, job).acceptedResult == snap.state.acceptedResult
  {
    hide SharedOk, ClaimsOk, HoldingFacts, Lawful, Legal, Sound;
    var job, snap := w.op.snap.state.jobId, w.op.snap;
    RecoveryRead(s, p, w);
    SnapshotIsVersion(s, p, w, job, snap, s.now);
    SettlementIsFinal(job, H(s, job), snap.version - 1, |H(s, job)| - 1);
  }

  lemma MarkIsLegal(w: Proc, prev: Commit, now: real)
    requires w.op.RecoverMark? && prev.state == w.op.snap.state && prev.when <= now && Pending(prev.state)
    ensures RecoverTurn(w) == Ask(WriteJob(RecoverTurn(w).request.next, w.op.snap.version, Notified))
    ensures Legal(prev, Commit(RecoverTurn(w).request.next, Notified, now))
    ensures RecoverTurn(w).request.next.jobId == prev.state.jobId
  {
  }

  lemma MarkRequest(s: System, p: Pid, w: Proc, r: Readings, minted: Token)
    requires Poised(s, p, w, r, minted) && w.op.RecoverMark?
    ensures RequestOk(s, p, w, RecoverTurn(w).request)
  {
    var job, snap := w.op.snap.state.jobId, w.op.snap;
    RecoveryRead(s, p, w);
    SnapshotIsVersion(s, p, w, job, snap, s.now);
    MarkIsLegal(w, H(s, job)[snap.version - 1], s.now);
  }

  lemma RecoverRequest(s: System, p: Pid, w: Proc, r: Readings, minted: Token)
    requires Poised(s, p, w, r, minted)
    requires w.op.RecoverPage? || w.op.RecoverRead? || w.op.RecoverNotify? || w.op.RecoverMark?
    requires RecoverTurn(w).Ask?
    ensures RequestOk(s, p, w, RecoverTurn(w).request)
  {
    if w.op.RecoverNotify? {
      SnapshotAcceptanceStands(s, p, w);
    } else if w.op.RecoverMark? {
      MarkRequest(s, p, w, r, minted);
    }
  }

  /** Whatever the worker asks of storage, queue, verifier or notifier, it is entitled to ask. */
  lemma RequestIsJustified(s: System, p: Pid, w: Proc, r: Readings, minted: Token)
    requires Poised(s, p, w, r, minted) && NextTurn(w, r, minted).Ask?
    ensures RequestOk(s, p, w, NextTurn(w, r, minted).request)
  {
    if w.op.EnqueueCreate? || w.op.EnqueueCheck? || w.op.EnqueueSend? {
      EnqueueRequest(s, p, w, r, minted);
    } else if w.op.ClaimBegin? || w.op.ClaimReceive? || w.op.ClaimRead? || w.op.ClaimWrite? || w.op.ClaimDiscard? {
      ClaimRequest(s, p, w, r, minted);
    } else if w.op.RenewRead? || w.op.RenewExtend? || w.op.RenewReread? || w.op.RenewWrite? {
      RenewRequest(s, p, w, r, minted);
    } else if w.op.AbandonRead? || w.op.AbandonWrite? || w.op.AbandonRelease? {
      AbandonRequest(s, p, w, r, minted);
    } else if Completing(w.op) {
      CompleteRequest(s, p, w, r, minted);
    } else if !w.op.CompleteLookup? && !w.op.CompleteConfirm? {
      RecoverRequest(s, p, w, r, minted);
    }
  }
}
