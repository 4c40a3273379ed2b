/** Facts about jobs, claims and workers that survive every later step. */
module DurableGrowth {
  import opened FlashTypes
  import opened DurableJob
  import opened DurableWorker
  import opened DurableSystem
  import opened DurableInvariant

  lemma JobGrows(s: System, s': System, job: JobId)
    requires Grows(s, s') && BlobsOk(s') && Known(s, job)
    ensures Known(s', job) && |H(s, job)| <= |H(s', job)|
    ensures forall i :: 0 <= i < |H(s, job)| ==> H(s', job)[i] == H(s, job)[i]
    ensures Lawful(job, H(s', job))
  {
    assert Extends(H(s, job), H(s', job));
    assert BlobOk(s', job);
  }

  /** Settlement and the accepted claim and result persist. */
  lemma SettlementPersists(s: System, s': System, job: JobId)
    requires Grows(s, s') && BlobsOk(s') && IsSettled(s, job)
    ensures IsSettled(s', job)
    ensures Current(s', job).acceptedResult == Current(s, job).acceptedResult
    ensures Current(s', job).acceptedClaimHash == Current(s, job).acceptedClaimHash
    ensures Current(s', job).acceptedAttemptId == Current(s, job).acceptedAttemptId
    ensures Current(s', job).acceptedGeneration == Current(s, job).acceptedGeneration
    ensures Current(s', job).terminalReason == Current(s, job).terminalReason
  {
    JobGrows(s, s', job);
    SettlementIsFinal(job, H(s', job), |H(s, job)| - 1, |H(s', job)| - 1);
  }

  lemma AcceptancePersists(s: System, s': System, token: Token, result: ResultJson)
    requires Grows(s, s') && BlobsOk(s') && IsAccepted(s, token, result)
    ensures IsAccepted(s', token, result)
  {
    SettlementPersists(s, s', s.grants[token].job);
  }

  lemma LogPersists(s: System, s': System, at: nat)
    requires Grows(s, s') && at < |s.log|
    ensures at < |s'.log| && s'.log[at] == s.log[at]
  {
  }

  lemma ReceivedPersists(s: System, s': System, m: Received)
    requires Grows(s, s') && BlobsOk(s') && ReceivedOk(s, m)
    ensures ReceivedOk(s', m)
  {
    JobGrows(s, s', m.job);
  }

  lemma ClaimsPersist(s: System, s': System, p: Pid, w: Proc)
    requires Grows(s, s') && BlobsOk(s') && ClaimsOk(s, p, w)
    ensures ClaimsOk(s', p, w)
  {
    forall token | token in w.claims ensures ContextOk(s', p, token, w.claims[token]) {
      assert ContextOk(s, p, token, w.claims[token]);
      ReceivedPersists(s, s', w.claims[token].message);
    }
  }

  predicate AboutJob(f: Fact) {
    f.JobKnown? || f.RecordRead? || f.DeadlineIs? || f.ContractIs? || f.RenewalExtends?
  }

  lemma JobFactPersists(s: System, s': System, p: Pid, since: real, since': real, f: Fact)
    requires Grows(s, s') && BlobsOk(s') && since <= since' && AboutJob(f) && Knows(s, p, since, f)
    ensures Knows(s', p, since', f)
  {
    JobGrows(s, s', f.job);
    if f.RecordRead? {
      LogPersists(s, s', f.snap.loaded);
    }
  }

  predicate AboutToken(f: Fact) {
    f.ResultVerified? || f.EntryIs? || f.ClaimIndexed?
  }

  lemma TokenFactPersists(s: System, s': System, p: Pid, since: real, since': real, f: Fact)
    requires Grows(s, s') && BlobsOk(s') && since <= since' && AboutToken(f) && Knows(s, p, since, f)
    ensures Knows(s', p, since', f)
  {
    JobGrows(s, s', s.grants[f.token].job);
    if !f.EntryIs? {
      LogPersists(s, s', f.at);
    }
  }

  /** Facts persist: no step of any worker can make one false again. */
  lemma FactPersists(s: System, s': System, p: Pid, since: real, since': real, f: Fact)
    requires Grows(s, s') && BlobsOk(s') && since <= since' && Knows(s, p, since, f)
    ensures Knows(s', p, since', f)
  {
    if AboutJob(f) {
      JobFactPersists(s, s', p, since, since', f);
    } else if AboutToken(f) {
      TokenFactPersists(s, s', p, since, since', f);
    } else {
      match f {
        case JobSettled(job) => SettlementPersists(s, s', job);
        case ClaimAccepted(token, result) => AcceptancePersists(s, s', token, result);
        case MessageIs(m) => ReceivedPersists(s, s', m);
        case JobNotified(_, at) => LogPersists(s, s', at);
        case _ =>
      }
    }
  }

  /** A worker that does not move keeps its part of the invariant through any growth of the system. */
  lemma WorkerPersists(s: System, s': System, p: Pid, w: Proc)
    requires Grows(s, s') && BlobsOk(s') && WorkerOk(s, p, w)
    ensures WorkerOk(s', p, w)
  {
    ClaimsPersist(s, s', p, w);
    forall f | f in Facts(w) ensures Knows(s', p, w.since, f) {
      FactPersists(s, s', p, w.since, w.since, f);
    }
  }
}
