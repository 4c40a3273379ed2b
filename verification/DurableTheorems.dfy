/** What the durable delivery protocol guarantees, over every run of every number of workers. */
module DurableTheorems {
  import opened Basics
  import opened FlashTypes
  import opened DurableJob
  import opened DurableWorker
  import opened DurableSystem
  import opened DurableInvariant
  import opened DurableGrowth
  import opened DurableEffects
  import opened DurableRequests
  import opened DurableRuns
  import opened DurableRefusals
  import LM = LeaseMachine

  /** In every reachable state, the committed history of every job is a run of the in-memory lease machine. */
  lemma ProtocolRefinesLeaseMachine(run: seq<System>, steps: seq<Step>, i: nat, job: JobId)
    requires Run(run, steps) && i < |run| && job in run[i].store.blobs
    ensures Known(run[i], job)
    ensures var h := H(run[i], job);
            && LM.Run(TermsOf(h[0].state), Machines(h), Actions(h), Times(h))
            && LM.RenewalsExtend(Machines(h), Actions(h))
  {
    RunKeepsInv(run, steps, i);
    LawfulOk(run[i], job, 0) by { assert BlobOk(run[i], job); }
    HistoryRefinesLeaseMachine(job, H(run[i], job));
  }

  /**
   Attempts are counted by generations and stay within budget, every lease ends
   by the wall deadline, a claim is granted only over a lease that is absent or
   over by the claim's own clock, and a renewal never shortens a lease.
   */
  lemma LeasesAreBounded(run: seq<System>, steps: seq<Step>, i: nat, job: JobId, n: nat)
    requires Run(run, steps) && i < |run| && Known(run[i], job) && n < |H(run[i], job)|
    ensures var h := H(run[i], job);
            var j := h[n].state;
            && j.generation == j.attemptNumber <= j.contract.budget.maxAttempts
            && (j.leaseExpiresAt.Some? ==> j.leaseExpiresAt.value <= j.Deadline())
            && (h[n].update.Claimed? && n > 0 ==>
                  && j.generation == h[n - 1].state.generation + 1 && h[n].update.at < j.Deadline()
                  && (h[n - 1].state.leaseExpiresAt.Some? ==> h[n - 1].state.leaseExpiresAt.value <= h[n].update.at))
            && (h[n].update.Renewed? && n > 0 ==>
                  && j.leaseExpiresAt.Some? && h[n - 1].state.leaseExpiresAt.Some?
                  && h[n - 1].state.leaseExpiresAt.value <= j.leaseExpiresAt.value)
  {
    RunKeepsInv(run, steps, i);
    LawfulOk(run[i], job, n);
    if n > 0 {
      LawfulOk(run[i], job, n - 1);
      assert Legal(H(run[i], job)[n - 1], H(run[i], job)[n]);
    }
  }

  /** At any claim, every earlier lease of the job has ended, or its holder had abandoned it, by the claim's clock. */
  lemma LeasesOfAJobNeverOverlap(run: seq<System>, steps: seq<Step>, i: nat, job: JobId, m: nat, n: nat)
    requires Run(run, steps) && i < |run| && Known(run[i], job) && m < n < |H(run[i], job)|
    requires H(run[i], job)[n].update.Claimed? && H(run[i], job)[m].state.leaseExpiresAt.Some?
    ensures var h := H(run[i], job);
            h[m].state.leaseExpiresAt.value <= h[n].update.at ||
            exists a :: m < a < n && h[a].update.Abandoned? && h[a].update.at <= h[n].update.at &&
                        h[a].state.generation == h[m].state.generation
  {
    RunKeepsInv(run, steps, i);
    LawfulOk(run[i], job, 0);
    GenerationsNeverOverlap(job, H(run[i], job), m, n);
  }

  /** At most one acceptance per job, ever; accepted and terminal exclude each other and are both for good. */
  lemma AcceptedOnceAndForAll(run: seq<System>, steps: seq<Step>, i: nat, k: nat, job: JobId)
    requires Run(run, steps) && i <= k < |run| && Known(run[i], job)
    ensures Known(run[k], job)
    ensures var j, j' := Current(run[i], job), Current(run[k], job);
            && (j.acceptedResult.Some? ==>
                  && j'.acceptedResult == j.acceptedResult && j'.acceptedGeneration == j.acceptedGeneration
                  && j'.acceptedAttemptId == j.acceptedAttemptId && j'.acceptedClaimHash == j.acceptedClaimHash)
            && (j.terminalReason.Some? ==> j'.terminalReason == j.terminalReason && j'.acceptedResult.None?)
            && !(j'.acceptedResult.Some? && j'.terminalReason.Some?)
    ensures forall m, n | 0 < m < |H(run[k], job)| && 0 < n < |H(run[k], job)| ::
              (H(run[k], job)[m].update.Accepted? && H(run[k], job)[n].update.Accepted? ==> m == n)
  {
    RunKeepsInv(run, steps, i);
    RunKeepsInv(run, steps, k);
    RunGrows(run, steps, i, k);
    JobGrows(run[i], run[k], job);
    LawfulOk(run[k], job, |H(run[k], job)| - 1);
    if IsSettled(run[i], job) {
      SettlementPersists(run[i], run[k], job);
    }
    var h := H(run[k], job);
    forall m, n | 0 < m < |h| && 0 < n < |h| && h[m].update.Accepted? && h[n].update.Accepted? ensures m == n {
      AtMostOneAcceptance(job, h, m, n);
    }
  }

  /** No trigger, duplicate or not, ever terminalizes a job while a lease on it is live. */
  lemma LiveAttemptsAreSpared(run: seq<System>, steps: seq<Step>, i: nat, job: JobId, n: nat)
    requires Run(run, steps) && i < |run| && Known(run[i], job) && 0 < n < |H(run[i], job)|
    requires H(run[i], job)[n].update.Terminated?
    ensures var prev, c := H(run[i], job)[n - 1].state, H(run[i], job)[n];
            && !prev.Live(c.update.at) && prev.acceptedResult.None?
            && (prev.leaseExpiresAt.Some? ==> prev.leaseExpiresAt.value <= c.update.at)
            && (prev.attemptNumber == prev.contract.budget.maxAttempts || prev.Deadline() <= c.update.at)
  {
    RunKeepsInv(run, steps, i);
    LawfulOk(run[i], job, n - 1);
    TerminationSparesLiveLeases(job, H(run[i], job), n);
    assert Legal(H(run[i], job)[n - 1], H(run[i], job)[n]);
  }

  /**
   The commit point of every acceptance.  Its worker had, in this order, the
   verifier approve this very result under the job's contract, this claim's
   index entry written or found already written, and a fresh read of exactly the
   version the acceptance replaces; the claim was current in that version, and
   unexpired at a clock reading taken after that read.
   */
  lemma AcceptanceCommitPoint(run: seq<System>, steps: seq<Step>, i: nat, job: JobId, n: nat)
    requires Run(run, steps) && i < |run| && Known(run[i], job) && 0 < n < |H(run[i], job)|
    requires H(run[i], job)[n].update.Accepted?
    ensures var s := run[i];
            var prev, c := H(s, job)[n - 1].state, H(s, job)[n];
            var u := c.update;
            && u.token in s.grants
            && var p := s.grants[u.token].worker;
            && u.verified < u.indexed < u.loaded < |s.log|
            && s.log[u.verified].worker == p && s.log[u.verified].request == Verify(prev.contract, u.result)
            && s.log[u.verified].reply == Approved
            && IndexedAt(s, u.indexed, p, EntryFor(prev, u.token))
            && s.log[u.loaded].worker == p && s.log[u.loaded].request == ReadJob(job)
            && s.log[u.loaded].reply == Loaded(prev, n)
            && s.log[u.loaded].when <= u.at <= c.when
            && prev.leaseId == Some(Sha256(u.token)) && prev.generation == s.grants[u.token].generation
            && prev.leaseExpiresAt.Some? && u.at < prev.leaseExpiresAt.value && u.at < prev.Deadline()
            && c.state.acceptedResult == Some(u.result) && c.state.acceptedGeneration == Some(prev.generation)
  {
    RunKeepsInv(run, steps, i);
    LawfulOk(run[i], job, n - 1);
    assert Legal(H(run[i], job)[n - 1], H(run[i], job)[n]);
    assert AcceptanceOk(run[i], job, n) && HolderOk(run[i], job, n);
  }

  lemma RunExtends(run: seq<System>, steps: seq<Step>, step: Step)
    requires Run(run, steps) && Enabled(Last(run), step)
    ensures Run(run + [Apply(Last(run), step)], steps + [step])
  {
  }

  // The accepting write of worker `p`, checked against the clock when its snapshot was read.
  function LateAcceptance(s: System, p: Pid, minted: Token): Step
    requires p in s.procs && s.procs[p].op.CompleteAccept? && Runnable(s.procs[p])
    requires NextTurn(s.procs[p], AtOnce(s.procs[p]), minted).Ask?
  {
    var w := s.procs[p];
    var req := NextTurn(w, AtOnce(w), minted).request;
    var job := req.next.jobId;
    Io(p, AtOnce(w), minted, Done,
       if job in s.store.blobs then Committed(s.store, job, Commit(req.next, req.update, s.now)) else s.store)
  }

  function AtOnce(w: Proc): Readings {
    Readings(w.since, w.since, w.since, w.since, w.since)
  }

  /**
   The check is not the commit: any run that has come to an accepting write whose
   check passes can go on by the clock running past the end of the lease, and
   then by the write taking effect.
   */
  lemma AcceptanceCanOutliveItsLease(run: seq<System>, steps: seq<Step>, p: Pid, minted: Token, late: real)
    requires Run(run, steps) && minted !in Last(run).grants && Last(run).now <= late
    requires p in Last(run).procs && Last(run).procs[p].op.CompleteAccept? && Runnable(Last(run).procs[p])
    requires NextTurn(Last(run).procs[p], AtOnce(Last(run).procs[p]), minted).Ask?
    requires var j := Last(run).procs[p].op.snap.state;
             CanCommit(Last(run).store, j.jobId, Last(run).procs[p].op.snap.version) &&
             j.leaseExpiresAt.Some? && j.leaseExpiresAt.value <= late
    ensures var ticked := Last(run).(now := late);
            var last := LateAcceptance(ticked, p, minted);
            && Enabled(ticked, last)
            && Run(run + [ticked] + [Apply(ticked, last)], steps + [Tick(late)] + [last])
            && var c := Last(Apply(ticked, last).store.blobs[Last(run).procs[p].op.snap.state.jobId]);
               c.update.Accepted? && c.when == late && c.state.leaseExpiresAt.Some? &&
               c.state.leaseExpiresAt.value <= c.when
  {
    hide SharedOk, ClaimsOk, OpOk;
    RunKeepsInv(run, steps, |run| - 1);
    var s := Last(run);
    var ticked := s.(now := late);
    assert WorkerOk(s, p, s.procs[p]);
    RunExtends(run, steps, Tick(late));
    assert Apply(s, Tick(late)) == ticked && Last(run + [ticked]) == ticked;
    var last := LateAcceptance(ticked, p, minted);
    assert Enabled(ticked, last);
    RunExtends(run + [ticked], steps + [Tick(late)], last);
  }

  /**
   Fencing: once a claim of some generation is committed, every later renewal,
   abandonment or acceptance of the job comes from a holder of that generation
   or a newer one.
   */
  lemma OldGenerationsAreFenced(run: seq<System>, steps: seq<Step>, i: nat, job: JobId, m: nat, n: nat)
    requires Run(run, steps) && i < |run| && Known(run[i], job) && m < n < |H(run[i], job)|
    requires var u := H(run[i], job)[n].update; u.Renewed? || u.Abandoned? || u.Accepted?
    ensures H(run[i], job)[n].update.token in run[i].grants
    ensures run[i].grants[H(run[i], job)[n].update.token].job == job
    ensures H(run[i], job)[m].state.generation <= run[i].grants[H(run[i], job)[n].update.token].generation
  {
    RunKeepsInv(run, steps, i);
    LawfulOk(run[i], job, n);
    LawfulIsOrdered(job, H(run[i], job), m, n);
    assert HolderOk(run[i], job, n);
  }

  /** A completion returns normally only for the accepted token and result of the job. */
  lemma CompletionMeansAcceptance(run: seq<System>, steps: seq<Step>, i: nat, p: Pid, token: Token, result: ResultJson)
    requires Run(run, steps) && i < |run| && p in run[i].procs
    requires run[i].procs[p].op == Idle(Completed(token, result))
    ensures IsAccepted(run[i], token, result)
  {
    RunKeepsInv(run, steps, i);
    assert WorkerOk(run[i], p, run[i].procs[p]);
    assert Knows(run[i], p, run[i].procs[p].since, ClaimAccepted(token, result));
  }

  /** Any two normal completions of one job, by any workers at any times, agree on token and result. */
  lemma CompletionsAgree(run: seq<System>, steps: seq<Step>, i: nat, k: nat, p: Pid, q: Pid,
                         token: Token, result: ResultJson, token': Token, result': ResultJson)
    requires Run(run, steps) && i <= k < |run| && p in run[i].procs && q in run[k].procs
    requires run[i].procs[p].op == Idle(Completed(token, result))
    requires run[k].procs[q].op == Idle(Completed(token', result'))
    requires token in run[i].grants && token' in run[k].grants && run[i].grants[token].job == run[k].grants[token'].job
    ensures token == token' && result == result'
  {
    CompletionMeansAcceptance(run, steps, i, p, token, result);
    CompletionMeansAcceptance(run, steps, k, q, token', result');
    RunKeepsInv(run, steps, k);
    RunGrows(run, steps, i, k);
    AcceptancePersists(run[i], run[k], token, result);
  }

  /** An accepted job has its index entry under the winning token, agreeing with the record, from then on. */
  lemma AcceptanceIsIndexedForGood(run: seq<System>, steps: seq<Step>, i: nat, k: nat, token: Token, result: ResultJson)
    requires Run(run, steps) && i <= k < |run| && IsAccepted(run[i], token, result)
    ensures IsAccepted(run[k], token, result)
    ensures Sha256(token) in run[k].store.index && run[k].store.index[Sha256(token)] == TheEntry(run[k], token)
    ensures var j := Current(run[k], run[k].grants[token].job);
            && j.acceptedGeneration == Some(run[k].store.index[Sha256(token)].generation)
            && j.acceptedAttemptId == Some(run[k].store.index[Sha256(token)].attemptId)
  {
    RunKeepsInv(run, steps, k);
    RunGrows(run, steps, i, k);
    AcceptancePersists(run[i], run[k], token, result);
    AcceptedClaimIsIndexed(run[k], token, result);
  }

  /** Once a reference has been sent, the queue holds one for that job or the job is durably accepted or terminal. */
  lemma NoTriggerIsLost(run: seq<System>, steps: seq<Step>, i: nat, n: nat, job: JobId)
    requires Run(run, steps) && i < |run| && n < |run[i].log|
    requires run[i].log[n].request == SendMessage(job) && run[i].log[n].reply == Done
    ensures HasTrigger(run[i], job) || IsSettled(run[i], job)
  {
    RunKeepsInv(run, steps, i);
    assert EntryOk(run[i], run[i].log[n]);
  }

  // No step of any worker takes the trigger of an unsettled job away.
  lemma StepKeepsTrigger(s: System, step: Step, job: JobId)
    requires Inv(s) && Enabled(s, step) && (HasTrigger(s, job) || IsSettled(s, job))
    ensures HasTrigger(Apply(s, step), job) || IsSettled(Apply(s, step), job)
  {
    if step.Io? {
      var p := step.worker;
      var w, s' := s.procs[p], Apply(s, step);
      assert WorkerOk(s, p, w);
      RequestIsJustified(s, p, w, step.readings, step.minted);
      IoIsEffect(s, step);
      StepKeepsInv(s, step);
      TriggersKept(s, s', p, w, NextTurn(w, step.readings, step.minted).request, step.reply, job);
    } else {
      assert Apply(s, step).store == s.store;
    }
  }

  /** A reference once in the queue stays there, in some message, until its job is durably accepted or terminal. */
  lemma {:induction false} TriggersStay(run: seq<System>, steps: seq<Step>, i: nat, k: nat, job: JobId)
    requires Run(run, steps) && i <= k < |run| && HasTrigger(run[i], job)
    ensures HasTrigger(run[k], job) || IsSettled(run[k], job)
  {
    if i < k {
      TriggersStay(run, steps, i, k - 1, job);
      RunKeepsInv(run, steps, k - 1);
      StepKeepsTrigger(run[k - 1], steps[k - 1], job);
      assert run[k - 1 + 1] == Apply(run[k - 1], steps[k - 1]);
    }
  }

  /** A send that takes effect puts the reference into the queue, whether or not its response arrives. */
  lemma StoredSendsAreTriggers(run: seq<System>, steps: seq<Step>, i: nat, k: nat, job: JobId)
    requires Run(run, steps) && i < k < |run| && steps[i].Io?
    requires NextTurn(run[i].procs[steps[i].worker], steps[i].readings, steps[i].minted).request == SendMessage(job)
    requires steps[i].reply.Done? || run[i + 1].store != run[i].store
    ensures HasTrigger(run[i + 1], job)
    ensures HasTrigger(run[k], job) || IsSettled(run[k], job)
  {
    var s, s' := run[i], run[i + 1];
    assert s'.store == steps[i].after;
    assert s.store.serial in s'.store.queue && s'.store.queue[s.store.serial].job == job;
    TriggersStay(run, steps, i + 1, k, job);
  }

  /** A queue message is deleted only for a job already accepted or terminal, and only a message of that job. */
  lemma DeletionFollowsOutcome(run: seq<System>, steps: seq<Step>, i: nat)
    requires Run(run, steps) && i < |steps| && steps[i].Io?
    requires NextTurn(run[i].procs[steps[i].worker], steps[i].readings, steps[i].minted).request.DeleteMessage?
    ensures var req := NextTurn(run[i].procs[steps[i].worker], steps[i].readings, steps[i].minted).request;
            IsSettled(run[i], req.job) && (req.id in run[i].store.queue ==> run[i].store.queue[req.id].job == req.job)
  {
    RunKeepsInv(run, steps, i);
    var p := steps[i].worker;
    assert WorkerOk(run[i], p, run[i].procs[p]);
    RequestIsJustified(run[i], p, run[i].procs[p], steps[i].readings, steps[i].minted);
  }

  /** An accepted job is either pending or sent, an unaccepted one neither, and sent means a notifier call succeeded. */
  lemma OutboxIsExact(run: seq<System>, steps: seq<Step>, i: nat, job: JobId)
    requires Run(run, steps) && i < |run| && Known(run[i], job)
    ensures var j := Current(run[i], job);
            && (j.acceptedResult.Some? ==> j.notificationPending != j.notificationSent)
            && (j.acceptedResult.None? ==> !j.notificationPending && !j.notificationSent)
            && (j.notificationSent ==> exists n: nat :: NotifiedAt(run[i], n, job))
  {
    RunKeepsInv(run, steps, i);
    LawfulOk(run[i], job, |H(run[i], job)| - 1);
    assert SentOk(run[i], job);
  }

  /** All notifier calls ever made for a job carry the same attempt id and the same, accepted, result. */
  lemma NotificationsAgree(run: seq<System>, steps: seq<Step>, i: nat, m: nat, n: nat)
    requires Run(run, steps) && i < |run| && m < |run[i].log| && n < |run[i].log|
    requires run[i].log[m].request.Notify? && run[i].log[n].request.Notify?
    requires run[i].log[m].request.job == run[i].log[n].request.job
    ensures run[i].log[m].request == run[i].log[n].request
    ensures var req := run[i].log[n].request;
            && Known(run[i], req.job)
            && Current(run[i], req.job).acceptedResult == Some(req.result)
            && Current(run[i], req.job).acceptedAttemptId == Some(req.attempt)
  {
    RunKeepsInv(run, steps, i);
    assert EntryOk(run[i], run[i].log[m]) && EntryOk(run[i], run[i].log[n]);
  }

  /** Two workers never both hold a current claim on one job. */
  lemma ClaimsAreExclusive(run: seq<System>, steps: seq<Step>, i: nat, p: Pid, q: Pid, a: Token, b: Token, t: real)
    requires Run(run, steps) && i < |run| && p in run[i].procs && q in run[i].procs
    requires a in run[i].procs[p].claims && b in run[i].procs[q].claims
    requires var c, d := run[i].procs[p].claims[a], run[i].procs[q].claims[b];
             && c.jobId == d.jobId && Known(run[i], c.jobId)
             && RequireClaim(c, Current(run[i], c.jobId), t) && RequireClaim(d, Current(run[i], c.jobId), t)
    ensures a == b && p == q
  {
    RunKeepsInv(run, steps, i);
    assert WorkerOk(run[i], p, run[i].procs[p]) && WorkerOk(run[i], q, run[i].procs[q]);
    assert ContextOk(run[i], p, a, run[i].procs[p].claims[a]) && ContextOk(run[i], q, b, run[i].procs[q].claims[b]);
  }
}
