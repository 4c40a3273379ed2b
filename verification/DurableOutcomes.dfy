/**
 What the answers of the durable workers mean, over every run: each is tied to
 the calls its worker made for it, and good calls to a good answer.
 */
module DurableOutcomes {
  import opened Basics
  import opened FlashTypes
  import opened DurableJob
  import opened DurableWorker
  import opened DurableSystem
  import opened DurableInvariant
  import opened DurableRuns
  import opened DurableRefusals
  import opened DurableRetries
  import opened DurableTheorems
  import opened DurableTraces
  import opened DurableRecoveries
  import opened DurableEnqueues
  import opened DurableCompletions
  import opened DurableLookups
  import opened DurableCalls

  // The calls worker `p` made between the two states.
  function Made(run: seq<System>, j: nat, k: nat, p: Pid): seq<Entry>
    requires j < |run| && k < |run|
  {
    Own(run[k].log, |run[j].log|, p)
  }

  lemma MadeAreLogged(run: seq<System>, j: nat, k: nat, p: Pid, i: nat) returns (n: nat)
    requires j < |run| && k < |run| && i < |Made(run, j, k, p)|
    ensures |run[j].log| <= n < |run[k].log| && run[k].log[n] == Made(run, j, k, p)[i] && run[k].log[n].worker == p
  {
    var e := Made(run, j, k, p)[i];
    OwnAreEntries(run[k].log, |run[j].log|, p, e);
    n :| |run[j].log| <= n < |run[k].log| && run[k].log[n] == e;
  }

  // ----- enqueue -----

  /** Log entry `e` sends the reference of the job, or finds the job accepted under this contract. */
  predicate Settles(e: Entry, job: JobId, contract: WorkContract) {
    || (e.request == SendMessage(job) && e.reply == Done)
    || (e.request == ReadJob(job) && e.reply.Loaded? && e.reply.state.contract == contract
        && e.reply.state.acceptedResult.Some?)
  }

  /** The queue refers to the job, or its record is accepted or terminal. */
  ghost predicate TriggeredOrOver(s: System, job: JobId) {
    || (exists id :: id in s.store.queue && s.store.queue[id].job == job)
    || (job in s.store.blobs && s.store.blobs[job] != []
        && (Last(s.store.blobs[job]).state.acceptedResult.Some? || Last(s.store.blobs[job]).state.terminalReason.Some?))
  }

  lemma ReadRecordIsVersion(s: System, n: nat)
    requires SharedOk(s) && n < |s.log| && s.log[n].request.ReadJob? && s.log[n].reply.Loaded?
    ensures var e := s.log[n];
            && Known(s, e.request.job) && e.reply.state.contract == H(s, e.request.job)[0].state.contract
            && (e.reply.state.Settled() ==> TriggeredOrOver(s, e.request.job))
  {
    var e := s.log[n];
    var job := e.request.job;
    assert EntryOk(s, e);
    assert BlobOk(s, job);
    LawfulIsSound(job, H(s, job), e.reply.version - 1);
    if e.reply.state.Settled() {
      SettlementIsFinal(job, H(s, job), e.reply.version - 1, |H(s, job)| - 1);
    }
  }

  lemma CreatedRecordIsFirst(s: System, n: nat)
    requires SharedOk(s) && n < |s.log| && s.log[n].request.CreateJob? && s.log[n].reply.Done?
    ensures var j := s.log[n].request.state; Known(s, j.jobId) && H(s, j.jobId)[0].state == j
  {
    assert EntryOk(s, s.log[n]);
  }

  /**
   An enqueue that returns has sent the reference, or has read the job's record
   as accepted under this very contract; in either case the job exists under
   this contract, and the queue refers to it unless it is over.
   */
  lemma EnqueueReturns(
    run: seq<System>, steps: seq<Step>, j: nat, k: nat, p: Pid, job: JobId, contract: WorkContract)
    requires Run(run, steps) && Undisturbed(steps, j, k, p, Enqueue(job, contract))
    requires k < |run| && p in run[k].procs && run[k].procs[p].op == Idle(Nothing)
    ensures exists n :: |run[j].log| <= n < |run[k].log| && run[k].log[n].worker == p
                        && Settles(run[k].log[n], job, contract)
    ensures Made(run, j, k, p) != [] && Registers(Made(run, j, k, p)[0], job, contract, run[j].now)
    ensures job in run[k].store.blobs && run[k].store.blobs[job] != []
    ensures run[k].store.blobs[job][0].state.contract == contract
    ensures TriggeredOrOver(run[k], job)
  {
    hide Run, Undisturbed, SharedOk, Story, Inv, TriggeredOrOver;
    CallIsTold(run, steps, j, k, p, Enqueue(job, contract));
    var own, from := Made(run, j, k, p), run[j].now;
    EnqueueStoryEnds(Called(run, j, p), job, contract, own, run[k].procs[p]);
    RunKeepsInv(run, steps, k);
    assert SharedOk(run[k]) by { InvIsShared(run[k]); }
    var first := MadeAreLogged(run, j, k, p, 0);
    var second := MadeAreLogged(run, j, k, p, 1);
    var last := MadeAreLogged(run, j, k, p, |own| - 1);
    if own[0].reply.Done? {
      CreatedRecordIsFirst(run[k], first);
    } else {
      ReadRecordIsVersion(run[k], second);
    }
    assert Settles(run[k].log[last], job, contract);
    if run[k].log[last].request.SendMessage? {
      NoTriggerIsLost(run, steps, k, last, job);
      TriggerOrSettled(run[k], job);
    } else {
      ReadRecordIsVersion(run[k], last);
    }
  }

  lemma EnqueueStoryEnds(w0: Proc, job: JobId, contract: WorkContract, own: seq<Entry>, w: Proc)
    requires Story(Enqueue(job, contract), w0, own, w) && w.op == Idle(Nothing)
    ensures Enqueued(own, job, contract) && Registers(own[0], job, contract, w0.since)
  {
  }

  lemma InvIsShared(s: System)
    requires Inv(s)
    ensures SharedOk(s)
  {
  }

  lemma TriggerOrSettled(s: System, job: JobId)
    requires HasTrigger(s, job) || IsSettled(s, job)
    ensures TriggeredOrOver(s, job)
  {
  }

  /**
   Any other end of an enqueue is its own error: the id is no safe path segment
   and no call was made, the job was read to exist under another contract, or
   the last call made raised.
   */
  lemma EnqueueRaisesOnlyIf(
    run: seq<System>, steps: seq<Step>, j: nat, k: nat, p: Pid, job: JobId, contract: WorkContract)
    requires Run(run, steps) && Undisturbed(steps, j, k, p, Enqueue(job, contract))
    requires k < |run| && p in run[k].procs && run[k].procs[p].op.Idle? && run[k].procs[p].op.last != Nothing
    ensures run[k].procs[p].op.last == OtherError(Enqueue(job, contract))
    ensures var own := Made(run, j, k, p);
            || (own == [] && !IsPathSegment(job))
            || LastRaised(own)
            || exists n :: |run[j].log| <= n < |run[k].log| && run[k].log[n].worker == p
                           && ReadsRecord(run[k].log[n], job) && run[k].log[n].reply.state.contract != contract
  {
    hide Run, Undisturbed, SharedOk, Enqueued;
    CallIsTold(run, steps, j, k, p, Enqueue(job, contract));
    var own := Made(run, j, k, p);
    assert EnqueueRaises(own, job, contract);
    if |own| == 2 {
      var n := MadeAreLogged(run, j, k, p, 1);
    }
  }

  // ----- complete -----

  /** The record of the job is accepted for this claim with this result. */
  predicate AcceptedFor(s: System, c: ClaimContext, result: ResultJson) {
    && c.jobId in s.store.blobs && s.store.blobs[c.jobId] != []
    && WonAlready(Last(s.store.blobs[c.jobId]).state, c, result)
  }

  // A claim of worker `p` is that of the grant its token stands for.
  lemma ClaimIsGranted(s: System, p: Pid, token: Token)
    requires Inv(s) && p in s.procs && token in s.procs[p].claims
    ensures var c := s.procs[p].claims[token];
            token == c.token && token in s.grants && s.grants[token] == Grant(p, c.jobId, c.generation)
  {
    hide SharedOk;
    assert WorkerOk(s, p, s.procs[p]);
    assert ContextOk(s, p, token, s.procs[p].claims[token]);
  }

  lemma AcceptedIsWon(s: System, token: Token, result: ResultJson, c: ClaimContext)
    requires Inv(s) && IsAccepted(s, token, result)
    requires c.token == token && s.grants[token].job == c.jobId && s.grants[token].generation == c.generation
    ensures AcceptedFor(s, c, result)
  {
    hide SharedOk;
    AcceptedClaimIsIndexed(s, token, result);
  }

  lemma CompletionIsTold(run: seq<System>, steps: seq<Step>, j: nat, k: nat, p: Pid, token: Token, result: ResultJson)
    requires Run(run, steps) && Undisturbed(steps, j, k, p, Complete(token, result))
    requires k < |run| && p in run[k].procs && run[k].procs[p].op.Idle?
    ensures j < k && p in run[j].procs
    ensures token in run[j].procs[p].claims ==>
              var c, w := run[j].procs[p].claims[token], run[k].procs[p];
              && c.token == token && token in run[k].grants && run[k].grants[token] == Grant(p, c.jobId, c.generation)
              && CompletionEnds(Called(run, j, p), c, result, Made(run, j, k, p), w, w.op.last)
  {
    hide Run, Undisturbed, SharedOk, CompletionEnds, WorkerOk;
    CallIsTold(run, steps, j, k, p, Complete(token, result));
    if token in run[j].procs[p].claims {
      RunKeepsInv(run, steps, j);
      ClaimIsGranted(run[j], p, token);
      RunGrows(run, steps, j, k);
    }
  }

  // A step of another worker, or of the clock, leaves `p` as it is.
  lemma OthersLeaveProc(run: seq<System>, steps: seq<Step>, i: nat, p: Pid)
    requires Run(run, steps) && i < |steps| && (steps[i].Tick? || steps[i].worker != p)
    ensures p in run[i + 1].procs ==> p in run[i].procs && run[i + 1].procs[p] == run[i].procs[p]
  {
    hide NextTurn, Resume;
    assert Enabled(run[i], steps[i]) && run[i + 1] == Apply(run[i], steps[i]);
  }

  // Only an I/O call of `p` adds to the calls it made.
  lemma OthersAddNone(run: seq<System>, steps: seq<Step>, j: nat, i: nat, p: Pid)
    requires Run(run, steps) && j <= i < |steps| && |run[j].log| <= |run[i].log|
    requires !(steps[i].Io? && steps[i].worker == p)
    ensures Made(run, j, i + 1, p) == Made(run, j, i, p)
  {
    hide NextTurn, Resume;
    assert Enabled(run[i], steps[i]) && run[i + 1] == Apply(run[i], steps[i]);
    if steps[i].Io? {
      OwnSnoc(run[i].log, |run[j].log|, p, Last(run[i + 1].log));
    }
  }

  /** The step at which an undisturbed completion ended. */
  lemma {:induction false} EndingStep(
    run: seq<System>, steps: seq<Step>, j: nat, k: nat, p: Pid, token: Token, result: ResultJson) returns (i: nat)
    requires Run(run, steps) && Undisturbed(steps, j, k, p, Complete(token, result))
    requires k < |run| && p in run[k].procs && run[k].procs[p].op.Idle?
    ensures j < i < k && Undisturbed(steps, j, i, p, Complete(token, result))
    ensures (steps[i].Io? || steps[i].Local?) && steps[i].worker == p
    ensures p in run[i + 1].procs && run[i + 1].procs[p] == run[k].procs[p]
    ensures Made(run, j, i + 1, p) == Made(run, j, k, p)
  {
    hide Run, Undisturbed, Told;
    UndisturbedBefore(steps, j, k, p, Complete(token, result));
    OthersLeaveOp(run, steps, k - 1, p);
    if (steps[k - 1].Io? || steps[k - 1].Local?) && steps[k - 1].worker == p {
      i := k - 1;
    } else {
      RunGrows(run, steps, j, k - 1);
      OthersLeaveProc(run, steps, k - 1, p);
      OthersAddNone(run, steps, j, k - 1, p);
      i := EndingStep(run, steps, j, k - 1, p, token, result);
    }
  }

  // At its step `i` the worker read the clock and found the claim not held under the record it had just read.
  ghost predicate StopsAt(run: seq<System>, steps: seq<Step>, j: nat, k: nat, i: nat, p: Pid, c: ClaimContext)
    requires j < |run| && k < |run| && i < |steps| && i < |run|
  {
    && steps[i].Local? && steps[i].worker == p && Made(run, j, i, p) == Made(run, j, k, p)
    && var own := Made(run, j, k, p);
       own != [] && ReadsRecord(Last(own), c.jobId) && !HeldAt(c, Last(own).reply.state, steps[i].readings.t0)
  }

  lemma ReplyRefusal(w0: Proc, lo: nat, c: ClaimContext, result: ResultJson, p: Pid, s: System, step: Step)
    requires Inv(s) && Enabled(s, step) && step.Io? && step.worker == p
    requires Told(w0, lo, Complete(c.token, result), p, s) && c.token in w0.claims && w0.claims[c.token] == c
    requires Apply(s, step).procs[p].op == Idle(LeaseError(Complete(c.token, result)))
    ensures RefusedByReply(Own(Apply(s, step).log, lo, p), c, result)
  {
    hide SharedOk, WorkerOk, CompletionStory, CompletionEnds, RefusedByReply, Performs, Answers, NextTurn, Resume;
    var w, own := s.procs[p], Own(s.log, lo, p);
    var e := Entry(p, NextTurn(w, step.readings, step.minted).request, step.reply, s.now);
    RepliesAnswer(s, e.request, e.reply, step.after);
    OwnSnoc(s.log, lo, p, e);
    CompletionOps(w0, c, result, own, w);
    if Completing(w.op) {
      CompletingTurns(w, step.readings, step.minted, e.reply, |s.log|);
      assert DurableCompletions.Calls(w0, c, result, own, w, step.readings, e);
      ReplyRefuses(w0, c, result, own, w, step.readings, e, |s.log|);
    } else {
      RecoveringTurns(w, step.readings, step.minted, e.reply, |s.log|);
      RecoveryRefusesNothing(w, e.reply, |s.log|);
    }
  }

  lemma RecoveryRefusesNothing(w: Proc, reply: Reply, here: nat)
    requires InRecovery(w.op)
    ensures RecoverResume(w, reply, here).op.Idle? ==> !RecoverResume(w, reply, here).op.last.LeaseError?
  {
  }

  lemma ReadingRefusal(w0: Proc, lo: nat, c: ClaimContext, result: ResultJson, p: Pid, s: System, step: Step)
    requires Inv(s) && Enabled(s, step) && step.Local? && step.worker == p
    requires Told(w0, lo, Complete(c.token, result), p, s) && c.token in w0.claims && w0.claims[c.token] == c
    ensures var own := Own(Apply(s, step).log, lo, p);
            && own == Own(s.log, lo, p)
            && own != [] && ReadsRecord(Last(own), c.jobId) && !HeldAt(c, Last(own).reply.state, step.readings.t0)
  {
    hide SharedOk, WorkerOk, CompletionStory, HeldAt, NextTurn;
    var w, own := s.procs[p], Own(s.log, lo, p);
    CompletionOps(w0, c, result, own, w);
    if InRecovery(w.op) {
      RecoveringTurns(w, step.readings, step.minted, Done, 0);
    } else {
      CompletingTurns(w, step.readings, step.minted, Done, 0);
      CompletionStops(w0, c, result, own, w, step.readings, s.now);
    }
  }

  /** A completion was refused by the last reply, or at its last step, by a reading of the clock. */
  lemma RefusalComesFrom(
    run: seq<System>, steps: seq<Step>, j: nat, k: nat, p: Pid, token: Token, result: ResultJson)
    requires Run(run, steps) && Undisturbed(steps, j, k, p, Complete(token, result))
    requires k < |run| && p in run[k].procs && run[k].procs[p].op == Idle(LeaseError(Complete(token, result)))
    requires p in run[j].procs && token in run[j].procs[p].claims
    ensures var c := run[j].procs[p].claims[token];
            || RefusedByReply(Made(run, j, k, p), c, result)
            || exists i :: j < i < k && StopsAt(run, steps, j, k, i, p, c)
  {
    hide Undisturbed, SharedOk, RefusedByReply, HeldAt, Told, WorkerOk;
    var i := EndingStep(run, steps, j, k, p, token, result);
    RunKeepsInv(run, steps, i);
    CallIsTold(run, steps, j, i, p, Complete(token, result));
    RunKeepsInv(run, steps, j);
    ClaimIsGranted(run[j], p, token);
    assert Enabled(run[i], steps[i]) && run[i + 1] == Apply(run[i], steps[i]);
    if steps[i].Io? {
      ReplyRefusal(Called(run, j, p), |run[j].log|, run[j].procs[p].claims[token], result, p, run[i], steps[i]);
    } else {
      ReadingRefusal(Called(run, j, p), |run[j].log|, run[j].procs[p].claims[token], result, p, run[i], steps[i]);
      assert StopsAt(run, steps, j, k, i, p, run[j].procs[p].claims[token]);
    }
  }

/**
   How a completion on a held claim ends, by the calls it made.  Normally: it won
   the job, took its message off the queue, recovered a page, and the record is
   accepted for the claim.  With a verification error: the verifier rejected this
   result under the job's contract.  With a lease error: the claim was not held,
   or lost to another acceptance, or the index or a conflict stood against it.
   With any other error: its last call raised.
   */
  lemma CompletionEndsBy(run: seq<System>, steps: seq<Step>, j: nat, k: nat, p: Pid, token: Token, result: ResultJson)
    requires Run(run, steps) && Undisturbed(steps, j, k, p, Complete(token, result))
    requires k < |run| && p in run[k].procs && run[k].procs[p].op.Idle?
    requires p in run[j].procs && token in run[j].procs[p].claims
    ensures var c, own, w := run[j].procs[p].claims[token], Made(run, j, k, p), run[k].procs[p];
            match w.op.last
            case Completed(t, r) =>
              && t == token && r == result && token !in w.claims
              && Completes(own, c, result, w.options.recoveryScanLimit) && AcceptedFor(run[k], c, result)
            case VerificationError(call) =>
              && call == Complete(token, result) && own != [] && Last(own).reply.Rejected?
              && c.jobId in run[k].store.blobs && run[k].store.blobs[c.jobId] != []
              && Last(own).request == Verify(run[k].store.blobs[c.jobId][0].state.contract, result)
            case LeaseError(call) =>
              && call == Complete(token, result)
              && (RefusedByReply(own, c, result) || exists i :: j < i < k && StopsAt(run, steps, j, k, i, p, c))
            case OtherError(call) => call == Complete(token, result) && CompletionRaises(own, c, result)
            case _ => false
  {
    hide Run, Undisturbed, SharedOk, Completes, CompletionRefused, CompletionRaises, WorkerOk, RefusedByReply, StopsAt;
    CompletionIsTold(run, steps, j, k, p, token, result);
    RunKeepsInv(run, steps, k);
    var last := run[k].procs[p].op.last;
    if last.Completed? {
      CompletionMeansAcceptance(run, steps, k, p, token, result);
      AcceptedIsWon(run[k], token, result, run[j].procs[p].claims[token]);
    } else if last.VerificationError? {
      var n := MadeAreLogged(run, j, k, p, 0);
      ReadRecordIsVersion(run[k], n);
    } else if last.LeaseError? {
      RefusalComesFrom(run, steps, j, k, p, token, result);
    }
  }

  // Entry `e` bodes well for a completion on `c`: a record read is not accepted yet, the
  // verifier approves, an upload is done.
  predicate BodesWell(e: Entry, c: ClaimContext) {
    && (ReadsRecord(e, c.jobId) ==> e.reply.state.acceptedResult == None)
    && (e.request.Verify? ==> e.reply.Approved?)
    && (e.request.PutIndex? || e.request.WriteJob? ==> e.reply.Done?)
  }

  // No call raised, and all those up to the deletion of the message bode well.
  ghost predicate GoesWell(own: seq<Entry>, c: ClaimContext) {
    && NoneRaised(own)
    && forall i :: 0 <= i < |own| && NoDelete(own[..i]) ==> BodesWell(own[i], c)
  }

  // Whenever the worker read the clock right after the record, the claim was held under that record.
  ghost predicate HeldAtReadings(run: seq<System>, steps: seq<Step>, j: nat, k: nat, p: Pid, c: ClaimContext)
    requires j < k < |run| && k <= |steps|
  {
    forall i :: j < i < k && (steps[i].Local? || steps[i].Io?) && steps[i].worker == p ==>
      ShowsHeld(Made(run, j, i, p), c, steps[i].readings.t0)
  }

  predicate ShowsHeld(own: seq<Entry>, c: ClaimContext, t: real) {
    own != [] && ReadsRecord(Last(own), c.jobId) && NoDelete(own) ==> HeldAt(c, Last(own).reply.state, t)
  }

  predicate NoneRaised(own: seq<Entry>) {
    forall i :: 0 <= i < |own| && !own[i].request.Notify? ==>
      !own[i].reply.Failed? && !(own[i].request.ReadJob? && own[i].reply.Missing?)
  }

  lemma GoingWellTells(own: seq<Entry>, c: ClaimContext)
    requires GoesWell(own, c) && own != []
    ensures !LastRaised(own)
    ensures NoDelete(own[..|own| - 1]) ==> BodesWell(Last(own), c)
    ensures |own| == 5 && NoDelete(own[..3]) ==> BodesWell(own[3], c)
  {
  }

  lemma WellEndsWell(w0: Proc, c: ClaimContext, result: ResultJson, own: seq<Entry>, w: Proc, last: Outcome)
    requires CompletionEnds(w0, c, result, own, w, last) && GoesWell(own, c)
    ensures last.Completed? || last.LeaseError?
    ensures last.LeaseError? ==> NoDelete(own) && !RefusedByReply(own, c, result)
  {
    hide Completes, GoesWell;
    if own != [] {
      GoingWellTells(own, c);
    }
  }

  /**
   A completion on a held claim succeeds if nothing stands against it: whenever
   it read the clock after the record, the claim was held under that record, the
   verifier approved, the uploads were done and no call raised.  It then returns
   the result and the job is accepted for it.
   */
  lemma HeldCompletionSucceeds(
    run: seq<System>, steps: seq<Step>, j: nat, k: nat, p: Pid, token: Token, result: ResultJson)
    requires Run(run, steps) && Undisturbed(steps, j, k, p, Complete(token, result))
    requires j < k < |run| && k <= |steps| && p in run[k].procs && run[k].procs[p].op.Idle?
    requires p in run[j].procs && token in run[j].procs[p].claims
    requires GoesWell(Made(run, j, k, p), run[j].procs[p].claims[token])
    requires HeldAtReadings(run, steps, j, k, p, run[j].procs[p].claims[token])
    ensures run[k].procs[p].op.last == Completed(token, result)
    ensures AcceptedFor(run[k], run[j].procs[p].claims[token], result)
  {
    hide Run, Undisturbed, SharedOk, CompletionEnds, GoesWell, AcceptedFor, RefusedByReply, Completes, CompletionRaises;
    CompletionIsTold(run, steps, j, k, p, token, result);
    var c, own, w := run[j].procs[p].claims[token], Made(run, j, k, p), run[k].procs[p];
    WellEndsWell(Called(run, j, p), c, result, own, w, w.op.last);
    CompletionEndsBy(run, steps, j, k, p, token, result);
    forall i | j < i < k && StopsAt(run, steps, j, k, i, p, c) ensures !w.op.last.LeaseError? {
      assert ShowsHeld(Made(run, j, i, p), c, steps[i].readings.t0);
    }
  }

  /**
   How a completion ends whose worker no longer holds the claim.  Normally: the
   index names the job of the token, and its record is accepted for that claim
   with this result.  With a lease error: the index does not know the token, or
   the record is not so accepted.  With any other error: the last call raised.
   */
  lemma RepeatedCompletionEndsBy(
    run: seq<System>, steps: seq<Step>, j: nat, k: nat, p: Pid, token: Token, result: ResultJson)
    requires Run(run, steps) && Undisturbed(steps, j, k, p, Complete(token, result))
    requires k < |run| && p in run[k].procs && run[k].procs[p].op.Idle?
    requires p in run[j].procs && token !in run[j].procs[p].claims
    ensures var own, w := Made(run, j, k, p), run[k].procs[p];
            && w.claims == run[j].procs[p].claims
            && match w.op.last
               case Completed(t, r) =>
                 && t == token && r == result && FindsAccepted(own, token, result)
                 && |own| > 3 && RecoveredBy(own, 2, |own| - 1, w.options.recoveryScanLimit)
               case LeaseError(call) => call == Complete(token, result) && LookupRefused(own, token, result)
               case OtherError(call) => call == Complete(token, result) && LastRaised(own)
               case _ => false
  {
    hide Run, Undisturbed, SharedOk, FindsAccepted, LookupRefused, LastRaised, RecoveredBy, Recovering;
    CallIsTold(run, steps, j, k, p, Complete(token, result));
  }
}
