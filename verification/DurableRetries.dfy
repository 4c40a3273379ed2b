/**
 How completions end: in their own result or an error of that very call, and for
 the winning completion in nothing worse than a storage or queue call that fails.
 */
module DurableRetries {
  import opened FlashTypes
  import opened DurableWorker
  import opened DurableSystem
  import opened DurableInvariant
  import opened DurableGrowth
  import opened DurableEffects
  import opened DurableReplies
  import opened DurableRuns
  import opened DurableRefusals

  predicate FailsCompletion(op: Op, token: Token, result: ResultJson) {
    op == Idle(OtherError(Complete(token, result)))
  }

  // The calls that go to storage or the queue, in contrast to the verifier and the notifier.
  predicate ToStorage(req: Request) {
    !req.Verify? && !req.Notify?
  }

  // ----- where a failed completion comes from -----

  lemma CompleteFailures(w: Proc, r: Readings, reply: Reply, here: nat, token: Token, result: ResultJson)
    requires Completing(w.op) && w.Holds(w.op.token) && CompleteTurn(w, r).Ask?
    requires FailsCompletion(CompleteResume(w, r, reply, here).op, token, result)
    ensures w.op.token == token && w.op.result == result
    ensures w.op.CompleteRead? ==> CompleteTurn(w, r).request == ReadJob(JobOf(w, token)) && !reply.Loaded?
    ensures w.op.CompleteSettle? ==> CompleteTurn(w, r).request.DeleteMessage? && !reply.Done? && !reply.Gone?
    ensures CompleteTurn(w, r).request.WriteJob? ==> !reply.Done? && !reply.Conflict?
  {
  }

  lemma LookupFailures(w: Proc, reply: Reply, token: Token, result: ResultJson)
    requires w.op.CompleteLookup? || w.op.CompleteConfirm?
    requires FailsCompletion(LookupResume(w, reply).op, token, result)
    ensures w.op.CompleteLookup? ==> LookupTurn(w).request.ReadIndex? && !reply.Missing? && !reply.Found?
    ensures w.op.CompleteConfirm? ==> LookupTurn(w).request == ReadJob(w.op.index.jobId) && !reply.Loaded?
  {
  }

  lemma RecoverFailures(w: Proc, reply: Reply, here: nat, token: Token, result: ResultJson)
    requires w.op.RecoverPage? || w.op.RecoverRead? || w.op.RecoverNotify? || w.op.RecoverMark?
    requires FailsCompletion(RecoverResume(w, reply, here).op, token, result)
    ensures var req := RecoverTurn(w).request;
            || (req.ListJobs? && !reply.Page?)
            || (req.SaveCursor? && !reply.Done? && !reply.Conflict?)
            || (req.WriteJob? && !reply.Done? && !reply.Conflict?)
            || (req.ReadJob? && !reply.Loaded? && w.op.RecoverRead? && w.op.todo != [] && req.job == w.op.todo[0])
  {
  }

  lemma OthersFailElsewhere(
    w: Proc, r: Readings, minted: Token, reply: Reply, here: nat, token: Token, result: ResultJson)
    requires Runnable(w) && NextTurn(w, r, minted).Ask?
    requires !Completing(w.op) && !w.op.CompleteLookup? && !w.op.CompleteConfirm?
    requires !w.op.RecoverPage? && !w.op.RecoverRead? && !w.op.RecoverNotify? && !w.op.RecoverMark?
    ensures !FailsCompletion(Resume(w, r, minted, reply, here).op, token, result)
  {
  }

  lemma MoveNeverFails(w: Proc, r: Readings, minted: Token, token: Token, result: ResultJson)
    requires Runnable(w) && NextTurn(w, r, minted).Move?
    ensures !FailsCompletion(NextTurn(w, r, minted).proc.op, token, result)
  {
  }

  lemma BeginNeverFails(w: Proc, call: Call, token: Token, result: ResultJson)
    ensures !FailsCompletion(Begin(w, call).op, token, result)
  {
  }

  // ----- what the service may have answered -----

  // A read of an existing record is answered with the record, or fails.
  lemma KnownIsRead(s: System, s': System, p: Pid, w: Proc, job: JobId, reply: Reply)
    requires Effect(s, s', p, w, ReadJob(job), reply) && Known(s, job)
    ensures reply.Loaded? || reply.Failed?
  {
  }

  lemma ServiceAnswers(s: System, s': System, p: Pid, w: Proc, req: Request, reply: Reply)
    requires Effect(s, s', p, w, req, reply)
    ensures req.ReadIndex? ==> reply.Missing? || reply.Found? || reply.Failed?
    ensures req.DeleteMessage? ==> reply.Done? || reply.Gone? || reply.Failed?
    ensures req.WriteJob? || req.SaveCursor? ==> reply.Done? || reply.Conflict? || reply.Failed?
    ensures req.ListJobs? ==> reply.Page? || reply.Failed?
  {
  }

  // ----- one turn -----

  // The records a retry reads exist: the one its index entry names, and those of its page.
  lemma NamedJobExists(s: System, p: Pid, w: Proc)
    requires SharedOk(s) && WorkerOk(s, p, w) && w.op.CompleteConfirm?
    ensures Known(s, w.op.index.jobId)
  {
    hide SharedOk, ClaimsOk, HoldingFacts;
    assert EntryStored(w.op.index) in Facts(w);
    StoredEntryTells(s, p, w.since, w.op.index);
  }

  lemma PageJobExists(s: System, p: Pid, w: Proc)
    requires WorkerOk(s, p, w) && w.op.RecoverRead? && w.op.todo != []
    ensures Known(s, w.op.todo[0])
  {
    hide ClaimsOk, HoldingFacts;
    assert w.op.todo[0] in w.op.todo && JobKnown(w.op.todo[0]) in FactsOfPage(w.op.todo);
    assert JobKnown(w.op.todo[0]) in Facts(w);
    assert Knows(s, p, w.since, JobKnown(w.op.todo[0]));
  }

  lemma HeldTurnFails(s: System, s': System, p: Pid, w: Proc, r: Readings, minted: Token, reply: Reply,
                      token: Token, result: ResultJson)
    requires Completing(w.op) && w.Holds(w.op.token) && CompleteTurn(w, r).Ask?
    requires Answered(s, s', p, w, r, minted, CompleteTurn(w, r).request, reply)
    requires RequestOk(s, p, w, CompleteTurn(w, r).request) && Undecided(s, w)
    requires FailsCompletion(CompleteResume(w, r, reply, |s.log|).op, token, result) && IsAccepted(s', token, result)
    ensures reply.Failed? && ToStorage(CompleteTurn(w, r).request)
  {
    hide SharedOk, Grows, Knows, ClaimsOk, RequestOk, Effect;
    var req := CompleteTurn(w, r).request;
    CompleteFailures(w, r, reply, |s.log|, token, result);
    ServiceAnswers(s, s', p, w, req, reply);
    if w.op.CompleteRead? {
      HolderIsMinted(s, p, w, token);
      KnownIsRead(s, s', p, w, JobOf(w, token), reply);
    } else if MidCompletion(w.op) && !req.WriteJob? {
      HolderIsMinted(s, p, w, token);
      BlobsAreOk(s');
      StillUndecided(s, s', p, w, req, reply, token);
    }
  }

  lemma LookupTurnFails(s: System, s': System, p: Pid, w: Proc, r: Readings, minted: Token, reply: Reply,
                        token: Token, result: ResultJson)
    requires w.op.CompleteLookup? || w.op.CompleteConfirm?
    requires Answered(s, s', p, w, r, minted, LookupTurn(w).request, reply)
    requires FailsCompletion(LookupResume(w, reply).op, token, result)
    ensures reply.Failed? && ToStorage(LookupTurn(w).request)
  {
    hide SharedOk, Grows, Knows, ClaimsOk, Effect;
    LookupFailures(w, reply, token, result);
    ServiceAnswers(s, s', p, w, LookupTurn(w).request, reply);
    if w.op.CompleteConfirm? {
      NamedJobExists(s, p, w);
      KnownIsRead(s, s', p, w, w.op.index.jobId, reply);
    }
  }

  lemma RecoverTurnFails(s: System, s': System, p: Pid, w: Proc, r: Readings, minted: Token, reply: Reply,
                         token: Token, result: ResultJson)
    requires w.op.RecoverPage? || w.op.RecoverRead? || w.op.RecoverNotify? || w.op.RecoverMark?
    requires Answered(s, s', p, w, r, minted, RecoverTurn(w).request, reply)
    requires FailsCompletion(RecoverResume(w, reply, |s.log|).op, token, result)
    ensures reply.Failed? && ToStorage(RecoverTurn(w).request)
  {
    hide SharedOk, Grows, Knows, ClaimsOk, Effect;
    RecoverFailures(w, reply, |s.log|, token, result);
    ServiceAnswers(s, s', p, w, RecoverTurn(w).request, reply);
    if RecoverTurn(w).request.ReadJob? {
      PageJobExists(s, p, w);
      KnownIsRead(s, s', p, w, w.op.todo[0], reply);
    }
  }

  lemma TurnFails(s: System, s': System, p: Pid, w: Proc, r: Readings, minted: Token, reply: Reply,
                  token: Token, result: ResultJson)
    requires Runnable(w) && NextTurn(w, r, minted).Ask? && Undecided(s, w)
    requires Answered(s, s', p, w, r, minted, NextTurn(w, r, minted).request, reply)
    requires RequestOk(s, p, w, NextTurn(w, r, minted).request)
    requires FailsCompletion(Resume(w, r, minted, reply, |s.log|).op, token, result) && IsAccepted(s', token, result)
    ensures reply.Failed? && ToStorage(NextTurn(w, r, minted).request)
  {
    hide SharedOk, Effect, Grows, Knows, ClaimsOk, RequestOk, IsAccepted;
    if Completing(w.op) {
      HeldTurnFails(s, s', p, w, r, minted, reply, token, result);
    } else if w.op.CompleteLookup? || w.op.CompleteConfirm? {
      LookupTurnFails(s, s', p, w, r, minted, reply, token, result);
    } else if w.op.RecoverPage? || w.op.RecoverRead? || w.op.RecoverNotify? || w.op.RecoverMark? {
      RecoverTurnFails(s, s', p, w, r, minted, reply, token, result);
    } else {
      OthersFailElsewhere(w, r, minted, reply, |s.log|, token, result);
    }
  }

  /**
   A completion that ends in an error while the job stands accepted under its
   token and result does so at an I/O call to storage or the queue that failed.
   With WinnerIsNeverRefused this is every error of a retry.
   */
  lemma WinnerFailsOnStorageAlone(
    run: seq<System>, steps: seq<Step>, i: nat, p: Pid, token: Token, result: ResultJson)
    requires Run(run, steps) && i < |steps|
    requires (steps[i].Io? || steps[i].Local? || steps[i].Invoke?) && steps[i].worker == p
    requires FailsCompletion(run[i + 1].procs[p].op, token, result) && IsAccepted(run[i + 1], token, result)
    ensures steps[i].Io? && steps[i].reply.Failed?
    ensures ToStorage(NextTurn(run[i].procs[p], steps[i].readings, steps[i].minted).request)
  {
    hide SharedOk, Facts, NextTurn, Resume, Begin, IsAccepted;
    RunKeepsInv(run, steps, i);
    RunKeepsUndecided(run, steps, i);
    var s, step, w := run[i], steps[i], run[i].procs[p];
    if step.Io? {
      IoAnswered(s, step);
      assert Undecided(s, w);
      TurnFails(s, run[i + 1], p, w, step.readings, step.minted, step.reply, token, result);
    } else if step.Local? {
      MoveNeverFails(w, step.readings, step.minted, token, result);
    } else {
      BeginNeverFails(w, step.call, token, result);
    }
  }

  // ----- how a completion ends -----

  // The operation, or the outcome it left, belongs to this completion.
  predicate Serves(op: Op, token: Token, result: ResultJson) {
    || (Completing(op) && op.token == token && op.result == result)
    || ((op.CompleteLookup? || op.CompleteConfirm?) && op.token == token && op.result == result)
    || ((op.RecoverPage? || op.RecoverRead? || op.RecoverNotify? || op.RecoverMark?) &&
        op.after == ThenReturn(token, result))
    || op == Idle(Completed(token, result))
    || RefusesCompletion(op, token, result) || FailsCompletion(op, token, result)
  }

  lemma HeldResumeServes(w: Proc, r: Readings, reply: Reply, here: nat, token: Token, result: ResultJson)
    requires Completing(w.op) && w.Holds(w.op.token) && Serves(w.op, token, result)
    ensures Serves(CompleteResume(w, r, reply, here).op, token, result)
  {
  }

  lemma LookupResumeServes(w: Proc, reply: Reply, token: Token, result: ResultJson)
    requires (w.op.CompleteLookup? || w.op.CompleteConfirm?) && Serves(w.op, token, result)
    ensures Serves(LookupResume(w, reply).op, token, result)
  {
  }

  lemma RecoverResumeServes(w: Proc, reply: Reply, here: nat, token: Token, result: ResultJson)
    requires w.op.RecoverPage? || w.op.RecoverRead? || w.op.RecoverNotify? || w.op.RecoverMark?
    requires Serves(w.op, token, result)
    ensures Serves(RecoverResume(w, reply, here).op, token, result)
  {
  }

  lemma ResumeServes(
    w: Proc, r: Readings, minted: Token, reply: Reply, here: nat, token: Token, result: ResultJson)
    requires Runnable(w) && NextTurn(w, r, minted).Ask? && Serves(w.op, token, result)
    ensures Serves(Resume(w, r, minted, reply, here).op, token, result)
  {
    hide CompleteResume, LookupResume, RecoverResume, NextTurn;
    if Completing(w.op) {
      HeldResumeServes(w, r, reply, here, token, result);
    } else if w.op.CompleteLookup? || w.op.CompleteConfirm? {
      LookupResumeServes(w, reply, token, result);
    } else {
      RecoverResumeServes(w, reply, here, token, result);
    }
  }

  lemma MoveServes(w: Proc, r: Readings, minted: Token, token: Token, result: ResultJson)
    requires Runnable(w) && NextTurn(w, r, minted).Move? && Serves(w.op, token, result)
    ensures Serves(NextTurn(w, r, minted).proc.op, token, result)
  {
  }

  // Neither a crash of the worker nor a call to it.
  predicate LeavesAlone(step: Step, p: Pid) {
    (step.Crash? || step.Invoke?) ==> step.worker != p
  }

  lemma StepServes(s: System, step: Step, p: Pid, token: Token, result: ResultJson)
    requires Enabled(s, step) && LeavesAlone(step, p) && p in s.procs && Serves(s.procs[p].op, token, result)
    ensures p in Apply(s, step).procs && Serves(Apply(s, step).procs[p].op, token, result)
  {
    hide Serves, NextTurn, Resume;
    var w := s.procs[p];
    if step.Io? && step.worker == p {
      ResumeServes(w, step.readings, step.minted, step.reply, |s.log|, token, result);
    } else if step.Local? && step.worker == p {
      MoveServes(w, step.readings, step.minted, token, result);
    }
  }

  // `call` reaches worker `p` at step `j`, and up to step `k` the worker is left alone.
  ghost predicate Undisturbed(steps: seq<Step>, j: nat, k: nat, p: Pid, call: Call) {
    && j < k <= |steps| && steps[j] == Invoke(p, call)
    && forall i | j < i < k :: LeavesAlone(steps[i], p)
  }

  lemma BeginServes(run: seq<System>, steps: seq<Step>, i: nat, p: Pid, token: Token, result: ResultJson)
    requires Run(run, steps) && i < |steps|
    ensures steps[i] == Invoke(p, Complete(token, result)) ==>
              p in run[i + 1].procs && Serves(run[i + 1].procs[p].op, token, result)
  {
    assert Enabled(run[i], steps[i]) && run[i + 1] == Apply(run[i], steps[i]);
  }

  lemma OutcomesInKind(op: Op, token: Token, result: ResultJson)
    requires Serves(op, token, result) && op.Idle?
    ensures op.last in
            {Completed(token, result), LeaseError(Complete(token, result)),
             VerificationError(Complete(token, result)), OtherError(Complete(token, result))}
  {
  }

  lemma {:induction false} CompletionServes(
    run: seq<System>, steps: seq<Step>, j: nat, k: nat, p: Pid, token: Token, result: ResultJson)
    requires Run(run, steps) && Undisturbed(steps, j, k, p, Complete(token, result))
    ensures k < |run| && p in run[k].procs && Serves(run[k].procs[p].op, token, result)
  {
    hide Serves, Undisturbed, Enabled, Apply;
    UndisturbedBefore(steps, j, k, p, Complete(token, result));
    assert |run| == |steps| + 1;
    if k == j + 1 {
      BeginServes(run, steps, k - 1, p, token, result);
    } else {
      CompletionServes(run, steps, j, k - 1, p, token, result);
      assert run[k - 1 + 1] == Apply(run[k - 1], steps[k - 1]);
      StepServes(run[k - 1], steps[k - 1], p, token, result);
    }
  }

  /** A completion that no crash cuts off ends in its own result or in an error of that very call. */
  lemma CompletionsEndInKind(
    run: seq<System>, steps: seq<Step>, j: nat, k: nat, p: Pid, token: Token, result: ResultJson)
    requires Run(run, steps) && Undisturbed(steps, j, k, p, Complete(token, result))
    ensures p in run[k].procs
    ensures run[k].procs[p].op.Idle? ==>
              run[k].procs[p].op.last in
              {Completed(token, result), LeaseError(Complete(token, result)),
               VerificationError(Complete(token, result)), OtherError(Complete(token, result))}
  {
    hide Run, Serves;
    CompletionServes(run, steps, j, k, p, token, result);
    if run[k].procs[p].op.Idle? {
      OutcomesInKind(run[k].procs[p].op, token, result);
    }
  }

  // Step `i` is a call of worker `p` to storage or the queue that failed.
  predicate StorageFails(run: seq<System>, steps: seq<Step>, i: nat, p: Pid)
    requires i < |steps| && i < |run|
  {
    && steps[i].Io? && steps[i].worker == p && steps[i].reply.Failed?
    && p in run[i].procs && Runnable(run[i].procs[p])
    && var turn := NextTurn(run[i].procs[p], steps[i].readings, steps[i].minted);
       turn.Ask? && ToStorage(turn.request)
  }

  // Worker `p` has returned the result, or failed at storage between the two steps.
  ghost predicate ReturnsOrFails(
    run: seq<System>, steps: seq<Step>, j: nat, k: nat, p: Pid, token: Token, result: ResultJson)
    requires k < |run| && k <= |steps| && p in run[k].procs
  {
    || run[k].procs[p].op == Idle(Completed(token, result))
    || exists i :: j < i < k && StorageFails(run, steps, i, p)
  }

  lemma OwnStepReturnsOrFails(
    run: seq<System>, steps: seq<Step>, j: nat, k: nat, p: Pid, token: Token, result: ResultJson)
    requires Run(run, steps) && j + 1 < k <= |steps| && IsAccepted(run[j], token, result)
    requires (steps[k - 1].Io? || steps[k - 1].Local?) && steps[k - 1].worker == p
    requires p in run[k].procs && run[k].procs[p].op.Idle? && Serves(run[k].procs[p].op, token, result)
    ensures ReturnsOrFails(run, steps, j, k, p, token, result)
  {
    hide Run, IsAccepted, StorageFails, Serves;
    assert |run| == |steps| + 1 by { RunLength(run, steps); }
    AcceptedSince(run, steps, j, k, token, result);
    OwnStepEnds(run, steps, k - 1, p, token, result);
  }

  lemma RunLength(run: seq<System>, steps: seq<Step>)
    requires Run(run, steps)
    ensures |run| == |steps| + 1
  {
  }

  /**
   Repeating the winning completion: called when the job is already accepted under
   this token and result, by whatever worker, a completion that no crash cuts off
   returns the accepted result, or ends at a call to storage or the queue that
   failed.
   */
  lemma {:induction false} RetryReturnsOrStorageFails(
    run: seq<System>, steps: seq<Step>, j: nat, k: nat, p: Pid, token: Token, result: ResultJson)
    requires Run(run, steps) && Undisturbed(steps, j, k, p, Complete(token, result))
    requires IsAccepted(run[j], token, result) && p in run[k].procs && run[k].procs[p].op.Idle?
    ensures ReturnsOrFails(run, steps, j, k, p, token, result)
  {
    hide Run, IsAccepted, StorageFails, Serves, Undisturbed;
    RunLength(run, steps);
    UndisturbedBefore(steps, j, k, p, Complete(token, result));
    CompletionServes(run, steps, j, k, p, token, result);
    OthersLeaveOp(run, steps, k - 1, p);
    if k > j + 1 {
      if (steps[k - 1].Io? || steps[k - 1].Local?) && steps[k - 1].worker == p {
        OwnStepReturnsOrFails(run, steps, j, k, p, token, result);
      } else {
        RetryReturnsOrStorageFails(run, steps, j, k - 1, p, token, result);
      }
    }
  }

  lemma UndisturbedBefore(steps: seq<Step>, j: nat, k: nat, p: Pid, call: Call)
    requires Undisturbed(steps, j, k, p, call)
    ensures j < k <= |steps| && steps[j] == Invoke(p, call)
    ensures k > j + 1 ==> Undisturbed(steps, j, k - 1, p, call) && LeavesAlone(steps[k - 1], p)
  {
  }

  // A completion just invoked is under way, and a step of another worker changes nothing about it.
  lemma OthersLeaveOp(run: seq<System>, steps: seq<Step>, i: nat, p: Pid)
    requires Run(run, steps) && i < |steps| && p in run[i + 1].procs
    ensures steps[i].Invoke? && steps[i].worker == p && steps[i].call.Complete? ==> !run[i + 1].procs[p].op.Idle?
    ensures steps[i].Tick? || steps[i].worker != p ==>
              p in run[i].procs && run[i + 1].procs[p].op == run[i].procs[p].op
  {
    hide NextTurn, Resume;
    assert Enabled(run[i], steps[i]) && run[i + 1] == Apply(run[i], steps[i]);
  }

  lemma OwnStepEnds(run: seq<System>, steps: seq<Step>, i: nat, p: Pid, token: Token, result: ResultJson)
    requires Run(run, steps) && i < |steps| && (steps[i].Io? || steps[i].Local?) && steps[i].worker == p
    requires p in run[i + 1].procs && run[i + 1].procs[p].op.Idle? && Serves(run[i + 1].procs[p].op, token, result)
    requires IsAccepted(run[i], token, result) && IsAccepted(run[i + 1], token, result)
    ensures run[i + 1].procs[p].op == Idle(Completed(token, result)) || StorageFails(run, steps, i, p)
  {
    hide IsAccepted, NextTurn, Resume;
    if RefusesCompletion(run[i + 1].procs[p].op, token, result) {
      WinnerIsNeverRefused(run, steps, i, p, token, result);
    } else if FailsCompletion(run[i + 1].procs[p].op, token, result) {
      WinnerFailsOnStorageAlone(run, steps, i, p, token, result);
      assert Enabled(run[i], steps[i]);
    }
  }

  lemma AcceptedSince(run: seq<System>, steps: seq<Step>, j: nat, k: nat, token: Token, result: ResultJson)
    requires Run(run, steps) && j < k < |run| && IsAccepted(run[j], token, result)
    ensures IsAccepted(run[k - 1], token, result) && IsAccepted(run[k], token, result)
  {
    hide IsAccepted, Grows, Inv, SharedOk;
    StillAccepted(run, steps, j, k - 1, token, result);
    StillAccepted(run, steps, j, k, token, result);
  }

  lemma StillAccepted(run: seq<System>, steps: seq<Step>, j: nat, k: nat, token: Token, result: ResultJson)
    requires Run(run, steps) && j <= k < |run| && IsAccepted(run[j], token, result)
    ensures IsAccepted(run[k], token, result)
  {
    hide IsAccepted, Grows, SharedOk;
    RunKeepsInv(run, steps, k);
    RunGrows(run, steps, j, k);
    BlobsAreOk(run[k]);
    AcceptancePersists(run[j], run[k], token, result);
  }
}
