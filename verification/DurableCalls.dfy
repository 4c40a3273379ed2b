/**
 Every call to a worker that no crash and no other call cuts off goes as its
 story tells, from the step that brings it on, whatever all other workers do.
 */
module DurableCalls {
  import opened Basics
  import opened FlashTypes
  import opened DurableJob
  import opened DurableWorker
  import opened DurableSystem
  import opened DurableInvariant
  import opened DurableRuns
  import opened DurableRetries
  import opened DurableTraces
  import opened DurableRecoveries
  import opened DurableEnqueues
  import opened DurableCompletions
  import opened DurableLookups
  import opened DurableHolds
  import DurableGrants

  ghost predicate RecoveryStory(w0: Proc, own: seq<Entry>, w: Proc) {
    && w.options == w0.options && w.claims == w0.claims
    && match w.op
       case Idle(Nothing) => |own| > 1 && RecoveredBy(own, 0, |own| - 1, w.options.recoveryScanLimit)
       case Idle(OtherError(call)) => call == RecoverNotifications && LastRaised(own)
       case _ => InRecovery(w.op) && w.op.after == ThenStop && Recovering(own, w, 0)
  }

  lemma RecoveryStep(w0: Proc, own: seq<Entry>, w: Proc, e: Entry, here: nat)
    requires RecoveryStory(w0, own, w) && InRecovery(w.op)
    requires e.request == RecoverTurn(w).request && Answers(e.request, e.reply)
    ensures RecoveryStory(w0, own + [e], RecoverResume(w, e.reply, here).(since := e.when))
  {
    hide Recovering, RecoverResume, RecoveredBy;
    RecoveryCall(own, w, 0, e, here);
    var w' := RecoverResume(w, e.reply, here);
    if InRecovery(w'.op) && Recovering(own + [e], w', 0) {
      RecoveringIgnoresSince(own + [e], w', 0, e.when);
    }
  }

  /** `w` is worker `w0` some calls, `own`, into `call`, or after it. */
  ghost predicate Story(call: Call, w0: Proc, own: seq<Entry>, w: Proc) {
    match call
    case Enqueue(job, contract) => EnqueueStory(w0, job, contract, own, w)
    case Claim => DurableGrants.ClaimStory(w0, own, w)
    case Renew(token) => RenewalStory(w0, token, own, w)
    case Abandon(token) => AbandonmentStory(w0, token, own, w)
    case Complete(token, result) =>
      if token in w0.claims then CompletionStory(w0, w0.claims[token], result, own, w)
      else LookupStory(w0, token, result, own, w)
    case RecoverNotifications => RecoveryStory(w0, own, w)
  }

  // Claims go by their own tokens.
  predicate AllNamed(w0: Proc) {
    forall token :: token in w0.claims ==> w0.claims[token].token == token
  }

  // The calls were made by the time of the last step.
  predicate Timely(w0: Proc, own: seq<Entry>, w: Proc) {
    w0.since <= w.since && forall i :: 0 <= i < |own| ==> own[i].when <= w.since
  }

  lemma StoryBegins(call: Call, w0: Proc)
    requires AllNamed(w0)
    ensures Story(call, w0, [], Begin(w0, call))
  {
    match call {
      case Enqueue(job, contract) => EnqueueBegins(w0, job, contract);
      case Renew(token) => RenewalBegins(w0, token);
      case Abandon(token) => RenewalBegins(w0, token);
      case _ =>
    }
  }

  // ----- one call of the worker -----

  // Worker `w`, `own` calls into `call`, makes call `e`.
  ghost predicate Goes(call: Call, w0: Proc, own: seq<Entry>, w: Proc, r: Readings, minted: Token, e: Entry) {
    && Story(call, w0, own, w) && AllNamed(w0) && Timely(w0, own, w) && Runnable(w)
    && r.Within(w.since, e.when) && NextTurn(w, r, minted) == Ask(e.request) && Answers(e.request, e.reply)
  }

  lemma EnqueueGoes(call: Call, w0: Proc, own: seq<Entry>, w: Proc, r: Readings, minted: Token, e: Entry, here: nat)
    requires Goes(call, w0, own, w, r, minted, e) && call.Enqueue?
    ensures Story(call, w0, own + [e], Resume(w, r, minted, e.reply, here).(since := e.when))
  {
    EnqueueCall(w0, call.job, call.contract, own, w, r, e);
    EnqueueIgnoresSince(w0, call.job, call.contract, own + [e], EnqueueResume(w, e.reply), e.when);
  }

  lemma EnqueueIgnoresSince(w0: Proc, job: JobId, contract: WorkContract, own: seq<Entry>, w: Proc, t: real)
    requires EnqueueStory(w0, job, contract, own, w)
    ensures EnqueueStory(w0, job, contract, own, w.(since := t))
  {
  }

  lemma RecoveringTurns(w: Proc, r: Readings, minted: Token, reply: Reply, here: nat)
    requires Runnable(w) && InRecovery(w.op)
    ensures NextTurn(w, r, minted) == RecoverTurn(w) && NextTurn(w, r, minted).Ask?
    ensures Resume(w, r, minted, reply, here) == RecoverResume(w, reply, here)
  {
  }

  lemma ClaimGoes(call: Call, w0: Proc, own: seq<Entry>, w: Proc, r: Readings, minted: Token, e: Entry, here: nat)
    requires Goes(call, w0, own, w, r, minted, e) && call.Claim?
    ensures Story(call, w0, own + [e], Resume(w, r, minted, e.reply, here).(since := e.when))
  {
    hide DurableGrants.ClaimEnds, DurableGrants.ClaimProceeds, Recovering, DurableGrants.Kept;
    if InRecovery(w.op) {
      RecoveringTurns(w, r, minted, e.reply, here);
      DurableGrants.ClaimRecovers(w0, own, w, e, here);
    } else {
      ClaimingTurns(w, r, minted, e.reply, here);
      DurableGrants.ClaimCall(w0, own, w, r, minted, e, here);
    }
  }

  lemma ClaimingTurns(w: Proc, r: Readings, minted: Token, reply: Reply, here: nat)
    requires Runnable(w) && (w.op.ClaimBegin? || DurableGrants.Claiming(w.op))
    ensures NextTurn(w, r, minted) == ClaimTurn(w, r, minted)
    ensures DurableGrants.Claiming(w.op) && NextTurn(w, r, minted).Ask? ==>
              Resume(w, r, minted, reply, here) == ClaimResume(w, r, minted, reply, here)
  {
  }

  lemma HoldGoes(call: Call, w0: Proc, own: seq<Entry>, w: Proc, r: Readings, minted: Token, e: Entry, here: nat)
    requires Goes(call, w0, own, w, r, minted, e) && (call.Renew? || call.Abandon?)
    ensures Story(call, w0, own + [e], Resume(w, r, minted, e.reply, here).(since := e.when))
  {
    hide RenewalEnds, AbandonmentEnds;
    if call.Renew? {
      RenewalCall(w0, call.token, own, w, r, e, here);
    } else {
      AbandonmentCall(w0, call.token, own, w, r, e, here);
    }
  }

  lemma CompleteGoes(call: Call, w0: Proc, own: seq<Entry>, w: Proc, r: Readings, minted: Token, e: Entry, here: nat)
    requires Goes(call, w0, own, w, r, minted, e) && call.Complete? && call.token in w0.claims
    ensures Story(call, w0, own + [e], Resume(w, r, minted, e.reply, here).(since := e.when))
  {
    hide CompletionStory;
    var c := w0.claims[call.token];
    CompletionOps(w0, c, call.result, own, w);
    if InRecovery(w.op) {
      RecoveringTurns(w, r, minted, e.reply, here);
      CompletionRecovers(w0, c, call.result, own, w, e, here);
    } else {
      CompletingTurns(w, r, minted, e.reply, here);
      assert DurableCompletions.Calls(w0, c, call.result, own, w, r, e);
      CompletionCall(w0, c, call.result, own, w, r, e, here);
    }
  }

  lemma CompletionOps(w0: Proc, c: ClaimContext, result: ResultJson, own: seq<Entry>, w: Proc)
    requires CompletionStory(w0, c, result, own, w) && !w.op.Idle?
    ensures Completing(w.op) || InRecovery(w.op)
  {
  }

  lemma CompletingTurns(w: Proc, r: Readings, minted: Token, reply: Reply, here: nat)
    requires Runnable(w) && Completing(w.op)
    ensures w.Holds(w.op.token) && NextTurn(w, r, minted) == CompleteTurn(w, r)
    ensures NextTurn(w, r, minted).Ask? ==> Resume(w, r, minted, reply, here) == CompleteResume(w, r, reply, here)
  {
  }

  lemma LookupGoes(call: Call, w0: Proc, own: seq<Entry>, w: Proc, r: Readings, minted: Token, e: Entry, here: nat)
    requires Goes(call, w0, own, w, r, minted, e) && call.Complete? && call.token !in w0.claims
    ensures Story(call, w0, own + [e], Resume(w, r, minted, e.reply, here).(since := e.when))
  {
    hide FindsAccepted, LookupRefused, RecoveredBy, Recovering;
    if InRecovery(w.op) {
      RecoveringTurns(w, r, minted, e.reply, here);
      LookupRecovers(w0, call.token, call.result, own, w, e, here);
    } else {
      LookupCall(w0, call.token, call.result, own, w, e);
    }
  }

  lemma RecoverGoes(call: Call, w0: Proc, own: seq<Entry>, w: Proc, r: Readings, minted: Token, e: Entry, here: nat)
    requires Goes(call, w0, own, w, r, minted, e) && call.RecoverNotifications?
    ensures Story(call, w0, own + [e], Resume(w, r, minted, e.reply, here).(since := e.when))
  {
    hide RecoveredBy, Recovering;
    RecoveringTurns(w, r, minted, e.reply, here);
    RecoveryStep(w0, own, w, e, here);
  }

  lemma StoryGoes(call: Call, w0: Proc, own: seq<Entry>, w: Proc, r: Readings, minted: Token, e: Entry, here: nat)
    requires Goes(call, w0, own, w, r, minted, e)
    ensures Story(call, w0, own + [e], Resume(w, r, minted, e.reply, here).(since := e.when))
  {
    hide Story, NextTurn, Resume;
    match call {
      case Enqueue(_, _) => EnqueueGoes(call, w0, own, w, r, minted, e, here);
      case Claim => ClaimGoes(call, w0, own, w, r, minted, e, here);
      case Complete(token, _) =>
        if token in w0.claims {
          CompleteGoes(call, w0, own, w, r, minted, e, here);
        } else {
          LookupGoes(call, w0, own, w, r, minted, e, here);
        }
      case RecoverNotifications => RecoverGoes(call, w0, own, w, r, minted, e, here);
      case _ => HoldGoes(call, w0, own, w, r, minted, e, here);
    }
  }

  // ----- one step without a call -----

  ghost predicate Moves(call: Call, w0: Proc, own: seq<Entry>, w: Proc, r: Readings, minted: Token, now: real) {
    && Story(call, w0, own, w) && AllNamed(w0) && Timely(w0, own, w) && Runnable(w)
    && r.Within(w.since, now) && NextTurn(w, r, minted).Move?
  }

  // Only claims and operations on a held claim take steps without a call.
  lemma MovesAre(call: Call, w0: Proc, own: seq<Entry>, w: Proc, r: Readings, minted: Token, now: real)
    requires Moves(call, w0, own, w, r, minted, now)
    ensures call.Claim? || call.Renew? || call.Abandon? || (call.Complete? && call.token in w0.claims)
    ensures call.Claim? ==> w.op.ClaimBegin? || DurableGrants.Claiming(w.op)
    ensures call.Renew? ==> Renewing(w.op)
    ensures call.Abandon? ==> Abandoning(w.op)
    ensures call.Complete? ==> Completing(w.op)
  {
    hide DurableGrants.ClaimEnds, DurableGrants.ClaimProceeds, Recovering, DurableGrants.Kept, RecoveredBy;
    hide ClosesWithRecovery, CompletionEnds, RenewalEnds, AbandonmentEnds, FindsAccepted, LookupRefused;
  }

  lemma StoryMoves(call: Call, w0: Proc, own: seq<Entry>, w: Proc, r: Readings, minted: Token, now: real)
    requires Moves(call, w0, own, w, r, minted, now)
    ensures Story(call, w0, own, NextTurn(w, r, minted).proc.(since := now))
  {
    hide CompletionStory, RenewalStory, AbandonmentStory, DurableGrants.ClaimStory, NextTurn;
    MovesAre(call, w0, own, w, r, minted, now);
    match call {
      case Claim =>
        ClaimingTurns(w, r, minted, Done, 0);
        DurableGrants.ClaimMoves(w0, own, w, r, minted, now);
      case Renew(token) =>
        HoldingTurns(w, r, minted);
        RenewalStops(w0, token, own, w, r, now);
      case Abandon(token) =>
        HoldingTurns(w, r, minted);
        AbandonmentStops(w0, token, own, w, r, now);
      case Complete(token, result) =>
        CompletingTurns(w, r, minted, Done, 0);
        CompletionStops(w0, w0.claims[token], result, own, w, r, now);
    }
  }

  lemma HoldingTurns(w: Proc, r: Readings, minted: Token)
    requires Runnable(w) && (Renewing(w.op) || Abandoning(w.op))
    ensures w.Holds(w.op.token)
    ensures Renewing(w.op) ==> NextTurn(w, r, minted) == RenewTurn(w, r)
    ensures Abandoning(w.op) ==> NextTurn(w, r, minted) == AbandonTurn(w, r)
  {
  }

  // ----- along a run -----

  // What a call is answered is an answer to its request.
  lemma RepliesAnswer(s: System, req: Request, reply: Reply, after: Store)
    requires SharedOk(s) && Performs(s.store, s.now, req, reply, after)
    ensures Answers(req, reply)
  {
    if req.ReadJob? && reply.Loaded? {
      RecordsAreNamed(s, req.job);
    }
  }

  lemma RecordsAreNamed(s: System, job: JobId)
    requires SharedOk(s) && Known(s, job)
    ensures Last(s.store.blobs[job]).state.jobId == job
  {
    assert BlobOk(s, job);
    LawfulIsSound(job, H(s, job), |H(s, job)| - 1);
  }

  lemma ClaimsAreNamed(s: System, p: Pid, w: Proc)
    requires WorkerOk(s, p, w)
    ensures AllNamed(w)
  {
    forall token | token in w.claims ensures w.claims[token].token == token {
      assert ContextOk(s, p, token, w.claims[token]);
    }
  }

  /** The calls `p` has made since position `lo` of the log are those of `call`, begun in state `w0`. */
  ghost predicate Told(w0: Proc, lo: nat, call: Call, p: Pid, s: System) {
    && lo <= |s.log| && p in s.procs && AllNamed(w0)
    && Timely(w0, Own(s.log, lo, p), s.procs[p]) && Story(call, w0, Own(s.log, lo, p), s.procs[p])
  }

  lemma IoTold(w0: Proc, lo: nat, call: Call, p: Pid, s: System, step: Step)
    requires Inv(s) && Enabled(s, step) && step.Io? && step.worker == p && Told(w0, lo, call, p, s)
    ensures Told(w0, lo, call, p, Apply(s, step))
  {
    hide SharedOk, WorkerOk, Story, NextTurn, Resume, Performs, Answers;
    var w := s.procs[p];
    var req := NextTurn(w, step.readings, step.minted).request;
    var e := Entry(p, req, step.reply, s.now);
    RepliesAnswer(s, req, step.reply, step.after);
    StoryGoes(call, w0, Own(s.log, lo, p), w, step.readings, step.minted, e, |s.log|);
    OwnSnoc(s.log, lo, p, e);
  }

  lemma StepTold(w0: Proc, lo: nat, call: Call, p: Pid, s: System, step: Step)
    requires Inv(s) && Enabled(s, step) && LeavesAlone(step, p) && Told(w0, lo, call, p, s)
    ensures Told(w0, lo, call, p, Apply(s, step))
  {
    hide SharedOk, WorkerOk, Story, NextTurn, Resume, Performs;
    if step.Io? && step.worker == p {
      IoTold(w0, lo, call, p, s, step);
    } else if step.Local? && step.worker == p {
      StoryMoves(call, w0, Own(s.log, lo, p), s.procs[p], step.readings, step.minted, s.now);
    } else if step.Io? {
      OwnSnoc(s.log, lo, p, Last(Apply(s, step).log));
    }
  }

  // Worker `p` as the call of step `j` finds it.
  function Called(run: seq<System>, j: nat, p: Pid): Proc
    requires j < |run| && p in run[j].procs
  {
    run[j].procs[p].(since := run[j].now)
  }

  lemma CallBegins(run: seq<System>, steps: seq<Step>, j: nat, p: Pid, call: Call)
    requires Run(run, steps) && j < |steps| && steps[j] == Invoke(p, call)
    ensures p in run[j].procs && Told(Called(run, j, p), |run[j].log|, call, p, run[j + 1])
  {
    hide SharedOk, Story, Begin;
    RunKeepsInv(run, steps, j);
    assert Enabled(run[j], steps[j]) && run[j + 1] == Apply(run[j], steps[j]);
    var w, w0 := run[j].procs[p], Called(run, j, p);
    ClaimsAreNamed(run[j], p, w);
    StoryBegins(call, w0);
    BeginIgnoresSince(w, call, run[j].now);
  }

  lemma BeginIgnoresSince(w: Proc, call: Call, t: real)
    ensures Begin(w.(since := t), call) == Begin(w, call).(since := t)
  {
  }

  /** An undisturbed call goes as its story tells, up to its end and after. */
  lemma {:induction false} CallIsTold(run: seq<System>, steps: seq<Step>, j: nat, k: nat, p: Pid, call: Call)
    requires Run(run, steps) && Undisturbed(steps, j, k, p, call)
    ensures j < k < |run| && p in run[j].procs && Told(Called(run, j, p), |run[j].log|, call, p, run[k])
  {
    hide Told, Inv, Apply, Undisturbed;
    UndisturbedBefore(steps, j, k, p, call);
    if k == j + 1 {
      CallBegins(run, steps, j, p, call);
    } else {
      CallIsTold(run, steps, j, k - 1, p, call);
      RunKeepsInv(run, steps, k - 1);
      StepTold(Called(run, j, p), |run[j].log|, call, p, run[k - 1], steps[k - 1]);
      assert run[k - 1 + 1] == Apply(run[k - 1], steps[k - 1]);
    }
  }
}
