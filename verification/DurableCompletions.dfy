/** How a completion goes, by the calls it makes. */
module DurableCompletions {
  import opened Basics
  import opened FlashTypes
  import opened DurableJob
  import opened DurableWorker
  import opened DurableSystem
  import opened DurableTraces
  import opened DurableRecoveries

  // ----- the steps of a completion on a held claim -----

  // The record is accepted for this generation and token, with this result.
  predicate WonAlready(j: JobState, c: ClaimContext, result: ResultJson) {
    && j.acceptedGeneration == Some(c.generation) && j.acceptedClaimHash == Some(Sha256(c.token))
    && j.acceptedResult == Some(result)
  }

  // First the record is read, and then the result put to the verifier under the contract it names.
  predicate PutToVerifier(own: seq<Entry>, c: ClaimContext, result: ResultJson) {
    && |own| >= 2 && ReadsRecord(own[0], c.jobId) && own[0].reply.state.acceptedResult == None
    && own[1].request == Verify(own[0].reply.state.contract, result)
  }

  // Then, once approved, the record is read again and the entry of the claim uploaded.
  predicate PutsIndex(own: seq<Entry>, c: ClaimContext, result: ResultJson) {
    && |own| >= 4 && PutToVerifier(own, c, result) && own[1].reply.Approved? && ReadsRecord(own[2], c.jobId)
    && own[3].request == PutIndex(ClaimIndex(
         c.jobId, c.generation, c.attemptId, Sha256(c.token),
         own[2].reply.state.startedAt + own[0].reply.state.contract.budget.wallSeconds))
  }

  // That upload was done, or met a conflict and the entry was read.
  predicate LooksUpIndex(own: seq<Entry>, c: ClaimContext, result: ResultJson) {
    && |own| >= 5 && PutsIndex(own, c, result) && own[3].reply.Conflict?
    && own[4].request == ReadIndex(Sha256(c.token))
  }

  predicate Indexed(own: seq<Entry>, c: ClaimContext, result: ResultJson, n: int) {
    || (n == 4 && PutsIndex(own, c, result) && own[3].reply.Done?)
    || (n == 5 && LooksUpIndex(own, c, result) && own[4].reply == Found(own[3].request.index))
  }

  // Then the record is read a third time, and the acceptance of just that version uploaded.
  predicate PutsAcceptance(own: seq<Entry>, c: ClaimContext, result: ResultJson, n: int) {
    && Indexed(own, c, result, n) && |own| >= n + 2 && ReadsRecord(own[n], c.jobId)
    && own[n + 1].request.WriteJob? && own[n + 1].request.version == own[n].reply.version
    && var j := own[n].reply.state;
       own[n + 1].request.next ==
         j.(acceptedGeneration := Some(c.generation), acceptedAttemptId := Some(c.attemptId),
            acceptedClaimHash := Some(Sha256(c.token)), acceptedResult := Some(result),
            notificationPending := true, notificationSent := false)
  }

  /** The first `n` calls won the job for the claim, now or before. */
  predicate Won(own: seq<Entry>, c: ClaimContext, result: ResultJson, n: int) {
    || (n == 1 && |own| >= 1 && ReadsRecord(own[0], c.jobId) && WonAlready(own[0].reply.state, c, result))
    || (6 <= n <= |own| && PutsAcceptance(own, c, result, n - 2) && own[n - 1].reply.Done?)
  }

  // The next call then takes the message off the queue, unless it is gone.
  predicate Dequeues(own: seq<Entry>, c: ClaimContext, result: ResultJson, n: int) {
    && Won(own, c, result, n) && |own| > n
    && own[n].request == DeleteMessage(c.message.id, c.popReceipt, c.message.job)
    && (own[n].reply.Done? || own[n].reply.Gone?)
  }

  // ----- its ends -----

  ghost predicate Completes(own: seq<Entry>, c: ClaimContext, result: ResultJson, limit: nat) {
    exists n :: 0 <= n < |own| - 2 && Dequeues(own, c, result, n) && RecoveredBy(own, n + 1, |own| - 1, limit)
  }

  predicate VerifierRejects(own: seq<Entry>, c: ClaimContext, result: ResultJson) {
    |own| == 2 && PutToVerifier(own, c, result) && own[1].reply.Rejected?
  }

  // The record was accepted otherwise, or the index names the token otherwise, or the acceptance met a conflict.
  predicate RefusedByReply(own: seq<Entry>, c: ClaimContext, result: ResultJson) {
    || (|own| == 1 && ReadsRecord(own[0], c.jobId) && own[0].reply.state.acceptedResult != None
        && !WonAlready(own[0].reply.state, c, result))
    || (|own| == 5 && LooksUpIndex(own, c, result) && own[4].reply.Found? && own[4].reply.index != own[3].request.index)
    || (|own| >= 6 && PutsAcceptance(own, c, result, |own| - 2) && Last(own).reply.Conflict?)
  }

  // Refused by a reply, or because the claim was not held under the record just read.
  ghost predicate CompletionRefused(own: seq<Entry>, c: ClaimContext, result: ResultJson, end: real) {
    RefusedByReply(own, c, result) || LastReadNotHeld(own, c, end)
  }

  // The last call raised, or the entry that an upload conflicted with was not there.
  predicate CompletionRaises(own: seq<Entry>, c: ClaimContext, result: ResultJson) {
    LastRaised(own) || (|own| == 5 && LooksUpIndex(own, c, result) && own[4].reply.Missing?)
  }

  ghost predicate CompletionEnds(
    w0: Proc, c: ClaimContext, result: ResultJson, own: seq<Entry>, w: Proc, last: Outcome)
  {
    match last
    case Completed(t, r) =>
      && t == c.token && r == result && w.claims == w0.claims - {c.token}
      && Completes(own, c, result, w.options.recoveryScanLimit)
    case VerificationError(call) =>
      call == Complete(c.token, result) && w.claims == w0.claims && VerifierRejects(own, c, result)
    case LeaseError(call) =>
      && call == Complete(c.token, result) && w.claims == w0.claims && NoDelete(own)
      && CompletionRefused(own, c, result, w.since)
    case OtherError(call) => call == Complete(c.token, result) && CompletionRaises(own, c, result)
    case _ => false
  }

  predicate NoDelete(own: seq<Entry>) {
    forall i :: 0 <= i < |own| ==> !own[i].request.DeleteMessage?
  }

  /** A completion on claim `c`, which the worker held when called in state `w0`. */
  ghost predicate CompletionStory(w0: Proc, c: ClaimContext, result: ResultJson, own: seq<Entry>, w: Proc) {
    var t := c.token;
    && w.options == w0.options
    && (Completing(w.op) ==> w.claims == w0.claims && NoDelete(own))
    && match w.op
       case CompleteRead(_, _) => own == [] && w.op == CompleteRead(t, result)
       case CompleteVerify(_, _, snap) =>
         && w.op == CompleteVerify(t, result, snap) && |own| == 1 && ReadsRecord(own[0], c.jobId)
         && own[0].reply.state == snap.state && snap.state.acceptedResult == None
       case CompleteReread(_, _, contract, v) =>
         && w.op == CompleteReread(t, result, contract, v) && |own| == 2 && PutToVerifier(own, c, result)
         && own[1].reply.Approved? && contract == own[0].reply.state.contract
       case CompleteIndex(_, _, contract, v, snap) =>
         && w.op == CompleteIndex(t, result, contract, v, snap) && |own| == 3 && PutToVerifier(own, c, result)
         && own[1].reply.Approved? && contract == own[0].reply.state.contract
         && ReadsRecord(own[2], c.jobId) && own[2].reply.state == snap.state
       case CompleteIndexCheck(_, _, v, index) =>
         && w.op == CompleteIndexCheck(t, result, v, index) && |own| == 4 && PutsIndex(own, c, result)
         && own[3].reply.Conflict? && index == own[3].request.index
       case CompleteFinalRead(_, _, v, i) =>
         w.op == CompleteFinalRead(t, result, v, i) && Indexed(own, c, result, |own|)
       case CompleteAccept(_, _, v, i, snap) =>
         && w.op == CompleteAccept(t, result, v, i, snap) && own != [] && Indexed(own, c, result, |own| - 1)
         && ReadsRecord(Last(own), c.jobId) && Last(own).reply == Loaded(snap.state, snap.version)
       case CompleteSettle(_, _) => w.op == CompleteSettle(t, result) && Won(own, c, result, |own|)
       case Idle(last) => CompletionEnds(w0, c, result, own, w, last)
       case _ => InRecovery(w.op) && ClosesWithRecovery(w0, c, result, own, w)
  }

  // Won and off the queue, the completion runs a recovery before it returns.
  ghost predicate ClosesWithRecovery(w0: Proc, c: ClaimContext, result: ResultJson, own: seq<Entry>, w: Proc)
    requires InRecovery(w.op)
  {
    && w.op.after == ThenReturn(c.token, result) && w.claims == w0.claims - {c.token}
    && exists n :: Dequeues(own, c, result, n) && Recovering(own, w, n + 1)
  }

  // All of these predicates but the ends look at the first calls only.
  lemma Prefixes(own: seq<Entry>, e: Entry, c: ClaimContext, result: ResultJson)
    ensures PutToVerifier(own, c, result) ==> PutToVerifier(own + [e], c, result)
    ensures PutsIndex(own, c, result) ==> PutsIndex(own + [e], c, result)
    ensures forall n :: Indexed(own, c, result, n) ==> Indexed(own + [e], c, result, n)
    ensures forall n :: Won(own, c, result, n) ==> Won(own + [e], c, result, n)
    ensures forall n :: Dequeues(own, c, result, n) ==> Dequeues(own + [e], c, result, n)
    ensures NoDelete(own) && !e.request.DeleteMessage? ==> NoDelete(own + [e])
  {
    assert forall i :: 0 <= i < |own| ==> (own + [e])[i] == own[i];
  }

  // Worker `w`, `own` calls into a completion on `c`, makes call `e`.
  ghost predicate Calls(
    w0: Proc, c: ClaimContext, result: ResultJson, own: seq<Entry>, w: Proc, r: Readings, e: Entry)
  {
    && CompletionStory(w0, c, result, own, w) && Completing(w.op) && w.Holds(w.op.token)
    && c.token in w0.claims && w0.claims[c.token] == c
    && r.Within(w.since, e.when) && CompleteTurn(w, r) == Ask(e.request) && Answers(e.request, e.reply)
  }

  lemma RecordCalled(
    w0: Proc, c: ClaimContext, result: ResultJson, own: seq<Entry>, w: Proc, r: Readings, e: Entry, here: nat)
    requires Calls(w0, c, result, own, w, r, e) && w.op.CompleteRead?
    ensures CompletionStory(w0, c, result, own + [e], CompleteResume(w, r, e.reply, here).(since := e.when))
  {
    hide NoDelete, ClosesWithRecovery, Completes;
    Prefixes(own, e, c, result);
    assert (own + [e])[|own|] == e;
  }

  lemma VerifierCalled(
    w0: Proc, c: ClaimContext, result: ResultJson, own: seq<Entry>, w: Proc, r: Readings, e: Entry, here: nat)
    requires Calls(w0, c, result, own, w, r, e) && w.op.CompleteVerify?
    ensures CompletionStory(w0, c, result, own + [e], CompleteResume(w, r, e.reply, here).(since := e.when))
  {
    hide NoDelete, ClosesWithRecovery, Completes;
    Prefixes(own, e, c, result);
    assert (own + [e])[|own|] == e && (own + [e])[0] == own[0];
  }

  lemma RereadCalled(
    w0: Proc, c: ClaimContext, result: ResultJson, own: seq<Entry>, w: Proc, r: Readings, e: Entry, here: nat)
    requires Calls(w0, c, result, own, w, r, e) && w.op.CompleteReread?
    ensures CompletionStory(w0, c, result, own + [e], CompleteResume(w, r, e.reply, here).(since := e.when))
  {
    hide NoDelete, ClosesWithRecovery, Completes;
    Prefixes(own, e, c, result);
    assert (own + [e])[|own|] == e && (own + [e])[0] == own[0] && (own + [e])[1] == own[1];
  }

  lemma IndexCalled(
    w0: Proc, c: ClaimContext, result: ResultJson, own: seq<Entry>, w: Proc, r: Readings, e: Entry, here: nat)
    requires Calls(w0, c, result, own, w, r, e) && w.op.CompleteIndex?
    ensures CompletionStory(w0, c, result, own + [e], CompleteResume(w, r, e.reply, here).(since := e.when))
  {
    hide NoDelete, ClosesWithRecovery, Completes;
    Prefixes(own, e, c, result);
    assert (own + [e])[|own|] == e && (own + [e])[0] == own[0] && (own + [e])[1] == own[1] && (own + [e])[2] == own[2];
  }

  lemma IndexChecked(
    w0: Proc, c: ClaimContext, result: ResultJson, own: seq<Entry>, w: Proc, r: Readings, e: Entry, here: nat)
    requires Calls(w0, c, result, own, w, r, e) && w.op.CompleteIndexCheck?
    ensures CompletionStory(w0, c, result, own + [e], CompleteResume(w, r, e.reply, here).(since := e.when))
  {
    hide NoDelete, ClosesWithRecovery, Completes;
    Prefixes(own, e, c, result);
    assert (own + [e])[|own|] == e && (own + [e])[3] == own[3];
  }

  lemma FinalReadCalled(
    w0: Proc, c: ClaimContext, result: ResultJson, own: seq<Entry>, w: Proc, r: Readings, e: Entry, here: nat)
    requires Calls(w0, c, result, own, w, r, e) && w.op.CompleteFinalRead?
    ensures CompletionStory(w0, c, result, own + [e], CompleteResume(w, r, e.reply, here).(since := e.when))
  {
    hide NoDelete, ClosesWithRecovery, Completes, Indexed;
    Prefixes(own, e, c, result);
    IndexedLength(own, c, result, |own|);
    assert (own + [e])[|own|] == e;
  }

  lemma AcceptanceCalled(
    w0: Proc, c: ClaimContext, result: ResultJson, own: seq<Entry>, w: Proc, r: Readings, e: Entry, here: nat)
    requires Calls(w0, c, result, own, w, r, e) && w.op.CompleteAccept?
    ensures CompletionStory(w0, c, result, own + [e], CompleteResume(w, r, e.reply, here).(since := e.when))
  {
    hide NoDelete, ClosesWithRecovery, Completes, Indexed;
    Prefixes(own, e, c, result);
    IndexedLength(own, c, result, |own| - 1);
    assert (own + [e])[|own|] == e && (own + [e])[|own| - 1] == Last(own);
  }

  lemma IndexedLength(own: seq<Entry>, c: ClaimContext, result: ResultJson, n: int)
    requires Indexed(own, c, result, n)
    ensures 4 <= n <= 5 && n <= |own|
  {
  }

  lemma MessageDeleted(
    w0: Proc, c: ClaimContext, result: ResultJson, own: seq<Entry>, w: Proc, r: Readings, e: Entry, here: nat)
    requires Calls(w0, c, result, own, w, r, e) && w.op.CompleteSettle?
    ensures CompletionStory(w0, c, result, own + [e], CompleteResume(w, r, e.reply, here).(since := e.when))
  {
    hide NoDelete, Completes, Won;
    Prefixes(own, e, c, result);
    assert (own + [e])[|own|] == e;
    if !e.reply.Failed? {
      assert Dequeues(own + [e], c, result, |own|);
    }
  }

  lemma CompletionCall(
    w0: Proc, c: ClaimContext, result: ResultJson, own: seq<Entry>, w: Proc, r: Readings, e: Entry, here: nat)
    requires Calls(w0, c, result, own, w, r, e)
    ensures CompletionStory(w0, c, result, own + [e], CompleteResume(w, r, e.reply, here).(since := e.when))
  {
    hide CompletionStory, CompleteResume, Calls;
    assert Completing(w.op) by { CallsCompleting(w0, c, result, own, w, r, e); }
    match w.op {
      case CompleteRead(_, _) => RecordCalled(w0, c, result, own, w, r, e, here);
      case CompleteVerify(_, _, _) => VerifierCalled(w0, c, result, own, w, r, e, here);
      case CompleteReread(_, _, _, _) => RereadCalled(w0, c, result, own, w, r, e, here);
      case CompleteIndex(_, _, _, _, _) => IndexCalled(w0, c, result, own, w, r, e, here);
      case CompleteIndexCheck(_, _, _, _) => IndexChecked(w0, c, result, own, w, r, e, here);
      case CompleteFinalRead(_, _, _, _) => FinalReadCalled(w0, c, result, own, w, r, e, here);
      case CompleteAccept(_, _, _, _, _) => AcceptanceCalled(w0, c, result, own, w, r, e, here);
      case CompleteSettle(_, _) => MessageDeleted(w0, c, result, own, w, r, e, here);
    }
  }

  lemma CallsCompleting(w0: Proc, c: ClaimContext, result: ResultJson, own: seq<Entry>, w: Proc, r: Readings, e: Entry)
    requires Calls(w0, c, result, own, w, r, e)
    ensures Completing(w.op) && w.Holds(w.op.token)
  {
  }

  lemma ReplyRefuses(
    w0: Proc, c: ClaimContext, result: ResultJson, own: seq<Entry>, w: Proc, r: Readings, e: Entry, here: nat)
    requires Calls(w0, c, result, own, w, r, e)
    requires CompleteResume(w, r, e.reply, here).op == Idle(LeaseError(Complete(c.token, result)))
    ensures RefusedByReply(own + [e], c, result)
  {
    hide NoDelete, ClosesWithRecovery, CompletionEnds;
    Prefixes(own, e, c, result);
    assert forall i :: 0 <= i < |own| ==> (own + [e])[i] == own[i];
    if w.op.CompleteAccept? {
      IndexedLength(own, c, result, |own| - 1);
    }
  }

  /** A refusal without a call follows a reading of the clock against the record just read. */
  lemma CompletionStops(w0: Proc, c: ClaimContext, result: ResultJson, own: seq<Entry>, w: Proc, r: Readings, now: real)
    requires CompletionStory(w0, c, result, own, w) && Completing(w.op) && w.Holds(w.op.token)
    requires c.token in w0.claims && w0.claims[c.token] == c
    requires r.Within(w.since, now) && (own != [] ==> Last(own).when <= w.since) && CompleteTurn(w, r).Move?
    ensures CompletionStory(w0, c, result, own, CompleteTurn(w, r).proc.(since := now))
    ensures own != [] && ReadsRecord(Last(own), c.jobId) && !HeldAt(c, Last(own).reply.state, r.t0)
  {
    hide NoDelete, ClosesWithRecovery, Completes, Indexed;
    assert !HeldAt(c, Last(own).reply.state, r.t0);
  }

  lemma StoryOfRecovery(w0: Proc, c: ClaimContext, result: ResultJson, own: seq<Entry>, w: Proc)
    requires w.op.Idle? || InRecovery(w.op)
    ensures CompletionStory(w0, c, result, own, w) <==>
              w.options == w0.options &&
              if InRecovery(w.op) then ClosesWithRecovery(w0, c, result, own, w)
              else CompletionEnds(w0, c, result, own, w, w.op.last)
  {
    hide ClosesWithRecovery, CompletionEnds;
  }

  /** The recovery run at the end of a completion. */
  lemma CompletionRecovers(w0: Proc, c: ClaimContext, result: ResultJson, own: seq<Entry>, w: Proc, e: Entry, here: nat)
    requires CompletionStory(w0, c, result, own, w) && InRecovery(w.op)
    requires e.request == RecoverTurn(w).request && Answers(e.request, e.reply)
    ensures CompletionStory(w0, c, result, own + [e], RecoverResume(w, e.reply, here).(since := e.when))
  {
    hide CompletionStory, Dequeues, Recovering, RecoverResume, RecoveredBy;
    StoryOfRecovery(w0, c, result, own, w);
    var n :| Dequeues(own, c, result, n) && Recovering(own, w, n + 1);
    Prefixes(own, e, c, result);
    DequeuesIsFirst(own + [e], c, result, n);
    RecoveryCall(own, w, n + 1, e, here);
    var w' := RecoverResume(w, e.reply, here);
    if InRecovery(w'.op) && Recovering(own + [e], w', n + 1) {
      RecoveringIgnoresSince(own + [e], w', n + 1, e.when);
    }
    StoryOfRecovery(w0, c, result, own + [e], w'.(since := e.when));
  }

  lemma DequeuesIsFirst(own: seq<Entry>, c: ClaimContext, result: ResultJson, n: int)
    requires Dequeues(own, c, result, n)
    ensures 0 <= n < |own|
  {
  }
}
