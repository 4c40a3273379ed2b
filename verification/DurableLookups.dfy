/** How a completion on a claim the worker no longer holds goes, by the calls it makes. */
module DurableLookups {
  import opened Basics
  import opened FlashTypes
  import opened DurableJob
  import opened DurableWorker
  import opened DurableSystem
  import opened DurableTraces
  import opened DurableRecoveries

  predicate LooksUp(own: seq<Entry>, token: Token) {
    |own| >= 1 && own[0].request == ReadIndex(Sha256(token))
  }

  // The index names the job of the token, and its record is read.
  predicate ReadsNamed(own: seq<Entry>, token: Token) {
    && |own| >= 2 && LooksUp(own, token) && own[0].reply.Found? && own[0].reply.index.claimHash == Sha256(token)
    && ReadsRecord(own[1], own[0].reply.index.jobId)
  }

  // The record is accepted for the claim the index names, with this result.
  predicate WonAsIndexed(j: JobState, token: Token, result: ResultJson, index: ClaimIndex) {
    && j.acceptedClaimHash == Some(Sha256(token)) && j.acceptedGeneration == Some(index.generation)
    && j.acceptedAttemptId == Some(index.attemptId) && j.acceptedResult == Some(result)
  }

  predicate FindsAccepted(own: seq<Entry>, token: Token, result: ResultJson) {
    ReadsNamed(own, token) && WonAsIndexed(own[1].reply.state, token, result, own[0].reply.index)
  }

  /** The index does not know the token, or the job it names is not accepted for it with this result. */
  predicate LookupRefused(own: seq<Entry>, token: Token, result: ResultJson) {
    || (|own| == 1 && LooksUp(own, token) &&
        (own[0].reply.Missing? || (own[0].reply.Found? && own[0].reply.index.claimHash != Sha256(token))))
    || (|own| == 2 && ReadsNamed(own, token) &&
        !WonAsIndexed(own[1].reply.state, token, result, own[0].reply.index))
  }

  ghost predicate LookupStory(w0: Proc, token: Token, result: ResultJson, own: seq<Entry>, w: Proc) {
    && w.options == w0.options && w.claims == w0.claims
    && match w.op
       case CompleteLookup(t, r) => t == token && r == result && own == []
       case CompleteConfirm(t, r, index) =>
         && t == token && r == result && |own| == 1 && LooksUp(own, token)
         && own[0].reply == Found(index) && index.claimHash == Sha256(token)
       case Idle(Completed(t, r)) =>
         && t == token && r == result && FindsAccepted(own, token, result)
         && |own| > 3 && RecoveredBy(own, 2, |own| - 1, w.options.recoveryScanLimit)
       case Idle(LeaseError(call)) => call == Complete(token, result) && LookupRefused(own, token, result)
       case Idle(OtherError(call)) => call == Complete(token, result) && LastRaised(own)
       case _ =>
         && InRecovery(w.op) && w.op.after == ThenReturn(token, result)
         && FindsAccepted(own, token, result) && Recovering(own, w, 2)
  }

  lemma LookupCall(w0: Proc, token: Token, result: ResultJson, own: seq<Entry>, w: Proc, e: Entry)
    requires LookupStory(w0, token, result, own, w) && (w.op.CompleteLookup? || w.op.CompleteConfirm?)
    requires LookupTurn(w) == Ask(e.request) && Answers(e.request, e.reply)
    ensures LookupStory(w0, token, result, own + [e], LookupResume(w, e.reply).(since := e.when))
  {
    hide RecoveredBy;
    assert (own + [e])[|own|] == e && (own != [] ==> (own + [e])[0] == own[0]);
  }

  lemma LookupRecovers(w0: Proc, token: Token, result: ResultJson, own: seq<Entry>, w: Proc, e: Entry, here: nat)
    requires LookupStory(w0, token, result, own, w) && InRecovery(w.op)
    requires e.request == RecoverTurn(w).request && Answers(e.request, e.reply)
    ensures LookupStory(w0, token, result, own + [e], RecoverResume(w, e.reply, here).(since := e.when))
  {
    hide Recovering, RecoverResume, RecoveredBy, WonAsIndexed;
    RecoveryCall(own, w, 2, e, here);
    assert (own + [e])[0] == own[0] && (own + [e])[1] == own[1];
    var w' := RecoverResume(w, e.reply, here);
    if InRecovery(w'.op) && Recovering(own + [e], w', 2) {
      RecoveringIgnoresSince(own + [e], w', 2, e.when);
    }
  }
}
