/** How an enqueue goes, by the calls it makes. */
module DurableEnqueues {
  import opened Basics
  import opened FlashTypes
  import opened DurableJob
  import opened DurableWorker
  import opened DurableSystem
  import opened DurableTraces

  const LOWER := "abcdefghijklmnopqrstuvwxyz"
  const UPPER := "ABCDEFGHIJKLMNOPQRSTUVWXYZ"
  const OTHER := "0123456789-_"

  predicate IsPathSegment(job: JobId) {
    job != "" && forall i :: 0 <= i < |job| ==> job[i] in LOWER || job[i] in UPPER || job[i] in OTHER
  }

  // A new record of the job under this contract, started at a time from `from` up to the upload.
  predicate Registers(e: Entry, job: JobId, contract: WorkContract, from: real) {
    && e.request.CreateJob? && from <= e.request.state.startedAt <= e.when
    && e.request.state == JobState(job, contract, e.request.state.startedAt, 0, 0, None, None,
                                   None, None, None, None, None, false, false)
  }

  // The job exists, and the record read is of the same contract.
  predicate Rereads(own: seq<Entry>, job: JobId, contract: WorkContract) {
    && |own| >= 2 && own[0].reply.Conflict? && ReadsRecord(own[1], job)
    && own[1].reply.state.contract == contract
  }

  /** The reference was sent, or the job was found accepted under this very contract. */
  predicate Enqueued(own: seq<Entry>, job: JobId, contract: WorkContract) {
    || (|own| == 2 && own[0].reply.Done? && own[1].request == SendMessage(job) && own[1].reply == Done)
    || (|own| == 3 && Rereads(own, job, contract) && own[1].reply.state.acceptedResult == None
        && own[2].request == SendMessage(job) && own[2].reply == Done)
    || (|own| == 2 && Rereads(own, job, contract) && own[1].reply.state.acceptedResult != None)
  }

  /** The id is unsafe, the job exists under another contract, or the last call raised. */
  predicate EnqueueRaises(own: seq<Entry>, job: JobId, contract: WorkContract) {
    || (own == [] && !IsPathSegment(job))
    || (|own| == 2 && own[0].reply.Conflict? && ReadsRecord(own[1], job) && own[1].reply.state.contract != contract)
    || LastRaised(own)
  }

  predicate EnqueueStory(w0: Proc, job: JobId, contract: WorkContract, own: seq<Entry>, w: Proc) {
    && w.claims == w0.claims && (own != [] ==> IsPathSegment(job) && Registers(own[0], job, contract, w0.since))
    && match w.op
       case EnqueueCreate(b, k) => b == job && k == contract && own == [] && IsPathSegment(job)
       case EnqueueCheck(b, k) => b == job && k == contract && |own| == 1 && own[0].reply.Conflict?
       case EnqueueSend(b, k) =>
         && b == job && k == contract
         && (|| (|own| == 1 && own[0].reply.Done?)
             || (|own| == 2 && Rereads(own, job, contract) && own[1].reply.state.acceptedResult == None))
       case Idle(Nothing) => Enqueued(own, job, contract)
       case Idle(OtherError(call)) => call == Enqueue(job, contract) && EnqueueRaises(own, job, contract)
       case _ => false
  }

  lemma LowerCase(c: char)
    ensures c in LOWER <==> 'a' <= c <= 'z'
  {
    if 'a' <= c <= 'z' {
      assert LOWER[c as int - 'a' as int] == c;
    }
  }

  lemma UpperCase(c: char)
    ensures c in UPPER <==> 'A' <= c <= 'Z'
  {
    if 'A' <= c <= 'Z' {
      assert UPPER[c as int - 'A' as int] == c;
    }
  }

  lemma OtherIdCharacter(c: char)
    ensures c in OTHER <==> '0' <= c <= '9' || c == '-' || c == '_'
  {
    assert OTHER[10] == '-' && OTHER[11] == '_';
    if '0' <= c <= '9' {
      assert OTHER[c as int - '0' as int] == c;
    }
  }

  lemma PathSafeIsSegment(job: JobId)
    ensures PathSafe(job) <==> IsPathSegment(job)
  {
    forall i | 0 <= i < |job| ensures IdChar(job[i]) <==> job[i] in LOWER || job[i] in UPPER || job[i] in OTHER {
      LowerCase(job[i]);
      UpperCase(job[i]);
      OtherIdCharacter(job[i]);
    }
  }

  lemma EnqueueBegins(w0: Proc, job: JobId, contract: WorkContract)
    ensures EnqueueStory(w0, job, contract, [], Begin(w0, Enqueue(job, contract)))
  {
    PathSafeIsSegment(job);
  }

  lemma EnqueueCall(w0: Proc, job: JobId, contract: WorkContract, own: seq<Entry>, w: Proc,
                    r: Readings, e: Entry)
    requires EnqueueStory(w0, job, contract, own, w)
    requires w.op.EnqueueCreate? || w.op.EnqueueCheck? || w.op.EnqueueSend?
    requires w0.since <= w.since && r.Within(w.since, e.when)
    requires EnqueueTurn(w, r) == Ask(e.request) && Answers(e.request, e.reply)
    ensures EnqueueStory(w0, job, contract, own + [e], EnqueueResume(w, e.reply))
  {
    var own' := own + [e];
    assert own'[|own|] == e && (|own| > 0 ==> own'[0] == own[0]) && (|own| > 1 ==> own'[1] == own[1]);
  }
}
