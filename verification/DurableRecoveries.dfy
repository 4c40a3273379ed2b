/** What a notification recovery run has done by the time it gives way to what follows it. */
module DurableRecoveries {
  import opened Basics
  import opened FlashTypes
  import opened DurableWorker
  import opened DurableSystem
  import opened DurableTraces

  predicate InRecovery(op: Op) {
    op.RecoverPage? || op.RecoverRead? || op.RecoverNotify? || op.RecoverMark?
  }

  // The record of the job in hand was read by entry `i` and is waiting.
  predicate InHand(own: seq<Entry>, i: int, snap: Snapshot) {
    && 0 <= i < |own| && ReadsRecord(own[i], snap.state.jobId)
    && own[i].reply.state == snap.state && IsPending(snap.state)
  }

  /** A recovery run whose page is, or will be, listed by entry `m`. */
  ghost predicate Recovering(own: seq<Entry>, w: Proc, m: int) {
    var limit := w.options.recoveryScanLimit;
    match w.op
    case RecoverPage(_) => m == |own|
    case RecoverRead(todo, _) => UnderWayFrom(own, m, limit, todo)
    case RecoverNotify(rest, snap, attempt, result, _) =>
      && InHand(own, |own| - 1, snap)
      && snap.state.acceptedAttemptId == Some(attempt) && snap.state.acceptedResult == Some(result)
      && UnderWayFrom(own[..|own| - 1], m, limit, [snap.state.jobId] + rest)
    case RecoverMark(rest, snap, _, _) =>
      && InHand(own, |own| - 2, snap) && Notifies(Last(own), snap.state) && Last(own).reply.Done?
      && UnderWayFrom(own[..|own| - 2], m, limit, [snap.state.jobId] + rest)
    case _ => false
  }

  /** The run is over: its page is recovered and control is back, or its last call raised. */
  ghost predicate RecoveryEnds(own: seq<Entry>, w: Proc, m: int, w': Proc)
    requires InRecovery(w.op)
  {
    || (0 <= m < |own| - 1 && RecoveredBy(own, m, |own| - 1, w.options.recoveryScanLimit)
        && w' == Continue(w, w.op.after))
    || (LastRaised(own) && w' == Stop(w, OtherError(CallOf(w.op.after))))
  }

  lemma JobIsDone(own: seq<Entry>, own': seq<Entry>, m: int, limit: nat, job: JobId, rest: seq<JobId>)
    requires UnderWayFrom(own, m, limit, [job] + rest)
    requires own <= own' && |own'| <= |own| + 3 && AttemptedAt(own', |own|, job)
    ensures UnderWayFrom(own', m, limit, rest)
  {
    assert own'[m] == own[m];
    forall other | other in own'[m].reply.jobs && other !in rest
      ensures exists i :: m < i && AttemptedAt(own', i, other)
    {
      if other == job {
        assert m < |own| && AttemptedAt(own', |own|, job);
      } else {
        assert other !in [job] + rest;
        var i :| m < i && AttemptedAt(own, i, other);
        AttemptExtends(own, own', i, other);
      }
    }
  }

  lemma AttemptExtends(own: seq<Entry>, own': seq<Entry>, i: int, job: JobId)
    requires own <= own' && AttemptedAt(own, i, job)
    ensures AttemptedAt(own', i, job)
  {
  }

  lemma PageListed(own: seq<Entry>, w: Proc, m: int, e: Entry, here: nat)
    requires w.op.RecoverPage? && Recovering(own, w, m)
    requires e.request == RecoverTurn(w).request && Answers(e.request, e.reply)
    ensures e.reply.Page? ==> Recovering(own + [e], RecoverResume(w, e.reply, here), m)
    ensures !e.reply.Page? ==> RecoveryEnds(own + [e], w, m, RecoverResume(w, e.reply, here))
  {
    assert (own + [e])[|own|] == e;
  }

  lemma CursorSaved(own: seq<Entry>, w: Proc, m: int, e: Entry, here: nat)
    requires w.op.RecoverRead? && w.op.todo == [] && Recovering(own, w, m)
    requires e.request == RecoverTurn(w).request && Answers(e.request, e.reply)
    ensures RecoveryEnds(own + [e], w, m, RecoverResume(w, e.reply, here))
  {
    var own' := own + [e];
    if !e.reply.Failed? {
      assert own'[m] == own[m] && own'[|own|] == e;
      forall job | job in own'[m].reply.jobs ensures exists i :: m < i < |own| && AttemptedAt(own', i, job) {
        var i :| m < i && AttemptedAt(own, i, job);
        AttemptStays(own, e, i, job);
      }
      assert RecoveredBy(own', m, |own|, w.options.recoveryScanLimit);
    }
  }

  lemma RecordRead(own: seq<Entry>, w: Proc, m: int, e: Entry, here: nat)
    requires w.op.RecoverRead? && w.op.todo != [] && Recovering(own, w, m)
    requires e.request == RecoverTurn(w).request && Answers(e.request, e.reply)
    ensures e.reply.Loaded? ==> Recovering(own + [e], RecoverResume(w, e.reply, here), m)
    ensures !e.reply.Loaded? ==> RecoveryEnds(own + [e], w, m, RecoverResume(w, e.reply, here))
  {
    var own' := own + [e];
    assert own'[|own|] == e && own'[..|own'| - 1] == own;
    assert w.op.todo == [w.op.todo[0]] + w.op.todo[1..];
    if e.reply.Loaded? && !IsPending(e.reply.state) {
      JobIsDone(own, own', m, w.options.recoveryScanLimit, w.op.todo[0], w.op.todo[1..]);
    }
  }

  lemma DestinationCalled(own: seq<Entry>, w: Proc, m: int, e: Entry, here: nat)
    requires w.op.RecoverNotify? && Recovering(own, w, m)
    requires e.request == RecoverTurn(w).request && Answers(e.request, e.reply)
    ensures Recovering(own + [e], RecoverResume(w, e.reply, here), m)
  {
    var own' := own + [e];
    assert own'[|own| - 1] == own[|own| - 1] && own'[|own|] == e && own'[..|own'| - 2] == own[..|own| - 1];
    if !e.reply.Done? {
      JobIsDone(own[..|own| - 1], own', m, w.options.recoveryScanLimit, w.op.snap.state.jobId, w.op.rest);
    }
  }

  lemma RecordMarked(own: seq<Entry>, w: Proc, m: int, e: Entry, here: nat)
    requires w.op.RecoverMark? && Recovering(own, w, m)
    requires e.request == RecoverTurn(w).request && Answers(e.request, e.reply)
    ensures !e.reply.Failed? ==> Recovering(own + [e], RecoverResume(w, e.reply, here), m)
    ensures e.reply.Failed? ==> RecoveryEnds(own + [e], w, m, RecoverResume(w, e.reply, here))
  {
    var own' := own + [e];
    assert own'[|own| - 2] == own[|own| - 2] && own'[|own| - 1] == own[|own| - 1] && own'[|own|] == e;
    if !e.reply.Failed? {
      JobIsDone(own[..|own| - 2], own', m, w.options.recoveryScanLimit, w.op.snap.state.jobId, w.op.rest);
    }
  }

  /** One more call of a recovery run carries it on or ends it; nothing else of the worker changes. */
  lemma RecoveryCall(own: seq<Entry>, w: Proc, m: int, e: Entry, here: nat)
    requires InRecovery(w.op) && Recovering(own, w, m)
    requires e.request == RecoverTurn(w).request && Answers(e.request, e.reply)
    ensures var w' := RecoverResume(w, e.reply, here);
            || RecoveryEnds(own + [e], w, m, w')
            || (w' == At(w, w'.op) && InRecovery(w'.op) && w'.op.after == w.op.after && Recovering(own + [e], w', m))
  {
    hide Recovering, RecoveryEnds;
    match w.op {
      case RecoverPage(_) => PageListed(own, w, m, e, here);
      case RecoverRead(todo, _) =>
        if todo == [] { CursorSaved(own, w, m, e, here); } else { RecordRead(own, w, m, e, here); }
      case RecoverNotify(_, _, _, _, _) => DestinationCalled(own, w, m, e, here);
      case RecoverMark(_, _, _, _) => RecordMarked(own, w, m, e, here);
    }
  }

  lemma RecoveringIgnoresSince(own: seq<Entry>, w: Proc, m: int, t: real)
    requires Recovering(own, w, m)
    ensures Recovering(own, w.(since := t), m)
  {
  }
}
