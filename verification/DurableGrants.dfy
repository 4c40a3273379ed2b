/** How a claim goes, by the calls it makes. */
module DurableGrants {
  import opened Basics
  import opened FlashTypes
  import opened DurableJob
  import opened DurableWorker
  import opened DurableSystem
  import opened DurableTraces
  import opened DurableRecoveries

  // ----- records -----

  predicate LiveAt(j: JobState, t: real) {
    && j.leaseExpiresAt.Some? && t < j.leaseExpiresAt.value
    && t < j.startedAt + j.contract.budget.wallSeconds
  }

  // The record is neither accepted nor terminal, its last attempt is over, and attempts and time are left.
  predicate OpenAt(j: JobState, t: real) {
    && j.acceptedResult == None && j.terminalReason == None && !LiveAt(j, t)
    && j.attemptNumber < j.contract.budget.maxAttempts && t < j.startedAt + j.contract.budget.wallSeconds
  }

  // The record is neither accepted nor terminal, its last attempt is over, and no attempt or no time is left.
  predicate SpentAt(j: JobState, t: real) {
    && j.acceptedResult == None && j.terminalReason == None && !LiveAt(j, t)
    && (j.attemptNumber >= j.contract.budget.maxAttempts || j.startedAt + j.contract.budget.wallSeconds <= t)
  }

  // The lease granted at `t` under `token`: one full lease, cut off at the deadline.
  function Granted(j: JobState, token: Token, lease: real, t: real): JobState {
    var wall := j.startedAt + j.contract.budget.wallSeconds;
    j.(generation := j.generation + 1, attemptNumber := j.attemptNumber + 1, leaseId := Some(Sha256(token)),
       leaseExpiresAt := Some(if t + lease <= wall then t + lease else wall))
  }

  function Spent(j: JobState): JobState {
    j.(terminalReason :=
         Some(if j.attemptNumber >= j.contract.budget.maxAttempts then AttemptBudgetExhausted else WallBudgetExpired))
  }

  // ----- the calls from one message on -----

  // A message is received and the record it refers to read.
  predicate Takes(own: seq<Entry>, n: int, lease: real) {
    && 0 <= n && n + 1 < |own| && own[n].request == ReceiveMessage(lease) && own[n].reply.Got?
    && ReadsRecord(own[n + 1], own[n].reply.message.job)
  }

  predicate Deletes(e: Entry, m: Received) {
    e.request == DeleteMessage(m.id, m.receipt, m.job)
  }

  // A message of an accepted job is received and deleted.
  predicate Drains(own: seq<Entry>, n: int, lease: real) {
    && Takes(own, n, lease) && n + 2 < |own| && own[n + 1].reply.state.acceptedResult != None
    && Deletes(own[n + 2], own[n].reply.message) && own[n + 2].reply.Done?
  }

  // The record just read is written as `next`.
  predicate Puts(own: seq<Entry>, n: int, lease: real, next: JobState) {
    && Takes(own, n, lease) && n + 2 < |own| && own[n + 2].request.WriteJob?
    && own[n + 2].request.version == own[n + 1].reply.version && own[n + 2].request.next == next
  }

  // At `t`, between the reading and the writing, the record was open, and the lease is granted from then on.
  predicate GrantsAt(own: seq<Entry>, n: int, lease: real, token: Token, t: real) {
    && Takes(own, n, lease) && n + 2 < |own| && own[n + 1].when <= t <= own[n + 2].when
    && OpenAt(own[n + 1].reply.state, t) && Puts(own, n, lease, Granted(own[n + 1].reply.state, token, lease, t))
  }

  ghost predicate PutsGrant(own: seq<Entry>, n: int, lease: real, token: Token) {
    exists t: real :: GrantsAt(own, n, lease, token, t)
  }

  predicate SpentBy(own: seq<Entry>, n: int, lease: real, t: real) {
    && Takes(own, n, lease) && n + 2 < |own| && own[n + 1].when <= t <= own[n + 2].when
    && SpentAt(own[n + 1].reply.state, t) && Puts(own, n, lease, Spent(own[n + 1].reply.state))
  }

  ghost predicate PutsSpent(own: seq<Entry>, n: int, lease: real) {
    exists t: real :: SpentBy(own, n, lease, t)
  }

  // ----- the whole claim -----

  // A page is recovered first, up to entry `b`; then `k` messages of accepted jobs are drained.
  ghost predicate Drained(own: seq<Entry>, b: int, k: int, o: Options) {
    && 2 <= b && 0 <= k <= o.acceptedTriggerDrainLimit && b + 3 * k <= |own|
    && RecoveredBy(own, 0, b - 1, o.recoveryScanLimit) && AllDrained(own, b, k, o.leaseSeconds as real)
  }

  ghost predicate AllDrained(own: seq<Entry>, b: int, k: int, lease: real) {
    forall i :: 0 <= i < k ==> DrainedAt(own, b, i, lease)
  }

  predicate DrainedAt(own: seq<Entry>, b: int, i: int, lease: real) {
    Drains(own, b + 3 * i, lease)
  }

  // The claims kept from the start are those whose lease, as delivered, was not over at `t`.
  predicate KeptAt(start: map<Token, ClaimContext>, kept: map<Token, ClaimContext>, t: real) {
    && (forall x :: x in start && t < start[x].delivery.leaseExpiresAt ==> x in kept)
    && (forall x :: x in kept ==> x in start && kept[x] == start[x] && t < start[x].delivery.leaseExpiresAt)
  }

  ghost predicate Kept(w0: Proc, kept: map<Token, ClaimContext>, end: real) {
    exists t: real :: w0.since <= t <= end && KeptAt(w0.claims, kept, t)
  }

  predicate UnsettledRead(own: seq<Entry>, n: int, lease: real) {
    && Takes(own, n, lease) && own[n + 1].reply.state.acceptedResult == None
    && own[n + 1].reply.state.terminalReason == None
  }

  ghost predicate LiveSince(j: JobState, from: real, end: real) {
    exists t: real :: from <= t <= end && LiveAt(j, t)
  }

  /** Why a claim may return without a delivery, by its calls from position `n` on. */
  ghost predicate NothingToClaim(own: seq<Entry>, n: int, lease: real, end: real) {
    && 0 <= n
    && (|| (|own| == n + 1 && own[n].request == ReceiveMessage(lease) && own[n].reply.Empty?)
        || (|own| == n + 2 && UnsettledRead(own, n, lease) && LiveSince(own[n + 1].reply.state, own[n + 1].when, end))
        || (|own| == n + 3 && (PutsSpent(own, n, lease) || exists token :: PutsGrant(own, n, lease, token)) &&
            own[n + 2].reply.Conflict?)
        || (|own| == n + 3 && Takes(own, n, lease) && own[n + 1].reply.state.acceptedResult == None &&
            own[n + 1].reply.state.terminalReason != None &&
            Deletes(own[n + 2], own[n].reply.message) && own[n + 2].reply.Done?)
        || (|own| == n + 4 && PutsSpent(own, n, lease) && own[n + 2].reply.Done? &&
            own[n].reply.Got? && Deletes(own[n + 3], own[n].reply.message) && own[n + 3].reply.Done?))
  }

  // The grant was committed, and what is delivered is that grant.
  ghost predicate Delivers(own: seq<Entry>, n: int, lease: real, d: Delivery<AttemptId, Token>) {
    && 0 <= n && |own| == n + 3 && Takes(own, n, lease) && PutsGrant(own, n, lease, d.leaseId)
    && own[n + 2].request.WriteJob? && own[n + 2].reply.Done?
    && var j, m := own[n + 1].reply.state, own[n].reply.message;
       && d.jobId == m.job && d.contractId == j.contract.contractId
       && d.attemptId == AttemptId(m.job, j.attemptNumber + 1)
       && Some(d.leaseExpiresAt) == own[n + 2].request.next.leaseExpiresAt
  }

  function ContextOf(own: seq<Entry>, n: int, d: Delivery<AttemptId, Token>): ClaimContext
    requires 0 <= n && n + 1 < |own| && own[n].reply.Got? && own[n + 1].reply.Loaded?
  {
    var m := own[n].reply.message;
    ClaimContext(d.leaseId, m.job, d.attemptId, own[n + 1].reply.state.generation + 1, m, m.receipt, d)
  }

  ghost predicate ClaimEnds(w0: Proc, own: seq<Entry>, w: Proc, last: Outcome) {
    var o := w0.options;
    var lease := o.leaseSeconds as real;
    match last
    case Nothing =>
      && Kept(w0, w.claims, w.since)
      && (|| (own == [] && |w.claims| >= o.maxLocalClaims)
          || exists b, k :: Drained(own, b, k, o) &&
               ((k == o.acceptedTriggerDrainLimit && |own| == b + 3 * k) ||
                (k < o.acceptedTriggerDrainLimit && NothingToClaim(own, b + 3 * k, lease, w.since))))
    case Delivered(d) =>
      exists b, k, kept :: Kept(w0, kept, w.since) && Drained(own, b, k, o) && k < o.acceptedTriggerDrainLimit &&
        Delivers(own, b + 3 * k, lease, d) && w.claims == kept[d.leaseId := ContextOf(own, b + 3 * k, d)]
    case OtherError(call) =>
      call == Claim && Kept(w0, w.claims, w.since) && (LastRaised(own) || LastDeleteMisses(own))
    case _ => false
  }

  predicate LastDeleteMisses(own: seq<Entry>) {
    own != [] && Last(own).request.DeleteMessage? && Last(own).reply.Gone?
  }

  // ----- a claim under way -----

  predicate Claiming(op: Op) {
    op.ClaimReceive? || op.ClaimRead? || op.ClaimWrite? || op.ClaimDiscard?
  }

  // All but the last `extra` calls recovered a page and drained the messages taken off the limit.
  ghost predicate DrainedBut(own: seq<Entry>, extra: int, left: nat, o: Options) {
    var k := o.acceptedTriggerDrainLimit - left;
    Drained(own, |own| - extra - 3 * k, k, o)
  }

  predicate TakesLast(own: seq<Entry>, m: Received, lease: real) {
    Takes(own, |own| - 2, lease) && own[|own| - 2].reply.message == m
  }

  ghost predicate ClaimProceeds(own: seq<Entry>, w: Proc) {
    var o := w.options;
    var lease := o.leaseSeconds as real;
    match w.op
    case ClaimReceive(left) => DrainedBut(own, 0, left, o)
    case ClaimRead(m, left) =>
      && left > 0 && DrainedBut(own, 1, left, o) && own != []
      && Last(own).request == ReceiveMessage(lease) && Last(own).reply == Got(m)
    case ClaimWrite(m, snap, left) =>
      && left > 0 && DrainedBut(own, 2, left, o) && TakesLast(own, m, lease)
      && Last(own).reply == Loaded(snap.state, snap.version)
      && snap.state.acceptedResult == None && snap.state.terminalReason == None
    case ClaimDiscard(m, accepted, left) =>
      && left > 0
      && (|| (DrainedBut(own, 2, left, o) && TakesLast(own, m, lease)
              && accepted == (Last(own).reply.state.acceptedResult != None)
              && (Last(own).reply.state.acceptedResult != None || Last(own).reply.state.terminalReason != None))
          || (!accepted && DrainedBut(own, 3, left, o) && Takes(own, |own| - 3, lease)
              && PutsSpent(own, |own| - 3, lease) && own[|own| - 3].reply.message == m && Last(own).reply.Done?))
    case _ => false
  }

  ghost predicate ClaimStory(w0: Proc, own: seq<Entry>, w: Proc) {
    && w.options == w0.options
    && (w.op.Idle? ==> ClaimEnds(w0, own, w, w.op.last))
    && (w.op.ClaimBegin? ==> own == [] && w.claims == w0.claims)
    && (InRecovery(w.op) ==> Kept(w0, w.claims, w.since) && w.op.after == ThenReceive && Recovering(own, w, 0))
    && (Claiming(w.op) ==> Kept(w0, w.claims, w.since) && ClaimProceeds(own, w))
    && (w.op.Idle? || w.op.ClaimBegin? || InRecovery(w.op) || Claiming(w.op))
  }

  // ----- its calls -----

  lemma DrainedStays(own: seq<Entry>, e: Entry, b: int, k: int, o: Options)
    requires Drained(own, b, k, o)
    ensures Drained(own + [e], b, k, o)
  {
    RecoveryStays(own, e, 0, b - 1, o.recoveryScanLimit);
    var lease := o.leaseSeconds as real;
    forall i | 0 <= i < k ensures DrainedAt(own + [e], b, i, lease) {
      assert DrainedAt(own, b, i, lease);
    }
  }

  lemma DrainedOneMore(own: seq<Entry>, b: int, k: int, o: Options)
    requires Drained(own, b, k, o) && k < o.acceptedTriggerDrainLimit && DrainedAt(own, b, k, o.leaseSeconds as real)
    ensures Drained(own, b, k + 1, o)
  {
  }

  lemma KeptLater(w0: Proc, kept: map<Token, ClaimContext>, end: real, later: real)
    requires Kept(w0, kept, end) && end <= later
    ensures Kept(w0, kept, later)
  {
  }

  // Worker `w`, `own` calls into a claim, makes call `e`.
  ghost predicate Calls(w0: Proc, own: seq<Entry>, w: Proc, r: Readings, minted: Token, e: Entry) {
    && ClaimStory(w0, own, w) && Claiming(w.op) && w0.since <= w.since
    && r.Within(w.since, e.when) && (own != [] ==> Last(own).when <= w.since)
    && ClaimTurn(w, r, minted) == Ask(e.request) && Answers(e.request, e.reply)
  }

  lemma CallKeeps(w0: Proc, own: seq<Entry>, w: Proc, r: Readings, minted: Token, e: Entry, extra: int, left: nat)
    requires Calls(w0, own, w, r, minted, e)
    ensures Kept(w0, w.claims, e.when)
    ensures DrainedBut(own, extra, left, w.options) ==> DrainedBut(own + [e], extra + 1, left, w.options)
    ensures (own + [e])[|own|] == e && forall i :: 0 <= i < |own| ==> (own + [e])[i] == own[i]
  {
    KeptLater(w0, w.claims, w.since, e.when);
    var k := w.options.acceptedTriggerDrainLimit - left;
    if DrainedBut(own, extra, left, w.options) {
      DrainedStays(own, e, |own| - extra - 3 * k, k, w.options);
    }
  }

  lemma MessageTaken(w0: Proc, own: seq<Entry>, w: Proc, r: Readings, minted: Token, e: Entry, here: nat)
    requires Calls(w0, own, w, r, minted, e) && w.op.ClaimReceive?
    ensures ClaimStory(w0, own + [e], ClaimResume(w, r, minted, e.reply, here).(since := e.when))
  {
    hide Drained, Kept, Recovering, Delivers;
    var k := w.options.acceptedTriggerDrainLimit - w.op.left;
    CallKeeps(w0, own, w, r, minted, e, 0, w.op.left);
    assert DrainedBut(own + [e], 1, w.op.left, w.options);
    if e.reply.Empty? {
      assert NothingToClaim(own + [e], |own|, w.options.leaseSeconds as real, e.when);
      assert Drained(own + [e], |own| - 3 * k, k, w.options);
    }
  }

  lemma RecordTaken(w0: Proc, own: seq<Entry>, w: Proc, r: Readings, minted: Token, e: Entry, here: nat)
    requires Calls(w0, own, w, r, minted, e) && w.op.ClaimRead?
    ensures ClaimStory(w0, own + [e], ClaimResume(w, r, minted, e.reply, here).(since := e.when))
  {
    hide Drained, Kept, Recovering, Delivers, NothingToClaim;
    CallKeeps(w0, own, w, r, minted, e, 1, w.op.left);
  }

  // What the write of a claim says, by the clock reading it was decided at.
  lemma WriteIs(w0: Proc, own: seq<Entry>, w: Proc, r: Readings, minted: Token, e: Entry)
    requires Calls(w0, own, w, r, minted, e) && w.op.ClaimWrite?
    ensures var decision := ClaimDecision(w, w.op.snap, r.t0, minted);
            var n, lease := |own| - 2, w.options.leaseSeconds as real;
            && Takes(own + [e], n, lease) && (own + [e])[n].reply.message == w.op.message && decision.Some?
            && (own + [e])[n + 1].reply.state == w.op.snap.state && (own + [e])[n + 2] == e
            && e.request.WriteJob? && e.request.next == decision.value.0
            && (decision.value.1.Claimed? ==>
                  && GrantsAt(own + [e], n, lease, minted, r.t0)
                  && decision.value.0 == Granted(w.op.snap.state, minted, lease, r.t0))
            && (!decision.value.1.Claimed? ==> SpentBy(own + [e], n, lease, r.t0))
  {
    hide Drained, Kept, Recovering, Delivers, NothingToClaim, ClaimEnds;
    assert (own + [e])[|own|] == e && forall i :: 0 <= i < |own| ==> (own + [e])[i] == own[i];
  }

  lemma RecordWritten(w0: Proc, own: seq<Entry>, w: Proc, r: Readings, minted: Token, e: Entry, here: nat)
    requires Calls(w0, own, w, r, minted, e) && w.op.ClaimWrite?
    ensures ClaimStory(w0, own + [e], ClaimResume(w, r, minted, e.reply, here).(since := e.when))
  {
    hide Drained, Kept, Recovering, GrantsAt, SpentBy;
    var left := w.op.left;
    var k := w.options.acceptedTriggerDrainLimit - left;
    CallKeeps(w0, own, w, r, minted, e, 2, left);
    WriteIs(w0, own, w, r, minted, e);
    assert DrainedBut(own + [e], 3, left, w.options) && Drained(own + [e], |own| - 2 - 3 * k, k, w.options);
    if e.reply.Conflict? {
      var n, lease := |own| - 2, w.options.leaseSeconds as real;
      assert PutsSpent(own + [e], n, lease) || PutsGrant(own + [e], n, lease, minted);
      assert NothingToClaim(own + [e], n, w.options.leaseSeconds as real, e.when);
    } else if e.reply.Done? && ClaimDecision(w, w.op.snap, r.t0, minted).value.1.Claimed? {
      GrantDelivered(w0, own, w, r, minted, e, here);
    }
  }

  lemma GrantDelivered(w0: Proc, own: seq<Entry>, w: Proc, r: Readings, minted: Token, e: Entry, here: nat)
    requires Calls(w0, own, w, r, minted, e) && w.op.ClaimWrite? && e.reply.Done?
    requires ClaimDecision(w, w.op.snap, r.t0, minted).Some?
    requires ClaimDecision(w, w.op.snap, r.t0, minted).value.1.Claimed?
    ensures ClaimStory(w0, own + [e], ClaimResume(w, r, minted, e.reply, here).(since := e.when))
  {
    hide Drained, Kept, Recovering, GrantsAt, NothingToClaim;
    var left := w.op.left;
    var k := w.options.acceptedTriggerDrainLimit - left;
    var n := |own| - 2;
    CallKeeps(w0, own, w, r, minted, e, 2, left);
    WriteIs(w0, own, w, r, minted, e);
    assert Drained(own + [e], n - 3 * k, k, w.options) by { assert DrainedBut(own + [e], 3, left, w.options); }
    var w' := ClaimResume(w, r, minted, e.reply, here);
    var d := w'.op.last.delivery;
    assert PutsGrant(own + [e], n, w.options.leaseSeconds as real, minted);
    assert Delivers(own + [e], n, w.options.leaseSeconds as real, d);
    assert w'.claims == w.claims[minted := ContextOf(own + [e], n, d)];
    assert n == (n - 3 * k) + 3 * k;
  }

  lemma MessageDrained(w0: Proc, own: seq<Entry>, w: Proc, r: Readings, minted: Token, e: Entry, here: nat)
    requires Calls(w0, own, w, r, minted, e) && w.op.ClaimDiscard? && w.op.accepted
    ensures ClaimStory(w0, own + [e], ClaimResume(w, r, minted, e.reply, here).(since := e.when))
  {
    hide Drained, Kept, Recovering, Delivers, NothingToClaim;
    var left := w.op.left;
    var k := w.options.acceptedTriggerDrainLimit - left;
    var own' := own + [e];
    CallKeeps(w0, own, w, r, minted, e, 2, left);
    if e.reply.Done? {
      assert DrainedBut(own', 3, left, w.options);
      assert DrainedAt(own', |own| - 2 - 3 * k, k, w.options.leaseSeconds as real);
      DrainedOneMore(own', |own| - 2 - 3 * k, k, w.options);
      assert DrainedBut(own', 0, left - 1, w.options);
    }
  }

  lemma MessageDiscarded(w0: Proc, own: seq<Entry>, w: Proc, r: Readings, minted: Token, e: Entry, here: nat)
    requires Calls(w0, own, w, r, minted, e) && w.op.ClaimDiscard? && !w.op.accepted
    ensures ClaimStory(w0, own + [e], ClaimResume(w, r, minted, e.reply, here).(since := e.when))
  {
    hide Drained, Kept, Recovering, Delivers;
    var left, lease := w.op.left, w.options.leaseSeconds as real;
    var k := w.options.acceptedTriggerDrainLimit - left;
    var own' := own + [e];
    CallKeeps(w0, own, w, r, minted, e, 2, left);
    CallKeeps(w0, own, w, r, minted, e, 3, left);
    if e.reply.Done? {
      if DrainedBut(own, 2, left, w.options) && TakesLast(own, w.op.message, lease) {
        assert NothingToClaim(own', |own| - 2, lease, e.when);
        assert Drained(own', |own| - 2 - 3 * k, k, w.options);
      } else {
        SpentStays(own, e, |own| - 3, lease);
        assert NothingToClaim(own', |own| - 3, lease, e.when);
        assert Drained(own', |own| - 3 - 3 * k, k, w.options);
      }
    }
  }

  lemma SpentStays(own: seq<Entry>, e: Entry, n: int, lease: real)
    requires PutsSpent(own, n, lease)
    ensures PutsSpent(own + [e], n, lease)
  {
    var t :| SpentBy(own, n, lease, t);
    assert SpentBy(own + [e], n, lease, t);
  }

  lemma ClaimCall(w0: Proc, own: seq<Entry>, w: Proc, r: Readings, minted: Token, e: Entry, here: nat)
    requires Calls(w0, own, w, r, minted, e)
    ensures ClaimStory(w0, own + [e], ClaimResume(w, r, minted, e.reply, here).(since := e.when))
  {
    hide ClaimStory, ClaimResume, ClaimTurn;
    match w.op {
      case ClaimReceive(_) => MessageTaken(w0, own, w, r, minted, e, here);
      case ClaimRead(_, _) => RecordTaken(w0, own, w, r, minted, e, here);
      case ClaimWrite(_, _, _) => RecordWritten(w0, own, w, r, minted, e, here);
      case ClaimDiscard(_, accepted, _) =>
        if accepted {
          MessageDrained(w0, own, w, r, minted, e, here);
        } else {
          MessageDiscarded(w0, own, w, r, minted, e, here);
        }
    }
  }

  /** Without a call a claim starts its recovery run, or returns for want of room, of messages or of an ended lease. */
  lemma ClaimMoves(w0: Proc, own: seq<Entry>, w: Proc, r: Readings, minted: Token, now: real)
    requires ClaimStory(w0, own, w) && (w.op.ClaimBegin? || Claiming(w.op)) && w0.since <= w.since
    requires r.Within(w.since, now) && (own != [] ==> Last(own).when <= w.since) && ClaimTurn(w, r, minted).Move?
    ensures ClaimStory(w0, own, ClaimTurn(w, r, minted).proc.(since := now))
  {
    hide Drained, Recovering, Delivers;
    var lease := w.options.leaseSeconds as real;
    if w.op.ClaimBegin? {
      assert KeptAt(w0.claims, Prune(w.claims, r.t0), r.t0);
      RecoveryBegins(ClaimTurn(w, r, minted).proc.(since := now));
    } else {
      KeptLater(w0, w.claims, w.since, now);
      var k := w.options.acceptedTriggerDrainLimit - w.op.left;
      if w.op.ClaimReceive? {
        assert Drained(own, |own| - 3 * k, k, w.options);
      } else {
        assert LiveAt(w.op.snap.state, r.t0);
        assert NothingToClaim(own, |own| - 2, lease, now);
        assert Drained(own, |own| - 2 - 3 * k, k, w.options);
      }
    }
  }

  lemma RecoveryBegins(w: Proc)
    ensures w.op.RecoverPage? ==> Recovering([], w, 0)
  {
  }

  lemma RecoveryOver(own: seq<Entry>, o: Options)
    requires |own| > 1 && RecoveredBy(own, 0, |own| - 1, o.recoveryScanLimit)
    ensures DrainedBut(own, 0, o.acceptedTriggerDrainLimit, o)
  {
  }

  lemma ClaimRecovers(w0: Proc, own: seq<Entry>, w: Proc, e: Entry, here: nat)
    requires ClaimStory(w0, own, w) && InRecovery(w.op) && w.since <= e.when
    requires e.request == RecoverTurn(w).request && Answers(e.request, e.reply)
    ensures ClaimStory(w0, own + [e], RecoverResume(w, e.reply, here).(since := e.when))
  {
    hide Recovering, RecoverResume, RecoveredBy, Drained, Kept, NothingToClaim, Delivers;
    RecoveryCall(own, w, 0, e, here);
    KeptLater(w0, w.claims, w.since, e.when);
    var w' := RecoverResume(w, e.reply, here);
    if InRecovery(w'.op) && Recovering(own + [e], w', 0) {
      RecoveringIgnoresSince(own + [e], w', 0, e.when);
    } else if w'.op.ClaimReceive? {
      RecoveryOver(own + [e], w.options);
    }
  }
}
