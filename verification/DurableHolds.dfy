/** How a renewal and an abandonment of a claim go, by the calls they make. */
module DurableHolds {
  import opened Basics
  import opened FlashTypes
  import opened DurableJob
  import opened DurableWorker
  import opened DurableSystem
  import opened DurableTraces

  function EndOfWall(j: JobState): real {
    j.startedAt + j.contract.budget.wallSeconds
  }

  // The lease a renewal asks for at `t`: one full lease, cut off at `wall`.
  function Term(lease: real, t: real, wall: real): real {
    if t + lease <= wall then t + lease else wall
  }

  function LeaseOf(w: Proc): real {
    w.options.leaseSeconds as real
  }

  // ----- renew -----

  // The message is hidden for as long as the term asked for at `t` still runs at `u`, but a second at least.
  ghost predicate HidesOn(own: seq<Entry>, c: ClaimContext, lease: real) {
    && |own| >= 2 && ReadsRecord(own[0], c.jobId) && own[1].request.UpdateMessage?
    && own[1].request.id == c.message.id && own[1].request.receipt == c.popReceipt && own[1].reply.Rotated?
    && exists t: real, u: real :: Extension(own[0], own[1], lease, t, u)
  }

  predicate Extension(read: Entry, update: Entry, lease: real, t: real, u: real)
    requires read.reply.Loaded? && update.request.UpdateMessage?
  {
    && read.when <= t <= u <= update.when
    && var left := (Term(lease, t, EndOfWall(read.reply.state)) - u).Floor;
       update.request.visibility == (if left < 1 then 1.0 else left as real)
  }

  // The second record is read after the clock that the new lease counts from.
  predicate ReadsAgain(own: seq<Entry>, c: ClaimContext, renewedAt: real) {
    |own| >= 3 && ReadsRecord(own[2], c.jobId) && own[1].when <= renewedAt <= own[2].when
  }

  // The lease of the second record read is moved to `expiry`.
  predicate PutsRenewal(own: seq<Entry>, c: ClaimContext, expiry: real) {
    && |own| == 4 && ReadsRecord(own[2], c.jobId) && own[3].request.WriteJob?
    && own[3].request.version == own[2].reply.version
    && own[3].request.next == own[2].reply.state.(leaseExpiresAt := Some(expiry))
  }

  ghost predicate Renews(own: seq<Entry>, c: ClaimContext, lease: real, d: Delivery<AttemptId, Token>) {
    && HidesOn(own, c, lease) && PutsRenewal(own, c, d.leaseExpiresAt) && own[3].reply.Done?
    && d == c.delivery.(leaseId := c.token, leaseExpiresAt := d.leaseExpiresAt)
    && exists t: real :: ReadsAgain(own, c, t) && d.leaseExpiresAt == Term(lease, t, EndOfWall(own[0].reply.state))
  }

  // No time is left: by the end the delivery is over, or the term asked for at some time before.
  ghost predicate OutOfTime(own: seq<Entry>, c: ClaimContext, lease: real, end: real) {
    && |own| == 1 && ReadsRecord(own[0], c.jobId)
    && (|| c.delivery.leaseExpiresAt <= end
        || exists t: real :: own[0].when <= t <= end && Term(lease, t, EndOfWall(own[0].reply.state)) <= end)
  }

  // The deadline passed while the queue was called.
  ghost predicate DeadlinePassed(own: seq<Entry>, c: ClaimContext, lease: real) {
    && |own| == 3 && ReadsRecord(own[0], c.jobId)
    && exists t: real :: ReadsAgain(own, c, t) && Term(lease, t, EndOfWall(own[0].reply.state)) <= t
  }

  /** The claim is unknown, was not held under a record just read, has no time left, or met a conflict. */
  ghost predicate RenewalRefused(w0: Proc, token: Token, own: seq<Entry>, w: Proc) {
    || (own == [] && token !in w0.claims)
    || (own != [] && token in w0.claims &&
        var c := w0.claims[token];
        || LastReadNotHeld(own, c, w.since)
        || OutOfTime(own, c, LeaseOf(w), w.since) || DeadlinePassed(own, c, LeaseOf(w))
        || (|own| == 4 && LastWriteConflicts(own, c.jobId)))
  }

  // The claims are as they were, but for a receipt the queue has rotated.
  predicate KeepsReceipt(w0: Proc, token: Token, own: seq<Entry>, w: Proc) {
    if |own| >= 2 && own[1].reply.Rotated? && token in w0.claims
    then w.claims == w0.claims[token := w0.claims[token].(popReceipt := own[1].reply.receipt)]
    else w.claims == w0.claims
  }

  ghost predicate RenewalEnds(w0: Proc, token: Token, own: seq<Entry>, w: Proc, last: Outcome) {
    match last
    case Delivered(d) =>
      && token in w0.claims && Renews(own, w0.claims[token], LeaseOf(w), d)
      && w.claims == w0.claims[token := w0.claims[token].(popReceipt := own[1].reply.receipt, delivery := d)]
    case LeaseError(call) =>
      call == Renew(token) && KeepsReceipt(w0, token, own, w) && RenewalRefused(w0, token, own, w)
    case OtherError(call) => call == Renew(token) && KeepsReceipt(w0, token, own, w) && LastRaised(own)
    case _ => false
  }

  ghost predicate RenewalStory(w0: Proc, token: Token, own: seq<Entry>, w: Proc) {
    && w.options == w0.options
    && (if w.op.Idle? then RenewalEnds(w0, token, own, w, w.op.last)
        else token in w0.claims && KeepsReceipt(w0, token, own, w) && RenewalProceeds(w0.claims[token], own, w))
  }

  ghost predicate RenewalProceeds(c: ClaimContext, own: seq<Entry>, w: Proc) {
    match w.op
    case RenewRead(t) => t == c.token && own == []
    case RenewExtend(t, snap) =>
      t == c.token && |own| == 1 && ReadsRecord(own[0], c.jobId) && own[0].reply.state == snap.state
    case RenewReread(t, wall) =>
      t == c.token && |own| == 2 && HidesOn(own, c, LeaseOf(w)) && wall == EndOfWall(own[0].reply.state)
    case RenewWrite(t, wall, renewedAt, snap) =>
      && t == c.token && |own| == 3 && HidesOn(own, c, LeaseOf(w)) && wall == EndOfWall(own[0].reply.state)
      && ReadsAgain(own, c, renewedAt) && own[2].reply == Loaded(snap.state, snap.version)
    case _ => false
  }

  // ----- abandon -----

  predicate PutsAbandonment(own: seq<Entry>, c: ClaimContext) {
    && |own| >= 2 && ReadsRecord(own[0], c.jobId) && own[1].request.WriteJob?
    && own[1].request.version == own[0].reply.version
    && own[1].request.next == own[0].reply.state.(leaseId := None, leaseExpiresAt := None)
  }

  // The lease is given up in the record, and then the message is made visible at once.
  predicate Abandons(own: seq<Entry>, c: ClaimContext) {
    && |own| == 3 && PutsAbandonment(own, c) && own[1].reply.Done?
    && own[2].request == UpdateMessage(c.message.id, c.popReceipt, 0.0) && own[2].reply.Rotated?
  }

  /** The claim is unknown, was not held under the record just read, or met a conflict. */
  ghost predicate AbandonmentRefused(w0: Proc, token: Token, own: seq<Entry>, w: Proc) {
    || (own == [] && token !in w0.claims)
    || (own != [] && token in w0.claims &&
        (LastReadNotHeld(own, w0.claims[token], w.since)
         || (|own| == 2 && LastWriteConflicts(own, w0.claims[token].jobId))))
  }

  ghost predicate AbandonmentEnds(w0: Proc, token: Token, own: seq<Entry>, w: Proc, last: Outcome) {
    match last
    case Nothing => token in w0.claims && Abandons(own, w0.claims[token]) && w.claims == w0.claims - {token}
    case LeaseError(call) => call == Abandon(token) && w.claims == w0.claims && AbandonmentRefused(w0, token, own, w)
    case OtherError(call) => call == Abandon(token) && w.claims == w0.claims && LastRaised(own)
    case _ => false
  }

  ghost predicate AbandonmentStory(w0: Proc, token: Token, own: seq<Entry>, w: Proc) {
    && w.options == w0.options
    && (if w.op.Idle? then AbandonmentEnds(w0, token, own, w, w.op.last)
        else token in w0.claims && w.claims == w0.claims && AbandonmentProceeds(w0.claims[token], own, w))
  }

  predicate AbandonmentProceeds(c: ClaimContext, own: seq<Entry>, w: Proc) {
    match w.op
    case AbandonRead(t) => t == c.token && own == []
    case AbandonWrite(t, snap) =>
      t == c.token && |own| == 1 && ReadsRecord(own[0], c.jobId) && own[0].reply == Loaded(snap.state, snap.version)
    case AbandonRelease(t) => t == c.token && |own| == 2 && PutsAbandonment(own, c) && own[1].reply.Done?
    case _ => false
  }

  // ----- their calls -----

  predicate Renewing(op: Op) {
    op.RenewRead? || op.RenewExtend? || op.RenewReread? || op.RenewWrite?
  }

  predicate Abandoning(op: Op) {
    op.AbandonRead? || op.AbandonWrite? || op.AbandonRelease?
  }

  // The claim goes by its own token.
  predicate Named(w0: Proc, token: Token) {
    token in w0.claims ==> w0.claims[token].token == token
  }

  lemma RenewalBegins(w0: Proc, token: Token)
    requires Named(w0, token)
    ensures RenewalStory(w0, token, [], Begin(w0, Renew(token)))
    ensures AbandonmentStory(w0, token, [], Begin(w0, Abandon(token)))
  {
  }

  lemma AbandonmentCall(w0: Proc, token: Token, own: seq<Entry>, w: Proc, r: Readings, e: Entry, here: nat)
    requires AbandonmentStory(w0, token, own, w) && Abandoning(w.op) && w.Holds(w.op.token) && Named(w0, token)
    requires AbandonTurn(w, r) == Ask(e.request) && Answers(e.request, e.reply)
    ensures AbandonmentStory(w0, token, own + [e], AbandonResume(w, e.reply, here).(since := e.when))
  {
    assert (own + [e])[|own|] == e && (own != [] ==> (own + [e])[0] == own[0]);
    assert |own| > 1 ==> (own + [e])[1] == own[1];
  }

  lemma AbandonmentStops(w0: Proc, token: Token, own: seq<Entry>, w: Proc, r: Readings, now: real)
    requires AbandonmentStory(w0, token, own, w) && Abandoning(w.op) && w.Holds(w.op.token) && Named(w0, token)
    requires r.Within(w.since, now) && (own != [] ==> Last(own).when <= w.since) && AbandonTurn(w, r).Move?
    ensures AbandonmentStory(w0, token, own, AbandonTurn(w, r).proc.(since := now))
  {
    assert !HeldAt(w0.claims[token], Last(own).reply.state, r.t0);
  }

  // Worker `w`, `own` calls into a renewal, has readings `r` up to `now`.
  ghost predicate MidRenewal(w0: Proc, token: Token, own: seq<Entry>, w: Proc, r: Readings, now: real) {
    && RenewalStory(w0, token, own, w) && Renewing(w.op) && w.Holds(w.op.token) && Named(w0, token)
    && r.Within(w.since, now) && (own != [] ==> Last(own).when <= w.since)
  }

  lemma RenewalReads(w0: Proc, token: Token, own: seq<Entry>, w: Proc, r: Readings, e: Entry, here: nat)
    requires MidRenewal(w0, token, own, w, r, e.when) && w.op.RenewRead?
    requires RenewTurn(w, r) == Ask(e.request) && Answers(e.request, e.reply)
    ensures RenewalStory(w0, token, own + [e], RenewResume(w, r, e.reply, here).(since := e.when))
  {
    assert (own + [e])[|own|] == e;
  }

  lemma RenewalExtends(w0: Proc, token: Token, own: seq<Entry>, w: Proc, r: Readings, e: Entry, here: nat)
    requires MidRenewal(w0, token, own, w, r, e.when) && w.op.RenewExtend?
    requires RenewTurn(w, r) == Ask(e.request) && Answers(e.request, e.reply)
    ensures RenewalStory(w0, token, own + [e], RenewResume(w, r, e.reply, here).(since := e.when))
  {
    assert (own + [e])[|own|] == e && (own + [e])[0] == own[0];
    assert Extension(own[0], e, LeaseOf(w), r.t1, r.t4);
  }

  lemma RenewalRereads(w0: Proc, token: Token, own: seq<Entry>, w: Proc, r: Readings, e: Entry, here: nat)
    requires MidRenewal(w0, token, own, w, r, e.when) && w.op.RenewReread?
    requires RenewTurn(w, r) == Ask(e.request) && Answers(e.request, e.reply)
    ensures RenewalStory(w0, token, own + [e], RenewResume(w, r, e.reply, here).(since := e.when))
  {
    assert (own + [e])[|own|] == e && (own + [e])[0] == own[0] && (own + [e])[1] == own[1];
  }

  lemma RenewalWrites(w0: Proc, token: Token, own: seq<Entry>, w: Proc, r: Readings, e: Entry, here: nat)
    requires MidRenewal(w0, token, own, w, r, e.when) && w.op.RenewWrite?
    requires RenewTurn(w, r) == Ask(e.request) && Answers(e.request, e.reply)
    ensures RenewalStory(w0, token, own + [e], RenewResume(w, r, e.reply, here).(since := e.when))
  {
    assert (own + [e])[|own|] == e && (own + [e])[0] == own[0] && (own + [e])[1] == own[1] && (own + [e])[2] == own[2];
    assert ReadsAgain(own + [e], w0.claims[token], w.op.renewedAt);
  }

  lemma RenewalCall(w0: Proc, token: Token, own: seq<Entry>, w: Proc, r: Readings, e: Entry, here: nat)
    requires MidRenewal(w0, token, own, w, r, e.when)
    requires RenewTurn(w, r) == Ask(e.request) && Answers(e.request, e.reply)
    ensures RenewalStory(w0, token, own + [e], RenewResume(w, r, e.reply, here).(since := e.when))
  {
    hide RenewalStory, RenewResume, RenewTurn;
    match w.op {
      case RenewRead(_) => RenewalReads(w0, token, own, w, r, e, here);
      case RenewExtend(_, _) => RenewalExtends(w0, token, own, w, r, e, here);
      case RenewReread(_, _) => RenewalRereads(w0, token, own, w, r, e, here);
      case RenewWrite(_, _, _, _) => RenewalWrites(w0, token, own, w, r, e, here);
    }
  }

  lemma RenewalStops(w0: Proc, token: Token, own: seq<Entry>, w: Proc, r: Readings, now: real)
    requires MidRenewal(w0, token, own, w, r, now) && RenewTurn(w, r).Move?
    ensures RenewalStory(w0, token, own, RenewTurn(w, r).proc.(since := now))
  {
    var c := w0.claims[token];
    var w' := RenewTurn(w, r).proc.(since := now);
    if !RequireClaim(c, w.op.snap.state, r.t0) {
      assert !HeldAt(c, Last(own).reply.state, r.t0);
    } else if w.op.RenewExtend? {
      if c.delivery.leaseExpiresAt <= r.t2 {
        assert OutOfTime(own, c, LeaseOf(w), now);
      } else {
        assert Term(LeaseOf(w), r.t1, EndOfWall(own[0].reply.state)) <= r.t3;
        assert OutOfTime(own, c, LeaseOf(w), now);
      }
    } else {
      assert ReadsAgain(own, c, w.op.renewedAt);
      assert DeadlinePassed(own, c, LeaseOf(w));
    }
  }
}
