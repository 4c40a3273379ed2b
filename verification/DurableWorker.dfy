/**
 The code of one durable delivery worker, cut at its I/O calls.

 `Op` says where a worker stands inside one of its operations and holds that
 operation's local variables.  `NextTurn` is the code up to the next I/O call;
 `Resume` is the code that consumes the call's reply.  Both are functions: the
 worker itself makes no choices.  `Readings` are the values returned by the
 clock calls of that stretch of code, in call order.
 */
module DurableWorker {
  import opened Basics
  import opened FlashTypes
  import opened DurableJob

  datatype Options = Options(
    leaseSeconds: nat, recoveryScanLimit: nat, acceptedTriggerDrainLimit: nat, maxLocalClaims: nat)
  {
    predicate Valid() {
      leaseSeconds > 0 && recoveryScanLimit >= 1 && acceptedTriggerDrainLimit >= 1 && maxLocalClaims >= 1
    }

    function Lease(): real {
      leaseSeconds as real
    }
  }

  datatype Readings = Readings(t0: real, t1: real, t2: real, t3: real, t4: real) {
    predicate Within(lo: real, hi: real) {
      lo <= t0 <= t1 <= t2 <= t3 <= t4 <= hi
    }
  }

  datatype ClaimIndex = ClaimIndex(
    jobId: JobId, generation: nat, attemptId: AttemptId, claimHash: ClaimHash, expiresAt: real)

  // A received queue message: the service's id for it, its content, and the receipt handed out.
  datatype Received = Received(id: nat, job: JobId, receipt: nat)

  datatype ClaimContext = ClaimContext(
    token: Token, jobId: JobId, attemptId: AttemptId, generation: nat,
    message: Received, popReceipt: nat, delivery: Delivery<AttemptId, Token>)

  // A record as read, its ETag, and the position of that read in the I/O log.
  datatype Snapshot = Snapshot(state: JobState, version: nat, loaded: nat)

  datatype Request =
    | ReadJob(job: JobId)
    | CreateJob(state: JobState)
    | WriteJob(next: JobState, version: nat, update: Update)
    | PutIndex(index: ClaimIndex)
    | ReadIndex(hash: ClaimHash)
    | SendMessage(job: JobId)
    | ReceiveMessage(visibility: real)
    | UpdateMessage(id: nat, receipt: nat, visibility: real)
    | DeleteMessage(id: nat, receipt: nat, job: JobId)
    | Verify(contract: WorkContract, result: ResultJson)
    | Notify(job: JobId, attempt: AttemptId, result: ResultJson)
    | ListJobs(limit: nat)
    | SaveCursor

  // Conflict is status 409 or 412 of a conditional upload, Missing is 404 of a
  // download, Gone is any of 404, 400, 412 of a queue delete, and Failed is
  // every other exception.
  datatype Reply =
    | Done | Conflict | Missing | Gone | Failed
    | Loaded(state: JobState, version: nat)
    | Found(index: ClaimIndex)
    | Got(message: Received) | Empty
    | Rotated(receipt: nat)
    | Approved | Rejected
    | Page(jobs: seq<JobId>)

  datatype Call =
    | Enqueue(job: JobId, contract: WorkContract)
    | Claim
    | Renew(token: Token)
    | Abandon(token: Token)
    | Complete(token: Token, result: ResultJson)
    | RecoverNotifications

  datatype Outcome =
    | Nothing
    | Delivered(delivery: Delivery<AttemptId, Token>)
    | Completed(token: Token, result: ResultJson)
    | LeaseError(call: Call)
    | VerificationError(call: Call)
    | OtherError(call: Call)

  // What follows a notification recovery run inside another operation.
  datatype After = ThenReceive | ThenReturn(token: Token, result: ResultJson) | ThenStop

  datatype Op =
    | Idle(last: Outcome)
    | EnqueueCreate(job: JobId, contract: WorkContract)
    | EnqueueCheck(job: JobId, contract: WorkContract)
    | EnqueueSend(job: JobId, contract: WorkContract)
    | ClaimBegin
    | ClaimReceive(left: nat)
    | ClaimRead(message: Received, left: nat)
    | ClaimWrite(message: Received, snap: Snapshot, left: nat)
    | ClaimDiscard(message: Received, accepted: bool, left: nat)
    | RenewRead(token: Token)
    | RenewExtend(token: Token, snap: Snapshot)
    | RenewReread(token: Token, deadline: real)
    | RenewWrite(token: Token, deadline: real, renewedAt: real, snap: Snapshot)
    | AbandonRead(token: Token)
    | AbandonWrite(token: Token, snap: Snapshot)
    | AbandonRelease(token: Token)
    | CompleteRead(token: Token, result: ResultJson)
    | CompleteVerify(token: Token, result: ResultJson, snap: Snapshot)
    | CompleteReread(token: Token, result: ResultJson, contract: WorkContract, verified: nat)
    | CompleteIndex(token: Token, result: ResultJson, contract: WorkContract, verified: nat, snap: Snapshot)
    | CompleteIndexCheck(token: Token, result: ResultJson, verified: nat, index: ClaimIndex)
    | CompleteFinalRead(token: Token, result: ResultJson, verified: nat, indexed: nat)
    | CompleteAccept(token: Token, result: ResultJson, verified: nat, indexed: nat, snap: Snapshot)
    | CompleteSettle(token: Token, result: ResultJson)
    | CompleteLookup(token: Token, result: ResultJson)
    | CompleteConfirm(token: Token, result: ResultJson, index: ClaimIndex)
    | RecoverPage(after: After)
    | RecoverRead(todo: seq<JobId>, after: After)
    | RecoverNotify(rest: seq<JobId>, snap: Snapshot, attempt: AttemptId, result: ResultJson, after: After)
    | RecoverMark(rest: seq<JobId>, snap: Snapshot, notified: nat, after: After)

  datatype Proc = Proc(options: Options, claims: map<Token, ClaimContext>, op: Op, since: real)
  {
    // The operation in progress was started on a claim that this worker still holds.
    predicate Holds(token: Token) {
      token in claims && claims[token].token == token
    }
  }

  // The next thing a worker does: an I/O call, or a local step to `proc` without one.
  datatype Turn = Ask(request: Request) | Move(proc: Proc)

  function At(w: Proc, op: Op): Proc {
    w.(op := op)
  }

  function Stop(w: Proc, last: Outcome): Proc {
    w.(op := Idle(last))
  }

  predicate RequireClaim(c: ClaimContext, j: JobState, t: real) {
    j.HeldBy(c.token, c.generation, t)
  }

  predicate IdChar(c: char) {
    'a' <= c <= 'z' || 'A' <= c <= 'Z' || '0' <= c <= '9' || c == '-' || c == '_'
  }

  predicate PathSafe(job: JobId) {
    job != "" && forall i :: 0 <= i < |job| ==> IdChar(job[i])
  }

  /** A caller invokes an operation on an idle worker. */
  function Begin(w: Proc, call: Call): Proc {
    match call
    case Enqueue(job, contract) =>
      if PathSafe(job) then At(w, EnqueueCreate(job, contract)) else Stop(w, OtherError(call))
    case Claim => At(w, ClaimBegin)
    case Renew(token) => if w.Holds(token) then At(w, RenewRead(token)) else Stop(w, LeaseError(call))
    case Abandon(token) => if w.Holds(token) then At(w, AbandonRead(token)) else Stop(w, LeaseError(call))
    case Complete(token, result) =>
      if w.Holds(token) then At(w, CompleteRead(token, result)) else At(w, CompleteLookup(token, result))
    case RecoverNotifications => At(w, RecoverPage(ThenStop))
  }

  // ----- enqueue -----

  function EnqueueTurn(w: Proc, r: Readings): Turn
    requires w.op.EnqueueCreate? || w.op.EnqueueCheck? || w.op.EnqueueSend?
  {
    match w.op
    case EnqueueCreate(job, contract) => Ask(CreateJob(NewJob(job, contract, r.t0)))
    case EnqueueCheck(job, _) => Ask(ReadJob(job))
    case EnqueueSend(job, _) => Ask(SendMessage(job))
  }

  function EnqueueResume(w: Proc, reply: Reply): Proc
    requires w.op.EnqueueCreate? || w.op.EnqueueCheck? || w.op.EnqueueSend?
  {
    match w.op
    case EnqueueCreate(job, contract) =>
      (match reply
       case Done => At(w, EnqueueSend(job, contract))
       case Conflict => At(w, EnqueueCheck(job, contract))
       case _ => Stop(w, OtherError(Enqueue(job, contract))))
    case EnqueueCheck(job, contract) =>
      (match reply
       case Loaded(existing, _) =>
         if existing.contract != contract then Stop(w, OtherError(Enqueue(job, contract)))
         else if existing.acceptedResult.Some? then Stop(w, Nothing)
         else At(w, EnqueueSend(job, contract))
       case _ => Stop(w, OtherError(Enqueue(job, contract))))
    case EnqueueSend(job, contract) =>
      if reply.Done? then Stop(w, Nothing) else Stop(w, OtherError(Enqueue(job, contract)))
  }

  // ----- claim -----

  function Prune(claims: map<Token, ClaimContext>, now: real): map<Token, ClaimContext> {
    map t | t in claims && now < claims[t].delivery.leaseExpiresAt :: claims[t]
  }

  // What a claim wants to write over an unsettled record at `now`, if anything.
  function ClaimDecision(w: Proc, snap: Snapshot, now: real, minted: Token): Option<(JobState, Update)> {
    var j := snap.state;
    var exhausted := j.attemptNumber >= j.contract.budget.maxAttempts;
    if j.Live(now) then None
    else if exhausted || now >= j.Deadline() then
      var reason := if exhausted then AttemptBudgetExhausted else WallBudgetExpired;
      Some((j.(terminalReason := Some(reason)), Terminated(now)))
    else
      Some((j.(generation := j.generation + 1, attemptNumber := j.attemptNumber + 1,
               leaseId := Some(Sha256(minted)),
               leaseExpiresAt := Some(Min(now + w.options.Lease(), j.Deadline()))),
            Claimed(minted, w.options.Lease(), now)))
  }

  function ClaimTurn(w: Proc, r: Readings, minted: Token): Turn
    requires w.op.ClaimBegin? || w.op.ClaimReceive? || w.op.ClaimRead? || w.op.ClaimWrite? || w.op.ClaimDiscard?
  {
    match w.op
    case ClaimBegin =>
      var kept := w.(claims := Prune(w.claims, r.t0));
      if |kept.claims| >= w.options.maxLocalClaims then Move(Stop(kept, Nothing))
      else Move(At(kept, RecoverPage(ThenReceive)))
    case ClaimReceive(left) =>
      if left == 0 then Move(Stop(w, Nothing)) else Ask(ReceiveMessage(w.options.Lease()))
    case ClaimRead(message, _) => Ask(ReadJob(message.job))
    case ClaimWrite(_, snap, _) =>
      var decision := ClaimDecision(w, snap, r.t0, minted);
      if decision.None? then Move(Stop(w, Nothing))
      else Ask(WriteJob(decision.value.0, snap.version, decision.value.1))
    case ClaimDiscard(message, _, _) => Ask(DeleteMessage(message.id, message.receipt, message.job))
  }

  function NewContext(message: Received, j: JobState, minted: Token): ClaimContext
    requires j.leaseExpiresAt.Some?
  {
    var attempt := AttemptId(message.job, j.attemptNumber);
    ClaimContext(minted, message.job, attempt, j.generation, message, message.receipt,
                 Delivery(message.job, j.contract.contractId, attempt, minted, j.leaseExpiresAt.value))
  }

  function ClaimResume(w: Proc, r: Readings, minted: Token, reply: Reply, here: nat): Proc
    requires w.op.ClaimReceive? || w.op.ClaimRead? || w.op.ClaimWrite? || w.op.ClaimDiscard?
  {
    match w.op
    case ClaimReceive(left) =>
      (match reply
       case Got(message) => At(w, ClaimRead(message, left))
       case Empty => Stop(w, Nothing)
       case _ => Stop(w, OtherError(Claim)))
    case ClaimRead(message, left) =>
      (match reply
       case Loaded(j, version) =>
         if j.Settled() then At(w, ClaimDiscard(message, j.acceptedResult.Some?, left))
         else At(w, ClaimWrite(message, Snapshot(j, version, here), left))
       case _ => Stop(w, OtherError(Claim)))
    case ClaimWrite(message, snap, left) =>
      var decision := ClaimDecision(w, snap, r.t0, minted);
      (match reply
       case Done =>
         if decision.Some? && decision.value.1.Claimed? then
           var context := NewContext(message, decision.value.0, minted);
           Stop(w.(claims := w.claims[minted := context]), Delivered(context.delivery))
         else At(w, ClaimDiscard(message, false, left))
       case Conflict => Stop(w, Nothing)
       case _ => Stop(w, OtherError(Claim)))
    case ClaimDiscard(_, accepted, left) =>
      if !reply.Done? then Stop(w, OtherError(Claim))
      else if accepted && left > 0 then At(w, ClaimReceive(left - 1))
      else Stop(w, Nothing)
  }

  // ----- renew and abandon -----

  function RenewTurn(w: Proc, r: Readings): Turn
    requires w.op.RenewRead? || w.op.RenewExtend? || w.op.RenewReread? || w.op.RenewWrite?
    requires w.Holds(w.op.token)
  {
    var c := w.claims[w.op.token];
    match w.op
    case RenewRead(_) => Ask(ReadJob(c.jobId))
    case RenewExtend(token, snap) =>
      var expiry := Min(r.t1 + w.options.Lease(), snap.state.Deadline());
      if !RequireClaim(c, snap.state, r.t0) || r.t2 >= c.delivery.leaseExpiresAt || expiry <= r.t3 then
        Move(Stop(w, LeaseError(Renew(token))))
      else Ask(UpdateMessage(c.message.id, c.popReceipt, Max(1, (expiry - r.t4).Floor) as real))
    case RenewReread(_, _) => Ask(ReadJob(c.jobId))
    case RenewWrite(token, deadline, renewedAt, snap) =>
      var expiry := Min(renewedAt + w.options.Lease(), deadline);
      if !RequireClaim(c, snap.state, r.t0) || expiry <= renewedAt then Move(Stop(w, LeaseError(Renew(token))))
      else Ask(WriteJob(snap.state.(leaseExpiresAt := Some(expiry)), snap.version,
                        Renewed(token, w.options.Lease(), renewedAt, r.t0)))
  }

  function RenewResume(w: Proc, r: Readings, reply: Reply, here: nat): Proc
    requires w.op.RenewRead? || w.op.RenewExtend? || w.op.RenewReread? || w.op.RenewWrite?
    requires w.Holds(w.op.token)
  {
    var token := w.op.token;
    var c := w.claims[token];
    var failed := Stop(w, OtherError(Renew(token)));
    match w.op
    case RenewRead(_) =>
      if reply.Loaded? then At(w, RenewExtend(token, Snapshot(reply.state, reply.version, here))) else failed
    case RenewExtend(_, snap) =>
      if reply.Rotated? then
        At(w.(claims := w.claims[token := c.(popReceipt := reply.receipt)]), RenewReread(token, snap.state.Deadline()))
      else failed
    case RenewReread(_, deadline) =>
      if !reply.Loaded? then failed
      else At(w, RenewWrite(token, deadline, r.t0, Snapshot(reply.state, reply.version, here)))
    case RenewWrite(_, deadline, renewedAt, _) =>
      var expiry := Min(renewedAt + w.options.Lease(), deadline);
      (match reply
       case Done =>
         var delivery := c.delivery.(leaseId := token, leaseExpiresAt := expiry);
         Stop(w.(claims := w.claims[token := c.(delivery := delivery)]), Delivered(delivery))
       case Conflict => Stop(w, LeaseError(Renew(token)))
       case _ => failed)
  }

  function AbandonTurn(w: Proc, r: Readings): Turn
    requires w.op.AbandonRead? || w.op.AbandonWrite? || w.op.AbandonRelease?
    requires w.Holds(w.op.token)
  {
    var c := w.claims[w.op.token];
    match w.op
    case AbandonRead(_) => Ask(ReadJob(c.jobId))
    case AbandonWrite(token, snap) =>
      if !RequireClaim(c, snap.state, r.t0) then Move(Stop(w, LeaseError(Abandon(token))))
      else Ask(WriteJob(snap.state.(leaseId := None, leaseExpiresAt := None), snap.version, Abandoned(token, r.t0)))
    case AbandonRelease(_) => Ask(UpdateMessage(c.message.id, c.popReceipt, 0.0))
  }

  function AbandonResume(w: Proc, reply: Reply, here: nat): Proc
    requires w.op.AbandonRead? || w.op.AbandonWrite? || w.op.AbandonRelease?
    requires w.Holds(w.op.token)
  {
    var token := w.op.token;
    var failed := Stop(w, OtherError(Abandon(token)));
    match w.op
    case AbandonRead(_) =>
      if reply.Loaded? then At(w, AbandonWrite(token, Snapshot(reply.state, reply.version, here))) else failed
    case AbandonWrite(_, _) =>
      (match reply
       case Done => At(w, AbandonRelease(token))
       case Conflict => Stop(w, LeaseError(Abandon(token)))
       case _ => failed)
    case AbandonRelease(_) =>
      if reply.Rotated? then Stop(w.(claims := w.claims - {token}), Nothing) else failed
  }

  // ----- complete -----

  predicate Completing(op: Op) {
    || op.CompleteRead? || op.CompleteVerify? || op.CompleteReread? || op.CompleteIndex? || op.CompleteIndexCheck?
    || op.CompleteFinalRead? || op.CompleteAccept? || op.CompleteSettle?
  }

  function IndexFor(c: ClaimContext, startedAt: real, contract: WorkContract): ClaimIndex {
    ClaimIndex(c.jobId, c.generation, c.attemptId, Sha256(c.token), startedAt + contract.budget.wallSeconds)
  }

  function Acceptance(c: ClaimContext, j: JobState, result: ResultJson): JobState {
    j.(acceptedGeneration := Some(c.generation), acceptedAttemptId := Some(c.attemptId),
       acceptedClaimHash := Some(Sha256(c.token)), acceptedResult := Some(result),
       notificationPending := true, notificationSent := false)
  }

  function CompleteTurn(w: Proc, r: Readings): Turn
    requires Completing(w.op) && w.Holds(w.op.token)
  {
    var c := w.claims[w.op.token];
    var refused := Move(Stop(w, LeaseError(Complete(w.op.token, w.op.result))));
    match w.op
    case CompleteVerify(_, result, snap) =>
      if !RequireClaim(c, snap.state, r.t0) then refused else Ask(Verify(snap.state.contract, result))
    case CompleteIndex(_, _, contract, _, snap) =>
      if !RequireClaim(c, snap.state, r.t0) then refused else Ask(PutIndex(IndexFor(c, snap.state.startedAt, contract)))
    case CompleteIndexCheck(_, _, _, index) => Ask(ReadIndex(index.claimHash))
    case CompleteAccept(token, result, verified, indexed, snap) =>
      if !RequireClaim(c, snap.state, r.t0) then refused
      else Ask(WriteJob(Acceptance(c, snap.state, result), snap.version,
                        Accepted(token, result, r.t0, verified, indexed, snap.loaded)))
    case CompleteSettle(_, _) => Ask(DeleteMessage(c.message.id, c.popReceipt, c.message.job))
    case _ => Ask(ReadJob(c.jobId))
  }

  function CompleteResume(w: Proc, r: Readings, reply: Reply, here: nat): Proc
    requires Completing(w.op) && w.Holds(w.op.token)
  {
    var token, result := w.op.token, w.op.result;
    var c := w.claims[token];
    var refused := Stop(w, LeaseError(Complete(token, result)));
    var failed := Stop(w, OtherError(Complete(token, result)));
    match w.op
    case CompleteRead(_, _) =>
      if !reply.Loaded? then failed
      else if reply.state.acceptedResult.Some? then
        if reply.state.acceptedGeneration == Some(c.generation) && reply.state.AcceptedAs(token, result)
        then At(w, CompleteSettle(token, result)) else refused
      else At(w, CompleteVerify(token, result, Snapshot(reply.state, reply.version, here)))
    case CompleteVerify(_, _, snap) =>
      (match reply
       case Approved => At(w, CompleteReread(token, result, snap.state.contract, here))
       case Rejected => Stop(w, VerificationError(Complete(token, result)))
       case _ => failed)
    case CompleteReread(_, _, contract, verified) =>
      if !reply.Loaded? then failed
      else At(w, CompleteIndex(token, result, contract, verified, Snapshot(reply.state, reply.version, here)))
    case CompleteIndex(_, _, contract, verified, snap) =>
      (match reply
       case Done => At(w, CompleteFinalRead(token, result, verified, here))
       case Conflict => At(w, CompleteIndexCheck(token, result, verified, IndexFor(c, snap.state.startedAt, contract)))
       case _ => failed)
    case CompleteIndexCheck(_, _, verified, index) =>
      if !reply.Found? then failed
      else if reply.index == index then At(w, CompleteFinalRead(token, result, verified, here))
      else refused
    case CompleteFinalRead(_, _, verified, indexed) =>
      if !reply.Loaded? then failed
      else At(w, CompleteAccept(token, result, verified, indexed, Snapshot(reply.state, reply.version, here)))
    case CompleteAccept(_, _, _, _, _) =>
      (match reply
       case Done => At(w, CompleteSettle(token, result))
       case Conflict => refused
       case _ => failed)
    case CompleteSettle(_, _) =>
      if reply.Done? || reply.Gone? then At(w.(claims := w.claims - {token}), RecoverPage(ThenReturn(token, result)))
      else failed
  }

  function LookupTurn(w: Proc): Turn
    requires w.op.CompleteLookup? || w.op.CompleteConfirm?
  {
    match w.op
    case CompleteLookup(token, _) => Ask(ReadIndex(Sha256(token)))
    case CompleteConfirm(_, _, index) => Ask(ReadJob(index.jobId))
  }

  function LookupResume(w: Proc, reply: Reply): Proc
    requires w.op.CompleteLookup? || w.op.CompleteConfirm?
  {
    var token, result := w.op.token, w.op.result;
    var refused := Stop(w, LeaseError(Complete(token, result)));
    var failed := Stop(w, OtherError(Complete(token, result)));
    match w.op
    case CompleteLookup(_, _) =>
      (match reply
       case Missing => refused
       case Found(index) =>
         if index.claimHash == Sha256(token) then At(w, CompleteConfirm(token, result, index)) else refused
       case _ => failed)
    case CompleteConfirm(_, _, index) =>
      if !reply.Loaded? then failed
      else if reply.state.acceptedClaimHash != Some(Sha256(token))
              || reply.state.acceptedGeneration != Some(index.generation)
              || reply.state.acceptedAttemptId != Some(index.attemptId)
              || reply.state.acceptedResult != Some(result) then refused
      else At(w, RecoverPage(ThenReturn(token, result)))
  }

  // ----- recover_notifications -----

  function CallOf(after: After): Call {
    match after
    case ThenReceive => Claim
    case ThenReturn(token, result) => Complete(token, result)
    case ThenStop => RecoverNotifications
  }

  function Continue(w: Proc, after: After): Proc {
    match after
    case ThenReceive => At(w, ClaimReceive(w.options.acceptedTriggerDrainLimit))
    case ThenReturn(token, result) => Stop(w, Completed(token, result))
    case ThenStop => Stop(w, Nothing)
  }

  function RecoverTurn(w: Proc): Turn
    requires w.op.RecoverPage? || w.op.RecoverRead? || w.op.RecoverNotify? || w.op.RecoverMark?
  {
    match w.op
    case RecoverPage(_) => Ask(ListJobs(w.options.recoveryScanLimit))
    case RecoverRead(todo, _) => if todo == [] then Ask(SaveCursor) else Ask(ReadJob(todo[0]))
    case RecoverNotify(_, snap, attempt, result, _) => Ask(Notify(snap.state.jobId, attempt, result))
    case RecoverMark(_, snap, _, _) =>
      Ask(WriteJob(snap.state.(notificationPending := false, notificationSent := true), snap.version, Notified))
  }

  function RecoverResume(w: Proc, reply: Reply, here: nat): Proc
    requires w.op.RecoverPage? || w.op.RecoverRead? || w.op.RecoverNotify? || w.op.RecoverMark?
  {
    var failed := Stop(w, OtherError(CallOf(w.op.after)));
    match w.op
    case RecoverPage(after) => if reply.Page? then At(w, RecoverRead(reply.jobs, after)) else failed
    case RecoverRead(todo, after) =>
      if todo == [] then (if reply.Done? || reply.Conflict? then Continue(w, after) else failed)
      else if !reply.Loaded? then failed
      else if !reply.state.notificationPending || reply.state.notificationSent
              || reply.state.acceptedAttemptId.None? || reply.state.acceptedResult.None? then
        At(w, RecoverRead(todo[1..], after))
      else At(w, RecoverNotify(todo[1..], Snapshot(reply.state, reply.version, here),
                               reply.state.acceptedAttemptId.value, reply.state.acceptedResult.value, after))
    case RecoverNotify(rest, snap, _, _, after) =>
      if reply.Done? then At(w, RecoverMark(rest, snap, here, after)) else At(w, RecoverRead(rest, after))
    case RecoverMark(rest, _, _, after) =>
      if reply.Done? || reply.Conflict? then At(w, RecoverRead(rest, after)) else failed
  }

  // ----- the whole worker -----

  // Operations on a held claim presuppose that the claim is still in the worker's claim map.
  predicate Runnable(w: Proc) {
    match w.op
    case Idle(_) => false
    case RenewRead(t) => w.Holds(t)
    case RenewExtend(t, _) => w.Holds(t)
    case RenewReread(t, _) => w.Holds(t)
    case RenewWrite(t, _, _, _) => w.Holds(t)
    case AbandonRead(t) => w.Holds(t)
    case AbandonWrite(t, _) => w.Holds(t)
    case AbandonRelease(t) => w.Holds(t)
    case _ => Completing(w.op) ==> w.Holds(w.op.token)
  }

  function NextTurn(w: Proc, r: Readings, minted: Token): Turn
    requires Runnable(w)
  {
    if w.op.EnqueueCreate? || w.op.EnqueueCheck? || w.op.EnqueueSend? then EnqueueTurn(w, r)
    else if w.op.ClaimBegin? || w.op.ClaimReceive? || w.op.ClaimRead? || w.op.ClaimWrite? || w.op.ClaimDiscard? then
      ClaimTurn(w, r, minted)
    else if w.op.RenewRead? || w.op.RenewExtend? || w.op.RenewReread? || w.op.RenewWrite? then RenewTurn(w, r)
    else if w.op.AbandonRead? || w.op.AbandonWrite? || w.op.AbandonRelease? then AbandonTurn(w, r)
    else if Completing(w.op) then CompleteTurn(w, r)
    else if w.op.CompleteLookup? || w.op.CompleteConfirm? then LookupTurn(w)
    else RecoverTurn(w)
  }

  function Resume(w: Proc, r: Readings, minted: Token, reply: Reply, here: nat): Proc
    requires Runnable(w) && NextTurn(w, r, minted).Ask?
  {
    if w.op.EnqueueCreate? || w.op.EnqueueCheck? || w.op.EnqueueSend? then EnqueueResume(w, reply)
    else if w.op.ClaimReceive? || w.op.ClaimRead? || w.op.ClaimWrite? || w.op.ClaimDiscard? then
      ClaimResume(w, r, minted, reply, here)
    else if w.op.RenewRead? || w.op.RenewExtend? || w.op.RenewReread? || w.op.RenewWrite? then
      RenewResume(w, r, reply, here)
    else if w.op.AbandonRead? || w.op.AbandonWrite? || w.op.AbandonRelease? then AbandonResume(w, reply, here)
    else if Completing(w.op) then CompleteResume(w, r, reply, here)
    else if w.op.CompleteLookup? || w.op.CompleteConfirm? then LookupResume(w, reply)
    else RecoverResume(w, reply, here)
  }
}
