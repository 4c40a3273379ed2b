/** The invariant of the durable delivery system. */
module DurableInvariant {
  import opened Basics
  import opened FlashTypes
  import opened DurableJob
  import opened DurableWorker
  import opened DurableSystem

  // ----- vocabulary -----

  predicate Known(s: System, job: JobId) {
    job in s.store.blobs && s.store.blobs[job] != []
  }

  function H(s: System, job: JobId): History
    requires Known(s, job)
  {
    s.store.blobs[job]
  }

  function Current(s: System, job: JobId): JobState
    requires Known(s, job)
  {
    Last(H(s, job)).state
  }

  predicate IsSettled(s: System, job: JobId) {
    Known(s, job) && Current(s, job).Settled()
  }

  /** The job of `token` has been durably accepted under it, with `result`. */
  predicate IsAccepted(s: System, token: Token, result: ResultJson) {
    token in s.grants && Known(s, s.grants[token].job) && Current(s, s.grants[token].job).AcceptedAs(token, result)
  }

  predicate HasTrigger(s: System, job: JobId) {
    exists id :: id in s.store.queue && s.store.queue[id].job == job
  }

  // ----- shared state -----

  ghost predicate BlobOk(s: System, job: JobId) {
    Known(s, job) && Lawful(job, H(s, job)) && Last(H(s, job)).when <= s.now
  }

  ghost predicate BlobsOk(s: System) {
    forall job :: job in s.store.blobs ==> BlobOk(s, job)
  }

  // The lease in version i of a record belongs to the worker its token was minted for, and
  // was written no later than that worker's last step.
  predicate LeaseOwned(s: System, job: JobId, i: int)
    requires job in s.store.blobs && 0 <= i < |s.store.blobs[job]|
  {
    var c := s.store.blobs[job][i];
    c.state.leaseId.Some? ==>
      var token := c.state.leaseId.value.token;
      && token in s.grants
      && var g := s.grants[token];
      && g.job == job && g.generation == c.state.generation && g.worker in s.procs
      && (!c.state.Settled() ==>
            var w := s.procs[g.worker];
            && c.when <= w.since && c.state.leaseExpiresAt.Some?
            && c.state.leaseExpiresAt.value <= w.since + w.options.Lease())
  }

  ghost predicate LeasesOk(s: System) {
    forall job, i :: job in s.store.blobs && 0 <= i < |s.store.blobs[job]| ==> LeaseOwned(s, job, i)
  }

  predicate IndexEntryOk(s: System, e: ClaimIndex) {
    && e.claimHash.token in s.grants
    && var g := s.grants[e.claimHash.token];
    && g.job == e.jobId && g.generation == e.generation
    && e.attemptId == AttemptId(e.jobId, e.generation)
    && Known(s, e.jobId) && e.expiresAt == H(s, e.jobId)[0].state.Deadline()
  }

  ghost predicate IndexOk(s: System) {
    forall h :: h in s.store.index ==> s.store.index[h].claimHash == h && IndexEntryOk(s, s.store.index[h])
  }

  // Log entry `at` is the trusted verifier approving `result` for `contract`, asked by `p`.
  predicate VerifiedAt(s: System, at: nat, p: Pid, contract: WorkContract, result: ResultJson) {
    && at < |s.log| && s.log[at].worker == p
    && s.log[at].request == Verify(contract, result) && s.log[at].reply == Approved
  }

  // Log entry `at` is `p` writing the index entry, or finding exactly it already there.
  predicate IndexedAt(s: System, at: nat, p: Pid, e: ClaimIndex) {
    && at < |s.log| && s.log[at].worker == p
    && (|| (s.log[at].request == PutIndex(e) && s.log[at].reply == Done)
        || (s.log[at].request == ReadIndex(e.claimHash) && s.log[at].reply == Found(e)))
    && e.claimHash in s.store.index && s.store.index[e.claimHash] == e
  }

  // Log entry `at` is `p` reading version `version` of the record, by time `t`.
  predicate LoadedAt(s: System, at: nat, p: Pid, job: JobId, j: JobState, version: nat, t: real) {
    && at < |s.log| && s.log[at].worker == p
    && s.log[at].request == ReadJob(job) && s.log[at].reply == Loaded(j, version) && s.log[at].when <= t
  }

  predicate NotifiedAt(s: System, at: nat, job: JobId) {
    at < |s.log| && s.log[at].request.Notify? && s.log[at].request.job == job && s.log[at].reply == Done
  }

  function EntryFor(j: JobState, token: Token): ClaimIndex {
    ClaimIndex(j.jobId, j.generation, AttemptId(j.jobId, j.generation), Sha256(token), j.Deadline())
  }

  // What an acceptance of `prev` (version `version`) by update `u` rests on.
  predicate Grounds(s: System, prev: JobState, version: nat, u: Update)
    requires u.Accepted?
  {
    && u.token in s.grants
    && var p := s.grants[u.token].worker;
    && u.verified < u.indexed < u.loaded
    && VerifiedAt(s, u.verified, p, prev.contract, u.result)
    && IndexedAt(s, u.indexed, p, EntryFor(prev, u.token))
    && LoadedAt(s, u.loaded, p, prev.jobId, prev, version, u.at)
  }

  predicate AcceptanceOk(s: System, job: JobId, i: int)
    requires job in s.store.blobs && 0 < i < |s.store.blobs[job]|
  {
    var h := s.store.blobs[job];
    h[i].update.Accepted? ==> Grounds(s, h[i - 1].state, i, h[i].update)
  }

  ghost predicate AcceptancesOk(s: System) {
    forall job, i :: job in s.store.blobs && 0 < i < |s.store.blobs[job]| ==> AcceptanceOk(s, job, i)
  }

  // Renewals, abandonments and acceptances are written by the worker their token was minted for,
  // in the generation it was minted for.
  predicate HolderOk(s: System, job: JobId, i: int)
    requires job in s.store.blobs && 0 < i < |s.store.blobs[job]|
  {
    var h := s.store.blobs[job];
    var u := h[i].update;
    (u.Claimed? || u.Renewed? || u.Abandoned? || u.Accepted?) ==>
      u.token in s.grants && s.grants[u.token].job == job && s.grants[u.token].generation == h[i].state.generation
  }

  ghost predicate HoldersOk(s: System) {
    forall job, i :: job in s.store.blobs && 0 < i < |s.store.blobs[job]| ==> HolderOk(s, job, i)
  }

  // What an entry of the I/O log commits the durable state to.
  predicate EntryOk(s: System, e: Entry) {
    match e.request
    case Notify(job, attempt, result) =>
      && Known(s, job) && Current(s, job).acceptedAttemptId == Some(attempt)
      && Current(s, job).acceptedResult == Some(result)
    case SendMessage(job) => e.reply.Done? ==> HasTrigger(s, job) || IsSettled(s, job)
    case DeleteMessage(_, _, job) => IsSettled(s, job)
    case CreateJob(j) => e.reply.Done? ==> IsVersion(s, j.jobId, j, 1)
    case ReadJob(job) => e.reply.Loaded? ==> IsVersion(s, job, e.reply.state, e.reply.version)
    case _ => true
  }

  predicate IsVersion(s: System, job: JobId, j: JobState, version: nat) {
    Known(s, job) && 1 <= version <= |H(s, job)| && H(s, job)[version - 1].state == j
  }

  ghost predicate LogOk(s: System) {
    forall n :: 0 <= n < |s.log| ==> EntryOk(s, s.log[n]) && s.log[n].when <= s.now
  }

  ghost predicate SentOk(s: System, job: JobId) {
    Known(s, job) && Current(s, job).notificationSent ==> exists n: nat :: NotifiedAt(s, n, job)
  }

  ghost predicate NotificationsOk(s: System) {
    forall job :: job in s.store.blobs ==> SentOk(s, job)
  }

  predicate QueueOk(s: System) {
    forall id :: id in s.store.queue ==> id < s.store.serial && Known(s, s.store.queue[id].job)
  }

  ghost predicate SharedOk(s: System) {
    && BlobsOk(s) && LeasesOk(s) && IndexOk(s) && AcceptancesOk(s) && HoldersOk(s)
    && LogOk(s) && NotificationsOk(s) && QueueOk(s)
  }

  // ----- workers -----

  predicate ReceivedOk(s: System, m: Received) {
    m.id < s.store.serial && Known(s, m.job) && (m.id in s.store.queue ==> s.store.queue[m.id].job == m.job)
  }

  predicate ContextOk(s: System, p: Pid, token: Token, c: ClaimContext) {
    && c.token == token && token in s.grants && s.grants[token] == Grant(p, c.jobId, c.generation)
    && c.attemptId == AttemptId(c.jobId, c.generation)
    && c.message.job == c.jobId && ReceivedOk(s, c.message)
    && c.delivery.jobId == c.jobId && c.delivery.attemptId == c.attemptId && c.delivery.leaseId == token
    && c.delivery.contractId == H(s, c.jobId)[0].state.contract.contractId
  }

  predicate ClaimsOk(s: System, p: Pid, w: Proc) {
    forall token :: token in w.claims ==> ContextOk(s, p, token, w.claims[token])
  }

  // What the index must say about a token, given the job it was minted for.
  function TheEntry(s: System, token: Token): ClaimIndex
    requires token in s.grants && Known(s, s.grants[token].job)
  {
    var g := s.grants[token];
    ClaimIndex(g.job, g.generation, AttemptId(g.job, g.generation), Sha256(token), H(s, g.job)[0].state.Deadline())
  }

  // Everything a worker may rely on between two of its steps.
  datatype Fact =
    | JobKnown(job: JobId)
    | JobSettled(job: JobId)
    | ClaimAccepted(token: Token, result: ResultJson)
    | MessageIs(message: Received)
    | RecordRead(job: JobId, snap: Snapshot)
    | DeadlineIs(job: JobId, deadline: real)
    | ContractIs(job: JobId, contract: WorkContract)
    | ResultVerified(token: Token, at: nat, result: ResultJson)
    | EntryIs(token: Token, entry: ClaimIndex)
    | EntryStored(entry: ClaimIndex)
    | ClaimIndexed(token: Token, at: nat)
    | JobNotified(job: JobId, at: nat)
    | RenewalExtends(job: JobId, token: Token, snap: Snapshot, renewedAt: real, lease: real)

  predicate Minted(s: System, token: Token) {
    token in s.grants && Known(s, s.grants[token].job)
  }

  /** `f` is true of `s`, as known to worker `p` since its last step at time `since`. */
  predicate Knows(s: System, p: Pid, since: real, f: Fact) {
    match f
    case JobKnown(job) => Known(s, job)
    case JobSettled(job) => IsSettled(s, job)
    case ClaimAccepted(token, result) => IsAccepted(s, token, result)
    case MessageIs(m) => ReceivedOk(s, m)
    case RecordRead(job, snap) =>
      && Known(s, job) && 1 <= snap.version <= |H(s, job)|
      && var c := H(s, job)[snap.version - 1];
      && c.state == snap.state && c.when <= since
      && LoadedAt(s, snap.loaded, p, job, snap.state, snap.version, since)
    case DeadlineIs(job, deadline) => Known(s, job) && deadline == H(s, job)[0].state.Deadline()
    case ContractIs(job, contract) => Known(s, job) && contract == H(s, job)[0].state.contract
    case ResultVerified(token, at, result) =>
      Minted(s, token) && VerifiedAt(s, at, p, H(s, s.grants[token].job)[0].state.contract, result)
    case EntryIs(token, e) => Minted(s, token) && e == TheEntry(s, token)
    case EntryStored(e) => e.claimHash in s.store.index && s.store.index[e.claimHash] == e
    case ClaimIndexed(token, at) => Minted(s, token) && IndexedAt(s, at, p, TheEntry(s, token))
    case JobNotified(job, at) => NotifiedAt(s, at, job)
    case RenewalExtends(job, token, snap, renewedAt, lease) =>
      && Known(s, job) && 1 <= snap.version <= |H(s, job)|
      && (snap.state.leaseId == Some(Sha256(token)) && !snap.state.Settled() ==>
            && H(s, job)[snap.version - 1].when <= renewedAt
            && snap.state.leaseExpiresAt.Some?
            && snap.state.leaseExpiresAt.value <= renewedAt + lease)
  }

  function FactsAfter(after: After): set<Fact> {
    if after.ThenReturn? then {ClaimAccepted(after.token, after.result)} else {}
  }

  // The jobs of a recovery page exist.
  function FactsOfPage(jobs: seq<JobId>): set<Fact> {
    set job | job in jobs :: JobKnown(job)
  }

  function JobOf(w: Proc, token: Token): JobId
    requires w.Holds(token)
  {
    w.claims[token].jobId
  }

  // The facts behind an operation on a held claim.
  function HoldingFacts(w: Proc): set<Fact>
    requires Runnable(w)
  {
    match w.op
    case RenewExtend(token, snap) => {RecordRead(JobOf(w, token), snap)}
    case RenewReread(token, deadline) => {DeadlineIs(JobOf(w, token), deadline)}
    case RenewWrite(token, deadline, renewedAt, snap) =>
      {RecordRead(JobOf(w, token), snap), DeadlineIs(JobOf(w, token), deadline),
       RenewalExtends(JobOf(w, token), token, snap, renewedAt, w.options.Lease())}
    case AbandonWrite(token, snap) => {RecordRead(JobOf(w, token), snap)}
    case CompleteVerify(token, _, snap) => {RecordRead(JobOf(w, token), snap)}
    case CompleteReread(token, result, contract, verified) =>
      {ContractIs(JobOf(w, token), contract), ResultVerified(token, verified, result)}
    case CompleteIndex(token, result, contract, verified, snap) =>
      {RecordRead(JobOf(w, token), snap), ContractIs(JobOf(w, token), contract),
       ResultVerified(token, verified, result)}
    case CompleteIndexCheck(token, result, verified, index) =>
      {EntryIs(token, index), ResultVerified(token, verified, result)}
    case CompleteFinalRead(token, result, verified, indexed) =>
      {ResultVerified(token, verified, result), ClaimIndexed(token, indexed)}
    case CompleteAccept(token, result, verified, indexed, snap) =>
      {ResultVerified(token, verified, result), ClaimIndexed(token, indexed), RecordRead(JobOf(w, token), snap)}
    case CompleteSettle(token, result) => {ClaimAccepted(token, result)}
    case _ => {}
  }

  /** The facts a worker relies on, by where it stands. */
  function Facts(w: Proc): set<Fact>
    requires w.op.Idle? || Runnable(w)
  {
    match w.op
    case Idle(last) => if last.Completed? then {ClaimAccepted(last.token, last.result)} else {}
    case EnqueueSend(job, _) => {JobKnown(job)}
    case ClaimRead(m, _) => {MessageIs(m)}
    case ClaimWrite(m, snap, _) => {MessageIs(m), RecordRead(m.job, snap)}
    case ClaimDiscard(m, _, _) => {MessageIs(m), JobSettled(m.job)}
    case CompleteConfirm(_, _, index) => {EntryStored(index)}
    case RecoverPage(after) => FactsAfter(after)
    case RecoverRead(todo, after) => FactsOfPage(todo) + FactsAfter(after)
    case RecoverNotify(rest, snap, _, _, after) =>
      {RecordRead(snap.state.jobId, snap)} + FactsOfPage(rest) + FactsAfter(after)
    case RecoverMark(rest, snap, notified, after) =>
      {RecordRead(snap.state.jobId, snap), JobNotified(snap.state.jobId, notified)}
      + FactsOfPage(rest) + FactsAfter(after)
    case _ => HoldingFacts(w)
  }

  predicate Pending(j: JobState) {
    j.notificationPending && !j.notificationSent && j.acceptedAttemptId.Some? && j.acceptedResult.Some?
  }

  // What the local variables of an operation satisfy among themselves.
  predicate LocalsOk(w: Proc) {
    match w.op
    case EnqueueCreate(_, contract) => contract.budget.Valid()
    case ClaimWrite(_, snap, _) => !snap.state.Settled()
    case RenewWrite(_, _, renewedAt, _) => renewedAt <= w.since
    case CompleteFinalRead(_, _, verified, indexed) => verified < indexed
    case CompleteAccept(_, _, verified, indexed, snap) => verified < indexed < snap.loaded
    case CompleteConfirm(token, _, index) => index.claimHash == Sha256(token)
    case RecoverNotify(_, snap, attempt, result, _) =>
      Pending(snap.state) && snap.state.acceptedAttemptId == Some(attempt) && snap.state.acceptedResult == Some(result)
    case RecoverMark(_, snap, _, _) => Pending(snap.state)
    case _ => true
  }

  ghost predicate OpOk(s: System, p: Pid, w: Proc) {
    && (w.op.Idle? || Runnable(w))
    && LocalsOk(w)
    && forall f :: f in Facts(w) ==> Knows(s, p, w.since, f)
  }

  ghost predicate WorkerOk(s: System, p: Pid, w: Proc) {
    w.since <= s.now && w.options.Valid() && ClaimsOk(s, p, w) && OpOk(s, p, w)
  }

  ghost predicate Inv(s: System) {
    SharedOk(s) && forall p :: p in s.procs ==> WorkerOk(s, p, s.procs[p])
  }

  // ----- growth: what every step leaves intact -----

  predicate Extends(h: History, h': History) {
    h <= h'
  }

  predicate Continues(w: Proc, w': Proc) {
    w.since <= w'.since && w.options == w'.options
  }

  ghost predicate Grows(s: System, s': System) {
    && s.now <= s'.now
    && (forall job :: job in s.store.blobs ==>
          job in s'.store.blobs && Extends(s.store.blobs[job], s'.store.blobs[job]))
    && (forall h :: h in s.store.index ==> h in s'.store.index && s'.store.index[h] == s.store.index[h])
    && (forall t :: t in s.grants ==> t in s'.grants && s'.grants[t] == s.grants[t])
    && s.store.serial <= s'.store.serial
    && (forall id :: id in s'.store.queue && id < s.store.serial ==>
          id in s.store.queue && s'.store.queue[id].job == s.store.queue[id].job)
    && s.log <= s'.log
    && (forall p :: p in s.procs ==> p in s'.procs && Continues(s.procs[p], s'.procs[p]))
  }
}
