/**
 Many durable delivery workers over one blob container and one queue.

 A step of the system is one I/O call of one worker together with the local
 code before it, or a purely local step, a call arriving at an idle worker, a
 crash of a worker, or the clock advancing.  Storage follows the conditional
 requests of sections 13.1.1 and 13.1.2 of RFC 9110 (If-Match, If-None-Match);
 any call may also fail after it took effect, and an upload may meet its own
 effect as a conflict, when the client repeats it after a lost response.
 */
module DurableSystem {
  import opened Basics
  import opened FlashTypes
  import opened DurableJob
  import opened DurableWorker

  type Pid = nat

  datatype Message = Message(job: JobId, receipt: nat, visibleAt: real)

  // `serial` numbers queue messages and pop receipts; neither is ever reused.
  datatype Store = Store(
    blobs: map<JobId, History>, index: map<ClaimHash, ClaimIndex>, queue: map<nat, Message>, serial: nat)

  datatype Entry = Entry(worker: Pid, request: Request, reply: Reply, when: real)

  // To whom, and for which claim generation, a token was minted.
  datatype Grant = Grant(worker: Pid, job: JobId, generation: nat)

  datatype System = System(
    now: real, store: Store, grants: map<Token, Grant>, procs: map<Pid, Proc>, log: seq<Entry>)

  // ----- storage -----

  function Committed(st: Store, job: JobId, c: Commit): Store
    requires job in st.blobs
  {
    st.(blobs := st.blobs[job := st.blobs[job] + [c]])
  }

  function WithBlob(st: Store, j: JobState, now: real): Store {
    st.(blobs := st.blobs[j.jobId := [Commit(j, Created, now)]])
  }

  predicate CanCommit(st: Store, job: JobId, version: nat) {
    job in st.blobs && |st.blobs[job]| == version && version > 0
  }

  predicate Reads(st: Store, req: Request, reply: Reply)
    requires req.ReadJob? || req.ReadIndex? || req.ListJobs?
  {
    || reply.Failed?
    || match req
       case ReadJob(job) =>
         || (reply.Missing? && job !in st.blobs)
         || (reply.Loaded? && job in st.blobs && st.blobs[job] != []
             && reply.state == Last(st.blobs[job]).state && reply.version == |st.blobs[job]|)
       case ReadIndex(hash) =>
         || (reply.Missing? && hash !in st.index)
         || (reply.Found? && hash in st.index && reply.index == st.index[hash])
       case ListJobs(limit) =>
         reply.Page? && |reply.jobs| <= limit && forall job :: job in reply.jobs ==> job in st.blobs
  }

  predicate Uploads(st: Store, now: real, req: Request, reply: Reply, st': Store)
    requires req.CreateJob? || req.WriteJob? || req.PutIndex?
  {
    match req
    case CreateJob(j) =>
      var created := j.jobId !in st.blobs && st' == WithBlob(st, j, now);
      (match reply
       case Done => created
       case Conflict => (st' == st && j.jobId in st.blobs) || created
       case Failed => st' == st || created
       case _ => false)
    case WriteJob(j, version, update) =>
      var committed := CanCommit(st, j.jobId, version) && st' == Committed(st, j.jobId, Commit(j, update, now));
      (match reply
       case Done => committed
       case Conflict => st' == st || committed
       case Failed => st' == st || committed
       case _ => false)
    case PutIndex(index) =>
      var created := index.claimHash !in st.index && st' == st.(index := st.index[index.claimHash := index]);
      (match reply
       case Done => created
       case Conflict => (st' == st && index.claimHash in st.index) || created
       case Failed => st' == st || created
       case _ => false)
  }

  predicate Queues(st: Store, now: real, req: Request, reply: Reply, st': Store)
    requires req.SendMessage? || req.ReceiveMessage? || req.UpdateMessage? || req.DeleteMessage?
  {
    match req
    case SendMessage(job) =>
      var sent := st' == st.(queue := st.queue[st.serial := Message(job, st.serial, now)], serial := st.serial + 1);
      (reply.Done? && sent) || (reply.Failed? && (st' == st || sent))
    case ReceiveMessage(visibility) =>
      || (reply.Empty? && st' == st)
      || (reply.Got? && Handed(st, now, reply.message.id, visibility, st')
          && reply.message == Received(reply.message.id, st.queue[reply.message.id].job, st.serial))
      || (reply.Failed? && (st' == st || exists id :: id in st.queue && Handed(st, now, id, visibility, st')))
    case UpdateMessage(id, receipt, visibility) =>
      var rotated := id in st.queue && st.queue[id].receipt == receipt && st' == Rotate(st, now, id, visibility);
      (reply == Rotated(st.serial) && rotated) || (reply.Failed? && (st' == st || rotated))
    case DeleteMessage(id, receipt, _) =>
      var deleted := id in st.queue && st.queue[id].receipt == receipt && st' == st.(queue := st.queue - {id});
      (reply.Done? && deleted) || ((reply.Gone? || reply.Failed?) && (st' == st || deleted))
  }

  // Message `id` gets a new receipt and stays invisible for `visibility` seconds.
  function Rotate(st: Store, now: real, id: nat, visibility: real): Store
    requires id in st.queue
  {
    st.(queue := st.queue[id := Message(st.queue[id].job, st.serial, now + visibility)], serial := st.serial + 1)
  }

  predicate Handed(st: Store, now: real, id: nat, visibility: real, st': Store) {
    id in st.queue && st.queue[id].visibleAt <= now && st' == Rotate(st, now, id, visibility)
  }

  /** The service accepts `req` at time `now`, answers `reply` and becomes `st'`. */
  predicate Performs(st: Store, now: real, req: Request, reply: Reply, st': Store) {
    match req
    case ReadJob(_) => Reads(st, req, reply) && st' == st
    case ReadIndex(_) => Reads(st, req, reply) && st' == st
    case ListJobs(_) => Reads(st, req, reply) && st' == st
    case CreateJob(_) => Uploads(st, now, req, reply, st')
    case WriteJob(_, _, _) => Uploads(st, now, req, reply, st')
    case PutIndex(_) => Uploads(st, now, req, reply, st')
    case Verify(_, _) => (reply.Approved? || reply.Rejected? || reply.Failed?) && st' == st
    case Notify(_, _, _) => (reply.Done? || reply.Failed?) && st' == st
    case SaveCursor => (reply.Done? || reply.Conflict? || reply.Failed?) && st' == st
    case _ => Queues(st, now, req, reply, st')
  }

  // ----- the system -----

  datatype Step =
    | Tick(to: real)
    | Crash(worker: Pid)
    | Invoke(worker: Pid, call: Call)
    | Local(worker: Pid, readings: Readings, minted: Token)
    | Io(worker: Pid, readings: Readings, minted: Token, reply: Reply, after: Store)

  predicate Admissible(call: Call) {
    call.Enqueue? ==> call.contract.budget.Valid()
  }

  function Grants(s: System, p: Pid, req: Request): map<Token, Grant> {
    if req.WriteJob? && req.update.Claimed?
    then s.grants[req.update.token := Grant(p, req.next.jobId, req.next.generation)]
    else s.grants
  }

  predicate CanTurn(s: System, p: Pid, r: Readings) {
    p in s.procs && Runnable(s.procs[p]) && r.Within(s.procs[p].since, s.now)
  }

  predicate Enabled(s: System, step: Step) {
    match step
    case Tick(to) => s.now <= to
    case Crash(p) => p in s.procs
    case Invoke(p, call) => p in s.procs && s.procs[p].op.Idle? && Admissible(call)
    case Local(p, r, minted) => CanTurn(s, p, r) && NextTurn(s.procs[p], r, minted).Move?
    case Io(p, r, minted, reply, after) =>
      && CanTurn(s, p, r) && minted !in s.grants
      && NextTurn(s.procs[p], r, minted).Ask?
      && Performs(s.store, s.now, NextTurn(s.procs[p], r, minted).request, reply, after)
  }

  function With(s: System, p: Pid, w: Proc): System {
    s.(procs := s.procs[p := w.(since := s.now)])
  }

  function Apply(s: System, step: Step): System
    requires Enabled(s, step)
  {
    match step
    case Tick(to) => s.(now := to)
    case Crash(p) => With(s, p, Proc(s.procs[p].options, map[], Idle(Nothing), s.now))
    case Invoke(p, call) => With(s, p, Begin(s.procs[p], call))
    case Local(p, r, minted) => With(s, p, NextTurn(s.procs[p], r, minted).proc)
    case Io(p, r, minted, reply, after) =>
      var req := NextTurn(s.procs[p], r, minted).request;
      With(s, p, Resume(s.procs[p], r, minted, reply, |s.log|))
      .(store := after, grants := Grants(s, p, req), log := s.log + [Entry(p, req, reply, s.now)])
  }

  /** Idle workers with valid options over empty storage. */
  predicate Initial(s: System) {
    && s.store.blobs == map[] && s.store.index == map[] && s.store.queue == map[]
    && s.grants == map[] && s.log == []
    && forall p :: p in s.procs ==>
         && s.procs[p].options.Valid() && s.procs[p].claims == map[]
         && s.procs[p].op == Idle(Nothing) && s.procs[p].since <= s.now
  }

  /** `run[i + 1]` is `run[i]` after `steps[i]`. */
  predicate Run(run: seq<System>, steps: seq<Step>) {
    && |run| == |steps| + 1
    && Initial(run[0])
    && forall i :: 0 <= i < |steps| ==> Enabled(run[i], steps[i]) && run[i + 1] == Apply(run[i], steps[i])
  }
}
