/**
 One I/O call and the shared invariant: if the request a worker makes is
 justified, then whatever the service answers, the shared state stays right.
 */
module DurableEffects {
  import opened Basics
  import opened FlashTypes
  import opened DurableJob
  import opened DurableWorker
  import opened DurableSystem
  import opened DurableInvariant
  import opened DurableGrowth

  // `token` was minted for `p`, for the very generation of the record `n`.
  predicate HolderIs(s: System, p: Pid, token: Token, n: JobState) {
    token in s.grants && s.grants[token] == Grant(p, n.jobId, n.generation)
  }

  ghost predicate UpdateOk(s: System, p: Pid, w: Proc, n: JobState, version: nat, u: Update)
    requires Known(s, n.jobId) && 1 <= version <= |H(s, n.jobId)|
  {
    match u
    case Created => false
    case Claimed(token, lease, _) => token !in s.grants && lease == w.options.Lease()
    case Terminated(_) => true
    case Renewed(token, lease, _, _) => HolderIs(s, p, token, n) && lease == w.options.Lease()
    case Abandoned(token, _) => HolderIs(s, p, token, n)
    case Accepted(token, _, _, _, _, _) =>
      HolderIs(s, p, token, n) && Grounds(s, H(s, n.jobId)[version - 1].state, version, u)
    case Notified => exists at: nat :: NotifiedAt(s, at, n.jobId)
  }

  /** What a worker owes the others when it makes a request. */
  ghost predicate RequestOk(s: System, p: Pid, w: Proc, req: Request) {
    match req
    case CreateJob(j) =>
      j == NewJob(j.jobId, j.contract, j.startedAt) && j.contract.budget.Valid() && j.startedAt <= s.now
    case WriteJob(n, version, u) =>
      && Known(s, n.jobId) && 1 <= version <= |H(s, n.jobId)|
      && Legal(H(s, n.jobId)[version - 1], Commit(n, u, s.now))
      && UpdateOk(s, p, w, n, version, u)
    case PutIndex(e) => IndexEntryOk(s, e)
    case Notify(job, attempt, result) =>
      && Known(s, job) && Current(s, job).acceptedAttemptId == Some(attempt)
      && Current(s, job).acceptedResult == Some(result)
    case DeleteMessage(id, _, job) =>
      IsSettled(s, job) && id < s.store.serial && (id in s.store.queue ==> s.store.queue[id].job == job)
    case SendMessage(job) => Known(s, job)
    case _ => true
  }

  /** `s'` is `s` after worker `p` made `req` and got `reply`. */
  ghost predicate Effect(s: System, s': System, p: Pid, w: Proc, req: Request, reply: Reply) {
    && p in s.procs && s.procs[p] == w && w.since <= s.now
    && s'.now == s.now && s'.log == s.log + [Entry(p, req, reply, s.now)] && s'.grants == Grants(s, p, req)
    && Performs(s.store, s.now, req, reply, s'.store)
    && s'.procs.Keys == s.procs.Keys
    && s'.procs[p].since == s.now && s'.procs[p].options == w.options
    && (forall q :: q in s.procs && q != p ==> s'.procs[q] == s.procs[q])
    && (req.WriteJob? && req.update.Claimed? ==> req.update.token !in s.grants)
  }

  // The three ways the blobs can change.
  predicate SameBlobs(s: System, s': System) {
    s'.store.blobs == s.store.blobs
  }

  predicate NewBlob(s: System, s': System, job: JobId, c: Commit) {
    job !in s.store.blobs && s'.store.blobs == s.store.blobs[job := [c]]
  }

  predicate NewVersion(s: System, s': System, job: JobId, c: Commit) {
    job in s.store.blobs && s'.store.blobs == s.store.blobs[job := s.store.blobs[job] + [c]]
  }

  lemma BlobCases(s: System, s': System, p: Pid, w: Proc, req: Request, reply: Reply)
    requires Effect(s, s', p, w, req, reply)
    ensures || SameBlobs(s, s')
            || (req.CreateJob? && NewBlob(s, s', req.state.jobId, Commit(req.state, Created, s.now)))
            || (req.WriteJob? && NewVersion(s, s', req.next.jobId, Commit(req.next, req.update, s.now))
                && req.version == |s.store.blobs[req.next.jobId]| > 0)
    ensures !req.PutIndex? ==> s'.store.index == s.store.index
    ensures req.CreateJob? || req.WriteJob? || req.PutIndex? || req.ReadJob? || req.ReadIndex? || req.ListJobs? ||
            req.Verify? || req.Notify? || req.SaveCursor? ==>
              s'.store.queue == s.store.queue && s'.store.serial == s.store.serial
  {
  }

  lemma BlobsGrow(s: System, s': System, p: Pid, w: Proc, req: Request, reply: Reply)
    requires Effect(s, s', p, w, req, reply)
    ensures forall job :: job in s.store.blobs ==>
              job in s'.store.blobs && Extends(s.store.blobs[job], s'.store.blobs[job])
  {
    BlobCases(s, s', p, w, req, reply);
  }

  lemma QueueGrows(s: System, s': System, p: Pid, w: Proc, req: Request, reply: Reply)
    requires Effect(s, s', p, w, req, reply) && QueueOk(s)
    ensures s.store.serial <= s'.store.serial
    ensures forall id :: id in s'.store.queue && id < s.store.serial ==>
              id in s.store.queue && s'.store.queue[id].job == s.store.queue[id].job
  {
    BlobCases(s, s', p, w, req, reply);
  }

  lemma EffectGrows(s: System, s': System, p: Pid, w: Proc, req: Request, reply: Reply)
    requires Effect(s, s', p, w, req, reply) && QueueOk(s)
    ensures Grows(s, s')
  {
    BlobsGrow(s, s', p, w, req, reply);
    QueueGrows(s, s', p, w, req, reply);
    forall q | q in s.procs ensures q in s'.procs && Continues(s.procs[q], s'.procs[q]) {
    }
    IndexGrows(s, s', p, w, req, reply);
  }

  lemma IndexGrows(s: System, s': System, p: Pid, w: Proc, req: Request, reply: Reply)
    requires Effect(s, s', p, w, req, reply)
    ensures forall h :: h in s.store.index ==> h in s'.store.index && s'.store.index[h] == s.store.index[h]
  {
    if !req.PutIndex? {
      BlobCases(s, s', p, w, req, reply);
    }
  }

  // ----- each part of the shared invariant -----

  lemma LawfulAppend(job: JobId, h: History, c: Commit)
    requires Lawful(job, h) && Legal(Last(h), c)
    ensures Lawful(job, h + [c])
  {
    var h' := h + [c];
    forall i | 0 < i < |h'| ensures Legal(h'[i - 1], h'[i]) {
      if i < |h| {
        assert Legal(h[i - 1], h[i]);
      }
    }
  }

  lemma KeepBlobs(s: System, s': System, p: Pid, w: Proc, req: Request, reply: Reply)
    requires BlobsOk(s) && RequestOk(s, p, w, req) && Effect(s, s', p, w, req, reply)
    ensures BlobsOk(s')
  {
    BlobCases(s, s', p, w, req, reply);
    forall job | job in s'.store.blobs ensures BlobOk(s', job) {
      if job in s.store.blobs {
        assert BlobOk(s, job);
        if s'.store.blobs[job] != s.store.blobs[job] {
          LawfulAppend(job, H(s, job), Commit(req.next, req.update, s.now));
        }
      }
    }
  }

  lemma KeepLease(s: System, s': System, p: Pid, w: Proc, req: Request, reply: Reply, job: JobId, i: int)
    requires BlobsOk(s) && LeasesOk(s) && RequestOk(s, p, w, req) && Effect(s, s', p, w, req, reply) && Grows(s, s')
    requires job in s'.store.blobs && 0 <= i < |s'.store.blobs[job]|
    requires job in s.store.blobs && i < |s.store.blobs[job]|
    requires s'.store.blobs[job][i] == s.store.blobs[job][i]
    ensures LeaseOwned(s', job, i)
  {
    assert LeaseOwned(s, job, i);
    var c := s.store.blobs[job][i];
    if c.state.leaseId.Some? {
      var q := s.grants[c.state.leaseId.value.token].worker;
      assert Continues(s.procs[q], s'.procs[q]);
    }
  }

  // A legal commit either takes over the lease of the record it replaces, or drops it, or is a claim.
  lemma LeaseAfter(job: JobId, prev: Commit, c: Commit)
    requires Sound(job, prev.state) && Legal(prev, c) && c.state.leaseId.Some?
    ensures !c.update.Claimed? ==> c.state.leaseId == prev.state.leaseId && c.state.generation == prev.state.generation
    ensures !c.update.Claimed? && !c.update.Renewed? ==> c.state.Settled()
    ensures c.update.Renewed? ==> c.state.leaseId.value.token == c.update.token && c.update.renewedAt <= c.when
    ensures c.update.Claimed? ==> c.state.leaseId.value.token == c.update.token && c.update.at <= c.when
    ensures c.state.leaseExpiresAt.Some?
    ensures c.update.Renewed? ==> c.state.leaseExpiresAt.value <= c.when + c.update.lease
    ensures c.update.Claimed? ==> c.state.leaseExpiresAt.value <= c.when + c.update.lease
  {
  }

  lemma NewLease(s: System, s': System, p: Pid, w: Proc, req: Request, reply: Reply)
    requires BlobsOk(s) && LeasesOk(s) && RequestOk(s, p, w, req) && Effect(s, s', p, w, req, reply) && Grows(s, s')
    requires req.WriteJob? && NewVersion(s, s', req.next.jobId, Commit(req.next, req.update, s.now))
    requires req.version == |s.store.blobs[req.next.jobId]|
    ensures LeaseOwned(s', req.next.jobId, req.version)
  {
    var job := req.next.jobId;
    var prev := H(s, job)[req.version - 1];
    var c := Commit(req.next, req.update, s.now);
    assert s'.store.blobs[job][req.version] == c;
    LawfulOk(s, job, req.version - 1);
    if c.state.leaseId.Some? {
      LeaseAfter(job, prev, c);
      if !req.update.Claimed? {
        assert LeaseOwned(s, job, req.version - 1);
        var q := s.grants[prev.state.leaseId.value.token].worker;
        assert Continues(s.procs[q], s'.procs[q]);
      }
    }
  }

  lemma LawfulOk(s: System, job: JobId, i: nat)
    requires BlobsOk(s) && Known(s, job) && i < |H(s, job)|
    ensures Lawful(job, H(s, job)) && Sound(job, H(s, job)[i].state) && H(s, job)[i].when <= s.now
    ensures H(s, job)[i].state.contract == H(s, job)[0].state.contract
    ensures H(s, job)[i].state.startedAt == H(s, job)[0].state.startedAt
  {
    assert BlobOk(s, job);
    LawfulIsSound(job, H(s, job), i);
    LawfulIsOrdered(job, H(s, job), i, |H(s, job)| - 1);
  }

  lemma KeepLeases(s: System, s': System, p: Pid, w: Proc, req: Request, reply: Reply)
    requires BlobsOk(s) && LeasesOk(s) && RequestOk(s, p, w, req) && Effect(s, s', p, w, req, reply) && Grows(s, s')
    ensures LeasesOk(s')
  {
    BlobCases(s, s', p, w, req, reply);
    forall job, i | job in s'.store.blobs && 0 <= i < |s'.store.blobs[job]| ensures LeaseOwned(s', job, i) {
      if job in s.store.blobs && i < |s.store.blobs[job]| {
        KeepLease(s, s', p, w, req, reply, job, i);
      } else if req.WriteJob? {
        NewLease(s, s', p, w, req, reply);
      }
    }
  }

  lemma KeepIndex(s: System, s': System, p: Pid, w: Proc, req: Request, reply: Reply)
    requires IndexOk(s) && RequestOk(s, p, w, req) && Effect(s, s', p, w, req, reply) && Grows(s, s') && BlobsOk(s')
    ensures IndexOk(s')
  {
    forall h | h in s'.store.index
      ensures s'.store.index[h].claimHash == h && IndexEntryOk(s', s'.store.index[h])
    {
      var e := s'.store.index[h];
      if h !in s.store.index {
        BlobCases(s, s', p, w, req, reply);
        assert e == req.index;
      }
      assert e.claimHash == h && IndexEntryOk(s, e);
      JobGrows(s, s', e.jobId);
    }
  }

  lemma GroundsPersist(s: System, s': System, prev: JobState, version: nat, u: Update)
    requires Grows(s, s') && u.Accepted? && Grounds(s, prev, version, u)
    ensures Grounds(s', prev, version, u)
  {
    LogPersists(s, s', u.verified);
    LogPersists(s, s', u.indexed);
    LogPersists(s, s', u.loaded);
  }

  lemma KeepAcceptance(s: System, s': System, job: JobId, i: int)
    requires AcceptancesOk(s) && Grows(s, s')
    requires job in s.store.blobs && 0 < i < |s.store.blobs[job]|
    requires job in s'.store.blobs && s.store.blobs[job] <= s'.store.blobs[job]
    ensures AcceptanceOk(s', job, i)
  {
    assert AcceptanceOk(s, job, i);
    var h := s.store.blobs[job];
    assert s'.store.blobs[job][i] == h[i] && s'.store.blobs[job][i - 1] == h[i - 1];
    if h[i].update.Accepted? {
      GroundsPersist(s, s', h[i - 1].state, i, h[i].update);
    }
  }

  lemma KeepAcceptances(s: System, s': System, p: Pid, w: Proc, req: Request, reply: Reply)
    requires AcceptancesOk(s) && RequestOk(s, p, w, req) && Effect(s, s', p, w, req, reply) && Grows(s, s')
    ensures AcceptancesOk(s')
  {
    hide Effect, Legal, Grounds;
    BlobCases(s, s', p, w, req, reply);
    forall job, i | job in s'.store.blobs && 0 < i < |s'.store.blobs[job]| ensures AcceptanceOk(s', job, i) {
      if job in s.store.blobs && i < |s.store.blobs[job]| {
        KeepAcceptance(s, s', job, i);
      } else if req.WriteJob? && req.update.Accepted? {
        GroundsPersist(s, s', H(s, job)[i - 1].state, i, req.update);
      }
    }
  }

  lemma KeepHolders(s: System, s': System, p: Pid, w: Proc, req: Request, reply: Reply)
    requires HoldersOk(s) && RequestOk(s, p, w, req) && Effect(s, s', p, w, req, reply) && Grows(s, s')
    ensures HoldersOk(s')
  {
    BlobCases(s, s', p, w, req, reply);
    forall job, i | job in s'.store.blobs && 0 < i < |s'.store.blobs[job]| ensures HolderOk(s', job, i) {
      if job in s.store.blobs && i < |s.store.blobs[job]| {
        assert HolderOk(s, job, i);
      }
    }
  }

  lemma TriggersKept(s: System, s': System, p: Pid, w: Proc, req: Request, reply: Reply, job: JobId)
    requires Effect(s, s', p, w, req, reply) && RequestOk(s, p, w, req) && Grows(s, s') && BlobsOk(s') && QueueOk(s)
    requires HasTrigger(s, job) || IsSettled(s, job)
    ensures HasTrigger(s', job) || IsSettled(s', job)
  {
    if IsSettled(s, job) {
      SettlementPersists(s, s', job);
    } else {
      var id :| id in s.store.queue && s.store.queue[id].job == job;
      if !(req.DeleteMessage? && req.id == id) {
        MessageKept(s, s', p, w, req, reply, id);
        assert id in s'.store.queue && s'.store.queue[id].job == job;
      }
    }
  }

  lemma MessageKept(s: System, s': System, p: Pid, w: Proc, req: Request, reply: Reply, id: nat)
    requires Effect(s, s', p, w, req, reply) && id in s.store.queue && !(req.DeleteMessage? && req.id == id)
    requires Grows(s, s')
    ensures id in s'.store.queue && (id < s.store.serial ==> s'.store.queue[id].job == s.store.queue[id].job)
  {
    BlobCases(s, s', p, w, req, reply);
  }

  lemma NewEntryOk(s: System, s': System, p: Pid, w: Proc, req: Request, reply: Reply)
    requires Effect(s, s', p, w, req, reply) && RequestOk(s, p, w, req) && Grows(s, s') && BlobsOk(s')
    ensures EntryOk(s', Entry(p, req, reply, s.now))
  {
    match req {
      case Notify(job, _, _) => SettlementPersists(s, s', job);
      case DeleteMessage(_, _, job) => SettlementPersists(s, s', job);
      case SendMessage(job) =>
        if reply.Done? {
          assert s.store.serial in s'.store.queue && s'.store.queue[s.store.serial].job == job;
        }
      case _ =>
    }
  }

  lemma EntryPersists(s: System, s': System, p: Pid, w: Proc, req: Request, reply: Reply, e: Entry)
    requires Effect(s, s', p, w, req, reply) && RequestOk(s, p, w, req) && Grows(s, s') && BlobsOk(s')
    requires EntryOk(s, e) && QueueOk(s)
    ensures EntryOk(s', e)
  {
    match e.request {
      case Notify(job, _, _) => SettlementPersists(s, s', job);
      case DeleteMessage(_, _, job) => SettlementPersists(s, s', job);
      case ReadJob(job) =>
        if e.reply.Loaded? {
          JobGrows(s, s', job);
        }
      case CreateJob(j) =>
        if e.reply.Done? {
          JobGrows(s, s', j.jobId);
        }
      case SendMessage(job) =>
        if e.reply.Done? {
          TriggersKept(s, s', p, w, req, reply, job);
        }
      case _ =>
    }
  }

  lemma KeepLog(s: System, s': System, p: Pid, w: Proc, req: Request, reply: Reply)
    requires LogOk(s) && QueueOk(s) && RequestOk(s, p, w, req) && Effect(s, s', p, w, req, reply)
    requires Grows(s, s') && BlobsOk(s')
    ensures LogOk(s')
  {
    forall n | 0 <= n < |s'.log| ensures EntryOk(s', s'.log[n]) && s'.log[n].when <= s'.now {
      if n < |s.log| {
        assert EntryOk(s, s.log[n]);
        EntryPersists(s, s', p, w, req, reply, s.log[n]);
      } else {
        NewEntryOk(s, s', p, w, req, reply);
      }
    }
  }

  lemma NotifiedPersists(s: System, s': System, job: JobId)
    requires Grows(s, s') && exists n: nat :: NotifiedAt(s, n, job)
    ensures exists n: nat :: NotifiedAt(s', n, job)
  {
    var n: nat :| NotifiedAt(s, n, job);
    LogPersists(s, s', n);
    assert NotifiedAt(s', n, job);
  }

  lemma KeepNotifications(s: System, s': System, p: Pid, w: Proc, req: Request, reply: Reply)
    requires NotificationsOk(s) && BlobsOk(s) && RequestOk(s, p, w, req)
    requires Effect(s, s', p, w, req, reply) && Grows(s, s')
    ensures NotificationsOk(s')
  {
    forall job | job in s'.store.blobs ensures SentOk(s', job) {
      KeepSent(s, s', p, w, req, reply, job);
    }
  }

  lemma KeepSent(s: System, s': System, p: Pid, w: Proc, req: Request, reply: Reply, job: JobId)
    requires NotificationsOk(s) && BlobsOk(s) && RequestOk(s, p, w, req)
    requires Effect(s, s', p, w, req, reply) && Grows(s, s')
    requires job in s'.store.blobs
    ensures SentOk(s', job)
  {
    hide Effect, Grows;
    BlobCases(s, s', p, w, req, reply);
    if Known(s', job) && Current(s', job).notificationSent && job in s.store.blobs {
      assert SentOk(s, job) && BlobOk(s, job);
      if s'.store.blobs[job] != s.store.blobs[job] && !req.update.Notified? {
        LawfulOk(s, job, |H(s, job)| - 1);
      }
      NotifiedPersists(s, s', job);
    }
  }

  lemma KeepQueue(s: System, s': System, p: Pid, w: Proc, req: Request, reply: Reply)
    requires QueueOk(s) && BlobsOk(s) && RequestOk(s, p, w, req) && Effect(s, s', p, w, req, reply)
    requires Grows(s, s') && BlobsOk(s')
    ensures QueueOk(s')
  {
    forall id | id in s'.store.queue ensures id < s'.store.serial && Known(s', s'.store.queue[id].job) {
      var job := s'.store.queue[id].job;
      if id < s.store.serial {
        assert id in s.store.queue && s.store.queue[id].job == job;
      } else {
        BlobCases(s, s', p, w, req, reply);
        assert req.SendMessage?;
      }
      JobGrows(s, s', job);
    }
  }

  /** Whatever is answered to a justified request, the shared invariant is kept. */
  lemma KeepShared(s: System, s': System, p: Pid, w: Proc, req: Request, reply: Reply)
    requires SharedOk(s) && RequestOk(s, p, w, req) && Effect(s, s', p, w, req, reply)
    ensures SharedOk(s') && Grows(s, s')
  {
    EffectGrows(s, s', p, w, req, reply);
    KeepBlobs(s, s', p, w, req, reply);
    KeepLeases(s, s', p, w, req, reply);
    KeepIndex(s, s', p, w, req, reply);
    KeepAcceptances(s, s', p, w, req, reply);
    KeepHolders(s, s', p, w, req, reply);
    KeepLog(s, s', p, w, req, reply);
    KeepNotifications(s, s', p, w, req, reply);
    KeepQueue(s, s', p, w, req, reply);
  }
}
