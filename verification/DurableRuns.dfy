/** The invariant holds in every state of every run, and the system only ever grows. */
module DurableRuns {
  import opened FlashTypes
  import opened DurableWorker
  import opened DurableSystem
  import opened DurableInvariant
  import opened DurableGrowth
  import opened DurableEffects
  import opened DurableRequests
  import opened DurableReplies

  // Only the clock and the local state of workers differ between `s` and `s'`.
  ghost predicate Quiet(s: System, s': System) {
    && s.now <= s'.now && s'.store == s.store && s'.grants == s.grants && s'.log == s.log
    && s'.procs.Keys == s.procs.Keys
    && forall p :: p in s.procs ==> Continues(s.procs[p], s'.procs[p])
  }

  lemma QuietGrows(s: System, s': System)
    requires Quiet(s, s')
    ensures Grows(s, s')
  {
  }

  lemma QuietLeases(s: System, s': System)
    requires Quiet(s, s') && LeasesOk(s)
    ensures LeasesOk(s')
  {
    forall job, i | job in s'.store.blobs && 0 <= i < |s'.store.blobs[job]| ensures LeaseOwned(s', job, i) {
      assert LeaseOwned(s, job, i);
      var c := s.store.blobs[job][i];
      if c.state.leaseId.Some? {
        var q := s.grants[c.state.leaseId.value.token].worker;
        assert Continues(s.procs[q], s'.procs[q]);
      }
    }
  }

  lemma QuietHistories(s: System, s': System)
    requires Quiet(s, s') && BlobsOk(s) && AcceptancesOk(s) && HoldersOk(s)
    ensures BlobsOk(s') && AcceptancesOk(s') && HoldersOk(s')
  {
    forall job | job in s'.store.blobs ensures BlobOk(s', job) {
      assert BlobOk(s, job);
    }
    forall job, i | job in s'.store.blobs && 0 < i < |s'.store.blobs[job]|
      ensures AcceptanceOk(s', job, i) && HolderOk(s', job, i)
    {
      assert AcceptanceOk(s, job, i) && HolderOk(s, job, i);
    }
  }

  lemma QuietLog(s: System, s': System)
    requires Quiet(s, s') && LogOk(s) && NotificationsOk(s)
    ensures LogOk(s') && NotificationsOk(s')
  {
    forall n | 0 <= n < |s'.log| ensures EntryOk(s', s'.log[n]) && s'.log[n].when <= s'.now {
      assert EntryOk(s, s.log[n]);
      assert forall job :: HasTrigger(s, job) == HasTrigger(s', job);
    }
    forall job | job in s'.store.blobs ensures SentOk(s', job) {
      assert SentOk(s, job);
      if Known(s', job) && Current(s', job).notificationSent {
        NotifiedPersists(s, s', job) by { QuietGrows(s, s'); }
      }
    }
  }

  lemma QuietShared(s: System, s': System)
    requires Quiet(s, s') && SharedOk(s)
    ensures SharedOk(s') && Grows(s, s')
  {
    QuietGrows(s, s');
    QuietLeases(s, s');
    QuietHistories(s, s');
    QuietLog(s, s');
  }

  // ----- the steps without I/O -----

  /** A call arriving at an idle worker starts from true facts. */
  lemma BeginLands(s: System, s': System, p: Pid, w: Proc, call: Call)
    requires WorkerOk(s, p, w) && Grows(s, s') && SharedOk(s') && Admissible(call)
    ensures Landed(s, s', p, Begin(w, call))
  {
    hide SharedOk, Grows, Knows, ClaimsOk;
    Lands(s, s', p, w, Begin(w, call));
  }

  lemma PruneKeeps(s: System, s': System, p: Pid, w: Proc, t: real)
    requires WorkerOk(s, p, w) && Grows(s, s') && SharedOk(s')
    ensures ClaimsOk(s', p, w.(claims := Prune(w.claims, t)))
  {
    CarryClaims(s, s', p, w);
  }

  lemma LocalLands(s: System, s': System, p: Pid, w: Proc, r: Readings, minted: Token)
    requires WorkerOk(s, p, w) && Grows(s, s') && SharedOk(s') && Runnable(w) && NextTurn(w, r, minted).Move?
    ensures Landed(s, s', p, NextTurn(w, r, minted).proc)
  {
    hide SharedOk, Grows, Knows, ClaimsOk;
    var w' := NextTurn(w, r, minted).proc;
    CarryClaims(s, s', p, w);
    if w.op.ClaimBegin? {
      PruneKeeps(s, s', p, w, r.t0);
      assert ClaimsOk(s', p, w'.(since := s.now)) by {
        SameClaims(s', p, w.(claims := Prune(w.claims, r.t0)), w'.(since := s.now));
      }
      assert Facts(w'.(since := s.now)) == {};
    } else {
      Lands(s, s', p, w, w');
    }
  }

  lemma SameClaims(s: System, p: Pid, w: Proc, w': Proc)
    requires ClaimsOk(s, p, w) && w'.claims == w.claims
    ensures ClaimsOk(s, p, w')
  {
  }

  lemma CrashLands(s: System, s': System, p: Pid, w: Proc)
    requires WorkerOk(s, p, w) && Grows(s, s')
    ensures Landed(s, s', p, Proc(w.options, map[], Idle(Nothing), s.now))
  {
  }

  // ----- every step -----

  // All workers but `p` stand still, and `p` has landed in `w'`.
  lemma OthersStand(s: System, s': System, p: Pid, w': Proc)
    requires Inv(s) && Grows(s, s') && SharedOk(s') && p in s.procs
    requires s'.procs == s.procs[p := w'] && WorkerOk(s', p, w')
    ensures Inv(s')
  {
    forall q | q in s'.procs ensures WorkerOk(s', q, s'.procs[q]) {
      if q != p {
        WorkerPersists(s, s', q, s.procs[q]);
      }
    }
  }

  lemma TickKeepsInv(s: System, to: real)
    requires Inv(s) && s.now <= to
    ensures Inv(s.(now := to)) && Grows(s, s.(now := to))
  {
    var s' := s.(now := to);
    QuietShared(s, s');
    forall q | q in s'.procs ensures WorkerOk(s', q, s'.procs[q]) {
      WorkerPersists(s, s', q, s.procs[q]);
    }
  }

  lemma QuietStepKeepsInv(s: System, step: Step)
    requires Inv(s) && Enabled(s, step) && (step.Crash? || step.Invoke? || step.Local?)
    ensures Inv(Apply(s, step)) && Grows(s, Apply(s, step))
  {
    var p := step.worker;
    var s', w := Apply(s, step), s.procs[p];
    assert WorkerOk(s, p, w);
    QuietStepIsQuiet(s, step);
    QuietShared(s, s');
    match step {
      case Crash(_) => CrashLands(s, s', p, w);
      case Invoke(_, call) => BeginLands(s, s', p, w, call);
      case Local(_, r, minted) => LocalLands(s, s', p, w, r, minted);
    }
    OthersStand(s, s', p, s'.procs[p]);
  }

  lemma TurnKeepsOptions(w: Proc, r: Readings, minted: Token)
    requires Runnable(w) && NextTurn(w, r, minted).Move?
    ensures NextTurn(w, r, minted).proc.options == w.options
  {
  }

  lemma ResumeKeepsOptions(w: Proc, r: Readings, minted: Token, reply: Reply, here: nat)
    requires Runnable(w) && NextTurn(w, r, minted).Ask?
    ensures Resume(w, r, minted, reply, here).options == w.options
  {
  }

  lemma QuietStepIsQuiet(s: System, step: Step)
    requires Enabled(s, step) && (step.Crash? || step.Invoke? || step.Local?)
    requires WorkerOk(s, step.worker, s.procs[step.worker])
    ensures Quiet(s, Apply(s, step))
  {
    if step.Local? {
      TurnKeepsOptions(s.procs[step.worker], step.readings, step.minted);
    }
  }

  lemma MintedIsFresh(w: Proc, r: Readings, minted: Token)
    requires Runnable(w) && NextTurn(w, r, minted).Ask?
    ensures var req := NextTurn(w, r, minted).request;
            req.WriteJob? && req.update.Claimed? ==> req.update.token == minted
  {
  }

  lemma IoIsEffect(s: System, step: Step)
    requires Enabled(s, step) && step.Io? && WorkerOk(s, step.worker, s.procs[step.worker])
    ensures var w := s.procs[step.worker];
            Effect(s, Apply(s, step), step.worker, w, NextTurn(w, step.readings, step.minted).request, step.reply)
  {
    var w := s.procs[step.worker];
    ResumeKeepsOptions(w, step.readings, step.minted, step.reply, |s.log|);
    MintedIsFresh(w, step.readings, step.minted);
  }

  lemma IoKeepsInv(s: System, step: Step)
    requires Inv(s) && Enabled(s, step) && step.Io?
    ensures Inv(Apply(s, step)) && Grows(s, Apply(s, step))
  {
    var p, r, minted := step.worker, step.readings, step.minted;
    var s', w := Apply(s, step), s.procs[p];
    assert WorkerOk(s, p, w);
    var req := NextTurn(w, r, minted).request;
    RequestIsJustified(s, p, w, r, minted);
    IoIsEffect(s, step);
    KeepShared(s, s', p, w, req, step.reply);
    ReplyLands(s, s', p, w, r, minted, step.reply);
    OthersStand(s, s', p, s'.procs[p]);
  }

  /** Every step of the system, by whichever worker and however answered, keeps the invariant. */
  lemma StepKeepsInv(s: System, step: Step)
    requires Inv(s) && Enabled(s, step)
    ensures Inv(Apply(s, step)) && Grows(s, Apply(s, step))
  {
    match step {
      case Tick(to) => TickKeepsInv(s, to);
      case Io(_, _, _, _, _) => IoKeepsInv(s, step);
      case _ => QuietStepKeepsInv(s, step);
    }
  }

  lemma InitialInv(s: System)
    requires Initial(s)
    ensures Inv(s)
  {
  }

  /** The invariant holds everywhere in every run. */
  lemma {:induction false} RunKeepsInv(run: seq<System>, steps: seq<Step>, i: nat)
    requires Run(run, steps) && i < |run|
    ensures Inv(run[i])
  {
    if i == 0 {
      InitialInv(run[0]);
    } else {
      RunKeepsInv(run, steps, i - 1);
      StepKeepsInv(run[i - 1], steps[i - 1]);
      assert run[i - 1 + 1] == Apply(run[i - 1], steps[i - 1]);
    }
  }

  lemma GrowthComposes(s: System, s': System, s'': System)
    requires Grows(s, s') && Grows(s', s'')
    ensures Grows(s, s'')
  {
    forall job | job in s.store.blobs
      ensures job in s''.store.blobs && Extends(s.store.blobs[job], s''.store.blobs[job])
    {
      assert Extends(s.store.blobs[job], s'.store.blobs[job]);
    }
    forall p | p in s.procs ensures p in s''.procs && Continues(s.procs[p], s''.procs[p]) {
      assert Continues(s.procs[p], s'.procs[p]);
    }
  }

  lemma GrowthIsReflexive(s: System)
    ensures Grows(s, s)
  {
  }

  /** Along a run, histories, index, log and grants only ever grow. */
  lemma {:induction false} RunGrows(run: seq<System>, steps: seq<Step>, i: nat, k: nat)
    requires Run(run, steps) && i <= k < |run|
    ensures Grows(run[i], run[k])
  {
    hide Inv, Grows, Apply;
    if i == k {
      GrowthIsReflexive(run[i]);
    } else {
      RunGrows(run, steps, i, k - 1);
      RunKeepsInv(run, steps, k - 1);
      StepKeepsInv(run[k - 1], steps[k - 1]);
      assert run[k - 1 + 1] == Apply(run[k - 1], steps[k - 1]);
      GrowthComposes(run[i], run[k - 1], run[k]);
    }
  }
}
