/**
 The durable job record and its committed history.

 A job blob is the sequence of records ever committed to it; its ETag is the
 length of that sequence, so a conditional write succeeds exactly when no
 commit has happened since the record was read.  Each commit says what kind of
 update it was and which clock readings the writer took.
 */
module DurableJob {
  import opened Basics
  import opened FlashTypes
  import LM = LeaseMachine

  datatype TerminalReason = AttemptBudgetExhausted | WallBudgetExpired

  datatype JobState = JobState(
    jobId: JobId,
    contract: WorkContract,
    startedAt: real,
    attemptNumber: nat,
    generation: nat,
    leaseId: Option<ClaimHash>,
    leaseExpiresAt: Option<real>,
    acceptedGeneration: Option<nat>,
    acceptedAttemptId: Option<AttemptId>,
    acceptedClaimHash: Option<ClaimHash>,
    acceptedResult: Option<ResultJson>,
    terminalReason: Option<TerminalReason>,
    notificationPending: bool,
    notificationSent: bool)
  {
    function Deadline(): real {
      startedAt + contract.budget.wallSeconds
    }

    // The lease guard of a claim: somebody holds an unexpired lease at `now`.
    predicate Live(now: real) {
      leaseExpiresAt.Some? && now < Min(leaseExpiresAt.value, Deadline())
    }

    predicate Settled() {
      acceptedResult.Some? || terminalReason.Some?
    }

    // The claim `token` of generation `held` is current and unexpired at `t`.
    predicate HeldBy(token: Token, held: nat, t: real) {
      && generation == held
      && leaseId == Some(Sha256(token))
      && acceptedResult.None?
      && terminalReason.None?
      && t < Min(if leaseExpiresAt.Some? then leaseExpiresAt.value else 0.0, Deadline())
    }

    // The record was accepted under this token with this result.
    predicate AcceptedAs(token: Token, result: ResultJson) {
      acceptedClaimHash == Some(Sha256(token)) && acceptedResult == Some(result)
    }
  }

  function NewJob(job: JobId, contract: WorkContract, startedAt: real): JobState {
    JobState(job, contract, startedAt, 0, 0, None, None, None, None, None, None, None, false, false)
  }

  // `verified`, `indexed` and `loaded` are positions in the system's I/O log:
  // the verifier call, the claim-index call and the read this commit rests on.
  datatype Update =
    | Created
    | Claimed(token: Token, lease: real, at: real)
    | Terminated(at: real)
    | Renewed(token: Token, lease: real, renewedAt: real, at: real)
    | Abandoned(token: Token, at: real)
    | Accepted(token: Token, result: ResultJson, at: real, verified: nat, indexed: nat, loaded: nat)
    | Notified

  datatype Commit = Commit(state: JobState, update: Update, when: real)

  type History = seq<Commit>

  /** What each kind of commit may do to the record it replaces. */
  predicate Legal(prev: Commit, next: Commit) {
    var p := prev.state;
    var n := next.state;
    match next.update
    case Created => false
    case Claimed(token, lease, at) =>
      && !p.Settled() && !p.Live(at)
      && p.attemptNumber < p.contract.budget.maxAttempts && at < p.Deadline()
      && lease > 0.0 && prev.when <= at <= next.when
      && n == p.(generation := p.generation + 1, attemptNumber := p.attemptNumber + 1,
                 leaseId := Some(Sha256(token)), leaseExpiresAt := Some(Min(at + lease, p.Deadline())))
    case Terminated(at) =>
      && !p.Settled() && !p.Live(at)
      && (p.attemptNumber >= p.contract.budget.maxAttempts || at >= p.Deadline())
      && prev.when <= at <= next.when
      && n == p.(terminalReason := Some(if p.attemptNumber >= p.contract.budget.maxAttempts
                                        then AttemptBudgetExhausted else WallBudgetExpired))
    case Renewed(token, lease, renewedAt, at) =>
      && p.HeldBy(token, p.generation, at)
      && lease > 0.0 && prev.when <= renewedAt <= at <= next.when
      && n == p.(leaseExpiresAt := Some(Min(renewedAt + lease, p.Deadline())))
      && p.leaseExpiresAt.Some? && p.leaseExpiresAt.value <= n.leaseExpiresAt.value
    case Abandoned(token, at) =>
      && p.HeldBy(token, p.generation, at)
      && prev.when <= at <= next.when
      && n == p.(leaseId := None, leaseExpiresAt := None)
    case Accepted(token, result, at, _, _, _) =>
      && p.HeldBy(token, p.generation, at)
      && prev.when <= at <= next.when
      && n == p.(acceptedGeneration := Some(p.generation),
                 acceptedAttemptId := Some(AttemptId(p.jobId, p.generation)),
                 acceptedClaimHash := Some(Sha256(token)),
                 acceptedResult := Some(result),
                 notificationPending := true, notificationSent := false)
    case Notified =>
      && p.notificationPending && !p.notificationSent
      && p.acceptedAttemptId.Some? && p.acceptedResult.Some?
      && prev.when <= next.when
      && n == p.(notificationPending := false, notificationSent := true)
  }

  /** A history that only ever grew by legal commits, starting from a new job. */
  ghost predicate Lawful(job: JobId, h: History) {
    && h != []
    && h[0].update == Created
    && h[0].state == NewJob(job, h[0].state.contract, h[0].state.startedAt)
    && h[0].state.startedAt <= h[0].when
    && h[0].state.contract.budget.Valid()
    && forall i :: 0 < i < |h| ==> Legal(h[i - 1], h[i])
  }

  /** What holds of every record a lawful history ever contains. */
  predicate Sound(job: JobId, j: JobState) {
    && j.jobId == job
    && j.contract.budget.Valid()
    && j.generation == j.attemptNumber <= j.contract.budget.maxAttempts
    && j.leaseId.Some? == j.leaseExpiresAt.Some?
    && (j.leaseExpiresAt.Some? ==> j.leaseExpiresAt.value <= j.Deadline())
    && (j.generation == 0 ==> j.leaseId.None?)
    && j.acceptedGeneration.Some? == j.acceptedResult.Some?
    && j.acceptedAttemptId.Some? == j.acceptedResult.Some?
    && j.acceptedClaimHash.Some? == j.acceptedResult.Some?
    && (j.acceptedResult.Some? ==>
          && j.terminalReason.None?
          && j.acceptedGeneration.value == j.generation
          && j.acceptedAttemptId.value == AttemptId(job, j.generation)
          && j.leaseId == j.acceptedClaimHash
          && j.notificationPending != j.notificationSent)
    && (j.acceptedResult.None? ==> !j.notificationPending && !j.notificationSent)
  }

  lemma {:induction false} LawfulIsSound(job: JobId, h: History, i: nat)
    requires Lawful(job, h) && i < |h|
    ensures Sound(job, h[i].state)
    ensures h[i].state.contract == h[0].state.contract && h[i].state.startedAt == h[0].state.startedAt
  {
    if i > 0 {
      LawfulIsSound(job, h, i - 1);
      assert Legal(h[i - 1], h[i]);
    }
  }

  lemma {:induction false} LawfulIsOrdered(job: JobId, h: History, i: nat, k: nat)
    requires Lawful(job, h) && i <= k < |h|
    ensures h[i].when <= h[k].when
    ensures h[i].state.generation <= h[k].state.generation
  {
    if i < k {
      LawfulIsOrdered(job, h, i, k - 1);
      assert Legal(h[k - 1], h[k]);
    }
  }

  /** Acceptance fields and the terminal reason, once set, are frozen; only the notification flags still move. */
  lemma {:induction false} SettlementIsFinal(job: JobId, h: History, i: nat, k: nat)
    requires Lawful(job, h) && i <= k < |h| && h[i].state.Settled()
    ensures h[k].state ==
            h[i].state.(notificationPending := h[k].state.notificationPending,
                        notificationSent := h[k].state.notificationSent)
    ensures forall j :: i < j <= k ==> h[j].update.Notified?
    ensures h[i].state.notificationSent ==> h[k].state == h[i].state && i == k
  {
    LawfulIsSound(job, h, i);
    if i < k {
      SettlementIsFinal(job, h, i, k - 1);
      assert Legal(h[k - 1], h[k]);
    }
  }

  /** At most one commit of a history accepts a result, and none follows or precedes a terminal record. */
  lemma AtMostOneAcceptance(job: JobId, h: History, i: nat, k: nat)
    requires Lawful(job, h) && 0 < i < |h| && 0 < k < |h|
    requires h[i].update.Accepted? && (h[k].update.Accepted? || h[k].update.Terminated?)
    ensures i == k
  {
    assert Legal(h[i - 1], h[i]) && Legal(h[k - 1], h[k]);
    if i < k {
      SettlementIsFinal(job, h, i, k);
    } else if k < i {
      SettlementIsFinal(job, h, k, i);
    }
  }

  /** A terminal record is only ever written over a lease that is absent or over, even on the last attempt. */
  lemma TerminationSparesLiveLeases(job: JobId, h: History, i: nat)
    requires Lawful(job, h) && 0 < i < |h| && h[i].update.Terminated?
    ensures h[i - 1].state.leaseExpiresAt.Some? ==> h[i - 1].state.leaseExpiresAt.value <= h[i].update.at
    ensures h[i].state.terminalReason == Some(AttemptBudgetExhausted) <==>
            h[i - 1].state.attemptNumber == h[i - 1].state.contract.budget.maxAttempts
  {
    assert Legal(h[i - 1], h[i]);
    LawfulIsSound(job, h, i - 1);
  }

  /** A history whose accepting write commits at 20, under a lease that ended at 10 and was checked at 9. */
  lemma AcceptanceAfterTheLease(contract: WorkContract)
    requires contract.budget == WorkBudget(60.0, 1)
    ensures var created := NewJob("j", contract, 0.0);
            var claimed := created.(generation := 1, attemptNumber := 1,
                                   leaseId := Some(Sha256(7)), leaseExpiresAt := Some(10.0));
            var accepted := claimed.(acceptedGeneration := Some(1), acceptedAttemptId := Some(AttemptId("j", 1)),
                                     acceptedClaimHash := Some(Sha256(7)), acceptedResult := Some("r"),
                                     notificationPending := true);
            Lawful("j", [Commit(created, Created, 0.0), Commit(claimed, Claimed(7, 10.0, 0.0), 0.0),
                         Commit(accepted, Accepted(7, "r", 9.0, 0, 1, 2), 20.0)])
  {
  }

  // ----- Refinement to the lease machine -----

  function TermsOf(j: JobState): LM.Terms {
    LM.Terms(j.startedAt, j.contract.budget)
  }

  function Abs(j: JobState): LM.Machine<ClaimHash> {
    LM.Machine(
      j.attemptNumber,
      if j.leaseId.Some? && j.leaseExpiresAt.Some?
      then Some(LM.Held(j.leaseId.value, j.attemptNumber, j.leaseExpiresAt.value)) else None,
      j.acceptedResult)
  }

  /** The machine action a commit performs; terminal and notification writes are stuttering. */
  function ActionOf(u: Update): LM.Action<ClaimHash> {
    match u
    case Claimed(token, lease, at) => LM.Claim(Sha256(token), lease, at, at, at)
    case Renewed(token, lease, renewedAt, _) => LM.Renew(Sha256(token), lease, renewedAt, renewedAt)
    case Abandoned(token, at) => LM.Abandon(Sha256(token), at)
    case Accepted(token, result, at, _, _, _) => LM.Complete(Sha256(token), result, at, at)
    case _ => LM.Stutter
  }

  function Machines(h: History): (ms: seq<LM.Machine<ClaimHash>>)
    ensures |ms| == |h| && forall i :: 0 <= i < |h| ==> ms[i] == Abs(h[i].state)
  {
    seq(|h|, i requires 0 <= i < |h| => Abs(h[i].state))
  }

  function Actions(h: History): (acts: seq<LM.Action<ClaimHash>>)
    requires h != []
    ensures |acts| == |h| - 1 && forall i :: 0 <= i < |h| - 1 ==> acts[i] == ActionOf(h[i + 1].update)
  {
    seq(|h| - 1, i requires 0 <= i < |h| - 1 => ActionOf(h[i + 1].update))
  }

  function Times(h: History): (ts: seq<real>)
    ensures |ts| == |h| && forall i :: 0 <= i < |h| ==> ts[i] == h[i].when
  {
    seq(|h|, i requires 0 <= i < |h| => h[i].when)
  }

  /** Every lawful history is, commit for commit, a timed run of the lease machine. */
  lemma HistoryRefinesLeaseMachine(job: JobId, h: History)
    requires Lawful(job, h)
    ensures LM.Run(TermsOf(h[0].state), Machines(h), Actions(h), Times(h))
    ensures LM.RenewalsExtend(Machines(h), Actions(h))
  {
    var terms := TermsOf(h[0].state);
    forall i | 0 <= i < |h| - 1
      ensures LM.Moves(terms, Abs(h[i].state), ActionOf(h[i + 1].update), Abs(h[i + 1].state), h[i].when, h[i + 1].when)
      ensures h[i + 1].update.Renewed? ==> h[i].state.leaseExpiresAt.Some? && h[i + 1].state.leaseExpiresAt.Some? &&
                                           h[i].state.leaseExpiresAt.value <= h[i + 1].state.leaseExpiresAt.value
    {
      assert Legal(h[i], h[i + 1]) by { assert Legal(h[i + 1 - 1], h[i + 1]); }
      LawfulIsSound(job, h, i);
      LawfulIsSound(job, h, i + 1);
      CommitRefines(job, h[i], h[i + 1]);
    }
  }

  lemma CommitRefines(job: JobId, prev: Commit, next: Commit)
    requires Legal(prev, next) && Sound(job, prev.state)
    ensures LM.Moves(TermsOf(prev.state), Abs(prev.state), ActionOf(next.update), Abs(next.state), prev.when, next.when)
  {
  }

  /**
   Leases of successive generations never overlap: a claim is committed only at
   a reading by which every earlier lease has ended or has itself been abandoned.
   */
  lemma GenerationsNeverOverlap(job: JobId, h: History, i: nat, k: nat)
    requires Lawful(job, h) && i < k < |h| && h[k].update.Claimed? && h[i].state.leaseExpiresAt.Some?
    ensures h[i].state.leaseExpiresAt.value <= h[k].update.at ||
            exists j :: i < j < k && h[j].update.Abandoned? && h[j].update.at <= h[k].update.at &&
                        h[j].state.generation == h[i].state.generation
  {
    hide LM.Run, LM.RenewalsExtend, LM.AbandonedBetween, Lawful;
    HistoryRefinesLeaseMachine(job, h);
    LawfulIsSound(job, h, i);
    var ms, acts := Machines(h), Actions(h);
    LM.LeasesNeverOverlap(TermsOf(h[0].state), ms, acts, Times(h), i, k - 1);
    if LM.AbandonedBetween(ms, acts, i, k - 1, h[k].update.at) {
      AbandonmentWasCommitted(job, h, i, k, h[k].update.at);
    }
  }

  lemma AbandonmentWasCommitted(job: JobId, h: History, i: nat, k: nat, t: real)
    requires Lawful(job, h) && i < k < |h| && Abs(h[i].state).current.Some?
    requires LM.AbandonedBetween(Machines(h), Actions(h), i, k - 1, t)
    ensures exists j :: i < j < k && h[j].update.Abandoned? && h[j].update.at <= t &&
                        h[j].state.generation == h[i].state.generation
  {
    var ms, acts := Machines(h), Actions(h);
    var j :| i <= j < k - 1 && acts[j].Abandon? && acts[j].atCheck <= t &&
             ms[j].current.Some? && ms[j].current.value.attempt == ms[i].current.value.attempt;
    assert acts[j] == ActionOf(h[j + 1].update);
    LawfulIsSound(job, h, i);
    LawfulIsSound(job, h, j);
    assert Legal(h[j + 1 - 1], h[j + 1]);
    assert i < j + 1 < k && h[j + 1].update.Abandoned? && h[j + 1].update.at <= t;
  }
}
