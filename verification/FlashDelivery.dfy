/**
 The in-memory Flash delivery object: one job, one current lease.  Calls of the
 injected clock become parameters, one per call in the order the call happens,
 and so does the verdict of the injected verifier.  Ghost fields record the
 life of the object as a run of the lease machine, and the verdicts.
 */
module FlashDelivery {
  import opened Basics
  import opened FlashTypes
  import opened LeaseMachine

  // `Raised` stands for the exception of the same kind.
  datatype Reply<T> = Returned(value: T) | RaisedLeaseError | RaisedVerificationError | RaisedByVerifier

  // What the verifier, if called, answers; it may raise, and answer differently next time.
  datatype Verdict = Approves | Rejects | Raises

  class FlashDeliveryFixture {
    const jobId: JobId
    const contract: WorkContract
    const leaseSeconds: real
    const idFactory: (string, nat) -> string
    const startedAt: real

    var attemptNumber: nat
    var current: Option<Delivery<string, string>>
    var acceptedResult: Option<ResultJson>
    var completed: bool

    ghost var machines: seq<Machine<string>>
    ghost var actions: seq<Action<string>>
    ghost var times: seq<real>
    ghost var verdicts: seq<(ResultJson, Verdict)>

    function Job(): Terms {
      Terms(startedAt, contract.budget)
    }

    ghost function Model(): Machine<string>
      reads this
    {
      Machine(
        attemptNumber,
        if current.Some? then Some(Held(current.value.leaseId, attemptNumber, current.value.leaseExpiresAt)) else None,
        acceptedResult)
    }

    // From machine `m` after the actions `was`, action `a` has been carried out.
    ghost predicate Acts(a: Action<string>, m: Machine<string>, was: seq<Action<string>>)
      requires Enabled(Job(), m, a)
      reads this
    {
      Model() == Apply(Job(), m, a) && actions == was + [a]
    }

    // Nothing has been carried out.
    ghost predicate Rests(m: Machine<string>, held: Option<Delivery<string, string>>, was: seq<Action<string>>)
      reads this
    {
      Model() == m && current == held && actions == was
    }

    ghost predicate Valid()
      reads this
    {
      && leaseSeconds > 0.0
      && completed == acceptedResult.Some?
      && (acceptedResult.Some? ==> (acceptedResult.value, Approves) in verdicts)
      && Run(Job(), machines, actions, times)
      && Last(machines) == Model()
      && UniformLease(actions, leaseSeconds)
      && (current.Some? ==>
            && current.value.jobId == jobId
            && current.value.contractId == contract.contractId
            && current.value.attemptId == idFactory("attempt", attemptNumber)
            && current.value.leaseId == idFactory("lease", attemptNumber))
    }

    constructor (jobId: JobId, contract: WorkContract, leaseSeconds: real, now: real,
                 idFactory: (string, nat) -> string)
      requires leaseSeconds > 0.0
      ensures Valid() && Model() == Fresh() && actions == [] && times == [now] && verdicts == []
      ensures this.jobId == jobId && this.contract == contract && this.leaseSeconds == leaseSeconds
      ensures this.idFactory == idFactory && this.startedAt == now
    {
      this.jobId, this.contract, this.leaseSeconds := jobId, contract, leaseSeconds;
      this.idFactory, this.startedAt := idFactory, now;
      attemptNumber, current, acceptedResult, completed := 0, None, None, false;
      machines, actions, times, verdicts := [Fresh()], [], [now], [];
    }

    // The job is open, and the delivery under `leaseId` is the current one and not over at `t`.
    ghost predicate HoldsLease(leaseId: string, t: real)
      reads this
    {
      && acceptedResult == None && current.Some? && current.value.leaseId == leaseId
      && t < current.value.leaseExpiresAt
    }

    // Extends the recorded life by one action that has just been carried out on the fields.
    ghost method Record(a: Action<string>, after: real)
      requires Run(Job(), machines, actions, times)
      requires Moves(Job(), Last(machines), a, Model(), Last(times), after)
      modifies `machines, `actions, `times
      ensures Run(Job(), machines, actions, times) && Last(machines) == Model()
      ensures machines == old(machines) + [Model()] && actions == old(actions) + [a] && times == old(times) + [after]
    {
      machines, actions, times := machines + [Model()], actions + [a], times + [after];
    }

    method Claim(t0: real, t1: real, t2: real) returns (delivery: Option<Delivery<string, string>>)
      requires Valid() && Last(times) <= t0 <= t1 <= t2
      modifies this
      ensures Valid() && Last(times) <= t2 && verdicts == old(verdicts)
      ensures var a := Action.Claim(idFactory("lease", old(attemptNumber) + 1), leaseSeconds, t0, t1, t2);
              if Enabled(Job(), old(Model()), a)
              then delivery == current && current.Some? && Acts(a, old(Model()), old(actions))
              else delivery == None && Rests(old(Model()), old(current), old(actions))
      ensures delivery.Some? <==>
                && old(acceptedResult) == None && t0 < startedAt + contract.budget.wallSeconds
                && old(attemptNumber) < contract.budget.maxAttempts
                && (old(current).Some? ==> old(current).value.leaseExpiresAt <= t1)
      ensures delivery.Some? ==>
                var wall := startedAt + contract.budget.wallSeconds;
                delivery.value == Delivery(jobId, contract.contractId, idFactory("attempt", old(attemptNumber) + 1),
                                           idFactory("lease", old(attemptNumber) + 1),
                                           if t2 + leaseSeconds <= wall then t2 + leaseSeconds else wall)
    {
      if completed || t0 >= Job().Deadline() {
        return None;
      }
      if attemptNumber >= contract.budget.maxAttempts {
        return None;
      }
      if current.Some? && t1 < current.value.leaseExpiresAt {
        return None;
      }
      ghost var a := Action.Claim(idFactory("lease", attemptNumber + 1), leaseSeconds, t0, t1, t2);
      attemptNumber := attemptNumber + 1;
      current := Some(Delivery(jobId, contract.contractId, idFactory("attempt", attemptNumber),
                               idFactory("lease", attemptNumber), Min(t2 + leaseSeconds, Job().Deadline())));
      Record(a, t2);
      return current;
    }

    // False stands for the lease error.
    method RequireCurrent(leaseId: string, t: real) returns (held: bool)
      requires completed == acceptedResult.Some?
      ensures held <==> HeldAt(Model(), leaseId, t)
    {
      if completed {
        return false;
      }
      if current.None? || current.value.leaseId != leaseId {
        return false;
      }
      return t < current.value.leaseExpiresAt;
    }

    method Renew(leaseId: string, t0: real, t1: real) returns (reply: Reply<Delivery<string, string>>)
      requires Valid() && Last(times) <= t0 <= t1
      modifies this
      ensures Valid() && Last(times) <= t1 && verdicts == old(verdicts)
      ensures var a := Action.Renew(leaseId, leaseSeconds, t0, t1);
              if Enabled(Job(), old(Model()), a)
              then current.Some? && reply == Returned(current.value) && Acts(a, old(Model()), old(actions))
              else reply == RaisedLeaseError && Rests(old(Model()), old(current), old(actions))
      ensures reply.Returned? <==> old(HoldsLease(leaseId, t0))
      ensures reply.Returned? ==>
                var wall := startedAt + contract.budget.wallSeconds;
                reply.value == old(current).value.(
                  leaseExpiresAt := if t1 + leaseSeconds <= wall then t1 + leaseSeconds else wall)
    {
      var held := RequireCurrent(leaseId, t0);
      if !held {
        return RaisedLeaseError;
      }
      ghost var a := Action.Renew(leaseId, leaseSeconds, t0, t1);
      current := Some(current.value.(leaseExpiresAt := Min(t1 + leaseSeconds, Job().Deadline())));
      Record(a, t1);
      return Returned(current.value);
    }

    method Abandon(leaseId: string, t0: real) returns (reply: Reply<()>)
      requires Valid() && Last(times) <= t0
      modifies this
      ensures Valid() && Last(times) <= t0 && verdicts == old(verdicts)
      ensures var a := Action.Abandon(leaseId, t0);
              if Enabled(Job(), old(Model()), a)
              then reply == Returned(()) && Acts(a, old(Model()), old(actions))
              else reply == RaisedLeaseError && Rests(old(Model()), old(current), old(actions))
      ensures reply.Returned? <==> old(HoldsLease(leaseId, t0))
      ensures current == if reply.Returned? then None else old(current)
    {
      var held := RequireCurrent(leaseId, t0);
      if !held {
        return RaisedLeaseError;
      }
      ghost var a := Action.Abandon(leaseId, t0);
      current := None;
      Record(a, t0);
      return Returned(());
    }

    /** `result` is None when the submitted value has no finite JSON text. */
    method Complete(leaseId: string, result: Option<ResultJson>, verdict: Verdict, t0: real, t1: real)
      returns (reply: Reply<ResultJson>)
      requires Valid() && Last(times) <= t0 <= t1
      modifies this
      ensures Valid() && Last(times) <= t1
      ensures reply.Returned? ==> result.Some? && reply.value == result.value && acceptedResult == result && completed
      ensures old(completed) || !reply.Returned? ==> Rests(old(Model()), old(current), old(actions))
      ensures old(completed) && result.Some? ==>
                var mine := old(current).Some? && old(current).value.leaseId == leaseId;
                reply.Returned? <==> mine && old(acceptedResult) == result
      ensures !old(completed) && result.Some? ==>
                var a := Action.Complete(leaseId, result.value, t0, t1);
                if !HeldAt(old(Model()), leaseId, t0) then reply == RaisedLeaseError
                else if verdict.Raises? then reply == RaisedByVerifier
                else if verdict.Rejects? then reply == RaisedVerificationError
                else if !HeldAt(old(Model()), leaseId, t1) then reply == RaisedLeaseError
                else reply == Returned(result.value) && Acts(a, old(Model()), old(actions))
      ensures !old(completed) ==>
                (reply.Returned? <==> && result.Some? && verdict == Approves && old(HoldsLease(leaseId, t0))
                                      && old(HoldsLease(leaseId, t1)))
      ensures result.None? ==> reply == RaisedVerificationError
      ensures verdicts ==
              if !old(completed) && result.Some? && HeldAt(old(Model()), leaseId, t0)
              then old(verdicts) + [(result.value, verdict)] else old(verdicts)
    {
      if result.None? {
        return RaisedVerificationError;
      }
      if completed {
        if current.Some? && current.value.leaseId == leaseId && result == acceptedResult {
          return Returned(result.value);
        }
        return RaisedLeaseError;
      }
      var held := RequireCurrent(leaseId, t0);
      if !held {
        return RaisedLeaseError;
      }
      verdicts := verdicts + [(result.value, verdict)];
      if verdict.Raises? {
        return RaisedByVerifier;
      }
      if verdict.Rejects? {
        return RaisedVerificationError;
      }
      held := RequireCurrent(leaseId, t1);
      if !held {
        return RaisedLeaseError;
      }
      ghost var a := Action.Complete(leaseId, result.value, t0, t1);
      acceptedResult := result;
      completed := true;
      Record(a, t1);
      return Returned(result.value);
    }
  }

  /**
   Over the whole life of a delivery object: attempts stay in budget, a claim
   is only ever granted after every earlier lease has ended or itself been given
   up, and an accepted result was approved by the verifier and never changes.
   */
  lemma LifeIsSafe(d: FlashDeliveryFixture, i: nat, k: nat)
    requires d.Valid() && i <= k < |d.machines|
    ensures d.machines[i].attempts <= d.contract.budget.maxAttempts
    ensures d.machines[i].accepted.Some? ==>
              d.machines[k].accepted == d.machines[i].accepted && d.acceptedResult == d.machines[i].accepted
    ensures d.machines[i].accepted.Some? ==> (d.machines[i].accepted.value, Approves) in d.verdicts
    ensures k < |d.actions| && d.actions[k].Claim? && d.machines[i].current.Some? ==>
              || d.machines[i].current.value.expiresAt <= d.actions[k].atExpiry
              || AbandonedBetween(d.machines, d.actions, i, k, d.actions[k].atDeadline)
  {
    RunIsWellFormed(d.Job(), d.machines, d.actions, d.times, i);
    if d.machines[i].accepted.Some? {
      AcceptanceIsFinal(d.Job(), d.machines, d.actions, d.times, i, k);
      AcceptanceIsFinal(d.Job(), d.machines, d.actions, d.times, i, |d.machines| - 1);
    }
    if k < |d.actions| && d.actions[k].Claim? && d.machines[i].current.Some? {
      UniformRenewalsExtend(d.Job(), d.machines, d.actions, d.times, d.leaseSeconds);
      LeasesNeverOverlap(d.Job(), d.machines, d.actions, d.times, i, k);
    }
  }
}
