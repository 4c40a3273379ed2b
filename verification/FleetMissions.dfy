/** What the status of a mission says about the log behind it. */
module FleetMissions {
  import opened Basics
  import opened FleetTypes
  import opened FleetReplay
  import opened FleetHistory

  predicate RunsFor(f: Fleet, id: string, m: string) {
    IsRunning(f, id) && f.attempts[id].missionId == m
  }

  predicate SomeRuns(f: Fleet, m: string) {
    exists id :: id in f.attempts && RunsFor(f, id, m)
  }

  // Some attempt of the mission that runs in `f` no longer runs in `f'`.
  predicate SomeEnds(f: Fleet, f': Fleet, m: string) {
    exists id :: id in f.attempts && RunsFor(f, id, m) && !IsRunning(f', id)
  }

  /** The last event of the log that ended an attempt of the mission. */
  function LastEnd(initial: Fleet, log: seq<Event>, m: string): Option<Event>
    requires ReplayFrom(initial, log).Some?
    decreases |log|
  {
    if log == [] then None
    else
      var prior := log[..|log| - 1];
      if SomeEnds(ReplayFrom(initial, prior).value, ReplayFrom(initial, log).value, m) then Some(Last(log))
      else LastEnd(initial, prior, m)
  }

  predicate Idle(f: Fleet, m: string)
    requires m in f.missions
  {
    f.missions[m].activeAttemptIds == []
  }

  // What an event does to a mission that is idle after it; `done` is whether the event is a completion.
  predicate Moves(f: Fleet, f': Fleet, m: string, done: bool) {
    if SomeEnds(f, f', m) then
      m in f'.missions &&
      (Idle(f', m) ==> f'.missions[m].status == if done then MissionCompleted else ReplanRequired)
    else if m in f.missions then
      m in f'.missions && (Idle(f', m) ==> Idle(f, m) && f'.missions[m].status == f.missions[m].status)
    else m in f'.missions ==> !Idle(f', m)
  }

  // Attempts only end from `f` to `f'`.
  ghost predicate NoneStarts(f: Fleet, f': Fleet) {
    forall id | IsRunning(f', id) :: IsRunning(f, id) && f'.attempts[id].missionId == f.attempts[id].missionId
  }

  lemma SameMissionsMove(f: Fleet, f': Fleet, m: string, done: bool)
    requires f'.attempts == f.attempts && f'.missions == f.missions
    ensures Moves(f, f', m, done)
  {
  }

  lemma EndMoves(f: Fleet, id: string, e: Event, status: AttemptStatus, t: Option<Termination>, m: string)
    requires AllListed(f) && status != Running
    ensures Moves(f, EndAttempt(f, id, e, status, t), m, status == Completed)
    ensures NoneStarts(f, EndAttempt(f, id, e, status, t))
  {
    var f' := EndAttempt(f, id, e, status, t);
    if IsRunning(f, id) && f.attempts[id].missionId == m {
      assert RunsFor(f, id, m) && !IsRunning(f', id);
    } else {
      assert forall x :: RunsFor(f, x, m) ==> IsRunning(f', x);
    }
  }

  lemma MovesCompose(f: Fleet, g: Fleet, h: Fleet, m: string)
    requires Moves(f, g, m, false) && Moves(g, h, m, false) && NoneStarts(f, g) && NoneStarts(g, h)
    requires AllListed(f)
    ensures Moves(f, h, m, false) && NoneStarts(f, h)
  {
    if SomeEnds(g, h, m) {
      var id :| id in g.attempts && RunsFor(g, id, m) && !IsRunning(h, id);
      assert RunsFor(f, id, m);
    } else if SomeEnds(f, g, m) {
      var id :| id in f.attempts && RunsFor(f, id, m) && !IsRunning(g, id);
      assert !IsRunning(h, id);
    } else {
      assert !SomeEnds(f, h, m) by { StillRuns(f, g, h, m); }
    }
  }

  lemma StillRuns(f: Fleet, g: Fleet, h: Fleet, m: string)
    requires !SomeEnds(f, g, m) && !SomeEnds(g, h, m) && NoneStarts(f, g)
    ensures !SomeEnds(f, h, m)
  {
    forall id | id in f.attempts && RunsFor(f, id, m) ensures IsRunning(h, id) {
      assert RunsFor(g, id, m);
    }
  }

  lemma {:induction false} InterruptMoves(f: Fleet, ids: seq<string>, e: Event, reason: Termination, m: string)
    requires AllListed(f)
    ensures Moves(f, Interrupt(f, ids, e, reason), m, false) && NoneStarts(f, Interrupt(f, ids, e, reason))
    decreases |ids|
  {
    hide Moves, NoneStarts, AllListed, ListsExtend, EndAttempt;
    if ids == [] {
      SameMissionsMove(f, f, m, false);
      NoneStartsSelf(f);
    } else {
      var before := Interrupt(f, ids[..|ids| - 1], e, reason);
      InterruptMoves(f, ids[..|ids| - 1], e, reason, m);
      InterruptKeepsLists(f, ids[..|ids| - 1], e, reason);
      EndMoves(before, Last(ids), e, Inconclusive, Some(reason), m);
      MovesCompose(f, before, EndAttempt(before, Last(ids), e, Inconclusive, Some(reason)), m);
    }
  }

  lemma NoneStartsSelf(f: Fleet)
    ensures NoneStarts(f, f)
  {
  }

  lemma DisappearanceMoves(f: Fleet, e: Event, m: string)
    requires AllListed(f) && e.payload.ResourceDisappeared? && Apply(f, e).Some?
    ensures Moves(f, Apply(f, e).value, m, false)
  {
    var p := e.payload;
    var gone := f.(unavailable := f.unavailable[p.vesselId := p.leaseId]);
    InterruptMoves(gone, p.interrupted, e, p.reason, m);
    assert SomeEnds(gone, Apply(f, e).value, m) == SomeEnds(f, Apply(f, e).value, m);
  }

  lemma StartMoves(f: Fleet, e: Event, m: string)
    requires e.payload.WorkAttemptStarted? && e.payload.attemptId !in f.attempts
    ensures Moves(f, Start(f, e), m, false)
  {
    var f' := Start(f, e);
    assert forall id :: RunsFor(f, id, m) ==> IsRunning(f', id);
  }

  lemma ApplyMoves(f: Fleet, e: Event, m: string)
    requires AllListed(f) && Apply(f, e).Some?
    requires e.payload.WorkAttemptStarted? ==> e.payload.attemptId !in f.attempts
    ensures Moves(f, Apply(f, e).value, m, e.payload.WorkAttemptCompleted?)
  {
    hide Moves, NoneStarts, AllListed, EndAttempt, Interrupt, Start;
    match e.payload {
      case ResourceDisappeared(_, _, _, _) => DisappearanceMoves(f, e, m);
      case WorkAttemptStarted(_, _, _, _, _) => StartMoves(f, e, m);
      case WorkAttemptInterrupted(id, reason) => EndMoves(f, id, e, Inconclusive, Some(reason), m);
      case WorkAttemptTimedOut(id) => EndMoves(f, id, e, TimedOut, Some(ExecutionTimeout), m);
      case WorkAttemptCompleted(finished) =>
        if finished.Some? {
          EndMoves(f, finished.value, e, Completed, None, m);
        } else {
          SameMissionsMove(f, f, m, true);
        }
      case _ => SameMissionsMove(f, Apply(f, e).value, m, false);
    }
  }

  // The status an idle mission has, given the event that last ended one of its attempts.
  predicate SettledBy(f: Fleet, m: string, last: Option<Event>) {
    m in f.missions && Idle(f, m) ==>
      last.Some? &&
      f.missions[m].status == if last.value.payload.WorkAttemptCompleted? then MissionCompleted else ReplanRequired
  }

  lemma {:induction false} IdleMissionsAreSettled(initial: Fleet, log: seq<Event>, m: string)
    requires NoWork(initial) && ReplayFrom(initial, log).Some? && FreshStarts(log)
    ensures SettledBy(ReplayFrom(initial, log).value, m, LastEnd(initial, log, m))
    decreases |log|
  {
    if log != [] {
      hide Apply, AllListed, SomeEnds;
      var prior, e := log[..|log| - 1], Last(log);
      IdleMissionsAreSettled(initial, prior, m);
      ReplayLists(initial, prior);
      if e.payload.WorkAttemptStarted? {
        NotStartedBefore(initial, log);
      }
      ApplyMoves(ReplayFrom(initial, prior).value, e, m);
    }
  }

  lemma NotStartedBefore(initial: Fleet, log: seq<Event>)
    requires NoWork(initial) && log != [] && FreshStarts(log) && ReplayFrom(initial, log[..|log| - 1]).Some?
    requires Last(log).payload.WorkAttemptStarted?
    ensures Last(log).payload.attemptId !in ReplayFrom(initial, log[..|log| - 1]).value.attempts
  {
    var prior := log[..|log| - 1];
    AttemptsWereStarted(initial, prior, Last(log).payload.attemptId);
    assert log[|log| - 1] == Last(log);
    assert forall i :: 0 <= i < |prior| ==> prior[i] == log[i];
  }

  /**
   On a log with fresh attempt ids a mission is active exactly while one of its
   attempts runs; otherwise it is completed or in need of a new plan, by whether
   the last event that ended one of its attempts was a completion.
   */
  lemma MissionStatusByHistory(initial: Fleet, log: seq<Event>, m: string)
    requires NoWork(initial) && ReplayFrom(initial, log).Some? && FreshStarts(log)
    requires m in ReplayFrom(initial, log).value.missions
    ensures var f, last := ReplayFrom(initial, log).value, LastEnd(initial, log, m);
            && (SomeRuns(f, m) || last.Some?)
            && f.missions[m].status ==
               if SomeRuns(f, m) then Active
               else if last.value.payload.WorkAttemptCompleted? then MissionCompleted
               else ReplanRequired
  {
    var f := ReplayFrom(initial, log).value;
    IdleMissionsAreSettled(initial, log, m);
    FreshLogsAreExact(initial, log);
    assert MissionExact(f, m);
    if !Idle(f, m) {
      var id := f.missions[m].activeAttemptIds[0];
      assert id in f.missions[m].activeAttemptIds && RunsFor(f, id, m);
    } else {
      assert !SomeRuns(f, m) by { NoneListedNoneRuns(f, m); }
    }
  }

  lemma NoneListedNoneRuns(f: Fleet, m: string)
    requires m in f.missions && MissionExact(f, m) && Idle(f, m)
    ensures !SomeRuns(f, m)
  {
    forall id | id in f.attempts && IsRunning(f, id) ensures f.attempts[id].missionId != m {
      assert id !in f.missions[m].activeAttemptIds;
    }
  }
}
