/** What replay guarantees about attempts and missions, for every log that can be replayed. */
module FleetHistory {
  import opened Basics
  import opened FleetTypes
  import opened FleetReplay

  predicate NoDup(ids: seq<string>) {
    forall i, j :: 0 <= i < j < |ids| ==> ids[i] != ids[j]
  }

  /** Every attempt is listed by its mission. */
  predicate AllListed(f: Fleet) {
    forall id | id in f.attempts ::
      f.attempts[id].missionId in f.missions && id in f.missions[f.attempts[id].missionId].attemptIds
  }

  // Mission m lists exactly its own attempts once each, its running ones as active, and is active iff there are any.
  ghost predicate MissionExact(f: Fleet, m: string)
    requires m in f.missions
  {
    var r := f.missions[m];
    && NoDup(r.attemptIds) && NoDup(r.activeAttemptIds)
    && (forall id :: id in r.attemptIds ==> id in f.attempts && f.attempts[id].missionId == m)
    && (forall id :: id in r.activeAttemptIds <==> IsRunning(f, id) && f.attempts[id].missionId == m)
    && (r.status == Active <==> r.activeAttemptIds != [])
  }

  ghost predicate Exact(f: Fleet) {
    AllListed(f) && forall m :: m in f.missions ==> MissionExact(f, m)
  }

  /** No attempt id is ever started twice. */
  predicate FreshStarts(log: seq<Event>) {
    forall i, j | 0 <= i < j < |log| && log[i].payload.WorkAttemptStarted? && log[j].payload.WorkAttemptStarted? ::
      log[i].payload.attemptId != log[j].payload.attemptId
  }

  // ----- single operations -----

  lemma {:induction false} WithoutNoDup(ids: seq<string>, id: string)
    requires NoDup(ids)
    ensures NoDup(Without(ids, id))
  {
    if ids != [] {
      WithoutNoDup(ids[1..], id);
      var rest := Without(ids[1..], id);
      if ids[0] != id {
        forall i, j | 0 <= i < j < |rest| + 1 ensures ([ids[0]] + rest)[i] != ([ids[0]] + rest)[j] {
          if i == 0 {
            assert rest[j - 1] in ids[1..];
          }
        }
      }
    }
  }

  lemma AppendNoDup(ids: seq<string>, id: string)
    requires NoDup(ids) && id !in ids
    ensures NoDup(ids + [id])
  {
  }

  lemma EndKeepsListed(f: Fleet, id: string, e: Event, status: AttemptStatus, t: Option<Termination>)
    requires AllListed(f)
    ensures AllListed(EndAttempt(f, id, e, status, t))
  {
  }

  lemma EndKeepsExact(f: Fleet, id: string, e: Event, status: AttemptStatus, t: Option<Termination>)
    requires Exact(f) && status != Running
    ensures Exact(EndAttempt(f, id, e, status, t))
  {
    EndKeepsListed(f, id, e, status, t);
    var f' := EndAttempt(f, id, e, status, t);
    if IsRunning(f, id) {
      forall m | m in f'.missions ensures MissionExact(f', m) {
        assert MissionExact(f, m);
        EndKeepsMissionExact(f, id, e, status, t, m);
      }
    }
  }

  lemma EndKeepsMissionExact(
    f: Fleet, id: string, e: Event, status: AttemptStatus, t: Option<Termination>, m: string)
    requires AllListed(f) && IsRunning(f, id) && status != Running && m in f.missions && MissionExact(f, m)
    ensures m in EndAttempt(f, id, e, status, t).missions && MissionExact(EndAttempt(f, id, e, status, t), m)
  {
    if m == f.attempts[id].missionId {
      WithoutNoDup(f.missions[m].activeAttemptIds, id);
    }
  }

  lemma {:induction false} InterruptKeepsExact(f: Fleet, ids: seq<string>, e: Event, reason: Termination)
    requires Exact(f)
    ensures Exact(Interrupt(f, ids, e, reason))
    decreases |ids|
  {
    if ids != [] {
      InterruptKeepsExact(f, ids[..|ids| - 1], e, reason);
      EndKeepsExact(Interrupt(f, ids[..|ids| - 1], e, reason), Last(ids), e, Inconclusive, Some(reason));
    }
  }

  lemma StartKeepsListed(f: Fleet, e: Event)
    requires AllListed(f) && e.payload.WorkAttemptStarted?
    ensures AllListed(Start(f, e))
  {
    var f', p := Start(f, e), e.payload;
    assert f'.missions[p.missionId].attemptIds[|MissionOf(f, p.missionId).attemptIds|] == p.attemptId;
    forall id | id in f'.attempts
      ensures f'.attempts[id].missionId in f'.missions && id in f'.missions[f'.attempts[id].missionId].attemptIds
    {
      if id != p.attemptId && f.attempts[id].missionId == p.missionId {
        assert id in f.missions[p.missionId].attemptIds;
      }
    }
  }

  // The mission as the start finds it, exact or just created, does not know the new attempt.
  lemma FoundMission(f: Fleet, m: string, id: string)
    requires Exact(f) && id !in f.attempts
    ensures var r := MissionOf(f, m);
            && NoDup(r.attemptIds) && NoDup(r.activeAttemptIds) && id !in r.attemptIds && id !in r.activeAttemptIds
            && (forall x :: x in r.attemptIds ==> x in f.attempts && f.attempts[x].missionId == m)
            && (forall x :: x in r.activeAttemptIds <==> IsRunning(f, x) && f.attempts[x].missionId == m)
  {
    if m in f.missions {
      assert MissionExact(f, m);
    } else {
      assert forall x :: x in f.attempts ==> f.attempts[x].missionId in f.missions;
    }
  }

  lemma StartedMissionIsExact(f: Fleet, e: Event)
    requires Exact(f) && e.payload.WorkAttemptStarted? && e.payload.attemptId !in f.attempts
    ensures MissionExact(Start(f, e), e.payload.missionId)
  {
    hide Exact;
    var id, m := e.payload.attemptId, e.payload.missionId;
    var r := MissionOf(f, m);
    FoundMission(f, m, id);
    AppendNoDup(r.attemptIds, id);
    AppendNoDup(r.activeAttemptIds, id);
  }

  lemma StartKeepsExact(f: Fleet, e: Event)
    requires Exact(f) && e.payload.WorkAttemptStarted? && e.payload.attemptId !in f.attempts
    ensures Exact(Start(f, e))
  {
    StartKeepsListed(f, e);
    StartedMissionIsExact(f, e);
    var f' := Start(f, e);
    forall m | m in f'.missions ensures MissionExact(f', m) {
      if m != e.payload.missionId {
        assert MissionExact(f, m);
      }
    }
  }

  lemma SameWorkIsExact(f: Fleet, f': Fleet)
    requires Exact(f) && f'.attempts == f.attempts && f'.missions == f.missions
    ensures Exact(f')
  {
    forall m | m in f'.missions ensures MissionExact(f', m) {
      assert MissionExact(f, m);
      assert forall id :: IsRunning(f', id) == IsRunning(f, id);
    }
  }

  lemma ApplyKeepsExact(f: Fleet, e: Event)
    requires Exact(f) && Apply(f, e).Some?
    requires e.payload.WorkAttemptStarted? ==> e.payload.attemptId !in f.attempts
    ensures Exact(Apply(f, e).value)
  {
    hide Exact, EndAttempt, Interrupt, Start;
    match e.payload {
      case ResourceDisappeared(vesselId, leaseId, reason, interrupted) =>
        var gone := f.(unavailable := f.unavailable[vesselId := leaseId]);
        SameWorkIsExact(f, gone);
        InterruptKeepsExact(gone, interrupted, e, reason);
      case WorkAttemptStarted(_, _, _, _, _) => StartKeepsExact(f, e);
      case WorkAttemptInterrupted(id, reason) => EndKeepsExact(f, id, e, Inconclusive, Some(reason));
      case WorkAttemptTimedOut(id) => EndKeepsExact(f, id, e, TimedOut, Some(ExecutionTimeout));
      case WorkAttemptCompleted(finished) =>
        if finished.Some? {
          EndKeepsExact(f, finished.value, e, Completed, None);
        }
      case _ => SameWorkIsExact(f, Apply(f, e).value);
    }
  }

  // ----- which attempts and listings exist -----

  predicate ListsExtend(f: Fleet, f': Fleet) {
    && (forall id :: id in f.attempts ==> id in f'.attempts)
    && forall m :: m in f.missions ==> m in f'.missions && f.missions[m].attemptIds <= f'.missions[m].attemptIds
  }

  lemma ListsExtendSelf(f: Fleet)
    ensures ListsExtend(f, f)
  {
  }

  lemma ListsExtendOn(f: Fleet, f': Fleet, f'': Fleet)
    requires ListsExtend(f, f') && ListsExtend(f', f'')
    ensures ListsExtend(f, f'')
  {
  }

  lemma {:induction false} InterruptKeepsLists(f: Fleet, ids: seq<string>, e: Event, reason: Termination)
    requires AllListed(f)
    ensures AllListed(Interrupt(f, ids, e, reason)) && ListsExtend(f, Interrupt(f, ids, e, reason))
    ensures Interrupt(f, ids, e, reason).attempts.Keys == f.attempts.Keys
    decreases |ids|
  {
    hide AllListed, ListsExtend, EndAttempt;
    assert ListsExtend(f, f) by { ListsExtendSelf(f); }
    if ids != [] {
      InterruptKeepsLists(f, ids[..|ids| - 1], e, reason);
      var before := Interrupt(f, ids[..|ids| - 1], e, reason);
      EndExtendsLists(before, Last(ids), e, Inconclusive, Some(reason));
      ListsExtendOn(f, before, EndAttempt(before, Last(ids), e, Inconclusive, Some(reason)));
    }
  }

  lemma EndExtendsLists(f: Fleet, id: string, e: Event, status: AttemptStatus, t: Option<Termination>)
    requires AllListed(f)
    ensures AllListed(EndAttempt(f, id, e, status, t)) && ListsExtend(f, EndAttempt(f, id, e, status, t))
    ensures EndAttempt(f, id, e, status, t).attempts.Keys == f.attempts.Keys
  {
    EndKeepsListed(f, id, e, status, t);
  }

  lemma StartExtendsLists(f: Fleet, e: Event)
    requires AllListed(f) && e.payload.WorkAttemptStarted?
    ensures AllListed(Start(f, e)) && ListsExtend(f, Start(f, e))
    ensures Start(f, e).attempts.Keys == f.attempts.Keys + {e.payload.attemptId}
  {
    StartKeepsListed(f, e);
  }

  lemma DisappearanceExtendsLists(f: Fleet, e: Event)
    requires AllListed(f) && e.payload.ResourceDisappeared? && Apply(f, e).Some?
    ensures AllListed(Apply(f, e).value) && ListsExtend(f, Apply(f, e).value)
    ensures Apply(f, e).value.attempts.Keys == f.attempts.Keys
  {
    var p := e.payload;
    InterruptKeepsLists(f.(unavailable := f.unavailable[p.vesselId := p.leaseId]), p.interrupted, e, p.reason);
  }

  lemma SameWorkExtendsLists(f: Fleet, f': Fleet)
    requires AllListed(f) && f'.attempts == f.attempts && f'.missions == f.missions
    ensures AllListed(f') && ListsExtend(f, f')
  {
  }

  lemma ApplyExtendsLists(f: Fleet, e: Event)
    requires AllListed(f) && Apply(f, e).Some?
    ensures AllListed(Apply(f, e).value) && ListsExtend(f, Apply(f, e).value)
    ensures e.payload.WorkAttemptStarted? ==> Apply(f, e).value.attempts.Keys == f.attempts.Keys + {e.payload.attemptId}
    ensures !e.payload.WorkAttemptStarted? ==> Apply(f, e).value.attempts.Keys == f.attempts.Keys
  {
    hide ListsExtend, AllListed, Start, EndAttempt, Interrupt;
    match e.payload {
      case ResourceDisappeared(_, _, _, _) => DisappearanceExtendsLists(f, e);
      case WorkAttemptStarted(_, _, _, _, _) => StartExtendsLists(f, e);
      case WorkAttemptInterrupted(id, reason) => EndExtendsLists(f, id, e, Inconclusive, Some(reason));
      case WorkAttemptTimedOut(id) => EndExtendsLists(f, id, e, TimedOut, Some(ExecutionTimeout));
      case WorkAttemptCompleted(finished) =>
        if finished.Some? {
          EndExtendsLists(f, finished.value, e, Completed, None);
        } else {
          SameWorkExtendsLists(f, f);
        }
      case _ => SameWorkExtendsLists(f, Apply(f, e).value);
    }
  }

  lemma {:induction false} ReplayLists(initial: Fleet, log: seq<Event>)
    requires NoWork(initial) && ReplayFrom(initial, log).Some?
    ensures AllListed(ReplayFrom(initial, log).value)
    decreases |log|
  {
    if log != [] {
      ReplayLists(initial, log[..|log| - 1]);
      ApplyExtendsLists(ReplayFrom(initial, log[..|log| - 1]).value, Last(log));
    }
  }

  // Attempts known after replay are the ones started in the log.
  lemma {:induction false} AttemptsWereStarted(initial: Fleet, log: seq<Event>, id: string)
    requires NoWork(initial) && ReplayFrom(initial, log).Some?
    ensures id in ReplayFrom(initial, log).value.attempts <==>
            exists i :: 0 <= i < |log| && log[i].payload.WorkAttemptStarted? && log[i].payload.attemptId == id
    decreases |log|
  {
    hide AllListed, Apply, ListsExtend;
    if log != [] {
      var prior := log[..|log| - 1];
      ReplayLists(initial, prior);
      AttemptsWereStarted(initial, prior, id);
      ApplyExtendsLists(ReplayFrom(initial, prior).value, Last(log));
      if id in ReplayFrom(initial, prior).value.attempts {
        var i :| 0 <= i < |prior| && prior[i].payload.WorkAttemptStarted? && prior[i].payload.attemptId == id;
        assert log[i] == prior[i];
      } else if Last(log).payload.WorkAttemptStarted? && Last(log).payload.attemptId == id {
        assert log[|log| - 1] == Last(log);
      } else {
        forall i | 0 <= i < |log| ensures !(log[i].payload.WorkAttemptStarted? && log[i].payload.attemptId == id) {
          if i < |prior| {
            assert prior[i] == log[i];
          }
        }
      }
    }
  }

  lemma {:induction false} PrefixReplays(initial: Fleet, log: seq<Event>, n: nat)
    requires NoWork(initial) && ReplayFrom(initial, log).Some? && n <= |log|
    ensures ReplayFrom(initial, log[..n]).Some?
    decreases |log|
  {
    if n < |log| {
      PrefixReplays(initial, log[..|log| - 1], n);
      assert log[..|log| - 1][..n] == log[..n];
    } else {
      assert log[..n] == log;
    }
  }

  // ----- exactness -----

  lemma {:induction false} FreshLogsAreExact(initial: Fleet, log: seq<Event>)
    requires NoWork(initial) && ReplayFrom(initial, log).Some? && FreshStarts(log)
    ensures Exact(ReplayFrom(initial, log).value)
    decreases |log|
  {
    if log != [] {
      var prior, e := log[..|log| - 1], Last(log);
      FreshLogsAreExact(initial, prior);
      if e.payload.WorkAttemptStarted? {
        AttemptsWereStarted(initial, prior, e.payload.attemptId);
        assert log[|log| - 1] == e;
        assert forall i :: 0 <= i < |prior| ==> prior[i] == log[i];
      }
      ApplyKeepsExact(ReplayFrom(initial, prior).value, e);
    }
  }

  // Some attempt id is listed more than once.
  ghost predicate ListedTwice(f: Fleet) {
    || (exists m :: m in f.missions && !NoDup(f.missions[m].attemptIds))
    || (exists m, n, id :: m in f.missions && n in f.missions && m != n &&
                           id in f.missions[m].attemptIds && id in f.missions[n].attemptIds)
  }

  lemma ExactListsOnce(f: Fleet)
    requires Exact(f)
    ensures !ListedTwice(f)
  {
    forall m | m in f.missions ensures MissionExact(f, m) {
    }
  }

  lemma ListedTwiceStays(f: Fleet, f': Fleet)
    requires ListedTwice(f) && ListsExtend(f, f')
    ensures ListedTwice(f')
  {
    if m :| m in f.missions && !NoDup(f.missions[m].attemptIds) {
      assert f.missions[m].attemptIds <= f'.missions[m].attemptIds;
      var i, j :| 0 <= i < j < |f.missions[m].attemptIds| && f.missions[m].attemptIds[i] == f.missions[m].attemptIds[j];
      assert f'.missions[m].attemptIds[i] == f'.missions[m].attemptIds[j];
    } else {
      var m, n, id :| m in f.missions && n in f.missions && m != n &&
                      id in f.missions[m].attemptIds && id in f.missions[n].attemptIds;
      assert id in f'.missions[m].attemptIds && id in f'.missions[n].attemptIds;
    }
  }

  lemma RestartListsTwice(f: Fleet, e: Event)
    requires AllListed(f) && e.payload.WorkAttemptStarted? && e.payload.attemptId in f.attempts
    ensures ListedTwice(Start(f, e))
  {
    var id, m, n := e.payload.attemptId, f.attempts[e.payload.attemptId].missionId, e.payload.missionId;
    var f' := Start(f, e);
    var was := MissionOf(f, n).attemptIds;
    assert f'.missions[n].attemptIds[|was|] == id;
    if m == n {
      var i :| 0 <= i < |was| && was[i] == id;
      assert f'.missions[n].attemptIds[i] == f'.missions[n].attemptIds[|was|];
    } else {
      assert id in f'.missions[m].attemptIds && id in f'.missions[n].attemptIds;
    }
  }

  // The last event is the one that reuses an id.
  lemma LastReuses(initial: Fleet, log: seq<Event>)
    requires log != [] && !FreshStarts(log) && FreshStarts(log[..|log| - 1])
    requires NoWork(initial) && ReplayFrom(initial, log[..|log| - 1]).Some?
    ensures Last(log).payload.WorkAttemptStarted?
    ensures Last(log).payload.attemptId in ReplayFrom(initial, log[..|log| - 1]).value.attempts
  {
    var prior := log[..|log| - 1];
    var i, j :| 0 <= i < j < |log| && log[i].payload.WorkAttemptStarted? && log[j].payload.WorkAttemptStarted? &&
                log[i].payload.attemptId == log[j].payload.attemptId;
    assert forall x :: 0 <= x < |prior| ==> prior[x] == log[x];
    AttemptsWereStarted(initial, prior, log[i].payload.attemptId);
  }

  lemma {:induction false} ReuseListsTwice(initial: Fleet, log: seq<Event>)
    requires NoWork(initial) && ReplayFrom(initial, log).Some? && !FreshStarts(log)
    ensures ListedTwice(ReplayFrom(initial, log).value)
    decreases |log|
  {
    var prior, e := log[..|log| - 1], Last(log);
    ReplayLists(initial, prior);
    if FreshStarts(prior) {
      LastReuses(initial, log);
      RestartListsTwice(ReplayFrom(initial, prior).value, e);
    } else {
      ReuseListsTwice(initial, prior);
      ApplyExtendsLists(ReplayFrom(initial, prior).value, e);
      ListedTwiceStays(ReplayFrom(initial, prior).value, Apply(ReplayFrom(initial, prior).value, e).value);
    }
  }

  /**
   Replay keeps missions exact - active ids are precisely the running attempts,
   every attempt is listed once, in one mission, and a mission is active iff
   some attempt of it is - for exactly the logs that never reuse an attempt id.
   */
  lemma ExactIffStartsAreFresh(initial: Fleet, log: seq<Event>)
    requires NoWork(initial) && ReplayFrom(initial, log).Some?
    ensures Exact(ReplayFrom(initial, log).value) <==> FreshStarts(log)
  {
    if FreshStarts(log) {
      FreshLogsAreExact(initial, log);
    } else {
      ReuseListsTwice(initial, log);
      if Exact(ReplayFrom(initial, log).value) {
        ExactListsOnce(ReplayFrom(initial, log).value);
      }
    }
  }

  /** A log that starts one id twice lists the attempt twice. */
  lemma RestartIsNotExact()
    ensures var started := Event("e1", 1.0, WorkAttemptStarted("a", "m", "v", "l", false));
            var again := Event("e2", 2.0, WorkAttemptStarted("a", "m", "v", "l", false));
            var f := Replay([started, again]);
            f.Some? && "m" in f.value.missions && f.value.missions["m"].attemptIds == ["a", "a"] && !Exact(f.value)
  {
    var started := Event("e1", 1.0, WorkAttemptStarted("a", "m", "v", "l", false));
    var again := Event("e2", 2.0, WorkAttemptStarted("a", "m", "v", "l", false));
    assert [] + [started] == [started] && [started] + [again] == [started, again];
    ReplayOneMore([], started);
    ReplayOneMore([started], again);
    var log := [started, again];
    assert log[0].payload.attemptId == log[1].payload.attemptId;
    assert !FreshStarts(log);
    ExactIffStartsAreFresh(EMPTY_FLEET, log);
  }

  // ----- the order of attempts -----

  /** The ids a log starts, in the order of their first start. */
  function StartOrder(log: seq<Event>): seq<string> {
    if log == [] then []
    else
      var earlier, p := StartOrder(log[..|log| - 1]), Last(log).payload;
      if p.WorkAttemptStarted? && p.attemptId !in earlier then earlier + [p.attemptId] else earlier
  }

  lemma {:induction false} InterruptKeepsOrder(f: Fleet, ids: seq<string>, e: Event, reason: Termination)
    ensures Interrupt(f, ids, e, reason).order == f.order
    ensures Interrupt(f, ids, e, reason).attempts.Keys == f.attempts.Keys
    decreases |ids|
  {
    if ids != [] {
      InterruptKeepsOrder(f, ids[..|ids| - 1], e, reason);
    }
  }

  lemma ApplyOrders(f: Fleet, e: Event)
    requires Apply(f, e).Some?
    ensures var f' := Apply(f, e).value;
            var added := if e.payload.WorkAttemptStarted? && e.payload.attemptId !in f.attempts
                         then [e.payload.attemptId] else [];
            f'.order == f.order + added && f'.attempts.Keys == f.attempts.Keys + set id | id in added
  {
    if e.payload.ResourceDisappeared? {
      var p := e.payload;
      InterruptKeepsOrder(f.(unavailable := f.unavailable[p.vesselId := p.leaseId]), p.interrupted, e, p.reason);
    }
  }

  /** Replay lists every attempt once, in the order of first start. */
  lemma {:induction false} ReplayOrders(initial: Fleet, log: seq<Event>)
    requires NoWork(initial) && ReplayFrom(initial, log).Some?
    ensures var f := ReplayFrom(initial, log).value;
            NoDup(f.order) && f.order == StartOrder(log) && forall id :: id in f.order <==> id in f.attempts
    decreases |log|
  {
    hide Apply;
    if log != [] {
      var prior := log[..|log| - 1];
      ReplayOrders(initial, prior);
      ApplyOrders(ReplayFrom(initial, prior).value, Last(log));
    }
  }

  // ----- initial vessels -----

  predicate SameWork(f: Fleet, g: Fleet) {
    && f.crew == g.crew && f.unavailable == g.unavailable
    && f.attempts == g.attempts && f.order == g.order && f.missions == g.missions
  }

  lemma {:induction false} InterruptSameWork(f: Fleet, g: Fleet, ids: seq<string>, e: Event, reason: Termination)
    requires SameWork(f, g)
    ensures SameWork(Interrupt(f, ids, e, reason), Interrupt(g, ids, e, reason))
    decreases |ids|
  {
    if ids != [] {
      InterruptSameWork(f, g, ids[..|ids| - 1], e, reason);
    }
  }

  lemma {:induction false} InterruptKeepsVessels(f: Fleet, ids: seq<string>, e: Event, reason: Termination)
    ensures Interrupt(f, ids, e, reason).vessels == f.vessels
    decreases |ids|
  {
    if ids != [] {
      InterruptKeepsVessels(f, ids[..|ids| - 1], e, reason);
    }
  }

  lemma EndSameWork(f: Fleet, g: Fleet, id: string, e: Event, status: AttemptStatus, t: Option<Termination>)
    requires SameWork(f, g)
    ensures SameWork(EndAttempt(f, id, e, status, t), EndAttempt(g, id, e, status, t))
    ensures EndAttempt(f, id, e, status, t).vessels == f.vessels && EndAttempt(g, id, e, status, t).vessels == g.vessels
  {
  }

  lemma DisappearanceSameWork(f: Fleet, g: Fleet, e: Event)
    requires SameWork(f, g) && e.payload.ResourceDisappeared? && Apply(f, e).Some?
    ensures Apply(g, e).Some? && SameWork(Apply(f, e).value, Apply(g, e).value)
    ensures Apply(f, e).value.vessels == f.vessels && Apply(g, e).value.vessels == g.vessels
  {
    var p := e.payload;
    var f' := f.(unavailable := f.unavailable[p.vesselId := p.leaseId]);
    var g' := g.(unavailable := g.unavailable[p.vesselId := p.leaseId]);
    InterruptSameWork(f', g', p.interrupted, e, p.reason);
    InterruptKeepsVessels(f', p.interrupted, e, p.reason);
    InterruptKeepsVessels(g', p.interrupted, e, p.reason);
  }

  lemma StartSameWork(f: Fleet, g: Fleet, e: Event)
    requires SameWork(f, g) && e.payload.WorkAttemptStarted?
    ensures SameWork(Start(f, e), Start(g, e))
    ensures Start(f, e).vessels == f.vessels && Start(g, e).vessels == g.vessels
  {
  }

  lemma ApplySameWork(f: Fleet, g: Fleet, e: Event)
    requires SameWork(f, g) && Apply(f, e).Some? && g.vessels.Keys <= f.vessels.Keys
    ensures Apply(g, e).Some? && SameWork(Apply(f, e).value, Apply(g, e).value)
    ensures Apply(g, e).value.vessels.Keys <= Apply(f, e).value.vessels.Keys
  {
    hide EndAttempt, Interrupt, Start;
    match e.payload {
      case ResourceDisappeared(_, _, _, _) => DisappearanceSameWork(f, g, e);
      case WorkAttemptStarted(_, _, _, _, _) => StartSameWork(f, g, e);
      case WorkAttemptInterrupted(id, reason) => EndSameWork(f, g, id, e, Inconclusive, Some(reason));
      case WorkAttemptTimedOut(id) => EndSameWork(f, g, id, e, TimedOut, Some(ExecutionTimeout));
      case WorkAttemptCompleted(finished) =>
        if finished.Some? {
          EndSameWork(f, g, finished.value, e, Completed, None);
        }
      case _ =>
    }
  }

  /** Initial vessels never show in attempts and missions: replay without them leads to the same work. */
  lemma {:induction false} InitialVesselsDoNotTouchWork(crew: set<string>, vessels: seq<Vessel>, log: seq<Event>)
    requires ReplayFrom(Seeded(crew, vessels), log).Some?
    ensures ReplayFrom(Seeded(crew, []), log).Some?
    ensures var f, g := ReplayFrom(Seeded(crew, vessels), log).value, ReplayFrom(Seeded(crew, []), log).value;
            SameWork(f, g) && g.vessels.Keys <= f.vessels.Keys
    decreases |log|
  {
    hide Apply;
    if log != [] {
      var prior := log[..|log| - 1];
      InitialVesselsDoNotTouchWork(crew, vessels, prior);
      ApplySameWork(
        ReplayFrom(Seeded(crew, vessels), prior).value, ReplayFrom(Seeded(crew, []), prior).value, Last(log));
    }
  }

  // ----- ended attempts -----

  lemma {:induction false} InterruptSparesEnded(f: Fleet, ids: seq<string>, e: Event, reason: Termination, id: string)
    requires id in f.attempts && f.attempts[id].status != Running
    ensures id in Interrupt(f, ids, e, reason).attempts && Interrupt(f, ids, e, reason).attempts[id] == f.attempts[id]
    decreases |ids|
  {
    if ids != [] {
      InterruptSparesEnded(f, ids[..|ids| - 1], e, reason, id);
    }
  }

  lemma ApplySparesEnded(f: Fleet, e: Event, id: string)
    requires Apply(f, e).Some? && id in f.attempts && f.attempts[id].status != Running
    requires !(e.payload.WorkAttemptStarted? && e.payload.attemptId == id)
    ensures id in Apply(f, e).value.attempts && Apply(f, e).value.attempts[id] == f.attempts[id]
  {
    if e.payload.ResourceDisappeared? {
      var p := e.payload;
      InterruptSparesEnded(f.(unavailable := f.unavailable[p.vesselId := p.leaseId]), p.interrupted, e, p.reason, id);
    }
  }

  lemma KnownIsNotRestarted(initial: Fleet, log: seq<Event>, id: string)
    requires log != [] && FreshStarts(log)
    requires NoWork(initial) && ReplayFrom(initial, log[..|log| - 1]).Some?
    requires id in ReplayFrom(initial, log[..|log| - 1]).value.attempts
    ensures !(Last(log).payload.WorkAttemptStarted? && Last(log).payload.attemptId == id)
  {
    var prior := log[..|log| - 1];
    AttemptsWereStarted(initial, prior, id);
    var i :| 0 <= i < |prior| && prior[i].payload.WorkAttemptStarted? && prior[i].payload.attemptId == id;
    assert log[i] == prior[i];
  }

  /** On a log with fresh attempt ids, an ended attempt keeps its status, termination and end event for good. */
  lemma {:induction false} EndedForGood(initial: Fleet, log: seq<Event>, n: nat, id: string)
    requires NoWork(initial) && ReplayFrom(initial, log).Some? && FreshStarts(log) && n <= |log|
    requires ReplayFrom(initial, log[..n]).Some? && id in ReplayFrom(initial, log[..n]).value.attempts
    requires ReplayFrom(initial, log[..n]).value.attempts[id].status != Running
    ensures id in ReplayFrom(initial, log).value.attempts
    ensures ReplayFrom(initial, log).value.attempts[id] == ReplayFrom(initial, log[..n]).value.attempts[id]
    decreases |log|
  {
    if n == |log| {
      assert log[..n] == log;
    } else {
      var prior, e := log[..|log| - 1], Last(log);
      assert prior[..n] == log[..n];
      EndedForGood(initial, prior, n, id);
      KnownIsNotRestarted(initial, log, id);
      ApplySparesEnded(ReplayFrom(initial, prior).value, e, id);
    }
  }
}
