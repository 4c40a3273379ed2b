/**
 Notification recovery by pages behind a durable cursor.

 The listing of n jobs is fixed; a continuation token is the position of the
 next job, and no token means the start.  Any number of recovery workers may
 be inside a page at once, die there, or lose the race to move the cursor.
 */
module NotificationPages {
  import opened Basics

  // ----- one page -----

  function Start(cursor: Option<nat>): nat {
    if cursor.Some? then cursor.value else 0
  }

  // One past the last job of the page at `cursor`; an exhausted listing has an empty page.
  function PageEnd(n: nat, k: nat, cursor: Option<nat>): nat {
    if Start(cursor) >= n then Start(cursor)
    else if Start(cursor) + k < n then Start(cursor) + k
    else n
  }

  function NextCursor(n: nat, k: nat, cursor: Option<nat>): Option<nat> {
    if PageEnd(n, k, cursor) < n then Some(PageEnd(n, k, cursor)) else None
  }

  predicate OnPage(n: nat, k: nat, cursor: Option<nat>, i: nat) {
    Start(cursor) <= i < PageEnd(n, k, cursor)
  }

  // The listing after the jobs in [lo, hi) have been visited.
  function Visited(waiting: seq<bool>, lo: nat, hi: nat, delivered: nat -> bool, marked: nat -> bool): (w: seq<bool>)
    ensures |w| == |waiting|
    ensures forall i :: 0 <= i < |waiting| ==>
              w[i] == (waiting[i] && !(lo <= i < hi && delivered(i) && marked(i)))
  {
    seq(|waiting|, i requires 0 <= i < |waiting| => waiting[i] && !(lo <= i < hi && delivered(i) && marked(i)))
  }

  function Attempts(waiting: seq<bool>, lo: nat, hi: nat): set<nat> {
    set i: nat | lo <= i < hi && i < |waiting| && waiting[i]
  }

  // `delivered(i)` is whether the notifier accepts job i, `marked(i)` whether the record of job i could
  // then be updated; with `dies == Some(m)` the process stops after m jobs, before the cursor write.
  datatype Call = Call(delivered: nat -> bool, marked: nat -> bool, dies: Option<nat>)

  datatype Contents = Contents(waiting: seq<bool>, cursor: Option<nat>, attempted: set<nat>)

  /** What one recovery call does: it visits the page at the cursor and then moves the cursor, unless it dies before. */
  function AfterCall(k: nat, c: Contents, call: Call): Contents {
    var n, lo := |c.waiting|, Start(c.cursor);
    var hi := PageEnd(n, k, c.cursor);
    var end := if call.dies.Some? && lo + call.dies.value < hi then lo + call.dies.value else hi;
    Contents(
      Visited(c.waiting, lo, end, call.delivered, call.marked),
      if call.dies.None? then NextCursor(n, k, c.cursor) else c.cursor,
      c.attempted + Attempts(c.waiting, lo, end))
  }

  /** The pending flags of the listed jobs and the durable cursor. */
  class Outbox {
    const limit: nat
    const waiting: array<bool>
    var cursor: Option<nat>
    ghost var attempted: set<nat>

    ghost function View(): Contents
      reads this, waiting
    {
      Contents(waiting[..], cursor, attempted)
    }

    constructor (limit: nat, waiting: array<bool>, cursor: Option<nat>)
      requires limit >= 1
      ensures this.limit == limit && this.waiting == waiting && this.cursor == cursor && attempted == {}
    {
      this.limit, this.waiting, this.cursor, attempted := limit, waiting, cursor, {};
    }

    /** One recovery call. */
    method Recover(delivered: nat -> bool, marked: nat -> bool, dies: Option<nat>)
      requires limit >= 1
      modifies this, waiting
      ensures View() == AfterCall(limit, old(View()), Call(delivered, marked, dies))
    {
      var lo, hi := Start(cursor), PageEnd(waiting.Length, limit, cursor);
      var i := lo;
      ghost var was := waiting[..];
      while i < hi && !(dies.Some? && i == lo + dies.value)
        invariant lo <= i <= hi && (hi <= waiting.Length || i == hi)
        invariant dies.Some? ==> i <= lo + dies.value
        invariant waiting[..] == Visited(was, lo, i, delivered, marked)
        invariant attempted == old(attempted) + Attempts(was, lo, i)
        invariant cursor == old(cursor)
      {
        assert waiting[i] == waiting[..][i];
        assert Attempts(was, lo, i + 1) == Attempts(was, lo, i) + if was[i] then {i} else {};
        if waiting[i] {
          attempted := attempted + {i};
          if delivered(i) && marked(i) {
            waiting[i] := false;
          }
        }
        i := i + 1;
        assert waiting[..] == Visited(was, lo, i, delivered, marked);
      }
      if dies.None? {
        cursor := NextCursor(waiting.Length, limit, cursor);
      }
    }
  }

  // ----- how many pages cover the listing -----

  function Pages(n: nat, k: nat): nat
    requires k >= 1
  {
    if n == 0 then 0 else if n <= k then 1 else 1 + Pages(n - k, k)
  }

  lemma {:induction false} PagesIsCeiling(n: nat, k: nat)
    requires k >= 1
    ensures Pages(n, k) == (n + k - 1) / k
  {
    if n > k {
      PagesIsCeiling(n - k, k);
      DivideOneMore(n - 1, k);
    } else if n > 0 {
      DivideOneMore(n - 1, k);
      DivideSmall(n - 1, k);
    } else {
      DivideSmall(k - 1, k);
    }
  }

  lemma DivideOneMore(x: nat, k: nat)
    requires k >= 1
    ensures (x + k) / k == x / k + 1
  {
    var q, r := x / k, x % k;
    assert x + k == (q + 1) * k + r;
    DivideUnique(x + k, k, q + 1, r);
  }

  lemma DivideSmall(x: nat, k: nat)
    requires x < k
    ensures x / k == 0
  {
  }

  lemma {:induction false} ProductsGrow(a: nat, b: nat, k: nat)
    requires a < b
    ensures a * k + k <= b * k
  {
    if b == a + 1 {
      assert b * k == a * k + k;
    } else {
      ProductsGrow(a, b - 1, k);
      assert b * k == (b - 1) * k + k;
    }
  }

  lemma DivideUnique(x: nat, k: nat, q: nat, r: nat)
    requires k >= 1 && r < k && x == q * k + r
    ensures x / k == q
  {
    var q', r' := x / k, x % k;
    assert x == q' * k + r';
    if q < q' {
      ProductsGrow(q, q', k);
    } else if q' < q {
      ProductsGrow(q', q, k);
    }
  }

  lemma {:induction false} PagesGrow(a: nat, b: nat, k: nat)
    requires k >= 1 && a <= b
    ensures Pages(a, k) <= Pages(b, k)
    decreases b
  {
    if a > k {
      PagesGrow(a - k, b - k, k);
    }
  }

  lemma {:induction false} PagesSplit(a: nat, b: nat, k: nat)
    requires k >= 1
    ensures Pages(a, k) + Pages(b, k) <= Pages(a + b, k) + 1
    decreases a
  {
    if a > k {
      PagesSplit(a - k, b, k);
      assert a + b - k == (a - k) + b;
    } else if a > 0 {
      PagesGrow(b, a + b, k);
    }
  }

  function After(n: nat, k: nat, cursor: Option<nat>, moves: nat): Option<nat> {
    if moves == 0 then cursor else NextCursor(n, k, After(n, k, cursor, moves - 1))
  }

  lemma {:induction false} AfterFirst(n: nat, k: nat, cursor: Option<nat>, moves: nat)
    requires moves >= 1
    ensures After(n, k, cursor, moves) == After(n, k, NextCursor(n, k, cursor), moves - 1)
  {
    if moves > 1 {
      AfterFirst(n, k, cursor, moves - 1);
    }
  }

  // From a cursor inside the listing, the pages up to the end reach every later job and then wrap.
  lemma {:induction false} LegReaches(n: nat, k: nat, cursor: Option<nat>, i: nat) returns (j: nat)
    requires k >= 1 && Start(cursor) <= i < n
    ensures j < Pages(n - Start(cursor), k) && OnPage(n, k, After(n, k, cursor, j), i)
    decreases n - Start(cursor)
  {
    if i < PageEnd(n, k, cursor) {
      j := 0;
    } else {
      var rest := LegReaches(n, k, NextCursor(n, k, cursor), i);
      j := rest + 1;
      AfterFirst(n, k, cursor, j);
    }
  }

  lemma {:induction false} LegWraps(n: nat, k: nat, cursor: Option<nat>)
    requires k >= 1 && Start(cursor) < n
    ensures After(n, k, cursor, Pages(n - Start(cursor), k)) == None
    decreases n - Start(cursor)
  {
    if PageEnd(n, k, cursor) < n {
      LegWraps(n, k, NextCursor(n, k, cursor));
      AfterFirst(n, k, cursor, Pages(n - Start(cursor), k));
    } else {
      assert After(n, k, cursor, 1) == NextCursor(n, k, After(n, k, cursor, 0));
    }
  }

  lemma {:induction false} AfterAdds(n: nat, k: nat, cursor: Option<nat>, a: nat, b: nat)
    ensures After(n, k, cursor, a + b) == After(n, k, After(n, k, cursor, a), b)
    decreases b
  {
    if b > 0 {
      AfterAdds(n, k, cursor, a, b - 1);
    }
  }

  /** The cursor visits every job within ceil(n / k) + 1 moves, from wherever it stands. */
  lemma PagesReachEveryJob(n: nat, k: nat, cursor: Option<nat>, i: nat) returns (j: nat)
    requires k >= 1 && i < n
    ensures j < Pages(n, k) + 1 && OnPage(n, k, After(n, k, cursor, j), i)
  {
    var start := Start(cursor);
    if start <= i {
      j := LegReaches(n, k, cursor, i);
      PagesGrow(n - start, n, k);
    } else {
      var first := if start < n then Pages(n - start, k) else 1;
      if start < n {
        LegWraps(n, k, cursor);
        PagesSplit(n - start, start, k);
      } else {
        assert After(n, k, cursor, 1) == NextCursor(n, k, After(n, k, cursor, 0));
      }
      var second := LegReachesBefore(n, k, i, start);
      j := first + second;
      AfterAdds(n, k, cursor, first, second);
    }
  }

  // Starting over, job i is reached within the pages of any prefix that contains it.
  lemma LegReachesBefore(n: nat, k: nat, i: nat, bound: nat) returns (j: nat)
    requires k >= 1 && i < n && i < bound
    ensures j < Pages(if bound <= n then bound else n, k) && OnPage(n, k, After(n, k, None, j), i)
  {
    j := PrefixReaches(n, k, None, i, if bound <= n then bound else n);
  }

  lemma {:induction false} PrefixReaches(n: nat, k: nat, cursor: Option<nat>, i: nat, bound: nat) returns (j: nat)
    requires k >= 1 && Start(cursor) <= i < bound <= n
    ensures j < Pages(bound - Start(cursor), k) && OnPage(n, k, After(n, k, cursor, j), i)
    decreases n - Start(cursor)
  {
    if i < PageEnd(n, k, cursor) {
      j := 0;
    } else {
      var rest := PrefixReaches(n, k, NextCursor(n, k, cursor), i, bound);
      j := rest + 1;
      AfterFirst(n, k, cursor, j);
    }
  }

  // ----- calls one after the other -----

  function AfterCalls(k: nat, c: Contents, calls: seq<Call>): Contents {
    if calls == [] then c else AfterCall(k, AfterCalls(k, c, calls[..|calls| - 1]), Last(calls))
  }

  // The number of calls that do not die.
  function Finished(calls: seq<Call>): nat {
    if calls == [] then 0 else Finished(calls[..|calls| - 1]) + if Last(calls).dies.None? then 1 else 0
  }

  // Every job waiting in `c` on one of the first `moves` pages has been attempted in `c'`.
  ghost predicate Covered(k: nat, c: Contents, c': Contents, moves: nat) {
    && |c'.waiting| == |c.waiting| && c'.cursor == After(|c.waiting|, k, c.cursor, moves)
    && (forall i :: 0 <= i < |c.waiting| && c.waiting[i] ==> c'.waiting[i] || i in c'.attempted)
    && forall j, i | 0 <= j < moves && 0 <= i < |c.waiting| && c.waiting[i] ::
         (OnPage(|c.waiting|, k, After(|c.waiting|, k, c.cursor, j), i) ==> i in c'.attempted)
  }

  lemma CallCovers(k: nat, c: Contents, c': Contents, moves: nat, call: Call)
    requires Covered(k, c, c', moves)
    ensures Covered(k, c, AfterCall(k, c', call), moves + if call.dies.None? then 1 else 0)
  {
    hide After;
    assert call.dies.None? ==> After(|c.waiting|, k, c.cursor, moves + 1) == NextCursor(|c.waiting|, k, c'.cursor) by {
      AfterOneMore(|c.waiting|, k, c.cursor, moves);
    }
  }

  lemma AfterOneMore(n: nat, k: nat, cursor: Option<nat>, moves: nat)
    ensures After(n, k, cursor, moves + 1) == NextCursor(n, k, After(n, k, cursor, moves))
  {
  }

  lemma {:induction false} CallsCover(k: nat, c: Contents, calls: seq<Call>)
    ensures Covered(k, c, AfterCalls(k, c, calls), Finished(calls))
  {
    if calls != [] {
      var prior := calls[..|calls| - 1];
      CallsCover(k, c, prior);
      CallCovers(k, c, AfterCalls(k, c, prior), Finished(prior), Last(calls));
    }
  }

  /**
   Among any calls of the recovery method, ceil(n / k) + 1 that do not die have
   handed every job that was waiting at first to the notifier, from any cursor.
   */
  lemma EnoughCallsAttemptEveryJob(k: nat, c: Contents, calls: seq<Call>, i: nat)
    requires k >= 1 && Finished(calls) >= (|c.waiting| + k - 1) / k + 1
    requires i < |c.waiting| && c.waiting[i]
    ensures i in AfterCalls(k, c, calls).attempted
  {
    CallsCover(k, c, calls);
    PagesIsCeiling(|c.waiting|, k);
    var j := PagesReachEveryJob(|c.waiting|, k, c.cursor, i);
  }

  // ----- many recovery workers -----

  // A pass under way: the cursor it read, that cursor's ETag, and the next job to visit.
  datatype Pass = Pass(from: Option<nat>, etag: nat, next: nat)

  datatype Shared = Shared(
    waiting: seq<bool>, cursor: Option<nat>, etag: nat, attempted: set<nat>, passes: map<nat, Pass>)

  datatype Step =
    | Open(worker: nat)
    | Visit(worker: nat, delivered: bool, marked: bool)
    | Close(worker: nat)
    | Die(worker: nat)

  predicate Enabled(k: nat, s: Shared, step: Step) {
    match step
    case Open(p) => p !in s.passes
    case Visit(p, _, _) => p in s.passes && s.passes[p].next < PageEnd(|s.waiting|, k, s.passes[p].from)
                           && s.passes[p].next < |s.waiting|
    case Close(p) => p in s.passes && s.passes[p].next >= PageEnd(|s.waiting|, k, s.passes[p].from)
    case Die(p) => p in s.passes
  }

  function Apply(k: nat, s: Shared, step: Step): Shared
    requires Enabled(k, s, step)
  {
    match step
    case Open(p) => s.(passes := s.passes[p := Pass(s.cursor, s.etag, Start(s.cursor))])
    case Visit(p, delivered, marked) =>
      var i := s.passes[p].next;
      s.(passes := s.passes[p := s.passes[p].(next := i + 1)],
         attempted := if s.waiting[i] then s.attempted + {i} else s.attempted,
         waiting := if s.waiting[i] && delivered && marked then s.waiting[i := false] else s.waiting)
    case Close(p) =>
      var left := s.(passes := s.passes - {p});
      if s.passes[p].etag == s.etag
      then left.(cursor := NextCursor(|s.waiting|, k, s.passes[p].from), etag := s.etag + 1)
      else left
    case Die(p) => s.(passes := s.passes - {p})
  }

  // What holds of a pass from the moment it opens.
  predicate Begun(s: Shared, pass: Pass) {
    Start(pass.from) <= pass.next && pass.etag <= s.etag && (pass.etag == s.etag ==> pass.from == s.cursor)
  }

  // Passes under way at the start may have gone by jobs unseen; their page counts for nothing.
  function UnderWay(first: Shared): nat {
    if first.passes == map[] then 0 else 1
  }

  /** `run[i + 1]` is `run[i]` after `steps[i]`; passes may be under way at the start. */
  predicate Run(k: nat, run: seq<Shared>, steps: seq<Step>) {
    && |run| == |steps| + 1
    && run[0].attempted == {}
    && (forall p :: p in run[0].passes ==> Begun(run[0], run[0].passes[p]))
    && forall i :: 0 <= i < |steps| ==> Enabled(k, run[i], steps[i]) && run[i + 1] == Apply(k, run[i], steps[i])
  }

  // Job i has been attempted, unless it was not waiting to begin with.
  predicate Tried(first: Shared, s: Shared, i: nat)
    requires |s.waiting| == |first.waiting| && i < |s.waiting|
  {
    first.waiting[i] ==> i in s.attempted
  }

  ghost predicate PassOk(k: nat, first: Shared, s: Shared, pass: Pass)
    requires |s.waiting| == |first.waiting|
  {
    && Begun(s, pass)
    && (pass.etag >= first.etag + UnderWay(first) ==>
          forall i :: Start(pass.from) <= i < pass.next && i < |s.waiting| ==> Tried(first, s, i))
  }

  ghost predicate Inv(k: nat, first: Shared, s: Shared) {
    && |s.waiting| == |first.waiting| && first.etag <= s.etag
    && s.cursor == After(|s.waiting|, k, first.cursor, s.etag - first.etag)
    && (forall i :: 0 <= i < |s.waiting| && first.waiting[i] ==> s.waiting[i] || i in s.attempted)
    && (forall p :: p in s.passes ==> PassOk(k, first, s, s.passes[p]))
    && forall j, i | UnderWay(first) <= j < s.etag - first.etag && 0 <= i < |s.waiting| ::
         (OnPage(|s.waiting|, k, After(|s.waiting|, k, first.cursor, j), i) ==> Tried(first, s, i))
  }

  lemma StepKeepsInv(k: nat, first: Shared, s: Shared, step: Step)
    requires Inv(k, first, s) && Enabled(k, s, step)
    ensures Inv(k, first, Apply(k, s, step))
  {
    var s' := Apply(k, s, step);
    forall p | p in s'.passes ensures PassOk(k, first, s', s'.passes[p]) {
      if p in s.passes {
        assert PassOk(k, first, s, s.passes[p]);
      }
      forall i | s'.passes[p].etag >= first.etag + UnderWay(first) &&
                 Start(s'.passes[p].from) <= i < s'.passes[p].next && i < |s'.waiting|
        ensures Tried(first, s', i)
      {
        if p in s.passes && i < s.passes[p].next {
          assert Tried(first, s, i);
        }
      }
    }
    forall j, i | UnderWay(first) <= j < s'.etag - first.etag && 0 <= i < |s'.waiting| &&
                  OnPage(|s'.waiting|, k, After(|s'.waiting|, k, first.cursor, j), i)
      ensures Tried(first, s', i)
    {
      if j < s.etag - first.etag {
        assert Tried(first, s, i);
      } else {
        assert PassOk(k, first, s, s.passes[step.worker]);
        assert Tried(first, s, i);
      }
    }
  }

  lemma {:induction false} RunKeepsInv(k: nat, run: seq<Shared>, steps: seq<Step>, i: nat)
    requires Run(k, run, steps) && i < |run|
    ensures Inv(k, run[0], run[i])
  {
    if i > 0 {
      RunKeepsInv(k, run, steps, i - 1);
      StepKeepsInv(k, run[0], run[i - 1], steps[i - 1]);
      assert run[i - 1 + 1] == Apply(k, run[i - 1], steps[i - 1]);
    }
  }

  /**
   Fairness with a bound: once the cursor has moved ceil(n / k) + 1 times since
   the start of a run, every job that was waiting at the start has been handed
   to the notifier at least once, however many deliveries fail, workers die or
   workers overlap, and from whatever cursor the run began.  Passes already under
   way at the start cost one move more.
   */
  lemma EveryWaitingJobIsAttempted(k: nat, run: seq<Shared>, steps: seq<Step>, t: nat, i: nat)
    requires k >= 1 && Run(k, run, steps) && t < |run|
    requires run[t].etag >= run[0].etag + (|run[0].waiting| + k - 1) / k + 1 + UnderWay(run[0])
    requires i < |run[0].waiting| && run[0].waiting[i]
    ensures i in run[t].attempted
  {
    RunKeepsInv(k, run, steps, t);
    var n := |run[0].waiting|;
    PagesIsCeiling(n, k);
    var late := UnderWay(run[0]);
    var j := PagesReachEveryJob(n, k, After(n, k, run[0].cursor, late), i);
    AfterAdds(n, k, run[0].cursor, late, j);
    assert Tried(run[0], run[t], i);
  }

  /**
   The cursor is a function of its number of moves: passes that die, or that
   lose the race to another worker, leave the next pass to open on the same page.
   */
  lemma UnmovedCursorReplaysItsPage(k: nat, run: seq<Shared>, steps: seq<Step>, t: nat, u: nat)
    requires Run(k, run, steps) && t < |run| && u < |run| && run[t].etag == run[u].etag
    ensures run[t].cursor == run[u].cursor
  {
    RunKeepsInv(k, run, steps, t);
    RunKeepsInv(k, run, steps, u);
  }

  // Worker p opens a pass and visits `m` jobs with nobody else about.
  function Alone(k: nat, s: Shared, p: nat, delivered: nat -> bool, marked: nat -> bool, m: nat): (s': Shared)
    requires p !in s.passes && Start(s.cursor) + m <= PageEnd(|s.waiting|, k, s.cursor)
    ensures p in s'.passes && s'.passes[p] == Pass(s.cursor, s.etag, Start(s.cursor) + m)
    ensures |s'.waiting| == |s.waiting| && s'.cursor == s.cursor && s'.etag == s.etag
  {
    if m == 0 then Apply(k, s, Open(p))
    else
      var before := Alone(k, s, p, delivered, marked, m - 1);
      var i := Start(s.cursor) + m - 1;
      Apply(k, before, Visit(p, delivered(i), marked(i)))
  }

  lemma VisitNone(waiting: seq<bool>, lo: nat, delivered: nat -> bool, marked: nat -> bool)
    ensures Visited(waiting, lo, lo, delivered, marked) == waiting && Attempts(waiting, lo, lo) == {}
  {
  }

  lemma VisitOneMore(waiting: seq<bool>, lo: nat, i: nat, delivered: nat -> bool, marked: nat -> bool)
    requires lo <= i < |waiting|
    ensures var before := Visited(waiting, lo, i, delivered, marked);
            && before[i] == waiting[i]
            && Visited(waiting, lo, i + 1, delivered, marked) ==
               if waiting[i] && delivered(i) && marked(i) then before[i := false] else before
    ensures Attempts(waiting, lo, i + 1) ==
            if waiting[i] then Attempts(waiting, lo, i) + {i} else Attempts(waiting, lo, i)
  {
  }

  lemma AloneOneMore(k: nat, s: Shared, p: nat, delivered: nat -> bool, marked: nat -> bool, m: nat, i: nat)
    requires p !in s.passes && i == Start(s.cursor) + m < PageEnd(|s.waiting|, k, s.cursor)
    ensures var before, after := Alone(k, s, p, delivered, marked, m), Alone(k, s, p, delivered, marked, m + 1);
            && after.waiting ==
               (if before.waiting[i] && delivered(i) && marked(i) then before.waiting[i := false] else before.waiting)
            && after.attempted == (if before.waiting[i] then before.attempted + {i} else before.attempted)
  {
    assert Alone(k, s, p, delivered, marked, m + 1) ==
           Apply(k, Alone(k, s, p, delivered, marked, m), Visit(p, delivered(i), marked(i)));
  }

  lemma {:induction false} AloneVisits(
    k: nat, s: Shared, p: nat, delivered: nat -> bool, marked: nat -> bool, m: nat)
    requires p !in s.passes && Start(s.cursor) + m <= PageEnd(|s.waiting|, k, s.cursor)
    ensures var lo, s' := Start(s.cursor), Alone(k, s, p, delivered, marked, m);
            && s'.waiting == Visited(s.waiting, lo, lo + m, delivered, marked)
            && s'.attempted == s.attempted + Attempts(s.waiting, lo, lo + m)
  {
    hide Alone, Visited, Attempts;
    var lo := Start(s.cursor);
    if m == 0 {
      AloneAtFirst(k, s, p, delivered, marked);
      VisitNone(s.waiting, lo, delivered, marked);
    } else {
      var i := lo + (m - 1);
      AloneVisits(k, s, p, delivered, marked, m - 1);
      AloneOneMore(k, s, p, delivered, marked, m - 1, i);
      VisitOneMore(s.waiting, lo, i, delivered, marked);
      assert lo + m == i + 1;
    }
  }

  lemma AloneAtFirst(k: nat, s: Shared, p: nat, delivered: nat -> bool, marked: nat -> bool)
    requires p !in s.passes
    ensures Alone(k, s, p, delivered, marked, 0).waiting == s.waiting
    ensures Alone(k, s, p, delivered, marked, 0).attempted == s.attempted
  {
  }

  /** An undisturbed pass of the shared machine does to it what one call of the recovery method does to its outbox. */
  lemma UndisturbedPassIsRecover(k: nat, s: Shared, p: nat, delivered: nat -> bool, marked: nat -> bool)
    requires p !in s.passes
    ensures var s' := Alone(k, s, p, delivered, marked, PageEnd(|s.waiting|, k, s.cursor) - Start(s.cursor));
            && Enabled(k, s', Close(p))
            && var done := Apply(k, s', Close(p));
               Contents(done.waiting, done.cursor, done.attempted) ==
               AfterCall(k, Contents(s.waiting, s.cursor, s.attempted), Call(delivered, marked, None))
  {
    hide Alone, Visited, Attempts;
    AloneVisits(k, s, p, delivered, marked, PageEnd(|s.waiting|, k, s.cursor) - Start(s.cursor));
  }
}
