/** What a checkpoint says, in terms of the whole log behind it. */
module CheckpointHistory {
  import opened Basics
  import opened Checkpoint

  // ----- facts, constraints and subgoals -----

  predicate Marks(event: Event, note: Note, text: string) {
    NoteOf(event) == Some(note) && TextOf(event) == text
  }

  predicate Marked(log: seq<Event>, note: Note, text: string) {
    exists e :: e in log && Marks(e, note, text)
  }

  /** The position of the first event marking `text`; |log| if there is none. */
  function FirstMark(log: seq<Event>, note: Note, text: string): nat {
    if log == [] then 0
    else
      var at := FirstMark(log[..|log| - 1], note, text);
      if at < |log| - 1 || Marks(Last(log), note, text) then at else |log|
  }

  lemma {:induction false} FirstMarkIsFirst(log: seq<Event>, note: Note, text: string)
    ensures var at := FirstMark(log, note, text);
            && at <= |log| && (at < |log| <==> Marked(log, note, text))
            && (at < |log| ==> Marks(log[at], note, text))
            && forall i :: 0 <= i < at ==> !Marks(log[i], note, text)
  {
    if log != [] {
      var front, last := log[..|log| - 1], Last(log);
      FirstMarkIsFirst(front, note, text);
      assert log == front + [last];
      assert last in log;
      forall i | 0 <= i < FirstMark(log, note, text)
        ensures !Marks(log[i], note, text)
      {
        if i < |front| { assert front[i] == log[i]; }
      }
    }
  }

  /** Texts in the order in which the log first marks them, so each at most once. */
  ghost predicate InOrder(texts: seq<string>, log: seq<Event>, note: Note) {
    && (forall i :: 0 <= i < |texts| ==> Marked(log, note, texts[i]))
    && (forall i, j :: 0 <= i < j < |texts| ==> FirstMark(log, note, texts[i]) < FirstMark(log, note, texts[j]))
  }

  lemma FirstMarkSnoc(log: seq<Event>, event: Event, note: Note, text: string)
    ensures Marked(log, note, text) ==> FirstMark(log + [event], note, text) == FirstMark(log, note, text)
    ensures !Marked(log, note, text) ==> FirstMark(log + [event], note, text) >= |log|
    ensures Marked(log + [event], note, text) <==> Marked(log, note, text) || Marks(event, note, text)
  {
    var longer := log + [event];
    assert longer[..|log|] == log;
    FirstMarkIsFirst(log, note, text);
    assert forall e :: e in longer <==> e in log || e == event;
    assert event in longer;
  }

  lemma InOrderSnoc(texts: seq<string>, log: seq<Event>, event: Event, note: Note)
    requires InOrder(texts, log, note)
    ensures InOrder(texts, log + [event], note)
  {
    forall i | 0 <= i < |texts|
      ensures Marked(log + [event], note, texts[i])
      ensures FirstMark(log + [event], note, texts[i]) == FirstMark(log, note, texts[i])
    {
      FirstMarkSnoc(log, event, note, texts[i]);
    }
  }

  lemma NewMarkComesLast(texts: seq<string>, log: seq<Event>, event: Event, note: Note)
    requires InOrder(texts, log, note)
    requires NoteOf(event) == Some(note) && !Marked(log, note, TextOf(event))
    ensures InOrder(texts + [TextOf(event)], log + [event], note)
  {
    hide FirstMark, Marked, NoteOf, TextOf;
    InOrderSnoc(texts, log, event, note);
    FirstMarkSnoc(log, event, note, TextOf(event));
    forall i | 0 <= i < |texts|
      ensures FirstMark(log + [event], note, texts[i]) < |log|
    {
      FirstMarkSnoc(log, event, note, texts[i]);
      FirstMarkIsFirst(log, note, texts[i]);
    }
  }

  lemma {:induction false} NotesAreMarks(log: seq<Event>, note: Note, text: string)
    ensures text in Texts(Notes(log, note)) <==> Marked(log, note, text)
  {
    if log != [] {
      var front, last := log[..|log| - 1], Last(log);
      assert log == front + [last];
      NotesAreMarks(front, note, text);
      FirstMarkSnoc(front, last, note, text);
      TextsSnoc(Notes(front, note), Fact(TextOf(last), last.id));
    }
  }

  /** Noted texts come in the order of their first mark. */
  lemma {:induction false} NotedInOrder(log: seq<Event>, note: Note)
    ensures InOrder(Texts(FirstSeen(Notes(log, note))), log, note)
  {
    if log != [] {
      var front, last := log[..|log| - 1], Last(log);
      assert log == front + [last];
      NotedInOrder(front, note);
      var before := Texts(FirstSeen(Notes(front, note)));
      InOrderSnoc(before, front, last, note);
      if NoteOf(last) == Some(note) {
        var fact := Fact(TextOf(last), last.id);
        FirstSeenSnoc(Notes(front, note), fact);
        if fact.text !in Texts(Notes(front, note)) {
          TextsSnoc(FirstSeen(Notes(front, note)), fact);
          NotesAreMarks(front, note, fact.text);
          NewMarkComesLast(before, front, last, note);
        }
      }
    }
  }

  lemma EarlierText(texts: seq<string>, text: string, log: seq<Event>, note: Note)
    requires InOrder(texts, log, note) && texts != [] && text in texts[..|texts| - 1]
    ensures FirstMark(log, note, text) < FirstMark(log, note, Last(texts))
  {
    var front := texts[..|texts| - 1];
    var k :| 0 <= k < |front| && front[k] == text;
    assert texts[k] == text;
  }

  lemma {:induction false} WithoutKeepsOrder(texts: seq<string>, dropped: seq<string>, log: seq<Event>, note: Note)
    requires InOrder(texts, log, note)
    ensures InOrder(Without(texts, dropped), log, note)
  {
    if texts != [] {
      var front, last := texts[..|texts| - 1], Last(texts);
      PrefixInOrder(texts, log, note);
      WithoutKeepsOrder(front, dropped, log, note);
      forall text | text in Without(front, dropped)
        ensures FirstMark(log, note, text) < FirstMark(log, note, last)
      {
        WithoutMembers(front, dropped, text);
        EarlierText(texts, text, log, note);
      }
      AppendInOrder(Without(front, dropped), last, log, note);
    }
  }

  lemma PrefixInOrder(texts: seq<string>, log: seq<Event>, note: Note)
    requires InOrder(texts, log, note) && texts != []
    ensures InOrder(texts[..|texts| - 1], log, note) && Marked(log, note, Last(texts))
  {
  }

  lemma AppendInOrder(texts: seq<string>, last: string, log: seq<Event>, note: Note)
    requires InOrder(texts, log, note) && Marked(log, note, last)
    requires forall text :: text in texts ==> FirstMark(log, note, text) < FirstMark(log, note, last)
    ensures InOrder(texts + [last], log, note)
  {
  }

  /**
   The remaining subgoals are those some event marked remaining and no event
   ever completed, in the order they were first marked; the completed ones come
   in the order of completion.
   */
  lemma SubgoalsByHistory(log: seq<Event>)
    ensures forall t :: t in Completed(log) <==> Marked(log, OfCompleted, t)
    ensures forall t :: t in Remaining(log) <==> Marked(log, OfRemaining, t) && !Marked(log, OfCompleted, t)
    ensures InOrder(Completed(log), log, OfCompleted) && InOrder(Remaining(log), log, OfRemaining)
  {
    var done, marked := Notes(log, OfCompleted), Notes(log, OfRemaining);
    NotedInOrder(log, OfCompleted);
    NotedInOrder(log, OfRemaining);
    WithoutKeepsOrder(Texts(FirstSeen(marked)), Texts(done), log, OfRemaining);
    forall t
      ensures t in Completed(log) <==> Marked(log, OfCompleted, t)
      ensures t in Remaining(log) <==> Marked(log, OfRemaining, t) && !Marked(log, OfCompleted, t)
    {
      FirstSeenTexts(done, t);
      FirstSeenTexts(marked, t);
      NotesAreMarks(log, OfCompleted, t);
      NotesAreMarks(log, OfRemaining, t);
      WithoutMembers(Texts(FirstSeen(marked)), Texts(done), t);
    }
  }

  lemma ConstraintsByHistory(log: seq<Event>)
    ensures forall t :: t in Constraints(log) <==> Marked(log, OfConstraint, t)
    ensures InOrder(Constraints(log), log, OfConstraint)
  {
    NotedInOrder(log, OfConstraint);
    forall t ensures t in Constraints(log) <==> Marked(log, OfConstraint, t) {
      FirstSeenTexts(Notes(log, OfConstraint), t);
      NotesAreMarks(log, OfConstraint, t);
    }
  }

  /** Every fact text once, in order, credited to the event that first stated it. */
  lemma {:induction false} FactsByHistory(log: seq<Event>)
    ensures forall t :: t in Texts(Facts(log)) <==> Marked(log, OfFact, t)
    ensures InOrder(Texts(Facts(log)), log, OfFact)
    ensures forall f :: f in Facts(log) ==>
              var at := FirstMark(log, OfFact, f.text);
              at < |log| && log[at].id == f.source
  {
    NotedInOrder(log, OfFact);
    forall t ensures t in Texts(Facts(log)) <==> Marked(log, OfFact, t) {
      FirstSeenTexts(Notes(log, OfFact), t);
      NotesAreMarks(log, OfFact, t);
    }
    FactSources(log);
  }

  lemma {:induction false} FactSources(log: seq<Event>)
    ensures forall f :: f in Facts(log) ==>
              var at := FirstMark(log, OfFact, f.text);
              at < |log| && log[at].id == f.source
  {
    if log != [] {
      var front, last := log[..|log| - 1], Last(log);
      assert log == front + [last];
      FactSources(front);
      FactsSnoc(front, last);
      forall f | f in Facts(log)
        ensures FirstMark(log, OfFact, f.text) < |log| && log[FirstMark(log, OfFact, f.text)].id == f.source
      {
        FirstMarkSnoc(front, last, OfFact, f.text);
        FirstMarkIsFirst(front, OfFact, f.text);
        FirstMarkIsFirst(log, OfFact, f.text);
        if f !in Facts(front) {
          FirstSeenTexts(Notes(front, OfFact), f.text);
          NotesAreMarks(front, OfFact, f.text);
        }
      }
    }
  }

  /** The artifact is the last verified one that carries a fingerprint. */
  lemma {:induction false} ArtifactByHistory(log: seq<Event>)
    ensures LastArtifact(log).None? <==> forall e :: e in log ==> ArtifactOf(e).None?
    ensures LastArtifact(log).Some? ==>
              exists i :: 0 <= i < |log| && ArtifactOf(log[i]) == LastArtifact(log) &&
                forall j :: i < j < |log| ==> ArtifactOf(log[j]).None?
  {
    if log != [] {
      var front, last := log[..|log| - 1], Last(log);
      assert log == front + [last];
      if ArtifactOf(last).Some? {
        assert log[|log| - 1] == last;
      } else {
        ArtifactByHistory(front);
        if LastArtifact(log).Some? {
          var i :| 0 <= i < |front| && ArtifactOf(front[i]) == LastArtifact(front) &&
            forall j :: i < j < |front| ==> ArtifactOf(front[j]).None?;
          forall j | i < j < |log| ensures ArtifactOf(log[j]).None? {
            if j < |front| { assert log[j] == front[j]; }
          }
          assert ArtifactOf(log[i]) == LastArtifact(log);
        }
      }
    }
  }

  // ----- failures -----

  predicate Closes(event: Event, failureId: string) {
    event.eventType in {WorkFailure, WorkFailureResolved} && FailureId(event) == failureId
  }

  predicate ClosedBy(failureId: string, log: seq<Event>) {
    exists i :: 0 <= i < |log| && Closes(log[i], failureId)
  }

  /** The entries of the failures with no later failure or resolution of their id, oldest first. */
  function UnresolvedById(log: seq<Event>): seq<string> {
    if log == [] then []
    else if log[0].eventType == WorkFailure && !ClosedBy(FailureId(log[0]), log[1..]) then
      [Entry(log[0])] + UnresolvedById(log[1..])
    else UnresolvedById(log[1..])
  }

  predicate ColonFree(s: string) {
    ':' !in s
  }

  // An entry's prefixes that end in a colon.
  lemma ColonPrefix(id: string, detail: string, other: string)
    requires other + ":" <= id + ": " + detail && other != id
    ensures !ColonFree(id) || (!ColonFree(detail) && !ColonFree(other))
  {
    var entry := id + ": " + detail;
    assert entry[|other|] == (other + ":")[|other|] == ':';
    assert entry[..|id|] == id && entry[..|other|] == other;
    if |other| < |id| {
      assert id[|other|] == ':';
    } else {
      assert other[|id|] == entry[|id|] == ':';
      assert |other| > |id| + 1;
      assert detail[|other| - |id| - 2] == ':';
    }
  }

  lemma OwnPrefix(id: string, detail: string)
    ensures id + ":" <= id + ": " + detail
  {
    assert id + ": " + detail == id + ":" + (" " + detail);
  }

  predicate FailureIdsColonFree(log: seq<Event>) {
    forall i :: 0 <= i < |log| && log[i].eventType in {WorkFailure, WorkFailureResolved} ==>
                  ColonFree(FailureId(log[i]))
  }

  /** With colon-free ids, exactly the failures whose last report has no later resolution are open. */
  lemma {:induction false} UnresolvedByHistory(log: seq<Event>)
    requires FailureIdsColonFree(log)
    ensures Unresolved(log) == UnresolvedById(log)
  {
    if log != [] {
      assert forall i :: 0 <= i < |log[1..]| ==> log[1..][i] == log[i + 1];
      UnresolvedByHistory(log[1..]);
      if log[0].eventType == WorkFailure {
        forall i | 0 <= i < |log[1..]|
          ensures Clears(log[1..][i], Entry(log[0])) <==> Closes(log[1..][i], FailureId(log[0]))
        {
          var event := log[1..][i];
          OwnPrefix(FailureId(log[0]), Detail(log[0]));
          if Clears(event, Entry(log[0])) && FailureId(event) != FailureId(log[0]) {
            assert ColonFree(FailureId(log[i + 1]));
            ColonPrefix(FailureId(log[0]), Detail(log[0]), FailureId(event));
          }
        }
      }
    }
  }

  /**
   A failure can be closed only under its own id, whatever events follow, exactly
   when neither its id nor its detail contains a colon.
   */
  lemma FailureIsIsolatedIff(failure: Event)
    requires failure.eventType == WorkFailure
    ensures (forall later :: ClearedBy(Entry(failure), later) <==> ClosedBy(FailureId(failure), later)) <==>
            ColonFree(FailureId(failure)) && ColonFree(Detail(failure))
  {
    var id, detail := FailureId(failure), Detail(failure);
    if ColonFree(id) && ColonFree(detail) {
      forall later ensures ClearedBy(Entry(failure), later) <==> ClosedBy(id, later) {
        forall i | 0 <= i < |later| ensures Clears(later[i], Entry(failure)) <==> Closes(later[i], id) {
          OwnPrefix(id, detail);
          if Clears(later[i], Entry(failure)) && FailureId(later[i]) != id {
            ColonPrefix(id, detail, FailureId(later[i]));
          }
        }
      }
    } else {
      var other := AnotherColon(id, detail);
      var stray := Event("", WorkFailureResolved, map["failure_id" := Str(other)]);
      assert FailureId(stray) == other && Clears(stray, Entry(failure));
      assert [stray][0] == stray;
      assert ClearedBy(Entry(failure), [stray]) && !ClosedBy(id, [stray]);
    }
  }

  lemma AnotherColon(id: string, detail: string) returns (other: string)
    requires !ColonFree(id) || !ColonFree(detail)
    ensures other != id && other + ":" <= id + ": " + detail
  {
    var entry := id + ": " + detail;
    if !ColonFree(id) {
      var i :| 0 <= i < |id| && id[i] == ':';
      other := id[..i];
      assert entry[..i + 1] == other + ":";
    } else {
      var i :| 0 <= i < |detail| && detail[i] == ':';
      other := id + ": " + detail[..i];
      assert entry[..|other| + 1] == other + ":" by {
        assert detail == detail[..i] + [':'] + detail[i + 1..];
        assert entry == other + [':'] + detail[i + 1..];
      }
    }
  }

  /** A resolution of "db" also drops the open failure "db:1". */
  lemma ResolutionDropsAnotherFailure()
    ensures var failure := Event("e1", WorkFailure, map["failure_id" := Str("db:1"), "detail" := Str("lost")]);
            var resolution := Event("e2", WorkFailureResolved, map["failure_id" := Str("db")]);
            Unresolved([failure, resolution]) == [] && UnresolvedById([failure, resolution]) == [Entry(failure)]
  {
    var failure := Event("e1", WorkFailure, map["failure_id" := Str("db:1"), "detail" := Str("lost")]);
    var resolution := Event("e2", WorkFailureResolved, map["failure_id" := Str("db")]);
    PairOfEvents(failure, resolution);
    hide Detail;
    assert FailureId(failure) == "db:1" && FailureId(resolution) == "db";
    assert Entry(failure) == "db" + ":" + ("1: " + Detail(failure));
    assert Clears(resolution, Entry(failure)) && !Closes(resolution, "db:1");
  }

  // A failure followed by a resolution that clears its entry under another id.
  lemma PairOfEvents(failure: Event, resolution: Event)
    requires failure.eventType == WorkFailure && resolution.eventType == WorkFailureResolved
    ensures Clears(resolution, Entry(failure)) ==> Unresolved([failure, resolution]) == []
    ensures !Closes(resolution, FailureId(failure)) ==> UnresolvedById([failure, resolution]) == [Entry(failure)]
  {
    var log, rest := [failure, resolution], [resolution];
    assert log[0] == failure && rest[0] == resolution;
    assert log[1..] == rest;
    assert rest[1..] == [];
    assert Unresolved(rest) == Unresolved(rest[1..]) && UnresolvedById(rest) == UnresolvedById(rest[1..]);
    if Clears(resolution, Entry(failure)) {
      assert Clears(rest[0], Entry(failure));
    }
    if !Closes(resolution, FailureId(failure)) {
      assert forall i :: 0 <= i < |rest| ==> !Closes(rest[i], FailureId(failure));
    }
  }

  // ----- redelivery, and the events of other contracts -----

  // Every open entry is one a report in the log would itself replace.
  lemma {:induction false} UnresolvedAreReported(log: seq<Event>, entry: string)
    requires entry in Unresolved(log)
    ensures ClearedBy(entry, log)
  {
    if entry in Unresolved(log[1..]) {
      UnresolvedAreReported(log[1..], entry);
      var i :| 0 <= i < |log[1..]| && Clears(log[1..][i], entry);
      assert Clears(log[i + 1], entry);
    } else {
      OwnPrefix(FailureId(log[0]), Detail(log[0]));
      assert Clears(log[0], entry);
    }
  }

  function Uncleared(entries: seq<string>, log: seq<Event>): seq<string> {
    if entries == [] then []
    else if ClearedBy(entries[0], log) then Uncleared(entries[1..], log)
    else [entries[0]] + Uncleared(entries[1..], log)
  }

  lemma {:induction false} UnresolvedConcat(log: seq<Event>, more: seq<Event>)
    ensures Unresolved(log + more) == Uncleared(Unresolved(log), more) + Unresolved(more)
  {
    if log == [] {
      assert log + more == more;
    } else {
      assert (log + more)[1..] == log[1..] + more;
      UnresolvedConcat(log[1..], more);
      ClearedByConcat(Entry(log[0]), log[1..], more);
    }
  }

  lemma ClearedByConcat(entry: string, log: seq<Event>, more: seq<Event>)
    ensures ClearedBy(entry, log + more) <==> ClearedBy(entry, log) || ClearedBy(entry, more)
  {
    var all := log + more;
    forall i | 0 <= i < |all| ensures Clears(all[i], entry) ==> ClearedBy(entry, log) || ClearedBy(entry, more) {
      if i < |log| { assert all[i] == log[i]; } else { assert all[i] == more[i - |log|]; }
    }
    forall i | 0 <= i < |log| ensures Clears(log[i], entry) ==> ClearedBy(entry, all) {
      assert all[i] == log[i];
    }
    forall i | 0 <= i < |more| ensures Clears(more[i], entry) ==> ClearedBy(entry, all) {
      assert all[|log| + i] == more[i];
    }
  }

  lemma {:induction false} UnclearedTwice(entries: seq<string>, log: seq<Event>)
    ensures Uncleared(Uncleared(entries, log), log) == Uncleared(entries, log)
  {
    if entries != [] {
      UnclearedTwice(entries[1..], log);
    }
  }

  lemma {:induction false} UnclearedNone(entries: seq<string>, log: seq<Event>)
    requires forall x :: x in entries ==> ClearedBy(x, log)
    ensures Uncleared(entries, log) == []
  {
    if entries != [] {
      UnclearedNone(entries[1..], log);
    }
  }

  lemma {:induction false} UnclearedConcat(a: seq<string>, b: seq<string>, log: seq<Event>)
    ensures Uncleared(a + b, log) == Uncleared(a, log) + Uncleared(b, log)
  {
    if a == [] {
      assert a + b == b;
    } else {
      assert (a + b)[1..] == a[1..] + b;
      UnclearedConcat(a[1..], b, log);
    }
  }

  lemma RedeliveryKeepsFailures(log: seq<Event>, tail: seq<Event>)
    ensures Unresolved(log + tail + tail) == Unresolved(log + tail)
  {
    hide Unresolved, Uncleared, ClearedBy;
    UnresolvedConcat(log, tail);
    UnresolvedConcat(log + tail, tail);
    UnclearedConcat(Uncleared(Unresolved(log), tail), Unresolved(tail), tail);
    UnclearedTwice(Unresolved(log), tail);
    forall x | x in Unresolved(tail) ensures ClearedBy(x, tail) {
      UnresolvedAreReported(tail, x);
    }
    UnclearedNone(Unresolved(tail), tail);
  }

  lemma {:induction false} NotesConcat(log: seq<Event>, more: seq<Event>, note: Note)
    ensures Notes(log + more, note) == Notes(log, note) + Notes(more, note)
  {
    hide NoteOf, Notes;
    if more == [] {
      assert log + more == log;
      NotesOfNothing(note);
    } else {
      var front, last := more[..|more| - 1], Last(more);
      NotesConcat(log, front, note);
      assert more == front + [last] && log + more == (log + front) + [last];
      NotesSnoc(log + front, last, note);
      NotesSnoc(front, last, note);
    }
  }

  lemma NotesOfNothing(note: Note)
    ensures Notes([], note) == []
  {
  }

  lemma {:induction false} FirstSeenAbsorbs(facts: seq<Fact>, more: seq<Fact>)
    requires forall f :: f in more ==> f.text in Texts(facts)
    ensures FirstSeen(facts + more) == FirstSeen(facts)
  {
    if more == [] {
      assert facts + more == facts;
    } else {
      var front, last := more[..|more| - 1], Last(more);
      FirstSeenAbsorbs(facts, front);
      assert facts + more == (facts + front) + [last];
      FirstSeenSnoc(facts + front, last);
      TextsConcat(facts, front, last.text);
    }
  }

  lemma {:induction false} TextsConcat(facts: seq<Fact>, more: seq<Fact>, text: string)
    ensures text in Texts(facts + more) <==> text in Texts(facts) || text in Texts(more)
  {
    if more == [] {
      assert facts + more == facts;
    } else {
      TextsConcat(facts, more[..|more| - 1], text);
      assert facts + more == (facts + more[..|more| - 1]) + [Last(more)];
      TextsSnoc(facts + more[..|more| - 1], Last(more));
    }
  }

  lemma {:induction false} TextsHold(facts: seq<Fact>, fact: Fact)
    requires fact in facts
    ensures fact.text in Texts(facts)
  {
    if fact != Last(facts) {
      TextsHold(facts[..|facts| - 1], fact);
    }
  }

  lemma RedeliveryKeepsNotes(log: seq<Event>, tail: seq<Event>, note: Note)
    ensures FirstSeen(Notes(log + tail + tail, note)) == FirstSeen(Notes(log + tail, note))
    ensures forall t :: t in Texts(Notes(log + tail + tail, note)) <==> t in Texts(Notes(log + tail, note))
  {
    var before, again := Notes(log + tail, note), Notes(tail, note);
    NotesConcat(log, tail, note);
    NotesConcat(log + tail, tail, note);
    forall f | f in again ensures f.text in Texts(before) {
      TextsHold(before, f);
    }
    FirstSeenAbsorbs(before, again);
    forall t ensures t in Texts(before + again) <==> t in Texts(before) {
      TextsConcat(before, again, t);
      TextsConcat(Notes(log, note), again, t);
    }
  }

  lemma {:induction false} WithoutByMembers(items: seq<string>, dropped: seq<string>, dropped': seq<string>)
    requires forall t :: t in dropped <==> t in dropped'
    ensures Without(items, dropped) == Without(items, dropped')
  {
    if items != [] {
      WithoutByMembers(items[..|items| - 1], dropped, dropped');
    }
  }

  lemma {:induction false} LastArtifactConcat(log: seq<Event>, more: seq<Event>)
    ensures LastArtifact(log + more) == if LastArtifact(more).Some? then LastArtifact(more) else LastArtifact(log)
  {
    if more == [] {
      assert log + more == log;
    } else {
      LastArtifactConcat(log, more[..|more| - 1]);
      assert log + more == (log + more[..|more| - 1]) + [Last(more)];
      LastArtifactSnoc(log + more[..|more| - 1], Last(more));
    }
  }

  /** Delivering the tail of a log a second time changes nothing in the checkpoint. */
  lemma RedeliveryChangesNothing(log: seq<Event>, tail: seq<Event>)
    ensures var once, twice := log + tail, log + tail + tail;
            && Facts(twice) == Facts(once) && Constraints(twice) == Constraints(once)
            && Completed(twice) == Completed(once) && Remaining(twice) == Remaining(once)
            && Unresolved(twice) == Unresolved(once)
            && LastArtifact(twice) == LastArtifact(once) && Through(twice) == Through(once)
  {
    forall note: Note
      ensures FirstSeen(Notes(log + tail + tail, note)) == FirstSeen(Notes(log + tail, note))
    {
      RedeliveryKeepsNotes(log, tail, note);
    }
    RedeliveryKeepsNotes(log, tail, OfCompleted);
    WithoutByMembers(Texts(FirstSeen(Notes(log + tail, OfRemaining))),
                     Texts(Notes(log + tail + tail, OfCompleted)), Texts(Notes(log + tail, OfCompleted)));
    RedeliveryKeepsFailures(log, tail);
    LastArtifactConcat(log, tail);
    LastArtifactConcat(log + tail, tail);
    if tail == [] { assert log + tail + tail == log + tail; }
  }

  /** Another contract's event, wherever it stands, leaves the contract's own log as it is. */
  lemma {:induction false} OthersDoNotMatter(before: seq<Event>, event: Event, after: seq<Event>, contractId: string)
    requires !Belongs(event, contractId)
    ensures Own(before + [event] + after, contractId) == Own(before + after, contractId)
  {
    if after == [] {
      assert (before + [event] + after)[..|before|] == before && before + after == before;
    } else {
      var front, last := after[..|after| - 1], Last(after);
      OthersDoNotMatter(before, event, front, contractId);
      assert (before + [event] + after)[..|before + [event] + after| - 1] == before + [event] + front;
      assert (before + after)[..|before + after| - 1] == before + front;
    }
  }

  lemma {:induction false} OwnEventsStay(events: seq<Event>, contractId: string)
    requires forall e :: e in events ==> Belongs(e, contractId)
    ensures Own(events, contractId) == events
  {
    if events != [] {
      OwnEventsStay(events[..|events| - 1], contractId);
    }
  }
}
