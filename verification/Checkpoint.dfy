/** Checkpoints of a work contract, materialised from its events in append order. */
module Checkpoint {
  import opened Basics
  import opened Text

  datatype EventType =
    | WorkFact
    | WorkConstraint
    | WorkSubgoal
    | WorkFailure
    | WorkFailureResolved
    | WorkArtifactVerified
    | Unrelated

  // A JSON value: a string, or anything else as the string str() makes of it.
  datatype Value = Str(text: string) | Other(text: string)

  datatype Event = Event(id: string, eventType: EventType, payload: map<string, Value>)

  datatype Fact = Fact(text: string, source: string)

  datatype Artifact = Artifact(fingerprint: string, description: string, source: string)

  function Get(event: Event, key: string, default: string): string {
    if key in event.payload then event.payload[key].text else default
  }

  // The value is this very string, not merely shown like it.
  predicate Equals(event: Event, key: string, text: string) {
    key in event.payload && event.payload[key] == Str(text)
  }

  function TextOf(event: Event): string {
    Strip(Get(event, "text", ""))
  }

  // ----- what each kind of event contributes -----

  datatype Note = OfFact | OfConstraint | OfCompleted | OfRemaining

  function NoteOf(event: Event): Option<Note> {
    if TextOf(event) == "" then None
    else match event.eventType
      case WorkFact => Some(OfFact)
      case WorkConstraint => Some(OfConstraint)
      case WorkSubgoal =>
        if Equals(event, "state", "completed") then Some(OfCompleted)
        else if Equals(event, "state", "remaining") then Some(OfRemaining)
        else None
      case _ => None
  }

  /** Every text noted under `note`, oldest first, with the event that noted it. */
  function Notes(log: seq<Event>, note: Note): seq<Fact> {
    if log == [] then []
    else
      var older := Notes(log[..|log| - 1], note);
      if NoteOf(Last(log)) == Some(note) then older + [Fact(TextOf(Last(log)), Last(log).id)] else older
  }

  function Texts(facts: seq<Fact>): seq<string> {
    if facts == [] then [] else Texts(facts[..|facts| - 1]) + [Last(facts).text]
  }

  function Keys(facts: seq<Fact>): set<string> {
    set t | t in Texts(facts)
  }

  /** The facts whose text no earlier fact has. */
  function FirstSeen(facts: seq<Fact>): seq<Fact> {
    if facts == [] then []
    else
      var front := facts[..|facts| - 1];
      if Last(facts).text in Texts(front) then FirstSeen(front) else FirstSeen(front) + [Last(facts)]
  }

  function Without(items: seq<string>, dropped: seq<string>): seq<string> {
    if items == [] then []
    else
      var front := Without(items[..|items| - 1], dropped);
      if Last(items) in dropped then front else front + [Last(items)]
  }

  function FailureId(event: Event): string {
    Get(event, "failure_id", if event.eventType == WorkFailure then event.id else "")
  }

  function Detail(event: Event): string {
    Strip(Get(event, "detail", FailureId(event)))
  }

  function Entry(event: Event): string {
    FailureId(event) + ": " + Detail(event)
  }

  // A new failure replaces the entries a resolution of the same id would drop.
  predicate Clears(event: Event, entry: string) {
    event.eventType in {WorkFailure, WorkFailureResolved} && FailureId(event) + ":" <= entry
  }

  predicate ClearedBy(entry: string, log: seq<Event>) {
    exists i :: 0 <= i < |log| && Clears(log[i], entry)
  }

  /** The entries of the failures nothing later clears, oldest first. */
  function Unresolved(log: seq<Event>): seq<string> {
    if log == [] then []
    else if log[0].eventType == WorkFailure && !ClearedBy(Entry(log[0]), log[1..]) then
      [Entry(log[0])] + Unresolved(log[1..])
    else Unresolved(log[1..])
  }

  function ArtifactOf(event: Event): Option<Artifact> {
    var fingerprint := Strip(Get(event, "fingerprint", ""));
    if event.eventType != WorkArtifactVerified || fingerprint == "" then None
    else Some(Artifact(fingerprint, Get(event, "description", ""), event.id))
  }

  function LastArtifact(log: seq<Event>): Option<Artifact> {
    if log == [] then None
    else if ArtifactOf(Last(log)).Some? then ArtifactOf(Last(log))
    else LastArtifact(log[..|log| - 1])
  }

  // ----- in-place list updates -----

  function AppendUnique(values: seq<string>, text: string): seq<string> {
    if text != "" && text !in values then values + [text] else values
  }

  function NotStarting(items: seq<string>, prefix: string): seq<string> {
    if items == [] then []
    else if prefix <= items[0] then NotStarting(items[1..], prefix)
    else [items[0]] + NotStarting(items[1..], prefix)
  }

  // ----- the checkpoint as a function of the whole log -----

  function Facts(log: seq<Event>): seq<Fact> { FirstSeen(Notes(log, OfFact)) }

  function Constraints(log: seq<Event>): seq<string> { Texts(FirstSeen(Notes(log, OfConstraint))) }

  function Completed(log: seq<Event>): seq<string> { Texts(FirstSeen(Notes(log, OfCompleted))) }

  function Remaining(log: seq<Event>): seq<string> {
    Without(Texts(FirstSeen(Notes(log, OfRemaining))), Texts(Notes(log, OfCompleted)))
  }

  function Through(log: seq<Event>): Option<string> {
    if log == [] then None else Some(Last(log).id)
  }

  predicate Belongs(event: Event, contractId: string) {
    Equals(event, "contract_id", contractId)
  }

  function Own(events: seq<Event>, contractId: string): (own: seq<Event>)
    ensures forall e :: e in own <==> e in events && Belongs(e, contractId)
  {
    if events == [] then []
    else
      var older := Own(events[..|events| - 1], contractId);
      if Belongs(Last(events), contractId) then older + [Last(events)] else older
  }

  // ----- how the definitions grow with the log -----

  lemma NotesSnoc(log: seq<Event>, event: Event, note: Note)
    ensures Notes(log + [event], note) ==
            if NoteOf(event) == Some(note) then Notes(log, note) + [Fact(TextOf(event), event.id)] else Notes(log, note)
  {
    assert (log + [event])[..|log|] == log;
  }

  lemma FirstSeenSnoc(facts: seq<Fact>, fact: Fact)
    ensures FirstSeen(facts + [fact]) ==
            if fact.text in Texts(facts) then FirstSeen(facts) else FirstSeen(facts) + [fact]
  {
    assert (facts + [fact])[..|facts|] == facts;
  }

  lemma TextsSnoc(facts: seq<Fact>, fact: Fact)
    ensures Texts(facts + [fact]) == Texts(facts) + [fact.text]
  {
    assert (facts + [fact])[..|facts|] == facts;
  }

  lemma {:induction false} FirstSeenTexts(facts: seq<Fact>, text: string)
    ensures text in Texts(FirstSeen(facts)) <==> text in Texts(facts)
  {
    if facts != [] {
      var front := facts[..|facts| - 1];
      FirstSeenTexts(front, text);
      TextsSnoc(FirstSeen(front), Last(facts));
    }
  }

  lemma AppendUniqueIsFirstSeen(facts: seq<Fact>, fact: Fact)
    requires fact.text != ""
    ensures AppendUnique(Texts(FirstSeen(facts)), fact.text) == Texts(FirstSeen(facts + [fact]))
  {
    FirstSeenTexts(facts, fact.text);
    FirstSeenSnoc(facts, fact);
    TextsSnoc(FirstSeen(facts), fact);
  }

  lemma WithoutSnoc(items: seq<string>, item: string, dropped: seq<string>)
    ensures Without(items + [item], dropped) ==
            if item in dropped then Without(items, dropped) else Without(items, dropped) + [item]
  {
    assert (items + [item])[..|items|] == items;
  }

  lemma {:induction false} WithoutTwice(items: seq<string>, dropped: seq<string>, item: string)
    ensures Without(Without(items, dropped), [item]) == Without(items, dropped + [item])
  {
    if items != [] {
      var front := items[..|items| - 1];
      WithoutTwice(front, dropped, item);
      if Last(items) !in dropped {
        WithoutSnoc(Without(front, dropped), Last(items), [item]);
      }
    }
  }

  lemma FactsSnoc(log: seq<Event>, event: Event)
    ensures Facts(log + [event]) ==
            if NoteOf(event) == Some(OfFact) && TextOf(event) !in Texts(Facts(log))
            then Facts(log) + [Fact(TextOf(event), event.id)] else Facts(log)
  {
    NotesSnoc(log, event, OfFact);
    FirstSeenTexts(Notes(log, OfFact), TextOf(event));
    FirstSeenSnoc(Notes(log, OfFact), Fact(TextOf(event), event.id));
  }

  lemma ConstraintsSnoc(log: seq<Event>, event: Event)
    ensures Constraints(log + [event]) ==
            if NoteOf(event) == Some(OfConstraint) then AppendUnique(Constraints(log), TextOf(event))
            else Constraints(log)
  {
    NotesSnoc(log, event, OfConstraint);
    if NoteOf(event) == Some(OfConstraint) {
      AppendUniqueIsFirstSeen(Notes(log, OfConstraint), Fact(TextOf(event), event.id));
    }
  }

  lemma CompletedSnoc(log: seq<Event>, event: Event)
    ensures Completed(log + [event]) ==
            if NoteOf(event) == Some(OfCompleted) then AppendUnique(Completed(log), TextOf(event)) else Completed(log)
  {
    NotesSnoc(log, event, OfCompleted);
    if NoteOf(event) == Some(OfCompleted) {
      AppendUniqueIsFirstSeen(Notes(log, OfCompleted), Fact(TextOf(event), event.id));
    }
  }

  lemma RemainingSnoc(log: seq<Event>, event: Event)
    ensures Remaining(log + [event]) ==
            if NoteOf(event) == Some(OfCompleted) then Without(Remaining(log), [TextOf(event)])
            else if NoteOf(event) == Some(OfRemaining) && TextOf(event) !in Completed(log)
            then AppendUnique(Remaining(log), TextOf(event))
            else Remaining(log)
  {
    NotesSnoc(log, event, OfCompleted);
    NotesSnoc(log, event, OfRemaining);
    var done, marked := Notes(log, OfCompleted), Notes(log, OfRemaining);
    if NoteOf(event) == Some(OfCompleted) {
      TextsSnoc(done, Fact(TextOf(event), event.id));
      WithoutTwice(Texts(FirstSeen(marked)), Texts(done), TextOf(event));
    } else if NoteOf(event) == Some(OfRemaining) {
      MarkedRemaining(marked, done, Fact(TextOf(event), event.id));
    }
  }

  lemma MarkedRemaining(marked: seq<Fact>, done: seq<Fact>, fact: Fact)
    requires fact.text != ""
    ensures Without(Texts(FirstSeen(marked + [fact])), Texts(done)) ==
            var before := Without(Texts(FirstSeen(marked)), Texts(done));
            if fact.text in Texts(FirstSeen(done)) then before else AppendUnique(before, fact.text)
  {
    FirstSeenTexts(done, fact.text);
    AppendUniqueIsFirstSeen(marked, fact);
    WithoutSnoc(Texts(FirstSeen(marked)), fact.text, Texts(done));
    WithoutMembers(Texts(FirstSeen(marked)), Texts(done), fact.text);
  }

  lemma {:induction false} WithoutMembers(items: seq<string>, dropped: seq<string>, item: string)
    ensures item in Without(items, dropped) <==> item in items && item !in dropped
  {
    if items != [] {
      WithoutMembers(items[..|items| - 1], dropped, item);
    }
  }

  lemma LastArtifactSnoc(log: seq<Event>, event: Event)
    ensures LastArtifact(log + [event]) == if ArtifactOf(event).Some? then ArtifactOf(event) else LastArtifact(log)
  {
    assert (log + [event])[..|log|] == log;
  }

  lemma ClearedBySnoc(entry: string, log: seq<Event>, event: Event)
    ensures ClearedBy(entry, log + [event]) <==> ClearedBy(entry, log) || Clears(event, entry)
  {
    var longer := log + [event];
    assert longer[|log|] == event;
    assert forall i :: 0 <= i < |log| ==> longer[i] == log[i];
  }

  function Kept(entries: seq<string>, event: Event): seq<string> {
    if event.eventType !in {WorkFailure, WorkFailureResolved} then entries
    else NotStarting(entries, FailureId(event) + ":")
  }

  /** What one more event does to the failures: drop what it clears, then add what it reports. */
  lemma {:induction false} UnresolvedSnoc(log: seq<Event>, event: Event)
    ensures Unresolved(log + [event]) ==
            if event.eventType == WorkFailure then Kept(Unresolved(log), event) + [Entry(event)]
            else Kept(Unresolved(log), event)
  {
    var longer := log + [event];
    if log == [] {
      assert longer[1..] == [];
      assert !ClearedBy(Entry(event), []);
    } else {
      var entry, tail := Entry(log[0]), Unresolved(log[1..]);
      UnresolvedSnoc(log[1..], event);
      assert longer[1..] == log[1..] + [event];
      ClearedBySnoc(entry, log[1..], event);
      KeptCons(entry, tail, event);
    }
  }

  lemma KeptCons(entry: string, entries: seq<string>, event: Event)
    ensures Kept([entry] + entries, event) ==
            if Clears(event, entry) then Kept(entries, event) else [entry] + Kept(entries, event)
  {
  }

  // A field is only affected by its own kinds of event.
  lemma FieldsSnoc(log: seq<Event>, event: Event)
    ensures event.eventType != WorkFact ==> Facts(log + [event]) == Facts(log)
    ensures event.eventType != WorkConstraint ==> Constraints(log + [event]) == Constraints(log)
    ensures event.eventType != WorkSubgoal ==> Completed(log + [event]) == Completed(log)
    ensures event.eventType != WorkSubgoal ==> Remaining(log + [event]) == Remaining(log)
    ensures event.eventType !in {WorkFailure, WorkFailureResolved} ==> Unresolved(log + [event]) == Unresolved(log)
    ensures event.eventType != WorkArtifactVerified ==> LastArtifact(log + [event]) == LastArtifact(log)
  {
    FactsSnoc(log, event);
    ConstraintsSnoc(log, event);
    CompletedSnoc(log, event);
    RemainingSnoc(log, event);
    UnresolvedSnoc(log, event);
    LastArtifactSnoc(log, event);
  }

  class WorkCheckpoint {
    const contractId: string
    var facts: seq<Fact>
    var activeConstraints: seq<string>
    var completedSubgoals: seq<string>
    var remainingSubgoals: seq<string>
    var unresolvedFailures: seq<string>
    var artifact: Option<Artifact>
    var throughEventId: Option<string>
    // The contract's events so far.
    ghost var log: seq<Event>

    ghost predicate Replayed()
      reads this
    {
      && facts == Facts(log)
      && activeConstraints == Constraints(log)
      && completedSubgoals == Completed(log)
      && remainingSubgoals == Remaining(log)
      && unresolvedFailures == Unresolved(log)
      && artifact == LastArtifact(log)
    }

    /** Every field is the function of the log that bears its name. */
    ghost predicate Valid()
      reads this
    {
      Replayed() && throughEventId == Through(log)
    }

    constructor (contractId: string)
      ensures Valid() && log == [] && Keys(facts) == {} && this.contractId == contractId
    {
      this.contractId := contractId;
      facts, activeConstraints, completedSubgoals, remainingSubgoals, unresolvedFailures := [], [], [], [], [];
      artifact, throughEventId, log := None, None, [];
    }

    method ApplyFact(event: Event, factKeys: set<string>) returns (keys: set<string>)
      requires facts == Facts(log) && event.eventType == WorkFact
      requires factKeys == Keys(facts)
      modifies this`facts
      ensures facts == Facts(log + [event])
      ensures keys == Keys(facts)
    {
      hide Facts, Texts;
      FactsSnoc(log, event);
      var text := TextOf(event);
      keys := factKeys;
      if text != "" && text !in factKeys {
        facts := facts + [Fact(text, event.id)];
        keys := keys + {text};
        TextsSnoc(old(facts), Fact(text, event.id));
      }
    }

    method ApplyConstraint(event: Event)
      requires activeConstraints == Constraints(log) && event.eventType == WorkConstraint
      modifies this`activeConstraints
      ensures activeConstraints == Constraints(log + [event])
    {
      ConstraintsSnoc(log, event);
      activeConstraints := AppendUnique(activeConstraints, TextOf(event));
    }

    method ApplySubgoal(event: Event)
      requires completedSubgoals == Completed(log) && remainingSubgoals == Remaining(log)
      requires event.eventType == WorkSubgoal
      modifies this`completedSubgoals, this`remainingSubgoals
      ensures completedSubgoals == Completed(log + [event]) && remainingSubgoals == Remaining(log + [event])
    {
      CompletedSnoc(log, event);
      RemainingSnoc(log, event);
      var text := TextOf(event);
      if text == "" {
        return;
      }
      if Equals(event, "state", "completed") {
        completedSubgoals := AppendUnique(completedSubgoals, text);
        remainingSubgoals := Without(remainingSubgoals, [text]);
      } else if Equals(event, "state", "remaining") && text !in completedSubgoals {
        remainingSubgoals := AppendUnique(remainingSubgoals, text);
      }
    }

    method ApplyFailure(event: Event)
      requires unresolvedFailures == Unresolved(log) && event.eventType == WorkFailure
      modifies this`unresolvedFailures
      ensures unresolvedFailures == Unresolved(log + [event])
    {
      unresolvedFailures := NotStarting(unresolvedFailures, FailureId(event) + ":");
      unresolvedFailures := unresolvedFailures + [Entry(event)];
      UnresolvedSnoc(log, event);
    }

    method ApplyFailureResolution(event: Event)
      requires unresolvedFailures == Unresolved(log) && event.eventType == WorkFailureResolved
      modifies this`unresolvedFailures
      ensures unresolvedFailures == Unresolved(log + [event])
    {
      unresolvedFailures := NotStarting(unresolvedFailures, FailureId(event) + ":");
      UnresolvedSnoc(log, event);
    }

    method ApplyArtifact(event: Event)
      requires artifact == LastArtifact(log) && event.eventType == WorkArtifactVerified
      modifies this`artifact
      ensures artifact == LastArtifact(log + [event])
    {
      var fingerprint := Strip(Get(event, "fingerprint", ""));
      if fingerprint != "" {
        artifact := Some(Artifact(fingerprint, Get(event, "description", ""), event.id));
      }
      LastArtifactSnoc(log, event);
    }

    method ApplyEvent(event: Event, factKeys: set<string>) returns (keys: set<string>)
      requires Replayed() && factKeys == Keys(facts)
      modifies this
      ensures Replayed() && log == old(log) + [event] && throughEventId == old(throughEventId)
      ensures keys == Keys(facts)
    {
      hide Facts, Constraints, Completed, Remaining, Unresolved, LastArtifact, Keys;
      FieldsSnoc(log, event);
      keys := factKeys;
      match event.eventType {
        case WorkFact => keys := ApplyFact(event, factKeys);
        case WorkConstraint => ApplyConstraint(event);
        case WorkSubgoal => ApplySubgoal(event);
        case WorkFailure => ApplyFailure(event);
        case WorkFailureResolved => ApplyFailureResolution(event);
        case WorkArtifactVerified => ApplyArtifact(event);
        case Unrelated =>
      }
      log := log + [event];
    }
  }

  /** Replaying an event log gives the checkpoint defined by the contract's own events. */
  method MaterializeCheckpoint(contractId: string, events: seq<Event>) returns (checkpoint: WorkCheckpoint)
    ensures fresh(checkpoint) && checkpoint.contractId == contractId
    ensures checkpoint.Valid() && checkpoint.log == Own(events, contractId)
  {
    hide Facts, Constraints, Completed, Remaining, Unresolved, LastArtifact, Keys;
    checkpoint := new WorkCheckpoint(contractId);
    var factKeys: set<string> := {};
    for i := 0 to |events|
      invariant fresh(checkpoint) && checkpoint.contractId == contractId
      invariant checkpoint.Valid() && checkpoint.log == Own(events[..i], contractId)
      invariant factKeys == Keys(checkpoint.facts)
    {
      var event := events[i];
      assert events[..i + 1][..i] == events[..i];
      if !Belongs(event, contractId) {
        continue;
      }
      checkpoint.throughEventId := Some(event.id);
      factKeys := checkpoint.ApplyEvent(event, factKeys);
    }
    assert events[..|events|] == events;
  }
}
