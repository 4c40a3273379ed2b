/** The digest of a checkpoint: what it lists, in which order, and how it is laid out. */
module DigestRendering {
  import opened Basics
  import opened Checkpoint
  import opened Digest

  // ----- what there is to list -----

  function DropDashes(s: string): (r: string)
    ensures r <= s && (r == "" || Last(r) !in " \U{2014}")
    ensures s != "" && Last(s) !in " \U{2014}" ==> r == s
  {
    if s != "" && Last(s) in " \U{2014}" then DropDashes(s[..|s| - 1]) else s
  }

  function Sections(checkpoint: WorkCheckpoint): (sections: seq<Section>)
    reads checkpoint
    ensures |sections| == 6
  {
    var artifact := checkpoint.artifact;
    [ Section("Verified artifact",
        if artifact.None? then []
        else [DropDashes(artifact.value.fingerprint + " \U{2014} " + artifact.value.description)]),
      Section("Active constraints", checkpoint.activeConstraints),
      Section("Unresolved failures", checkpoint.unresolvedFailures),
      Section("Remaining subgoals", checkpoint.remainingSubgoals),
      Section("Completed subgoals", checkpoint.completedSubgoals),
      Section("Facts", Texts(checkpoint.facts)) ]
  }

  // `line` is `full` without the blanks and dashes at its end.
  predicate Trimmed(full: string, line: string) {
    && line <= full && (line != "" ==> Last(line) != ' ' && Last(line) != '\U{2014}')
    && forall i :: |line| <= i < |full| ==> full[i] == ' ' || full[i] == '\U{2014}'
  }

  predicate ArtifactListed(artifact: Option<Artifact>, lines: seq<string>) {
    if artifact.None? then lines == []
    else |lines| == 1 && Trimmed(artifact.value.fingerprint + " \U{2014} " + artifact.value.description, lines[0])
  }

  function Newest(number: nat, title: string, texts: seq<string>): (items: seq<Item>)
    ensures |items| == |texts|
    ensures forall i :: 0 <= i < |texts| ==> items[i] == Item(number, title, texts[|texts| - 1 - i])
  {
    seq(|texts|, i requires 0 <= i < |texts| => Item(number, title, texts[|texts| - 1 - i]))
  }

  /** The items of a checkpoint in order of usefulness, each section's newest first. */
  function Considered(checkpoint: WorkCheckpoint, artifact: seq<string>): seq<Item>
    reads checkpoint
  {
    Newest(0, "Verified artifact", artifact)
    + Newest(1, "Active constraints", checkpoint.activeConstraints)
    + Newest(2, "Unresolved failures", checkpoint.unresolvedFailures)
    + Newest(3, "Remaining subgoals", checkpoint.remainingSubgoals)
    + Newest(4, "Completed subgoals", checkpoint.completedSubgoals)
    + Newest(5, "Facts", seq(|checkpoint.facts|, i requires 0 <= i < |checkpoint.facts| reads checkpoint =>
                               checkpoint.facts[i].text))
  }

  lemma {:induction false} DropsOnlyDashes(s: string)
    ensures Trimmed(s, DropDashes(s))
  {
    if s != "" && Last(s) in " \U{2014}" {
      DropsOnlyDashes(s[..|s| - 1]);
    }
  }

  lemma NewestIsNewestFirst(number: nat, section: Section)
    ensures NewestFirst(section, number) == Newest(number, section.title, section.items)
  {
  }

  lemma {:induction false} TextsAt(facts: seq<Fact>, i: nat)
    ensures |Texts(facts)| == |facts|
    ensures i < |facts| ==> Texts(facts)[i] == facts[i].text
  {
    if facts != [] {
      TextsAt(facts[..|facts| - 1], i);
    }
  }

  lemma FactTexts(checkpoint: WorkCheckpoint)
    ensures Texts(checkpoint.facts) ==
            seq(|checkpoint.facts|, i requires 0 <= i < |checkpoint.facts| reads checkpoint => checkpoint.facts[i].text)
  {
    TextsAt(checkpoint.facts, 0);
    forall i: nat | i < |checkpoint.facts| ensures Texts(checkpoint.facts)[i] == checkpoint.facts[i].text {
      TextsAt(checkpoint.facts, i);
    }
  }

  lemma SixSections(s: seq<Section>)
    requires |s| == 6
    ensures Items(s) == NewestFirst(s[0], 0) + NewestFirst(s[1], 1) + NewestFirst(s[2], 2) + NewestFirst(s[3], 3)
                        + NewestFirst(s[4], 4) + NewestFirst(s[5], 5)
  {
    NoItems(s);
    NextSection(s, 0);
    NextSection(s, 1);
    NextSection(s, 2);
    NextSection(s, 3);
    NextSection(s, 4);
    NextSection(s, 5);
    assert s[..6] == s && [] + NewestFirst(s[0], 0) == NewestFirst(s[0], 0);
  }

  /** The sections hold exactly the items considered. */
  lemma SectionsAreConsidered(checkpoint: WorkCheckpoint)
    ensures ArtifactListed(checkpoint.artifact, Sections(checkpoint)[0].items)
    ensures Items(Sections(checkpoint)) == Considered(checkpoint, Sections(checkpoint)[0].items)
  {
    var s := Sections(checkpoint);
    if checkpoint.artifact.Some? {
      DropsOnlyDashes(checkpoint.artifact.value.fingerprint + " \U{2014} " + checkpoint.artifact.value.description);
    }
    SixSections(s);
    FactTexts(checkpoint);
    NewestIsNewestFirst(0, s[0]);
    NewestIsNewestFirst(1, s[1]);
    NewestIsNewestFirst(2, s[2]);
    NewestIsNewestFirst(3, s[3]);
    NewestIsNewestFirst(4, s[4]);
    NewestIsNewestFirst(5, s[5]);
  }

  // ----- how it is laid out -----

  function Lines(texts: seq<string>): string {
    if texts == [] then "" else Lines(texts[..|texts| - 1]) + "\n- " + Last(texts)
  }

  // A section without items has no title.
  function Block(title: string, texts: seq<string>): string {
    if texts == [] then "" else "\n" + title + ":" + Lines(texts)
  }

  // The rendered items of a section, in order.
  function RenderedOf(choices: seq<Choice>, number: nat): seq<string> {
    if choices == [] then []
    else
      var before, c := RenderedOf(choices[..|choices| - 1], number), Last(choices);
      if c.rendered && c.item.section == number then before + [c.item.text] else before
  }

  /** The header, and below it each section that has rendered items as a block of its own. */
  function Layout(contractId: string, choices: seq<Choice>): string {
    "Work contract: " + contractId
    + Block("Verified artifact", RenderedOf(choices, 0))
    + Block("Active constraints", RenderedOf(choices, 1))
    + Block("Unresolved failures", RenderedOf(choices, 2))
    + Block("Remaining subgoals", RenderedOf(choices, 3))
    + Block("Completed subgoals", RenderedOf(choices, 4))
    + Block("Facts", RenderedOf(choices, 5))
  }

  const TITLES := ["Verified artifact", "Active constraints", "Unresolved failures", "Remaining subgoals",
                   "Completed subgoals", "Facts"]

  function Blocks(choices: seq<Choice>, n: nat): string
    requires n <= |TITLES|
  {
    if n == 0 then "" else Blocks(choices, n - 1) + Block(TITLES[n - 1], RenderedOf(choices, n - 1))
  }

  // Every item belongs to a section, and the sections come in order.
  predicate InOrder(choices: seq<Choice>) {
    && (forall c :: c in choices ==> c.item.section < |TITLES| && c.item.title == TITLES[c.item.section])
    && (forall i, j :: 0 <= i < j < |choices| ==> choices[i].item.section <= choices[j].item.section)
  }

  lemma {:induction false} RenderedOfNone(choices: seq<Choice>, number: nat)
    ensures RenderedOf(choices, number) == [] <==> !Titled(choices, number)
  {
    if choices != [] {
      var before, c := choices[..|choices| - 1], Last(choices);
      RenderedOfNone(before, number);
      assert choices == before + [c];
      assert forall x :: x in choices <==> x in before || x == c;
    }
  }

  lemma RenderedOfSnoc(choices: seq<Choice>, c: Choice, number: nat)
    ensures RenderedOf(choices + [c], number) ==
            if c.rendered && c.item.section == number then RenderedOf(choices, number) + [c.item.text]
            else RenderedOf(choices, number)
  {
    assert (choices + [c])[..|choices|] == choices;
  }

  // What one more rendered item adds to the text.
  function Added(title: string, text: string, titled: bool): string {
    if titled then "\n- " + text else "\n" + title + ":" + "\n- " + text
  }

  lemma BlockSnoc(title: string, texts: seq<string>, text: string)
    ensures Block(title, texts + [text]) == Block(title, texts) + Added(title, text, texts != [])
  {
    assert (texts + [text])[..|texts|] == texts;
    if texts != [] {
      assert "\n" + title + ":" + (Lines(texts) + "\n- " + text) == "\n" + title + ":" + Lines(texts) + ("\n- " + text);
    } else {
      assert "\n" + title + ":" + ("" + "\n- " + text) == "" + ("\n" + title + ":" + "\n- " + text);
    }
  }

  // One more item only adds to the end of the blocks.
  lemma {:induction false} BlocksSnoc(choices: seq<Choice>, c: Choice, n: nat)
    requires n <= |TITLES| && InOrder(choices + [c])
    ensures c.rendered && c.item.section < n ==>
              Blocks(choices + [c], n) ==
              Blocks(choices, n) + Added(c.item.title, c.item.text, Titled(choices, c.item.section))
    ensures !c.rendered || n <= c.item.section ==> Blocks(choices + [c], n) == Blocks(choices, n)
  {
    hide InOrder, Titled, Block, Added, RenderedOf;
    if n > 0 {
      var s, longer := c.item.section, choices + [c];
      BlocksSnoc(choices, c, n - 1);
      RenderedOfSnoc(choices, c, n - 1);
      if c.rendered && s == n - 1 {
        LastInOrder(choices, c);
        RenderedOfNone(choices, s);
        BlockSnoc(TITLES[s], RenderedOf(choices, s), c.item.text);
        Associate(Blocks(choices, s), Block(TITLES[s], RenderedOf(choices, s)),
                  Added(c.item.title, c.item.text, Titled(choices, s)));
      } else if c.rendered && s < n - 1 {
        LaterIsUntitled(choices, c, n - 1);
        RenderedOfNone(choices, n - 1);
        NoBlock(TITLES[n - 1]);
        Nothing(Blocks(choices, n - 1));
        Nothing(Blocks(longer, n - 1));
      }
    }
  }

  lemma Associate(a: string, b: string, c: string)
    ensures a + (b + c) == a + b + c
  {
  }

  lemma Nothing(a: string)
    ensures a + "" == a
  {
  }

  lemma NoBlock(title: string)
    ensures Block(title, []) == ""
  {
  }

  lemma LastInOrder(choices: seq<Choice>, c: Choice)
    requires InOrder(choices + [c])
    ensures c.item.section < |TITLES| && c.item.title == TITLES[c.item.section]
  {
    assert c in choices + [c];
  }

  lemma LaterIsUntitled(choices: seq<Choice>, c: Choice, number: nat)
    requires InOrder(choices + [c]) && c.item.section < number
    ensures !Titled(choices, number)
  {
    var all := choices + [c];
    forall x | x in choices ensures x.item.section < number {
      var i :| 0 <= i < |choices| && choices[i] == x;
      assert all[i].item.section <= all[|choices|].item.section;
    }
  }

  lemma InOrderBefore(choices: seq<Choice>)
    requires InOrder(choices) && choices != []
    ensures InOrder(choices[..|choices| - 1])
  {
  }

  /** A text is its header and its blocks. */
  lemma {:induction false} TextIsBlocks(header: string, choices: seq<Choice>)
    requires InOrder(choices)
    ensures Composed(header, choices) == header + Blocks(choices, |TITLES|)
  {
    if choices == [] {
      assert [header] + LinesOf([]) == [header];
      NoBlocks(|TITLES|);
    } else {
      var before, c := choices[..|choices| - 1], Last(choices);
      assert choices == before + [c] && c in choices;
      InOrderBefore(choices);
      TextIsBlocks(header, before);
      BlocksSnoc(before, c, |TITLES|);
      TextSnoc(header, before, c);
      if c.rendered {
        var prefix := if Titled(before, c.item.section) then "" else c.item.title + ":\n";
        JoinSnoc([header] + LinesOf(before), prefix + "- " + c.item.text);
        LastInOrder(before, c);
        AppendLine(header, Blocks(before, |TITLES|), c.item.title, c.item.text);
      }
    }
  }

  lemma {:induction false} NoBlocks(n: nat)
    requires n <= |TITLES|
    ensures Blocks([], n) == ""
  {
    if n > 0 { NoBlocks(n - 1); }
  }

  lemma AppendLine(header: string, blocks: string, title: string, text: string)
    ensures header + blocks + "\n" + ("" + "- " + text) == header + (blocks + Added(title, text, true))
    ensures header + blocks + "\n" + (title + ":\n" + "- " + text) == header + (blocks + Added(title, text, false))
  {
  }

  lemma LayoutIsText(contractId: string, choices: seq<Choice>)
    requires InOrder(choices)
    ensures Layout(contractId, choices) == Composed(Header(contractId), choices)
  {
    TextIsBlocks(Header(contractId), choices);
    SixBlocks(Header(contractId), choices);
  }

  lemma SixBlocks(header: string, choices: seq<Choice>)
    ensures header + Blocks(choices, 6) ==
            header + Block(TITLES[0], RenderedOf(choices, 0)) + Block(TITLES[1], RenderedOf(choices, 1))
            + Block(TITLES[2], RenderedOf(choices, 2)) + Block(TITLES[3], RenderedOf(choices, 3))
            + Block(TITLES[4], RenderedOf(choices, 4)) + Block(TITLES[5], RenderedOf(choices, 5))
  {
    hide Block, RenderedOf;
    Nothing(header);
    forall n: nat | n < 6
      ensures header + Blocks(choices, n + 1) == header + Blocks(choices, n) + Block(TITLES[n], RenderedOf(choices, n))
    {
      Associate(header, Blocks(choices, n), Block(TITLES[n], RenderedOf(choices, n)));
    }
    assert Blocks(choices, 0) == "";
  }

  // ----- what a digest shows -----

  function OmittedAt(choices: seq<Choice>): set<nat> {
    set i: nat | i < |choices| && !choices[i].rendered
  }

  // These choices are those of the digest: an item is rendered exactly if the layout of what was
  // rendered before it still has room for it.
  predicate ShowsBy(contractId: string, items: seq<Item>, maxChars: nat, choices: seq<Choice>, digest: TaskDigest) {
    && |choices| == |items| && (forall i :: 0 <= i < |items| ==> choices[i].item == items[i])
    && (forall i :: 0 <= i < |items| ==>
          (choices[i].rendered <==> |Layout(contractId, choices[..i] + [Choice(items[i], true)])| <= maxChars))
    && var text := Layout(contractId, choices);
       && digest.text == (if |text| <= maxChars then text else text[..maxChars])
       && digest.contractId == contractId && digest.maxChars == maxChars
       && digest.omittedItems == |OmittedAt(choices)| && (digest.truncated <==> OmittedAt(choices) != {})
  }

  ghost predicate Shows(contractId: string, items: seq<Item>, maxChars: nat, digest: TaskDigest) {
    exists choices :: ShowsBy(contractId, items, maxChars, choices, digest)
  }

  function Reversed(texts: seq<string>): (r: seq<string>)
    ensures |r| == |texts| && forall i :: 0 <= i < |texts| ==> r[i] == texts[|texts| - 1 - i]
  {
    seq(|texts|, i requires 0 <= i < |texts| => texts[|texts| - 1 - i])
  }

  /** The checkpoint laid out in full. */
  function FullLayout(checkpoint: WorkCheckpoint, artifact: seq<string>): string
    reads checkpoint
  {
    "Work contract: " + checkpoint.contractId
    + Block("Verified artifact", Reversed(artifact))
    + Block("Active constraints", Reversed(checkpoint.activeConstraints))
    + Block("Unresolved failures", Reversed(checkpoint.unresolvedFailures))
    + Block("Remaining subgoals", Reversed(checkpoint.remainingSubgoals))
    + Block("Completed subgoals", Reversed(checkpoint.completedSubgoals))
    + Block("Facts", Reversed(seq(|checkpoint.facts|, i requires 0 <= i < |checkpoint.facts| reads checkpoint =>
                                    checkpoint.facts[i].text)))
  }

  lemma {:induction false} OmittedCounts(choices: seq<Choice>)
    ensures Omitted(choices) == |OmittedAt(choices)|
  {
    if choices == [] {
      assert OmittedAt(choices) == {};
    } else {
      var before, c := choices[..|choices| - 1], Last(choices);
      var at: nat := |before|;
      OmittedCounts(before);
      assert OmittedAt(choices) == OmittedAt(before) + if c.rendered then {} else {at};
    }
  }

  lemma ConsideredInOrder(checkpoint: WorkCheckpoint, artifact: seq<string>, choices: seq<Choice>)
    requires |choices| <= |Considered(checkpoint, artifact)|
    requires forall i :: 0 <= i < |choices| ==> choices[i].item == Considered(checkpoint, artifact)[i]
    ensures InOrder(choices)
  {
    var items := Considered(checkpoint, artifact);
    forall c | c in choices ensures c.item.section < |TITLES| && c.item.title == TITLES[c.item.section] {
      var i :| 0 <= i < |choices| && choices[i] == c;
      assert items[i] == c.item;
    }
  }

  /** A digest in terms of the sections is one in terms of the fields of the checkpoint. */
  lemma DigestShows(checkpoint: WorkCheckpoint, maxChars: nat, choices: seq<Choice>, digest: TaskDigest)
    requires Renders(choices, checkpoint.contractId, Sections(checkpoint), maxChars, digest)
    ensures var artifact := Sections(checkpoint)[0].items;
            && ArtifactListed(checkpoint.artifact, artifact)
            && ShowsBy(checkpoint.contractId, Considered(checkpoint, artifact), maxChars, choices, digest)
  {
    hide Sections, Considered, LinesOf, Layout, Composed, Omitted;
    SectionsAreConsidered(checkpoint);
    var artifact, header := Sections(checkpoint)[0].items, Header(checkpoint.contractId);
    var items := Considered(checkpoint, artifact);
    assert forall i :: 0 <= i < |choices| ==> ItemsOf(choices)[i] == choices[i].item;
    ConsideredInOrder(checkpoint, artifact, choices);
    LayoutIsText(checkpoint.contractId, choices);
    OmittedCounts(choices);
    forall i | 0 <= i < |items|
      ensures choices[i].rendered <==> |Layout(checkpoint.contractId, Tried(choices, i))| <= maxChars
    {
      ConsideredInOrder(checkpoint, artifact, Tried(choices, i));
      LayoutIsText(checkpoint.contractId, Tried(choices, i));
      GreedyAt(header, choices, maxChars, i);
    }
  }

  lemma {:induction false} RenderedOfSum(a: seq<Choice>, b: seq<Choice>, number: nat)
    ensures RenderedOf(a + b, number) == RenderedOf(a, number) + RenderedOf(b, number)
  {
    if b == [] {
      assert a + b == a;
    } else {
      var before, c := b[..|b| - 1], Last(b);
      assert b == before + [c] && a + b == (a + before) + [c];
      RenderedOfSum(a, before, number);
      RenderedOfSnoc(a + before, c, number);
      RenderedOfSnoc(before, c, number);
    }
  }

  lemma {:induction false} NewestRendered(number: nat, title: string, texts: seq<string>, other: nat)
    ensures RenderedOf(Everything(Newest(number, title, texts)), other) ==
            if other == number then Reversed(texts) else []
  {
    if texts != [] {
      var rest := texts[1..];
      var choice := Choice(Item(number, title, texts[0]), true);
      NewestRendered(number, title, rest, other);
      assert Everything(Newest(number, title, texts)) == Everything(Newest(number, title, rest)) + [choice];
      RenderedOfSnoc(Everything(Newest(number, title, rest)), choice, other);
      assert Reversed(texts) == Reversed(rest) + [texts[0]];
    }
  }

  lemma EverythingSum(a: seq<Item>, b: seq<Item>, number: nat)
    ensures RenderedOf(Everything(a + b), number) ==
            RenderedOf(Everything(a), number) + RenderedOf(Everything(b), number)
  {
    assert Everything(a + b) == Everything(a) + Everything(b);
    RenderedOfSum(Everything(a), Everything(b), number);
  }

  // Six sections, rendered in full.
  lemma SixRendered(a: seq<string>, b: seq<string>, c: seq<string>, d: seq<string>, e: seq<string>, f: seq<string>,
                    number: nat)
    requires number < 6
    ensures var items := Newest(0, TITLES[0], a) + Newest(1, TITLES[1], b) + Newest(2, TITLES[2], c)
                         + Newest(3, TITLES[3], d) + Newest(4, TITLES[4], e) + Newest(5, TITLES[5], f);
            RenderedOf(Everything(items), number) == Reversed([a, b, c, d, e, f][number])
  {
    hide RenderedOf, Everything, Reversed, Newest;
    var i, j, k, l, m, n :=
      Newest(0, TITLES[0], a), Newest(1, TITLES[1], b), Newest(2, TITLES[2], c), Newest(3, TITLES[3], d),
      Newest(4, TITLES[4], e), Newest(5, TITLES[5], f);
    EverythingSum(i, j, number);
    EverythingSum(i + j, k, number);
    EverythingSum(i + j + k, l, number);
    EverythingSum(i + j + k + l, m, number);
    EverythingSum(i + j + k + l + m, n, number);
    NewestRendered(0, TITLES[0], a, number);
    NewestRendered(1, TITLES[1], b, number);
    NewestRendered(2, TITLES[2], c, number);
    NewestRendered(3, TITLES[3], d, number);
    NewestRendered(4, TITLES[4], e, number);
    NewestRendered(5, TITLES[5], f, number);
  }

  lemma FullIsEverything(checkpoint: WorkCheckpoint, artifact: seq<string>)
    ensures FullLayout(checkpoint, artifact) ==
            Layout(checkpoint.contractId, Everything(Considered(checkpoint, artifact)))
  {
    hide Block, RenderedOf, Reversed, Newest, Everything;
    var facts := seq(|checkpoint.facts|, i requires 0 <= i < |checkpoint.facts| reads checkpoint =>
                       checkpoint.facts[i].text);
    forall number: nat | number < 6
      ensures RenderedOf(Everything(Considered(checkpoint, artifact)), number) ==
              Reversed([artifact, checkpoint.activeConstraints, checkpoint.unresolvedFailures,
                        checkpoint.remainingSubgoals, checkpoint.completedSubgoals, facts][number])
    {
      SixRendered(artifact, checkpoint.activeConstraints, checkpoint.unresolvedFailures, checkpoint.remainingSubgoals,
                  checkpoint.completedSubgoals, facts, number);
    }
  }

  /** When the full layout fits, it is what the digest shows. */
  lemma FittingIsShown(
    checkpoint: WorkCheckpoint, maxChars: nat, choices: seq<Choice>, digest: TaskDigest)
    requires Renders(choices, checkpoint.contractId, Sections(checkpoint), maxChars, digest)
    ensures var full := FullLayout(checkpoint, Sections(checkpoint)[0].items);
            |full| <= maxChars ==> digest.text == full && !digest.truncated && digest.omittedItems == 0
  {
    hide Sections, Considered, LinesOf, Layout, Composed, FullLayout, Greedy;
    SectionsAreConsidered(checkpoint);
    var artifact, header := Sections(checkpoint)[0].items, Header(checkpoint.contractId);
    var items := Considered(checkpoint, artifact);
    var all := Everything(items);
    FullIsEverything(checkpoint, artifact);
    ConsideredInOrder(checkpoint, artifact, all);
    LayoutIsText(checkpoint.contractId, all);
    if |FullLayout(checkpoint, artifact)| <= maxChars {
      assert ItemsOf(all) == items;
      FittingIsRendered(header, choices, all, maxChars);
      EverythingRendered(choices);
    }
  }

  // ----- rendering -----

  /** None stands for the validation error of a bound below one. */
  method RenderDigest(checkpoint: WorkCheckpoint, maxChars: int) returns (digest: Option<TaskDigest>)
    ensures digest.None? <==> maxChars < 1
    ensures digest.Some? ==> IsDigest(checkpoint.contractId, Sections(checkpoint), maxChars, digest.value)
    ensures digest.Some? ==>
              exists artifact :: ArtifactListed(checkpoint.artifact, artifact) &&
                Shows(checkpoint.contractId, Considered(checkpoint, artifact), maxChars, digest.value) &&
                (|FullLayout(checkpoint, artifact)| <= maxChars ==>
                   digest.value.text == FullLayout(checkpoint, artifact) && !digest.value.truncated)
  {
    hide Greedy, LinesOf, Omitted, Titled, ItemsOf, Composed, Fits, Items, Join, Header, Sections;
    hide ArtifactListed, Considered, FullLayout, ShowsBy;
    var header := Header(checkpoint.contractId);
    var sections := Sections(checkpoint);
    var lines := [header];
    var omitted := 0;
    ghost var choices: seq<Choice> := [];
    NothingChosen(header, maxChars);
    assert Items(sections[..0]) == [] by { NoItems(sections); }
    for s := 0 to |sections|
      invariant lines == [header] + LinesOf(choices) && omitted == Omitted(choices)
      invariant ItemsOf(choices) == Items(sections[..s])
      invariant Greedy(header, choices, maxChars)
      invariant forall c :: c in choices ==> c.item.section < s
    {
      var section := sections[s];
      var titleAdded := false;
      ghost var before, queue := ItemsOf(choices), NewestFirst(section, s);
      NewSectionIsUntitled(choices, s);
      var n := |section.items|;
      for j := 0 to n
        invariant lines == [header] + LinesOf(choices) && omitted == Omitted(choices)
        invariant ItemsOf(choices) == before + queue[..j]
        invariant Greedy(header, choices, maxChars)
        invariant forall c :: c in choices ==> c.item.section <= s
        invariant titleAdded <==> Titled(choices, s)
      {
        var item := section.items[n - 1 - j];
        assert queue[j] == Item(s, section.title, item);
        assert before + queue[..j + 1] == before + queue[..j] + [queue[j]];
        var prefix := if !titleAdded then section.title + ":\n" else "";
        var candidate := Join(lines + [prefix + "- " + item]);
        ghost var c := Choice(queue[j], |candidate| <= maxChars);
        assert Fits(header, choices + [Choice(c.item, true)], maxChars) <==> |candidate| <= maxChars by {
          CandidateIsText(header, choices, c.item, maxChars, candidate);
        }
        ChooseNext(header, choices, c, maxChars);
        LinesSnoc(choices, c);
        if |candidate| <= maxChars {
          if !titleAdded {
            lines := lines + [section.title + ":"];
            titleAdded := true;
          }
          lines := lines + ["- " + item];
        } else {
          omitted := omitted + 1;
        }
        choices := choices + [c];
      }
      assert queue[..n] == queue;
      NextSection(sections, s);
    }
    assert sections[..|sections|] == sections;
    var text := Join(lines);
    assert text == Composed(header, choices) by { TextIsJoined(header, choices); }
    if maxChars < 1 {
      return None;
    }
    if |text| > maxChars {
      text := text[..maxChars];
    }
    digest := Some(TaskDigest(checkpoint.contractId, text, maxChars, omitted > 0, omitted));
    assert Renders(choices, checkpoint.contractId, sections, maxChars, digest.value);
    DigestShows(checkpoint, maxChars, choices, digest.value);
    FittingIsShown(checkpoint, maxChars, choices, digest.value);
  }
}
