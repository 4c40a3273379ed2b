/** A bounded digest of a checkpoint: whole items, most useful first, as many as fit. */
module Digest {
  import opened Basics

  // Oldest item first, as the checkpoint lists them.
  datatype Section = Section(title: string, items: seq<string>)

  datatype TaskDigest = TaskDigest(
    contractId: string,
    text: string,
    maxChars: int,
    truncated: bool,
    omittedItems: nat)

  function Join(lines: seq<string>): string
    requires lines != []
  {
    if |lines| == 1 then lines[0] else Join(lines[..|lines| - 1]) + "\n" + Last(lines)
  }

  function Header(contractId: string): string {
    "Work contract: " + contractId
  }

  // ----- which items to render, and what that looks like -----

  datatype Item = Item(section: nat, title: string, text: string)

  datatype Choice = Choice(item: Item, rendered: bool)

  function NewestFirst(section: Section, number: nat): seq<Item> {
    seq(|section.items|, i requires 0 <= i < |section.items| =>
      Item(number, section.title, section.items[|section.items| - 1 - i]))
  }

  /** All items in the order in which they are considered. */
  function Items(sections: seq<Section>): seq<Item> {
    if sections == [] then [] else Items(sections[..|sections| - 1]) + NewestFirst(Last(sections), |sections| - 1)
  }

  function ItemsOf(choices: seq<Choice>): seq<Item> {
    seq(|choices|, i requires 0 <= i < |choices| => choices[i].item)
  }

  predicate Titled(choices: seq<Choice>, section: nat) {
    exists c :: c in choices && c.rendered && c.item.section == section
  }

  function LinesOf(choices: seq<Choice>): seq<string> {
    if choices == [] then []
    else
      var before, c := choices[..|choices| - 1], Last(choices);
      if !c.rendered then LinesOf(before)
      else if Titled(before, c.item.section) then LinesOf(before) + ["- " + c.item.text]
      else LinesOf(before) + [c.item.title + ":", "- " + c.item.text]
  }

  /** The header, and under the title of each section that has any, its rendered items. */
  function Composed(header: string, choices: seq<Choice>): string {
    Join([header] + LinesOf(choices))
  }

  function Omitted(choices: seq<Choice>): nat {
    if choices == [] then 0
    else Omitted(choices[..|choices| - 1]) + if Last(choices).rendered then 0 else 1
  }

  predicate Fits(header: string, choices: seq<Choice>, maxChars: int) {
    |Composed(header, choices)| <= maxChars
  }

  function Tried(choices: seq<Choice>, i: nat): seq<Choice>
    requires i < |choices|
  {
    choices[..i] + [Choice(choices[i].item, true)]
  }

  /** An item is rendered exactly when it still fits behind the items rendered before it. */
  predicate Greedy(header: string, choices: seq<Choice>, maxChars: int) {
    forall i :: 0 <= i < |choices| ==> (choices[i].rendered <==> Fits(header, Tried(choices, i), maxChars))
  }

  function Clipped(text: string, maxChars: nat): string {
    if |text| > maxChars then text[..maxChars] else text
  }

  predicate Renders(
    choices: seq<Choice>, contractId: string, sections: seq<Section>, maxChars: nat, digest: TaskDigest)
  {
    && ItemsOf(choices) == Items(sections)
    && Greedy(Header(contractId), choices, maxChars)
    && digest == TaskDigest(contractId, Clipped(Composed(Header(contractId), choices), maxChars), maxChars,
                            Omitted(choices) > 0, Omitted(choices))
  }

  ghost predicate IsDigest(contractId: string, sections: seq<Section>, maxChars: nat, digest: TaskDigest) {
    exists choices :: Renders(choices, contractId, sections, maxChars, digest)
  }

  // ----- lengths -----

  lemma JoinSnoc(lines: seq<string>, line: string)
    requires lines != []
    ensures Join(lines + [line]) == Join(lines) + "\n" + line
  {
    assert (lines + [line])[..|lines|] == lines;
  }

  lemma JoinTitled(lines: seq<string>, title: string, line: string)
    requires lines != []
    ensures Join(lines + [title + ":", line]) == Join(lines + [title + ":\n" + line])
  {
    assert lines + [title + ":", line] == (lines + [title + ":"]) + [line];
    JoinSnoc(lines + [title + ":"], line);
    JoinSnoc(lines, title + ":");
    JoinSnoc(lines, title + ":\n" + line);
    assert title + ":" + "\n" + line == title + ":\n" + line;
    assert Join(lines) + "\n" + (title + ":") + "\n" + line == Join(lines) + "\n" + (title + ":" + "\n" + line);
  }

  lemma LinesSnoc(choices: seq<Choice>, c: Choice)
    ensures LinesOf(choices + [c]) ==
            if !c.rendered then LinesOf(choices)
            else if Titled(choices, c.item.section) then LinesOf(choices) + ["- " + c.item.text]
            else LinesOf(choices) + [c.item.title + ":", "- " + c.item.text]
  {
    assert (choices + [c])[..|choices|] == choices;
  }

  lemma TextSnoc(header: string, choices: seq<Choice>, c: Choice)
    ensures var prefix := if Titled(choices, c.item.section) then "" else c.item.title + ":\n";
            Composed(header, choices + [c]) ==
            if !c.rendered then Composed(header, choices)
            else Join([header] + LinesOf(choices) + [prefix + "- " + c.item.text])
    ensures |Composed(header, choices + [c])| >= |Composed(header, choices)|
  {
    var lines := [header] + LinesOf(choices);
    LinesSnoc(choices, c);
    if c.rendered {
      var line := "- " + c.item.text;
      if Titled(choices, c.item.section) {
        assert "" + "- " + c.item.text == line;
        assert [header] + (LinesOf(choices) + [line]) == lines + [line];
        JoinSnoc(lines, line);
      } else {
        assert [header] + (LinesOf(choices) + [c.item.title + ":", line]) == lines + [c.item.title + ":", line];
        assert c.item.title + ":\n" + "- " + c.item.text == c.item.title + ":\n" + line;
        JoinTitled(lines, c.item.title, line);
        JoinSnoc(lines, c.item.title + ":\n" + line);
      }
    }
  }

  lemma {:induction false} TextGrows(header: string, choices: seq<Choice>, n: nat)
    requires n <= |choices|
    ensures |Composed(header, choices[..n])| <= |Composed(header, choices)|
  {
    if n == |choices| {
      assert choices[..n] == choices;
    } else {
      var before := choices[..|choices| - 1];
      assert choices == before + [Last(choices)];
      assert before[..n] == choices[..n];
      TextGrows(header, before, n);
      TextSnoc(header, before, Last(choices));
    }
  }

  lemma GreedyAt(header: string, choices: seq<Choice>, maxChars: int, i: nat)
    requires Greedy(header, choices, maxChars) && i < |choices|
    ensures choices[i].rendered <==> Fits(header, Tried(choices, i), maxChars)
  {
  }

  // ----- what a digest is worth -----

  /**
   Among all selections of the same items that fit, the greedy one renders the
   first item on which it differs from another: it is the greatest in the order
   of usefulness.
   */
  lemma FirstDifferenceIsRendered(header: string, choices: seq<Choice>, other: seq<Choice>, maxChars: int, k: nat)
    requires Greedy(header, choices, maxChars) && Fits(header, other, maxChars)
    requires ItemsOf(choices) == ItemsOf(other)
    requires k < |choices| && |other| == |choices| && choices[..k] == other[..k] && choices[k] != other[k]
    ensures choices[k].rendered
  {
    hide Greedy, Composed, LinesOf;
    GreedyAt(header, choices, maxChars, k);
    assert choices[k].item == other[k].item by {
      assert ItemsOf(choices)[k] == ItemsOf(other)[k];
    }
    if !choices[k].rendered {
      assert other[..k + 1] == other[..k] + [other[k]];
      TextGrows(header, other, k + 1);
    }
  }

  /** No omitted item could be rendered whole beside those that are. */
  lemma NoRoomForOmitted(header: string, choices: seq<Choice>, maxChars: int, i: nat)
    requires Greedy(header, choices, maxChars) && i < |choices| && !choices[i].rendered
    ensures !Fits(header, choices[i := Choice(choices[i].item, true)], maxChars)
  {
    var other := choices[i := Choice(choices[i].item, true)];
    assert ItemsOf(choices) == ItemsOf(other) && choices[..i] == other[..i];
    if Fits(header, other, maxChars) {
      FirstDifferenceIsRendered(header, choices, other, maxChars, i);
    }
  }

  /** With more room, the first item treated differently is one that is now rendered. */
  lemma MoreRoomRendersEarlier(header: string, small: seq<Choice>, large: seq<Choice>, n: int, m: int, k: nat)
    requires n <= m && Greedy(header, small, n) && Greedy(header, large, m) && Fits(header, small, n)
    requires ItemsOf(small) == ItemsOf(large)
    requires k < |small| && |large| == |small| && small[..k] == large[..k] && small[k] != large[k]
    ensures large[k].rendered && !small[k].rendered
  {
    FirstDifferenceIsRendered(header, large, small, m, k);
    assert ItemsOf(small)[k] == ItemsOf(large)[k];
  }

  lemma GreedyNext(header: string, a: seq<Choice>, b: seq<Choice>, maxChars: int, i: nat)
    requires Greedy(header, a, maxChars) && Greedy(header, b, maxChars) && ItemsOf(a) == ItemsOf(b)
    requires i < |a| == |b| && a[..i] == b[..i]
    ensures a[i] == b[i]
  {
    assert ItemsOf(a)[i] == ItemsOf(b)[i];
    GreedyAt(header, a, maxChars, i);
    GreedyAt(header, b, maxChars, i);
    hide Greedy, Composed;
    assert Tried(a, i) == Tried(b, i);
  }

  lemma {:induction false} GreedyAgree(header: string, a: seq<Choice>, b: seq<Choice>, maxChars: int, n: nat)
    requires Greedy(header, a, maxChars) && Greedy(header, b, maxChars) && ItemsOf(a) == ItemsOf(b)
    requires n <= |a| == |b|
    ensures a[..n] == b[..n]
  {
    hide Greedy, ItemsOf;
    if n > 0 {
      GreedyAgree(header, a, b, maxChars, n - 1);
      GreedyNext(header, a, b, maxChars, n - 1);
      assert a[..n] == a[..n - 1] + [a[n - 1]] && b[..n] == b[..n - 1] + [b[n - 1]];
    }
  }

  lemma GreedyIsUnique(header: string, a: seq<Choice>, b: seq<Choice>, maxChars: int)
    requires Greedy(header, a, maxChars) && Greedy(header, b, maxChars) && ItemsOf(a) == ItemsOf(b)
    ensures a == b
  {
    assert |ItemsOf(a)| == |a| && |ItemsOf(b)| == |b|;
    GreedyAgree(header, a, b, maxChars, |a|);
    assert a[..|a|] == a && b[..|b|] == b;
  }

  /** Each item of each section is considered once. */
  lemma {:induction false} EveryItemIsConsidered(sections: seq<Section>)
    ensures |Items(sections)| == TotalItems(sections)
    ensures forall s, j :: 0 <= s < |sections| && 0 <= j < |sections[s].items| ==>
              Item(s, sections[s].title, sections[s].items[j]) in Items(sections)
    ensures forall item :: item in Items(sections) ==>
              item.section < |sections| && item.title == sections[item.section].title &&
              item.text in sections[item.section].items
  {
    if sections != [] {
      var front, s := sections[..|sections| - 1], |sections| - 1;
      EveryItemIsConsidered(front);
      var section := Last(sections);
      forall j | 0 <= j < |section.items|
        ensures Item(s, section.title, section.items[j]) in Items(sections)
      {
        assert NewestFirst(section, s)[|section.items| - 1 - j] in Items(sections);
      }
    }
  }

  function TotalItems(sections: seq<Section>): nat {
    if sections == [] then 0 else TotalItems(sections[..|sections| - 1]) + |Last(sections).items|
  }

  predicate TitledAlike(choices: seq<Choice>, item: Item) {
    forall c :: c in choices && c.item.section == item.section ==> c.item.title == item.title
  }

  // The room an item needs only shrinks with what is chosen before it.
  lemma {:induction false} LaterNeedsNoLess(header: string, choices: seq<Choice>, item: Item, n: nat)
    requires n <= |choices| && TitledAlike(choices, item)
    ensures |Composed(header, choices[..n] + [Choice(item, true)])| <=
            |Composed(header, choices + [Choice(item, true)])|
  {
    if n == |choices| {
      assert choices[..n] == choices;
    } else {
      var before, c := choices[..|choices| - 1], Last(choices);
      assert choices == before + [c] && before[..n] == choices[..n];
      LaterNeedsNoLess(header, before, item, n);
      OneMoreNeedsNoLess(header, before, c, item);
    }
  }

  lemma OneMoreNeedsNoLess(header: string, choices: seq<Choice>, c: Choice, item: Item)
    requires c.item.section == item.section ==> c.item.title == item.title
    ensures |Composed(header, choices + [Choice(item, true)])| <=
            |Composed(header, choices + [c] + [Choice(item, true)])|
  {
    TextLength(header, choices, Choice(item, true));
    TextLength(header, choices, c);
    TextLength(header, choices + [c], Choice(item, true));
    assert forall x :: x in choices + [c] <==> x in choices || x == c;
  }

  lemma TextLength(header: string, choices: seq<Choice>, c: Choice)
    ensures |Composed(header, choices + [c])| == |Composed(header, choices)| +
            if !c.rendered then 0
            else |c.item.text| + 3 + if Titled(choices, c.item.section) then 0 else |c.item.title| + 2
  {
    TextSnoc(header, choices, c);
    if c.rendered {
      var prefix := if Titled(choices, c.item.section) then "" else c.item.title + ":\n";
      JoinSnoc([header] + LinesOf(choices), prefix + "- " + c.item.text);
    }
  }

  /** A newer item gives way to an older one of its section only because it is longer. */
  lemma OnlyLongerItemsGiveWay(
    header: string, sections: seq<Section>, choices: seq<Choice>, maxChars: int, i: nat, j: nat)
    requires ItemsOf(choices) == Items(sections) && Greedy(header, choices, maxChars)
    requires i < j < |choices| && choices[i].item.section == choices[j].item.section
    requires !choices[i].rendered && choices[j].rendered
    ensures |choices[i].item.text| > |choices[j].item.text|
  {
    var newer, older := choices[i].item, choices[j].item;
    EveryItemIsConsidered(sections);
    forall c | c in choices && c.item.section == newer.section
      ensures c.item.title == newer.title
    {
      var k :| 0 <= k < |choices| && choices[k] == c;
      assert ItemsOf(choices)[k] == c.item && ItemsOf(choices)[i] == newer;
    }
    assert choices[..j][..i] == choices[..i];
    LaterNeedsNoLess(header, choices[..j], newer, i);
    assert !Fits(header, Tried(choices, i), maxChars) && Fits(header, Tried(choices, j), maxChars);
    TextLength(header, choices[..j], Choice(newer, true));
    TextLength(header, choices[..j], Choice(older, true));
  }

  /** The checkpoint and the bound determine the digest. */
  lemma DigestIsDetermined(contractId: string, sections: seq<Section>, maxChars: nat, d: TaskDigest, e: TaskDigest)
    requires IsDigest(contractId, sections, maxChars, d) && IsDigest(contractId, sections, maxChars, e)
    ensures d == e
  {
    var a :| Renders(a, contractId, sections, maxChars, d);
    var b :| Renders(b, contractId, sections, maxChars, e);
    GreedyIsUnique(Header(contractId), a, b, maxChars);
  }

  // A greedy text outgrows the bound only by its header.
  lemma {:induction false} GreedyFits(header: string, choices: seq<Choice>, maxChars: int)
    requires Greedy(header, choices, maxChars)
    ensures Fits(header, choices, maxChars) <==> |header| <= maxChars
    ensures |header| > maxChars ==> Omitted(choices) == |choices| && Composed(header, choices) == header
  {
    if choices == [] {
      assert [header] + LinesOf([]) == [header];
    } else {
      var before, c := choices[..|choices| - 1], Last(choices);
      assert choices == before + [c];
      forall i | 0 <= i < |before| ensures before[i].rendered <==> Fits(header, Tried(before, i), maxChars) {
        assert Tried(before, i) == Tried(choices, i);
      }
      GreedyFits(header, before, maxChars);
      assert Tried(choices, |before|) == before + [Choice(c.item, true)];
      assert choices[|before|].rendered <==> Fits(header, Tried(choices, |before|), maxChars);
      TextSnoc(header, before, Choice(c.item, true));
      TextSnoc(header, before, c);
    }
  }

  function Everything(items: seq<Item>): seq<Choice> {
    seq(|items|, i requires 0 <= i < |items| => Choice(items[i], true))
  }

  function Rendered(choices: seq<Choice>): nat {
    if choices == [] then 0
    else Rendered(choices[..|choices| - 1]) + if Last(choices).rendered then 1 else 0
  }

  lemma {:induction false} RenderedPlusOmitted(choices: seq<Choice>)
    ensures Rendered(choices) + Omitted(choices) == |choices|
  {
    if choices != [] {
      RenderedPlusOmitted(choices[..|choices| - 1]);
    }
  }

  lemma {:induction false} OmittedNone(choices: seq<Choice>)
    ensures Omitted(choices) <= |choices|
    ensures Omitted(choices) == 0 <==> forall i :: 0 <= i < |choices| ==> choices[i].rendered
  {
    if choices != [] {
      OmittedNone(choices[..|choices| - 1]);
      assert Last(choices) == choices[|choices| - 1];
    }
  }

  lemma {:induction false} EverythingRendered(choices: seq<Choice>)
    ensures Omitted(choices) == 0 <==> choices == Everything(ItemsOf(choices))
  {
    OmittedNone(choices);
    if Omitted(choices) == 0 {
      forall i | 0 <= i < |choices| ensures choices[i] == Everything(ItemsOf(choices))[i] {}
    }
  }

  /** The text is within the bound and starts with the header as far as it fits; rendered plus omitted items are all. */
  lemma DigestIsBounded(contractId: string, sections: seq<Section>, maxChars: nat, d: TaskDigest)
    requires IsDigest(contractId, sections, maxChars, d)
    ensures |d.text| <= maxChars
    ensures exists choices :: Renders(choices, contractId, sections, maxChars, d) &&
                              Rendered(choices) + d.omittedItems == TotalItems(sections)
    ensures d.text <= Header(contractId) || Header(contractId) <= d.text
  {
    var choices :| Renders(choices, contractId, sections, maxChars, d);
    GreedyFits(Header(contractId), choices, maxChars);
    RenderedPlusOmitted(choices);
    EveryItemIsConsidered(sections);
    assert |ItemsOf(choices)| == |choices|;
    HeaderLeads(Header(contractId), choices);
  }

  lemma {:induction false} HeaderLeads(header: string, choices: seq<Choice>)
    ensures header <= Composed(header, choices)
  {
    if choices == [] {
      assert [header] + LinesOf([]) == [header];
    } else {
      var before, c := choices[..|choices| - 1], Last(choices);
      assert choices == before + [c];
      HeaderLeads(header, before);
      TextSnoc(header, before, c);
      if c.rendered {
        var prefix := if Titled(before, c.item.section) then "" else c.item.title + ":\n";
        JoinSnoc([header] + LinesOf(before), prefix + "- " + c.item.text);
      }
    }
  }

  function FullText(contractId: string, sections: seq<Section>): string {
    Composed(Header(contractId), Everything(Items(sections)))
  }

  /**
   The digest says everything exactly when everything fits, which is when nothing
   is flagged as omitted and the header fits.
   */
  lemma CompleteIff(contractId: string, sections: seq<Section>, maxChars: nat, d: TaskDigest)
    requires IsDigest(contractId, sections, maxChars, d)
    ensures d.text == FullText(contractId, sections) <==> |FullText(contractId, sections)| <= maxChars
    ensures d.text == FullText(contractId, sections) <==> !d.truncated && |Header(contractId)| <= maxChars
  {
    var header, all := Header(contractId), Everything(Items(sections));
    var choices :| Renders(choices, contractId, sections, maxChars, d);
    GreedyFits(header, choices, maxChars);
    EverythingRendered(choices);
    assert ItemsOf(all) == Items(sections);
    HeaderLeads(header, all);
    if Fits(header, all, maxChars) {
      FittingIsRendered(header, choices, all, maxChars);
    }
  }

  // If everything fits, the greedy selection is everything.
  lemma FittingIsRendered(header: string, choices: seq<Choice>, all: seq<Choice>, maxChars: int)
    requires Greedy(header, choices, maxChars) && Fits(header, all, maxChars)
    requires ItemsOf(choices) == ItemsOf(all) && all == Everything(ItemsOf(all))
    ensures choices == all
  {
    assert |ItemsOf(choices)| == |choices| && |ItemsOf(all)| == |all|;
    forall k | 0 <= k < |choices| && choices[..k] == all[..k] ensures choices[k] == all[k] {
      assert ItemsOf(choices)[k] == ItemsOf(all)[k];
      if choices[k] != all[k] {
        FirstDifferenceIsRendered(header, choices, all, maxChars, k);
      }
    }
    AgreeEverywhere(choices, all, |choices|);
    assert choices[..|choices|] == choices && all[..|all|] == all;
  }

  lemma {:induction false} AgreeEverywhere(a: seq<Choice>, b: seq<Choice>, n: nat)
    requires n <= |a| == |b| && forall k :: 0 <= k < |a| && a[..k] == b[..k] ==> a[k] == b[k]
    ensures a[..n] == b[..n]
  {
    if n > 0 {
      AgreeEverywhere(a, b, n - 1);
      assert a[..n] == a[..n - 1] + [a[n - 1]] && b[..n] == b[..n - 1] + [b[n - 1]];
    }
  }

  lemma {:induction false} NoItemsIff(sections: seq<Section>)
    ensures Items(sections) == [] <==> forall section :: section in sections ==> section.items == []
  {
    if sections != [] {
      var front, last := sections[..|sections| - 1], Last(sections);
      NoItemsIff(front);
      assert sections == front + [last];
      assert |NewestFirst(last, |front|)| == |last.items|;
    }
  }

  /**
   The truncation flag tells the truth, that something is missing from the text,
   exactly when the header fits or some section has an item: a header cut with
   nothing below it is not flagged.
   */
  lemma FlagIsTrueIff(contractId: string, sections: seq<Section>, maxChars: nat, d: TaskDigest)
    requires IsDigest(contractId, sections, maxChars, d)
    ensures (d.truncated <==> d.text != FullText(contractId, sections)) <==>
            |Header(contractId)| <= maxChars || exists section :: section in sections && section.items != []
  {
    var choices :| Renders(choices, contractId, sections, maxChars, d);
    GreedyFits(Header(contractId), choices, maxChars);
    CompleteIff(contractId, sections, maxChars, d);
    NoItemsIff(sections);
    assert |ItemsOf(choices)| == |choices|;
  }

  /** A checkpoint without items under a bound of one: the text is cut to one letter and the flag is off. */
  lemma CutHeaderIsNotFlagged(sections: seq<Section>)
    requires forall section :: section in sections ==> section.items == []
    ensures IsDigest("c", sections, 1, TaskDigest("c", "W", 1, false, 0))
    ensures FullText("c", sections) == "Work contract: c"
  {
    NoItemsIff(sections);
    NothingChosen(Header("c"), 1);
    assert [Header("c")] + LinesOf([]) == [Header("c")];
    assert Composed(Header("c"), []) == Header("c") && Header("c")[..1] == "W";
    assert Renders([], "c", sections, 1, TaskDigest("c", "W", 1, false, 0));
  }

  // ----- choosing one item after another -----

  lemma NoItems(sections: seq<Section>)
    ensures Items(sections[..0]) == []
  {
  }

  lemma TextIsJoined(header: string, choices: seq<Choice>)
    ensures Composed(header, choices) == Join([header] + LinesOf(choices))
  {
  }

  lemma CandidateIsText(header: string, choices: seq<Choice>, item: Item, maxChars: int, candidate: string)
    requires var prefix := if Titled(choices, item.section) then "" else item.title + ":\n";
             candidate == Join([header] + LinesOf(choices) + [prefix + "- " + item.text])
    ensures Fits(header, choices + [Choice(item, true)], maxChars) <==> |candidate| <= maxChars
  {
    TextSnoc(header, choices, Choice(item, true));
  }

  lemma ChooseNext(header: string, choices: seq<Choice>, c: Choice, maxChars: int)
    requires Greedy(header, choices, maxChars)
    requires c.rendered <==> Fits(header, choices + [Choice(c.item, true)], maxChars)
    ensures Greedy(header, choices + [c], maxChars)
    ensures ItemsOf(choices + [c]) == ItemsOf(choices) + [c.item]
    ensures Omitted(choices + [c]) == Omitted(choices) + if c.rendered then 0 else 1
    ensures Titled(choices + [c], c.item.section) <==> Titled(choices, c.item.section) || c.rendered
  {
    var longer := choices + [c];
    assert longer[..|choices|] == choices;
    forall i | 0 <= i < |longer| ensures longer[i].rendered <==> Fits(header, Tried(longer, i), maxChars) {
      if i < |choices| {
        assert Tried(longer, i) == Tried(choices, i);
      } else {
        assert Tried(longer, i) == choices + [Choice(c.item, true)];
      }
    }
    assert forall x :: x in longer <==> x in choices || x == c;
  }

  lemma NothingChosen(header: string, maxChars: int)
    ensures Greedy(header, [], maxChars) && LinesOf([]) == [] && Omitted([]) == 0 && ItemsOf([]) == []
  {
  }

  lemma NewSectionIsUntitled(choices: seq<Choice>, section: nat)
    requires forall c :: c in choices ==> c.item.section < section
    ensures !Titled(choices, section)
  {
  }

  lemma NextSection(sections: seq<Section>, s: nat)
    requires s < |sections|
    ensures Items(sections[..s + 1]) == Items(sections[..s]) + NewestFirst(sections[s], s)
  {
    assert sections[..s + 1][..s] == sections[..s];
  }
}
