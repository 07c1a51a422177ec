/**
 * The tournament loader's decklist parser: one pass over the lines with a current
 * section that starts at the mainboard and can only move to the sideboard.
 */
module EtlDecklist {
  import opened Common
  import opened DeckText

  /** A card with a positive quantity and a non-empty name without surrounding whitespace. */
  predicate WellFormed(c: ParsedCard)
  {
    c.quantity >= 1 && c.cardName != [] && !IsSpace(c.cardName[0]) && !IsSpace(c.cardName[|c.cardName| - 1])
  }

  /** What the rest of a line does once any `SB:` prefix has been dealt with. */
  function Classify(line: string, section: Section): (r: (Option<ParsedCard>, Section))
    ensures r.0.Some? ==> r.0.value.section == section && r.1 == section
    ensures r.0.Some? && line != [] && !IsSpace(line[|line| - 1]) ==> WellFormed(r.0.value)
    ensures section == Sideboard ==> r.1 == Sideboard
  {
    if IsSideboardHeading(line) || IsSideboardComment(line) then (None, Sideboard)
    else if IsComment(line) then (None, section)
    else match CardMatch(line)
      case None => (None, section)
      case Some((quantity, name)) =>
        if quantity <= 0 then (None, section)
        else
          CardMatchOfTrimmed(line);
          (Some(ParsedCard(quantity, Strip(name), section)), section)
  }

  /** One line: the card it yields, if any, and the section for the next line. */
  function Step(raw: string, section: Section): (r: (Option<ParsedCard>, Section))
    ensures r.0.Some? ==> WellFormed(r.0.value) && r.0.value.section == r.1
    ensures section == Sideboard ==> r.1 == Sideboard
  {
    var line := Strip(raw);
    if line == [] then (None, section)
    else match SbRemainder(line)
      case Some(rest) => if rest == [] then (None, Sideboard) else Classify(rest, Sideboard)
      case None => Classify(line, section)
  }

  /** The cards of lines[i..], starting in `section`. */
  function ParseFrom(lines: seq<string>, i: nat, section: Section): seq<ParsedCard>
    requires i <= |lines|
    decreases |lines| - i
  {
    if i == |lines| then []
    else
      var step := Step(lines[i], section);
      (if step.0.Some? then [step.0.value] else []) + ParseFrom(lines, i + 1, step.1)
  }

  /** `parse_decklist`: empty or blank text gives no cards. */
  function Parse(text: string): seq<ParsedCard>
  {
    if text == [] || Strip(text) == [] then [] else ParseFrom(Split(text, '\n'), 0, Mainboard)
  }

  /** The body of the parser loop for one line. */
  method ParseLine(raw: string, section: Section) returns (card: Option<ParsedCard>, next: Section)
    ensures (card, next) == Step(raw, section)
  {
    card, next := None, section;
    var line := Strip(raw);
    if line == [] {
      return;
    }
    var sb := SbRemainder(line);
    if sb.Some? {
      next := Sideboard;
      if sb.value == [] {
        return;
      }
      line := sb.value;
    }
    if IsSideboardHeading(line) || IsSideboardComment(line) {
      next := Sideboard;
      return;
    }
    if IsComment(line) {
      return;
    }
    var m := CardMatch(line);
    if m.Some? {
      var quantity := m.value.0;
      var name := Strip(m.value.1);
      if quantity <= 0 {
        return;
      }
      card := Some(ParsedCard(quantity, name, next));
    }
  }

  /** `parse_decklist`: the blank-text guard, then the loop over the lines. */
  method ParseDecklist(text: string) returns (cards: seq<ParsedCard>)
    ensures cards == Parse(text)
  {
    if text == [] || Strip(text) == [] {
      return [];
    }
    cards := ParseLines(Split(text, '\n'));
  }

  /** The parser loop, with its current section and the list it appends to. */
  method ParseLines(lines: seq<string>) returns (cards: seq<ParsedCard>)
    ensures cards == ParseFrom(lines, 0, Mainboard)
  {
    cards := [];
    var section := Mainboard;
    var i := 0;
    while i < |lines|
      invariant 0 <= i <= |lines|
      invariant ParseFrom(lines, 0, Mainboard) == cards + ParseFrom(lines, i, section)
      decreases |lines| - i
    {
      cards, section := ParseStep(lines, i, section, cards);
      i := i + 1;
    }
  }

  /** One turn of the parser loop: the line's card, if any, is appended and the section moves on. */
  method ParseStep(lines: seq<string>, i: nat, section: Section, done: seq<ParsedCard>) returns (cards: seq<ParsedCard>, next: Section)
    requires i < |lines|
    ensures cards + ParseFrom(lines, i + 1, next) == done + ParseFrom(lines, i, section)
  {
    var card;
    card, next := ParseLine(lines[i], section);
    var emitted := if card.Some? then [card.value] else [];
    var rest := ParseFrom(lines, i + 1, next);
    assert ParseFrom(lines, i, section) == emitted + rest;
    cards := done + emitted;
    ConcatAssoc(done, emitted, rest);
  }

  /** Blank text has no cards. */
  lemma BlankTextHasNoCards(text: string)
    requires AllSpace(text)
    ensures Parse(text) == []
  {
    StripEmptyIffAllSpace(text);
  }

  /** Every card has a positive quantity and a non-empty name without surrounding whitespace. */
  lemma {:induction false} CardsWellFormed(lines: seq<string>, i: nat, section: Section)
    requires i <= |lines|
    ensures forall c :: c in ParseFrom(lines, i, section) ==> WellFormed(c)
    decreases |lines| - i
  {
    if i < |lines| {
      var step := Step(lines[i], section);
      CardsWellFormed(lines, i + 1, step.1);
      assert ParseFrom(lines, i, section) == (if step.0.Some? then [step.0.value] else []) + ParseFrom(lines, i + 1, step.1);
    }
  }

  lemma ParsedCardsWellFormed(text: string)
    ensures forall c :: c in Parse(text) ==> WellFormed(c)
  {
    if !(text == [] || Strip(text) == []) {
      CardsWellFormed(Split(text, '\n'), 0, Mainboard);
    }
  }

  /** From the sideboard on, every card is a sideboard card, and the cards are in section order. */
  lemma {:induction false} SectionsNeverReturn(lines: seq<string>, i: nat, section: Section)
    requires i <= |lines|
    ensures SectionsOrdered(ParseFrom(lines, i, section))
    ensures section == Sideboard ==> forall c :: c in ParseFrom(lines, i, section) ==> c.section == Sideboard
    decreases |lines| - i
  {
    if i < |lines| {
      var step := Step(lines[i], section);
      SectionsNeverReturn(lines, i + 1, step.1);
      var tail := ParseFrom(lines, i + 1, step.1);
      assert ParseFrom(lines, i, section) == (if step.0.Some? then [step.0.value] else []) + tail;
      if step.0.Some? {
        PrependKeepsOrder(step.0.value, tail);
      }
    }
  }

  lemma PrependKeepsOrder(c: ParsedCard, tail: seq<ParsedCard>)
    requires SectionsOrdered(tail)
    requires c.section == Sideboard ==> forall d :: d in tail ==> d.section == Sideboard
    ensures SectionsOrdered([c] + tail)
  {
    var all := [c] + tail;
    forall a, b | 0 <= a < b < |all| && all[a].section == Sideboard
      ensures all[b].section == Sideboard
    {
      assert all[b] == tail[b - 1];
      if a > 0 {
        assert all[a] == tail[a - 1];
      }
    }
  }

  /** All mainboard cards come before all sideboard cards. */
  lemma MainboardBeforeSideboard(text: string)
    ensures SectionsOrdered(Parse(text))
  {
    if !(text == [] || Strip(text) == []) {
      SectionsNeverReturn(Split(text, '\n'), 0, Mainboard);
    }
  }

  /** A line `SB: <x>` with non-empty trimmed `x` is read as `x` in the sideboard. */
  lemma SbPrefixReadsRemainder(x: string, section: Section)
    requires x != [] && !IsSpace(x[0]) && !IsSpace(x[|x| - 1])
    ensures Step("SB: " + x, section) == Classify(x, Sideboard)
  {
    var line := "SB: " + x;
    assert line[|line| - 1] == x[|x| - 1];
    StripOfTrimmed(line);
    assert line == "SB" + (": " + x);
    assert Lower("SB") == Lower("sb");
    TokenOf("SB", ": " + x, "sb");
    assert ": " + x == ":" + (" " + x);
    TokenOf(":", " " + x, ":");
    StripSpaceThen(x);
  }

  /** A card line after an `SB:` prefix yields that card, in the sideboard, whatever the current section. */
  lemma SbPrefixedCard(x: string, quantity: nat, name: string, section: Section)
    requires x != [] && !IsSpace(x[0]) && !IsSpace(x[|x| - 1])
    requires !IsSideboardHeading(x) && !IsSideboardComment(x) && !IsComment(x)
    requires CardMatch(x) == Some((quantity, name)) && quantity >= 1
    ensures Step("SB: " + x, section) == (Some(ParsedCard(quantity, Strip(name), Sideboard)), Sideboard)
  {
    SbPrefixReadsRemainder(x, section);
  }
}
