/**
 * The shared decklist parser: like the tournament loader's, plus the `~~Mainboard~~` and
 * `~~Sideboard~~` markers, literal `\n` sequences in single-line text, card-name
 * normalisation and the `Wear/Tear` split-card spelling.
 */
module UtilsDecklist {
  import opened Common
  import opened DeckText
  import opened CardNames

  /** The stripped pieces of a name split at `/`. */
  function StripEach(parts: seq<string>): (r: seq<string>)
    ensures |r| == |parts|
    ensures forall i :: 0 <= i < |parts| ==> r[i] == Strip(parts[i])
  {
    seq(|parts|, i requires 0 <= i < |parts| => Strip(parts[i]))
  }

  /** When a name is a split card written with a single `/`: two pieces, both capitalised, no colon. */
  predicate SplitApplies(name: string)
  {
    '/' in name && !Contains(name, "//")
    && var parts := StripEach(Split(name, '/'));
    |parts| == 2 && parts[0] != [] && parts[1] != [] && IsUpper(parts[0][0]) && IsUpper(parts[1][0])
    && ':' !in parts[0] && ':' !in parts[1]
  }

  /** `Wear/Tear` becomes `Wear // Tear`; any other name is kept. */
  function SplitCardName(name: string): (r: string)
    ensures !SplitApplies(name) ==> r == name
    ensures SplitApplies(name) ==> r != name && Contains(r, " // ")
  {
    if SplitApplies(name) then
      var parts := StripEach(Split(name, '/'));
      SeparatorInside(parts[0], parts[1]);
      parts[0] + " // " + parts[1]
    else name
  }

  /**
   * The split-card spelling changes exactly the names it applies to, into the two
   * stripped pieces around ` // `.
   */
  lemma SplitCardNameShape(name: string)
    ensures !SplitApplies(name) ==> SplitCardName(name) == name
    ensures SplitApplies(name) ==>
      (SplitCardName(name) != name && Contains(SplitCardName(name), " // ")
       && SplitCardName(name) == Strip(Split(name, '/')[0]) + " // " + Strip(Split(name, '/')[1]))
  {
    if SplitApplies(name) {
      var parts := StripEach(Split(name, '/'));
      SeparatorInside(parts[0], parts[1]);
    }
  }

  lemma SeparatorInside(a: string, b: string)
    ensures Contains(a + " // " + b, " // ") && Contains(a + " // " + b, "//")
  {
    ContainsMiddle(a, " // ", b);
    ContainsMiddle(a + " ", "//", " " + b);
    assert (a + " ") + "//" + (" " + b) == a + " // " + b;
  }

  lemma {:induction false} ContainsMiddle(a: string, p: string, b: string)
    ensures Contains(a + p + b, p)
  {
    if a != [] {
      ContainsMiddle(a[1..], p, b);
      assert (a + p + b)[1..] == a[1..] + p + b;
    } else {
      assert (a + p + b)[..|p|] == p;
    }
  }

  /** Literal `\n` sequences become newlines, but only in text without a real newline. */
  function UnescapeNewlines(text: string): string
  {
    if Contains(text, "\\n") && '\n' !in text then ReplacePair(text, '\\', 'n', '\n') else text
  }

  /** Writes every newline back as the two characters `\n`. */
  function EscapeNewlines(s: string): string
  {
    if s == [] then [] else (if s[0] == '\n' then "\\n" else [s[0]]) + EscapeNewlines(s[1..])
  }

  lemma {:induction false} EscapeWithoutNewlines(s: string)
    requires '\n' !in s
    ensures EscapeNewlines(s) == s
  {
    if s != [] {
      EscapeWithoutNewlines(s[1..]);
    }
  }

  lemma {:induction false} EscapeUndoesReplace(s: string)
    requires '\n' !in s
    ensures EscapeNewlines(ReplacePair(s, '\\', 'n', '\n')) == s
  {
    if |s| < 2 {
      EscapeWithoutNewlines(s);
    } else if s[0] == '\\' && s[1] == 'n' {
      EscapeUndoesReplace(s[2..]);
      var t := ReplacePair(s[2..], '\\', 'n', '\n');
      assert ([('\n')] + t)[1..] == t;
      assert s == "\\n" + s[2..];
    } else {
      EscapeUndoesReplace(s[1..]);
      var t := ReplacePair(s[1..], '\\', 'n', '\n');
      assert ([s[0]] + t)[1..] == t;
      assert s == [s[0]] + s[1..];
    }
  }

  /** Text with a real newline is split as it is. */
  lemma RealNewlinesWin(text: string)
    requires '\n' in text
    ensures UnescapeNewlines(text) == text
  {
  }

  /** Unescaping single-line text loses nothing: escaping the newlines again restores it. */
  lemma UnescapeRoundTrip(text: string)
    requires '\n' !in text
    ensures EscapeNewlines(UnescapeNewlines(text)) == text
  {
    if Contains(text, "\\n") {
      EscapeUndoesReplace(text);
    } else {
      EscapeWithoutNewlines(text);
    }
  }

  /** The card name as stored: group 2 stripped, normalised, and the split-card spelling applied. */
  function CardName(group: string): string
  {
    SplitCardName(NormalizeCardName(Strip(group)))
  }

  /** What the rest of a line does once any `SB:` prefix has been dealt with. */
  function Classify(line: string, section: Section): (r: (Option<ParsedCard>, Section))
    ensures r.0.Some? ==> r.0.value.quantity >= 1 && r.0.value.section == section && r.1 == section
  {
    if IsSideboardHeading(line) || IsSideboardComment(line) || IsTildeMarker(line, "sideboard") then (None, Sideboard)
    else if IsComment(line) then (None, section)
    else match CardMatch(line)
      case None => (None, section)
      case Some((quantity, group)) =>
        if quantity <= 0 then (None, section)
        else (Some(ParsedCard(quantity, CardName(group), section)), section)
  }

  /** One line: the card it yields, if any, and the section for the next line. */
  function Step(raw: string, section: Section): (r: (Option<ParsedCard>, Section))
    ensures r.0.Some? ==> r.0.value.quantity >= 1 && r.0.value.section == r.1
  {
    var line := Strip(raw);
    if line == [] then (None, section)
    else if IsTildeMarker(line, "mainboard") then (None, Mainboard)
    else match SbRemainder(line)
      case Some(rest) => if rest == [] then (None, Sideboard) else Classify(rest, Sideboard)
      case None => Classify(line, section)
  }

  /** The cards of lines[i..], starting in `section`. */
  function ParseFrom(lines: seq<string>, i: nat, section: Section): seq<ParsedCard>
    requires i <= |lines|
    decreases |lines| - i
  {
    if i == |lines| then []
    else
      var step := Step(lines[i], section);
      (if step.0.Some? then [step.0.value] else []) + ParseFrom(lines, i + 1, step.1)
  }

  /** `parse_decklist`: empty or blank text gives no cards. */
  function Parse(text: string): seq<ParsedCard>
  {
    if text == [] || Strip(text) == [] then []
    else ParseFrom(Split(UnescapeNewlines(text), '\n'), 0, Mainboard)
  }

  /** The body of the parser loop for one line. */
  method ParseLine(raw: string, section: Section) returns (card: Option<ParsedCard>, next: Section)
    ensures (card, next) == Step(raw, section)
  {
    var line := Strip(raw);
    if line == [] {
      return None, section;
    }
    if IsTildeMarker(line, "mainboard") {
      return None, Mainboard;
    }
    var sb := SbRemainder(line);
    if sb.Some? {
      if sb.value == [] {
        return None, Sideboard;
      }
      card, next := ClassifyLine(sb.value, Sideboard);
    } else {
      card, next := ClassifyLine(line, section);
    }
  }

  /** The rest of the loop body, after the `SB:` check. */
  method ClassifyLine(line: string, section: Section) returns (card: Option<ParsedCard>, next: Section)
    ensures (card, next) == Classify(line, section)
  {
    card, next := None, section;
    if IsSideboardHeading(line) || IsSideboardComment(line) || IsTildeMarker(line, "sideboard") {
      next := Sideboard;
      return;
    }
    if IsComment(line) {
      return;
    }
    var m := CardMatch(line);
    if m.Some? {
      var quantity := m.value.0;
      var name := NormalizeCardName(Strip(m.value.1));
      name := SplitCardName(name);
      if quantity <= 0 {
        return;
      }
      card := Some(ParsedCard(quantity, name, next));
    }
  }

  /** `parse_decklist`: the blank-text guard, the newline fix-up, then the loop over the lines. */
  method ParseDecklist(text: string) returns (cards: seq<ParsedCard>)
    ensures cards == Parse(text)
  {
    if text == [] || Strip(text) == [] {
      return [];
    }
    var t := text;
    if Contains(t, "\\n") && '\n' !in t {
      t := ReplacePair(t, '\\', 'n', '\n');
    }
    cards := ParseLines(Split(t, '\n'));
  }

  /** The parser loop, with its current section and the list it appends to. */
  method ParseLines(lines: seq<string>) returns (cards: seq<ParsedCard>)
    ensures cards == ParseFrom(lines, 0, Mainboard)
  {
    cards := [];
    var section := Mainboard;
    var i := 0;
    while i < |lines|
      invariant 0 <= i <= |lines|
      invariant ParseFrom(lines, 0, Mainboard) == cards + ParseFrom(lines, i, section)
      decreases |lines| - i
    {
      var card, next := ParseLine(lines[i], section);
      var emitted := if card.Some? then [card.value] else [];
      ParseFromStep(lines, i, section, cards);
      cards := cards + emitted;
      section := next;
      i := i + 1;
    }
  }

  lemma ParseFromStep(lines: seq<string>, i: nat, section: Section, done: seq<ParsedCard>)
    requires i < |lines|
    ensures var step := Step(lines[i], section);
      done + ParseFrom(lines, i, section)
      == (done + (if step.0.Some? then [step.0.value] else [])) + ParseFrom(lines, i + 1, step.1)
  {
  }

  /** Blank text has no cards. */
  lemma BlankTextHasNoCards(text: string)
    requires AllSpace(text)
    ensures Parse(text) == []
  {
    StripEmptyIffAllSpace(text);
  }

  /** Every card has a quantity of at least one. */
  lemma {:induction false} QuantitiesPositive(lines: seq<string>, i: nat, section: Section)
    requires i <= |lines|
    ensures forall c :: c in ParseFrom(lines, i, section) ==> c.quantity >= 1
    decreases |lines| - i
  {
    if i < |lines| {
      var step := Step(lines[i], section);
      QuantitiesPositive(lines, i + 1, step.1);
      assert ParseFrom(lines, i, section) == (if step.0.Some? then [step.0.value] else []) + ParseFrom(lines, i + 1, step.1);
    }
  }

  lemma ParsedQuantitiesPositive(text: string)
    ensures forall c :: c in Parse(text) ==> c.quantity >= 1
  {
    if !(text == [] || Strip(text) == []) {
      QuantitiesPositive(Split(UnescapeNewlines(text), '\n'), 0, Mainboard);
    }
  }

  /**
   * Marker lines yield no card: `~~Mainboard~~` moves to the mainboard, and `SB:` alone,
   * `Sideboard`, `Sideboard:`, `// Sideboard` and `~~Sideboard~~` move to the sideboard.
   */
  lemma MarkersSetSection(raw: string, section: Section)
    ensures IsTildeMarker(Strip(raw), "mainboard") ==> Step(raw, section) == (None, Mainboard)
    ensures var line := Strip(raw);
      line != [] && !IsTildeMarker(line, "mainboard") && SbRemainder(line) == Some([])
      ==> Step(raw, section) == (None, Sideboard)
    ensures var line := Strip(raw);
      !IsTildeMarker(line, "mainboard") && SbRemainder(line).None?
      && (IsSideboardHeading(line) || IsSideboardComment(line) || IsTildeMarker(line, "sideboard"))
      ==> Step(raw, section) == (None, Sideboard)
  {
    var line := Strip(raw);
    if IsTildeMarker(line, "mainboard") {
      assert Token(line, "~~").Some?;
    }
    if IsSideboardHeading(line) {
      assert Token(line, "sideboard").Some?;
    }
    if IsSideboardComment(line) {
      assert Token(line, "//").Some?;
    }
    if IsTildeMarker(line, "sideboard") {
      assert Token(line, "~~").Some?;
    }
  }
}
