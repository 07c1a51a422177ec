/**
 * The line patterns both decklist parsers use, written out as predicates. Every
 * pattern is anchored at the start of the line and allows whitespace before and
 * between its parts; letters compare case-insensitively (ASCII case folding). The
 * lines these patterns see never contain a newline, since they come from splitting on it.
 */
module DeckText {
  import opened Common

  datatype Section = Mainboard | Sideboard

  datatype ParsedCard = ParsedCard(quantity: int, cardName: string, section: Section)

  // \s* then the word w (ignoring case): what follows the word, if it is there.
  function Token(s: string, w: string): (r: Option<string>)
    ensures r.Some? ==> |r.value| + |w| <= |s| && r.value == s[|s| - |r.value|..]
  {
    var t := StripLeft(s);
    if |w| <= |t| && EqIgnoreCase(t[..|w|], w) then Some(t[|w|..]) else None
  }

  // ^\s*sideboard\s*:?\s*$
  predicate IsSideboardHeading(line: string)
  {
    match Token(line, "sideboard")
    case None => false
    case Some(r) => AllSpace(r) || (Token(r, ":").Some? && AllSpace(Token(r, ":").value))
  }

  // ^\s*//\s*sideboard\s*$
  predicate IsSideboardComment(line: string)
  {
    match Token(line, "//")
    case None => false
    case Some(r) => Token(r, "sideboard").Some? && AllSpace(Token(r, "sideboard").value)
  }

  // ^\s*~~\s*<word>\s*~~\s*$, the section markers of one decklist source.
  predicate IsTildeMarker(line: string, word: string)
  {
    match Token(line, "~~")
    case None => false
    case Some(r) =>
      match Token(r, word)
      case None => false
      case Some(r2) => Token(r2, "~~").Some? && AllSpace(Token(r2, "~~").value)
  }

  // ^\s*sb\s*:\s*(.*)$ : the stripped text after the prefix, if the line has the prefix.
  function SbRemainder(line: string): (r: Option<string>)
    ensures r.Some? ==> r.value == [] || (!IsSpace(r.value[0]) && !IsSpace(r.value[|r.value| - 1]))
  {
    match Token(line, "sb")
    case None => None
    case Some(r) =>
      match Token(r, ":")
      case None => None
      case Some(rest) => Some(Strip(rest))
  }

  /** A line starting with `//` or `#`. */
  predicate IsComment(line: string)
  {
    StartsWith(line, "//") || StartsWith(line, "#")
  }

  // ^(\d+)\s+(.+)$ : the value of the digits and the text of the second group. The
  // digits must be followed by whitespace; the second group is what follows the
  // whitespace run, or, when only whitespace follows, the last whitespace character.
  function CardMatch(line: string): (r: Option<(nat, string)>)
    ensures r.Some? ==> r.value.1 != []
  {
    var d := DigitPrefix(line);
    var rest := line[|d|..];
    if d == [] || rest == [] || !IsSpace(rest[0]) then None
    else
      var name := StripLeft(rest);
      if name != [] then Some((DigitsValue(d), name))
      else if |rest| >= 2 then Some((DigitsValue(d), rest[|rest| - 1..]))
      else None
  }

  /** On a line that does not end in whitespace, a card match names a non-empty trimmed card. */
  lemma CardMatchOfTrimmed(line: string)
    ensures line != [] && !IsSpace(line[|line| - 1]) && CardMatch(line).Some? ==>
      var n := CardMatch(line).value.1;
      Strip(n) == n && !IsSpace(n[0]) && !IsSpace(n[|n| - 1])
  {
    if line != [] && !IsSpace(line[|line| - 1]) && CardMatch(line).Some? {
      var d := DigitPrefix(line);
      var rest := line[|d|..];
      var name := StripLeft(rest);
      assert rest[|rest| - 1] == line[|line| - 1];
      assert name[|name| - 1] == rest[|rest| - 1];
      StripOfTrimmed(name);
    }
  }

  /** A line that starts with the word itself is matched by `Token`, leaving the rest. */
  lemma TokenOf(p: string, x: string, w: string)
    requires p != [] && !IsSpace(p[0]) && |p| == |w| && Lower(p) == Lower(w)
    ensures Token(p + x, w) == Some(x)
  {
    assert (p + x)[0] == p[0];
    assert (p + x)[..|w|] == p;
    assert (p + x)[|w|..] == x;
  }

  /** Whitespace in front of a trimmed string is stripped away. */
  lemma StripSpaceThen(x: string)
    requires x != [] && !IsSpace(x[0]) && !IsSpace(x[|x| - 1])
    ensures Strip(" " + x) == x
  {
    assert (" " + x)[|" " + x| - 1] == x[|x| - 1];
    assert StripRight(" " + x) == " " + x;
    assert (" " + x)[1..] == x;
  }

  /** Every card this parser emits is in the sideboard once one is. */
  ghost predicate SectionsOrdered(cards: seq<ParsedCard>)
  {
    forall i, j :: 0 <= i < j < |cards| && cards[i].section == Sideboard ==> cards[j].section == Sideboard
  }
}
