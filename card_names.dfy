/**
 * Card-name normalisation for matching names across sources: typographic quotes,
 * dashes and special spaces become their ASCII forms, whitespace runs collapse to one
 * space, the ends are stripped, and a few backslash escapes are undone.
 */
module CardNames {
  import opened Common

  /** Typographic quotes, primes and accents, mapped to the ASCII quote they stand for. */
  function QuoteTarget(c: char): Option<char>
  {
    if ('\U{2018}' <= c <= '\U{201B}') || c == '\U{2032}' || c == '`' || c == '\U{B4}' then Some('\'')
    else if ('\U{201C}' <= c <= '\U{201F}') || c == '\U{2033}' then Some('"')
    else None
  }

  /** Hyphens, dashes (U+2010 to U+2015) and the minus sign. */
  predicate IsDashLike(c: char)
  {
    ('\U{2010}' <= c <= '\U{2015}') || c == '\U{2212}'
  }

  /** No-break, thin and narrow no-break spaces and the tab. */
  predicate IsSpecialSpace(c: char)
  {
    c == '\U{A0}' || c == '\U{2009}' || c == '\U{202F}' || c == '\t'
  }

  /** A character that one of the three replacement tables rewrites. */
  predicate IsMapped(c: char)
  {
    QuoteTarget(c).Some? || IsDashLike(c) || IsSpecialSpace(c)
  }

  /**
   * The three tables in one step. The tables rewrite disjoint characters into characters
   * none of them rewrites, so applying them one after another is this per-character map.
   */
  function MapChar(c: char): (d: char)
    ensures !IsMapped(d)
    ensures !IsMapped(c) ==> d == c
  {
    if QuoteTarget(c).Some? then QuoteTarget(c).value
    else if IsDashLike(c) then '-'
    else if IsSpecialSpace(c) then ' '
    else c
  }

  function MapChars(s: string): (r: string)
    ensures |r| == |s|
    ensures forall i :: 0 <= i < |s| ==> r[i] == MapChar(s[i])
    ensures forall i :: 0 <= i < |r| ==> !IsMapped(r[i])
  {
    if s == [] then [] else [MapChar(s[0])] + MapChars(s[1..])
  }

  /** Every whitespace character is a plain space. */
  predicate OnlyPlainSpaces(s: string)
  {
    forall i :: 0 <= i < |s| ==> IsSpace(s[i]) ==> s[i] == ' '
  }

  /** No two spaces in a row. */
  predicate NoDoubleSpace(s: string)
  {
    forall i :: 0 <= i < |s| - 1 ==> !(s[i] == ' ' && s[i + 1] == ' ')
  }

  /** `re.sub(r'\s+', ' ', s)`: every maximal run of whitespace becomes a single space. */
  function Collapse(s: string): (r: string)
    ensures OnlyPlainSpaces(r) && NoDoubleSpace(r)
    ensures forall i :: 0 <= i < |r| ==> r[i] == ' ' || r[i] in s
    ensures s != [] ==> r != [] && (if IsSpace(s[0]) then r[0] == ' ' else r[0] == s[0])
    ensures |r| <= |s|
    decreases |s|
  {
    if s == [] then []
    else if IsSpace(s[0]) then
      [' '] + Collapse(StripLeft(s))
    else [s[0]] + Collapse(s[1..])
  }

  /** Collapsing never looks across a non-whitespace character: the two sides collapse on their own. */
  lemma {:induction false} CollapseSplits(x: string, c: char, y: string)
    requires !IsSpace(c)
    ensures Collapse(x + [c] + y) == Collapse(x) + [c] + Collapse(y)
    decreases |x|
  {
    if x == [] {
      assert x + [c] + y == [c] + y;
      CollapseKeeps(c, y);
    } else if !IsSpace(x[0]) {
      CollapseSplits(x[1..], c, y);
      CollapseSplitsCons(x, c, y);
    } else {
      StripLeftShorter(x);
      CollapseSplits(StripLeft(x), c, y);
      CollapseSplitsRun(x, c, y);
    }
  }

  lemma StripLeftShorter(x: string)
    requires x != [] && IsSpace(x[0])
    ensures |StripLeft(x)| < |x|
  {
  }

  /** The step of CollapseSplits past a non-whitespace first character. */
  lemma CollapseSplitsCons(x: string, c: char, y: string)
    requires !IsSpace(c) && x != [] && !IsSpace(x[0])
    requires Collapse(x[1..] + [c] + y) == Collapse(x[1..]) + [c] + Collapse(y)
    ensures Collapse(x + [c] + y) == Collapse(x) + [c] + Collapse(y)
  {
    var rest := x[1..];
    HeadRest(x);
    calc {
      Collapse(x + [c] + y);
      { ConcatAssoc([x[0]], rest, [c]); ConcatAssoc([x[0]], rest + [c], y); }
      Collapse([x[0]] + (rest + [c] + y));
      { CollapseKeeps(x[0], rest + [c] + y); }
      [x[0]] + Collapse(rest + [c] + y);
      [x[0]] + (Collapse(rest) + [c] + Collapse(y));
      { ConcatAssoc([x[0]], Collapse(rest) + [c], Collapse(y)); ConcatAssoc([x[0]], Collapse(rest), [c]); }
      [x[0]] + Collapse(rest) + [c] + Collapse(y);
      { CollapseKeeps(x[0], rest); }
      Collapse(x) + [c] + Collapse(y);
    }
  }

  /** The step of CollapseSplits past a leading run of whitespace. */
  lemma CollapseSplitsRun(x: string, c: char, y: string)
    requires !IsSpace(c) && x != [] && IsSpace(x[0])
    requires Collapse(StripLeft(x) + [c] + y) == Collapse(StripLeft(x)) + [c] + Collapse(y)
    ensures Collapse(x + [c] + y) == Collapse(x) + [c] + Collapse(y)
  {
    var w := StripLeft(x);
    calc {
      Collapse(x + [c] + y);
      { ConcatAssoc(x, [c], y); }
      Collapse(x + ([c] + y));
      { CollapseSpaceHead(x + ([c] + y)); StripLeftAppend(x, [c] + y); }
      [' '] + Collapse(w + ([c] + y));
      { ConcatAssoc(w, [c], y); }
      [' '] + (Collapse(w) + [c] + Collapse(y));
      { ConcatAssoc([' '], Collapse(w) + [c], Collapse(y)); ConcatAssoc([' '], Collapse(w), [c]); }
      [' '] + Collapse(w) + [c] + Collapse(y);
      { CollapseSpaceHead(x); }
      Collapse(x) + [c] + Collapse(y);
    }
  }

  lemma HeadRest(x: string)
    requires x != []
    ensures x == [x[0]] + x[1..]
  {
  }

  /** A non-whitespace character is kept and collapsing goes on after it. */
  lemma CollapseKeeps(c: char, y: string)
    requires !IsSpace(c)
    ensures Collapse([c] + y) == [c] + Collapse(y)
  {
    assert ([c] + y)[0] == c && ([c] + y)[1..] == y;
  }

  /** Leading whitespace becomes one space and collapsing goes on after the run. */
  lemma CollapseSpaceHead(x: string)
    requires x != [] && IsSpace(x[0])
    ensures Collapse(x) == [' '] + Collapse(StripLeft(x))
  {
  }

  /** A non-empty run of whitespace followed by a non-whitespace character or the end becomes one space. */
  lemma CollapseRun(w: string, y: string)
    requires w != [] && forall i :: 0 <= i < |w| ==> IsSpace(w[i])
    requires y == [] || !IsSpace(y[0])
    ensures Collapse(w + y) == [' '] + Collapse(y)
  {
    StripLeftAppend(w, y);
    assert StripLeft(w) == [];
    assert [] + y == y;
  }

  /** Whitespace alone collapses to a single space. */
  lemma CollapseAllWhitespace(w: string)
    requires w != [] && forall i :: 0 <= i < |w| ==> IsSpace(w[i])
    ensures Collapse(w) == " "
  {
    CollapseRun(w, []);
    assert w + [] == w;
  }

  /** Text without whitespace is left as it is. */
  lemma {:induction false} CollapseNoWhitespace(x: string)
    requires forall i :: 0 <= i < |x| ==> !IsSpace(x[i])
    ensures Collapse(x) == x
    decreases |x|
  {
    if x != [] {
      CollapseNoWhitespace(x[1..]);
    }
  }

  /** Stripping the left of `x + y` stops in `x` unless `x` is all whitespace. */
  lemma {:induction false} StripLeftAppend(x: string, y: string)
    requires y == [] || !IsSpace(y[0])
    ensures StripLeft(x + y) == StripLeft(x) + y
    decreases |x|
  {
    if x != [] {
      assert (x + y)[0] == x[0];
      if IsSpace(x[0]) {
        assert (x + y)[1..] == x[1..] + y;
        StripLeftAppend(x[1..], y);
      }
    } else {
      assert x + y == y;
    }
  }

  /** Python's `s.replace(a + b, c)`: non-overlapping occurrences, scanned left to right. */
  function ReplacePair(s: string, a: char, b: char, c: char): (r: string)
    ensures |r| <= |s|
    ensures forall i :: 0 <= i < |r| ==> r[i] == c || r[i] in s
    ensures s != [] ==> r != [] && (r[0] == s[0] || r[0] == c)
    ensures s != [] ==> (r[|r| - 1] == s[|s| - 1] || r[|r| - 1] == c)
    ensures a !in s ==> r == s
  {
    if |s| < 2 then s
    else if s[0] == a && s[1] == b then [c] + ReplacePair(s[2..], a, b, c)
    else [s[0]] + ReplacePair(s[1..], a, b, c)
  }

  /** `a` at position j, directly followed by `b`. */
  predicate PairAt(s: string, j: int, a: char, b: char)
  {
    0 <= j && j + 1 < |s| && s[j] == a && s[j + 1] == b
  }

  /** The first position where `a` is directly followed by `b`, as `str.find(a + b)` gives it. */
  function FindPair(s: string, a: char, b: char): (r: Option<nat>)
    ensures r.Some? ==> PairAt(s, r.value, a, b)
    ensures r.Some? ==> forall j :: 0 <= j < r.value ==> !PairAt(s, j, a, b)
    ensures r.None? ==> forall j :: 0 <= j < |s| ==> !PairAt(s, j, a, b)
  {
    if |s| < 2 then None
    else if s[0] == a && s[1] == b then Some(0)
    else
      PairAtTail(s, a, b);
      match FindPair(s[1..], a, b)
      case None => None
      case Some(j) => Some(j + 1)
  }

  /** An occurrence past the first character is an occurrence in the rest, one position earlier. */
  lemma PairAtTail(s: string, a: char, b: char)
    requires s != []
    ensures forall j :: 1 <= j < |s| ==> PairAt(s, j, a, b) == PairAt(s[1..], j - 1, a, b)
  {
  }

  /**
   * The replacement stated by search: find the first occurrence, replace it, and go on
   * after it; with no occurrence the text is unchanged.
   */
  function ReplaceByFind(s: string, a: char, b: char, c: char): string
    decreases |s|
  {
    match FindPair(s, a, b)
    case None => s
    case Some(i) => s[..i] + [c] + ReplaceByFind(s[i + 2..], a, b, c)
  }

  /** The one-pass scan replaces exactly what repeated search-and-replace does. */
  lemma {:induction false} ReplacePairIsReplaceByFind(s: string, a: char, b: char, c: char)
    ensures ReplacePair(s, a, b, c) == ReplaceByFind(s, a, b, c)
    decreases |s|
  {
    if |s| >= 2 {
      if s[0] == a && s[1] == b {
        ReplacePairIsReplaceByFind(s[2..], a, b, c);
        assert s[..0] == [];
      } else {
        ReplacePairIsReplaceByFind(s[1..], a, b, c);
        ReplaceByFindCons(s, a, b, c);
      }
    }
  }

  /** Past a first character that does not start an occurrence, the search-and-replace keeps it and goes on. */
  lemma ReplaceByFindCons(s: string, a: char, b: char, c: char)
    requires |s| >= 2 && !(s[0] == a && s[1] == b)
    ensures ReplaceByFind(s, a, b, c) == [s[0]] + ReplaceByFind(s[1..], a, b, c)
  {
    var t := s[1..];
    match FindPair(t, a, b)
    case None =>
      assert [s[0]] + t == s;
    case Some(j) =>
      assert FindPair(s, a, b) == Some(j + 1);
      assert s[..j + 1] == [s[0]] + t[..j];
      assert s[j + 3..] == t[j + 2..];
      ConcatAssoc([s[0]], t[..j], [c]);
      ConcatAssoc([s[0]], t[..j] + [c], ReplaceByFind(t[j + 2..], a, b, c));
  }

  /** Without an occurrence of `a` followed by `b`, replacing changes nothing. */
  lemma NoPairUnchanged(s: string, a: char, b: char, c: char)
    requires forall j :: 0 <= j < |s| ==> !PairAt(s, j, a, b)
    ensures ReplacePair(s, a, b, c) == s
  {
    ReplacePairIsReplaceByFind(s, a, b, c);
  }

  /** Replacing by anything but a space adds no double space. */
  lemma {:induction false} ReplacePairNoDoubleSpace(s: string, a: char, b: char, c: char)
    requires c != ' ' && NoDoubleSpace(s)
    ensures NoDoubleSpace(ReplacePair(s, a, b, c))
    decreases |s|
  {
    if |s| >= 2 {
      if s[0] == a && s[1] == b {
        ReplacePairNoDoubleSpace(s[2..], a, b, c);
      } else {
        ReplacePairNoDoubleSpace(s[1..], a, b, c);
        var t := ReplacePair(s[1..], a, b, c);
        if t != [] && s[0] == ' ' {
          assert t[0] == s[1] || t[0] == c;
        }
        assert ReplacePair(s, a, b, c) == [s[0]] + t;
      }
    }
  }

  /** Undoes the escapes `\'`, `\"`, `\,` and `\&`, in that order. */
  function Unescape(s: string): (r: string)
    ensures |r| <= |s|
    ensures '\\' !in s ==> r == s
  {
    ReplacePair(ReplacePair(ReplacePair(ReplacePair(s, '\\', '\'', '\''), '\\', '"', '"'), '\\', ',', ','), '\\', '&', '&')
  }

  /**
   * `normalize_card_name`: the empty string is returned as is; otherwise the character
   * tables, whitespace collapsing, stripping and unescaping apply in that order.
   * Unicode NFC composition is taken as the identity.
   */
  function NormalizeCardName(name: string): (r: string)
    ensures |r| <= |name|
    ensures name == [] ==> r == []
  {
    if name == [] then name
    else Unescape(Strip(Collapse(MapChars(name))))
  }

  /** What a normalised name looks like. */
  predicate Tidy(s: string)
  {
    (forall i :: 0 <= i < |s| ==> !IsMapped(s[i]))
    && OnlyPlainSpaces(s) && NoDoubleSpace(s)
    && (s == [] || (s[0] != ' ' && s[|s| - 1] != ' '))
  }

  /** A contiguous piece of a string keeps every per-position and adjacency property. */
  lemma SliceKeeps(s: string, lo: int, hi: int)
    requires 0 <= lo <= hi <= |s|
    requires forall i :: 0 <= i < |s| ==> !IsMapped(s[i])
    requires OnlyPlainSpaces(s) && NoDoubleSpace(s)
    ensures forall i :: 0 <= i < hi - lo ==> !IsMapped(s[lo..hi][i])
    ensures OnlyPlainSpaces(s[lo..hi]) && NoDoubleSpace(s[lo..hi])
  {
    var t := s[lo..hi];
    forall i | 0 <= i < |t| - 1
      ensures !(t[i] == ' ' && t[i + 1] == ' ')
    {
      assert t[i] == s[lo + i] && t[i + 1] == s[lo + i + 1];
    }
  }

  lemma StripKeepsTidy(s: string)
    requires forall i :: 0 <= i < |s| ==> !IsMapped(s[i])
    requires OnlyPlainSpaces(s) && NoDoubleSpace(s)
    ensures Tidy(Strip(s))
  {
    var r := StripRight(s);
    SliceKeeps(s, 0, |r|);
    var t := StripLeft(r);
    SliceKeeps(r, |r| - |t|, |r|);
  }

  /** One unescaping pass keeps a tidy string tidy. */
  lemma ReplacePairKeepsTidy(s: string, a: char, b: char, c: char)
    requires Tidy(s) && !IsSpace(c) && !IsMapped(c)
    ensures Tidy(ReplacePair(s, a, b, c))
  {
    var r := ReplacePair(s, a, b, c);
    ReplacePairNoDoubleSpace(s, a, b, c);
    forall i | 0 <= i < |r|
      ensures !IsMapped(r[i]) && (IsSpace(r[i]) ==> r[i] == ' ')
    {
      if r[i] != c {
        var k :| 0 <= k < |s| && s[k] == r[i];
        assert !IsMapped(s[k]) && (IsSpace(s[k]) ==> s[k] == ' ');
      }
    }
  }

  /**
   * A normalised name contains none of the rewritten characters, no whitespace other
   * than single inner spaces, and no leading or trailing space.
   */
  lemma NormalizedIsTidy(name: string)
    ensures Tidy(NormalizeCardName(name))
  {
    if name != [] {
      var m := MapChars(name);
      CollapseKeepsUnmapped(m);
      StripKeepsTidy(Collapse(m));
      UnescapeKeepsTidy(Strip(Collapse(m)));
    }
  }

  lemma UnescapeKeepsTidy(t: string)
    requires Tidy(t)
    ensures Tidy(Unescape(t))
  {
    ReplacePairKeepsTidy(t, '\\', '\'', '\'');
    var t1 := ReplacePair(t, '\\', '\'', '\'');
    ReplacePairKeepsTidy(t1, '\\', '"', '"');
    var t2 := ReplacePair(t1, '\\', '"', '"');
    ReplacePairKeepsTidy(t2, '\\', ',', ',');
    var t3 := ReplacePair(t2, '\\', ',', ',');
    ReplacePairKeepsTidy(t3, '\\', '&', '&');
  }

  lemma CollapseKeepsUnmapped(m: string)
    requires forall k :: 0 <= k < |m| ==> !IsMapped(m[k])
    ensures forall i :: 0 <= i < |Collapse(m)| ==> !IsMapped(Collapse(m)[i])
  {
    CharsFromKeep(m, Collapse(m), ' ', c => !IsMapped(c));
  }

  /** A property of every character of `s` and of `extra` holds of a string made of those characters only. */
  lemma CharsFromKeep(s: string, r: string, extra: char, p: char -> bool)
    requires forall k :: 0 <= k < |s| ==> p(s[k])
    requires p(extra)
    requires forall i :: 0 <= i < |r| ==> r[i] == extra || r[i] in s
    ensures forall i :: 0 <= i < |r| ==> p(r[i])
  {
    forall i | 0 <= i < |r|
      ensures p(r[i])
    {
      if r[i] != extra {
        var k :| 0 <= k < |s| && s[k] == r[i];
      }
    }
  }

  lemma {:induction false} MapCharsOfTidy(s: string)
    requires forall i :: 0 <= i < |s| ==> !IsMapped(s[i])
    ensures MapChars(s) == s
  {
    if s != [] {
      MapCharsOfTidy(s[1..]);
    }
  }

  lemma {:induction false} CollapseOfTidy(s: string)
    requires OnlyPlainSpaces(s) && NoDoubleSpace(s)
    ensures Collapse(s) == s
  {
    if s != [] {
      SliceKeepsSpaces(s);
      if IsSpace(s[0]) {
        assert StripLeft(s) == s[1..] by {
          if |s| > 1 {
            assert s[1] != ' ';
          }
        }
      }
      CollapseOfTidy(s[1..]);
    }
  }

  lemma SliceKeepsSpaces(s: string)
    requires s != [] && OnlyPlainSpaces(s) && NoDoubleSpace(s)
    ensures OnlyPlainSpaces(s[1..]) && NoDoubleSpace(s[1..])
  {
    var t := s[1..];
    forall i | 0 <= i < |t| - 1
      ensures !(t[i] == ' ' && t[i + 1] == ' ')
    {
      assert t[i] == s[i + 1] && t[i + 1] == s[i + 2];
    }
  }

  /**
   * A tidy name without backslashes is left unchanged, so normalising such a name a
   * second time changes nothing.
   */
  lemma TidyIsFixedPoint(name: string)
    requires Tidy(name) && '\\' !in name
    ensures NormalizeCardName(name) == name
  {
    if name != [] {
      MapCharsOfTidy(name);
      CollapseOfTidy(name);
      StripOfTrimmed(name);
    }
  }

  lemma EmptyNameUnchanged()
    ensures NormalizeCardName("") == ""
  {
  }
}
