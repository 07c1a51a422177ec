/** Shared vocabulary: optional values, JSON-like values, Python string helpers and slicing. */
module Common {

  datatype Option<T> = None | Some(value: T)

  /** A JSON value as Python's json/dict literals build it; object keys keep insertion order. */
  datatype Json =
    | JNull
    | JBool(b: bool)
    | JInt(i: int)
    | JReal(r: real)
    | JStr(s: string)
    | JList(items: seq<Json>)
    | JObject(fields: seq<(string, Json)>)

  /** Python truthiness of a JSON-like value. */
  predicate Truthy(j: Json)
  {
    match j
    case JNull => false
    case JBool(b) => b
    case JInt(i) => i != 0
    case JReal(r) => r != 0.0
    case JStr(s) => s != ""
    case JList(items) => items != []
    case JObject(fields) => fields != []
  }

  /** Python can hash the value: a list or an object cannot be a dict key or a set member. */
  predicate Hashable(v: Json)
  {
    !v.JList? && !v.JObject?
  }

  /** Keys of an object payload or of a dictionary's entries, in insertion order. */
  function Keys<V>(fields: seq<(string, V)>): (ks: seq<string>)
    ensures |ks| == |fields|
    ensures forall i :: 0 <= i < |fields| ==> ks[i] == fields[i].0
  {
    if fields == [] then [] else [fields[0].0] + Keys(fields[1..])
  }

  /** `[f(x) for x in xs]`. */
  function MapSeq<T, U>(xs: seq<T>, f: T -> U): (r: seq<U>)
    ensures |r| == |xs|
    ensures forall i :: 0 <= i < |xs| ==> r[i] == f(xs[i])
  {
    seq(|xs|, i requires 0 <= i < |xs| => f(xs[i]))
  }

  /** Mapping a prefix one element longer appends that element's image. */
  lemma MapSeqSnoc<T, U>(xs: seq<T>, f: T -> U, i: int)
    requires 0 <= i < |xs|
    ensures MapSeq(xs[..i + 1], f) == MapSeq(xs[..i], f) + [f(xs[i])]
  {
  }

  /** A prefix one element longer, after a fixed head, is the shorter one plus that element. */
  lemma PrefixSnoc<T>(head: seq<T>, xs: seq<T>, j: int)
    requires 0 <= j < |xs|
    ensures head + xs[..j + 1] == (head + xs[..j]) + [xs[j]]
  {
    assert xs[..j + 1] == xs[..j] + [xs[j]];
  }

  /** A prefix followed by the slice after it is the longer prefix. */
  lemma PrefixSlice<T>(s: seq<T>, i: int, j: int)
    requires 0 <= i <= j <= |s|
    ensures s[..i] + s[i..j] == s[..j]
  {
  }

  /** A non-empty sequence is all but its last element, then that element. */
  lemma InitLast<T>(s: seq<T>)
    requires s != []
    ensures s == s[..|s| - 1] + [s[|s| - 1]]
  {
  }

  /** Appending one element keeps the sequence as the prefix. */
  lemma SnocInit<T>(xs: seq<T>, t: T)
    ensures (xs + [t])[..|xs|] == xs && (xs + [t])[|xs|] == t
  {
  }

  /** Concatenation regroups freely. */
  lemma ConcatAssoc<T>(a: seq<T>, b: seq<T>, c: seq<T>)
    ensures a + (b + c) == (a + b) + c
  {
  }

  /** The keys of two runs of fields, one after the other, are their keys one after the other. */
  lemma KeysConcat<V>(a: seq<(string, V)>, b: seq<(string, V)>)
    ensures Keys(a + b) == Keys(a) + Keys(b)
  {
    var k := Keys(a + b);
    assert forall i :: 0 <= i < |a| ==> k[i] == (a + b)[i].0;
    assert forall i :: |a| <= i < |a + b| ==> k[i] == (a + b)[i].0;
  }

  /** The keys of all fields are the keys of all but the last, then the last one's. */
  lemma KeysSnoc(fields: seq<(string, Json)>)
    requires fields != []
    ensures Keys(fields) == Keys(fields[..|fields| - 1]) + [fields[|fields| - 1].0]
  {
    var n := |fields| - 1;
    assert forall i :: 0 <= i < n ==> fields[..n][i] == fields[i];
  }

  /** `d.get(key)` on a parsed JSON object: the last value stored under `key`, as json.loads keeps. */
  function GetKey(fields: seq<(string, Json)>, key: string): (r: Option<Json>)
    ensures r.None? <==> key !in Keys(fields)
    ensures r.Some? ==> (key, r.value) in fields
  {
    if fields == [] then None
    else
      var n := |fields| - 1;
      if fields[n].0 == key then
        assert Keys(fields)[n] == key;
        Some(fields[n].1)
      else
        var init := fields[..n];
        var r := GetKey(init, key);
        assert r.Some? ==> (key, r.value) in fields by {
          if r.Some? {
            var j :| 0 <= j < |init| && init[j] == (key, r.value);
            assert fields[j] == init[j];
          }
        }
        KeysSnoc(fields);
        r
  }

  /** The keys of a list, in order. */
  function KeysBy<T, K>(ts: seq<T>, key: T -> K): (r: seq<K>)
    ensures |r| == |ts|
    ensures forall i :: 0 <= i < |ts| ==> r[i] == key(ts[i])
  {
    if ts == [] then [] else KeysBy(ts[..|ts| - 1], key) + [key(ts[|ts| - 1])]
  }

  /** Truthiness of an optional string (None and "" are falsy). */
  predicate StrTruthy(o: Option<string>)
  {
    o.Some? && o.value != ""
  }

  /** Truthiness of an optional list (None and [] are falsy). */
  predicate ListTruthy<T>(o: Option<seq<T>>)
  {
    o.Some? && o.value != []
  }

  function OptStrJson(o: Option<string>): Json
  {
    if o.Some? then JStr(o.value) else JNull
  }

  function OptIntJson(o: Option<int>): Json
  {
    if o.Some? then JInt(o.value) else JNull
  }

  /** Python's str.isspace, which is also what `\s` and str.strip() use on str values. */
  predicate IsSpace(c: char)
  {
    c == ' ' || ('\t' <= c <= '\r') || ('\U{1C}' <= c <= '\U{1F}') || c == '\U{85}' || c == '\U{A0}'
    || c == '\U{1680}' || ('\U{2000}' <= c <= '\U{200A}') || c == '\U{2028}' || c == '\U{2029}'
    || c == '\U{202F}' || c == '\U{205F}' || c == '\U{3000}'
  }

  predicate IsDigit(c: char)
  {
    '0' <= c <= '9'
  }

  predicate IsUpper(c: char)
  {
    'A' <= c <= 'Z'
  }

  /** ASCII lower-casing of one character. */
  function LowerChar(c: char): char
  {
    if 'A' <= c <= 'Z' then (c as int + 32) as char else c
  }

  function Lower(s: string): (r: string)
    ensures |r| == |s|
    ensures forall i :: 0 <= i < |s| ==> r[i] == LowerChar(s[i])
  {
    if s == [] then [] else [LowerChar(s[0])] + Lower(s[1..])
  }

  /** Case-insensitive equality, as a regex with IGNORECASE compares letters. */
  predicate EqIgnoreCase(a: string, b: string)
  {
    Lower(a) == Lower(b)
  }

  function StripLeft(s: string): (r: string)
    ensures r == [] || !IsSpace(r[0])
    ensures |r| <= |s| && r == s[|s| - |r|..]
    ensures forall i :: 0 <= i < |s| - |r| ==> IsSpace(s[i])
  {
    if s != [] && IsSpace(s[0]) then StripLeft(s[1..]) else s
  }

  function StripRight(s: string): (r: string)
    ensures r == [] || !IsSpace(r[|r| - 1])
    ensures |r| <= |s| && r == s[..|r|]
    ensures forall i :: |r| <= i < |s| ==> IsSpace(s[i])
  {
    if s != [] && IsSpace(s[|s| - 1]) then StripRight(s[..|s| - 1]) else s
  }

  /** Python's str.strip(). */
  function Strip(s: string): (r: string)
    ensures r == [] || (!IsSpace(r[0]) && !IsSpace(r[|r| - 1]))
  {
    StripLeft(StripRight(s))
  }

  /** A string with no whitespace at either end is its own strip. */
  lemma StripOfTrimmed(s: string)
    requires s == [] || (!IsSpace(s[0]) && !IsSpace(s[|s| - 1]))
    ensures Strip(s) == s
  {
  }

  predicate AllSpace(s: string)
  {
    forall i :: 0 <= i < |s| ==> IsSpace(s[i])
  }

  lemma StripEmptyIffAllSpace(s: string)
    ensures Strip(s) == [] <==> AllSpace(s)
  {
    var r := StripRight(s);
    if Strip(s) == [] {
      assert forall i :: 0 <= i < |r| ==> IsSpace(r[i]);
      forall i | 0 <= i < |s| ensures IsSpace(s[i]) {
        if i < |r| { assert s[i] == r[i]; }
      }
    }
  }

  predicate StartsWith(s: string, p: string)
  {
    |p| <= |s| && s[..|p|] == p
  }

  predicate EndsWith(s: string, p: string)
  {
    |p| <= |s| && s[|s| - |p|..] == p
  }

  /** Python's `p in s` for strings. */
  predicate Contains(s: string, p: string)
  {
    StartsWith(s, p) || (s != [] && Contains(s[1..], p))
  }

  predicate HasChar(s: string, c: char)
  {
    c in s
  }

  /** Python's s.split(sep) for a one-character separator. */
  function Split(s: string, sep: char): (parts: seq<string>)
    ensures |parts| >= 1
    ensures forall i :: 0 <= i < |parts| ==> sep !in parts[i]
    decreases |s|
  {
    if sep !in s then [s]
    else
      var k := FirstIndex(s, sep);
      [s[..k]] + Split(s[k + 1..], sep)
  }

  function FirstIndex(s: string, c: char): (k: nat)
    requires c in s
    ensures k < |s| && s[k] == c && c !in s[..k]
  {
    if s[0] == c then 0 else 1 + FirstIndex(s[1..], c)
  }

  /** Python's sep.join(parts). */
  function Join(parts: seq<string>, sep: string): string
  {
    if parts == [] then ""
    else if |parts| == 1 then parts[0]
    else parts[0] + sep + Join(parts[1..], sep)
  }

  /** The value of a non-empty run of ASCII digits, as Python's int() reads it. */
  function DigitsValue(d: string): nat
    requires forall i :: 0 <= i < |d| ==> IsDigit(d[i])
  {
    if d == [] then 0 else DigitsValue(d[..|d| - 1]) * 10 + DigitValue(d[|d| - 1])
  }

  function DigitValue(c: char): nat
    requires IsDigit(c)
  {
    c as int - '0' as int
  }

  /** The longest prefix of `s` made of ASCII digits. */
  function DigitPrefix(s: string): (d: string)
    ensures |d| <= |s| && d == s[..|d|]
    ensures forall i :: 0 <= i < |d| ==> IsDigit(d[i])
    ensures |d| == |s| || !IsDigit(s[|d|])
  {
    if s != [] && IsDigit(s[0]) then [s[0]] + DigitPrefix(s[1..]) else []
  }

  /** Python's normalisation of a slice bound against a sequence length. */
  function PyBound(len: nat, i: int): (b: nat)
    ensures b <= len
  {
    if i < 0 then (if len + i < 0 then 0 else len + i) else (if i > len then len else i)
  }

  /** Python's s[:stop]. */
  function PyTake<T>(s: seq<T>, stop: int): (r: seq<T>)
    ensures r == s[..PyBound(|s|, stop)]
  {
    s[..PyBound(|s|, stop)]
  }

  /** Python's s[start:]. */
  function PyDrop<T>(s: seq<T>, start: int): (r: seq<T>)
    ensures r == s[PyBound(|s|, start)..]
  {
    s[PyBound(|s|, start)..]
  }

  /** Python's int() of a float quotient: truncation toward zero. */
  function TruncDiv(a: int, b: int): int
    requires b > 0
  {
    if a >= 0 then a / b else -((-a) / b)
  }

  function Max(a: int, b: int): int
  {
    if a >= b then a else b
  }

  function Min(a: int, b: int): int
  {
    if a <= b then a else b
  }

  /** Python's sum over a sequence of integers. */
  function Sum(s: seq<int>): int
  {
    if s == [] then 0 else Sum(s[..|s| - 1]) + s[|s| - 1]
  }

  /** The runs of a list of lists, concatenated in order. */
  function Flatten<T>(bs: seq<seq<T>>): seq<T>
  {
    if bs == [] then [] else bs[0] + Flatten(bs[1..])
  }

  lemma {:induction false} FlattenConcat<T>(a: seq<seq<T>>, b: seq<seq<T>>)
    ensures Flatten(a + b) == Flatten(a) + Flatten(b)
  {
    if a != [] {
      assert (a + b)[1..] == a[1..] + b;
      FlattenConcat(a[1..], b);
    } else {
      assert a + b == b;
    }
  }

  /** `d.get(key, default)`. */
  function GetOr(fields: seq<(string, Json)>, key: string, default: Json): Json
  {
    match GetKey(fields, key)
    case Some(v) => v
    case None => default
  }

  /** Every entry under `key` gets the value `v`; the keys and their order are kept. */
  function ReplaceKey(fields: seq<(string, Json)>, key: string, v: Json): (r: seq<(string, Json)>)
    ensures Keys(r) == Keys(fields)
    ensures key in Keys(fields) ==> GetKey(r, key) == Some(v)
    ensures forall k :: k != key ==> GetKey(r, k) == GetKey(fields, k)
  {
    if fields == [] then []
    else
      var last := fields[|fields| - 1];
      var init := ReplaceKey(fields[..|fields| - 1], key, v);
      var x := if last.0 == key then (key, v) else last;
      EntryAppended(init, x);
      EntryAppended(fields[..|fields| - 1], last);
      assert fields == fields[..|fields| - 1] + [last];
      init + [x]
  }

  /** Keys and lookups of a dict with one more entry at the end. */
  lemma EntryAppended(fields: seq<(string, Json)>, x: (string, Json))
    ensures Keys(fields + [x]) == Keys(fields) + [x.0]
    ensures forall k :: GetKey(fields + [x], k) == if x.0 == k then Some(x.1) else GetKey(fields, k)
  {
    var r := fields + [x];
    assert r[..|r| - 1] == fields;
  }

  /** `d[key] = v` on a dict: an existing key keeps its place, a new key goes last. */
  function SetKey(fields: seq<(string, Json)>, key: string, v: Json): (r: seq<(string, Json)>)
    ensures GetKey(r, key) == Some(v)
    ensures forall k :: k != key ==> GetKey(r, k) == GetKey(fields, k)
    ensures Keys(r) == (if key in Keys(fields) then Keys(fields) else Keys(fields) + [key])
  {
    if key in Keys(fields) then ReplaceKey(fields, key, v)
    else
      EntryAppended(fields, (key, v));
      fields + [(key, v)]
  }
}
