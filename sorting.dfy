/**
 * Descending sorts by a numeric key, as `sort(..., descending=True)` and
 * `list.sort(key=..., reverse=True)` order rows, and the grouping helpers the
 * aggregations share: first-appearance distinct keys, occurrence counts and sums.
 */
module Sorting {
  /** Every element's key is at least the key of each element after it. */
  predicate SortedDesc<T>(s: seq<T>, key: T -> real)
  {
    forall i, j :: 0 <= i < j < |s| ==> key(s[i]) >= key(s[j])
  }

  /** `x` placed before the first element whose key does not exceed its own (equal keys keep input order). */
  function InsertDesc<T>(x: T, t: seq<T>, key: T -> real): (r: seq<T>)
    ensures multiset(r) == multiset(t) + multiset{x}
    ensures |r| == |t| + 1
  {
    if t == [] || key(x) >= key(t[0]) then [x] + t
    else
      assert t == [t[0]] + t[1..];
      [t[0]] + InsertDesc(x, t[1..], key)
  }

  /** Insertion sort, descending by `key`. */
  function SortDesc<T>(s: seq<T>, key: T -> real): (r: seq<T>)
    ensures multiset(r) == multiset(s)
    ensures |r| == |s|
  {
    if s == [] then []
    else
      assert s == [s[0]] + s[1..];
      InsertDesc(s[0], SortDesc(s[1..], key), key)
  }

  /** An element in front of a sorted sequence whose keys it bounds keeps it sorted. */
  lemma ConsSorted<T>(a: T, rest: seq<T>, key: T -> real)
    requires SortedDesc(rest, key)
    requires forall y :: y in rest ==> key(a) >= key(y)
    ensures SortedDesc([a] + rest, key)
  {
    var r := [a] + rest;
    forall i, j | 0 <= i < j < |r|
      ensures key(r[i]) >= key(r[j])
    {
      assert r[j] == rest[j - 1];
      if i > 0 {
        assert r[i] == rest[i - 1];
      }
    }
  }

  /** What the insertion holds is the inserted element or one already there. */
  lemma InsertMembers<T>(x: T, t: seq<T>, key: T -> real)
    ensures forall y :: y in InsertDesc(x, t, key) ==> y == x || y in t
  {
    forall y | y in InsertDesc(x, t, key)
      ensures y == x || y in t
    {
      assert y in multiset(InsertDesc(x, t, key));
    }
  }

  lemma {:induction false} InsertKeepsSorted<T>(x: T, t: seq<T>, key: T -> real)
    requires SortedDesc(t, key)
    ensures SortedDesc(InsertDesc(x, t, key), key)
  {
    if t == [] || key(x) >= key(t[0]) {
      ConsSorted(x, t, key);
    } else {
      var rest := InsertDesc(x, t[1..], key);
      InsertKeepsSorted(x, t[1..], key);
      InsertMembers(x, t[1..], key);
      forall y | y in t[1..]
        ensures key(t[0]) >= key(y)
      {
        var j :| 0 <= j < |t[1..]| && t[1..][j] == y;
        assert t[j + 1] == y;
      }
      ConsSorted(t[0], rest, key);
    }
  }

  /** The sort's result is ordered by descending key and holds the same elements. */
  lemma {:induction false} SortDescSorted<T>(s: seq<T>, key: T -> real)
    ensures SortedDesc(SortDesc(s, key), key)
  {
    if s != [] {
      SortDescSorted(s[1..], key);
      InsertKeepsSorted(s[0], SortDesc(s[1..], key), key);
    }
  }

  /** Sorting neither adds nor drops an element. */
  lemma SortDescMembers<T>(s: seq<T>, key: T -> real)
    ensures forall i :: 0 <= i < |SortDesc(s, key)| ==> SortDesc(s, key)[i] in s
    ensures forall j :: 0 <= j < |s| ==> s[j] in SortDesc(s, key)
  {
    var r := SortDesc(s, key);
    forall i | 0 <= i < |r|
      ensures r[i] in s
    {
      assert r[i] in multiset(r);
    }
    forall j | 0 <= j < |s|
      ensures s[j] in r
    {
      assert s[j] in multiset(s);
    }
  }

  /** The projections of a sequence's elements, as a set. */
  function Projections<T, K>(s: seq<T>, proj: T -> K): set<K>
  {
    set i | 0 <= i < |s| :: proj(s[i])
  }

  /** Appending an element adds its projection, and keeps the projections distinct when it is new. */
  lemma ProjectionsSnoc<T, K>(s: seq<T>, x: T, proj: T -> K)
    ensures Projections(s + [x], proj) == Projections(s, proj) + {proj(x)}
    ensures DistinctBy(s, proj) && proj(x) !in Projections(s, proj) ==> DistinctBy(s + [x], proj)
  {
    var t := s + [x];
    assert t[|s|] == x;
    forall k | k in Projections(t, proj)
      ensures k in Projections(s, proj) + {proj(x)}
    {
      var i :| 0 <= i < |t| && proj(t[i]) == k;
      if i < |s| {
        assert t[i] == s[i];
      }
    }
    forall k | k in Projections(s, proj)
      ensures k in Projections(t, proj)
    {
      var i :| 0 <= i < |s| && proj(s[i]) == k;
      assert t[i] == s[i];
    }
    if DistinctBy(s, proj) && proj(x) !in Projections(s, proj) {
      forall i, j | 0 <= i < j < |t|
        ensures proj(t[i]) != proj(t[j])
      {
        assert t[i] == s[i];
        if j < |s| {
          assert t[j] == s[j];
        }
      }
    }
  }

  /** Sorting keeps every property each element has, and the set of projections. */
  lemma SortKeeps<T, K>(s: seq<T>, key: T -> real, p: T -> bool, proj: T -> K)
    requires forall i :: 0 <= i < |s| ==> p(s[i])
    ensures forall i :: 0 <= i < |SortDesc(s, key)| ==> p(SortDesc(s, key)[i])
    ensures Projections(SortDesc(s, key), proj) == Projections(s, proj)
  {
    var r := SortDesc(s, key);
    SortDescMembers(s, key);
    forall i | 0 <= i < |r|
      ensures p(r[i])
    {
      var j :| 0 <= j < |s| && s[j] == r[i];
    }
    forall k | k in Projections(s, proj)
      ensures k in Projections(r, proj)
    {
      var j :| 0 <= j < |s| && proj(s[j]) == k;
      var i :| 0 <= i < |r| && r[i] == s[j];
    }
    forall k | k in Projections(r, proj)
      ensures k in Projections(s, proj)
    {
      var i :| 0 <= i < |r| && proj(r[i]) == k;
      var j :| 0 <= j < |s| && s[j] == r[i];
    }
  }

  /** The sum of `f` over a sequence. */
  function SumBy<T>(s: seq<T>, f: T -> int): int
  {
    if s == [] then 0 else f(s[0]) + SumBy(s[1..], f)
  }

  lemma {:induction false} SumByInsert<T>(x: T, t: seq<T>, key: T -> real, f: T -> int)
    ensures SumBy(InsertDesc(x, t, key), f) == f(x) + SumBy(t, f)
  {
    if t != [] && key(x) >= key(t[0]) {
      assert ([x] + t)[1..] == t;
    } else if t != [] {
      SumByInsert(x, t[1..], key, f);
      assert ([t[0]] + InsertDesc(x, t[1..], key))[1..] == InsertDesc(x, t[1..], key);
    } else {
      assert [x][1..] == [];
    }
  }

  /** Sorting leaves every sum unchanged. */
  lemma {:induction false} SumBySort<T>(s: seq<T>, key: T -> real, f: T -> int)
    ensures SumBy(SortDesc(s, key), f) == SumBy(s, f)
  {
    if s != [] {
      SumBySort(s[1..], key, f);
      SumByInsert(s[0], SortDesc(s[1..], key), key, f);
    }
  }

  /** No two elements share a projection. */
  ghost predicate DistinctBy<T, K>(s: seq<T>, proj: T -> K)
  {
    forall i, j :: 0 <= i < j < |s| ==> proj(s[i]) != proj(s[j])
  }

  /** An element in front of a sequence with distinct projections, its own projection new, keeps them distinct. */
  lemma ConsDistinct<T, K>(a: T, rest: seq<T>, proj: T -> K)
    requires DistinctBy(rest, proj)
    requires forall y :: y in rest ==> proj(y) != proj(a)
    ensures DistinctBy([a] + rest, proj)
  {
    var r := [a] + rest;
    forall i, j | 0 <= i < j < |r|
      ensures proj(r[i]) != proj(r[j])
    {
      assert r[j] == rest[j - 1];
      if i > 0 {
        assert r[i] == rest[i - 1];
      }
    }
  }

  /** Dropping the first element keeps the projections distinct. */
  lemma TailDistinct<T, K>(s: seq<T>, proj: T -> K)
    requires s != [] && DistinctBy(s, proj)
    ensures DistinctBy(s[1..], proj)
    ensures forall y :: y in s[1..] ==> proj(y) != proj(s[0])
  {
    forall i, j | 0 <= i < j < |s[1..]|
      ensures proj(s[1..][i]) != proj(s[1..][j])
    {
      assert s[1..][i] == s[i + 1] && s[1..][j] == s[j + 1];
    }
    forall y | y in s[1..]
      ensures proj(y) != proj(s[0])
    {
      var j :| 0 <= j < |s[1..]| && s[1..][j] == y;
      assert s[j + 1] == y;
    }
  }

  lemma {:induction false} InsertKeepsDistinct<T, K>(x: T, t: seq<T>, key: T -> real, proj: T -> K)
    requires DistinctBy(t, proj)
    requires forall y :: y in t ==> proj(y) != proj(x)
    ensures DistinctBy(InsertDesc(x, t, key), proj)
  {
    if t == [] || key(x) >= key(t[0]) {
      ConsDistinct(x, t, proj);
    } else {
      var rest := InsertDesc(x, t[1..], key);
      TailDistinct(t, proj);
      assert forall y :: y in t[1..] ==> y in t;
      InsertKeepsDistinct(x, t[1..], key, proj);
      InsertMembers(x, t[1..], key);
      ConsDistinct(t[0], rest, proj);
    }
  }

  /** Sorting keeps distinct projections distinct. */
  lemma {:induction false} SortKeepsDistinct<T, K>(s: seq<T>, key: T -> real, proj: T -> K)
    requires DistinctBy(s, proj)
    ensures DistinctBy(SortDesc(s, key), proj)
  {
    if s != [] {
      TailDistinct(s, proj);
      SortKeepsDistinct(s[1..], key, proj);
      forall y | y in SortDesc(s[1..], key)
        ensures proj(y) != proj(s[0])
      {
        assert y in multiset(SortDesc(s[1..], key));
      }
      InsertKeepsDistinct(s[0], SortDesc(s[1..], key), key, proj);
    }
  }

  /** The distinct elements of a sequence, in order of first appearance (`group_by` keys). */
  function Distinct<K(==)>(xs: seq<K>): (r: seq<K>)
    ensures forall i :: 0 <= i < |r| ==> r[i] in xs
    ensures forall i :: 0 <= i < |xs| ==> xs[i] in r
    ensures forall i, j :: 0 <= i < j < |r| ==> r[i] != r[j]
  {
    if xs == [] then []
    else
      var prev := Distinct(xs[..|xs| - 1]);
      var x := xs[|xs| - 1];
      assert xs == xs[..|xs| - 1] + [x];
      if x in prev then prev else prev + [x]
  }

  /** The occurrences in `m` of the keys `ks`, added up. */
  ghost function CountSum<K>(ks: seq<K>, m: multiset<K>): nat
  {
    if ks == [] then 0 else m[ks[0]] + CountSum(ks[1..], m)
  }

  lemma {:induction false} CountSumAdd<K>(ks: seq<K>, m: multiset<K>, x: K)
    requires forall i, j :: 0 <= i < j < |ks| ==> ks[i] != ks[j]
    ensures CountSum(ks, m + multiset{x}) == CountSum(ks, m) + if x in ks then 1 else 0
  {
    if ks != [] {
      assert forall i, j :: 0 <= i < j < |ks[1..]| ==> ks[1..][i] != ks[1..][j] by {
        forall i, j | 0 <= i < j < |ks[1..]|
          ensures ks[1..][i] != ks[1..][j]
        {
          assert ks[1..][i] == ks[i + 1] && ks[1..][j] == ks[j + 1];
        }
      }
      CountSumAdd(ks[1..], m, x);
      assert x in ks <==> x == ks[0] || x in ks[1..] by {
        assert ks == [ks[0]] + ks[1..];
      }
      if x == ks[0] {
        assert x !in ks[1..] by {
          forall j | 0 <= j < |ks[1..]|
            ensures ks[1..][j] != x
          {
            assert ks[1..][j] == ks[j + 1];
          }
        }
      }
    }
  }

  lemma {:induction false} CountSumSnoc<K>(ks: seq<K>, k: K, m: multiset<K>)
    ensures CountSum(ks + [k], m) == CountSum(ks, m) + m[k]
  {
    if ks == [] {
      assert ([] + [k])[1..] == [];
    } else {
      assert (ks + [k])[1..] == ks[1..] + [k];
      CountSumSnoc(ks[1..], k, m);
    }
  }

  /** Counting every distinct key once accounts for every element: the group sizes add up to the length. */
  lemma {:induction false} GroupSizesSum<K>(xs: seq<K>)
    ensures CountSum(Distinct(xs), multiset(xs)) == |xs|
  {
    if xs != [] {
      var init := xs[..|xs| - 1];
      var x := xs[|xs| - 1];
      assert xs == init + [x];
      GroupSizesSum(init);
      var d := Distinct(init);
      CountSumAdd(d, multiset(init), x);
      assert multiset(xs) == multiset(init) + multiset{x};
      if x !in d {
        CountSumSnoc(d, x, multiset(xs));
        assert multiset(init)[x] == 0;
      }
    }
  }
}
