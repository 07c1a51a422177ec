/**
 * The tournament loads. Tournaments are fetched for seven constructed formats, one
 * list per format (a failed fetch counting as an empty list), and collected in that
 * order keeping the first tournament of each truthy TID. A truthy TID that a set cannot
 * hold (a list or an object) raises inside the format's `try`: the rest of that list is
 * skipped and collection goes on with the next format. The tournament pipeline can
 * stop collecting at a limit and cut the filtered list to it again. Each tournament is
 * then loaded in a transaction whose outcome is given as `ok`; a tournament without a
 * TID fails before the transaction. The loads count what they load and remember the
 * latest start date, which goes into the load metadata. Filtering raises on a truthy
 * format that is not a string, and the loop raises on a loaded tournament whose start
 * date is not a number; neither is caught, so the whole load raises.
 *
 * Two families share this shape: the ETL loaders (both copies, which return the loaded
 * count and differ only in the filter rules) and the tournament pipeline (which
 * returns a report and honours a limit).
 */
module TournamentLoad {
  import opened Common
  import opened TournamentFilters
  import CardsLoad

  const LoadFormats: seq<string> := ["Standard", "Modern", "Legacy", "Vintage", "Pioneer", "Pauper", "Constructed"]

  const DefaultDaysBack: int := 90

  const SecondsPerDay: int := 86400

  /** `tournament.get('TID')`. */
  function Tid(t: Dict): Json
  {
    GetOr(t, "TID", JNull)
  }

  /**
   * A TID as a Python set sees it: None when it cannot be hashed (a list or an object);
   * a bool or a whole float stands for the integer it equals.
   */
  function HashKey(tid: Json): (k: Option<Json>)
    ensures k.Some? ==> Truthy(k.value) == Truthy(tid)
  {
    match tid
    case JList(_) => None
    case JObject(_) => None
    case JBool(b) => Some(JInt(if b then 1 else 0))
    case JReal(r) => if r == r.Floor as real then Some(JInt(r.Floor)) else Some(tid)
    case _ => Some(tid)
  }

  /** The key the de-duplication set holds for a tournament (its TID itself when unhashable). */
  function TidKey(t: Dict): Json
  {
    match HashKey(Tid(t))
    case Some(k) => k
    case None => Tid(t)
  }

  /** `tid not in tournament_ids` raises: the TID is truthy and cannot be hashed. */
  predicate TidRaises(t: Dict)
  {
    Truthy(Tid(t)) && HashKey(Tid(t)).None?
  }

  /** Two hashable TIDs are the same set element exactly when their keys are equal; `True` and `1.0` both are `1`. */
  lemma SameSetElement()
    ensures HashKey(JBool(true)) == HashKey(JInt(1)) == HashKey(JReal(1.0))
    ensures HashKey(JStr("1")) != HashKey(JInt(1))
    ensures HashKey(JReal(1.5)) == Some(JReal(1.5))
  {
  }

  /** The de-duplication loop as a value: an element is kept when its key is truthy and not yet seen. */
  function DedupBy<T>(ts: seq<T>, key: T -> Json): (r: seq<T>)
    ensures |r| <= |ts|
  {
    if ts == [] then []
    else
      var prev := DedupBy(ts[..|ts| - 1], key);
      var t := ts[|ts| - 1];
      if Truthy(key(t)) && key(t) !in KeysBy(prev, key) then prev + [t] else prev
  }

  /** Only input elements are kept. */
  lemma {:induction false} DedupFromInput<T>(ts: seq<T>, key: T -> Json)
    ensures forall x :: x in DedupBy(ts, key) ==> x in ts
  {
    if ts != [] {
      DedupFromInput(ts[..|ts| - 1], key);
      assert forall x :: x in ts[..|ts| - 1] ==> x in ts;
    }
  }

  /** The kept elements have truthy, pairwise distinct keys, and every truthy key of the input is kept. */
  lemma {:induction false} DedupDistinct<T>(ts: seq<T>, key: T -> Json)
    ensures forall i :: 0 <= i < |DedupBy(ts, key)| ==> Truthy(key(DedupBy(ts, key)[i]))
    ensures forall i, j :: 0 <= i < j < |DedupBy(ts, key)| ==> key(DedupBy(ts, key)[i]) != key(DedupBy(ts, key)[j])
    ensures forall i :: 0 <= i < |ts| && Truthy(key(ts[i])) ==> key(ts[i]) in KeysBy(DedupBy(ts, key), key)
  {
    DedupTruthyDistinct(ts, key);
    DedupCovers(ts, key);
  }

  lemma {:induction false} DedupTruthyDistinct<T>(ts: seq<T>, key: T -> Json)
    ensures forall i :: 0 <= i < |DedupBy(ts, key)| ==> Truthy(key(DedupBy(ts, key)[i]))
    ensures forall i, j :: 0 <= i < j < |DedupBy(ts, key)| ==> key(DedupBy(ts, key)[i]) != key(DedupBy(ts, key)[j])
  {
    if ts != [] {
      var init := ts[..|ts| - 1];
      var t := ts[|ts| - 1];
      DedupTruthyDistinct(init, key);
      var prev := DedupBy(init, key);
      var r := DedupBy(ts, key);
      if r != prev {
        assert r == prev + [t] && key(t) !in KeysBy(prev, key);
        forall i | 0 <= i < |prev|
          ensures key(prev[i]) != key(t)
        {
          assert KeysBy(prev, key)[i] == key(prev[i]);
        }
      }
    }
  }

  lemma {:induction false} DedupCovers<T>(ts: seq<T>, key: T -> Json)
    ensures forall i :: 0 <= i < |ts| && Truthy(key(ts[i])) ==> key(ts[i]) in KeysBy(DedupBy(ts, key), key)
  {
    if ts != [] {
      var init := ts[..|ts| - 1];
      var t := ts[|ts| - 1];
      DedupCovers(init, key);
      var prev := DedupBy(init, key);
      var r := DedupBy(ts, key);
      assert prev <= r;
      forall i | 0 <= i < |ts| && Truthy(key(ts[i]))
        ensures key(ts[i]) in KeysBy(r, key)
      {
        if i < |init| {
          assert ts[i] == init[i];
          var k :| 0 <= k < |prev| && KeysBy(prev, key)[k] == key(ts[i]);
          assert KeysBy(r, key)[k] == key(r[k]) == key(prev[k]);
        } else {
          if key(t) in KeysBy(prev, key) {
            var k :| 0 <= k < |prev| && KeysBy(prev, key)[k] == key(t);
            assert KeysBy(r, key)[k] == key(r[k]) == key(prev[k]);
          } else {
            assert r == prev + [t];
            assert KeysBy(r, key)[|prev|] == key(t);
          }
        }
      }
    }
  }

  /** No element before position i has the key of element i. */
  predicate FirstWithKey<T>(ts: seq<T>, i: int, key: T -> Json)
    requires 0 <= i < |ts|
  {
    forall j :: 0 <= j < i ==> key(ts[j]) != key(ts[i])
  }

  /** Each kept element is the first of the input with its key. */
  lemma {:induction false} DedupKeepsFirst<T>(ts: seq<T>, key: T -> Json)
    ensures forall k :: 0 <= k < |DedupBy(ts, key)| ==>
      exists i :: 0 <= i < |ts| && ts[i] == DedupBy(ts, key)[k] && FirstWithKey(ts, i, key)
  {
    if ts != [] {
      var init := ts[..|ts| - 1];
      var t := ts[|ts| - 1];
      DedupKeepsFirst(init, key);
      DedupDistinct(init, key);
      var prev := DedupBy(init, key);
      var r := DedupBy(ts, key);
      assert prev <= r;
      forall k | 0 <= k < |r|
        ensures exists i :: 0 <= i < |ts| && ts[i] == r[k] && FirstWithKey(ts, i, key)
      {
        if k < |prev| {
          assert r[k] == prev[k];
          var i :| 0 <= i < |init| && init[i] == prev[k] && FirstWithKey(init, i, key);
          assert ts[i] == init[i];
          assert forall j :: 0 <= j < i ==> ts[j] == init[j];
          assert FirstWithKey(ts, i, key);
        } else {
          assert r == prev + [t] && Truthy(key(t)) && key(t) !in KeysBy(prev, key);
          var i := |ts| - 1;
          forall j | 0 <= j < i
            ensures key(ts[j]) != key(ts[i])
          {
            assert ts[j] == init[j];
            assert Truthy(key(init[j])) ==> key(init[j]) in KeysBy(prev, key);
          }
          assert ts[i] == r[k] && FirstWithKey(ts, i, key);
        }
      }
      assert forall k :: 0 <= k < |r| ==> exists i :: 0 <= i < |ts| && ts[i] == r[k] && FirstWithKey(ts, i, key);
    } else {
      assert DedupBy(ts, key) == [];
    }
  }

  /** One more element: kept at the end exactly when its key is truthy and not yet kept. */
  lemma DedupSnoc<T>(xs: seq<T>, t: T, key: T -> Json)
    ensures DedupBy(xs + [t], key) ==
      if Truthy(key(t)) && key(t) !in KeysBy(DedupBy(xs, key), key) then DedupBy(xs, key) + [t] else DedupBy(xs, key)
  {
    assert (xs + [t])[..|xs|] == xs;
  }

  /** One step of the collection loop keeps `all` and the set of its TIDs in line with DedupBy. */
  lemma KeepStep<T>(xs: seq<T>, t: T, all: seq<T>, ids: set<Json>, key: T -> Json)
    requires all == DedupBy(xs, key)
    requires forall x :: x in ids <==> x in KeysBy(all, key)
    ensures Truthy(key(t)) && key(t) !in ids ==>
      DedupBy(xs + [t], key) == all + [t] && forall x :: x in ids + {key(t)} <==> x in KeysBy(all + [t], key)
    ensures !(Truthy(key(t)) && key(t) !in ids) ==> DedupBy(xs + [t], key) == all
  {
    DedupSnoc(xs, t, key);
    assert KeysBy(all + [t], key) == KeysBy(all, key) + [key(t)];
  }

  /** Reading more input only adds at the end: what is kept from a prefix is a prefix of what is kept. */
  lemma {:induction false} DedupPrefix<T>(a: seq<T>, b: seq<T>, key: T -> Json)
    ensures DedupBy(a, key) <= DedupBy(a + b, key)
    decreases |b|
  {
    if b == [] {
      assert a + b == a;
    } else {
      var b0 := b[..|b| - 1];
      DedupPrefix(a, b0, key);
      assert (a + b)[..|a + b| - 1] == a + b0;
    }
  }

  /** The first `limit` elements kept from `ts` (all of them when `limit` is 0). */
  function CollectedBy<T>(ts: seq<T>, limit: nat, key: T -> Json): (r: seq<T>)
    ensures r <= DedupBy(ts, key)
    ensures forall i :: 0 <= i < |r| ==> r[i] in ts
    ensures limit > 0 ==> |r| <= limit
    ensures limit == 0 ==> r == DedupBy(ts, key)
  {
    var d := DedupBy(ts, key);
    DedupFromInput(ts, key);
    if limit == 0 || |d| <= limit then d else d[..limit]
  }

  /** The position of the first element that raises, or the length when none does. */
  function FirstRaise<T>(ts: seq<T>, raises: T -> bool): (n: nat)
    ensures n <= |ts|
    ensures forall k :: 0 <= k < n ==> !raises(ts[k])
    ensures n < |ts| ==> raises(ts[n])
  {
    if ts == [] then 0 else if raises(ts[0]) then 0 else 1 + FirstRaise(ts[1..], raises)
  }

  /** What one format's loop gets through: the list up to its first raising element. */
  function CutAt<T>(ts: seq<T>, raises: T -> bool): (r: seq<T>)
    ensures r <= ts
    ensures forall k :: 0 <= k < |r| ==> !raises(r[k])
  {
    ts[..FirstRaise(ts, raises)]
  }

  /** Each format's list, cut at its first raising element. */
  function Cuts<T>(fetched: seq<seq<T>>, raises: T -> bool): (r: seq<seq<T>>)
    ensures |r| == |fetched|
    ensures forall f :: 0 <= f < |fetched| ==> r[f] == CutAt(fetched[f], raises)
  {
    seq(|fetched|, f requires 0 <= f < |fetched| => CutAt(fetched[f], raises))
  }

  lemma CutsSnoc<T>(fetched: seq<seq<T>>, extra: seq<T>, raises: T -> bool)
    ensures Cuts(fetched + [extra], raises) == Cuts(fetched, raises) + [CutAt(extra, raises)]
  {
  }

  /** A list with no raising element is read whole; otherwise the loop stops just before the first one. */
  lemma CutAtIff<T>(ts: seq<T>, raises: T -> bool, i: int)
    requires 0 <= i < |ts| && raises(ts[i]) && forall k :: 0 <= k < i ==> !raises(ts[k])
    ensures CutAt(ts, raises) == ts[..i]
  {
  }

  lemma CutAtWhole<T>(ts: seq<T>, raises: T -> bool)
    requires forall k :: 0 <= k < |ts| ==> !raises(ts[k])
    ensures CutAt(ts, raises) == ts
  {
  }

  /**
   * The collection loops: per format, each element whose key is truthy and unseen is
   * kept, an element that raises ends that format's list, and with a positive limit both
   * loops stop once that many are kept.
   */
  method CollectBy<T>(fetched: seq<seq<T>>, limit: nat, key: T -> Json, raises: T -> bool) returns (all: seq<T>)
    ensures all == CollectedBy(Flatten(Cuts(fetched, raises)), limit, key)
  {
    ghost var cs := Cuts(fetched, raises);
    all := [];
    var ids: set<Json> := {};
    var f := 0;
    while f < |fetched|
      invariant 0 <= f <= |fetched|
      invariant all == DedupBy(Flatten(cs[..f]), key)
      invariant forall x :: x in ids <==> x in KeysBy(all, key)
      invariant limit == 0 || |all| < limit
    {
      var stopped;
      ghost var j;
      all, ids, stopped, j := CollectList(Flatten(cs[..f]), fetched[f], all, ids, limit, key, raises);
      if stopped {
        StopEarly(cs, f, j, key);
        return;
      }
      FlattenStep(cs, f);
      f := f + 1;
    }
    assert cs[..f] == cs;
  }

  lemma FlattenStep<T>(cs: seq<seq<T>>, f: int)
    requires 0 <= f < |cs|
    ensures Flatten(cs[..f + 1]) == Flatten(cs[..f]) + cs[f]
  {
    FlattenConcat(cs[..f], [cs[f]]);
    assert cs[..f + 1] == cs[..f] + [cs[f]];
    assert Flatten([cs[f]]) == cs[f];
  }

  /**
   * The inner loop over one format's list, inside the format's `try`: an element that
   * raises ends it early, as the caught exception does; `stopped` when the limit was
   * reached at element j.
   */
  method CollectList<T>(ghost before: seq<T>, ts: seq<T>, all0: seq<T>, ids0: set<Json>, limit: nat, key: T -> Json, raises: T -> bool)
    returns (all: seq<T>, ids: set<Json>, stopped: bool, ghost j: int)
    requires all0 == DedupBy(before, key)
    requires forall x :: x in ids0 <==> x in KeysBy(all0, key)
    requires limit == 0 || |all0| < limit
    ensures !stopped ==> all == DedupBy(before + CutAt(ts, raises), key) && (limit == 0 || |all| < limit)
    ensures !stopped ==> forall x :: x in ids <==> x in KeysBy(all, key)
    ensures stopped ==> 0 <= j < |CutAt(ts, raises)| && all == DedupBy(before + CutAt(ts, raises)[..j + 1], key)
                        && limit > 0 && |all| == limit
  {
    all, ids, stopped, j := all0, ids0, false, 0;
    var i := 0;
    assert before + ts[..0] == before;
    while i < |ts| && !raises(ts[i])
      invariant 0 <= i <= |ts|
      invariant NoneRaise(ts[..i], raises)
      invariant all == DedupBy(before + ts[..i], key)
      invariant forall x :: x in ids <==> x in KeysBy(all, key)
      invariant limit == 0 || |all| < limit
    {
      PrefixSnoc(before, ts, i);
      NoneRaiseSnoc(ts, raises, i);
      var added;
      all, ids, added := KeepNext(before + ts[..i], ts[i], all, ids, key);
      if added && limit > 0 && |all| >= limit {
        CutPrefix(ts, raises, i);
        return all, ids, true, i;
      }
      i := i + 1;
    }
    CutEnd(ts, raises, i);
  }

  /** Before the first raising element, the cut list and the list agree. */
  lemma CutPrefix<T>(ts: seq<T>, raises: T -> bool, i: int)
    requires 0 <= i < |ts| && NoneRaise(ts[..i + 1], raises)
    ensures i < |CutAt(ts, raises)| && CutAt(ts, raises)[..i + 1] == ts[..i + 1]
  {
  }

  /** A loop that reads the list until its end or a raising element has read exactly the cut list. */
  lemma CutEnd<T>(ts: seq<T>, raises: T -> bool, i: int)
    requires 0 <= i <= |ts| && NoneRaise(ts[..i], raises)
    requires i == |ts| || raises(ts[i])
    ensures ts[..i] == CutAt(ts, raises)
  {
  }

  /** No element raises. */
  predicate NoneRaise<T>(ts: seq<T>, raises: T -> bool)
  {
    forall k :: 0 <= k < |ts| ==> !raises(ts[k])
  }

  lemma NoneRaiseSnoc<T>(ts: seq<T>, raises: T -> bool, i: int)
    requires 0 <= i < |ts| && NoneRaise(ts[..i], raises) && !raises(ts[i])
    ensures NoneRaise(ts[..i + 1], raises)
  {
    assert forall k :: 0 <= k < i ==> ts[..i + 1][k] == ts[..i][k];
  }

  /** One element of the inner loop: kept, and its key remembered, when the key is truthy and new. */
  method KeepNext<T>(ghost xs: seq<T>, t: T, all0: seq<T>, ids0: set<Json>, key: T -> Json)
    returns (all: seq<T>, ids: set<Json>, added: bool)
    requires all0 == DedupBy(xs, key)
    requires forall x :: x in ids0 <==> x in KeysBy(all0, key)
    ensures all == DedupBy(xs + [t], key)
    ensures forall x :: x in ids <==> x in KeysBy(all, key)
    ensures added ==> |all| == |all0| + 1
    ensures !added ==> all == all0
  {
    KeepStep(xs, t, all0, ids0, key);
    all, ids, added := all0, ids0, false;
    var tid := key(t);
    if Truthy(tid) && tid !in ids {
      ids := ids + {tid};
      all := all + [t];
      added := true;
    }
  }

  /** What is kept up to element j of list f is a prefix of what the whole input keeps. */
  lemma StopEarly<T>(fetched: seq<seq<T>>, f: int, j: int, key: T -> Json)
    requires 0 <= f < |fetched| && 0 <= j < |fetched[f]|
    ensures DedupBy(Flatten(fetched[..f]) + fetched[f][..j + 1], key) <= DedupBy(Flatten(fetched), key)
  {
    var ts := fetched[f];
    FlattenConcat(fetched[..f], fetched[f..]);
    assert fetched == fetched[..f] + fetched[f..];
    assert fetched[f..][1..] == fetched[f + 1..];
    assert Flatten(fetched[f..]) == ts + Flatten(fetched[f + 1..]);
    assert ts == ts[..j + 1] + ts[j + 1..];
    var rest := ts[j + 1..] + Flatten(fetched[f + 1..]);
    assert Flatten(fetched) == (Flatten(fetched[..f]) + ts[..j + 1]) + rest;
    DedupPrefix(Flatten(fetched[..f]) + ts[..j + 1], rest, key);
  }

  /** The tournaments the loaders collect: each list up to a raising TID, de-duplicated, at most `limit` (0 for no limit). */
  function Collected(fetched: seq<seq<Dict>>, limit: nat): seq<Dict>
  {
    CollectedBy(Flatten(Cuts(fetched, TidRaises)), limit, TidKey)
  }

  /** Collected tournaments have truthy TIDs that a set can hold, pairwise distinct as set elements. */
  lemma CollectedDistinct(fetched: seq<seq<Dict>>, limit: nat)
    ensures forall i :: 0 <= i < |Collected(fetched, limit)| ==>
      Truthy(Tid(Collected(fetched, limit)[i])) && HashKey(Tid(Collected(fetched, limit)[i])).Some?
    ensures forall i, j :: 0 <= i < j < |Collected(fetched, limit)| ==>
      TidKey(Collected(fetched, limit)[i]) != TidKey(Collected(fetched, limit)[j])
  {
    var all := Flatten(Cuts(fetched, TidRaises));
    var d := DedupBy(all, TidKey);
    var c := Collected(fetched, limit);
    DedupTruthyDistinct(all, TidKey);
    assert c <= d;
    forall i | 0 <= i < |c|
      ensures Truthy(Tid(c[i])) && HashKey(Tid(c[i])).Some?
    {
      assert c[i] == d[i] && Truthy(TidKey(d[i]));
      InFlattenCuts(fetched, TidRaises, c[i]);
    }
  }

  /** A fetch that raised or returned nothing is an empty list. */
  function FetchOr(r: Option<seq<Dict>>): seq<Dict>
  {
    if r.Some? then r.value else []
  }

  /** The lists fetched for the formats, in order, over `days` days. */
  function FetchAll(fetch: (string, int) -> Option<seq<Dict>>, days: int): (r: seq<seq<Dict>>)
    ensures |r| == |LoadFormats|
    ensures forall i :: 0 <= i < |LoadFormats| ==> r[i] == FetchOr(fetch(LoadFormats[i], days))
  {
    seq(|LoadFormats|, i requires 0 <= i < |LoadFormats| => FetchOr(fetch(LoadFormats[i], days)))
  }

  /** A value as Python compares numbers: bools, integers and floats; None for anything else. */
  function NumberOf(v: Json): (r: Option<real>)
    ensures r.Some? <==> v.JBool? || v.JInt? || v.JReal?
  {
    match v
    case JBool(b) => Some(if b then 1.0 else 0.0)
    case JInt(i) => Some(i as real)
    case JReal(r) => Some(r)
    case _ => None
  }

  /** `tournament.get('startDate', 0)` as the ETL loaders compare it; None when `>` raises. */
  function EtlStart(t: Dict): Option<real>
  {
    NumberOf(GetOr(t, "startDate", JInt(0)))
  }

  /**
   * `tournament.get('startDate')` as the pipeline reads it: a falsy value counts as no
   * date (0); a truthy value that is not a number makes `datetime.fromtimestamp` raise (None).
   */
  function PipelineStart(t: Dict): Option<real>
  {
    var v := GetOr(t, "startDate", JNull);
    if !Truthy(v) then Some(0.0) else NumberOf(v)
  }

  /** An absent start value counts as 0 where it is never read. */
  function Val(o: Option<real>): real
  {
    if o.Some? then o.value else 0.0
  }

  /** `load_tournament` / `insert_all`: false without a TID, otherwise whether the transaction completed. */
  function LoadTournament(t: Dict, ok: Dict -> bool): (loaded: bool)
    ensures loaded ==> Truthy(Tid(t))
    ensures Truthy(Tid(t)) ==> (loaded <==> ok(t))
  {
    Truthy(Tid(t)) && ok(t)
  }

  /** A tournament without a TID is never loaded, whatever the database would do. */
  lemma MissingTidNeverLoads(t: Dict, ok: Dict -> bool)
    requires GetKey(t, "TID").None?
    ensures !LoadTournament(t, ok)
  {
  }

  /** The loader as a function value. */
  function Loader(ok: Dict -> bool): Dict -> bool
  {
    t => LoadTournament(t, ok)
  }

  /** The elements that pass, in order. */
  function KeptBy<T>(ts: seq<T>, p: T -> bool): (r: seq<T>)
    ensures |r| <= |ts|
  {
    if ts == [] then [] else KeptBy(ts[..|ts| - 1], p) + (if p(ts[|ts| - 1]) then [ts[|ts| - 1]] else [])
  }

  /** The kept elements are exactly the input elements that pass. */
  lemma {:induction false} KeptIff<T>(ts: seq<T>, p: T -> bool)
    ensures forall x :: x in KeptBy(ts, p) <==> x in ts && p(x)
  {
    if ts != [] {
      KeptIff(ts[..|ts| - 1], p);
      assert ts == ts[..|ts| - 1] + [ts[|ts| - 1]];
    }
  }

  lemma KeptSnoc<T>(xs: seq<T>, t: T, p: T -> bool)
    ensures KeptBy(xs + [t], p) == KeptBy(xs, p) + if p(t) then [t] else []
  {
    assert (xs + [t])[..|xs|] == xs;
  }

  /** One more element of `ts` adds it to the kept ones exactly when it passes. */
  lemma KeptPrefixSnoc<T>(ts: seq<T>, i: int, p: T -> bool)
    requires 0 <= i < |ts|
    ensures p(ts[i]) ==> KeptBy(ts[..i + 1], p) == KeptBy(ts[..i], p) + [ts[i]]
    ensures !p(ts[i]) ==> KeptBy(ts[..i + 1], p) == KeptBy(ts[..i], p)
  {
    assert ts[..i + 1] == ts[..i] + [ts[i]];
    KeptSnoc(ts[..i], ts[i], p);
    assert KeptBy(ts[..i], p) + [] == KeptBy(ts[..i], p);
  }

  /** Some element passes `loads` and has no start value: reading its start date raises. */
  predicate LoadedRaises<T>(ts: seq<T>, loads: T -> bool, start: T -> Option<real>)
  {
    exists i :: 0 <= i < |ts| && loads(ts[i]) && start(ts[i]).None?
  }

  /** One more element makes the loop raise exactly when it is loaded and its start is unreadable. */
  lemma RaisesSnoc<T>(ts: seq<T>, loads: T -> bool, start: T -> Option<real>, i: int)
    requires 0 <= i < |ts|
    ensures LoadedRaises(ts[..i + 1], loads, start) <==>
      LoadedRaises(ts[..i], loads, start) || (loads(ts[i]) && start(ts[i]).None?)
  {
    assert ts[..i + 1][i] == ts[i];
    assert forall k :: 0 <= k < i ==> ts[..i + 1][k] == ts[..i][k];
  }

  /** A prefix that raises makes the whole list raise. */
  lemma RaisesPrefix<T>(ts: seq<T>, loads: T -> bool, start: T -> Option<real>, n: int)
    requires 0 <= n <= |ts| && LoadedRaises(ts[..n], loads, start)
    ensures LoadedRaises(ts, loads, start)
  {
    var k :| 0 <= k < n && loads(ts[..n][k]) && start(ts[..n][k]).None?;
    assert ts[..n][k] == ts[k];
  }

  function MaxR(a: real, b: real): real
  {
    if a >= b then a else b
  }

  /** The largest start, from `from`: `if start > m: m = start`. */
  function MaxBy<T>(ts: seq<T>, start: T -> Option<real>, from: real): real
  {
    if ts == [] then from else MaxR(MaxBy(ts[..|ts| - 1], start, from), Val(start(ts[|ts| - 1])))
  }

  /** The largest start is at least `from` and every start, and it is `from` or one of them. */
  lemma {:induction false} MaxByIsMax<T>(ts: seq<T>, start: T -> Option<real>, from: real)
    ensures MaxBy(ts, start, from) >= from
    ensures forall i :: 0 <= i < |ts| ==> MaxBy(ts, start, from) >= Val(start(ts[i]))
    ensures MaxBy(ts, start, from) == from || exists i :: 0 <= i < |ts| && MaxBy(ts, start, from) == Val(start(ts[i]))
  {
    if ts != [] {
      var init := ts[..|ts| - 1];
      MaxByIsMax(init, start, from);
      assert forall i :: 0 <= i < |init| ==> init[i] == ts[i];
    }
  }

  /** The latest truthy (non-zero) start, from `from` (None before any). */
  function LatestBy<T>(ts: seq<T>, start: T -> Option<real>, from: Option<real>): Option<real>
  {
    if ts == [] then from
    else
      var prev := LatestBy(ts[..|ts| - 1], start, from);
      var s := Val(start(ts[|ts| - 1]));
      if s != 0.0 && (prev.None? || s > prev.value) then Some(s) else prev
  }

  lemma MaxSnoc<T>(xs: seq<T>, t: T, start: T -> Option<real>, from: real)
    ensures MaxBy(xs + [t], start, from) == MaxR(MaxBy(xs, start, from), Val(start(t)))
  {
    SnocInit(xs, t);
  }

  lemma LatestSnoc<T>(xs: seq<T>, t: T, start: T -> Option<real>, from: Option<real>)
    ensures var prev := LatestBy(xs, start, from); var s := Val(start(t));
      LatestBy(xs + [t], start, from) == if s != 0.0 && (prev.None? || s > prev.value) then Some(s) else prev
  {
    SnocInit(xs, t);
  }

  /**
   * The latest is None only when there was none before and every start is 0; otherwise it
   * is at least the one before and every non-zero start, and it is one of them.
   */
  lemma {:induction false} LatestIsLatest<T>(ts: seq<T>, start: T -> Option<real>, from: Option<real>)
    ensures LatestBy(ts, start, from).None? <==> from.None? && forall i :: 0 <= i < |ts| ==> Val(start(ts[i])) == 0.0
    ensures LatestBy(ts, start, from).Some? && from.Some? ==> LatestBy(ts, start, from).value >= from.value
    ensures LatestBy(ts, start, from).Some? ==>
      forall i :: 0 <= i < |ts| && Val(start(ts[i])) != 0.0 ==> LatestBy(ts, start, from).value >= Val(start(ts[i]))
    ensures LatestBy(ts, start, from).Some? ==>
      (LatestBy(ts, start, from) == from
       || exists i :: 0 <= i < |ts| && LatestBy(ts, start, from).value == Val(start(ts[i])) && Val(start(ts[i])) != 0.0)
  {
    if ts != [] {
      var init := ts[..|ts| - 1];
      LatestIsLatest(init, start, from);
      assert forall i :: 0 <= i < |init| ==> init[i] == ts[i];
    }
  }

  /** A load's result, or the exception that escaped it. */
  datatype Loaded<R> = Done(value: R) | Raised

  /** The metadata a tournament load writes. */
  datatype TournamentMeta = TournamentMeta(lastTimestamp: real, objectsLoaded: nat, loadType: CardsLoad.LoadKind)

  /**
   * The load-metadata insert: it is issued when the load chose metadata, and when it
   * fails (`metaOk` false) it raises out of the load. Otherwise the load's result stands.
   */
  function AfterMetaWrite<R>(r: Loaded<(R, Option<TournamentMeta>)>, metaOk: bool): (w: Loaded<(R, Option<TournamentMeta>)>)
    ensures w.Raised? <==> r.Raised? || (r.value.1.Some? && !metaOk)
    ensures w.Done? ==> w == r
  {
    if r.Done? && r.value.1.Some? && !metaOk then Raised else r
  }

  /**
   * What a loader goes on to load: the collected tournaments filtered by `rules` and cut
   * to `limit` (0 for none); filtering raises when a collected tournament has a truthy
   * format that is not a string.
   */
  function ToLoad(fetched: seq<seq<Dict>>, rules: Rules, limit: nat): Loaded<seq<Dict>>
  {
    var collected := Collected(fetched, limit);
    if AllReadable(collected) then Done(LimitTo(FilterTournaments(collected, rules), limit)) else Raised
  }

  /** `if limit and len(filtered) > limit: filtered = filtered[:limit]`. */
  function LimitTo(ts: seq<Dict>, limit: nat): (r: seq<Dict>)
    ensures r <= ts
    ensures limit > 0 ==> |r| == if |ts| < limit then |ts| else limit
    ensures limit == 0 ==> r == ts
  {
    if limit > 0 && |ts| > limit then ts[..limit] else ts
  }

  /** Only the collected tournaments' formats are read: filtering raises exactly when one of them is unreadable. */
  lemma ToLoadRaisesIff(fetched: seq<seq<Dict>>, rules: Rules, limit: nat)
    ensures ToLoad(fetched, rules, limit).Raised? <==>
      exists i :: 0 <= i < |Collected(fetched, limit)| && !FormatReadable(FormatOf(Collected(fetched, limit)[i]))
    ensures ToLoad(fetched, rules, limit).Done? && limit > 0 ==> |ToLoad(fetched, rules, limit).value| <= limit
  {
  }

  /** Once `limit` elements are kept, more input changes nothing. */
  lemma CollectedStable<T>(a: seq<T>, b: seq<T>, limit: nat, key: T -> Json)
    requires limit > 0 && |CollectedBy(a, limit, key)| == limit
    ensures CollectedBy(a + b, limit, key) == CollectedBy(a, limit, key)
  {
    DedupPrefix(a, b, key);
  }

  /** The first `limit` collected tournaments are all the pipeline ever reads: later ones do not change what it loads. */
  lemma LaterTournamentsUnread(fetched: seq<seq<Dict>>, extra: seq<Dict>, limit: nat)
    requires limit > 0 && |Collected(fetched, limit)| == limit
    ensures Collected(fetched + [extra], limit) == Collected(fetched, limit)
  {
    var cs := Cuts(fetched, TidRaises);
    var cut := CutAt(extra, TidRaises);
    CutsSnoc(fetched, extra, TidRaises);
    FlattenConcat(cs, [cut]);
    assert Flatten([cut]) == cut;
    CollectedStable(Flatten(cs), cut, limit, TidKey);
  }

  // ---------------------------------------------------------------- the ETL loaders

  /**
   * The ETL loaders' loop over `ts`: the loaded count and the largest start of a loaded
   * element, from `from`; raises when a loaded element's start does not compare.
   */
  function EtlLoop<T>(ts: seq<T>, loads: T -> bool, start: T -> Option<real>, from: real): Loaded<(nat, real)>
  {
    if LoadedRaises(ts, loads, start) then Raised
    else Done((|KeptBy(ts, loads)|, MaxBy(KeptBy(ts, loads), start, from)))
  }

  method LoadEach<T>(ts: seq<T>, loads: T -> bool, start: T -> Option<real>, from: real) returns (r: Loaded<(nat, real)>)
    ensures r == EtlLoop(ts, loads, start, from)
  {
    var loaded := 0;
    var maxTimestamp := from;
    var i := 0;
    while i < |ts|
      invariant 0 <= i <= |ts|
      invariant loaded == |KeptBy(ts[..i], loads)|
      invariant maxTimestamp == MaxBy(KeptBy(ts[..i], loads), start, from)
      invariant !LoadedRaises(ts[..i], loads, start)
    {
      KeptPrefixSnoc(ts, i, loads);
      RaisesSnoc(ts, loads, start, i);
      if loads(ts[i]) {
        loaded := loaded + 1;
        match start(ts[i])
        case None =>
          RaisesPrefix(ts, loads, start, i + 1);
          return Raised;
        case Some(s) =>
          MaxSnoc(KeptBy(ts[..i], loads), ts[i], start, from);
          if s > maxTimestamp {
            maxTimestamp := s;
          }
      }
      i := i + 1;
    }
    assert ts[..i] == ts;
    r := Done((loaded, maxTimestamp));
  }

  /** Metadata (always with load type "incremental") when something loaded and the maximum moved past `from`. */
  function EtlMeta(loaded: nat, maxTimestamp: real, from: real): (m: Option<TournamentMeta>)
    ensures m.Some? <==> loaded > 0 && maxTimestamp > from
    ensures m.Some? ==> m.value == TournamentMeta(maxTimestamp, loaded, CardsLoad.Incremental)
  {
    if loaded > 0 && maxTimestamp > from then Some(TournamentMeta(maxTimestamp, loaded, CardsLoad.Incremental)) else None
  }

  /** The ETL loaders' outcome over `ts`: the loaded count and the metadata, or the exception. */
  function EtlOutcome<T>(ts: seq<T>, loads: T -> bool, start: T -> Option<real>, from: real): Loaded<(nat, Option<TournamentMeta>)>
  {
    match EtlLoop(ts, loads, start, from)
    case Raised => Raised
    case Done((n, m)) => Done((n, EtlMeta(n, m, from)))
  }

  /** An ETL load after fetching: collect, filter by `rules`, load each. */
  function EtlLoad(fetched: seq<seq<Dict>>, ok: Dict -> bool, rules: Rules, from: real): Loaded<(nat, Option<TournamentMeta>)>
  {
    match ToLoad(fetched, rules, 0)
    case Raised => Raised
    case Done(ts) => EtlOutcome(ts, Loader(ok), EtlStart, from)
  }

  /** The steps after fetching, shared by both ETL loads. */
  method EtlLoadFetched(fetched: seq<seq<Dict>>, ok: Dict -> bool, rules: Rules, from: real)
    returns (r: Loaded<(nat, Option<TournamentMeta>)>)
    ensures r == EtlLoad(fetched, ok, rules, from)
  {
    var collected := CollectBy(fetched, 0, TidKey, TidRaises);
    if collected == [] {
      assert ToLoad(fetched, rules, 0) == Done([]);
      assert KeptBy([], Loader(ok)) == [];
      return Done((0, None));
    }
    if !AllReadable(collected) {
      return Raised;
    }
    var filtered := FilterTournaments(collected, rules);
    var counted := LoadEach(filtered, Loader(ok), EtlStart, from);
    match counted
    case Raised => r := Raised;
    case Done((loaded, maxTimestamp)) => r := Done((loaded, EtlMeta(loaded, maxTimestamp, from)));
  }

  /**
   * `load_initial` of the ETL loaders: collect, filter by `rules` (the Limited check
   * only in the ETL module's copy), load each; metadata needs a loaded tournament and a
   * positive start date.
   */
  method EtlLoadInitial(fetch: (string, int) -> Option<seq<Dict>>, daysBack: int, ok: Dict -> bool, rules: Rules, metaOk: bool)
    returns (r: Loaded<(nat, Option<TournamentMeta>)>)
    ensures r == AfterMetaWrite(EtlLoad(FetchAll(fetch, daysBack), ok, rules, 0.0), metaOk)
  {
    r := EtlLoadFetched(FetchAll(fetch, daysBack), ok, rules, 0.0);
    r := AfterMetaWrite(r, metaOk);
  }

  /** `int((now - last) / 86400) + 1`: the days to fetch, a day of margin included. */
  function DaysSince(now: int, last: int): int
  {
    TruncDiv(now - last, SecondsPerDay) + 1
  }

  /** A load after the last one asks for at least a day, and for a window longer than the time elapsed. */
  lemma DaysSinceCoversSpan(now: int, last: int)
    requires now >= last
    ensures DaysSince(now, last) >= 1
    ensures DaysSince(now, last) * SecondsPerDay > now - last
  {
  }

  /**
   * `load_incremental` of the ETL loaders: without a stored timestamp (None or 0) it is
   * the initial load over 90 days; otherwise the same steps over the days since then, the
   * maximum starting at the stored timestamp.
   */
  method EtlLoadIncremental(fetch: (string, int) -> Option<seq<Dict>>, last: Option<int>, now: int, ok: Dict -> bool, rules: Rules,
                            metaOk: bool)
    returns (r: Loaded<(nat, Option<TournamentMeta>)>)
    ensures last.None? || last.value == 0 ==> r == AfterMetaWrite(EtlLoad(FetchAll(fetch, DefaultDaysBack), ok, rules, 0.0), metaOk)
    ensures last.Some? && last.value != 0 ==>
      r == AfterMetaWrite(EtlLoad(FetchAll(fetch, DaysSince(now, last.value)), ok, rules, last.value as real), metaOk)
  {
    if last.None? || last.value == 0 {
      r := EtlLoadInitial(fetch, DefaultDaysBack, ok, rules, metaOk);
    } else {
      r := EtlLoadFetched(FetchAll(fetch, DaysSince(now, last.value)), ok, rules, last.value as real);
      r := AfterMetaWrite(r, metaOk);
    }
  }

  /**
   * When it completes, an ETL load writes metadata exactly when a loaded tournament
   * started after `from`, and the timestamp written is the latest start date.
   */
  lemma EtlMetaIffLaterStart<T>(ts: seq<T>, loads: T -> bool, start: T -> Option<real>, from: real)
    requires EtlOutcome(ts, loads, start, from).Done?
    ensures var done := KeptBy(ts, loads);
      EtlOutcome(ts, loads, start, from).value.1.Some? <==> exists i :: 0 <= i < |done| && Val(start(done[i])) > from
    ensures var done := KeptBy(ts, loads);
      EtlOutcome(ts, loads, start, from).value.1.Some? ==>
        (exists i :: 0 <= i < |done| && EtlOutcome(ts, loads, start, from).value.1.value.lastTimestamp == Val(start(done[i])))
        && forall i :: 0 <= i < |done| ==> EtlOutcome(ts, loads, start, from).value.1.value.lastTimestamp >= Val(start(done[i]))
  {
    MaxByIsMax(KeptBy(ts, loads), start, from);
  }

  /** An ETL load raises exactly when a loaded tournament's start date does not compare; every other tournament's is never read. */
  lemma {:induction false} EtlRaisesIff<T>(ts: seq<T>, loads: T -> bool, start: T -> Option<real>, from: real)
    ensures EtlOutcome(ts, loads, start, from).Raised? <==>
      exists x :: x in KeptBy(ts, loads) && start(x).None?
  {
    KeptIff(ts, loads);
    if exists x :: x in KeptBy(ts, loads) && start(x).None? {
      var x :| x in KeptBy(ts, loads) && start(x).None?;
      var i :| 0 <= i < |ts| && ts[i] == x;
      assert LoadedRaises(ts, loads, start);
    }
  }

  // ---------------------------------------------------------------- the tournament pipeline

  /**
   * The pipeline's loop over `ts`: loaded and failed counts and the latest truthy start
   * from `from`; raises when a loaded element's truthy start is not a number.
   */
  function PipelineLoop<T>(ts: seq<T>, loads: T -> bool, start: T -> Option<real>, from: Option<real>): Loaded<(nat, nat, Option<real>)>
  {
    if LoadedRaises(ts, loads, start) then Raised
    else Done((|KeptBy(ts, loads)|, |ts| - |KeptBy(ts, loads)|, LatestBy(KeptBy(ts, loads), start, from)))
  }

  method LoadEachCounting<T>(ts: seq<T>, loads: T -> bool, start: T -> Option<real>, from: Option<real>)
    returns (r: Loaded<(nat, nat, Option<real>)>)
    ensures r == PipelineLoop(ts, loads, start, from)
    ensures r.Done? ==> r.value.0 + r.value.1 == |ts|
  {
    var loaded := 0;
    var errors := 0;
    var latest := from;
    var i := 0;
    while i < |ts|
      invariant 0 <= i <= |ts|
      invariant loaded == |KeptBy(ts[..i], loads)| && loaded + errors == i
      invariant latest == LatestBy(KeptBy(ts[..i], loads), start, from)
      invariant !LoadedRaises(ts[..i], loads, start)
    {
      KeptPrefixSnoc(ts, i, loads);
      RaisesSnoc(ts, loads, start, i);
      if loads(ts[i]) {
        loaded := loaded + 1;
        match start(ts[i])
        case None =>
          RaisesPrefix(ts, loads, start, i + 1);
          return Raised;
        case Some(s) =>
          LatestSnoc(KeptBy(ts[..i], loads), ts[i], start, from);
          if s != 0.0 && (latest.None? || s > latest.value) {
            latest := Some(s);
          }
      } else {
        errors := errors + 1;
      }
      i := i + 1;
    }
    assert ts[..i] == ts;
    r := Done((loaded, errors, latest));
  }

  /** The pipeline's metadata: something loaded and a start date beyond `from` was seen. */
  function PipelineMeta(loaded: nat, latest: Option<real>, from: Option<real>, kind: CardsLoad.LoadKind): (m: Option<TournamentMeta>)
    ensures m.Some? <==> loaded > 0 && latest.Some? && (from.None? || latest.value > from.value)
    ensures m.Some? ==> m.value == TournamentMeta(latest.value, loaded, kind)
  {
    if loaded > 0 && latest.Some? && (from.None? || latest.value > from.value)
    then Some(TournamentMeta(latest.value, loaded, kind)) else None
  }

  /** The report and metadata of a pipeline load over `ts`, or the exception. */
  function PipelineOutcome<T>(ts: seq<T>, loads: T -> bool, start: T -> Option<real>, from: Option<real>, kind: CardsLoad.LoadKind)
    : (r: Loaded<(CardsLoad.LoadReport, Option<TournamentMeta>)>)
    ensures r.Done? ==> r.value.0.objectsLoaded + r.value.0.errors == r.value.0.objectsProcessed == |ts|
    ensures r.Done? ==> (r.value.0.success <==> r.value.0.errors == 0)
  {
    match PipelineLoop(ts, loads, start, from)
    case Raised => Raised
    case Done((loaded, errors, latest)) =>
      Done((CardsLoad.LoadReport(errors == 0, loaded, |ts|, errors), PipelineMeta(loaded, latest, from, kind)))
  }

  /** A pipeline load after fetching: collect up to the limit, filter, cut to the limit, load each. */
  function PipelineLoad(fetched: seq<seq<Dict>>, limit: nat, ok: Dict -> bool, from: Option<real>, kind: CardsLoad.LoadKind)
    : Loaded<(CardsLoad.LoadReport, Option<TournamentMeta>)>
  {
    match ToLoad(fetched, ConstructedOnly, limit)
    case Raised => Raised
    case Done(ts) => PipelineOutcome(ts, Loader(ok), PipelineStart, from, kind)
  }

  /** A limit of None or 0 means no limit. */
  function LimitOf(limit: Option<nat>): nat
  {
    if limit.Some? then limit.value else 0
  }

  /** With a limit, a completed pipeline load processes at most `limit` tournaments. */
  lemma PipelineHonoursLimit(fetched: seq<seq<Dict>>, limit: nat, ok: Dict -> bool, from: Option<real>, kind: CardsLoad.LoadKind)
    requires limit > 0 && PipelineLoad(fetched, limit, ok, from, kind).Done?
    ensures PipelineLoad(fetched, limit, ok, from, kind).value.0.objectsProcessed <= limit
  {
    ToLoadRaisesIff(fetched, ConstructedOnly, limit);
  }

  /** The steps after fetching, shared by both pipeline loads. */
  method PipelineLoadFetched(fetched: seq<seq<Dict>>, limit: nat, ok: Dict -> bool, from: Option<real>, kind: CardsLoad.LoadKind)
    returns (r: Loaded<(CardsLoad.LoadReport, Option<TournamentMeta>)>)
    ensures r == PipelineLoad(fetched, limit, ok, from, kind)
  {
    var collected := CollectBy(fetched, limit, TidKey, TidRaises);
    if collected == [] {
      assert ToLoad(fetched, ConstructedOnly, limit) == Done([]);
      assert KeptBy([], Loader(ok)) == [];
      return Done((CardsLoad.LoadReport(true, 0, 0, 0), None));
    }
    if !AllReadable(collected) {
      return Raised;
    }
    var ts := LimitTo(FilterTournaments(collected, ConstructedOnly), limit);
    r := LoadAndReport(ts, Loader(ok), PipelineStart, from, kind);
  }

  /** The pipeline's loop and the report and metadata built from its counts. */
  method LoadAndReport<T>(ts: seq<T>, loads: T -> bool, start: T -> Option<real>, from: Option<real>, kind: CardsLoad.LoadKind)
    returns (r: Loaded<(CardsLoad.LoadReport, Option<TournamentMeta>)>)
    ensures r == PipelineOutcome(ts, loads, start, from, kind)
  {
    var counted := LoadEachCounting(ts, loads, start, from);
    match counted
    case Raised => r := Raised;
    case Done((loaded, errors, latest)) =>
      r := Done((CardsLoad.LoadReport(errors == 0, loaded, |ts|, errors), PipelineMeta(loaded, latest, from, kind)));
  }

  /**
   * The pipeline's `load_initial`: collect (stopping at the limit), filter, cut to the
   * limit, load each. With nothing collected it reports success and zeros.
   */
  method PipelineLoadInitial(fetch: (string, int) -> Option<seq<Dict>>, daysBack: int, limit: Option<nat>, ok: Dict -> bool, metaOk: bool)
    returns (r: Loaded<(CardsLoad.LoadReport, Option<TournamentMeta>)>)
    ensures r == AfterMetaWrite(PipelineLoad(FetchAll(fetch, daysBack), LimitOf(limit), ok, None, CardsLoad.Initial), metaOk)
    ensures r.Done? && LimitOf(limit) > 0 ==> r.value.0.objectsProcessed <= LimitOf(limit)
  {
    r := PipelineLoadFetched(FetchAll(fetch, daysBack), LimitOf(limit), ok, None, CardsLoad.Initial);
    if r.Done? && LimitOf(limit) > 0 {
      PipelineHonoursLimit(FetchAll(fetch, daysBack), LimitOf(limit), ok, None, CardsLoad.Initial);
    }
    r := AfterMetaWrite(r, metaOk);
  }

  /**
   * The pipeline's `load_incremental`: without a stored timestamp it is `load_initial`
   * over 90 days; otherwise it fetches the days since then and writes metadata only when a
   * loaded tournament started after the stored timestamp.
   */
  method PipelineLoadIncremental(fetch: (string, int) -> Option<seq<Dict>>, last: Option<int>, now: int,
                                 limit: Option<nat>, ok: Dict -> bool, metaOk: bool)
    returns (r: Loaded<(CardsLoad.LoadReport, Option<TournamentMeta>)>)
    ensures last.None? ==>
      r == AfterMetaWrite(PipelineLoad(FetchAll(fetch, DefaultDaysBack), LimitOf(limit), ok, None, CardsLoad.Initial), metaOk)
    ensures last.Some? ==>
      r == AfterMetaWrite(PipelineLoad(FetchAll(fetch, DaysSince(now, last.value)), LimitOf(limit), ok, Some(last.value as real), CardsLoad.Incremental), metaOk)
    ensures r.Done? && LimitOf(limit) > 0 ==> r.value.0.objectsProcessed <= LimitOf(limit)
  {
    if last.None? {
      r := PipelineLoadInitial(fetch, DefaultDaysBack, limit, ok, metaOk);
    } else {
      var fetched := FetchAll(fetch, DaysSince(now, last.value));
      r := PipelineLoadFetched(fetched, LimitOf(limit), ok, Some(last.value as real), CardsLoad.Incremental);
      if r.Done? && LimitOf(limit) > 0 {
        PipelineHonoursLimit(fetched, LimitOf(limit), ok, Some(last.value as real), CardsLoad.Incremental);
      }
      r := AfterMetaWrite(r, metaOk);
    }
  }

  /**
   * When it completes, an incremental pipeline load writes metadata exactly when a loaded
   * tournament started after the stored timestamp, and then writes the latest such start.
   */
  lemma IncrementalMetaIffLaterStart<T>(ts: seq<T>, loads: T -> bool, start: T -> Option<real>, last: real)
    requires last >= 0.0
    requires PipelineOutcome(ts, loads, start, Some(last), CardsLoad.Incremental).Done?
    ensures var done := KeptBy(ts, loads);
      PipelineOutcome(ts, loads, start, Some(last), CardsLoad.Incremental).value.1.Some? <==>
        exists i :: 0 <= i < |done| && Val(start(done[i])) > last
    ensures var done := KeptBy(ts, loads);
      PipelineOutcome(ts, loads, start, Some(last), CardsLoad.Incremental).value.1.Some? ==>
        forall i :: 0 <= i < |done| ==>
          PipelineOutcome(ts, loads, start, Some(last), CardsLoad.Incremental).value.1.value.lastTimestamp >= Val(start(done[i]))
  {
    var done := KeptBy(ts, loads);
    var latest := LatestBy(done, start, Some(last));
    LatestIsLatest(done, start, Some(last));
    if exists i :: 0 <= i < |done| && Val(start(done[i])) > last {
      var i :| 0 <= i < |done| && Val(start(done[i])) > last;
      assert latest.value >= Val(start(done[i]));
    }
  }

  /** The pipeline raises exactly when a loaded tournament has a truthy start date that is not a number. */
  lemma {:induction false} PipelineRaisesIff<T>(ts: seq<T>, loads: T -> bool, start: T -> Option<real>, from: Option<real>, kind: CardsLoad.LoadKind)
    ensures PipelineOutcome(ts, loads, start, from, kind).Raised? <==>
      exists x :: x in KeptBy(ts, loads) && start(x).None?
  {
    KeptIff(ts, loads);
    if exists x :: x in KeptBy(ts, loads) && start(x).None? {
      var x :| x in KeptBy(ts, loads) && start(x).None?;
      var i :| 0 <= i < |ts| && ts[i] == x;
      assert LoadedRaises(ts, loads, start);
    }
  }

  /** A tournament whose format the filter and whose start date (as `start` reads it) the loop can read. */
  predicate ReadableBy(t: Dict, start: Dict -> Option<real>)
  {
    FormatReadable(FormatOf(t)) && start(t).Some?
  }

  /** Every collected tournament is one of the fetched ones. */
  lemma CollectedFetched(fetched: seq<seq<Dict>>, limit: nat, start: Dict -> Option<real>)
    requires forall f, k :: 0 <= f < |fetched| && 0 <= k < |fetched[f]| ==> ReadableBy(fetched[f][k], start)
    ensures forall x :: x in Collected(fetched, limit) ==> ReadableBy(x, start)
  {
    forall x | x in Collected(fetched, limit)
      ensures ReadableBy(x, start)
    {
      InFlattenCuts(fetched, TidRaises, x);
    }
  }

  /** When every fetched tournament is readable, filtering completes and leaves readable tournaments. */
  lemma ReadableToLoad(fetched: seq<seq<Dict>>, rules: Rules, limit: nat, start: Dict -> Option<real>)
    requires forall f, k :: 0 <= f < |fetched| && 0 <= k < |fetched[f]| ==> ReadableBy(fetched[f][k], start)
    ensures ToLoad(fetched, rules, limit).Done?
    ensures forall i :: 0 <= i < |ToLoad(fetched, rules, limit).value| ==> start(ToLoad(fetched, rules, limit).value[i]).Some?
  {
    var c := Collected(fetched, limit);
    CollectedFetched(fetched, limit, start);
    assert AllReadable(c) by {
      forall i | 0 <= i < |c|
        ensures FormatReadable(FormatOf(c[i]))
      {
        assert c[i] in c;
      }
    }
    var f := FilterTournaments(c, rules);
    FilterMembership(c, rules);
    var ts := LimitTo(f, limit);
    assert ToLoad(fetched, rules, limit) == Done(ts);
    forall i | 0 <= i < |ts|
      ensures start(ts[i]).Some?
    {
      assert ts[i] == f[i] && f[i] in f;
    }
  }

  /**
   * Tournaments whose format and start date the loads can read never make a load raise:
   * then an ETL load always completes.
   */
  lemma WellFormedEtlCompletes(fetched: seq<seq<Dict>>, ok: Dict -> bool, rules: Rules, from: real)
    requires forall f, k :: 0 <= f < |fetched| && 0 <= k < |fetched[f]| ==> ReadableBy(fetched[f][k], EtlStart)
    ensures EtlLoad(fetched, ok, rules, from).Done?
  {
    ReadableToLoad(fetched, rules, 0, EtlStart);
    var ts := ToLoad(fetched, rules, 0).value;
    assert !LoadedRaises(ts, Loader(ok), EtlStart);
  }

  /** Likewise a pipeline load completes, and then processes every tournament it kept. */
  lemma WellFormedPipelineCompletes(fetched: seq<seq<Dict>>, limit: nat, ok: Dict -> bool, from: Option<real>, kind: CardsLoad.LoadKind)
    requires forall f, k :: 0 <= f < |fetched| && 0 <= k < |fetched[f]| ==> ReadableBy(fetched[f][k], PipelineStart)
    ensures PipelineLoad(fetched, limit, ok, from, kind).Done?
    ensures PipelineLoad(fetched, limit, ok, from, kind).value.0.objectsProcessed == |ToLoad(fetched, ConstructedOnly, limit).value|
  {
    ReadableToLoad(fetched, ConstructedOnly, limit, PipelineStart);
    var ts := ToLoad(fetched, ConstructedOnly, limit).value;
    assert !LoadedRaises(ts, Loader(ok), PipelineStart);
  }

  /** An element of the cut lists, flattened, is an element of one of the fetched lists. */
  lemma {:induction false} InFlattenCuts<T>(fetched: seq<seq<T>>, raises: T -> bool, x: T)
    requires x in Flatten(Cuts(fetched, raises))
    ensures !raises(x)
    ensures exists f, k :: 0 <= f < |fetched| && 0 <= k < |fetched[f]| && x == fetched[f][k]
  {
    var cs := Cuts(fetched, raises);
    assert fetched != [];
    if x in cs[0] {
      var k :| 0 <= k < |cs[0]| && cs[0][k] == x;
      assert fetched[0][k] == x;
    } else {
      assert Cuts(fetched[1..], raises) == cs[1..];
      InFlattenCuts(fetched[1..], raises, x);
      var f, k :| 0 <= f < |fetched[1..]| && 0 <= k < |fetched[1..][f]| && x == fetched[1..][f][k];
      assert x == fetched[f + 1][k];
    }
  }
}
