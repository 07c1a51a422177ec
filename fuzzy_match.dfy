/**
 * Nearest-name selection: among candidate names, the first whose case-insensitive edit
 * distance to the wanted name is smallest, provided it is within the threshold.
 */
module FuzzyMatch {
  import opened Common
  import opened EditDistance

  /** Distance between lower-cased names. */
  function NameDistance(a: string, b: string): nat
  {
    Levenshtein(Lower(a), Lower(b))
  }

  /** Candidate k is within the threshold, strictly closer than every earlier one and no farther than any later one. */
  predicate IsFirstClosest<K>(candidates: seq<(K, string)>, wanted: string, threshold: int, k: int)
  {
    0 <= k < |candidates|
    && NameDistance(wanted, candidates[k].1) <= threshold
    && (forall j :: 0 <= j < k ==> NameDistance(wanted, candidates[j].1) > NameDistance(wanted, candidates[k].1))
    && (forall j :: k < j < |candidates| ==> NameDistance(wanted, candidates[j].1) >= NameDistance(wanted, candidates[k].1))
  }

  /** At most one candidate is the first closest. */
  lemma FirstClosestIsUnique<K>(candidates: seq<(K, string)>, wanted: string, threshold: int, k1: int, k2: int)
    requires IsFirstClosest(candidates, wanted, threshold, k1)
    requires IsFirstClosest(candidates, wanted, threshold, k2)
    ensures k1 == k2
  {
  }

  /**
   * The selection as a value: the best of all but the last candidate, replaced by the last
   * one only when it is within the threshold and strictly closer.
   */
  function Closest<K>(candidates: seq<(K, string)>, wanted: string, threshold: int): (r: Option<(K, string)>)
    ensures r.Some? ==> r.value in candidates && NameDistance(wanted, r.value.1) <= threshold
  {
    if candidates == [] then None
    else
      var best := Closest(candidates[..|candidates| - 1], wanted, threshold);
      var last := candidates[|candidates| - 1];
      var d := NameDistance(wanted, last.1);
      if (best.None? || d < NameDistance(wanted, best.value.1)) && d <= threshold then Some(last) else best
  }

  /** A first-closest candidate stays first closest when a farther or equally far one is appended. */
  lemma KeepFirstClosest<K>(c: seq<(K, string)>, wanted: string, threshold: int, k: int)
    requires c != [] && IsFirstClosest(c[..|c| - 1], wanted, threshold, k)
    requires NameDistance(wanted, c[|c| - 1].1) >= NameDistance(wanted, c[k].1)
    ensures IsFirstClosest(c, wanted, threshold, k)
  {
    assert forall j :: 0 <= j < |c| - 1 ==> c[..|c| - 1][j] == c[j];
  }

  /** The last candidate is first closest when it is within the threshold and strictly closer than all before it. */
  lemma LastFirstClosest<K>(c: seq<(K, string)>, wanted: string, threshold: int)
    requires c != [] && NameDistance(wanted, c[|c| - 1].1) <= threshold
    requires forall j :: 0 <= j < |c| - 1 ==> NameDistance(wanted, c[j].1) > NameDistance(wanted, c[|c| - 1].1)
    ensures IsFirstClosest(c, wanted, threshold, |c| - 1)
  {
  }

  /** Closest is None exactly when no candidate is within the threshold, and otherwise the first closest one. */
  lemma ClosestIsFirstClosest<K>(candidates: seq<(K, string)>, wanted: string, threshold: int)
    ensures Closest(candidates, wanted, threshold).None? <==>
      forall j :: 0 <= j < |candidates| ==> NameDistance(wanted, candidates[j].1) > threshold
    ensures Closest(candidates, wanted, threshold).Some? ==>
      exists k :: IsFirstClosest(candidates, wanted, threshold, k) && candidates[k] == Closest(candidates, wanted, threshold).value
  {
    ClosestNoneIff(candidates, wanted, threshold);
    ClosestIsFirst(candidates, wanted, threshold);
  }

  /** Closest is None exactly when no candidate is within the threshold. */
  lemma {:induction false} ClosestNoneIff<K>(candidates: seq<(K, string)>, wanted: string, threshold: int)
    ensures Closest(candidates, wanted, threshold).None? <==>
      forall j :: 0 <= j < |candidates| ==> NameDistance(wanted, candidates[j].1) > threshold
  {
    if candidates != [] {
      var init := candidates[..|candidates| - 1];
      ClosestNoneIff(init, wanted, threshold);
      assert forall j :: 0 <= j < |init| ==> init[j] == candidates[j];
    }
  }

  /** A candidate Closest picks is the first closest one. */
  lemma {:induction false} ClosestIsFirst<K>(candidates: seq<(K, string)>, wanted: string, threshold: int)
    ensures Closest(candidates, wanted, threshold).Some? ==>
      exists k :: IsFirstClosest(candidates, wanted, threshold, k) && candidates[k] == Closest(candidates, wanted, threshold).value
  {
    if candidates != [] {
      var init := candidates[..|candidates| - 1];
      ClosestIsFirst(init, wanted, threshold);
      var best := Closest(init, wanted, threshold);
      var d := NameDistance(wanted, candidates[|candidates| - 1].1);
      if (best.None? || d < NameDistance(wanted, best.value.1)) && d <= threshold {
        if best.Some? {
          var k :| IsFirstClosest(init, wanted, threshold, k) && init[k] == best.value;
          assert forall j :: 0 <= j < |init| ==> init[j] == candidates[j];
          assert forall j :: 0 <= j < |init| ==> NameDistance(wanted, init[j].1) >= NameDistance(wanted, init[k].1);
        } else {
          ClosestNoneIff(init, wanted, threshold);
          assert forall j :: 0 <= j < |init| ==> init[j] == candidates[j];
        }
        LastFirstClosest(candidates, wanted, threshold);
      } else if best.Some? {
        var k :| IsFirstClosest(init, wanted, threshold, k) && init[k] == best.value;
        KeepFirstClosest(candidates, wanted, threshold, k);
      }
    }
  }

  /**
   * The selection loop: the best so far is replaced only by a strictly closer candidate
   * within the threshold.
   */
  method FindClosest<K>(wanted: string, candidates: seq<(K, string)>, threshold: int) returns (best: Option<(K, string)>)
    ensures best.None? <==> forall j :: 0 <= j < |candidates| ==> NameDistance(wanted, candidates[j].1) > threshold
    ensures best.Some? ==> exists k :: IsFirstClosest(candidates, wanted, threshold, k) && candidates[k] == best.value
    ensures best == Closest(candidates, wanted, threshold)
  {
    best := None;
    var bestDistance: nat := 0;
    var wantedLower := Lower(wanted);
    var i := 0;
    while i < |candidates|
      invariant 0 <= i <= |candidates|
      invariant best == Closest(candidates[..i], wanted, threshold)
      invariant best.Some? ==> bestDistance == NameDistance(wanted, best.value.1)
    {
      assert candidates[..i + 1][..i] == candidates[..i];
      assert candidates[..i + 1][i] == candidates[i];
      var dist := Levenshtein(wantedLower, Lower(candidates[i].1));
      if (best.None? || dist < bestDistance) && dist <= threshold {
        best := Some(candidates[i]);
        bestDistance := dist;
      }
      i := i + 1;
    }
    assert candidates[..i] == candidates;
    ClosestIsFirstClosest(candidates, wanted, threshold);
  }
}
