/** Levenshtein edit distance (insertions, deletions and substitutions, each of cost 1). */
module EditDistance {

  function Min3(a: nat, b: nat, c: nat): nat
  {
    if a <= b && a <= c then a else if b <= c then b else c
  }

  /** The distance never exceeds the longer string's length. */
  function Levenshtein(a: string, b: string): (d: nat)
    ensures d <= if |a| >= |b| then |a| else |b|
    decreases |a| + |b|
  {
    if |a| == 0 then |b|
    else if |b| == 0 then |a|
    else Min3(Levenshtein(a[1..], b) + 1,
              Levenshtein(a, b[1..]) + 1,
              Levenshtein(a[1..], b[1..]) + (if a[0] == b[0] then 0 else 1))
  }

  /** A string is at distance 0 from itself. */
  lemma {:induction false} DistanceToSelf(a: string)
    ensures Levenshtein(a, a) == 0
  {
    if |a| > 0 {
      DistanceToSelf(a[1..]);
    }
  }

  /** The distance is at least the difference of the lengths. */
  lemma {:induction false} LengthDifferenceBound(a: string, b: string)
    ensures Levenshtein(a, b) >= |a| - |b| && Levenshtein(a, b) >= |b| - |a|
    decreases |a| + |b|
  {
    if |a| > 0 && |b| > 0 {
      LengthDifferenceBound(a[1..], b);
      LengthDifferenceBound(a, b[1..]);
      LengthDifferenceBound(a[1..], b[1..]);
    }
  }

  /** Distance 0 means equal strings. */
  lemma {:induction false} ZeroDistanceMeansEqual(a: string, b: string)
    requires Levenshtein(a, b) == 0
    ensures a == b
    decreases |a| + |b|
  {
    if |a| > 0 && |b| > 0 {
      LengthDifferenceBound(a[1..], b);
      LengthDifferenceBound(a, b[1..]);
      ZeroDistanceMeansEqual(a[1..], b[1..]);
      assert a == [a[0]] + a[1..] && b == [b[0]] + b[1..];
    }
  }
}
