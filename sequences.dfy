/** Sequence facts used to make Python's dictionary insertion order explicit. */
module Sequences {

  /** No element occurs twice. */
  predicate NoDuplicates<T(==)>(s: seq<T>) {
    forall i, j :: 0 <= i < j < |s| ==> s[i] != s[j]
  }

  /** The distinct elements of `s`, each kept at its first occurrence: the key
      order of a dictionary into which the elements of `s` are inserted in turn. */
  function Distinct<T(==, !new)>(s: seq<T>): (d: seq<T>)
    ensures forall x :: x in d <==> x in s
    ensures NoDuplicates(d)
    ensures |d| <= |s|
  {
    if s == [] then []
    else
      var p := Distinct(s[..|s| - 1]);
      assert s == s[..|s| - 1] + [s[|s| - 1]];
      if s[|s| - 1] in p then p else p + [s[|s| - 1]]
  }

  /** Inserting one more element extends the key order only when it is new. */
  lemma DistinctSnoc<T(!new)>(s: seq<T>, x: T)
    ensures Distinct(s + [x]) == if x in s then Distinct(s) else Distinct(s) + [x]
  {
    assert (s + [x])[..|s|] == s;
  }

  /** The index of the first occurrence of `x` in `s`. */
  function IndexOf<T(==)>(s: seq<T>, x: T): (k: nat)
    requires x in s
    ensures k < |s| && s[k] == x && x !in s[..k]
  {
    if s[0] == x then 0
    else
      var k := IndexOf(s[1..], x);
      assert s[..k + 1] == [s[0]] + s[1..][..k];
      k + 1
  }

  /** A position holding `x` with no `x` before it is the first occurrence. */
  lemma IndexOfUnique<T>(s: seq<T>, x: T, k: nat)
    requires k < |s| && s[k] == x && x !in s[..k]
    ensures IndexOf(s, x) == k
  {
    assert IndexOf(s, x) < |s|;
  }

  /** Appending cannot move the first occurrence of an element already present. */
  lemma IndexOfSnoc<T>(s: seq<T>, z: T, x: T)
    requires x in s
    ensures IndexOf(s + [z], x) == IndexOf(s, x)
  {
    var k := IndexOf(s, x);
    assert (s + [z])[..k] == s[..k];
    IndexOfUnique(s + [z], x, k);
  }

  /** In a sequence without duplicates every position is a first occurrence. */
  lemma IndexOfDistinct<T>(s: seq<T>, j: nat)
    requires NoDuplicates(s) && j < |s|
    ensures IndexOf(s, s[j]) == j
  {
    assert forall i :: 0 <= i < j ==> s[..j][i] != s[j];
    IndexOfUnique(s, s[j], j);
  }

  /** The key order of `Distinct(s)` is the order of first occurrence in `s`. */
  lemma {:induction false} DistinctOrder<T(!new)>(s: seq<T>, x: T, y: T)
    requires x in s && y in s
    ensures IndexOf(Distinct(s), x) < IndexOf(Distinct(s), y) <==> IndexOf(s, x) < IndexOf(s, y)
  {
    var n := |s| - 1;
    var p, z := s[..n], s[n];
    assert s == p + [z];
    var dp := Distinct(p);
    DistinctSnoc(p, z);
    if x == y {
    } else if x in p && y in p {
      DistinctOrder(p, x, y);
      IndexOfSnoc(p, z, x);
      IndexOfSnoc(p, z, y);
      if z !in p {
        IndexOfSnoc(dp, z, x);
        IndexOfSnoc(dp, z, y);
      }
    } else if x in p {
      // y is z, new at the end of both sequences
      IndexOfUnique(s, y, n);
      IndexOfSnoc(p, z, x);
      assert (dp + [z])[..|dp|] == dp;
      IndexOfUnique(dp + [z], y, |dp|);
      IndexOfSnoc(dp, z, x);
    } else {
      // x is z, new at the end of both sequences
      IndexOfUnique(s, x, n);
      IndexOfSnoc(p, z, y);
      assert (dp + [z])[..|dp|] == dp;
      IndexOfUnique(dp + [z], x, |dp|);
      IndexOfSnoc(dp, z, y);
    }
  }

  /** The elements of `Distinct(s)` appear in the order of their first occurrence in `s`. */
  lemma DistinctFollowsFirstOccurrence<T(!new)>(s: seq<T>, k: nat, l: nat)
    requires k < l < |Distinct(s)|
    ensures Distinct(s)[k] in s && Distinct(s)[l] in s
    ensures IndexOf(s, Distinct(s)[k]) < IndexOf(s, Distinct(s)[l])
  {
    var d := Distinct(s);
    IndexOfDistinct(d, k);
    IndexOfDistinct(d, l);
    DistinctOrder(s, d[k], d[l]);
  }
}
