/** Small shared vocabulary: optional values, identifiers and the string order. */
module Basics {

  datatype Option<+T> = None | Some(value: T)

  /** Run identifiers are uuid strings; lock keys and session ids are strings too. */
  type RunId = string
  type LockKey = string
  type SessionId = string

  /** Seconds as returned by the clock. */
  type Time = real

  /** Python's string comparison: lexicographic on code points. */
  predicate LexLess(a: string, b: string) {
    if b == "" then false
    else if a == "" then true
    else if a[0] == b[0] then LexLess(a[1..], b[1..])
    else a[0] < b[0]
  }

  lemma {:induction false} LexIrreflexive(a: string)
    ensures !LexLess(a, a)
  {
    if a != "" {
      LexIrreflexive(a[1..]);
    }
  }

  lemma {:induction false} LexTransitive(a: string, b: string, c: string)
    requires LexLess(a, b) && LexLess(b, c)
    ensures LexLess(a, c)
  {
    if a != "" && a[0] == b[0] && b[0] == c[0] {
      LexTransitive(a[1..], b[1..], c[1..]);
    }
  }

  lemma {:induction false} LexTotal(a: string, b: string)
    ensures a == b || LexLess(a, b) || LexLess(b, a)
  {
    if a != "" && b != "" {
      LexTotal(a[1..], b[1..]);
      assert a == [a[0]] + a[1..] && b == [b[0]] + b[1..];
    }
  }

  /** a and b agree up to k, where a ends or has the smaller character. */
  ghost predicate LessFrom(a: string, b: string, k: nat) {
    k <= |a| && k < |b| && a[..k] == b[..k] && (k == |a| || a[k] < b[k])
  }

  /** The dictionary order: a proper prefix comes first, else the first difference decides. */
  lemma {:induction false} LexIsDictionaryOrder(a: string, b: string)
    ensures LexLess(a, b) <==> exists k: nat :: LessFrom(a, b, k)
  {
    forall k: nat | 0 < k && LessFrom(a, b, k) ensures a[0] == b[0] {
      assert a[..k][0] == b[..k][0];
    }
    if a != "" && b != "" && a[0] == b[0] {
      LexIsDictionaryOrder(a[1..], b[1..]);
      forall k: nat ensures LessFrom(a, b, k + 1) <==> LessFrom(a[1..], b[1..], k) {
        if k < |a| && k < |b| { assert a[..k + 1] == [a[0]] + a[1..][..k] && b[..k + 1] == [b[0]] + b[1..][..k]; }
      }
      assert !LessFrom(a, b, 0);
      if k: nat :| LessFrom(a, b, k) { assert LessFrom(a[1..], b[1..], k - 1) <==> LessFrom(a, b, k - 1 + 1); }
    } else {
      assert a[..0] == b[..0];
      assert b != "" && (a == "" || a[0] < b[0]) ==> LessFrom(a, b, 0);
    }
  }

  /** The elements of a sequence as a set. */
  ghost function Elems<T>(xs: seq<T>): set<T> {
    set x | x in xs
  }

  ghost predicate NoDups<T>(xs: seq<T>) {
    forall i, j :: 0 <= i < j < |xs| ==> xs[i] != xs[j]
  }

  lemma {:induction false} NoDupsCardinality<T>(xs: seq<T>)
    requires NoDups(xs)
    ensures |Elems(xs)| == |xs|
  {
    if xs != [] {
      NoDupsCardinality(xs[1..]);
      assert Elems(xs) == {xs[0]} + Elems(xs[1..]);
      assert xs[0] !in xs[1..];
    }
  }

  lemma SubsetCardinality<T>(a: set<T>, b: set<T>)
    requires a <= b
    ensures |a| <= |b|
  {
    assert b == a + (b - a);
  }

  function Max(a: int, b: int): int {
    if a >= b then a else b
  }

  /** list.remove: everything but the first occurrence. */
  function WithoutFirst<T(==)>(xs: seq<T>, x: T): seq<T> {
    if xs == [] then [] else if xs[0] == x then xs[1..] else [xs[0]] + WithoutFirst(xs[1..], x)
  }

  lemma NoDupsSnoc<T>(xs: seq<T>, x: T)
    requires NoDups(xs) && x !in xs
    ensures NoDups(xs + [x])
  {
  }
}
