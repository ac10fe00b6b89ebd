/**
 * The two Ruby Array operators the migration's reconciliation is built from.
 *
 * - `a & b` (set intersection): the elements of `a` that also occur in `b`,
 *   in the order of `a`, each kept only at its first occurrence.
 * - `a - b` (difference): every element of `a` that does not occur in `b`,
 *   in the order of `a`, duplicates kept.
 *
 * Array equality `==` in Ruby is element-wise, which is Dafny's `==` on `seq`.
 */
module RubyArray {

  /** No element occurs twice. */
  predicate NoDups<T(==)>(s: seq<T>) {
    forall i, j :: 0 <= i < j < |s| ==> s[i] != s[j]
  }

  /** Every element of `a` occurs in `b`. */
  predicate AllIn<T(==)>(a: seq<T>, b: seq<T>) {
    forall x :: x in a ==> x in b
  }

  /** No element of `a` occurs in `b`. */
  predicate NoneIn<T(==)>(a: seq<T>, b: seq<T>) {
    forall x :: x in a ==> x !in b
  }

  /** Ruby's `a & b`: defined on the last element, so that an element
      already kept earlier in `a` is not kept again. */
  function Intersect<T(==)>(a: seq<T>, b: seq<T>): seq<T>
    decreases |a|
  {
    if a == [] then []
    else
      var kept := Intersect(a[..|a| - 1], b);
      var x := a[|a| - 1];
      if x in b && x !in kept then kept + [x] else kept
  }

  /** Ruby's `a - b`. */
  function Difference<T(==)>(a: seq<T>, b: seq<T>): seq<T>
    decreases |a|
  {
    if a == [] then []
    else if a[0] in b then Difference(a[1..], b)
    else [a[0]] + Difference(a[1..], b)
  }

  /** An element is in `a & b` exactly when it is in both arrays. */
  lemma {:induction false} IntersectMembers<T>(a: seq<T>, b: seq<T>)
    ensures forall x :: x in Intersect(a, b) <==> x in a && x in b
    decreases |a|
  {
    if a != [] {
      var p := a[..|a| - 1];
      IntersectMembers(p, b);
      assert a == p + [a[|a| - 1]];
    }
  }

  /** `a & b` never holds an element twice. */
  lemma {:induction false} IntersectNoDups<T>(a: seq<T>, b: seq<T>)
    ensures NoDups(Intersect(a, b))
    decreases |a|
  {
    if a != [] {
      IntersectNoDups(a[..|a| - 1], b);
    }
  }

  /** `a & b == a` holds exactly when every element of `a` is in `b` and `a`
      has no duplicates: a reference list with a repeated version can never
      equal its intersection. */
  lemma {:induction false} IntersectIsWhole<T>(a: seq<T>, b: seq<T>)
    ensures Intersect(a, b) == a <==> AllIn(a, b) && NoDups(a)
    decreases |a|
  {
    IntersectMembers(a, b);
    IntersectNoDups(a, b);
    if AllIn(a, b) && NoDups(a) && a != [] {
      var p := a[..|a| - 1];
      var x := a[|a| - 1];
      assert a == p + [x];
      assert AllIn(p, b);
      assert NoDups(p);
      IntersectIsWhole(p, b);
      assert x !in p;
    }
  }

  /** `a & b` is empty exactly when the two arrays share no element. */
  lemma IntersectIsEmpty<T>(a: seq<T>, b: seq<T>)
    ensures Intersect(a, b) == [] <==> NoneIn(a, b)
  {
    IntersectMembers(a, b);
    if Intersect(a, b) != [] {
      assert Intersect(a, b)[0] in Intersect(a, b);
    }
  }

  /** Membership in `a - b`. */
  lemma {:induction false} DifferenceMembers<T>(a: seq<T>, b: seq<T>)
    ensures forall x :: x in Difference(a, b) <==> x in a && x !in b
    decreases |a|
  {
    if a != [] {
      DifferenceMembers(a[1..], b);
      assert a == [a[0]] + a[1..];
    }
  }

  /** `a - b` removes every occurrence of an element of `b` and keeps every
      other element of `a` exactly as often as `a` holds it. */
  lemma {:induction false} DifferenceCounts<T>(a: seq<T>, b: seq<T>)
    ensures forall x :: multiset(Difference(a, b))[x] == if x in b then 0 else multiset(a)[x]
    decreases |a|
  {
    if a != [] {
      DifferenceCounts(a[1..], b);
      assert a == [a[0]] + a[1..];
    }
  }

  /** `a - b` is never longer than `a`; it is `a` itself when the arrays
      share nothing, and empty when every element of `a` is in `b`. */
  lemma {:induction false} DifferenceExtremes<T>(a: seq<T>, b: seq<T>)
    ensures |Difference(a, b)| <= |a|
    ensures NoneIn(a, b) ==> Difference(a, b) == a
    ensures AllIn(a, b) ==> Difference(a, b) == []
    decreases |a|
  {
    if a != [] {
      DifferenceExtremes(a[1..], b);
      assert a == [a[0]] + a[1..];
      assert forall x :: x in a[1..] ==> x in a;
    }
  }
}
