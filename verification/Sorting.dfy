/** The sorting calls of the source: some sorted permutation of the input. */
module Sorting {

  /** Nothing is less than an element before it. */
  ghost predicate Sorted<T>(s: seq<T>, less: (T, T) -> bool)
  {
    forall i, j :: 0 <= i < j < |s| ==> !less(s[j], s[i])
  }

  /** What Go's `sort` asks of a `Less` function. */
  ghost predicate StrictWeakOrder<T(!new)>(less: (T, T) -> bool)
  {
    && (forall a, b :: less(a, b) ==> !less(b, a))
    && (forall a, b, c :: !less(b, a) && !less(c, b) ==> !less(c, a))
  }

  /** Inserting into a sorted sequence, behind everything not greater. */
  method Insert<T(!new)>(s: seq<T>, x: T, less: (T, T) -> bool) returns (r: seq<T>)
    requires StrictWeakOrder(less) && Sorted(s, less)
    ensures Sorted(r, less) && multiset(r) == multiset(s) + multiset{x}
  {
    var k := |s|;
    while k > 0 && less(x, s[k - 1])
      invariant 0 <= k <= |s|
      invariant forall i :: k <= i < |s| ==> less(x, s[i])
    {
      k := k - 1;
    }
    r := s[..k] + [x] + s[k..];
    assert s == s[..k] + s[k..];
    forall i, j | 0 <= i < j < |r| ensures !less(r[j], r[i]) {
      InsertOrdered(s, x, k, less, i, j);
    }
  }

  lemma InsertOrdered<T(!new)>(s: seq<T>, x: T, k: nat, less: (T, T) -> bool, i: nat, j: nat)
    requires StrictWeakOrder(less) && Sorted(s, less) && k <= |s|
    requires k > 0 ==> !less(x, s[k - 1])
    requires forall i :: k <= i < |s| ==> less(x, s[i])
    requires i < j <= |s|
    ensures var r := s[..k] + [x] + s[k..]; !less(r[j], r[i])
  {
    if j == k {
      assert i == k - 1 || !less(s[k - 1], s[i]);
    }
  }

  method Sort<T(!new)>(s: seq<T>, less: (T, T) -> bool) returns (r: seq<T>)
    requires StrictWeakOrder(less)
    ensures Sorted(r, less) && multiset(r) == multiset(s)
  {
    r := [];
    for i := 0 to |s|
      invariant Sorted(r, less) && multiset(r) == multiset(s[..i])
    {
      assert s[..i + 1] == s[..i] + [s[i]];
      r := Insert(r, s[i], less);
    }
    assert s[..|s|] == s;
  }

  ghost predicate StrictlySorted<T>(s: seq<T>, less: (T, T) -> bool)
  {
    forall i, j :: 0 <= i < j < |s| ==> less(s[i], s[j])
  }

  /** A strictly sorted sequence is determined by its elements. */
  lemma {:induction false} StrictlySortedUnique<T(!new)>(a: seq<T>, b: seq<T>, less: (T, T) -> bool)
    requires StrictWeakOrder(less) && StrictlySorted(a, less) && StrictlySorted(b, less)
    requires forall x :: x in a <==> x in b
    ensures a == b
  {
    if a == [] {
      if b != [] {
        HeadIn(b);
      }
    } else {
      assert a[0] in b;
      assert b[0] in a;
      assert a[0] == b[0];
      forall x ensures x in a[1..] <==> x in b[1..] {
        TailElements(a, less, x);
        TailElements(b, less, x);
      }
      StrictlySortedUnique(a[1..], b[1..], less);
      assert a == [a[0]] + a[1..] && b == [b[0]] + b[1..];
    }
  }

  lemma HeadIn<T>(s: seq<T>)
    requires s != []
    ensures s[0] in s
  {}

  lemma TailElements<T(!new)>(s: seq<T>, less: (T, T) -> bool, x: T)
    requires StrictWeakOrder(less) && StrictlySorted(s, less) && s != []
    ensures x in s[1..] <==> x in s && x != s[0]
  {}
}
