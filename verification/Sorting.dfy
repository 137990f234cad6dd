// String order and an in-place sort by a caller's comparator.
module Sorting {

  /** Go's `<` on strings. */
  predicate Less(a: string, b: string) {
    b != "" && (a == "" || a[0] < b[0] || (a[0] == b[0] && Less(a[1..], b[1..])))
  }

  lemma {:induction false} LessTotal(a: string, b: string)
    ensures a == b || Less(a, b) || Less(b, a)
  {
    if a != "" && b != "" && a[0] == b[0] {
      LessTotal(a[1..], b[1..]);
      assert a == [a[0]] + a[1..] && b == [b[0]] + b[1..];
    }
  }

  lemma {:induction false} LessTransitive(a: string, b: string, c: string)
    requires Less(a, b) && Less(b, c)
    ensures Less(a, c)
  {
    if a != "" && a[0] == b[0] == c[0] {
      LessTransitive(a[1..], b[1..], c[1..]);
    }
  }

  lemma {:induction false} LessIrreflexive(a: string)
    ensures !Less(a, a)
  {
    if a != "" {
      LessIrreflexive(a[1..]);
    }
  }

  /** After `k` common characters the first string ends, or has the smaller one next. */
  ghost predicate Parts(a: string, b: string, k: nat) {
    k <= |a| && k < |b| && a[..k] == b[..k] && (k == |a| || a[k] < b[k])
  }

  /** The order of dictionaries. */
  lemma {:induction false} LessMeans(a: string, b: string)
    ensures Less(a, b) <==> exists k: nat :: Parts(a, b, k)
  {
    if a == "" || b == "" || a[0] != b[0] {
      assert Less(a, b) ==> Parts(a, b, 0);
    } else {
      LessMeans(a[1..], b[1..]);
      if k: nat :| Parts(a[1..], b[1..], k) {
        assert a[..k + 1] == [a[0]] + a[1..][..k] && b[..k + 1] == [b[0]] + b[1..][..k];
        assert Parts(a, b, k + 1);
      }
      if k: nat :| Parts(a, b, k) {
        assert k > 0 && a[1..][..k - 1] == a[..k][1..] && b[1..][..k - 1] == b[..k][1..];
        assert Parts(a[1..], b[1..], k - 1);
      }
    }
  }

  ghost predicate StrictWeakOrder<T(!new)>(less: (T, T) -> bool) {
    && (forall x :: !less(x, x))
    && (forall x, y, z :: less(x, y) && less(y, z) ==> less(x, z))
    && (forall x, y, z :: !less(x, y) && !less(y, z) ==> !less(x, z))
  }

  lemma LessOrder()
    ensures StrictWeakOrder(Less)
  {
    forall x { LessIrreflexive(x); }
    forall x, y, z | Less(x, y) && Less(y, z) ensures Less(x, z) { LessTransitive(x, y, z); }
    forall x, y, z | !Less(x, y) && !Less(y, z) ensures !Less(x, z) {
      LessTotal(x, y);
      LessTotal(y, z);
      if Less(x, z) {
        if Less(y, x) && Less(z, y) { LessTransitive(z, y, x); LessTransitive(z, x, z); LessIrreflexive(z); }
      }
    }
  }

  ghost predicate Ordered<T>(s: seq<T>, less: (T, T) -> bool) {
    forall i, j :: 0 <= i < j < |s| ==> !less(s[j], s[i])
  }

  // Every pair of s except those ending at position hole is in order.
  ghost predicate OrderedBut<T>(s: seq<T>, hole: int, less: (T, T) -> bool) {
    forall i, j :: 0 <= i < j < |s| && j != hole ==> !less(s[j], s[i])
  }

  lemma SiftDown<T(!new)>(s: seq<T>, hole: nat, less: (T, T) -> bool)
    requires StrictWeakOrder(less) && 0 < hole < |s|
    requires OrderedBut(s, hole, less) && less(s[hole], s[hole - 1])
    ensures OrderedBut(s[hole := s[hole - 1]][hole - 1 := s[hole]], hole - 1, less)
  {
  }

  lemma Settled<T(!new)>(s: seq<T>, hole: nat, less: (T, T) -> bool)
    requires StrictWeakOrder(less) && hole < |s| && OrderedBut(s, hole, less)
    requires hole == 0 || !less(s[hole], s[hole - 1])
    ensures Ordered(s, less)
  {
  }

  /** One exchange with the element before. */
  method SwapDown<T>(a: array<T>, j: nat)
    requires 0 < j < a.Length
    modifies a
    ensures a[..] == old(a[..])[j := old(a[j - 1])][j - 1 := old(a[j])]
    ensures multiset(a[..]) == multiset(old(a[..]))
  {
    a[j], a[j - 1] := a[j - 1], a[j];
    assert a[..] == old(a[..])[j := old(a[j - 1])][j - 1 := old(a[j])];
  }

  /** Stands for the library's sort: the outcome is an ordered rearrangement, in place. */
  method SortInPlace<T(!new)>(a: array<T>, less: (T, T) -> bool)
    requires StrictWeakOrder(less)
    modifies a
    ensures multiset(a[..]) == multiset(old(a[..]))
    ensures Ordered(a[..], less)
  {
    hide StrictWeakOrder;
    var n := 0;
    while n < a.Length
      invariant 0 <= n <= a.Length
      invariant multiset(a[..]) == multiset(old(a[..]))
      invariant Ordered(a[..n], less)
    {
      var j := n;
      assert OrderedBut(a[..n + 1], n, less);
      while j > 0 && less(a[j], a[j - 1])
        invariant 0 <= j <= n
        invariant multiset(a[..]) == multiset(old(a[..]))
        invariant OrderedBut(a[..n + 1], j, less)
      {
        hide OrderedBut;
        ghost var s := a[..n + 1];
        SiftDown(s, j, less);
        SwapDown(a, j);
        assert a[..n + 1] == a[..][..n + 1];
        assert a[..n + 1] == s[j := s[j - 1]][j - 1 := s[j]];
        j := j - 1;
      }
      Settled(a[..n + 1], j, less);
      n := n + 1;
    }
    assert a[..n] == a[..];
  }
}
