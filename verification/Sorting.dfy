/** In-place sorting by a comparison function, with no promise about the order of ties. */
module Sorting {

  ghost predicate StrictWeakOrder<T(!new)>(less: (T, T) -> bool) {
    && (forall x :: !less(x, x))
    && (forall x, y :: less(x, y) ==> !less(y, x))
    && (forall x, y, z :: !less(x, y) && !less(y, z) ==> !less(x, z))
  }

  /** Nothing is less than anything before it. */
  ghost predicate Ordered<T>(s: seq<T>, less: (T, T) -> bool) {
    forall i, k | 0 <= i < k < |s| :: !less(s[k], s[i])
  }

  /** Ordered, except that the element at `j` may belong further left. */
  ghost predicate OrderedBut<T>(s: seq<T>, less: (T, T) -> bool, j: nat) {
    forall i, k | 0 <= i < k < |s| && k != j :: !less(s[k], s[i])
  }

  /** Nothing after position `j` is less than the element there. */
  ghost predicate LeastFrom<T>(s: seq<T>, less: (T, T) -> bool, j: nat) {
    j < |s| && forall k | j < k < |s| :: !less(s[k], s[j])
  }

  method Sort<T(!new)>(a: array<T>, less: (T, T) -> bool)
    requires StrictWeakOrder(less)
    modifies a
    ensures multiset(a[..]) == multiset(old(a[..]))
    ensures Ordered(a[..], less)
  {
    var i := 0;
    while i < a.Length
      invariant 0 <= i <= a.Length
      invariant multiset(a[..]) == multiset(old(a[..]))
      invariant Ordered(a[..i], less)
    {
      SiftDown(a, less, i);
      i := i + 1;
    }
    assert a[..i] == a[..];
  }

  function Swapped<T>(s: seq<T>, j: nat): seq<T>
    requires 0 < j < |s|
  {
    s[j := s[j - 1]][j - 1 := s[j]]
  }

  /** Swapping the misplaced element with the greater one before it moves the misplacement left. */
  lemma SwapMoves<T(!new)>(s: seq<T>, less: (T, T) -> bool, j: nat)
    requires StrictWeakOrder(less) && 0 < j < |s| && less(s[j], s[j - 1])
    requires OrderedBut(s, less, j) && LeastFrom(s, less, j)
    ensures OrderedBut(Swapped(s, j), less, j - 1) && LeastFrom(Swapped(s, j), less, j - 1)
  {
    var t := Swapped(s, j);
    forall i, k | 0 <= i < k < |t| && k != j - 1
      ensures !less(t[k], t[i])
    {
      if k == j {
        assert t[k] == s[j - 1] && (i == j - 1 || t[i] == s[i]);
      } else {
        assert t[k] == s[k];
      }
    }
  }

  lemma SettledHere<T(!new)>(s: seq<T>, less: (T, T) -> bool, j: nat)
    requires StrictWeakOrder(less) && j < |s| && OrderedBut(s, less, j)
    requires j == 0 || !less(s[j], s[j - 1])
    ensures Ordered(s, less)
  {
    forall k | 0 <= k < j
      ensures !less(s[j], s[k])
    {
      assert k < j - 1 ==> !less(s[j - 1], s[k]);
    }
  }

  method SiftDown<T(!new)>(a: array<T>, less: (T, T) -> bool, i: nat)
    requires StrictWeakOrder(less) && i < a.Length && Ordered(a[..i], less)
    modifies a
    ensures multiset(a[..]) == multiset(old(a[..]))
    ensures Ordered(a[..i + 1], less)
  {
    hide StrictWeakOrder;
    var j := i;
    assert OrderedBut(a[..i + 1], less, i) by { assert a[..i + 1][..i] == a[..i]; }
    assert LeastFrom(a[..i + 1], less, i);
    hide OrderedBut, Ordered, LeastFrom;
    while j > 0 && less(a[j], a[j - 1])
      invariant 0 <= j <= i
      invariant multiset(a[..]) == multiset(old(a[..]))
      invariant OrderedBut(a[..i + 1], less, j)
      invariant LeastFrom(a[..i + 1], less, j)
    {
      ghost var s := a[..i + 1];
      SwapMoves(s, less, j);
      a[j], a[j - 1] := a[j - 1], a[j];
      assert a[..i + 1] == Swapped(s, j);
      j := j - 1;
    }
    SettledHere(a[..i + 1], less, j);
  }

  // ----- What sorting determines -----

  /** The first element of an ordered sequence is a minimum. */
  lemma HeadIsLeast<T>(s: seq<T>, less: (T, T) -> bool, x: T)
    requires Ordered(s, less) && x in s && !less(x, x)
    ensures !less(x, s[0])
  {
    var k :| 0 <= k < |s| && s[k] == x;
  }
}
