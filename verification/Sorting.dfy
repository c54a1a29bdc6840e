/** What sorting promises, whatever the algorithm. */
module Sorting {
  /** A comparison that sorts: equally ranked elements may come in any order. */
  ghost predicate Ranks<T(!new)>(less: (T, T) -> bool) {
    && (forall x, y :: less(x, y) ==> !less(y, x))
    && (forall x, y, z :: !less(x, y) && !less(y, z) ==> !less(x, z))
  }

  ghost predicate Sorted<T>(less: (T, T) -> bool, s: seq<T>) {
    forall i, j :: 0 <= i < j < |s| ==> !less(s[j], s[i])
  }

  lemma PlacedSorted<T(!new)>(less: (T, T) -> bool, s: seq<T>, x: T, k: nat)
    requires Ranks(less) && Sorted(less, s) && k <= |s|
    requires (forall i :: k <= i < |s| ==> less(x, s[i])) && (k > 0 ==> !less(x, s[k - 1]))
    ensures Sorted(less, s[..k] + [x] + s[k..])
  {
    var s' := s[..k] + [x] + s[k..];
    forall i, j | 0 <= i < j < |s'| ensures !less(s'[j], s'[i]) {
      if j < k {
        assert s'[i] == s[i] && s'[j] == s[j];
      } else if j == k {
        assert s'[i] == s[i] && s'[j] == x && !less(x, s[k - 1]);
        if i < k - 1 { assert !less(s[k - 1], s[i]); }
      } else {
        assert s'[j] == s[j - 1];
        if i < k { assert s'[i] == s[i]; } else if i > k { assert s'[i] == s[i - 1]; }
      }
    }
  }

  /** Places an element into a sorted list. */
  method Place<T(!new)>(less: (T, T) -> bool, s: seq<T>, x: T) returns (s': seq<T>)
    requires Ranks(less) && Sorted(less, s)
    ensures Sorted(less, s') && multiset(s') == multiset(s) + multiset{x}
  {
    var k := |s|;
    while k > 0 && less(x, s[k - 1])
      invariant 0 <= k <= |s|
      invariant forall i :: k <= i < |s| ==> less(x, s[i])
    {
      k := k - 1;
    }
    s' := s[..k] + [x] + s[k..];
    assert s == s[..k] + s[k..];
    PlacedSorted(less, s, x, k);
  }

  method Sort<T(!new)>(less: (T, T) -> bool, s: seq<T>) returns (r: seq<T>)
    requires Ranks(less)
    ensures Sorted(less, r) && multiset(r) == multiset(s)
  {
    r := [];
    for k := 0 to |s|
      invariant Sorted(less, r) && multiset(r) == multiset(s[..k])
    {
      r := Place(less, r, s[k]);
      assert s[..k + 1] == s[..k] + [s[k]];
    }
    assert s[..|s|] == s;
  }
}
