/** Facts about sets and maps shared by the consensus layer, the service and the checker. */
module Collections {

  /** The numbers below `n`: the peers of a cluster, the operations of a history. */
  function Below(n: nat): (r: set<nat>)
    ensures |r| == n && forall a: nat :: a in r <==> a < n
  {
    if n == 0 then {} else Below(n - 1) + {n - 1}
  }

  lemma SubsetSize<T>(a: set<T>, b: set<T>)
    requires a <= b
    ensures |a| <= |b|
  {
    assert b == a + (b - a);
  }

  lemma Smaller(s: set<nat>, t: set<nat>, a: nat)
    requires s <= t && a in t && a !in s
    ensures |s| < |t|
  {
    assert t == s + (t - s);
    assert a in t - s;
  }

  /** A store reads as the empty string at a key it does not hold. */
  function Lookup(store: map<string, string>, key: string): string {
    if key in store then store[key] else ""
  }
}
