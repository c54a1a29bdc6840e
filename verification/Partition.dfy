/** Splitting a history by key. */
module Partition {
  import opened Linearizability
  import opened Histories
  import opened TimedOperations
  import opened Locality
  import opened Sorting

  /** The places below `n` of the operations on a key. */
  ghost function Places<K, I, O>(keyOf: I -> K, history: seq<Operation<I, O>>, k: K, n: nat): (r: seq<nat>)
    requires n <= |history|
    ensures forall a: nat :: a in r <==> a < n && OfKey(keyOf, history, k, a)
    ensures Ids(n, r) && Distinct(r)
  {
    if n == 0 then []
    else if OfKey(keyOf, history, k, n - 1) then Places(keyOf, history, k, n - 1) + [n - 1]
    else Places(keyOf, history, k, n - 1)
  }

  ghost function Select<T>(s: seq<T>, places: seq<nat>): seq<T>
    requires Ids(|s|, places)
  {
    seq(|places|, j requires 0 <= j < |places| => s[places[j]])
  }

  /** The operations on a key, in the order of the history. */
  ghost function Part<K, I, O>(keyOf: I -> K, history: seq<Operation<I, O>>, k: K): seq<Operation<I, O>> {
    Select(history, Places(keyOf, history, k, |history|))
  }

  // ---------------------------------------------------------------------
  // Splitting
  // ---------------------------------------------------------------------

  ghost predicate Grouped<I, O>(keyOf: I -> string, history: seq<Operation<I, O>>, n: nat, groups: map<string, seq<Operation<I, O>>>)
    requires n <= |history|
  {
    forall k: string ::
      && (k in groups <==> Places(keyOf, history, k, n) != [])
      && (k in groups ==> groups[k] == Select(history, Places(keyOf, history, k, n)))
  }

  /** Byte order on strings. */
  predicate Before(s: string, t: string) {
    t != [] && (s == [] || s[0] < t[0] || (s[0] == t[0] && Before(s[1..], t[1..])))
  }

  lemma {:induction false} BeforeTrichotomy(s: string, t: string)
    ensures s == t || Before(s, t) || Before(t, s)
    ensures !(Before(s, t) && Before(t, s)) && !Before(s, s)
  {
    if s != [] && t != [] && s[0] == t[0] {
      BeforeTrichotomy(s[1..], t[1..]);
      assert s == [s[0]] + s[1..] && t == [t[0]] + t[1..];
    }
    if s != [] { BeforeIrreflexive(s); }
  }

  lemma {:induction false} BeforeIrreflexive(s: string)
    ensures !Before(s, s)
  {
    if s != [] { BeforeIrreflexive(s[1..]); }
  }

  lemma {:induction false} BeforeTransitive(s: string, t: string, u: string)
    requires Before(s, t) && Before(t, u)
    ensures Before(s, u)
  {
    if s != [] && s[0] == t[0] && t[0] == u[0] {
      BeforeTransitive(s[1..], t[1..], u[1..]);
    }
  }

  ghost predicate Ascending(keys: seq<string>) {
    forall i, j :: 0 <= i < j < |keys| ==> Before(keys[i], keys[j])
  }

  lemma {:induction false} AscendingSize(keys: seq<string>, all: set<string>)
    requires Ascending(keys) && forall k :: k in keys <==> k in all
    ensures |keys| == |all|
  {
    if keys == [] {
      assert all == {};
    } else {
      var last := |keys| - 1;
      forall k ensures k in keys[..last] <==> k in all - {keys[last]} {
        assert keys == keys[..last] + [keys[last]];
        BeforeIrreflexive(keys[last]);
      }
      assert keys[last] in keys;
      AscendingSize(keys[..last], all - {keys[last]});
    }
  }

  lemma BeforeRanks()
    ensures Ranks(Before)
  {
    forall s, t ensures Before(s, t) ==> !Before(t, s) {
      BeforeTrichotomy(s, t);
    }
    forall s, t, u | !Before(s, t) && !Before(t, u) ensures !Before(s, u) {
      BeforeTrichotomy(s, t);
      BeforeTrichotomy(t, u);
      BeforeTrichotomy(s, u);
      if Before(u, t) && Before(t, s) { BeforeTransitive(u, t, s); }
    }
  }

  /** The keys in ascending order. */
  method SortedKeys(keys: set<string>) returns (sorted: seq<string>)
    ensures Ascending(sorted) && forall k :: k in sorted <==> k in keys
  {
    var unsorted, rest := [], keys;
    while rest != {}
      invariant rest <= keys && forall k :: k in keys <==> k in rest || k in unsorted
      invariant forall k :: k in unsorted ==> k !in rest
      invariant forall i, j :: 0 <= i < j < |unsorted| ==> unsorted[i] != unsorted[j]
      decreases |rest|
    {
      var k :| k in rest;
      rest := rest - {k};
      unsorted := unsorted + [k];
    }
    BeforeRanks();
    sorted := Sort(Before, unsorted);
    SamePlaces(unsorted, sorted);
    forall i, j | 0 <= i < j < |sorted| ensures Before(sorted[i], sorted[j]) {
      BeforeTrichotomy(sorted[i], sorted[j]);
    }
  }

  /** Splits a history by key: one part per key, in the order of the keys. */
  method PartitionByKey<I, O>(keyOf: I -> string, history: seq<Operation<I, O>>)
    returns (parts: seq<seq<Operation<I, O>>>, ghost keys: seq<string>)
    ensures Ascending(keys) && |parts| == |keys|
    ensures forall k :: k in keys <==> k in KeysOf(keyOf, history)
    ensures forall j :: 0 <= j < |parts| ==> parts[j] == Part(keyOf, history, keys[j])
  {
    var groups: map<string, seq<Operation<I, O>>> := map[];
    for n := 0 to |history|
      invariant Grouped(keyOf, history, n, groups)
    {
      var v := history[n];
      var key := keyOf(v.input);
      var group := if key in groups then groups[key] else [];
      ghost var was := groups;
      groups := groups[key := group + [v]];
      GroupedMore(keyOf, history, n, was, groups);
    }
    var sorted := SortedKeys(groups.Keys);
    keys := sorted;
    parts := [];
    for j := 0 to |sorted|
      invariant |parts| == j
      invariant forall i :: 0 <= i < j ==> parts[i] == Part(keyOf, history, keys[i])
    {
      assert sorted[j] in groups;
      parts := parts + [groups[sorted[j]]];
    }
    forall k ensures k in keys <==> k in KeysOf(keyOf, history) {
      HasPlaces(keyOf, history, k);
    }
  }

  lemma GroupedMore<I, O>(
    keyOf: I -> string, history: seq<Operation<I, O>>, n: nat,
    groups: map<string, seq<Operation<I, O>>>, groups': map<string, seq<Operation<I, O>>>)
    requires n < |history| && Grouped(keyOf, history, n, groups)
    requires var key := keyOf(history[n].input);
      groups' == groups[key := (if key in groups then groups[key] else []) + [history[n]]]
    ensures Grouped(keyOf, history, n + 1, groups')
  {
    var key := keyOf(history[n].input);
    forall k: string
      ensures k in groups' <==> Places(keyOf, history, k, n + 1) != []
      ensures k in groups' ==> groups'[k] == Select(history, Places(keyOf, history, k, n + 1))
    {
      var places := Places(keyOf, history, k, n);
      assert k in groups ==> groups[k] == Select(history, places);
      if k == key {
        assert Select(history, places + [n]) == Select(history, places) + [history[n]];
      }
    }
  }

  lemma HasPlaces<I, O>(keyOf: I -> string, history: seq<Operation<I, O>>, k: string)
    ensures k in KeysOf(keyOf, history) <==> Places(keyOf, history, k, |history|) != []
  {
    var places := Places(keyOf, history, k, |history|);
    if places != [] {
      assert places[0] in places;
      assert OfKey(keyOf, history, k, places[0]);
    }
    if k in KeysOf(keyOf, history) {
      var a :| 0 <= a < |history| && keyOf(history[a].input) == k;
      assert OfKey(keyOf, history, k, a);
      assert a in places;
    }
  }

  // ---------------------------------------------------------------------
  // A part is linearizable when its key is
  // ---------------------------------------------------------------------

  lemma {:induction false} RenamedAccepts<S, I, O>(
    m: Model<S, I, O>, history: seq<Operation<I, O>>, places: seq<nat>, s: S, order: seq<nat>)
    requires Ids(|history|, places) && Ids(|places|, order)
    ensures Accepts(TimedProblem(m, Select(history, places)), s, order) <==>
      Accepts(TimedProblem(m, history), s, Select(places, order))
    decreases |order|
  {
    if order != [] {
      var p, q := TimedProblem(m, Select(history, places)), TimedProblem(m, history);
      var renamed := Select(places, order);
      assert p.step(s, order[0]) == q.step(s, renamed[0]);
      RenamedAccepts(m, history, places, p.step(s, order[0]).1, order[1..]);
      assert renamed[1..] == Select(places, order[1..]);
    }
  }

  lemma PartThenKey<K, S(!new), I, O>(
    m: Model<S, I, O>, keyOf: I -> K, history: seq<Operation<I, O>>, k: K, order: seq<nat>)
    requires WellTimed(history) && Linearization(TimedProblem(m, Part(keyOf, history, k)), order)
    ensures KeyLinearizable(m, keyOf, history, k)
  {
    var places := Places(keyOf, history, k, |history|);
    var renamed := Select(places, order);
    RenamedAccepts(m, history, places, m.init, order);
    forall a: nat ensures a in renamed <==> OfKey(keyOf, history, k, a) && a !in {} {
      if a in places {
        var i :| 0 <= i < |places| && places[i] == a;
        AllPresent(|places|, order, i);
        var j :| 0 <= j < |order| && order[j] == i;
        assert renamed[j] == a;
      }
      if a in renamed {
        var j :| 0 <= j < |renamed| && renamed[j] == a;
        assert places[order[j]] in places;
      }
    }
    RenamedOrder(m, history, places, order);
    assert KeyOrder(m, keyOf, history, {}, m.init, k, renamed);
  }

  lemma RenamedOrder<S, I, O>(m: Model<S, I, O>, history: seq<Operation<I, O>>, places: seq<nat>, order: seq<nat>)
    requires WellTimed(history) && Ids(|history|, places) && Distinct(places) && Ids(|places|, order)
    ensures WellTimed(Select(history, places)) && Ids(|history|, Select(places, order))
    ensures Distinct(Select(places, order)) <==> Distinct(order)
    ensures RespectsRealTime(TimedProblem(m, history), Select(places, order)) <==>
      RespectsRealTime(TimedProblem(m, Select(history, places)), order)
  {
    var renamed := Select(places, order);
    var p, q := TimedProblem(m, history), TimedProblem(m, Select(history, places));
    if Distinct(renamed) {
      forall i, j | 0 <= i < j < |order| ensures order[i] != order[j] { assert renamed[i] != renamed[j]; }
    }
    forall i, j | 0 <= i < j < |order|
      ensures p.rets[renamed[j]] < p.calls[renamed[i]] <==> q.rets[order[j]] < q.calls[order[i]] {
    }
  }

  ghost function PlaceOf(places: seq<nat>, a: nat): (r: nat)
    requires a in places
    ensures r < |places| && places[r] == a
  {
    var i: nat :| i < |places| && places[i] == a; i
  }

  lemma SameSize(a: seq<nat>, b: seq<nat>)
    requires Distinct(a) && Distinct(b) && forall x: nat :: x in a <==> x in b
    ensures |a| == |b|
  {
    MembersSize(a);
    MembersSize(b);
    assert Members(a) == Members(b);
  }

  lemma KeyThenPart<K, S(!new), I, O>(
    m: Model<S, I, O>, keyOf: I -> K, history: seq<Operation<I, O>>, k: K, renamed: seq<nat>)
    requires WellTimed(history) && KeyOrder(m, keyOf, history, {}, m.init, k, renamed)
    ensures WellTimed(Part(keyOf, history, k)) && Linearizable(TimedProblem(m, Part(keyOf, history, k)))
  {
    var places := Places(keyOf, history, k, |history|);
    forall j | 0 <= j < |renamed| ensures renamed[j] in places {
      assert renamed[j] in renamed;
    }
    var order := seq(|renamed|, j requires 0 <= j < |renamed| => PlaceOf(places, renamed[j]));
    assert Select(places, order) == renamed;
    RenamedAccepts(m, history, places, m.init, order);
    RenamedOrder(m, history, places, order);
    SameSize(renamed, places);
    assert Linearization(TimedProblem(m, Part(keyOf, history, k)), order);
  }

  lemma PartIsKey<K, S(!new), I, O>(m: Model<S, I, O>, keyOf: I -> K, history: seq<Operation<I, O>>, k: K)
    requires WellTimed(history)
    ensures WellTimed(Part(keyOf, history, k))
    ensures Linearizable(TimedProblem(m, Part(keyOf, history, k))) <==> KeyLinearizable(m, keyOf, history, k)
  {
    var p := TimedProblem(m, Part(keyOf, history, k));
    if Linearizable(p) {
      var order :| Linearization(p, order);
      PartThenKey(m, keyOf, history, k, order);
    }
    if KeyLinearizable(m, keyOf, history, k) {
      var order :| KeyOrder(m, keyOf, history, {}, m.init, k, order);
      KeyThenPart(m, keyOf, history, k, order);
    }
  }

  /** A history is linearizable exactly when each of its parts is. */
  lemma PartsDecide<S(!new), I, O>(
    m: Model<S, I, O>, keyOf: I -> string, history: seq<Operation<I, O>>,
    parts: seq<seq<Operation<I, O>>>, keys: seq<string>)
    requires WellTimed(history) && |parts| == |keys|
    requires forall k :: k in keys <==> k in KeysOf(keyOf, history)
    requires forall j :: 0 <= j < |parts| ==> parts[j] == Part(keyOf, history, keys[j])
    ensures forall j :: 0 <= j < |parts| ==> WellTimed(parts[j])
    ensures LinearizableHistory(Store(m, keyOf), history) <==>
      forall j :: 0 <= j < |parts| ==> LinearizableHistory(m, parts[j])
  {
    StoreIsLocal(m, keyOf, history);
    forall j | 0 <= j < |parts|
      ensures WellTimed(parts[j])
      ensures Linearizable(TimedProblem(m, parts[j])) <==> KeyLinearizable(m, keyOf, history, keys[j])
    {
      PartIsKey(m, keyOf, history, keys[j]);
    }
    forall k | k in KeysOf(keyOf, history) ensures exists j :: 0 <= j < |keys| && keys[j] == k {
      assert k in keys;
    }
    assert forall j :: 0 <= j < |keys| ==> keys[j] in keys;
  }
}
