/**
 The linearizability checker: a backtracking search over a linked history,
 with a memo cache of configurations already entered.
 */
module Checker {
  import opened Options
  import opened Linearizability
  import opened Histories
  import opened SearchTree
  import opened SearchCost
  import opened LinkedHistory
  import opened SearchCursor
  import opened SearchSteps
  import Bits = Bitset

  // ---------------------------------------------------------------------
  // The cache
  // ---------------------------------------------------------------------

  datatype CacheEntry<S> = CacheEntry(linearized: seq<bv64>, state: S)

  type Cache<S> = map<nat, seq<CacheEntry<S>>>

  ghost predicate Holds<S>(cache: Cache<S>, key: nat, i: nat, e: CacheEntry<S>) {
    key in cache && i < |cache[key]| && cache[key][i] == e
  }

  /** Every entry is in the bucket of its hash, and all bitsets have one capacity. */
  ghost predicate Bucketed<S(!new)>(cache: Cache<S>, width: nat) {
    forall key: nat, i: nat, e :: Holds(cache, key, i, e) ==> Bits.HashKey(e.linearized) == key && |e.linearized| == width
  }

  /** The configurations in the cache. */
  ghost predicate InCache<S(!new)>(cache: Cache<S>, done: set<nat>, s: S) {
    exists key: nat, i: nat, e :: Holds(cache, key, i, e) && Bits.Elements(e.linearized) == done && e.state == s
  }

  ghost predicate Mirrors<S(!new)>(cache: Cache<S>, configs: set<(set<nat>, S)>) {
    forall d, s :: (d, s) in configs <==> InCache(cache, d, s)
  }

  ghost predicate CachedFor<S(!new)>(cache: Cache<S>, width: nat, configs: set<(set<nat>, S)>, key: int) {
    Bucketed(cache, width) && Mirrors(cache, configs)
  }

  /** The cache holds `configs`.  (Under a key, so that proofs that only pass it on need not unfold it.) */
  ghost predicate Cached<S(!new)>(cache: Cache<S>, width: nat, configs: set<(set<nat>, S)>) {
    forall key :: CachedFor(cache, width, configs, key)
  }

  /** Looking in one bucket finds whatever the whole cache holds. */
  method CacheContains<S(!new)>(
    equal: (S, S) -> bool, cache: Cache<S>, entry: CacheEntry<S>, ghost configs: set<(set<nat>, S)>)
    returns (r: bool, ghost s: S)
    requires Cached(cache, |entry.linearized|, configs)
    ensures r ==> (Bits.Elements(entry.linearized), s) in configs && equal(entry.state, s)
    ensures !r ==> forall t :: (Bits.Elements(entry.linearized), t) in configs ==> !equal(entry.state, t)
  {
    assert CachedFor(cache, |entry.linearized|, configs, 0);
    s := entry.state;
    var key := Bits.ComputeHash(entry.linearized);
    if key in cache {
      var bucket := cache[key];
      for i := 0 to |bucket|
        invariant forall k :: 0 <= k < i && bucket[k].linearized == entry.linearized ==> !equal(entry.state, bucket[k].state)
      {
        var same := Bits.Equals(entry.linearized, bucket[i].linearized);
        if same && equal(entry.state, bucket[i].state) {
          var e := bucket[i];
          assert Holds(cache, key, i, e) && Bits.Elements(e.linearized) == Bits.Elements(entry.linearized);
          assert InCache(cache, Bits.Elements(entry.linearized), e.state);
          return true, e.state;
        }
      }
    }
    forall t | (Bits.Elements(entry.linearized), t) in configs ensures !equal(entry.state, t) {
      assert InCache(cache, Bits.Elements(entry.linearized), t);
      var k: nat, i: nat, e :| Holds(cache, k, i, e) && Bits.Elements(e.linearized) == Bits.Elements(entry.linearized) && e.state == t;
      Bits.SameElements(e.linearized, entry.linearized);
    }
    return false, s;
  }

  method AddToCache<S(!new)>(cache: Cache<S>, entry: CacheEntry<S>, ghost configs: set<(set<nat>, S)>)
    returns (cache': Cache<S>)
    requires Cached(cache, |entry.linearized|, configs)
    ensures Cached(cache', |entry.linearized|, configs + {(Bits.Elements(entry.linearized), entry.state)})
  {
    assert CachedFor(cache, |entry.linearized|, configs, 0);
    var key := Bits.ComputeHash(entry.linearized);
    var bucket := if key in cache then cache[key] else [];
    cache' := cache[key := bucket + [entry]];
    AddedToBucket(cache, key, entry);
    forall d, s ensures (d, s) in configs + {(Bits.Elements(entry.linearized), entry.state)} <==> InCache(cache', d, s) {
      AddedToCache(cache, key, entry, d, s);
    }
  }

  ghost function Added<S>(cache: Cache<S>, key: nat, entry: CacheEntry<S>): Cache<S> {
    cache[key := (if key in cache then cache[key] else []) + [entry]]
  }

  lemma AddedHolds<S(!new)>(cache: Cache<S>, key: nat, entry: CacheEntry<S>, k: nat, i: nat, e: CacheEntry<S>)
    ensures Holds(Added(cache, key, entry), k, i, e) <==>
      Holds(cache, k, i, e) || (k == key && e == entry && i == BucketSize(cache, key))
  {
    var bucket := if key in cache then cache[key] else [];
    assert Added(cache, key, entry)[key] == bucket + [entry];
  }

  ghost function BucketSize<S>(cache: Cache<S>, key: nat): nat {
    if key in cache then |cache[key]| else 0
  }

  lemma AddedToBucket<S(!new)>(cache: Cache<S>, key: nat, entry: CacheEntry<S>)
    requires Bucketed(cache, |entry.linearized|) && key == Bits.HashKey(entry.linearized)
    ensures Bucketed(Added(cache, key, entry), |entry.linearized|)
  {
    forall k: nat, i: nat, e | Holds(Added(cache, key, entry), k, i, e)
      ensures Bits.HashKey(e.linearized) == k && |e.linearized| == |entry.linearized|
    {
      AddedHolds(cache, key, entry, k, i, e);
    }
  }

  lemma AddedToCache<S(!new)>(cache: Cache<S>, key: nat, entry: CacheEntry<S>, d: set<nat>, s: S)
    ensures InCache(Added(cache, key, entry), d, s) <==>
      InCache(cache, d, s) || (d == Bits.Elements(entry.linearized) && s == entry.state)
  {
    var cache' := Added(cache, key, entry);
    if InCache(cache', d, s) {
      var k: nat, i: nat, e :| Holds(cache', k, i, e) && Bits.Elements(e.linearized) == d && e.state == s;
      AddedHolds(cache, key, entry, k, i, e);
    }
    if InCache(cache, d, s) {
      var k: nat, i: nat, e :| Holds(cache, k, i, e) && Bits.Elements(e.linearized) == d && e.state == s;
      AddedHolds(cache, key, entry, k, i, e);
    }
    if d == Bits.Elements(entry.linearized) && s == entry.state {
      AddedHolds(cache, key, entry, key, BucketSize(cache, key), entry);
    }
  }

  // ---------------------------------------------------------------------
  // Longest partial linearizations
  // ---------------------------------------------------------------------

  /** The record after a dead end at the end of `path`. */
  ghost predicate Updated(longest: Longest, longest': Longest, path: seq<nat>, upTo: nat) {
    && |longest'| == |longest|
    && forall a: nat :: a < |longest| ==>
      if a in path[..Minimum(upTo, |path|)] && (longest[a].None? || |path| > |longest[a].value|)
      then longest'[a] == Some(path) else longest'[a] == longest[a]
  }

  ghost function Minimum(a: nat, b: nat): nat { if a < b then a else b }

  /** Notes the current path for every operation on it that has no longer one. */
  method RecordLongest(longest: Longest, path: seq<nat>) returns (longest': Longest)
    requires Ids(|longest|, path) && Distinct(path)
    ensures Updated(longest, longest', path, |path|)
  {
    longest' := longest;
    for k := 0 to |path|
      invariant Updated(longest, longest', path, k)
    {
      var a := path[k];
      assert path[..k + 1] == path[..k] + [a];
      if longest'[a].None? || |path| > |longest'[a].value| {
        longest' := longest'[a := Some(path)];
      }
    }
  }

  lemma UpdatedFacts<S(!new), I(!new), O(!new)>(
    m: Model<S, I, O>, h: seq<Entry<I, O>>, partial: bool, longest: Longest, longest': Longest,
    path: seq<nat>, states: seq<S>, configs: set<(set<nat>, S)>, i: nat)
    requires Underway(m, h, partial, longest, path, states, configs, i)
    requires Updated(longest, longest', path, |path|)
    ensures Complete(h) && Timed(ProblemOf(m, h))
    ensures LongestGrows(longest, longest') && LongestSound(ProblemOf(m, h), longest')
    ensures forall a: nat :: a in Members(path) ==> RecordedAt(longest', a, |path|)
  {
    assert UnderwayFor(m, h, partial, longest, path, states, configs, i, 0);
    PathIsPartial(ProblemOf(m, h), path, states);
    assert path[..Minimum(|path|, |path|)] == path;
  }

  // ---------------------------------------------------------------------
  // The list and the path
  // ---------------------------------------------------------------------

  ghost predicate CoupledFor<I, O>(
    h: seq<Entry<I, O>>, head: Node<I, O>, nodes: seq<Node<I, O>>, path: seq<nat>,
    levels: seq<Level<I, O>>, all: set<Node<I, O>>, key: int)
    reads all
  {
    && Listed(h, head, nodes)
    && HeapOK(levels, ChainOf(head, nodes, Left(h, path)), all)
    && Tracks(h, head, nodes, path, levels, ChainOf(head, nodes, Left(h, path)))
  }

  /** The list holds what the path leaves of the history, and can be put back step by step. */
  ghost predicate Coupled<I, O>(
    h: seq<Entry<I, O>>, head: Node<I, O>, nodes: seq<Node<I, O>>, path: seq<nat>,
    levels: seq<Level<I, O>>, all: set<Node<I, O>>)
    reads all
  {
    forall key :: CoupledFor(h, head, nodes, path, levels, all, key)
  }

  /** The node at the `i`th unfinished entry; none at the end. */
  ghost function NodeAt<I, O>(h: seq<Entry<I, O>>, nodes: seq<Node<I, O>>, path: seq<nat>, i: nat): Node?<I, O>
    requires |nodes| == |h|
  {
    if i < |Left(h, path)| then nodes[Left(h, path)[i]] else null
  }

  lemma CoupledNode<I, O>(
    h: seq<Entry<I, O>>, head: Node<I, O>, nodes: seq<Node<I, O>>, path: seq<nat>,
    levels: seq<Level<I, O>>, all: set<Node<I, O>>, i: nat)
    requires Coupled(h, head, nodes, path, levels, all)
    ensures Complete(h) && |nodes| == |h|
    ensures head.next == NodeAt(h, nodes, path, 0)
    ensures i < |Left(h, path)| ==>
      var k := Left(h, path)[i];
      && nodes[k].next == NodeAt(h, nodes, path, i + 1)
      && nodes[k].id == h[k].id
      && nodes[k].value == ValueOf(h[k])
      && (nodes[k].partner != null <==> h[k].CallEntry?)
      && (h[k].CallEntry? ==> nodes[k].partner == nodes[ReturnOf(h, h[k].id)])
      && (h[k].CallEntry? ==> nodes[ReturnOf(h, h[k].id)].value == ValueOf(h[ReturnOf(h, h[k].id)]))
  {
    assert CoupledFor(h, head, nodes, path, levels, all, 0);
    var top := ChainOf(head, nodes, Left(h, path));
    assert top[0].next == At(top, 1);
    if i < |Left(h, path)| {
      NodeUnderCursor(h, head, nodes, path, levels, top, i);
      assert top[i + 1].next == At(top, i + 2);
      if i + 1 < |Left(h, path)| { NodeUnderCursor(h, head, nodes, path, levels, top, i + 1); }
    }
    if 0 < |Left(h, path)| { NodeUnderCursor(h, head, nodes, path, levels, top, 0); }
  }

  /** Where an operation's call and return stand in the list, and what lifting them leaves. */
  lemma TakeOutPlan<I, O>(
    h: seq<Entry<I, O>>, head: Node<I, O>, nodes: seq<Node<I, O>>, path: seq<nat>,
    levels: seq<Level<I, O>>, top: seq<Node<I, O>>, a: nat)
    returns (c: nat, r: nat)
    requires Tracks(h, head, nodes, path, levels, top) && a < Operations(h) && a !in path
    ensures 0 < c < r < |top| && top[c] == nodes[CallOf(h, a)] && top[c].partner == top[r]
    ensures Tracks(h, head, nodes, path + [a], levels + [Level(top, c, r)], Without(top, c, r))
    ensures Without(top, c, r) == ChainOf(head, nodes, Left(h, path + [a]))
  {
    var i, j := InLeft(h, path, a);
    c, r := i + 1, j + 1;
    NodeUnderCursor(h, head, nodes, path, levels, top, i);
    NodeUnderCursor(h, head, nodes, path, levels, top, j);
    TracksPush(h, head, nodes, path, levels, top, a, i, j);
  }

  /** Takes the operation under the cursor out of the list. */
  method TakeOut<I, O>(
    entry: Node<I, O>, ghost h: seq<Entry<I, O>>, ghost head: Node<I, O>, ghost nodes: seq<Node<I, O>>,
    ghost path: seq<nat>, ghost levels: seq<Level<I, O>>, ghost all: set<Node<I, O>>, ghost a: nat)
    returns (ghost levels': seq<Level<I, O>>)
    requires Coupled(h, head, nodes, path, levels, all)
    requires Complete(h) && |nodes| == |h| && a < Operations(h) && a !in path && entry == nodes[CallOf(h, a)]
    modifies all
    ensures Coupled(h, head, nodes, path + [a], levels', all) && |levels'| == |levels| + 1
  {
    assert CoupledFor(h, head, nodes, path, levels, all, 0);
    ghost var top := ChainOf(head, nodes, Left(h, path));
    ghost var c, r := TakeOutPlan(h, head, nodes, path, levels, top, a);
    LiftTop(entry, levels, top, all, c, r);
    levels' := levels + [Level(top, c, r)];
    assert CoupledFor(h, head, nodes, path + [a], levels', all, 0);
  }

  /** Puts the last operation of the path back; `c` is its call's place in the list. */
  method PutBack<I, O>(
    entry: Node<I, O>, ghost h: seq<Entry<I, O>>, ghost head: Node<I, O>, ghost nodes: seq<Node<I, O>>,
    ghost path: seq<nat>, ghost levels: seq<Level<I, O>>, ghost all: set<Node<I, O>>)
    returns (ghost c: nat)
    requires Coupled(h, head, nodes, path, levels, all) && |path| > 0 && |levels| == |path|
    requires Complete(h) && |nodes| == |h| && Ids(Operations(h), path) && entry == nodes[CallOf(h, path[|path| - 1])]
    modifies all
    ensures Coupled(h, head, nodes, path[..|path| - 1], levels[..|path| - 1], all)
    ensures c < |Left(h, path[..|path| - 1])| && Left(h, path[..|path| - 1])[c] == CallOf(h, path[|path| - 1])
  {
    assert CoupledFor(h, head, nodes, path, levels, all, 0);
    ghost var last := |path| - 1;
    ghost var path', levels', level := path[..last], levels[..last], levels[last];
    ghost var top := ChainOf(head, nodes, Left(h, path));
    TracksPop(h, head, nodes, path, levels, top);
    c := level.c - 1;
    NodeUnderCursor(h, head, nodes, path', levels', level.chain, c);
    NodeUnderCursor(h, head, nodes, path', levels', level.chain, level.r - 1);
    UnliftTop(entry, levels, top, all);
    assert CoupledFor(h, head, nodes, path', levels', all, 0);
  }

  // ---------------------------------------------------------------------
  // The search
  // ---------------------------------------------------------------------

  /** An operation on the current path and the state it was chosen in. */
  datatype CallsEntry<S, I, O> = CallsEntry(entry: Node<I, O>, state: S)

  ghost predicate OnStack<S, I, O>(
    h: seq<Entry<I, O>>, nodes: seq<Node<I, O>>, calls: seq<CallsEntry<S, I, O>>, path: seq<nat>, states: seq<S>)
  {
    && |calls| == |path| < |states|
    && |nodes| == |h|
    && forall j :: 0 <= j < |calls| ==>
      CallOf(h, path[j]) < |h| && calls[j] == CallsEntry(nodes[CallOf(h, path[j])], states[j]) && calls[j].entry.id == path[j]
  }

  /** The operations on the stack. */
  method IdsOnStack<S, I, O>(
    calls: seq<CallsEntry<S, I, O>>, ghost h: seq<Entry<I, O>>, ghost nodes: seq<Node<I, O>>,
    ghost path: seq<nat>, ghost states: seq<S>)
    returns (ids: seq<nat>)
    requires OnStack(h, nodes, calls, path, states)
    ensures ids == path
  {
    ids := [];
    for i := 0 to |calls|
      invariant ids == path[..i]
    {
      assert calls[i].entry.id == path[i];
      ids := ids + [calls[i].entry.id];
    }
  }

  lemma OnStackPush<S, I, O>(
    h: seq<Entry<I, O>>, nodes: seq<Node<I, O>>, calls: seq<CallsEntry<S, I, O>>, path: seq<nat>, states: seq<S>,
    a: nat, s: S, entry: Node<I, O>)
    requires OnStack(h, nodes, calls, path, states) && |states| == |path| + 1
    requires CallOf(h, a) < |h| && entry == nodes[CallOf(h, a)] && entry.id == a
    ensures OnStack(h, nodes, calls + [CallsEntry(entry, states[|path|])], path + [a], states + [s])
  {
  }

  lemma OnStackPop<S, I, O>(
    h: seq<Entry<I, O>>, nodes: seq<Node<I, O>>, calls: seq<CallsEntry<S, I, O>>, path: seq<nat>, states: seq<S>)
    requires OnStack(h, nodes, calls, path, states) && |path| > 0 && |states| == |path| + 1
    ensures OnStack(h, nodes, calls[..|calls| - 1], path[..|path| - 1], states[..|path|])
    ensures calls[|calls| - 1] == CallsEntry(nodes[CallOf(h, path[|path| - 1])], states[|path| - 1])
  {
  }

  ghost predicate Verdict<S(!new), I(!new), O(!new)>(
    m: Model<S, I, O>, h: seq<Entry<I, O>>, partial: bool, ok: bool, longest: Longest)
    requires Complete(h) && Timed(ProblemOf(m, h))
  {
    var p := ProblemOf(m, h);
    && |longest| == Operations(h)
    && (ok <==> Linearizable(p))
    && (ok ==> forall a: nat :: a < |longest| ==> longest[a].Some? && Linearization(p, longest[a].value))
    && (!ok ==> LongestSound(p, longest))
    && (!ok && partial ==> forall order, a: nat :: PartialLinearization(p, order) && a in order ==>
      RecordedAt(longest, a, |order|))
  }

  lemma CoupledStart<I, O>(h: seq<Entry<I, O>>, head: Node<I, O>, nodes: seq<Node<I, O>>, all: set<Node<I, O>>)
    requires Listed(h, head, nodes) && Unique([head] + nodes) && all == (set x | x in [head] + nodes) && Linked([head] + nodes)
    ensures Coupled(h, head, nodes, [], [], all)
  {
    TracksStart(h, head, nodes);
    assert HeapOK([], [head] + nodes, all);
    assert CoupledFor(h, head, nodes, [], [], all, 0);
  }

  /** The list of a whole history, behind a sentinel. */
  method Prepare<I, O>(h: seq<Entry<I, O>>)
    returns (head: Node<I, O>, entry: Node?<I, O>, n: nat, ghost nodes: seq<Node<I, O>>, ghost all: set<Node<I, O>>)
    requires Complete(h)
    ensures Coupled(h, head, nodes, [], [], all) && fresh(all) && n == Operations(h)
    ensures |nodes| == |h| && entry == NodeAt(h, nodes, [], 0)
  {
    entry, nodes := MakeLinkedEntries(h);
    var len := Length(entry, nodes);
    n := len / 2;
    head := new Node(Absent, null, -1);
    InsertBefore(head, entry, nodes, 0);
    assert Inserted(nodes, 0, head) == [head] + nodes;
    assert ([head] + nodes)[0].next == At([head] + nodes, 1);
    all := set x | x in [head] + nodes;
    CoupledStart(h, head, nodes, all);
    CoupledNode(h, head, nodes, [], [], all, 0);
  }

  /** The search's variables. */
  datatype Vars<S, I, O> = Vars(
    entry: Node?<I, O>, state: S, cache: Cache<S>, calls: seq<CallsEntry<S, I, O>>, longest: Longest)

  /** What they stand for: the path, its states and lists, and the cursor. */
  datatype Shadow<S, I, O> = Shadow(
    path: seq<nat>, states: seq<S>, levels: seq<Level<I, O>>, i: nat)

  ghost predicate Inv<S(!new), I(!new), O(!new)>(
    m: Model<S, I, O>, h: seq<Entry<I, O>>, partial: bool,
    head: Node<I, O>, nodes: seq<Node<I, O>>, all: set<Node<I, O>>, bits: array<bv64>,
    v: Vars<S, I, O>, g: Shadow<S, I, O>, configs: set<(set<nat>, S)>)
    reads all, bits
  {
    && |nodes| == |h|
    && |g.levels| == |g.path|
    && Coupled(h, head, nodes, g.path, g.levels, all)
    && Underway(m, h, partial, v.longest, g.path, g.states, configs, g.i)
    && OnStack(h, nodes, v.calls, g.path, g.states)
    && |g.states| == |g.path| + 1
    && v.state == g.states[|g.path|]
    && Bits.Elements(bits[..]) == Members(g.path)
    && Operations(h) <= 64 * bits.Length
    && Cached(v.cache, bits.Length, configs)
    && v.entry == NodeAt(h, nodes, g.path, g.i)
  }

  ghost predicate Placed<S, I, O>(h: seq<Entry<I, O>>, g: Shadow<S, I, O>) {
    OnHistory(h, g.path) && Pos(h, Left(h, g.path), g.i) <= |h|
  }

  /** The steps left, at most. */
  ghost function Measure<S, I, O>(h: seq<Entry<I, O>>, g: Shadow<S, I, O>): nat {
    if Placed(h, g) then Cost(h, g.path, Pos(h, Left(h, g.path), g.i)) else 0
  }

  lemma InvPlaced<S(!new), I(!new), O(!new)>(
    m: Model<S, I, O>, h: seq<Entry<I, O>>, partial: bool, longest: Longest, g: Shadow<S, I, O>, configs: set<(set<nat>, S)>)
    requires Underway(m, h, partial, longest, g.path, g.states, configs, g.i)
    ensures Placed(h, g)
  {
    UnderwayFacts(m, h, partial, longest, g.path, g.states, configs, g.i);
  }

  /** Passes over the call under the cursor. */
  method Advance<S(!new), I(!new), O(!new)>(
    ghost m: Model<S, I, O>, ghost h: seq<Entry<I, O>>, ghost partial: bool,
    ghost head: Node<I, O>, ghost nodes: seq<Node<I, O>>, ghost all: set<Node<I, O>>, ghost bits: array<bv64>,
    v: Vars<S, I, O>, ghost g: Shadow<S, I, O>, ghost configs: set<(set<nat>, S)>)
    returns (v': Vars<S, I, O>, ghost g': Shadow<S, I, O>)
    requires Inv(m, h, partial, head, nodes, all, bits, v, g, configs) && v.entry != null
    requires g.i + 1 < |Left(h, g.path)|
    requires Underway(m, h, partial, v.longest, g.path, g.states, configs, g.i + 1)
    ensures Inv(m, h, partial, head, nodes, all, bits, v', g', configs) && Measure(h, g') < Measure(h, g)
  {
    CoupledNode(h, head, nodes, g.path, g.levels, all, g.i);
    v' := v.(entry := v.entry.next);
    g' := g.(i := g.i + 1);
    InvPlaced(m, h, partial, v.longest, g, configs);
    InvPlaced(m, h, partial, v.longest, g', configs);
    LeftOrder(h, g.path, g.i, g.i + 1);
    CostAdvance(h, g.path, Left(h, g.path)[g.i], Left(h, g.path)[g.i + 1]);
  }

  /** The path with the operation under the cursor chosen. */
  ghost function Chosen<S, I, O>(h: seq<Entry<I, O>>, g: Shadow<S, I, O>, levels: seq<Level<I, O>>, s: S): Shadow<S, I, O>
    requires AtCall(h, g.path, g.i)
  {
    Shadow(g.path + [Here(h, g.path, g.i)], g.states + [s], levels, 0)
  }

  lemma ChoosingDescends<S(!new), I(!new), O(!new)>(
    m: Model<S, I, O>, h: seq<Entry<I, O>>, partial: bool, longest: Longest, g: Shadow<S, I, O>,
    configs: set<(set<nat>, S)>, configs': set<(set<nat>, S)>, levels: seq<Level<I, O>>, s: S)
    requires Underway(m, h, partial, longest, g.path, g.states, configs, g.i) && AtCall(h, g.path, g.i)
    requires var g' := Chosen(h, g, levels, s); Underway(m, h, partial, longest, g'.path, g'.states, configs', g'.i)
    ensures Measure(h, Chosen(h, g, levels, s)) < Measure(h, g)
  {
    var g' := Chosen(h, g, levels, s);
    CallFacts(m, h, partial, longest, g.path, g.states, configs, g.i);
    InvPlaced(m, h, partial, longest, g, configs);
    InvPlaced(m, h, partial, longest, g', configs');
    CostPush(h, g.path, Left(h, g.path)[g.i], Here(h, g.path, g.i), Pos(h, Left(h, g'.path), 0));
  }

  /** Marks an operation and takes it out of the list. */
  method Mark<I, O>(
    entry: Node<I, O>, bits: array<bv64>, ghost h: seq<Entry<I, O>>, ghost head: Node<I, O>,
    ghost nodes: seq<Node<I, O>>, ghost path: seq<nat>, ghost levels: seq<Level<I, O>>, ghost all: set<Node<I, O>>, ghost a: nat)
    returns (ghost levels': seq<Level<I, O>>)
    requires Coupled(h, head, nodes, path, levels, all)
    requires Complete(h) && |nodes| == |h| && a < Operations(h) && a !in path && entry == nodes[CallOf(h, a)]
    requires entry.id == a < 64 * bits.Length
    modifies all, bits
    ensures Coupled(h, head, nodes, path + [a], levels', all) && |levels'| == |levels| + 1
    ensures head.next == NodeAt(h, nodes, path + [a], 0)
    ensures Bits.Elements(bits[..]) == old(Bits.Elements(bits[..])) + {a}
  {
    Bits.Set(bits, entry.id);
    levels' := TakeOut(entry, h, head, nodes, path, levels, all, a);
    CoupledNode(h, head, nodes, path + [a], levels', all, 0);
  }

  /** Chooses the operation under the cursor. */
  method Choose<S(!new), I(!new), O(!new)>(
    ghost m: Model<S, I, O>, ghost h: seq<Entry<I, O>>, ghost partial: bool,
    head: Node<I, O>, ghost nodes: seq<Node<I, O>>, ghost all: set<Node<I, O>>, bits: array<bv64>,
    v: Vars<S, I, O>, ghost g: Shadow<S, I, O>, ghost configs: set<(set<nat>, S)>,
    entry: Node<I, O>, newState: S, newEntry: CacheEntry<S>)
    returns (v': Vars<S, I, O>, ghost g': Shadow<S, I, O>, ghost configs': set<(set<nat>, S)>)
    requires Inv(m, h, partial, head, nodes, all, bits, v, g, configs) && v.entry == entry && AtCall(h, g.path, g.i)
    requires StepOf(m, h, v.state, Here(h, g.path, g.i)) == (true, newState)
    requires newEntry.state == newState && |newEntry.linearized| == bits.Length
    requires Bits.Elements(newEntry.linearized) == Members(g.path) + {Here(h, g.path, g.i)}
    modifies all, bits
    ensures Inv(m, h, partial, head, nodes, all, bits, v', g', configs') && Measure(h, g') < Measure(h, g)
  {
    ghost var a := Here(h, g.path, g.i);
    CallFacts(m, h, partial, v.longest, g.path, g.states, configs, g.i);
    CoupledNode(h, head, nodes, g.path, g.levels, all, g.i);
    var cache := AddToCache(v.cache, newEntry, configs);
    configs' := configs + {(Members(g.path) + {a}, newState)};
    ghost var levels := Mark(entry, bits, h, head, nodes, g.path, g.levels, all, a);
    g' := Chosen(h, g, levels, newState);
    v' := Vars(head.next, newState, cache, v.calls + [CallsEntry(entry, v.state)], v.longest);
    Take(m, h, partial, v.longest, g.path, g.states, configs, g.i, newState);
    OnStackPush(h, nodes, v.calls, g.path, g.states, a, newState, entry);
    ChoosingDescends(m, h, partial, v.longest, g, configs, configs', levels, newState);
  }

  /** A copy of the marks with one more. */
  method WithBit(bits: array<bv64>, pos: nat) returns (words: seq<bv64>)
    requires pos < 64 * bits.Length
    ensures |words| == bits.Length && Bits.Elements(words) == Bits.Elements(bits[..]) + {pos}
  {
    var copy := Bits.Clone(bits);
    Bits.Set(copy, pos);
    words := copy[..];
  }

  /** The node under the cursor carries the operation's input, and its partner the output. */
  lemma CallNode<S(!new), I(!new), O(!new)>(
    m: Model<S, I, O>, h: seq<Entry<I, O>>, partial: bool,
    head: Node<I, O>, nodes: seq<Node<I, O>>, all: set<Node<I, O>>, bits: array<bv64>,
    v: Vars<S, I, O>, g: Shadow<S, I, O>, configs: set<(set<nat>, S)>)
    requires Inv(m, h, partial, head, nodes, all, bits, v, g, configs) && v.entry != null && v.entry.partner != null
    ensures AtCall(h, g.path, g.i) && v.entry.id == Here(h, g.path, g.i) < Operations(h) && g.i + 1 < |Left(h, g.path)|
    ensures v.entry.value.Input? && v.entry.partner.value.Output?
    ensures m.step(v.state, v.entry.value.input, v.entry.partner.value.output) == StepOf(m, h, v.state, Here(h, g.path, g.i))
  {
    CoupledNode(h, head, nodes, g.path, g.levels, all, g.i);
    CallFacts(m, h, partial, v.longest, g.path, g.states, configs, g.i);
  }

  /** Looks up where the call under the cursor leads. */
  method Lookup<S(!new), I(!new), O(!new)>(
    m: Model<S, I, O>, bits: array<bv64>, cache: Cache<S>, id: nat, newState: S,
    ghost path: seq<nat>, ghost configs: set<(set<nat>, S)>)
    returns (seen: bool, newEntry: CacheEntry<S>, ghost t: S)
    requires Cached(cache, bits.Length, configs) && Bits.Elements(bits[..]) == Members(path) && id < 64 * bits.Length
    ensures newEntry.state == newState && |newEntry.linearized| == bits.Length
    ensures Bits.Elements(newEntry.linearized) == Members(path) + {id}
    ensures seen ==> (Members(path) + {id}, t) in configs && m.equal(newState, t)
  {
    var newBits := WithBit(bits, id);
    newEntry := CacheEntry(newBits, newState);
    seen, t := CacheContains(m.equal, cache, newEntry, configs);
  }

  /** A call that is refused, or leads where the search has been, can be passed over. */
  lemma MayPass<S(!new), I(!new), O(!new)>(
    m: Model<S, I, O>, h: seq<Entry<I, O>>, partial: bool,
    head: Node<I, O>, nodes: seq<Node<I, O>>, all: set<Node<I, O>>, bits: array<bv64>,
    v: Vars<S, I, O>, g: Shadow<S, I, O>, configs: set<(set<nat>, S)>, t: S)
    requires Respected(m) && Inv(m, h, partial, head, nodes, all, bits, v, g, configs) && AtCall(h, g.path, g.i)
    requires var a := Here(h, g.path, g.i);
      !StepOf(m, h, v.state, a).0 || ((Members(g.path) + {a}, t) in configs && m.equal(StepOf(m, h, v.state, a).1, t))
    ensures Underway(m, h, partial, v.longest, g.path, g.states, configs, g.i + 1)
  {
    if StepOf(m, h, v.state, Here(h, g.path, g.i)).0 {
      SkipCached(m, h, partial, v.longest, g.path, g.states, configs, g.i, t);
    } else {
      SkipRefused(m, h, partial, v.longest, g.path, g.states, configs, g.i);
    }
  }

  /** Tries the call under the cursor. */
  method TryCall<S(!new), I(!new), O(!new)>(
    m: Model<S, I, O>, ghost h: seq<Entry<I, O>>, ghost partial: bool,
    head: Node<I, O>, ghost nodes: seq<Node<I, O>>, ghost all: set<Node<I, O>>, bits: array<bv64>,
    v: Vars<S, I, O>, ghost g: Shadow<S, I, O>, ghost configs: set<(set<nat>, S)>)
    returns (v': Vars<S, I, O>, ghost g': Shadow<S, I, O>, ghost configs': set<(set<nat>, S)>)
    requires Respected(m) && Inv(m, h, partial, head, nodes, all, bits, v, g, configs)
    requires v.entry != null && v.entry.partner != null
    modifies all, bits
    ensures Inv(m, h, partial, head, nodes, all, bits, v', g', configs') && Measure(h, g') < Measure(h, g)
  {
    CallNode(m, h, partial, head, nodes, all, bits, v, g, configs);
    var entry := v.entry;
    var step := m.step(v.state, entry.value.input, entry.partner.value.output);
    configs' := configs;
    ghost var t := step.1;
    if step.0 {
      var seen, newEntry;
      seen, newEntry, t := Lookup(m, bits, v.cache, entry.id, step.1, g.path, configs);
      if !seen {
        v', g', configs' := Choose(m, h, partial, head, nodes, all, bits, v, g, configs, entry, step.1, newEntry);
        return;
      }
    }
    MayPass(m, h, partial, head, nodes, all, bits, v, g, configs, t);
    v', g' := Advance(m, h, partial, head, nodes, all, bits, v, g, configs);
  }

  /** Clears an operation's mark and puts it back into the list. */
  method Unmark<I, O>(
    entry: Node<I, O>, bits: array<bv64>, ghost h: seq<Entry<I, O>>, ghost head: Node<I, O>,
    ghost nodes: seq<Node<I, O>>, ghost path: seq<nat>, ghost levels: seq<Level<I, O>>, ghost all: set<Node<I, O>>)
    returns (ghost c: nat)
    requires Coupled(h, head, nodes, path, levels, all) && |path| > 0 && |levels| == |path|
    requires Complete(h) && |nodes| == |h| && Ids(Operations(h), path) && entry == nodes[CallOf(h, path[|path| - 1])]
    requires entry.id == path[|path| - 1] < 64 * bits.Length
    modifies all, bits
    ensures Coupled(h, head, nodes, path[..|path| - 1], levels[..|path| - 1], all)
    ensures c < |Left(h, path[..|path| - 1])| && Left(h, path[..|path| - 1])[c] == CallOf(h, path[|path| - 1])
    ensures entry.next == NodeAt(h, nodes, path[..|path| - 1], c + 1)
    ensures Bits.Elements(bits[..]) == old(Bits.Elements(bits[..])) - {path[|path| - 1]}
  {
    Bits.Clear(bits, entry.id);
    c := PutBack(entry, h, head, nodes, path, levels, all);
    CoupledNode(h, head, nodes, path[..|path| - 1], levels[..|path| - 1], all, c);
  }

  lemma MembersPop(path: seq<nat>)
    requires |path| > 0 && Distinct(path)
    ensures Members(path[..|path| - 1]) == Members(path) - {path[|path| - 1]}
  {
  }

  lemma BackingDescends<S(!new), I(!new), O(!new)>(
    m: Model<S, I, O>, h: seq<Entry<I, O>>, partial: bool, longest: Longest, longest': Longest,
    g: Shadow<S, I, O>, g': Shadow<S, I, O>, configs: set<(set<nat>, S)>)
    requires Underway(m, h, partial, longest, g.path, g.states, configs, g.i) && |g.path| > 0
    requires Underway(m, h, partial, longest', g'.path, g'.states, configs, g'.i) && g'.path == g.path[..|g.path| - 1]
    requires 0 < g'.i <= |Left(h, g'.path)| && Left(h, g'.path)[g'.i - 1] == CallOf(h, g.path[|g.path| - 1])
    ensures Measure(h, g') < Measure(h, g)
  {
    InvPlaced(m, h, partial, longest, g, configs);
    InvPlaced(m, h, partial, longest', g', configs);
    UnderwayFacts(m, h, partial, longest', g'.path, g'.states, configs, g'.i);
    LeftOrder(h, g'.path, g'.i - 1, g'.i);
    CostPop(h, g.path, Pos(h, Left(h, g.path), g.i), Pos(h, Left(h, g'.path), g'.i));
  }

  /** Notes the current path, if asked to. */
  method Note<S(!new), I(!new), O(!new)>(
    ghost m: Model<S, I, O>, ghost h: seq<Entry<I, O>>, ghost nodes: seq<Node<I, O>>, partial: bool,
    v: Vars<S, I, O>, ghost g: Shadow<S, I, O>, ghost configs: set<(set<nat>, S)>)
    returns (longest: Longest)
    requires Underway(m, h, partial, v.longest, g.path, g.states, configs, g.i) && OnStack(h, nodes, v.calls, g.path, g.states)
    ensures Complete(h) && Timed(ProblemOf(m, h))
    ensures LongestGrows(v.longest, longest) && LongestSound(ProblemOf(m, h), longest)
    ensures partial ==> forall a: nat :: a in Members(g.path) ==> RecordedAt(longest, a, |g.path|)
  {
    UnderwayFacts(m, h, partial, v.longest, g.path, g.states, configs, g.i);
    longest := v.longest;
    if partial {
      var ids := IdsOnStack(v.calls, h, nodes, g.path, g.states);
      longest := RecordLongest(longest, ids);
      UpdatedFacts(m, h, partial, v.longest, longest, g.path, g.states, configs, g.i);
    } else {
      UnderwaySound(m, h, partial, v.longest, g.path, g.states, configs, g.i);
    }
  }

  lemma UnderwaySound<S(!new), I(!new), O(!new)>(
    m: Model<S, I, O>, h: seq<Entry<I, O>>, partial: bool, longest: Longest,
    path: seq<nat>, states: seq<S>, configs: set<(set<nat>, S)>, i: nat)
    requires Underway(m, h, partial, longest, path, states, configs, i)
    ensures Complete(h) && Timed(ProblemOf(m, h)) && LongestGrows(longest, longest) && LongestSound(ProblemOf(m, h), longest)
  {
    assert UnderwayFor(m, h, partial, longest, path, states, configs, i, 0);
  }

  /** Takes the last operation back at a return. */
  method Backtrack<S(!new), I(!new), O(!new)>(
    ghost m: Model<S, I, O>, ghost h: seq<Entry<I, O>>, partial: bool,
    ghost head: Node<I, O>, ghost nodes: seq<Node<I, O>>, ghost all: set<Node<I, O>>, bits: array<bv64>,
    v: Vars<S, I, O>, ghost g: Shadow<S, I, O>, ghost configs: set<(set<nat>, S)>)
    returns (v': Vars<S, I, O>, ghost g': Shadow<S, I, O>)
    requires Inv(m, h, partial, head, nodes, all, bits, v, g, configs)
    requires v.entry != null && v.entry.partner == null && |v.calls| > 0
    modifies all, bits
    ensures Inv(m, h, partial, head, nodes, all, bits, v', g', configs) && Measure(h, g') < Measure(h, g)
  {
    CoupledNode(h, head, nodes, g.path, g.levels, all, g.i);
    UnderwayFacts(m, h, partial, v.longest, g.path, g.states, configs, g.i);
    OnStackPop(h, nodes, v.calls, g.path, g.states);
    MembersPop(g.path);
    var longest := Note(m, h, nodes, partial, v, g, configs);
    var top := v.calls[|v.calls| - 1];
    ghost var c := Unmark(top.entry, bits, h, head, nodes, g.path, g.levels, all);
    v' := Vars(top.entry.next, top.state, v.cache, v.calls[..|v.calls| - 1], longest);
    g' := Shadow(g.path[..|g.path| - 1], g.states[..|g.path|], g.levels[..|g.path| - 1], c + 1);
    TakeBack(m, h, partial, v.longest, longest, g.path, g.states, configs, g.i, c);
    BackingDescends(m, h, partial, v.longest, longest, g, g', configs);
  }

  /**
   Decides linearizability.  `kill` is what the search reads, at each step, of
   the flag that stops it; a search that is stopped has decided nothing.
   */
  method CheckSingle<S(!new), I(!new), O(!new)>(m: Model<S, I, O>, h: seq<Entry<I, O>>, computePartial: bool, kill: nat -> bool)
    returns (ok: bool, longest: Longest, ghost killed: bool)
    requires Complete(h) && Respected(m)
    ensures Timed(ProblemOf(m, h))
    ensures ok ==> Linearizable(ProblemOf(m, h))
    ensures (forall t: nat :: !kill(t)) ==> Verdict(m, h, computePartial, ok, longest)
    ensures !killed ==> Verdict(m, h, computePartial, ok, longest)
    ensures killed ==> !ok && LongestSound(ProblemOf(m, h), longest) && exists t: nat :: kill(t)
  {
    var head, entry, n; ghost var nodes, all;
    head, entry, n, nodes, all := Prepare(h);
    var bits := Bits.NewBitset(n);
    longest := seq(n, _ => None);
    var v := Vars(entry, m.init, map[], [], longest);
    ghost var g, configs := Shadow([], [m.init], [], 0), {};
    Begin(m, h, computePartial, longest);
    EmptyCache<S>(bits.Length);
    killed := false;
    var steps := 0;
    while head.next != null
      invariant fresh(all) && fresh(bits)
      invariant Inv(m, h, computePartial, head, nodes, all, bits, v, g, configs)
      decreases Measure(h, g)
    {
      CursorInList(m, h, computePartial, head, nodes, all, bits, v, g, configs);
      if kill(steps) {
        UnderwaySound(m, h, computePartial, v.longest, g.path, g.states, configs, g.i);
        return false, v.longest, true;
      }
      if v.entry.partner != null {
        v, g, configs := TryCall(m, h, computePartial, head, nodes, all, bits, v, g, configs);
      } else if |v.calls| == 0 {
        GivesUp(m, h, computePartial, head, nodes, all, bits, v, g, configs);
        return false, v.longest, false;
      } else {
        v, g := Backtrack(m, h, computePartial, head, nodes, all, bits, v, g, configs);
      }
      steps := steps + 1;
    }
    Finishes(m, h, computePartial, head, nodes, all, bits, v, g, configs);
    var ids := IdsOnStack(v.calls, h, nodes, g.path, g.states);
    longest := seq(n, _ => Some(ids));
    ok := true;
  }

  lemma EmptyCache<S(!new)>(width: nat)
    ensures Cached<S>(map[], width, {})
  {
  }

  lemma CursorInList<S(!new), I(!new), O(!new)>(
    m: Model<S, I, O>, h: seq<Entry<I, O>>, partial: bool,
    head: Node<I, O>, nodes: seq<Node<I, O>>, all: set<Node<I, O>>, bits: array<bv64>,
    v: Vars<S, I, O>, g: Shadow<S, I, O>, configs: set<(set<nat>, S)>)
    requires Inv(m, h, partial, head, nodes, all, bits, v, g, configs) && head.next != null
    ensures v.entry != null
  {
    CoupledNode(h, head, nodes, g.path, g.levels, all, g.i);
    UnderwayFacts(m, h, partial, v.longest, g.path, g.states, configs, g.i);
  }

  lemma GivesUp<S(!new), I(!new), O(!new)>(
    m: Model<S, I, O>, h: seq<Entry<I, O>>, partial: bool,
    head: Node<I, O>, nodes: seq<Node<I, O>>, all: set<Node<I, O>>, bits: array<bv64>,
    v: Vars<S, I, O>, g: Shadow<S, I, O>, configs: set<(set<nat>, S)>)
    requires Inv(m, h, partial, head, nodes, all, bits, v, g, configs)
    requires v.entry != null && v.entry.partner == null && |v.calls| == 0
    ensures Complete(h) && Timed(ProblemOf(m, h)) && Verdict(m, h, partial, false, v.longest)
  {
    CoupledNode(h, head, nodes, g.path, g.levels, all, g.i);
    UnderwayFacts(m, h, partial, v.longest, g.path, g.states, configs, g.i);
    Failure(m, h, partial, v.longest, g.states, configs, g.i);
  }

  lemma Finishes<S(!new), I(!new), O(!new)>(
    m: Model<S, I, O>, h: seq<Entry<I, O>>, partial: bool,
    head: Node<I, O>, nodes: seq<Node<I, O>>, all: set<Node<I, O>>, bits: array<bv64>,
    v: Vars<S, I, O>, g: Shadow<S, I, O>, configs: set<(set<nat>, S)>)
    requires Inv(m, h, partial, head, nodes, all, bits, v, g, configs) && head.next == null
    ensures Complete(h) && Timed(ProblemOf(m, h))
    ensures Verdict(m, h, partial, true, seq(Operations(h), _ => Some(g.path)))
  {
    CoupledNode(h, head, nodes, g.path, g.levels, all, g.i);
    UnderwayFacts(m, h, partial, v.longest, g.path, g.states, configs, g.i);
    Success(m, h, partial, v.longest, g.path, g.states, configs, g.i);
  }
}
