/**
 The doubly linked list of a history's calls and returns.  The search takes
 an operation out of the list by unlinking its call and its return, and puts
 it back by undoing exactly that.
 */
module LinkedHistory {
  import opened Linearizability
  import opened Histories

  datatype Value<+I, +O> = Input(input: I) | Output(output: O) | Absent

  class Node<I, O> {
    const value: Value<I, O>
    const partner: Node?<I, O> // a call's return; null for a return
    const id: int
    var next: Node?<I, O>
    var prev: Node?<I, O>

    constructor (value: Value<I, O>, partner: Node?<I, O>, id: int)
      ensures this.value == value && this.partner == partner && this.id == id
      ensures next == null && prev == null
    {
      this.value, this.partner, this.id := value, partner, id;
      next, prev := null, null;
    }
  }

  // ---------------------------------------------------------------------
  // Chains
  // ---------------------------------------------------------------------

  ghost predicate Unique<I, O>(chain: seq<Node<I, O>>) {
    forall i, j :: 0 <= i < j < |chain| ==> chain[i] != chain[j]
  }

  ghost function At<I, O>(chain: seq<Node<I, O>>, k: int): Node?<I, O> {
    if 0 <= k < |chain| then chain[k] else null
  }

  /** The nodes are linked in this order, both ways, up to the first one's `prev`. */
  ghost predicate Linked<I, O>(chain: seq<Node<I, O>>)
    reads chain
  {
    && (forall k {:trigger chain[k].next} :: 0 <= k < |chain| ==> chain[k].next == At(chain, k + 1))
    && (forall k {:trigger chain[k].prev} :: 0 < k < |chain| ==> chain[k].prev == At(chain, k - 1))
  }

  ghost function Drop<I, O>(chain: seq<Node<I, O>>, k: nat): seq<Node<I, O>>
    requires k < |chain|
  {
    chain[..k] + chain[k + 1..]
  }

  /** A node that still points at its neighbours. */
  ghost predicate Aside<I, O>(chain: seq<Node<I, O>>, k: nat)
    requires 0 < k < |chain|
    reads chain[k]
  {
    chain[k].prev == chain[k - 1] && chain[k].next == At(chain, k + 1)
  }

  /** Takes a node out of the list; the node keeps its own pointers. */
  method Unlink<I, O>(x: Node<I, O>, ghost chain: seq<Node<I, O>>, ghost k: nat)
    requires Unique(chain) && Linked(chain) && 0 < k < |chain| && chain[k] == x
    modifies chain
    ensures Linked(Drop(chain, k)) && Aside(chain, k)
  {
    x.prev.next := x.next;
    if x.next != null {
      x.next.prev := x.prev;
    }
  }

  /** Puts a node back where its own pointers say. */
  method Relink<I, O>(x: Node<I, O>, ghost chain: seq<Node<I, O>>, ghost k: nat)
    requires 0 < k < |chain| && Unique(chain) && Linked(Drop(chain, k)) && chain[k] == x && Aside(chain, k)
    modifies x.prev, x.next
    ensures Linked(chain)
  {
    NeighboursOf(chain, k);
    x.prev.next := x;
    if x.next != null {
      x.next.prev := x;
    }
  }

  /** What the list without a node says of the nodes around its place. */
  lemma NeighboursOf<I, O>(chain: seq<Node<I, O>>, k: nat)
    requires 0 < k < |chain| && Linked(Drop(chain, k))
    ensures forall j {:trigger chain[j].next} :: 0 <= j < |chain| && j != k - 1 && j != k ==> chain[j].next == At(chain, j + 1)
    ensures forall j {:trigger chain[j].prev} :: 0 < j < |chain| && j != k && j != k + 1 ==> chain[j].prev == At(chain, j - 1)
  {
    var rest := Drop(chain, k);
    forall j | 0 <= j < |chain| && j != k - 1 && j != k ensures chain[j].next == At(chain, j + 1) {
      if j < k { assert rest[j].next == At(rest, j + 1); } else { assert rest[j - 1].next == At(rest, j); }
    }
    forall j | 0 < j < |chain| && j != k && j != k + 1 ensures chain[j].prev == At(chain, j - 1) {
      if j < k { assert rest[j].prev == At(rest, j - 1); } else { assert rest[j - 1].prev == At(rest, j - 2); }
    }
  }

  // ---------------------------------------------------------------------
  // Lifting a call and its return
  // ---------------------------------------------------------------------

  lemma WithoutIsDrops<I, O>(chain: seq<Node<I, O>>, c: nat, r: nat)
    requires c < r < |chain|
    ensures Without(chain, c, r) == Drop(Drop(chain, c), r - 1)
    ensures Drop(chain, c)[r - 1] == chain[r]
    ensures Unique(chain) ==> Unique(Drop(chain, c)) && Unique(Without(chain, c, r))
  {
  }

  /** The return's neighbours once the call is out. */
  lemma DropFacts<I, O>(chain: seq<Node<I, O>>, c: nat, r: nat)
    requires Unique(chain) && 0 < c < r < |chain|
    ensures var rest := Drop(chain, c);
      && |rest| == |chain| - 1
      && rest[r - 1] == chain[r]
      && rest[r - 2] == (if c == r - 1 then chain[c - 1] else chain[r - 1])
      && At(rest, r) == At(chain, r + 1)
      && chain[c] !in rest
      && (forall x :: x in rest ==> x in chain)
  {
  }

  /** The pointers of a call and its return. */
  datatype Pointers<I, O> = Pointers(
    callPrev: Node?<I, O>, callNext: Node?<I, O>, returnPrev: Node?<I, O>, returnNext: Node?<I, O>)

  ghost function PointersOf<I, O>(call: Node<I, O>, ret: Node<I, O>): Pointers<I, O>
    reads call, ret
  {
    Pointers(call.prev, call.next, ret.prev, ret.next)
  }

  /** The pointers a lifted call and return keep: the return's as they were once the call was out. */
  ghost function Kept<I, O>(chain: seq<Node<I, O>>, c: nat, r: nat): Pointers<I, O>
    requires 0 < c < r < |chain|
  {
    Pointers(chain[c - 1], chain[c + 1], if c == r - 1 then chain[c - 1] else chain[r - 1], At(chain, r + 1))
  }

  method Lift<I, O>(entry: Node<I, O>, ghost chain: seq<Node<I, O>>, ghost c: nat, ghost r: nat)
    requires Unique(chain) && Linked(chain) && 0 < c < r < |chain|
    requires chain[c] == entry && entry.partner == chain[r]
    modifies chain
    ensures Linked(Without(chain, c, r)) && PointersOf(chain[c], chain[r]) == Kept(chain, c, r)
  {
    WithoutIsDrops(chain, c, r);
    DropFacts(chain, c, r);
    Unlink(entry, chain, c);
    Unlink(entry.partner, Drop(chain, c), r - 1);
  }

  /** Undoes `Lift`: every pointer of the list is as it was. */
  method Unlift<I, O>(entry: Node<I, O>, ghost chain: seq<Node<I, O>>, ghost c: nat, ghost r: nat)
    requires 0 < c < r < |chain| && Unique(chain) && Linked(Without(chain, c, r))
    requires PointersOf(chain[c], chain[r]) == Kept(chain, c, r)
    requires chain[c] == entry && entry.partner == chain[r]
    modifies chain
    ensures Linked(chain)
  {
    WithoutIsDrops(chain, c, r);
    DropFacts(chain, c, r);
    Relink(entry.partner, Drop(chain, c), r - 1);
    Relink(entry, chain, c);
  }

  // ---------------------------------------------------------------------
  // Stacks of lifted calls
  // ---------------------------------------------------------------------

  /** The list before a call was lifted, and where the call and its return stood in it. */
  datatype Level<I, O> = Level(chain: seq<Node<I, O>>, c: nat, r: nat)

  ghost predicate LevelOK<I, O>(level: Level<I, O>, all: set<Node<I, O>>) {
    && 0 < level.c < level.r < |level.chain|
    && Unique(level.chain)
    && forall i :: 0 <= i < |level.chain| ==> level.chain[i] in all
  }

  /** The list after level `j`'s call was lifted. */
  ghost function Below<I, O>(levels: seq<Level<I, O>>, top: seq<Node<I, O>>, j: nat): seq<Node<I, O>>
    requires j < |levels|
  {
    if j + 1 < |levels| then levels[j + 1].chain else top
  }

  /** Each list is the one above without the lifted call and return. */
  ghost predicate Stacked<I, O>(levels: seq<Level<I, O>>, top: seq<Node<I, O>>, all: set<Node<I, O>>) {
    && Unique(top)
    && (forall i :: 0 <= i < |top| ==> top[i] in all)
    && (forall j :: 0 <= j < |levels| ==> LevelOK(levels[j], all))
    && (forall j :: 0 <= j < |levels| ==> Below(levels, top, j) == Without(levels[j].chain, levels[j].c, levels[j].r))
  }

  ghost predicate Pointed<I, O>(level: Level<I, O>, all: set<Node<I, O>>)
    requires LevelOK(level, all)
    reads all
  {
    PointersOf(level.chain[level.c], level.chain[level.r]) == Kept(level.chain, level.c, level.r)
  }

  /**
   The current list is linked, and every lifted call and return still points
   where it has to go back to.
   */
  ghost predicate HeapOK<I, O>(levels: seq<Level<I, O>>, top: seq<Node<I, O>>, all: set<Node<I, O>>)
    reads all
  {
    && Stacked(levels, top, all)
    && Linked(top)
    && forall j :: 0 <= j < |levels| ==> Pointed(levels[j], all)
  }

  lemma WithoutLoses<I, O>(chain: seq<Node<I, O>>, c: nat, r: nat)
    requires Unique(chain) && c < r < |chain|
    ensures chain[c] !in Without(chain, c, r) && chain[r] !in Without(chain, c, r)
    ensures forall x :: x in Without(chain, c, r) ==> x in chain
  {
    var rest := Without(chain, c, r);
    forall i | 0 <= i < |rest| ensures rest[i] != chain[c] && rest[i] != chain[r] && rest[i] in chain {
      WithoutAt(chain, c, r, i);
    }
  }

  /** What was lifted at any level is in no later list. */
  lemma {:induction false} LiftedStaysOut<I, O>(
    levels: seq<Level<I, O>>, top: seq<Node<I, O>>, all: set<Node<I, O>>, j: nat, x: Node<I, O>)
    requires Stacked(levels, top, all) && j < |levels| && x !in Below(levels, top, j)
    ensures x !in top
    decreases |levels| - j
  {
    if j + 1 < |levels| {
      WithoutLoses(levels[j + 1].chain, levels[j + 1].c, levels[j + 1].r);
      assert x !in Below(levels, top, j + 1);
      LiftedStaysOut(levels, top, all, j + 1, x);
    }
  }

  lemma LiftedOutside<I, O>(levels: seq<Level<I, O>>, top: seq<Node<I, O>>, all: set<Node<I, O>>)
    requires Stacked(levels, top, all)
    ensures forall j :: 0 <= j < |levels| ==>
      levels[j].chain[levels[j].c] !in top && levels[j].chain[levels[j].r] !in top
  {
    forall j | 0 <= j < |levels|
      ensures levels[j].chain[levels[j].c] !in top && levels[j].chain[levels[j].r] !in top
    {
      WithoutLoses(levels[j].chain, levels[j].c, levels[j].r);
      LiftedStaysOut(levels, top, all, j, levels[j].chain[levels[j].c]);
      LiftedStaysOut(levels, top, all, j, levels[j].chain[levels[j].r]);
    }
  }

  lemma StackedPush<I, O>(levels: seq<Level<I, O>>, top: seq<Node<I, O>>, all: set<Node<I, O>>, c: nat, r: nat)
    requires Stacked(levels, top, all) && 0 < c < r < |top|
    ensures Stacked(levels + [Level(top, c, r)], Without(top, c, r), all)
  {
    var levels', top' := levels + [Level(top, c, r)], Without(top, c, r);
    WithoutIsDrops(top, c, r);
    forall i | 0 <= i < |top'| ensures top'[i] in all { WithoutAt(top, c, r, i); }
    forall j | 0 <= j < |levels'|
      ensures Below(levels', top', j) == Without(levels'[j].chain, levels'[j].c, levels'[j].r)
    {
      if j < |levels| { assert Below(levels', top', j) == Below(levels, top, j); }
    }
  }

  lemma StackedPop<I, O>(levels: seq<Level<I, O>>, top: seq<Node<I, O>>, all: set<Node<I, O>>)
    requires Stacked(levels, top, all) && |levels| > 0
    ensures var last := |levels| - 1;
      && Stacked(levels[..last], levels[last].chain, all)
      && top == Without(levels[last].chain, levels[last].c, levels[last].r)
  {
    var last := |levels| - 1;
    var levels', top' := levels[..last], levels[last].chain;
    assert LevelOK(levels[last], all);
    assert Below(levels, top, last) == top;
    forall j | 0 <= j < last
      ensures Below(levels', top', j) == Without(levels'[j].chain, levels'[j].c, levels'[j].r)
    {
      assert Below(levels', top', j) == Below(levels, top, j);
    }
  }

  /** Lifts a call of the current list. */
  method LiftTop<I, O>(
    entry: Node<I, O>, ghost levels: seq<Level<I, O>>, ghost top: seq<Node<I, O>>, ghost all: set<Node<I, O>>,
    ghost c: nat, ghost r: nat)
    requires HeapOK(levels, top, all) && 0 < c < r < |top| && top[c] == entry && entry.partner == top[r]
    modifies all
    ensures HeapOK(levels + [Level(top, c, r)], Without(top, c, r), all)
  {
    LiftedOutside(levels, top, all);
    StackedPush(levels, top, all, c, r);
    Lift(entry, top, c, r);
  }

  /** Puts the last lifted call back: the list, and every pointer in it, is as it was before. */
  method UnliftTop<I, O>(
    entry: Node<I, O>, ghost levels: seq<Level<I, O>>, ghost top: seq<Node<I, O>>, ghost all: set<Node<I, O>>)
    requires HeapOK(levels, top, all) && |levels| > 0
    requires var last := levels[|levels| - 1]; last.chain[last.c] == entry && entry.partner == last.chain[last.r]
    modifies all
    ensures HeapOK(levels[..|levels| - 1], levels[|levels| - 1].chain, all)
  {
    ghost var last := levels[|levels| - 1];
    StackedPop(levels, top, all);
    LiftedOutside(levels[..|levels| - 1], last.chain, all);
    assert Pointed(last, all);
    Unlift(entry, last.chain, last.c, last.r);
  }

  // ---------------------------------------------------------------------
  // Building the list
  // ---------------------------------------------------------------------

  function ValueOf<I, O>(e: Entry<I, O>): Value<I, O> {
    if e.CallEntry? then Input(e.input) else Output(e.output)
  }

  /** The node for position `k`; `nodes` starts at position `from`. */
  ghost predicate Describes<I, O>(h: seq<Entry<I, O>>, nodes: seq<Node<I, O>>, from: nat, k: nat)
    requires Complete(h) && from <= k < |h| && |nodes| == |h| - from
  {
    var x := nodes[k - from];
    && x.id == h[k].id
    && x.value == ValueOf(h[k])
    && x.partner == if h[k].CallEntry? then nodes[ReturnOf(h, h[k].id) - from] else null
  }

  /** `nodes` are the nodes of the history from a position on. */
  ghost predicate Represents<I, O>(h: seq<Entry<I, O>>, nodes: seq<Node<I, O>>, from: nat)
    requires Complete(h) && from <= |h|
  {
    && |nodes| == |h| - from
    && Unique(nodes)
    && forall k {:trigger Describes(h, nodes, from, k)} :: from <= k < |h| ==> Describes(h, nodes, from, k)
  }

  ghost function Inserted<I, O>(chain: seq<Node<I, O>>, k: nat, n: Node<I, O>): seq<Node<I, O>>
    requires k <= |chain|
  {
    chain[..k] + [n] + chain[k..]
  }

  /** What the list says of the nodes around a place, with a new node there. */
  lemma NeighboursAt<I, O>(chain: seq<Node<I, O>>, k: nat, n: Node<I, O>)
    requires k <= |chain| && Linked(chain)
    ensures var chain' := Inserted(chain, k, n);
      && (forall j {:trigger chain'[j].next} :: 0 <= j < |chain'| && j != k - 1 && j != k ==> chain'[j].next == At(chain', j + 1))
      && (forall j {:trigger chain'[j].prev} :: 0 < j < |chain'| && j != k && j != k + 1 ==> chain'[j].prev == At(chain', j - 1))
  {
    var chain' := Inserted(chain, k, n);
    forall j | 0 <= j < |chain'| && j != k - 1 && j != k ensures chain'[j].next == At(chain', j + 1) {
      if j < k { assert chain[j].next == At(chain, j + 1); } else { assert chain[j - 1].next == At(chain, j); }
    }
    forall j | 0 < j < |chain'| && j != k && j != k + 1 ensures chain'[j].prev == At(chain', j - 1) {
      if j < k { assert chain[j].prev == At(chain, j - 1); } else { assert chain[j - 1].prev == At(chain, j - 2); }
    }
  }

  lemma InsertedUnique<I, O>(chain: seq<Node<I, O>>, k: nat, n: Node<I, O>)
    requires k <= |chain| && Unique(chain) && n !in chain
    ensures Unique(Inserted(chain, k, n))
  {
  }

  /** Places a node before another one of the list; with none to place it before, it stands alone. */
  method InsertBefore<I, O>(n: Node<I, O>, mark: Node?<I, O>, ghost chain: seq<Node<I, O>>, ghost k: nat)
    requires Unique(chain) && Linked(chain) && k <= |chain| && mark == At(chain, k) && n !in chain
    requires mark == null ==> chain == []
    requires n.next == null && n.prev == null && (k == 0 && mark != null ==> mark.prev == null)
    modifies n, mark, if mark != null then mark.prev else null
    ensures Linked(Inserted(chain, k, n)) && (k == 0 ==> n.prev == null)
    ensures Unique(Inserted(chain, k, n))
  {
    NeighboursAt(chain, k, n);
    InsertedUnique(chain, k, n);
    if mark != null {
      var beforeMark := mark.prev;
      mark.prev := n;
      n.next := mark;
      if beforeMark != null {
        n.prev := beforeMark;
        beforeMark.next := n;
      }
    }
  }

  lemma RepresentsMore<I, O>(h: seq<Entry<I, O>>, nodes: seq<Node<I, O>>, from: nat, x: Node<I, O>)
    requires Complete(h) && 0 < from <= |h| && Represents(h, nodes, from) && Unique([x] + nodes)
    requires x.id == h[from - 1].id && x.value == ValueOf(h[from - 1])
    requires x.partner == if h[from - 1].CallEntry? then nodes[ReturnOf(h, h[from - 1].id) - from] else null
    ensures Represents(h, [x] + nodes, from - 1)
  {
    var nodes', f := [x] + nodes, from - 1;
    forall k | f <= k < |h| ensures Describes(h, nodes', f, k) {
      if k >= from {
        assert Describes(h, nodes, from, k);
        assert nodes'[k - f] == nodes[k - from];
      }
    }
  }

  /** The nodes of the returns from a position on, by operation. */
  ghost predicate Found<I, O>(h: seq<Entry<I, O>>, nodes: seq<Node<I, O>>, from: nat, found: map<nat, Node<I, O>>)
    requires Complete(h) && from <= |h| && |nodes| == |h| - from
  {
    forall a: nat :: a < Operations(h) && from <= ReturnOf(h, a) ==> a in found && found[a] == nodes[ReturnOf(h, a) - from]
  }

  lemma FoundMore<I, O>(
    h: seq<Entry<I, O>>, nodes: seq<Node<I, O>>, from: nat, found: map<nat, Node<I, O>>, x: Node<I, O>, found': map<nat, Node<I, O>>)
    requires Complete(h) && 0 < from <= |h| && |nodes| == |h| - from && Found(h, nodes, from, found)
    requires found' == if h[from - 1].ReturnEntry? then found[h[from - 1].id := x] else found
    ensures Found(h, [x] + nodes, from - 1, found')
  {
    var nodes' := [x] + nodes;
    forall a: nat | a < Operations(h) && from - 1 <= ReturnOf(h, a)
      ensures a in found' && found'[a] == nodes'[ReturnOf(h, a) - (from - 1)]
    {
      if from <= ReturnOf(h, a) { assert nodes'[ReturnOf(h, a) - (from - 1)] == nodes[ReturnOf(h, a) - from]; }
    }
  }

  /** The node of the entry before position `i`. */
  method NewEntry<I, O>(h: seq<Entry<I, O>>, i: nat, found: map<nat, Node<I, O>>, ghost nodes: seq<Node<I, O>>)
    returns (entry: Node<I, O>, found': map<nat, Node<I, O>>)
    requires Complete(h) && 0 < i <= |h| && Represents(h, nodes, i) && Found(h, nodes, i, found)
    ensures fresh(entry) && entry !in nodes && entry.next == null && entry.prev == null
    ensures Represents(h, [entry] + nodes, i - 1) && Found(h, [entry] + nodes, i - 1, found')
  {
    var elem := h[i - 1];
    found' := found;
    if elem.ReturnEntry? {
      entry := new Node(Output(elem.output), null, elem.id);
      found' := found[elem.id := entry];
    } else {
      entry := new Node(Input(elem.input), found[elem.id], elem.id);
    }
    RepresentsMore(h, nodes, i, entry);
    FoundMore(h, nodes, i, found, entry, found');
  }

  /** Builds the list from the history, last entry first. */
  method MakeLinkedEntries<I, O>(h: seq<Entry<I, O>>) returns (root: Node?<I, O>, ghost nodes: seq<Node<I, O>>)
    requires Complete(h)
    ensures Represents(h, nodes, 0) && Linked(nodes) && root == At(nodes, 0)
    ensures (root != null ==> root.prev == null) && fresh(nodes)
  {
    root, nodes := null, [];
    var found: map<nat, Node<I, O>> := map[];
    var i := |h|;
    while i > 0
      invariant 0 <= i <= |h|
      invariant Represents(h, nodes, i) && Linked(nodes) && root == At(nodes, 0) && fresh(nodes)
      invariant root != null ==> root.prev == null
      invariant Found(h, nodes, i, found)
    {
      var entry;
      entry, found := NewEntry(h, i, found, nodes);
      InsertBefore(entry, root, nodes, 0);
      assert Inserted(nodes, 0, entry) == [entry] + nodes;
      root := entry;
      nodes := [entry] + nodes;
      i := i - 1;
    }
  }

  /** The number of nodes from a node to the end of its list. */
  method Length<I, O>(first: Node?<I, O>, ghost chain: seq<Node<I, O>>) returns (l: nat)
    requires Linked(chain) && first == At(chain, 0)
    ensures l == |chain|
  {
    l := 0;
    var n := first;
    while n != null
      invariant l <= |chain| && n == At(chain, l)
      decreases |chain| - l
    {
      n := n.next;
      l := l + 1;
    }
  }

  // ---------------------------------------------------------------------
  // The list during a search
  // ---------------------------------------------------------------------

  /** All nodes of a history, and a sentinel that is not among them. */
  ghost predicate Listed<I, O>(h: seq<Entry<I, O>>, head: Node<I, O>, nodes: seq<Node<I, O>>) {
    Complete(h) && Represents(h, nodes, 0) && head !in nodes
  }

  /** The list: the sentinel, then the nodes at the given positions. */
  ghost function ChainOf<I, O>(head: Node<I, O>, nodes: seq<Node<I, O>>, live: seq<nat>): (r: seq<Node<I, O>>)
    requires Ids(|nodes|, live)
    ensures |r| == |live| + 1 && r[0] == head
    ensures forall i :: 0 <= i < |live| ==> r[i + 1] == nodes[live[i]]
    ensures forall i :: 0 <= i < |r| ==> r[i] == head || r[i] in nodes
  {
    if live == [] then [head]
    else ChainOf(head, nodes, live[..|live| - 1]) + [nodes[live[|live| - 1]]]
  }

  lemma ChainWithout<I, O>(head: Node<I, O>, nodes: seq<Node<I, O>>, live: seq<nat>, c: nat, r: nat)
    requires c < r < |live| && Ids(|nodes|, live)
    ensures Ids(|nodes|, Without(live, c, r))
    ensures Without(ChainOf(head, nodes, live), c + 1, r + 1) == ChainOf(head, nodes, Without(live, c, r))
  {
    var chain, live' := ChainOf(head, nodes, live), Without(live, c, r);
    forall i | 0 <= i < |live'| ensures live'[i] < |nodes| {
      WithoutAt(live, c, r, i);
    }
    var chain' := ChainOf(head, nodes, live');
    forall i | 0 <= i < |chain'| ensures Without(chain, c + 1, r + 1)[i] == chain'[i] {
      WithoutAt(chain, c + 1, r + 1, i);
      if i > 0 {
        WithoutAt(live, c, r, i - 1);
        assert chain'[i] == nodes[live'[i - 1]];
        var b := Before(c, r, i - 1);
        assert chain[b + 1] == nodes[live[b]];
      }
    }
  }

  /** The level at which operation `a` was lifted when `live` was left of the history. */
  ghost predicate TracksLevel<I, O>(h: seq<Entry<I, O>>, live: seq<nat>, a: nat, level: Level<I, O>)
    requires Complete(h)
  {
    && a < Operations(h)
    && 0 < level.c < level.r <= |live|
    && live[level.c - 1] == CallOf(h, a)
    && live[level.r - 1] == ReturnOf(h, a)
  }

  /** The lists of the search's levels are what is left of the history at each of them. */
  ghost predicate Tracks<I, O>(
    h: seq<Entry<I, O>>, head: Node<I, O>, nodes: seq<Node<I, O>>, path: seq<nat>,
    levels: seq<Level<I, O>>, top: seq<Node<I, O>>)
    decreases |path|
  {
    && Listed(h, head, nodes)
    && |levels| == |path|
    && top == ChainOf(head, nodes, Live(h, Members(path)))
    && (path == [] ||
        var last := |path| - 1;
        && TracksLevel(h, Live(h, Members(path[..last])), path[last], levels[last])
        && Tracks(h, head, nodes, path[..last], levels[..last], levels[last].chain))
  }
}
