/**
 The search's cursor walks the list of unfinished entries.  While it has met
 only calls, each of them may come next; the first return means that every
 operation that may come next has been met.
 */
module SearchCursor {
  import opened Collections
  import opened Linearizability
  import opened Histories
  import opened SearchTree
  import opened LinkedHistory

  /** The entries of unfinished operations. */
  ghost function Left<I, O>(h: seq<Entry<I, O>>, path: seq<nat>): seq<nat> {
    Live(h, Members(path))
  }

  /** The position under the cursor, or the end. */
  ghost function Pos<I, O>(h: seq<Entry<I, O>>, live: seq<nat>, i: nat): nat {
    if i < |live| then live[i] else |h|
  }

  /** The cursor has passed only calls. */
  ghost predicate Scanned<I, O>(h: seq<Entry<I, O>>, live: seq<nat>, i: nat) {
    forall k :: 0 <= k < i && k < |live| ==> live[k] < |h| && h[live[k]].CallEntry?
  }

  lemma InLeft<I, O>(h: seq<Entry<I, O>>, path: seq<nat>, b: nat) returns (c: nat, r: nat)
    requires Complete(h) && b < Operations(h) && b !in path
    ensures c < r < |Left(h, path)| && Left(h, path)[c] == CallOf(h, b) && Left(h, path)[r] == ReturnOf(h, b)
  {
    c, r := LivePlaces(h, Members(path), b);
  }

  lemma LeftOrder<I, O>(h: seq<Entry<I, O>>, path: seq<nat>, i: nat, j: nat)
    requires i < |Left(h, path)| && j < |Left(h, path)|
    ensures Left(h, path)[i] < Left(h, path)[j] <==> i < j
    ensures Left(h, path)[i] == Left(h, path)[j] <==> i == j
  {
    LiveOrder(h, Members(path), i, j);
  }

  lemma LeftAt<I, O>(h: seq<Entry<I, O>>, path: seq<nat>, i: nat)
    requires i < |Left(h, path)|
    ensures Left(h, path)[i] < |h| && h[Left(h, path)[i]].id !in path
  {
    LiveAt(h, Members(path), i);
  }

  lemma CallUnderCursor<S(!new), I(!new), O(!new)>(m: Model<S, I, O>, h: seq<Entry<I, O>>, path: seq<nat>, i: nat)
    requires Complete(h) && i < |Left(h, path)| && Scanned(h, Left(h, path), i) && h[Left(h, path)[i]].CallEntry?
    ensures var p, a := ProblemOf(m, h), h[Left(h, path)[i]].id;
      && a !in path
      && a < Operations(h)
      && CallOf(h, a) == Left(h, path)[i]
      && Timed(p)
      && Minimal(p, Members(path), a)
  {
    var live := Left(h, path);
    var p, a := ProblemOf(m, h), h[live[i]].id;
    LeftAt(h, path, i);
    forall b: nat | b < p.n && b !in Members(path) ensures p.calls[a] <= p.rets[b] {
      var c, r := InLeft(h, path, b);
      assert h[live[r]].ReturnEntry?;
      LeftOrder(h, path, i, r);
    }
  }

  lemma ReturnUnderCursor<S(!new), I(!new), O(!new)>(m: Model<S, I, O>, h: seq<Entry<I, O>>, path: seq<nat>, i: nat)
    requires Complete(h) && i < |Left(h, path)| && h[Left(h, path)[i]].ReturnEntry?
    requires Ids(Operations(h), path) && Distinct(path)
    ensures Timed(ProblemOf(m, h)) && NoChoiceFrom(ProblemOf(m, h), Members(path), Left(h, path)[i])
    ensures |path| < Operations(h)
  {
    var p, t := ProblemOf(m, h), Left(h, path)[i];
    var b := h[t].id;
    LeftAt(h, path, i);
    forall a: nat | Minimal(p, Members(path), a) ensures p.calls[a] < t {
      assert p.calls[a] <= p.rets[b];
      assert h[p.calls[a]].CallEntry?;
    }
    MembersSize(path);
    Smaller(Members(path), Collections.Below(Operations(h)), b);
  }

  /** Between two neighbouring entries no other operation is called. */
  lemma NothingBetween<S(!new), I(!new), O(!new)>(m: Model<S, I, O>, h: seq<Entry<I, O>>, path: seq<nat>, i: nat, b: nat)
    requires Complete(h) && i < |Left(h, path)| && b < Operations(h) && b !in path
    requires var p := ProblemOf(m, h); Left(h, path)[i] <= p.calls[b] < Pos(h, Left(h, path), i + 1)
    ensures CallOf(h, b) == Left(h, path)[i] && h[Left(h, path)[i]].id == b
  {
    var live := Left(h, path);
    var c, r := InLeft(h, path, b);
    LeftOrder(h, path, i, c);
    if i + 1 < |live| { LeftOrder(h, path, c, i + 1); }
  }

  /** The list starts at or before every unfinished call. */
  lemma StartsBefore<S(!new), I(!new), O(!new)>(m: Model<S, I, O>, h: seq<Entry<I, O>>, path: seq<nat>, b: nat)
    requires Complete(h) && b < Operations(h) && b !in path
    ensures Pos(h, Left(h, path), 0) <= ProblemOf(m, h).calls[b]
  {
    var c, r := InLeft(h, path, b);
    LeftOrder(h, path, 0, c);
  }

  /** A call is never the last unfinished entry. */
  lemma ReturnFollows<I, O>(h: seq<Entry<I, O>>, path: seq<nat>, i: nat)
    requires Complete(h) && i < |Left(h, path)| && h[Left(h, path)[i]].CallEntry?
    ensures i + 1 < |Left(h, path)|
  {
    var live := Left(h, path);
    LeftAt(h, path, i);
    var c, r := InLeft(h, path, h[live[i]].id);
    LeftOrder(h, path, i, c);
  }

  lemma AllFinished<I, O>(h: seq<Entry<I, O>>, path: seq<nat>)
    requires Complete(h) && Left(h, path) == [] && Ids(Operations(h), path) && Distinct(path)
    ensures |path| == Operations(h)
  {
    var all := Collections.Below(Operations(h));
    forall b: nat | b < Operations(h) ensures b in Members(path) {
      if b !in path { var c, r := InLeft(h, path, b); }
    }
    assert Members(path) == all;
    MembersSize(path);
  }

  // ---------------------------------------------------------------------
  // The lists of the levels
  // ---------------------------------------------------------------------

  lemma TracksStart<I, O>(h: seq<Entry<I, O>>, head: Node<I, O>, nodes: seq<Node<I, O>>)
    requires Listed(h, head, nodes)
    ensures Tracks(h, head, nodes, [], [], [head] + nodes)
  {
    assert Members([]) == {};
    EverythingLeft(h);
    ChainOfAll(head, nodes, Live(h, {}));
  }

  lemma ChainOfAll<I, O>(head: Node<I, O>, nodes: seq<Node<I, O>>, live: seq<nat>)
    requires |live| == |nodes| && forall i :: 0 <= i < |live| ==> live[i] == i
    ensures ChainOf(head, nodes, live) == [head] + nodes
  {
    var chain := ChainOf(head, nodes, live);
    forall i | 0 <= i < |chain| ensures chain[i] == ([head] + nodes)[i] {
      if i > 0 { assert chain[i - 1 + 1] == nodes[live[i - 1]]; }
    }
  }

  lemma EverythingLeft<I, O>(h: seq<Entry<I, O>>)
    ensures |Live(h, {})| == |h| && forall i :: 0 <= i < |h| ==> Live(h, {})[i] == i
  {
    var all: seq<nat> := seq(|h|, i => i);
    LiveFacts(h, {});
    forall x: nat ensures x in all <==> x < |h| {
      if x < |h| { assert all[x] == x; }
    }
    SameMembers(Live(h, {}), all);
  }

  lemma TracksTop<I, O>(
    h: seq<Entry<I, O>>, head: Node<I, O>, nodes: seq<Node<I, O>>, path: seq<nat>, a: nat, c: nat, r: nat)
    requires Listed(h, head, nodes) && a < Operations(h) && a !in path
    requires c < r < |Left(h, path)| && Left(h, path)[c] == CallOf(h, a) && Left(h, path)[r] == ReturnOf(h, a)
    ensures Without(ChainOf(head, nodes, Left(h, path)), c + 1, r + 1) == ChainOf(head, nodes, Left(h, path + [a]))
  {
    assert Members(path + [a]) == Members(path) + {a};
    LiveWithout(h, Members(path), a, c, r);
    ChainWithout(head, nodes, Left(h, path), c, r);
  }

  lemma TracksPush<I, O>(
    h: seq<Entry<I, O>>, head: Node<I, O>, nodes: seq<Node<I, O>>, path: seq<nat>,
    levels: seq<Level<I, O>>, top: seq<Node<I, O>>, a: nat, c: nat, r: nat)
    requires Tracks(h, head, nodes, path, levels, top) && a < Operations(h) && a !in path
    requires c < r < |Left(h, path)| && Left(h, path)[c] == CallOf(h, a) && Left(h, path)[r] == ReturnOf(h, a)
    ensures |top| == |Left(h, path)| + 1
    ensures Tracks(h, head, nodes, path + [a], levels + [Level(top, c + 1, r + 1)], Without(top, c + 1, r + 1))
  {
    TracksTop(h, head, nodes, path, a, c, r);
    TracksMore(h, head, nodes, path, levels, top, a, Level(top, c + 1, r + 1), Without(top, c + 1, r + 1));
  }

  lemma TracksMore<I, O>(
    h: seq<Entry<I, O>>, head: Node<I, O>, nodes: seq<Node<I, O>>, path: seq<nat>,
    levels: seq<Level<I, O>>, top: seq<Node<I, O>>, a: nat, level: Level<I, O>, top': seq<Node<I, O>>)
    requires Listed(h, head, nodes) && Tracks(h, head, nodes, path, levels, top) && level.chain == top
    requires TracksLevel(h, Left(h, path), a, level) && top' == ChainOf(head, nodes, Left(h, path + [a]))
    ensures Tracks(h, head, nodes, path + [a], levels + [level], top')
  {
    var path', levels' := path + [a], levels + [level];
    assert path'[..|path'| - 1] == path && levels'[..|path'| - 1] == levels;
    assert path'[|path'| - 1] == a && levels'[|path'| - 1] == level;
    assert |levels| == |path|;
  }

  lemma TracksPop<I, O>(
    h: seq<Entry<I, O>>, head: Node<I, O>, nodes: seq<Node<I, O>>, path: seq<nat>,
    levels: seq<Level<I, O>>, top: seq<Node<I, O>>)
    requires Tracks(h, head, nodes, path, levels, top) && |path| > 0
    ensures var last := |path| - 1;
      && Tracks(h, head, nodes, path[..last], levels[..last], levels[last].chain)
      && TracksLevel(h, Left(h, path[..last]), path[last], levels[last])
  {
  }

  /** The node under the cursor. */
  lemma NodeUnderCursor<I, O>(
    h: seq<Entry<I, O>>, head: Node<I, O>, nodes: seq<Node<I, O>>, path: seq<nat>,
    levels: seq<Level<I, O>>, top: seq<Node<I, O>>, i: nat)
    requires Tracks(h, head, nodes, path, levels, top) && i < |Left(h, path)|
    ensures |top| == |Left(h, path)| + 1
    ensures var k := Left(h, path)[i];
      && top[i + 1] == nodes[k]
      && top[i + 1].id == h[k].id
      && top[i + 1].value == ValueOf(h[k])
      && (top[i + 1].partner != null <==> h[k].CallEntry?)
      && (h[k].CallEntry? ==> top[i + 1].partner == nodes[ReturnOf(h, h[k].id)])
      && (h[k].CallEntry? ==> nodes[ReturnOf(h, h[k].id)].value == ValueOf(h[ReturnOf(h, h[k].id)]))
  {
    var k := Left(h, path)[i];
    assert Describes(h, nodes, 0, k);
    if h[k].CallEntry? { assert Describes(h, nodes, 0, ReturnOf(h, h[k].id)); }
  }
}
