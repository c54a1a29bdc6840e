/**
 What it means for a complete concurrent history to be linearizable, and the
 backtracking search's view of the same thing: pick, again and again, an
 operation that was called before any remaining operation returned.
 */
module Linearizability {
  import opened Collections

  /**
   A history of `n` operations against a sequential specification.  Operation
   `a` is called at time `calls[a]` and returns at `rets[a]`; `step` says
   whether the specification allows it in a state, and the state it leads to.
   */
  datatype Problem<!S> = Problem(n: nat, calls: seq<int>, rets: seq<int>, init: S, step: (S, nat) -> (bool, S))

  ghost predicate Timed<S>(p: Problem<S>) {
    && |p.calls| == p.n
    && |p.rets| == p.n
    && forall a :: 0 <= a < p.n ==> p.calls[a] <= p.rets[a]
  }

  // ---------------------------------------------------------------------
  // The specification
  // ---------------------------------------------------------------------

  ghost predicate Distinct(order: seq<nat>) {
    forall i, j :: 0 <= i < j < |order| ==> order[i] != order[j]
  }

  ghost predicate Ids(n: nat, order: seq<nat>) {
    forall i :: 0 <= i < |order| ==> order[i] < n
  }

  /** The specification accepts the operations one after the other. */
  ghost predicate Accepts<S>(p: Problem<S>, s: S, order: seq<nat>) {
    order == [] || (p.step(s, order[0]).0 && Accepts(p, p.step(s, order[0]).1, order[1..]))
  }

  /** The state a sequence of operations leads to. */
  ghost function StateAfter<S>(p: Problem<S>, s: S, order: seq<nat>): S {
    if order == [] then s
    else p.step(StateAfter(p, s, order[..|order| - 1]), order[|order| - 1]).1
  }

  lemma {:induction false} AcceptsSnoc<S>(p: Problem<S>, s: S, order: seq<nat>, a: nat)
    ensures Accepts(p, s, order + [a]) <==> Accepts(p, s, order) && p.step(StateAfter(p, s, order), a).0
    decreases |order|
  {
    if order == [] {
      assert (order + [a])[1..] == [];
    } else {
      var b, rest := order[0], order[1..];
      assert (order + [a])[1..] == rest + [a];
      AcceptsSnoc(p, p.step(s, b).1, rest, a);
      StateAfterCons(p, s, order);
    }
  }

  lemma {:induction false} StateAfterCons<S>(p: Problem<S>, s: S, order: seq<nat>)
    requires order != []
    ensures StateAfter(p, s, order) == StateAfter(p, p.step(s, order[0]).1, order[1..])
    decreases |order|
  {
    var last := |order| - 1;
    if last > 0 {
      StateAfterCons(p, s, order[..last]);
      assert order[..last][1..] == order[1..][..last - 1];
    } else {
      assert order[..last] == [];
    }
  }

  /** No operation is ordered before one that returned before it was called. */
  ghost predicate RespectsRealTime<S>(p: Problem<S>, order: seq<nat>)
    requires Timed(p) && Ids(p.n, order)
  {
    forall i, j :: 0 <= i < j < |order| ==> !(p.rets[order[j]] < p.calls[order[i]])
  }

  /** A linearization: a real-time respecting permutation the specification accepts. */
  ghost predicate Linearization<S>(p: Problem<S>, order: seq<nat>)
    requires Timed(p)
  {
    && |order| == p.n
    && Ids(p.n, order)
    && Distinct(order)
    && RespectsRealTime(p, order)
    && Accepts(p, p.init, order)
  }

  ghost predicate Linearizable<S(!new)>(p: Problem<S>)
    requires Timed(p)
  {
    exists order :: Linearization(p, order)
  }

  /** A partial linearization: everything that must precede a member does. */
  ghost predicate PartialLinearization<S>(p: Problem<S>, order: seq<nat>)
    requires Timed(p)
  {
    && Ids(p.n, order)
    && Distinct(order)
    && (forall j, a :: 0 <= j < |order| && 0 <= a < p.n && p.rets[a] < p.calls[order[j]] ==> a in order[..j])
    && Accepts(p, p.init, order)
  }

  // ---------------------------------------------------------------------
  // The search's view
  // ---------------------------------------------------------------------

  /** `a` may come next: it was called before any remaining operation returned. */
  ghost predicate Minimal<S>(p: Problem<S>, done: set<nat>, a: nat)
    requires Timed(p)
  {
    a < p.n && a !in done && forall b :: 0 <= b < p.n && b !in done ==> p.calls[a] <= p.rets[b]
  }

  /** From `done` and state `s`, `order` picks minimal operations the specification accepts. */
  ghost predicate Runs<S>(p: Problem<S>, done: set<nat>, s: S, order: seq<nat>)
    requires Timed(p)
    decreases |order|
  {
    order == []
    || (&& Minimal(p, done, order[0])
        && p.step(s, order[0]).0
        && Runs(p, done + {order[0]}, p.step(s, order[0]).1, order[1..]))
  }

  ghost function Members(order: seq<nat>): set<nat> {
    set a | a in order
  }

  lemma {:induction false} MembersSize(order: seq<nat>)
    requires Distinct(order)
    ensures |Members(order)| == |order|
  {
    if order != [] {
      var last := |order| - 1;
      MembersSize(order[..last]);
      assert Members(order) == Members(order[..last]) + {order[last]};
      assert order[last] !in Members(order[..last]);
    }
  }

  /** What `Runs` says of an order that continues `done`, without recursion. */
  ghost predicate Continues<S>(p: Problem<S>, done: set<nat>, s: S, order: seq<nat>)
    requires Timed(p)
  {
    && Ids(p.n, order)
    && Distinct(order)
    && (forall j :: 0 <= j < |order| ==> order[j] !in done)
    && (forall j, b :: 0 <= j < |order| && 0 <= b < p.n && p.rets[b] < p.calls[order[j]] ==> b in done || b in order[..j])
    && Accepts(p, s, order)
  }

  lemma {:induction false} RunsContinues<S>(p: Problem<S>, done: set<nat>, s: S, order: seq<nat>)
    requires Timed(p) && Runs(p, done, s, order)
    ensures Continues(p, done, s, order)
    decreases |order|
  {
    if order != [] {
      var a, rest := order[0], order[1..];
      RunsContinues(p, done + {a}, p.step(s, a).1, rest);
      forall j, b | 0 <= j < |order| && 0 <= b < p.n && p.rets[b] < p.calls[order[j]]
        ensures b in done || b in order[..j]
      {
        if j > 0 {
          assert order[j] == rest[j - 1];
          assert order[..j] == [a] + rest[..j - 1];
        }
      }
      forall i, j | 0 <= i < j < |order| ensures order[i] != order[j] {
        assert order[j] == rest[j - 1];
        if i > 0 { assert order[i] == rest[i - 1]; }
      }
      forall j | 0 <= j < |order| ensures order[j] !in done && order[j] < p.n {
        if j > 0 { assert order[j] == rest[j - 1]; }
      }
    }
  }

  lemma {:induction false} ContinuesRuns<S>(p: Problem<S>, done: set<nat>, s: S, order: seq<nat>)
    requires Timed(p) && Continues(p, done, s, order)
    ensures Runs(p, done, s, order)
    decreases |order|
  {
    if order != [] {
      var a, rest := order[0], order[1..];
      assert order[..0] == [];
      forall b | 0 <= b < p.n && b !in done ensures p.calls[a] <= p.rets[b] {
        assert b !in order[..0];
      }
      forall j, b | 0 <= j < |rest| && 0 <= b < p.n && p.rets[b] < p.calls[rest[j]]
        ensures b in done + {a} || b in rest[..j]
      {
        assert rest[j] == order[j + 1];
        assert order[..j + 1] == [a] + rest[..j];
      }
      ContinuesRuns(p, done + {a}, p.step(s, a).1, rest);
    }
  }

  /** The search's runs from the start are exactly the partial linearizations. */
  lemma RunsArePartial<S>(p: Problem<S>, order: seq<nat>)
    requires Timed(p)
    ensures Runs(p, {}, p.init, order) <==> PartialLinearization(p, order)
  {
    if Runs(p, {}, p.init, order) { RunsContinues(p, {}, p.init, order); }
    if PartialLinearization(p, order) { ContinuesRuns(p, {}, p.init, order); }
  }

  lemma AllPresent(n: nat, order: seq<nat>, a: nat)
    requires |order| == n && Ids(n, order) && Distinct(order) && a < n
    ensures a in order
  {
    MembersSize(order);
    var all := Below(n);
    assert Members(order) <= all;
    if a !in Members(order) {
      Smaller(Members(order), all, a);
    }
  }

  lemma PartialRespectsOrder<S>(p: Problem<S>, order: seq<nat>, i: nat, j: nat)
    requires Timed(p) && PartialLinearization(p, order) && i < j < |order|
    ensures !(p.rets[order[j]] < p.calls[order[i]])
  {
    assert order[j] !in order[..i];
  }

  lemma EarlierPresent<S>(p: Problem<S>, order: seq<nat>, j: nat, a: nat)
    requires Timed(p) && |order| == p.n && Linearization(p, order)
    requires j < |order| && a < p.n && p.rets[a] < p.calls[order[j]]
    ensures a in order[..j]
  {
    AllPresent(p.n, order, a);
    var i :| 0 <= i < |order| && order[i] == a;
    assert order[..j][i] == a;
  }

  lemma FullPartialLinearizes<S>(p: Problem<S>, order: seq<nat>)
    requires Timed(p) && |order| == p.n && PartialLinearization(p, order)
    ensures Linearization(p, order)
  {
    forall i, j | 0 <= i < j < |order| ensures !(p.rets[order[j]] < p.calls[order[i]]) {
      PartialRespectsOrder(p, order, i, j);
    }
  }

  lemma LinearizationIsPartial<S>(p: Problem<S>, order: seq<nat>)
    requires Timed(p) && |order| == p.n && Linearization(p, order)
    ensures PartialLinearization(p, order)
  {
    forall j, a | 0 <= j < |order| && 0 <= a < p.n && p.rets[a] < p.calls[order[j]] ensures a in order[..j] {
      EarlierPresent(p, order, j, a);
    }
  }

  /** The partial linearizations of full length are the linearizations. */
  lemma FullPartialIsLinearization<S>(p: Problem<S>, order: seq<nat>)
    requires Timed(p) && |order| == p.n
    ensures PartialLinearization(p, order) <==> Linearization(p, order)
  {
    if PartialLinearization(p, order) { FullPartialLinearizes(p, order); }
    if Linearization(p, order) { LinearizationIsPartial(p, order); }
  }

  // ---------------------------------------------------------------------
  // Dead ends
  // ---------------------------------------------------------------------

  /** Nothing can complete `done` from state `s`. */
  ghost predicate Dead<S>(p: Problem<S>, done: set<nat>, s: S)
    requires Timed(p)
  {
    forall order :: Runs(p, done, s, order) ==> |done| + |order| < p.n
  }

  lemma DeadMeansNone<S(!new)>(p: Problem<S>)
    requires Timed(p) && Dead(p, {}, p.init)
    ensures !Linearizable(p)
  {
    forall order ensures !Linearization(p, order) {
      if |order| == p.n {
        FullPartialIsLinearization(p, order);
        RunsArePartial(p, order);
      }
    }
  }

  /** A configuration whose every next choice is dead is dead, unless it is complete. */
  lemma DeadFromChildren<S>(p: Problem<S>, done: set<nat>, s: S)
    requires Timed(p) && |done| < p.n
    requires forall a :: Minimal(p, done, a) && p.step(s, a).0 ==> Dead(p, done + {a}, p.step(s, a).1)
    ensures Dead(p, done, s)
  {
    forall order | Runs(p, done, s, order) ensures |done| + |order| < p.n {
      if order != [] {
        assert Runs(p, done + {order[0]}, p.step(s, order[0]).1, order[1..]);
        assert |done + {order[0]}| == |done| + 1;
      }
    }
  }

  /** A relation on states under which the specification allows no less. */
  ghost predicate Simulates<S(!new)>(p: Problem<S>, equal: (S, S) -> bool) {
    forall s, t, a :: SimulatesAt(p, equal, s, t, a)
  }

  ghost predicate SimulatesAt<S>(p: Problem<S>, equal: (S, S) -> bool, s: S, t: S, a: nat) {
    equal(s, t) && p.step(s, a).0 ==> p.step(t, a).0 && equal(p.step(s, a).1, p.step(t, a).1)
  }

  lemma {:induction false} SimulatedRuns<S(!new)>(
    p: Problem<S>, equal: (S, S) -> bool, done: set<nat>, s: S, t: S, order: seq<nat>)
    requires Timed(p) && Simulates(p, equal) && equal(s, t) && Runs(p, done, s, order)
    ensures Runs(p, done, t, order)
    decreases |order|
  {
    if order != [] {
      var a := order[0];
      assert SimulatesAt(p, equal, s, t, a);
      SimulatedRuns(p, equal, done + {a}, p.step(s, a).1, p.step(t, a).1, order[1..]);
    }
  }
}
