/**
 Partitioning by key.  A store that keeps one independent object per key is
 linearizable exactly when the operations on each key are.
 */
module Locality {
  import opened Collections
  import opened Linearizability
  import opened Histories
  import opened TimedOperations

  // ---------------------------------------------------------------------
  // A store of independent objects
  // ---------------------------------------------------------------------

  function Current<K, S, I, O>(m: Model<S, I, O>, st: map<K, S>, k: K): S {
    if k in st then st[k] else m.init
  }

  function StoreStep<K, S, I, O>(m: Model<S, I, O>, keyOf: I -> K, st: map<K, S>, i: I, o: O): (bool, map<K, S>) {
    var r := m.step(Current(m, st, keyOf(i)), i, o);
    (r.0, st[keyOf(i) := r.1])
  }

  /** One object of model `m` per key. */
  ghost function Store<K, S, I, O>(m: Model<S, I, O>, keyOf: I -> K): Model<map<K, S>, I, O> {
    Model(map[], (st: map<K, S>, i: I, o: O) => StoreStep(m, keyOf, st, i, o), (s: map<K, S>, t: map<K, S>) => s == t)
  }

  ghost predicate OfKey<K, I, O>(keyOf: I -> K, history: seq<Operation<I, O>>, k: K, a: nat) {
    a < |history| && keyOf(history[a].input) == k
  }

  /** An order of the operations on one key that are not in `done`, as a linearization from state `s`. */
  ghost predicate KeyOrder<K, S(!new), I, O>(
    m: Model<S, I, O>, keyOf: I -> K, history: seq<Operation<I, O>>, done: set<nat>, s: S, k: K, order: seq<nat>)
    requires WellTimed(history)
  {
    && Ids(|history|, order)
    && Distinct(order)
    && (forall a: nat :: a in order <==> OfKey(keyOf, history, k, a) && a !in done)
    && RespectsRealTime(TimedProblem(m, history), order)
    && Accepts(TimedProblem(m, history), s, order)
  }

  ghost predicate KeyLinearizable<K, S(!new), I, O>(
    m: Model<S, I, O>, keyOf: I -> K, history: seq<Operation<I, O>>, k: K)
    requires WellTimed(history)
  {
    exists order :: KeyOrder(m, keyOf, history, {}, m.init, k, order)
  }

  // ---------------------------------------------------------------------
  // From the whole to each key
  // ---------------------------------------------------------------------

  ghost function OnKey<K, I, O>(keyOf: I -> K, history: seq<Operation<I, O>>, k: K, order: seq<nat>): seq<nat> {
    if order == [] then []
    else if OfKey(keyOf, history, k, order[0]) then [order[0]] + OnKey(keyOf, history, k, order[1..])
    else OnKey(keyOf, history, k, order[1..])
  }

  lemma {:induction false} OnKeyMembers<K, I, O>(keyOf: I -> K, history: seq<Operation<I, O>>, k: K, order: seq<nat>, a: nat)
    ensures a in OnKey(keyOf, history, k, order) <==> a in order && OfKey(keyOf, history, k, a)
  {
    if order != [] {
      OnKeyMembers(keyOf, history, k, order[1..], a);
      assert order == [order[0]] + order[1..];
    }
  }

  lemma FirstBefore<S, I, O>(m: Model<S, I, O>, history: seq<Operation<I, O>>, order: seq<nat>, a: nat)
    requires WellTimed(history) && Ids(|history|, order) && Distinct(order) && RespectsRealTime(TimedProblem(m, history), order)
    requires order != [] && a in order[1..]
    ensures a < |history| && a != order[0] && !(history[a].ret < history[order[0]].call)
  {
    var i :| 0 <= i < |order[1..]| && order[1..][i] == a;
    assert order[i + 1] == a;
    var p := TimedProblem(m, history);
    assert !(p.rets[order[i + 1]] < p.calls[order[0]]);
  }

  lemma {:induction false} OnKeyOrder<K, S, I, O>(
    m: Model<S, I, O>, keyOf: I -> K, history: seq<Operation<I, O>>, k: K, order: seq<nat>)
    requires WellTimed(history) && Ids(|history|, order) && Distinct(order) && RespectsRealTime(TimedProblem(m, history), order)
    ensures var sub := OnKey(keyOf, history, k, order);
      Ids(|history|, sub) && Distinct(sub) && RespectsRealTime(TimedProblem(m, history), sub)
  {
    if order != [] {
      var x, rest := order[0], order[1..];
      OnKeyOrder(m, keyOf, history, k, rest);
      var sub := OnKey(keyOf, history, k, rest);
      forall j | 0 <= j < |sub| ensures sub[j] != x && !(history[sub[j]].ret < history[x].call) {
        OnKeyMembers(keyOf, history, k, rest, sub[j]);
        FirstBefore(m, history, order, sub[j]);
      }
    }
  }

  lemma {:induction false} OnKeyAccepted<K, S, I, O>(
    m: Model<S, I, O>, keyOf: I -> K, history: seq<Operation<I, O>>, k: K, st: map<K, S>, order: seq<nat>)
    requires Ids(|history|, order) && Accepts(TimedProblem(Store(m, keyOf), history), st, order)
    ensures Accepts(TimedProblem(m, history), Current(m, st, k), OnKey(keyOf, history, k, order))
    decreases |order|
  {
    if order != [] {
      var p, q := TimedProblem(Store(m, keyOf), history), TimedProblem(m, history);
      var x, rest := order[0], order[1..];
      var st' := p.step(st, x).1;
      OnKeyAccepted(m, keyOf, history, k, st', rest);
      if OfKey(keyOf, history, k, x) {
        assert q.step(Current(m, st, k), x) == (p.step(st, x).0, Current(m, st', k));
        var sub := OnKey(keyOf, history, k, order);
        assert sub[1..] == OnKey(keyOf, history, k, rest);
      }
    }
  }

  lemma WholeThenKey<K, S(!new), I, O>(
    m: Model<S, I, O>, keyOf: I -> K, history: seq<Operation<I, O>>, k: K, order: seq<nat>)
    requires WellTimed(history) && Linearization(TimedProblem(Store(m, keyOf), history), order)
    ensures KeyLinearizable(m, keyOf, history, k)
  {
    var sub := OnKey(keyOf, history, k, order);
    OnKeyOrder(m, keyOf, history, k, order);
    OnKeyAccepted(m, keyOf, history, k, map[], order);
    forall a: nat ensures a in sub <==> OfKey(keyOf, history, k, a) && a !in {} {
      OnKeyMembers(keyOf, history, k, order, a);
      if a < |history| { AllPresent(|history|, order, a); }
    }
    assert KeyOrder(m, keyOf, history, {}, m.init, k, sub);
  }

  // ---------------------------------------------------------------------
  // From each key to the whole
  // ---------------------------------------------------------------------

  /** A remaining operation that returned first. */
  lemma {:induction false} FirstToReturn<I, O>(history: seq<Operation<I, O>>, rest: set<nat>) returns (x: nat)
    requires rest != {} && forall a :: a in rest ==> a < |history|
    ensures x in rest && forall b :: b in rest ==> history[x].ret <= history[b].ret
    decreases |rest|
  {
    x :| x in rest;
    if rest != {x} {
      var y := FirstToReturn(history, rest - {x});
      if history[y].ret < history[x].ret { x := y; }
    }
  }

  /** What is left to merge: an order for every key. */
  ghost predicate Merging<K(!new), S(!new), I, O>(
    m: Model<S, I, O>, keyOf: I -> K, history: seq<Operation<I, O>>, done: set<nat>, st: map<K, S>, left: map<K, seq<nat>>)
    requires WellTimed(history)
  {
    && done <= Below(|history|)
    && (forall k :: k in left ==> KeyOrder(m, keyOf, history, done, Current(m, st, k), k, left[k]))
    && (forall a: nat :: a < |history| ==> keyOf(history[a].input) in left)
  }

  /** Taking the first operation left on a key leaves an order for every key. */
  lemma TakeFirst<K(!new), S(!new), I, O>(
    m: Model<S, I, O>, keyOf: I -> K, history: seq<Operation<I, O>>, done: set<nat>, st: map<K, S>, left: map<K, seq<nat>>,
    key: K)
    requires WellTimed(history) && Merging(m, keyOf, history, done, st, left) && key in left && left[key] != []
    ensures var x, p := left[key][0], TimedProblem(Store(m, keyOf), history);
      && x < |history| && x !in done && keyOf(history[x].input) == key
      && p.step(st, x).0
      && Merging(m, keyOf, history, done + {x}, p.step(st, x).1, left[key := left[key][1..]])
  {
    var x, p := left[key][0], TimedProblem(Store(m, keyOf), history);
    assert x in left[key];
    var st', done', left' := p.step(st, x).1, done + {x}, left[key := left[key][1..]];
    forall k | k in left' ensures KeyOrder(m, keyOf, history, done', Current(m, st', k), k, left'[k]) {
      assert KeyOrder(m, keyOf, history, done, Current(m, st, k), k, left[k]);
      if k == key {
        TailOrder(m, keyOf, history, done, Current(m, st, k), k, left[k]);
      }
    }
  }

  lemma TailOrder<K, S(!new), I, O>(
    m: Model<S, I, O>, keyOf: I -> K, history: seq<Operation<I, O>>, done: set<nat>, s: S, k: K, order: seq<nat>)
    requires WellTimed(history) && KeyOrder(m, keyOf, history, done, s, k, order) && order != []
    ensures KeyOrder(m, keyOf, history, done + {order[0]}, TimedProblem(m, history).step(s, order[0]).1, k, order[1..])
  {
    var x, rest := order[0], order[1..];
    forall a: nat ensures a in rest <==> OfKey(keyOf, history, k, a) && a !in done + {x} {
      assert order == [x] + rest;
      assert a in order <==> a == x || a in rest;
      if a in rest {
        var i :| 0 <= i < |rest| && rest[i] == a;
        assert order[i + 1] == a;
      }
    }
  }

  /** The first operation left on the key of the first to return is called before anything left returned. */
  lemma HeadIsMinimal<K(!new), S(!new), I, O>(
    m: Model<S, I, O>, keyOf: I -> K, history: seq<Operation<I, O>>, done: set<nat>, s: S, k: K, order: seq<nat>, x: nat)
    requires WellTimed(history) && KeyOrder(m, keyOf, history, done, s, k, order) && x in order
    requires forall b: nat :: b < |history| && b !in done ==> history[x].ret <= history[b].ret
    ensures order != [] && Minimal(TimedProblem(Store(m, keyOf), history), done, order[0])
  {
    var i :| 0 <= i < |order| && order[i] == x;
    var p := TimedProblem(m, history);
    assert i > 0 ==> !(p.rets[order[i]] < p.calls[order[0]]);
    assert order[0] in order;
  }

  lemma FirstOfKey<K(!new), S(!new), I, O>(
    m: Model<S, I, O>, keyOf: I -> K, history: seq<Operation<I, O>>, done: set<nat>, st: map<K, S>, left: map<K, seq<nat>>, x: nat)
    requires WellTimed(history) && Merging(m, keyOf, history, done, st, left) && x < |history| && x !in done
    requires forall b: nat :: b < |history| && b !in done ==> history[x].ret <= history[b].ret
    ensures var key := keyOf(history[x].input);
      key in left && left[key] != [] && Minimal(TimedProblem(Store(m, keyOf), history), done, left[key][0])
  {
    var key := keyOf(history[x].input);
    assert KeyOrder(m, keyOf, history, done, Current(m, st, key), key, left[key]);
    assert OfKey(keyOf, history, key, x);
    HeadIsMinimal(m, keyOf, history, done, Current(m, st, key), key, left[key], x);
  }

  /** The key of the operation that returns first has one to offer next. */
  lemma NextOffered<K(!new), S(!new), I, O>(
    m: Model<S, I, O>, keyOf: I -> K, history: seq<Operation<I, O>>, done: set<nat>, st: map<K, S>, left: map<K, seq<nat>>)
    returns (key: K)
    requires WellTimed(history) && Merging(m, keyOf, history, done, st, left) && Below(|history|) - done != {}
    ensures var p := TimedProblem(Store(m, keyOf), history);
      && key in left && left[key] != [] && left[key][0] < |history| && left[key][0] !in done
      && Minimal(p, done, left[key][0]) && p.step(st, left[key][0]).0
      && Merging(m, keyOf, history, done + {left[key][0]}, p.step(st, left[key][0]).1, left[key := left[key][1..]])
  {
    var x := FirstToReturn(history, Below(|history|) - done);
    key := keyOf(history[x].input);
    FirstOfKey(m, keyOf, history, done, st, left, x);
    TakeFirst(m, keyOf, history, done, st, left, key);
  }

  lemma {:induction false} Merge<K(!new), S(!new), I, O>(
    m: Model<S, I, O>, keyOf: I -> K, history: seq<Operation<I, O>>, done: set<nat>, st: map<K, S>, left: map<K, seq<nat>>)
    returns (order: seq<nat>)
    requires WellTimed(history) && Merging(m, keyOf, history, done, st, left)
    ensures Runs(TimedProblem(Store(m, keyOf), history), done, st, order) && |done| + |order| == |history|
    decreases |Below(|history|) - done|
  {
    var p, all := TimedProblem(Store(m, keyOf), history), Below(|history|);
    if all - done == {} {
      assert done == all;
      order := [];
    } else {
      var key := NextOffered(m, keyOf, history, done, st, left);
      var first := left[key][0];
      assert all - (done + {first}) == (all - done) - {first};
      var rest := Merge(m, keyOf, history, done + {first}, p.step(st, first).1, left[key := left[key][1..]]);
      order := [first] + rest;
      assert order[1..] == rest;
    }
  }

  ghost function KeysOf<K, I, O>(keyOf: I -> K, history: seq<Operation<I, O>>): set<K> {
    set a | 0 <= a < |history| :: keyOf(history[a].input)
  }

  lemma KeysThenWhole<K(!new), S(!new), I, O>(m: Model<S, I, O>, keyOf: I -> K, history: seq<Operation<I, O>>)
    requires WellTimed(history) && forall k :: k in KeysOf(keyOf, history) ==> KeyLinearizable(m, keyOf, history, k)
    ensures Linearizable(TimedProblem(Store(m, keyOf), history))
  {
    var left := map k | k in KeysOf(keyOf, history) :: var order :| KeyOrder(m, keyOf, history, {}, m.init, k, order); order;
    var order := Merge(m, keyOf, history, {}, map[], left);
    var p := TimedProblem(Store(m, keyOf), history);
    RunsArePartial(p, order);
    FullPartialIsLinearization(p, order);
  }

  /** Locality: the whole store is linearizable exactly when every key is. */
  lemma StoreIsLocal<K(!new), S(!new), I, O>(m: Model<S, I, O>, keyOf: I -> K, history: seq<Operation<I, O>>)
    requires WellTimed(history)
    ensures Linearizable(TimedProblem(Store(m, keyOf), history)) <==>
      forall k :: k in KeysOf(keyOf, history) ==> KeyLinearizable(m, keyOf, history, k)
  {
    var p := TimedProblem(Store(m, keyOf), history);
    if Linearizable(p) {
      var order :| Linearization(p, order);
      forall k | k in KeysOf(keyOf, history) ensures KeyLinearizable(m, keyOf, history, k) {
        WholeThenKey(m, keyOf, history, k, order);
      }
    }
    if forall k :: k in KeysOf(keyOf, history) ==> KeyLinearizable(m, keyOf, history, k) {
      KeysThenWhole(m, keyOf, history);
    }
  }
}
