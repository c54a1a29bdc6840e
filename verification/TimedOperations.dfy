/** Timed operations, and the entries the checker sorts them into. */
module TimedOperations {
  import opened Linearizability
  import opened Histories
  import opened Sorting

  datatype Operation<+I, +O> = Operation(clientId: int, input: I, call: int, output: O, ret: int)

  /** Every operation returns no earlier than it is called. */
  ghost predicate WellTimed<I, O>(history: seq<Operation<I, O>>) {
    forall a :: 0 <= a < |history| ==> history[a].call <= history[a].ret
  }

  function StepAt<S, I, O>(m: Model<S, I, O>, history: seq<Operation<I, O>>, s: S, a: nat): (bool, S) {
    if a < |history| then m.step(s, history[a].input, history[a].output) else (false, s)
  }

  /** What linearizability of a list of operations is about: their own times. */
  ghost function TimedProblem<S, I, O>(m: Model<S, I, O>, history: seq<Operation<I, O>>): Problem<S> {
    Problem(|history|,
            seq(|history|, a requires 0 <= a < |history| => history[a].call),
            seq(|history|, a requires 0 <= a < |history| => history[a].ret),
            m.init, (s: S, a: nat) => StepAt(m, history, s, a))
  }

  ghost predicate LinearizableHistory<S(!new), I, O>(m: Model<S, I, O>, history: seq<Operation<I, O>>) {
    WellTimed(history) && Linearizable(TimedProblem(m, history))
  }

  // ---------------------------------------------------------------------
  // Making entries
  // ---------------------------------------------------------------------

  function CallOfOperation<I, O>(op: Operation<I, O>, id: nat): Entry<I, O> {
    CallEntry(op.input, id, op.call, op.clientId)
  }

  function ReturnOfOperation<I, O>(op: Operation<I, O>, id: nat): Entry<I, O> {
    ReturnEntry(op.output, id, op.ret, op.clientId)
  }

  /** The order of entries: by time, calls before returns. */
  predicate Less<I, O>(x: Entry<I, O>, y: Entry<I, O>) {
    if x.time != y.time then x.time < y.time else x.CallEntry? && y.ReturnEntry?
  }

  /** The entry `op` contributes at place `x` of the unsorted list. */
  ghost function Raw<I, O>(history: seq<Operation<I, O>>, x: nat): Entry<I, O>
    requires x < 2 * |history|
  {
    var op := history[x / 2];
    if x % 2 == 0 then CallOfOperation(op, x / 2) else ReturnOfOperation(op, x / 2)
  }

  /** The unsorted list. */
  ghost function Unsorted<I, O>(history: seq<Operation<I, O>>): seq<Entry<I, O>> {
    seq(2 * |history|, x requires 0 <= x < 2 * |history| => Raw(history, x))
  }

  /** Some sorted arrangement of the entries of `history`: what any sorting leaves. */
  ghost predicate Arranged<I, O>(history: seq<Operation<I, O>>, h: seq<Entry<I, O>>) {
    Sorted(Less, h) && multiset(h) == multiset(Unsorted(history))
  }

  method MakeEntries<I(!new), O(!new)>(history: seq<Operation<I, O>>) returns (h: seq<Entry<I, O>>)
    ensures Arranged(history, h)
  {
    var entries: seq<Entry<I, O>> := [];
    for id := 0 to |history|
      invariant |entries| == 2 * id
      invariant forall x :: 0 <= x < 2 * id ==> entries[x] == Raw(history, x)
    {
      var op := history[id];
      entries := entries + [CallOfOperation(op, id)] + [ReturnOfOperation(op, id)];
    }
    assert entries == Unsorted(history);
    h := Sort(Less, entries);
  }

  // ---------------------------------------------------------------------
  // A permutation of distinct entries
  // ---------------------------------------------------------------------

  lemma CountTwice<T>(s: seq<T>, i: nat, j: nat)
    requires i < j < |s| && s[i] == s[j]
    ensures multiset(s)[s[i]] >= 2
  {
    assert s == s[..i] + [s[i]] + s[i + 1..];
    assert s[j] == s[i + 1..][j - i - 1];
    assert s[i] in multiset(s[i + 1..]);
  }

  lemma {:induction false} CountOnce<T>(s: seq<T>, x: T)
    requires forall i, j :: 0 <= i < j < |s| ==> s[i] != s[j]
    ensures multiset(s)[x] <= 1
  {
    if s != [] {
      var last := |s| - 1;
      CountOnce(s[..last], x);
      assert s == s[..last] + [s[last]];
    }
  }

  lemma SamePlaces<T>(raw: seq<T>, h: seq<T>)
    requires forall i, j :: 0 <= i < j < |raw| ==> raw[i] != raw[j]
    requires multiset(raw) == multiset(h)
    ensures |h| == |raw|
    ensures forall x :: x in h <==> x in raw
    ensures forall i, j :: 0 <= i < j < |h| ==> h[i] != h[j]
  {
    assert |multiset(raw)| == |raw| && |multiset(h)| == |h|;
    forall x ensures x in h <==> x in raw {
      assert x in multiset(h) <==> x in multiset(raw);
    }
    forall i, j | 0 <= i < j < |h| ensures h[i] != h[j] {
      CountOnce(raw, h[i]);
      if h[i] == h[j] { CountTwice(h, i, j); }
    }
  }

  lemma RawDistinct<I, O>(history: seq<Operation<I, O>>)
    ensures forall i, j :: 0 <= i < j < |Unsorted(history)| ==> Unsorted(history)[i] != Unsorted(history)[j]
  {
    var raw := Unsorted(history);
    forall i, j | 0 <= i < j < |raw| ensures raw[i] != raw[j] {
      assert raw[i] == Raw(history, i) && raw[j] == Raw(history, j);
    }
  }

  // ---------------------------------------------------------------------
  // The entries pose the operations' own problem
  // ---------------------------------------------------------------------

  /** Each place holds the call or the return of one operation, and each operation has both. */
  ghost predicate Covers<I, O>(history: seq<Operation<I, O>>, h: seq<Entry<I, O>>) {
    && |h| == 2 * |history|
    && (forall k :: 0 <= k < |h| ==> Owned(history, h[k]))
    && (forall i, j :: 0 <= i < j < |h| ==> h[i] != h[j])
    && (forall a :: 0 <= a < |history| ==> CallOfOperation(history[a], a) in h && ReturnOfOperation(history[a], a) in h)
  }

  ghost predicate Owned<I, O>(history: seq<Operation<I, O>>, e: Entry<I, O>) {
    && e.id < |history|
    && e == if e.CallEntry? then CallOfOperation(history[e.id], e.id) else ReturnOfOperation(history[e.id], e.id)
  }

  lemma ArrangedCovers<I, O>(history: seq<Operation<I, O>>, h: seq<Entry<I, O>>)
    requires Arranged(history, h)
    ensures Covers(history, h)
  {
    var raw := Unsorted(history);
    RawDistinct(history);
    SamePlaces(raw, h);
    forall k | 0 <= k < |h| ensures Owned(history, h[k]) {
      assert h[k] in raw;
      var x :| 0 <= x < |raw| && raw[x] == h[k];
      assert raw[x] == Raw(history, x);
    }
    forall a | 0 <= a < |history|
      ensures CallOfOperation(history[a], a) in h && ReturnOfOperation(history[a], a) in h
    {
      assert raw[2 * a] == Raw(history, 2 * a) && raw[2 * a + 1] == Raw(history, 2 * a + 1);
      assert raw[2 * a] in h && raw[2 * a + 1] in h;
    }
  }

  /** There is one such entry to find. */
  lemma FindOwned<I, O>(history: seq<Operation<I, O>>, h: seq<Entry<I, O>>, call: bool, id: nat, at: nat)
    requires Covers(history, h) && Stands(h, call, id, at)
    ensures Find(h, call, id) == at
  {
    var k := Find(h, call, id);
    assert Stands(h, call, id, k);
    assert Owned(history, h[k]) && Owned(history, h[at]);
  }

  /** Where an operation's call and return stand. */
  lemma EntriesStand<I, O>(history: seq<Operation<I, O>>, h: seq<Entry<I, O>>, a: nat)
    requires Covers(history, h) && a < |history|
    ensures CallOf(h, a) < |h| && h[CallOf(h, a)] == CallOfOperation(history[a], a)
    ensures ReturnOf(h, a) < |h| && h[ReturnOf(h, a)] == ReturnOfOperation(history[a], a)
  {
    var i :| 0 <= i < |h| && h[i] == CallOfOperation(history[a], a);
    var j :| 0 <= j < |h| && h[j] == ReturnOfOperation(history[a], a);
    FindOwned(history, h, true, a, i);
    FindOwned(history, h, false, a, j);
  }

  /** Positions and times say the same about which operation returned before which was called. */
  lemma SameRealTime<I, O>(history: seq<Operation<I, O>>, h: seq<Entry<I, O>>, a: nat, b: nat)
    requires Covers(history, h) && Sorted(Less, h) && a < |history| && b < |history|
    ensures ReturnOf(h, a) < CallOf(h, b) <==> history[a].ret < history[b].call
  {
    EntriesStand(history, h, a);
    EntriesStand(history, h, b);
    var i, j := ReturnOf(h, a), CallOf(h, b);
    assert Less(h[j], h[i]) <==> history[b].call <= history[a].ret;
    assert Less(h[i], h[j]) <==> history[a].ret < history[b].call;
  }

  lemma ArrangedComplete<I, O>(history: seq<Operation<I, O>>, h: seq<Entry<I, O>>)
    requires Arranged(history, h) && WellTimed(history)
    ensures Complete(h) && Operations(h) == |history|
  {
    ArrangedCovers(history, h);
    forall a | 0 <= a < Operations(h) ensures CallOf(h, a) < ReturnOf(h, a) < |h| {
      EntriesStand(history, h, a);
      SameRealTime(history, h, a, a);
    }
    forall k | 0 <= k < |h|
      ensures h[k].id < Operations(h) && k == if h[k].CallEntry? then CallOf(h, h[k].id) else ReturnOf(h, h[k].id)
    {
      assert Owned(history, h[k]);
      FindOwned(history, h, h[k].CallEntry?, h[k].id, k);
    }
  }

  /** Problems that agree on steps and on real time have the same linearizations. */
  ghost predicate Agree<S(!new)>(p: Problem<S>, q: Problem<S>) {
    && Timed(p) && Timed(q)
    && p.n == q.n && p.init == q.init
    && (forall a, b :: 0 <= a < p.n && 0 <= b < p.n ==> (p.rets[a] < p.calls[b] <==> q.rets[a] < q.calls[b]))
    && (forall s, a: nat :: a < p.n ==> p.step(s, a) == q.step(s, a))
  }

  lemma {:induction false} AgreeAccepts<S(!new)>(p: Problem<S>, q: Problem<S>, s: S, order: seq<nat>)
    requires Agree(p, q) && Ids(p.n, order)
    ensures Accepts(p, s, order) <==> Accepts(q, s, order)
    decreases |order|
  {
    if order != [] {
      assert p.step(s, order[0]) == q.step(s, order[0]);
      AgreeAccepts(p, q, p.step(s, order[0]).1, order[1..]);
    }
  }

  lemma AgreeLinearization<S(!new)>(p: Problem<S>, q: Problem<S>, order: seq<nat>)
    requires Agree(p, q)
    ensures Linearization(p, order) <==> Linearization(q, order)
  {
    if Ids(p.n, order) {
      AgreeAccepts(p, q, p.init, order);
    }
  }

  /**
   However the entries were arranged, checking them decides the operations:
   the two have the same linearizations.
   */
  lemma EntriesKeepMeaning<S(!new), I(!new), O(!new)>(
    m: Model<S, I, O>, history: seq<Operation<I, O>>, h: seq<Entry<I, O>>)
    requires Arranged(history, h) && WellTimed(history)
    ensures Complete(h) && Timed(ProblemOf(m, h)) && Timed(TimedProblem(m, history))
    ensures forall order :: Linearization(ProblemOf(m, h), order) <==> Linearization(TimedProblem(m, history), order)
    ensures Linearizable(ProblemOf(m, h)) <==> Linearizable(TimedProblem(m, history))
  {
    ArrangedCovers(history, h);
    ArrangedComplete(history, h);
    ProblemTimed(m, h);
    var p, q := ProblemOf(m, h), TimedProblem(m, history);
    forall a, b | 0 <= a < p.n && 0 <= b < p.n ensures p.rets[a] < p.calls[b] <==> q.rets[a] < q.calls[b] {
      SameRealTime(history, h, a, b);
    }
    forall s, a: nat | a < p.n ensures p.step(s, a) == q.step(s, a) {
      EntriesStand(history, h, a);
    }
    forall order ensures Linearization(p, order) <==> Linearization(q, order) {
      AgreeLinearization(p, q, order);
    }
  }
}
