/** Histories of calls and returns, and the problem they pose to the checker. */
module Histories {
  import opened Linearizability

  /** A sequential specification; `equal` compares states. */
  datatype Model<!S, !I, !O> = Model(init: S, step: (S, I, O) -> (bool, S), equal: (S, S) -> bool)

  /** A call or a return.  `id` pairs the two. */
  datatype Entry<+I, +O> =
    | CallEntry(input: I, id: nat, time: int, clientId: int)
    | ReturnEntry(output: O, id: nat, time: int, clientId: int)

  /** Position `k` holds the call, or the return, of an operation. */
  ghost predicate Stands<I, O>(h: seq<Entry<I, O>>, call: bool, id: nat, k: nat) {
    k < |h| && h[k].CallEntry? == call && h[k].id == id
  }

  /** Where that is; the length of the history if nowhere. */
  ghost function Find<I, O>(h: seq<Entry<I, O>>, call: bool, id: nat): (r: nat)
    ensures r <= |h| && (r < |h| ==> Stands(h, call, id, r))
  {
    if exists k: nat :: Stands(h, call, id, k) then var k: nat :| Stands(h, call, id, k); k else |h|
  }

  ghost function CallOf<I, O>(h: seq<Entry<I, O>>, id: nat): nat { Find(h, true, id) }

  ghost function ReturnOf<I, O>(h: seq<Entry<I, O>>, id: nat): nat { Find(h, false, id) }

  function Operations<I, O>(h: seq<Entry<I, O>>): nat { |h| / 2 }

  /** Every operation is called once and returns once, later. */
  ghost predicate Complete<I, O>(h: seq<Entry<I, O>>) {
    && |h| % 2 == 0
    && (forall a :: 0 <= a < Operations(h) ==> CallOf(h, a) < ReturnOf(h, a) < |h|)
    && (forall k :: 0 <= k < |h| ==>
      h[k].id < Operations(h) && k == if h[k].CallEntry? then CallOf(h, h[k].id) else ReturnOf(h, h[k].id))
  }

  /** The specification's verdict on one operation of a history. */
  ghost function StepOf<S, I, O>(m: Model<S, I, O>, h: seq<Entry<I, O>>, s: S, a: nat): (bool, S)
    requires Complete(h)
  {
    if a < Operations(h) then m.step(s, h[CallOf(h, a)].input, h[ReturnOf(h, a)].output) else (false, s)
  }

  /** A history as a problem: times are positions. */
  ghost function ProblemOf<S, I, O>(m: Model<S, I, O>, h: seq<Entry<I, O>>): Problem<S>
    requires Complete(h)
  {
    var n := Operations(h);
    Problem(n, seq(n, a => if 0 <= a then CallOf(h, a) else 0), seq(n, a => if 0 <= a then ReturnOf(h, a) else 0),
            m.init, (s: S, a: nat) => StepOf(m, h, s, a))
  }

  lemma ProblemTimed<S, I, O>(m: Model<S, I, O>, h: seq<Entry<I, O>>)
    requires Complete(h)
    ensures Timed(ProblemOf(m, h))
  {
  }

  /** A comparison of states under which the specification allows no less. */
  ghost predicate Respected<S(!new), I(!new), O(!new)>(m: Model<S, I, O>) {
    forall s, t, i, o :: RespectedAt(m, s, t, i, o)
  }

  ghost predicate RespectedAt<S, I, O>(m: Model<S, I, O>, s: S, t: S, i: I, o: O) {
    m.equal(s, t) && m.step(s, i, o).0 ==> m.step(t, i, o).0 && m.equal(m.step(s, i, o).1, m.step(t, i, o).1)
  }

  lemma RespectedSimulates<S(!new), I(!new), O(!new)>(m: Model<S, I, O>, h: seq<Entry<I, O>>)
    requires Complete(h) && Respected(m)
    ensures Simulates(ProblemOf(m, h), m.equal)
  {
    var p := ProblemOf(m, h);
    forall s, t, a: nat ensures SimulatesAt(p, m.equal, s, t, a) {
      if a < Operations(h) {
        assert RespectedAt(m, s, t, h[CallOf(h, a)].input, h[ReturnOf(h, a)].output);
      }
    }
  }

  // ---------------------------------------------------------------------
  // What is left of a history once some operations are done
  // ---------------------------------------------------------------------

  ghost predicate Increasing(r: seq<nat>) {
    forall i, j :: 0 <= i < j < |r| ==> r[i] < r[j]
  }

  ghost predicate ListsFor<I, O>(h: seq<Entry<I, O>>, done: set<nat>, r: seq<nat>, key: int) {
    Increasing(r) && forall x: nat :: x in r <==> x < |h| && h[x].id !in done
  }

  /** `r` are the positions of operations not in `done`, in order. */
  ghost predicate Lists<I, O>(h: seq<Entry<I, O>>, done: set<nat>, r: seq<nat>) {
    Ids(|h|, r) && forall key :: ListsFor(h, done, r, key)
  }

  lemma {:induction false} LiveFrom<I, O>(h: seq<Entry<I, O>>, done: set<nat>, k: nat) returns (r: seq<nat>)
    requires k <= |h|
    ensures Increasing(r) && forall x: nat :: x in r <==> k <= x < |h| && h[x].id !in done
    decreases |h| - k
  {
    if k == |h| {
      r := [];
    } else {
      var rest := LiveFrom(h, done, k + 1);
      r := if h[k].id in done then rest else [k] + rest;
      forall i, j | 0 <= i < j < |r| ensures r[i] < r[j] {
        assert r[j] in r;
        if r != rest { assert r[j] == rest[j - 1] && rest[j - 1] in rest; }
      }
    }
  }

  lemma LiveExists<I, O>(h: seq<Entry<I, O>>, done: set<nat>)
    ensures exists r :: Lists(h, done, r)
  {
    var r := LiveFrom(h, done, 0);
    forall i | 0 <= i < |r| ensures r[i] < |h| {
      assert r[i] in r;
    }
    assert Lists(h, done, r);
  }

  /** The positions of operations not in `done`, in order. */
  ghost function Live<I, O>(h: seq<Entry<I, O>>, done: set<nat>): (r: seq<nat>)
    ensures Ids(|h|, r)
  {
    LiveExists(h, done);
    var r :| Lists(h, done, r); r
  }

  lemma LiveFacts<I, O>(h: seq<Entry<I, O>>, done: set<nat>)
    ensures Increasing(Live(h, done)) && forall x: nat :: x in Live(h, done) <==> x < |h| && h[x].id !in done
  {
    LiveExists(h, done);
    assert ListsFor(h, done, Live(h, done), 0);
  }

  lemma LiveAt<I, O>(h: seq<Entry<I, O>>, done: set<nat>, i: nat)
    requires i < |Live(h, done)|
    ensures Live(h, done)[i] < |h| && h[Live(h, done)[i]].id !in done
  {
    LiveFacts(h, done);
    assert Live(h, done)[i] in Live(h, done);
  }

  lemma LiveOrder<I, O>(h: seq<Entry<I, O>>, done: set<nat>, i: nat, j: nat)
    requires i < |Live(h, done)| && j < |Live(h, done)|
    ensures Live(h, done)[i] < Live(h, done)[j] <==> i < j
    ensures Live(h, done)[i] == Live(h, done)[j] <==> i == j
  {
    LiveFacts(h, done);
  }

  lemma NoMembers(a: seq<nat>)
    requires forall x: nat :: x !in a
    ensures a == []
  {
    if a != [] { FirstIsMember(a); }
  }

  lemma FirstIsMember(a: seq<nat>)
    requires a != []
    ensures a[0] in a
  {
  }

  /** Increasing sequences with the same members are equal. */
  lemma {:induction false} SameMembers(a: seq<nat>, b: seq<nat>)
    requires Increasing(a) && Increasing(b) && forall x: nat :: x in a <==> x in b
    ensures a == b
    decreases |a|
  {
    if |a| == 0 {
      NoMembers(b);
    } else if |b| == 0 {
      NoMembers(a);
    } else {
      assert a[0] in b && b[0] in a;
      assert a[0] == b[0];
      forall x: nat ensures x in a[1..] <==> x in b[1..] {
        assert x in a[1..] <==> x in a && x != a[0];
        assert x in b[1..] <==> x in b && x != b[0];
      }
      SameMembers(a[1..], b[1..]);
    }
  }

  /** A sequence without the elements at two places. */
  function Without<T>(s: seq<T>, c: nat, r: nat): seq<T>
    requires c < r < |s|
  {
    s[..c] + s[c + 1..r] + s[r + 1..]
  }

  /** Where place `i` of the shortened sequence was before. */
  function Before(c: nat, r: nat, i: nat): nat {
    if i < c then i else if i < r - 1 then i + 1 else i + 2
  }

  lemma WithoutAt<T>(s: seq<T>, c: nat, r: nat, i: nat)
    requires c < r < |s| && i < |s| - 2
    ensures |Without(s, c, r)| == |s| - 2
    ensures Before(c, r, i) < |s| && Before(c, r, i) != c && Before(c, r, i) != r
    ensures Without(s, c, r)[i] == s[Before(c, r, i)]
  {
  }

  lemma WithoutIncreasing(s: seq<nat>, c: nat, r: nat)
    requires Increasing(s) && c < r < |s|
    ensures Increasing(Without(s, c, r))
  {
    var t := Without(s, c, r);
    forall i, j | 0 <= i < j < |t| ensures t[i] < t[j] {
      WithoutAt(s, c, r, i);
      WithoutAt(s, c, r, j);
    }
  }

  lemma WithoutMembers(s: seq<nat>, c: nat, r: nat, x: nat)
    requires Increasing(s) && c < r < |s|
    ensures x in Without(s, c, r) <==> x in s && x != s[c] && x != s[r]
  {
    var t := Without(s, c, r);
    if x in s && x != s[c] && x != s[r] {
      var i :| 0 <= i < |s| && s[i] == x;
      var k := if i < c then i else if i < r then i - 1 else i - 2;
      WithoutAt(s, c, r, k);
    }
    if x in t {
      var i :| 0 <= i < |t| && t[i] == x;
      WithoutAt(s, c, r, i);
    }
  }

  /** Finishing an operation removes exactly its call and its return. */
  lemma LiveWithout<I, O>(h: seq<Entry<I, O>>, done: set<nat>, a: nat, c: nat, r: nat)
    requires Complete(h) && a < Operations(h) && a !in done
    requires c < r < |Live(h, done)| && Live(h, done)[c] == CallOf(h, a) && Live(h, done)[r] == ReturnOf(h, a)
    ensures Live(h, done + {a}) == Without(Live(h, done), c, r)
  {
    var live, live' := Live(h, done), Live(h, done + {a});
    LiveFacts(h, done);
    LiveFacts(h, done + {a});
    WithoutIncreasing(live, c, r);
    forall x: nat ensures x in live' <==> x in Without(live, c, r) {
      WithoutMembers(live, c, r, x);
      assert x in live' <==> x < |h| && h[x].id !in done + {a};
      assert x in live <==> x < |h| && h[x].id !in done;
      assert x < |h| && h[x].id == a ==> x == CallOf(h, a) || x == ReturnOf(h, a);
    }
    SameMembers(live', Without(live, c, r));
  }

  /** The places of an operation's call and return in what is left. */
  lemma LivePlaces<I, O>(h: seq<Entry<I, O>>, done: set<nat>, a: nat) returns (c: nat, r: nat)
    requires Complete(h) && a < Operations(h) && a !in done
    ensures c < r < |Live(h, done)| && Live(h, done)[c] == CallOf(h, a) && Live(h, done)[r] == ReturnOf(h, a)
  {
    var live := Live(h, done);
    LiveFacts(h, done);
    assert CallOf(h, a) in live && ReturnOf(h, a) in live;
    c :| 0 <= c < |live| && live[c] == CallOf(h, a);
    r :| 0 <= r < |live| && live[r] == ReturnOf(h, a);
  }
}
