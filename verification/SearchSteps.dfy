/** The search's steps, from one position of its cursor to the next. */
module SearchSteps {
  import opened Options
  import opened Linearizability
  import opened Histories
  import opened SearchTree
  import opened SearchCost
  import opened SearchCursor

  ghost predicate UnderwayFor<S(!new), I(!new), O(!new)>(
    m: Model<S, I, O>, h: seq<Entry<I, O>>, partial: bool, longest: Longest,
    path: seq<nat>, states: seq<S>, configs: set<(set<nat>, S)>, i: nat, key: int)
  {
    && Complete(h)
    && Searching(ProblemOf(m, h), partial, longest, path, states, configs, Pos(h, Left(h, path), i))
    && Scanned(h, Left(h, path), i)
    && (Left(h, path) != [] ==> i < |Left(h, path)|)
  }

  /**
   The search stands at the `i`th unfinished entry.  (Under a key, so that
   proofs that only pass the invariant on need not unfold it.)
   */
  ghost predicate Underway<S(!new), I(!new), O(!new)>(
    m: Model<S, I, O>, h: seq<Entry<I, O>>, partial: bool, longest: Longest,
    path: seq<nat>, states: seq<S>, configs: set<(set<nat>, S)>, i: nat)
  {
    forall key :: UnderwayFor(m, h, partial, longest, path, states, configs, i, key)
  }

  lemma PathOnHistory<I, O>(h: seq<Entry<I, O>>, path: seq<nat>)
    requires Complete(h) && Ids(Operations(h), path)
    ensures OnHistory(h, path)
  {
  }

  lemma UnderwayFacts<S(!new), I(!new), O(!new)>(
    m: Model<S, I, O>, h: seq<Entry<I, O>>, partial: bool, longest: Longest,
    path: seq<nat>, states: seq<S>, configs: set<(set<nat>, S)>, i: nat)
    requires Underway(m, h, partial, longest, path, states, configs, i)
    ensures Complete(h) && OnHistory(h, path) && Pos(h, Left(h, path), i) <= |h|
    ensures |states| == |path| + 1 && |longest| == Operations(h)
    ensures Ids(Operations(h), path) && Distinct(path)
    ensures Left(h, path) != [] ==> i < |Left(h, path)|
  {
    assert UnderwayFor(m, h, partial, longest, path, states, configs, i, 0);
    PathOnHistory(h, path);
  }

  lemma Begin<S(!new), I(!new), O(!new)>(m: Model<S, I, O>, h: seq<Entry<I, O>>, partial: bool, longest: Longest)
    requires Complete(h) && |longest| == Operations(h) && forall a :: 0 <= a < |longest| ==> longest[a] == None
    ensures Underway(m, h, partial, longest, [], [m.init], {}, 0)
  {
    var p := ProblemOf(m, h);
    ProblemTimed(m, h);
    forall a: nat | a < p.n ensures Pos(h, Left(h, []), 0) <= p.calls[a] {
      StartsBefore(m, h, [], a);
    }
    SearchBegins(p, partial, longest, Pos(h, Left(h, []), 0));
  }

  /** The operation whose call is under the cursor. */
  ghost function Here<I, O>(h: seq<Entry<I, O>>, path: seq<nat>, i: nat): nat
    requires i < |Left(h, path)|
  {
    h[Left(h, path)[i]].id
  }

  ghost predicate AtCall<I, O>(h: seq<Entry<I, O>>, path: seq<nat>, i: nat) {
    Complete(h) && i < |Left(h, path)| && h[Left(h, path)[i]].CallEntry?
  }

  lemma CallFacts<S(!new), I(!new), O(!new)>(
    m: Model<S, I, O>, h: seq<Entry<I, O>>, partial: bool, longest: Longest,
    path: seq<nat>, states: seq<S>, configs: set<(set<nat>, S)>, i: nat)
    requires Underway(m, h, partial, longest, path, states, configs, i) && AtCall(h, path, i)
    ensures var a := Here(h, path, i);
      a !in path && a < Operations(h) && CallOf(h, a) == Left(h, path)[i] && i + 1 < |Left(h, path)|
  {
    assert UnderwayFor(m, h, partial, longest, path, states, configs, i, 0);
    CallUnderCursor(m, h, path, i);
    ReturnFollows(h, path, i);
  }

  lemma OnlyHere<S(!new), I(!new), O(!new)>(m: Model<S, I, O>, h: seq<Entry<I, O>>, path: seq<nat>, i: nat)
    requires AtCall(h, path, i)
    ensures var p, live := ProblemOf(m, h), Left(h, path);
      && Timed(p) && p.n == Operations(h)
      && forall b: nat :: b < p.n && b !in Members(path) && live[i] <= p.calls[b] < Pos(h, live, i + 1) ==> b == Here(h, path, i)
  {
    var p, live := ProblemOf(m, h), Left(h, path);
    forall b: nat | b < p.n && b !in Members(path) && live[i] <= p.calls[b] < Pos(h, live, i + 1) ensures b == Here(h, path, i) {
      NothingBetween(m, h, path, i, b);
    }
  }

  /** The cursor moves past a call that is settled. */
  lemma Skip<S(!new), I(!new), O(!new)>(
    m: Model<S, I, O>, h: seq<Entry<I, O>>, partial: bool, longest: Longest,
    path: seq<nat>, states: seq<S>, configs: set<(set<nat>, S)>, i: nat)
    requires Underway(m, h, partial, longest, path, states, configs, i) && AtCall(h, path, i)
    requires Timed(ProblemOf(m, h)) && |states| == |path| + 1
    requires Settled(ProblemOf(m, h), partial, longest, Members(path), states[|path|], Here(h, path, i))
    ensures Underway(m, h, partial, longest, path, states, configs, i + 1)
  {
    assert UnderwayFor(m, h, partial, longest, path, states, configs, i, 0);
    var p, a, live := ProblemOf(m, h), Here(h, path, i), Left(h, path);
    ReturnFollows(h, path, i);
    OnlyHere(m, h, path, i);
    PassOver(p, partial, longest, path, states, configs, live[i], a, Pos(h, live, i + 1));
    assert UnderwayFor(m, h, partial, longest, path, states, configs, i + 1, 0);
  }

  /** The specification does not allow the operation here. */
  lemma SkipRefused<S(!new), I(!new), O(!new)>(
    m: Model<S, I, O>, h: seq<Entry<I, O>>, partial: bool, longest: Longest,
    path: seq<nat>, states: seq<S>, configs: set<(set<nat>, S)>, i: nat)
    requires Underway(m, h, partial, longest, path, states, configs, i) && AtCall(h, path, i) && |states| == |path| + 1
    requires !StepOf(m, h, states[|path|], Here(h, path, i)).0
    ensures Underway(m, h, partial, longest, path, states, configs, i + 1)
  {
    ProblemTimed(m, h);
    Skip(m, h, partial, longest, path, states, configs, i);
  }

  /** The configuration it leads to has been entered before. */
  lemma SkipCached<S(!new), I(!new), O(!new)>(
    m: Model<S, I, O>, h: seq<Entry<I, O>>, partial: bool, longest: Longest,
    path: seq<nat>, states: seq<S>, configs: set<(set<nat>, S)>, i: nat, t: S)
    requires Underway(m, h, partial, longest, path, states, configs, i) && AtCall(h, path, i) && |states| == |path| + 1
    requires Respected(m)
    requires var a := Here(h, path, i);
      (Members(path) + {a}, t) in configs && m.equal(StepOf(m, h, states[|path|], a).1, t)
    ensures Underway(m, h, partial, longest, path, states, configs, i + 1)
  {
    assert UnderwayFor(m, h, partial, longest, path, states, configs, i, 0);
    var p, a := ProblemOf(m, h), Here(h, path, i);
    RespectedSimulates(m, h);
    CallUnderCursor(m, h, path, i);
    CachedIsClosed(p, m.equal, partial, longest, path, states, configs, Pos(h, Left(h, path), i), a,
                   StepOf(m, h, states[|path|], a).1, t);
    Skip(m, h, partial, longest, path, states, configs, i);
  }

  /** The operation is taken. */
  lemma Take<S(!new), I(!new), O(!new)>(
    m: Model<S, I, O>, h: seq<Entry<I, O>>, partial: bool, longest: Longest,
    path: seq<nat>, states: seq<S>, configs: set<(set<nat>, S)>, i: nat, s: S)
    requires Underway(m, h, partial, longest, path, states, configs, i) && AtCall(h, path, i) && |states| == |path| + 1
    requires StepOf(m, h, states[|path|], Here(h, path, i)) == (true, s)
    ensures var a := Here(h, path, i);
      Underway(m, h, partial, longest, path + [a], states + [s], configs + {(Members(path) + {a}, s)}, 0)
  {
    assert UnderwayFor(m, h, partial, longest, path, states, configs, i, 0);
    var p, a := ProblemOf(m, h), Here(h, path, i);
    CallUnderCursor(m, h, path, i);
    var t := Pos(h, Left(h, path + [a]), 0);
    forall b: nat | b < p.n && b !in Members(path) + {a} ensures t <= p.calls[b] {
      StartsBefore(m, h, path + [a], b);
    }
    Push(p, partial, longest, path, states, configs, a, s, t);
  }

  /** At a return the last operation is taken back, and the cursor moves past its call. */
  lemma TakeBack<S(!new), I(!new), O(!new)>(
    m: Model<S, I, O>, h: seq<Entry<I, O>>, partial: bool, longest: Longest, longest': Longest,
    path: seq<nat>, states: seq<S>, configs: set<(set<nat>, S)>, i: nat, c: nat)
    requires Underway(m, h, partial, longest, path, states, configs, i) && |path| > 0 && |states| == |path| + 1
    requires i < |Left(h, path)| && h[Left(h, path)[i]].ReturnEntry?
    requires Complete(h) && Timed(ProblemOf(m, h))
    requires LongestGrows(longest, longest') && LongestSound(ProblemOf(m, h), longest')
    requires partial ==> forall a: nat :: a in Members(path) ==> RecordedAt(longest', a, |path|)
    requires var last := |path| - 1;
      c < |Left(h, path[..last])| && Left(h, path[..last])[c] == CallOf(h, path[last])
    ensures Underway(m, h, partial, longest', path[..|path| - 1], states[..|path|], configs, c + 1)
  {
    assert UnderwayFor(m, h, partial, longest, path, states, configs, i, 0);
    var p, last := ProblemOf(m, h), |path| - 1;
    var path', a := path[..last], path[last];
    var live := Left(h, path');
    ReturnUnderCursor(m, h, path, i);
    var t := Pos(h, live, c + 1);
    forall b: nat | b < p.n && b !in Members(path') && p.calls[a] <= p.calls[b] < t ensures b == a {
      NothingBetween(m, h, path', c, b);
    }
    Pop(p, partial, longest, longest', path, states, configs, Pos(h, Left(h, path), i), t);
    BackAtCall(m, h, path, states, c);
  }

  /** The level returned to was only scanned up to the call taken back. */
  lemma BackAtCall<S(!new), I(!new), O(!new)>(
    m: Model<S, I, O>, h: seq<Entry<I, O>>, path: seq<nat>, states: seq<S>, c: nat)
    requires Complete(h) && Timed(ProblemOf(m, h)) && OnPath(ProblemOf(m, h), path, states) && |path| > 0
    requires var last := |path| - 1;
      c < |Left(h, path[..last])| && Left(h, path[..last])[c] == CallOf(h, path[last])
    ensures Scanned(h, Left(h, path[..|path| - 1]), c + 1) && c + 1 < |Left(h, path[..|path| - 1])|
  {
    var p, last := ProblemOf(m, h), |path| - 1;
    var path', a := path[..last], path[last];
    var live := Left(h, path');
    assert Taken(p, path, states, last);
    ReturnFollows(h, path', c);
    forall k | 0 <= k < c + 1 && k < |live| ensures live[k] < |h| && h[live[k]].CallEntry? {
      LeftOrder(h, path', k, c);
      LeftAt(h, path', k);
      var b := h[live[k]].id;
      assert p.calls[a] <= p.rets[b];
    }
  }

  /** Nothing is left: the path is a linearization. */
  lemma Success<S(!new), I(!new), O(!new)>(
    m: Model<S, I, O>, h: seq<Entry<I, O>>, partial: bool, longest: Longest,
    path: seq<nat>, states: seq<S>, configs: set<(set<nat>, S)>, i: nat)
    requires Underway(m, h, partial, longest, path, states, configs, i) && Left(h, path) == []
    ensures Complete(h) && Timed(ProblemOf(m, h)) && Linearization(ProblemOf(m, h), path) && Linearizable(ProblemOf(m, h))
  {
    assert UnderwayFor(m, h, partial, longest, path, states, configs, i, 0);
    AllFinished(h, path);
    Completed(ProblemOf(m, h), partial, longest, path, states, configs, Pos(h, Left(h, path), i));
  }

  /** A return with nothing to take back: there is no linearization. */
  lemma Failure<S(!new), I(!new), O(!new)>(
    m: Model<S, I, O>, h: seq<Entry<I, O>>, partial: bool, longest: Longest,
    states: seq<S>, configs: set<(set<nat>, S)>, i: nat)
    requires Underway(m, h, partial, longest, [], states, configs, i)
    requires i < |Left(h, [])| && Complete(h) && h[Left(h, [])[i]].ReturnEntry?
    ensures var p := ProblemOf(m, h);
      && Timed(p)
      && !Linearizable(p)
      && LongestSound(p, longest)
      && (partial ==> forall order, a: nat :: PartialLinearization(p, order) && a in order ==> RecordedAt(longest, a, |order|))
  {
    assert UnderwayFor(m, h, partial, longest, [], states, configs, i, 0);
    ReturnUnderCursor(m, h, [], i);
    assert Members([]) == {};
    Exhausted(ProblemOf(m, h), partial, longest, states, configs, Pos(h, Left(h, []), i));
  }
}
