/**
 The invariant of the backtracking search: what the configurations already
 left behind, the memo cache and the record of longest partial linearizations
 say about the whole tree of choices.
 */
module SearchTree {
  import opened Options
  import opened Linearizability

  type Longest = seq<Option<seq<nat>>>

  // ---------------------------------------------------------------------
  // The current path
  // ---------------------------------------------------------------------

  /** `states` are the states along `path`, each step minimal and accepted. */
  ghost predicate OnPath<S(!new)>(p: Problem<S>, path: seq<nat>, states: seq<S>)
    requires Timed(p)
  {
    && |states| == |path| + 1
    && states[0] == p.init
    && Distinct(path)
    && Ids(p.n, path)
    && forall j :: 0 <= j < |path| ==> Taken(p, path, states, j)
  }

  ghost predicate Taken<S(!new)>(p: Problem<S>, path: seq<nat>, states: seq<S>, j: nat)
    requires Timed(p) && j < |path| && |states| == |path| + 1
  {
    && Minimal(p, Members(path[..j]), path[j])
    && p.step(states[j], path[j]) == (true, states[j + 1])
  }

  lemma {:induction false} PathRuns<S(!new)>(p: Problem<S>, path: seq<nat>, states: seq<S>, j: nat)
    requires Timed(p) && OnPath(p, path, states) && j <= |path|
    ensures Runs(p, Members(path[..j]), states[j], path[j..])
    decreases |path| - j
  {
    if j < |path| {
      assert Taken(p, path, states, j);
      PathRuns(p, path, states, j + 1);
      assert path[j..][1..] == path[j + 1..];
      assert Members(path[..j + 1]) == Members(path[..j]) + {path[j]} by {
        assert path[..j + 1] == path[..j] + [path[j]];
      }
    }
  }

  /** The current path is a partial linearization. */
  lemma PathIsPartial<S(!new)>(p: Problem<S>, path: seq<nat>, states: seq<S>)
    requires Timed(p) && OnPath(p, path, states)
    ensures PartialLinearization(p, path)
  {
    PathRuns(p, path, states, 0);
    assert path[..0] == [] && path[0..] == path;
    assert Members([]) == {};
    RunsArePartial(p, path);
  }

  lemma MembersPush(path: seq<nat>, a: nat)
    ensures Members(path + [a]) == Members(path) + {a}
  {
  }

  lemma OnPathPush<S(!new)>(p: Problem<S>, path: seq<nat>, states: seq<S>, a: nat, s: S)
    requires Timed(p) && OnPath(p, path, states) && Minimal(p, Members(path), a)
    requires p.step(states[|path|], a) == (true, s)
    ensures OnPath(p, path + [a], states + [s])
  {
    var path', states' := path + [a], states + [s];
    forall j | 0 <= j < |path'| ensures Taken(p, path', states', j) {
      if j < |path| {
        assert Taken(p, path, states, j);
        assert path'[..j] == path[..j];
      } else {
        assert path'[..j] == path;
      }
    }
  }

  lemma OnPathPop<S(!new)>(p: Problem<S>, path: seq<nat>, states: seq<S>)
    requires Timed(p) && OnPath(p, path, states) && |path| > 0
    ensures OnPath(p, path[..|path| - 1], states[..|path|])
  {
    var path', states' := path[..|path| - 1], states[..|path|];
    forall j | 0 <= j < |path'| ensures Taken(p, path', states', j) {
      assert Taken(p, path, states, j);
      assert path'[..j] == path[..j];
    }
  }

  // ---------------------------------------------------------------------
  // Configurations left behind
  // ---------------------------------------------------------------------

  /** Each partial linearization through a configuration is matched in length for all its members. */
  ghost predicate Recorded<S(!new)>(p: Problem<S>, longest: Longest, done: set<nat>, s: S)
    requires Timed(p)
  {
    forall order, a :: Runs(p, done, s, order) && (a in done || a in order) ==>
      RecordedAt(longest, a, |done| + |order|)
  }

  ghost predicate RecordedAt(longest: Longest, a: nat, len: nat) {
    a < |longest| && longest[a].Some? && |longest[a].value| >= len
  }

  ghost predicate ClosedFor<S(!new)>(p: Problem<S>, partial: bool, longest: Longest, done: set<nat>, s: S, key: int)
    requires Timed(p)
  {
    Dead(p, done, s) && (partial ==> Recorded(p, longest, done, s))
  }

  /**
   Nothing is lost by never entering a configuration again.  (Under a key, so
   that proofs that only pass it on need not unfold it.)
   */
  ghost predicate Closed<S(!new)>(p: Problem<S>, partial: bool, longest: Longest, done: set<nat>, s: S)
    requires Timed(p)
  {
    forall key :: ClosedFor(p, partial, longest, done, s, key)
  }

  /** Choice `a` is not possible, not allowed, or leads to a closed configuration. */
  ghost predicate Settled<S(!new)>(p: Problem<S>, partial: bool, longest: Longest, done: set<nat>, s: S, a: nat)
    requires Timed(p)
  {
    Minimal(p, done, a) && p.step(s, a).0 ==> Closed(p, partial, longest, done + {a}, p.step(s, a).1)
  }

  /** Every choice called before time `t` is settled. */
  ghost predicate Tried<S(!new)>(p: Problem<S>, partial: bool, longest: Longest, done: set<nat>, s: S, t: int)
    requires Timed(p)
  {
    forall a: nat {:trigger Settled(p, partial, longest, done, s, a)} ::
      a < p.n && a !in done && p.calls[a] < t ==> Settled(p, partial, longest, done, s, a)
  }

  /** No record gets shorter. */
  ghost predicate LongestGrows(l: Longest, l': Longest) {
    |l'| == |l| && forall a, len :: RecordedAt(l, a, len) ==> RecordedAt(l', a, len)
  }

  lemma ClosedGrows<S(!new)>(p: Problem<S>, partial: bool, l: Longest, l': Longest, done: set<nat>, s: S)
    requires Timed(p) && Closed(p, partial, l, done, s) && LongestGrows(l, l')
    ensures Closed(p, partial, l', done, s)
  {
    assert ClosedFor(p, partial, l, done, s, 0);
  }

  lemma TriedGrows<S(!new)>(p: Problem<S>, partial: bool, l: Longest, l': Longest, done: set<nat>, s: S, t: int)
    requires Timed(p) && Tried(p, partial, l, done, s, t) && LongestGrows(l, l')
    ensures Tried(p, partial, l', done, s, t)
  {
    forall a: nat | a < p.n && a !in done && p.calls[a] < t ensures Settled(p, partial, l', done, s, a) {
      assert Settled(p, partial, l, done, s, a);
      if Minimal(p, done, a) && p.step(s, a).0 {
        ClosedGrows(p, partial, l, l', done + {a}, p.step(s, a).1);
      }
    }
  }

  /** Time `t` is past every possible choice. */
  ghost predicate NoChoiceFrom<S(!new)>(p: Problem<S>, done: set<nat>, t: int)
    requires Timed(p)
  {
    forall a: nat :: Minimal(p, done, a) ==> p.calls[a] < t
  }

  lemma DeadConfiguration<S(!new)>(p: Problem<S>, partial: bool, longest: Longest, done: set<nat>, s: S, t: int)
    requires Timed(p) && |done| < p.n && Tried(p, partial, longest, done, s, t) && NoChoiceFrom(p, done, t)
    ensures Dead(p, done, s)
  {
    forall a: nat | Minimal(p, done, a) && p.step(s, a).0 ensures Dead(p, done + {a}, p.step(s, a).1) {
      assert Settled(p, partial, longest, done, s, a);
      assert ClosedFor(p, partial, longest, done + {a}, p.step(s, a).1, 0);
    }
    DeadFromChildren(p, done, s);
  }

  /** A configuration all of whose choices have been tried is closed once it is recorded itself. */
  lemma CloseConfiguration<S(!new)>(p: Problem<S>, partial: bool, longest: Longest, done: set<nat>, s: S, t: int)
    requires Timed(p) && |done| < p.n && Tried(p, partial, longest, done, s, t) && NoChoiceFrom(p, done, t)
    requires partial ==> forall a: nat :: a in done ==> RecordedAt(longest, a, |done|)
    ensures Closed(p, partial, longest, done, s)
  {
    DeadConfiguration(p, partial, longest, done, s, t);
    if partial { RecordConfiguration(p, longest, done, s, t); }
  }

  lemma RecordConfiguration<S(!new)>(p: Problem<S>, longest: Longest, done: set<nat>, s: S, t: int)
    requires Timed(p) && Tried(p, true, longest, done, s, t) && NoChoiceFrom(p, done, t)
    requires forall a: nat :: a in done ==> RecordedAt(longest, a, |done|)
    ensures Recorded(p, longest, done, s)
  {
    forall order, a: nat | Runs(p, done, s, order) && (a in done || a in order)
      ensures RecordedAt(longest, a, |done| + |order|)
    {
      if order != [] {
        RecordedFromChild(p, longest, done, s, order, a, t);
      }
    }
  }

  lemma RecordedFromChild<S(!new)>(
    p: Problem<S>, longest: Longest, done: set<nat>, s: S, order: seq<nat>, a: nat, t: int)
    requires Timed(p) && Tried(p, true, longest, done, s, t) && NoChoiceFrom(p, done, t)
    requires order != [] && Runs(p, done, s, order) && (a in done || a in order)
    ensures RecordedAt(longest, a, |done| + |order|)
  {
    var b, rest := order[0], order[1..];
    assert Settled(p, true, longest, done, s, b);
    assert ClosedFor(p, true, longest, done + {b}, p.step(s, b).1, 0);
    assert Runs(p, done + {b}, p.step(s, b).1, rest);
    assert |done + {b}| == |done| + 1;
    assert order == [b] + rest;
  }

  /** A configuration is closed if one it is simulated by is. */
  lemma ClosedSimulated<S(!new)>(
    p: Problem<S>, equal: (S, S) -> bool, partial: bool, longest: Longest, done: set<nat>, s: S, t: S)
    requires Timed(p) && Simulates(p, equal) && equal(s, t) && Closed(p, partial, longest, done, t)
    ensures Closed(p, partial, longest, done, s)
  {
    assert ClosedFor(p, partial, longest, done, t, 0);
    forall order | Runs(p, done, s, order) ensures Runs(p, done, t, order) {
      SimulatedRuns(p, equal, done, s, t, order);
    }
  }

  // ---------------------------------------------------------------------
  // The invariant
  // ---------------------------------------------------------------------

  ghost predicate LevelsTried<S(!new)>(p: Problem<S>, partial: bool, longest: Longest, path: seq<nat>, states: seq<S>)
    requires Timed(p) && OnPath(p, path, states)
  {
    forall j :: 0 <= j < |path| ==>
      Tried(p, partial, longest, Members(path[..j]), states[j], p.calls[path[j]])
  }

  ghost predicate IsLevel<S(!new)>(path: seq<nat>, states: seq<S>, d: set<nat>, s: S, j: nat) {
    0 < j <= |path| && j < |states| && d == Members(path[..j]) && s == states[j]
  }

  /** Cached configurations are on the path or closed. */
  ghost predicate CacheOK<S(!new)>(
    p: Problem<S>, partial: bool, longest: Longest, path: seq<nat>, states: seq<S>, cache: set<(set<nat>, S)>)
    requires Timed(p)
  {
    forall d, s :: (d, s) in cache ==>
      Closed(p, partial, longest, d, s) || exists j: nat :: IsLevel(path, states, d, s, j)
  }

  ghost predicate LongestSound<S(!new)>(p: Problem<S>, longest: Longest)
    requires Timed(p)
  {
    && |longest| == p.n
    && forall a :: 0 <= a < p.n && longest[a].Some? ==>
      a in longest[a].value && PartialLinearization(p, longest[a].value)
  }

  /** The search has reached time `t` on the current path. */
  ghost predicate Searching<S(!new)>(
    p: Problem<S>, partial: bool, longest: Longest, path: seq<nat>, states: seq<S>, cache: set<(set<nat>, S)>, t: int)
  {
    && Timed(p)
    && OnPath(p, path, states)
    && LongestSound(p, longest)
    && LevelsTried(p, partial, longest, path, states)
    && Tried(p, partial, longest, Members(path), states[|path|], t)
    && CacheOK(p, partial, longest, path, states, cache)
  }

  lemma SearchBegins<S(!new)>(p: Problem<S>, partial: bool, longest: Longest, t: int)
    requires Timed(p) && |longest| == p.n && forall a: nat :: a < p.n ==> longest[a] == None
    requires forall a: nat :: a < p.n ==> t <= p.calls[a]
    ensures Searching(p, partial, longest, [], [p.init], {}, t)
  {
  }

  /** A choice that is not allowed, or closed, is passed over. */
  lemma PassOver<S(!new)>(
    p: Problem<S>, partial: bool, longest: Longest, path: seq<nat>, states: seq<S>, cache: set<(set<nat>, S)>,
    t: int, a: nat, t': int)
    requires Searching(p, partial, longest, path, states, cache, t)
    requires Settled(p, partial, longest, Members(path), states[|path|], a)
    requires forall b: nat :: b < p.n && b !in Members(path) && t <= p.calls[b] < t' ==> b == a
    ensures Searching(p, partial, longest, path, states, cache, t')
  {
    var done, s := Members(path), states[|path|];
    forall b: nat | b < p.n && b !in done && p.calls[b] < t' ensures Settled(p, partial, longest, done, s, b) {
      if t <= p.calls[b] { assert b == a; }
    }
  }

  /** A cached configuration of the right size is never on the path, so it is closed. */
  lemma CachedIsClosed<S(!new)>(
    p: Problem<S>, equal: (S, S) -> bool, partial: bool, longest: Longest, path: seq<nat>, states: seq<S>,
    cache: set<(set<nat>, S)>, t: int, a: nat, s: S, s': S)
    requires Searching(p, partial, longest, path, states, cache, t) && Simulates(p, equal)
    requires a !in Members(path) && (Members(path) + {a}, s') in cache && equal(s, s')
    ensures Closed(p, partial, longest, Members(path) + {a}, s)
  {
    var d := Members(path) + {a};
    MembersSize(path);
    forall j: nat ensures !IsLevel(path, states, d, s', j) {
      if j <= |path| {
        MembersSize(path[..j]);
      }
    }
    ClosedSimulated(p, equal, partial, longest, d, s, s');
  }

  /** An allowed choice is made. */
  lemma Push<S(!new)>(
    p: Problem<S>, partial: bool, longest: Longest, path: seq<nat>, states: seq<S>, cache: set<(set<nat>, S)>,
    a: nat, s: S, t: int)
    requires Timed(p) && a < p.n && Searching(p, partial, longest, path, states, cache, p.calls[a])
    requires Minimal(p, Members(path), a) && p.step(states[|path|], a) == (true, s)
    requires forall b: nat :: b < p.n && b !in Members(path) + {a} ==> t <= p.calls[b]
    ensures Searching(p, partial, longest, path + [a], states + [s], cache + {(Members(path) + {a}, s)}, t)
  {
    var path', states' := path + [a], states + [s];
    OnPathPush(p, path, states, a, s);
    MembersPush(path, a);
    forall j | 0 <= j < |path'|
      ensures Tried(p, partial, longest, Members(path'[..j]), states'[j], p.calls[path'[j]])
    {
      if j < |path| {
        assert path'[..j] == path[..j];
      } else {
        assert path'[..j] == path;
      }
    }
    PushCache(p, partial, longest, path, states, cache, a, s);
  }

  lemma PushCache<S(!new)>(
    p: Problem<S>, partial: bool, longest: Longest, path: seq<nat>, states: seq<S>, cache: set<(set<nat>, S)>, a: nat, s: S)
    requires Timed(p) && |states| == |path| + 1 && CacheOK(p, partial, longest, path, states, cache)
    ensures CacheOK(p, partial, longest, path + [a], states + [s], cache + {(Members(path) + {a}, s)})
  {
    var path', states' := path + [a], states + [s];
    forall d, u | (d, u) in cache + {(Members(path) + {a}, s)}
      ensures Closed(p, partial, longest, d, u) || exists j: nat :: IsLevel(path', states', d, u, j)
    {
      if (d, u) in cache {
        if !Closed(p, partial, longest, d, u) {
          var j: nat :| IsLevel(path, states, d, u, j);
          assert path'[..j] == path[..j];
          assert IsLevel(path', states', d, u, j);
        }
      } else {
        MembersPush(path, a);
        assert path'[..|path'|] == path';
        assert IsLevel(path', states', d, u, |path'|);
      }
    }
  }

  /** Of the choices at the level of the last one, none but it was called between it and `t`. */
  ghost predicate NextChoice<S(!new)>(p: Problem<S>, path: seq<nat>, t: int)
    requires Timed(p) && |path| > 0 && Ids(p.n, path)
  {
    var last := |path| - 1;
    forall b: nat :: b < p.n && b !in Members(path[..last]) && p.calls[path[last]] <= p.calls[b] < t ==> b == path[last]
  }

  /** At a dead end the last choice is taken back; its configuration is closed. */
  lemma Pop<S(!new)>(
    p: Problem<S>, partial: bool, longest: Longest, longest': Longest,
    path: seq<nat>, states: seq<S>, cache: set<(set<nat>, S)>, t: int, t': int)
    requires Searching(p, partial, longest, path, states, cache, t) && |path| > 0 && |path| < p.n
    requires NoChoiceFrom(p, Members(path), t)
    requires LongestGrows(longest, longest') && LongestSound(p, longest')
    requires partial ==> forall a: nat :: a in Members(path) ==> RecordedAt(longest', a, |path|)
    requires NextChoice(p, path, t')
    ensures Searching(p, partial, longest', path[..|path| - 1], states[..|path|], cache, t')
  {
    var last := |path| - 1;
    OnPathPop(p, path, states);
    MembersSize(path);
    TriedGrows(p, partial, longest, longest', Members(path), states[|path|], t);
    CloseConfiguration(p, partial, longest', Members(path), states[|path|], t);
    PopLevels(p, partial, longest, longest', path, states);
    PopCache(p, partial, longest, longest', path, states, cache);
    PopTried(p, partial, longest, longest', path, states, t');
  }

  /** Once the last choice is closed, everything up to the next one is tried. */
  lemma PopTried<S(!new)>(
    p: Problem<S>, partial: bool, longest: Longest, longest': Longest, path: seq<nat>, states: seq<S>, t': int)
    requires Timed(p) && OnPath(p, path, states) && |path| > 0 && LongestGrows(longest, longest')
    requires LevelsTried(p, partial, longest, path, states) && Closed(p, partial, longest', Members(path), states[|path|])
    requires NextChoice(p, path, t')
    ensures var last := |path| - 1; Tried(p, partial, longest', Members(path[..last]), states[last], t')
  {
    var last := |path| - 1;
    var a, done, s := path[last], Members(path[..last]), states[last];
    assert Taken(p, path, states, last);
    assert path == path[..last] + [a];
    MembersPush(path[..last], a);
    TriedGrows(p, partial, longest, longest', done, s, p.calls[a]);
    assert Settled(p, partial, longest', done, s, a);
    forall b: nat | b < p.n && b !in done && p.calls[b] < t' ensures Settled(p, partial, longest', done, s, b) {
      if p.calls[a] <= p.calls[b] { assert b == a; }
    }
  }

  lemma PopLevels<S(!new)>(
    p: Problem<S>, partial: bool, longest: Longest, longest': Longest, path: seq<nat>, states: seq<S>)
    requires Timed(p) && OnPath(p, path, states) && |path| > 0 && LongestGrows(longest, longest')
    requires LevelsTried(p, partial, longest, path, states)
    ensures OnPath(p, path[..|path| - 1], states[..|path|])
    ensures LevelsTried(p, partial, longest', path[..|path| - 1], states[..|path|])
  {
    OnPathPop(p, path, states);
    var path', states' := path[..|path| - 1], states[..|path|];
    forall j | 0 <= j < |path'|
      ensures Tried(p, partial, longest', Members(path'[..j]), states'[j], p.calls[path'[j]])
    {
      assert path'[..j] == path[..j];
      TriedGrows(p, partial, longest, longest', Members(path[..j]), states[j], p.calls[path[j]]);
    }
  }

  lemma PopCache<S(!new)>(
    p: Problem<S>, partial: bool, longest: Longest, longest': Longest,
    path: seq<nat>, states: seq<S>, cache: set<(set<nat>, S)>)
    requires Timed(p) && |states| == |path| + 1 && |path| > 0 && LongestGrows(longest, longest')
    requires CacheOK(p, partial, longest, path, states, cache)
    requires Closed(p, partial, longest', Members(path), states[|path|])
    ensures CacheOK(p, partial, longest', path[..|path| - 1], states[..|path|], cache)
  {
    var path', states' := path[..|path| - 1], states[..|path|];
    forall d, u | (d, u) in cache
      ensures Closed(p, partial, longest', d, u) || exists j: nat :: IsLevel(path', states', d, u, j)
    {
      if Closed(p, partial, longest, d, u) {
        ClosedGrows(p, partial, longest, longest', d, u);
      } else {
        var j: nat :| IsLevel(path, states, d, u, j);
        if j == |path| {
          assert path[..j] == path;
        } else {
          assert path'[..j] == path[..j];
          assert IsLevel(path', states', d, u, j);
        }
      }
    }
  }

  // ---------------------------------------------------------------------
  // The two ways out
  // ---------------------------------------------------------------------

  /** A complete path is a linearization. */
  lemma Completed<S(!new)>(
    p: Problem<S>, partial: bool, longest: Longest, path: seq<nat>, states: seq<S>, cache: set<(set<nat>, S)>, t: int)
    requires Searching(p, partial, longest, path, states, cache, t) && |path| == p.n
    ensures Linearization(p, path) && Linearizable(p)
  {
    PathIsPartial(p, path, states);
    FullPartialIsLinearization(p, path);
  }

  /** A dead end with nothing to take back means there is no linearization, and every partial one is matched. */
  lemma Exhausted<S(!new)>(
    p: Problem<S>, partial: bool, longest: Longest, states: seq<S>, cache: set<(set<nat>, S)>, t: int)
    requires Searching(p, partial, longest, [], states, cache, t) && p.n > 0
    requires NoChoiceFrom(p, {}, t)
    ensures !Linearizable(p)
    ensures partial ==> forall order, a: nat :: PartialLinearization(p, order) && a in order ==> RecordedAt(longest, a, |order|)
  {
    assert Members([]) == {};
    CloseConfiguration(p, partial, longest, {}, p.init, t);
    assert ClosedFor(p, partial, longest, {}, p.init, 0);
    DeadMeansNone(p);
    if partial {
      forall order, a | PartialLinearization(p, order) && a in order ensures RecordedAt(longest, a, |order|) {
        RunsArePartial(p, order);
      }
    }
  }
}
