/** Replaying partial linearizations for display. */
module Visualization {
  import opened Options
  import opened Linearizability
  import opened Histories
  import opened CheckHistory
  import opened Sorting

  /** An operation and the state it leads to. */
  datatype LinearizationStep<+S> = LinearizationStep(index: nat, state: S)

  datatype PartitionData<+S> = PartitionData(linearizations: seq<seq<LinearizationStep<S>>>, largest: map<nat, nat>)

  lemma {:induction false} AcceptsPrefix<S>(p: Problem<S>, s: S, order: seq<nat>, k: nat)
    requires k <= |order| && Accepts(p, s, order)
    ensures Accepts(p, s, order[..k])
    decreases |order|
  {
    if k > 0 {
      AcceptsPrefix(p, p.step(s, order[0]).1, order[1..], k - 1);
      assert order[..k][1..] == order[1..][..k - 1];
    }
  }

  ghost predicate ValuesOf<I, O>(h: seq<Entry<I, O>>, callValue: map<nat, I>, returnValue: map<nat, O>)
    requires Complete(h)
  {
    forall a: nat :: a < Operations(h) ==>
      && a in callValue && callValue[a] == h[CallOf(h, a)].input
      && a in returnValue && returnValue[a] == h[ReturnOf(h, a)].output
  }

  /** The inputs and outputs by operation. */
  method ValuesById<I, O>(h: seq<Entry<I, O>>) returns (callValue: map<nat, I>, returnValue: map<nat, O>)
    requires Complete(h)
    ensures ValuesOf(h, callValue, returnValue)
  {
    callValue, returnValue := map[], map[];
    for k := 0 to |h|
      invariant forall a: nat :: a < Operations(h) && CallOf(h, a) < k ==> a in callValue && callValue[a] == h[CallOf(h, a)].input
      invariant forall a: nat :: a < Operations(h) && ReturnOf(h, a) < k ==> a in returnValue && returnValue[a] == h[ReturnOf(h, a)].output
    {
      match h[k]
      case CallEntry(input, id, _, _) => callValue := callValue[id := input];
      case ReturnEntry(output, id, _, _) => returnValue := returnValue[id := output];
    }
  }

  ghost predicate Replayed<S>(p: Problem<S>, partial: seq<nat>, steps: seq<LinearizationStep<S>>) {
    |steps| == |partial| && forall j :: 0 <= j < |steps| ==>
      steps[j] == LinearizationStep(partial[j], StateAfter(p, p.init, partial[..j + 1]))
  }

  /** Replays one partial linearization; `None` is the program's panic. */
  method Replay<S, I, O>(
    m: Model<S, I, O>, ghost h: seq<Entry<I, O>>, callValue: map<nat, I>, returnValue: map<nat, O>, partial: seq<nat>)
    returns (r: Option<seq<LinearizationStep<S>>>)
    requires Complete(h) && Ids(Operations(h), partial)
    requires ValuesOf(h, callValue, returnValue)
    ensures r.Some? <==> Accepts(ProblemOf(m, h), m.init, partial)
    ensures r.Some? ==> Replayed(ProblemOf(m, h), partial, r.value)
  {
    ghost var p := ProblemOf(m, h);
    var state, steps := m.init, [];
    for j := 0 to |partial|
      invariant ReplayedTo(p, partial, j, state, steps)
    {
      var a := partial[j];
      var step := m.step(state, callValue[a], returnValue[a]);
      ReplayedStep(p, partial, j, state, steps);
      if !step.0 {
        return None;
      }
      state := step.1;
      steps := steps + [LinearizationStep(a, state)];
    }
    assert partial[..|partial|] == partial;
    r := Some(steps);
  }

  /** The first `j` operations have been replayed. */
  ghost predicate ReplayedTo<S>(p: Problem<S>, partial: seq<nat>, j: nat, state: S, steps: seq<LinearizationStep<S>>)
    requires j <= |partial|
  {
    && state == StateAfter(p, p.init, partial[..j]) && Accepts(p, p.init, partial[..j])
    && |steps| == j && forall i :: 0 <= i < j ==>
      steps[i] == LinearizationStep(partial[i], StateAfter(p, p.init, partial[..i + 1]))
  }

  lemma ReplayedStep<S>(p: Problem<S>, partial: seq<nat>, j: nat, state: S, steps: seq<LinearizationStep<S>>)
    requires j < |partial| && ReplayedTo(p, partial, j, state, steps)
    ensures var step := p.step(state, partial[j]);
      if step.0 then ReplayedTo(p, partial, j + 1, step.1, steps + [LinearizationStep(partial[j], step.1)])
      else !Accepts(p, p.init, partial)
  {
    var a := partial[j];
    assert partial[..j + 1] == partial[..j] + [a] && partial[..j + 1][..j] == partial[..j];
    AcceptsSnoc(p, p.init, partial[..j], a);
    if Accepts(p, p.init, partial) { AcceptsPrefix(p, p.init, partial, j + 1); }
  }

  /** Operation `a` is on one of the first `n` partial linearizations, and the `k`th is the largest of them through it. */
  ghost predicate LargestThrough(partials: seq<seq<nat>>, n: nat, a: nat, k: nat)
    requires n <= |partials|
  {
    k < n && a in partials[k] && forall i :: 0 <= i < n && a in partials[i] ==> |partials[i]| <= |partials[k]|
  }

  /** For every operation on the first `n` partial linearizations, a largest one through it. */
  ghost predicate Largest(partials: seq<seq<nat>>, n: nat, largest: map<nat, nat>)
    requires n <= |partials|
  {
    && (forall i, a: nat :: 0 <= i < n && a in partials[i] ==> a in largest)
    && (forall a: nat :: a in largest ==> LargestThrough(partials, n, a, largest[a]))
  }

  ghost predicate Sizes(partials: seq<seq<nat>>, n: nat, largest: map<nat, nat>, sizes: map<nat, nat>)
    requires n <= |partials|
  {
    && sizes.Keys == largest.Keys
    && forall a: nat :: a in largest ==> largest[a] < n && sizes[a] == |partials[largest[a]]|
  }

  function SizeOf(sizes: map<nat, nat>, a: nat): nat { if a in sizes then sizes[a] else 0 }

  /** Takes partial linearization `i` into account. */
  method NoteSizes(partials: seq<seq<nat>>, i: nat, largest: map<nat, nat>, sizes: map<nat, nat>)
    returns (largest': map<nat, nat>, sizes': map<nat, nat>)
    requires i < |partials| && Largest(partials, i, largest) && Sizes(partials, i, largest, sizes)
    ensures Largest(partials, i + 1, largest') && Sizes(partials, i + 1, largest', sizes')
  {
    var partial := partials[i];
    largest', sizes' := largest, sizes;
    for j := 0 to |partial|
      invariant Sizes(partials, i + 1, largest', sizes') && NotedTo(partial, j, i, largest, sizes, largest', sizes')
    {
      NotedStep(partials, j, i, largest, sizes, largest', sizes');
      var a := partial[j];
      if SizeOf(sizes', a) < |partial| {
        sizes' := sizes'[a := |partial|];
        largest' := largest'[a := i];
      }
    }
    LargestNoted(partials, i, largest, sizes, largest', sizes');
  }

  /** What becomes of operation `a` once the first `j` operations of `partial`, the `i`th, are taken into account. */
  ghost predicate NotedAt(
    partial: seq<nat>, j: nat, i: nat, largest: map<nat, nat>, sizes: map<nat, nat>, largest': map<nat, nat>, sizes': map<nat, nat>, a: nat)
    requires j <= |partial|
  {
    && (a in largest' <==> a in largest || a in partial[..j])
    && if a in partial[..j] && SizeOf(sizes, a) < |partial| then largest'[a] == i && SizeOf(sizes', a) == |partial|
       else SizeOf(sizes', a) == SizeOf(sizes, a) && (a in largest ==> largest'[a] == largest[a])
  }

  ghost predicate NotedTo(
    partial: seq<nat>, j: nat, i: nat, largest: map<nat, nat>, sizes: map<nat, nat>, largest': map<nat, nat>, sizes': map<nat, nat>)
    requires j <= |partial|
  {
    forall a: nat :: NotedAt(partial, j, i, largest, sizes, largest', sizes', a)
  }

  lemma NotedStep(
    partials: seq<seq<nat>>, j: nat, i: nat, largest: map<nat, nat>, sizes: map<nat, nat>, largest': map<nat, nat>, sizes': map<nat, nat>)
    requires i < |partials| && j < |partials[i]| && sizes.Keys == largest.Keys
    requires Sizes(partials, i + 1, largest', sizes') && NotedTo(partials[i], j, i, largest, sizes, largest', sizes')
    ensures var a, n := partials[i][j], |partials[i]|;
      if SizeOf(sizes', a) < n then
        Sizes(partials, i + 1, largest'[a := i], sizes'[a := n])
        && NotedTo(partials[i], j + 1, i, largest, sizes, largest'[a := i], sizes'[a := n])
      else NotedTo(partials[i], j + 1, i, largest, sizes, largest', sizes')
  {
    var partial, a, k := partials[i], partials[i][j], j + 1;
    var hit := SizeOf(sizes', a) < |partial|;
    var largest'', sizes'' := if hit then largest'[a := i] else largest', if hit then sizes'[a := |partial|] else sizes';
    forall b: nat ensures NotedAt(partial, k, i, largest, sizes, largest'', sizes'', b) {
      NotedStepAt(partial, j, i, largest, sizes, largest', sizes', largest'', sizes'', b);
    }
  }

  lemma NotedStepAt(
    partial: seq<nat>, j: nat, i: nat, largest: map<nat, nat>, sizes: map<nat, nat>, largest': map<nat, nat>, sizes': map<nat, nat>,
    largest'': map<nat, nat>, sizes'': map<nat, nat>, b: nat)
    requires j < |partial| && sizes.Keys == largest.Keys && sizes'.Keys == largest'.Keys
    requires NotedTo(partial, j, i, largest, sizes, largest', sizes')
    requires var a, n := partial[j], |partial|;
      (largest'', sizes'') == if SizeOf(sizes', a) < n then (largest'[a := i], sizes'[a := n]) else (largest', sizes')
    ensures NotedAt(partial, j + 1, i, largest, sizes, largest'', sizes'', b)
  {
    assert partial[..j + 1] == partial[..j] + [partial[j]];
    assert NotedAt(partial, j, i, largest, sizes, largest', sizes', b);
  }

  lemma LargestNoted(
    partials: seq<seq<nat>>, i: nat, largest: map<nat, nat>, sizes: map<nat, nat>, largest': map<nat, nat>, sizes': map<nat, nat>)
    requires i < |partials| && Largest(partials, i, largest) && Sizes(partials, i, largest, sizes)
    requires NotedTo(partials[i], |partials[i]|, i, largest, sizes, largest', sizes')
    ensures Largest(partials, i + 1, largest')
  {
    forall a: nat ensures a in largest' ==> LargestThrough(partials, i + 1, a, largest'[a])
      ensures a in largest || a in partials[i] ==> a in largest'
    {
      LargestNotedAt(partials, i, largest, sizes, largest', sizes', a);
    }
  }

  lemma LargestNotedAt(
    partials: seq<seq<nat>>, i: nat, largest: map<nat, nat>, sizes: map<nat, nat>, largest': map<nat, nat>, sizes': map<nat, nat>, a: nat)
    requires i < |partials| && Largest(partials, i, largest) && Sizes(partials, i, largest, sizes)
    requires NotedTo(partials[i], |partials[i]|, i, largest, sizes, largest', sizes')
    ensures a in largest' ==> LargestThrough(partials, i + 1, a, largest'[a])
    ensures a in largest || a in partials[i] ==> a in largest'
  {
    assert partials[i][..|partials[i]|] == partials[i];
    assert NotedAt(partials[i], |partials[i]|, i, largest, sizes, largest', sizes', a);
    if a in largest { assert LargestThrough(partials, i, a, largest[a]); }
  }

  predicate Longer(x: seq<nat>, y: seq<nat>) { |x| > |y| }

  lemma SameElements<T>(s: seq<T>, t: seq<T>)
    requires multiset(s) == multiset(t)
    ensures forall x :: x in s <==> x in t
  {
    forall x ensures x in s <==> x in t {
      assert x in multiset(s) <==> x in multiset(t);
    }
  }

  ghost predicate Accepted<S, I, O>(m: Model<S, I, O>, h: seq<Entry<I, O>>, partial: seq<nat>)
    requires Complete(h)
  {
    Accepts(ProblemOf(m, h), m.init, partial)
  }

  /** The first partial linearizations have been replayed. */
  ghost predicate ReplayedFirst<S, I, O>(
    m: Model<S, I, O>, h: seq<Entry<I, O>>, partials: seq<seq<nat>>, linearizations: seq<seq<LinearizationStep<S>>>)
    requires Complete(h)
  {
    |linearizations| <= |partials| && forall i :: 0 <= i < |linearizations| ==>
      Accepted(m, h, partials[i]) && Replayed(ProblemOf(m, h), partials[i], linearizations[i])
  }

  lemma ReplayedNext<S, I, O>(
    m: Model<S, I, O>, h: seq<Entry<I, O>>, partials: seq<seq<nat>>, linearizations: seq<seq<LinearizationStep<S>>>,
    steps: seq<LinearizationStep<S>>)
    requires Complete(h) && ReplayedFirst(m, h, partials, linearizations) && |linearizations| < |partials|
    requires var partial := partials[|linearizations|]; Accepted(m, h, partial) && Replayed(ProblemOf(m, h), partial, steps)
    ensures ReplayedFirst(m, h, partials, linearizations + [steps])
  {
  }

  /** Replays partial linearizations in turn, and finds the largest through each operation. */
  method ReplayAll<S(!new), I(!new), O(!new)>(
    m: Model<S, I, O>, ghost h: seq<Entry<I, O>>, callValue: map<nat, I>, returnValue: map<nat, O>, partials: seq<seq<nat>>)
    returns (r: Option<PartitionData<S>>)
    requires Complete(h) && ValuesOf(h, callValue, returnValue)
    requires forall i :: 0 <= i < |partials| ==> Ids(Operations(h), partials[i])
    ensures r.Some? <==> forall i :: 0 <= i < |partials| ==> Accepted(m, h, partials[i])
    ensures r.Some? ==> |r.value.linearizations| == |partials| && Largest(partials, |partials|, r.value.largest)
    ensures r.Some? ==> forall i :: 0 <= i < |partials| ==> Replayed(ProblemOf(m, h), partials[i], r.value.linearizations[i])
  {
    var linearizations: seq<seq<LinearizationStep<S>>> := [];
    var largest, sizes := map[], map[];
    for i := 0 to |partials|
      invariant |linearizations| == i && ReplayedFirst(m, h, partials, linearizations)
      invariant Largest(partials, i, largest) && Sizes(partials, i, largest, sizes)
    {
      var steps := Replay(m, h, callValue, returnValue, partials[i]);
      if steps.None? {
        assert !Accepted(m, h, partials[i]);
        return None;
      }
      ReplayedNext(m, h, partials, linearizations, steps.value);
      linearizations := linearizations + [steps.value];
      largest, sizes := NoteSizes(partials, i, largest, sizes);
    }
    r := Some(PartitionData(linearizations, largest));
  }

  /** What is displayed of one partition; `None` is the program's panic. */
  method ComputePartitionData<S(!new), I(!new), O(!new)>(m: Model<S, I, O>, h: seq<Entry<I, O>>, partials: seq<seq<nat>>)
    returns (r: Option<PartitionData<S>>, sorted: seq<seq<nat>>)
    requires Complete(h) && forall x :: x in partials ==> Ids(Operations(h), x)
    ensures multiset(sorted) == multiset(partials) && Sorted(Longer, sorted)
    ensures r.Some? <==> forall x :: x in partials ==> Accepted(m, h, x)
    ensures r.Some? ==> |r.value.linearizations| == |sorted| && Largest(sorted, |sorted|, r.value.largest)
    ensures r.Some? ==> forall i :: 0 <= i < |sorted| ==> Replayed(ProblemOf(m, h), sorted[i], r.value.linearizations[i])
  {
    var callValue, returnValue := ValuesById(h);
    sorted := Sort(Longer, partials);
    SameElements(sorted, partials);
    assert forall i :: 0 <= i < |sorted| ==> sorted[i] in sorted;
    r := ReplayAll(m, h, callValue, returnValue, sorted);
  }

  /** What the checker returns can always be displayed, and shows, for every operation, how far it can be explained. */
  lemma CheckedInfoDisplays<S(!new), I(!new), O(!new)>(
    m: Model<S, I, O>, h: seq<Entry<I, O>>, partials: seq<seq<nat>>, sorted: seq<seq<nat>>, largest: map<nat, nat>)
    requires PartialsSound(m, h, partials) && multiset(sorted) == multiset(partials) && Largest(sorted, |sorted|, largest)
    ensures forall x :: x in partials ==> Ids(Operations(h), x) && Accepted(m, h, x)
    ensures PartialsExhaustive(m, h, partials) ==>
      forall order, a: nat :: PartialLinearization(ProblemOf(m, h), order) && a in order ==>
        a in largest && largest[a] < |sorted| && |sorted[largest[a]]| >= |order|
  {
    if PartialsExhaustive(m, h, partials) {
      forall order, a: nat | PartialLinearization(ProblemOf(m, h), order) && a in order
        ensures a in largest && largest[a] < |sorted| && |sorted[largest[a]]| >= |order|
      {
        assert Reached(partials, a, |order|);
        var x :| x in partials && a in x && |x| >= |order|;
        assert x in multiset(partials);
        assert x in sorted;
        var i :| 0 <= i < |sorted| && sorted[i] == x;
        assert a in sorted[i];
      }
    }
  }
}
