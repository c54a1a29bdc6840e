/** An upper bound on the steps left to the search, which every step lowers. */
module SearchCost {
  import opened Linearizability
  import opened Histories

  /** The steps of a search that stands at position `k` with `done` finished. */
  ghost function Work<I, O>(h: seq<Entry<I, O>>, done: set<nat>, k: nat): nat
    requires k <= |h|
    decreases Unfinished(h, done), |h| - k
  {
    if k == |h| then 1
    else if h[k].CallEntry? && h[k].id !in done then
      UnfinishedFalls(h, done, k);
      1 + Work(h, done, k + 1) + Work(h, done + {h[k].id}, 0)
    else 1 + Work(h, done, k + 1)
  }

  ghost function IdsOf<I, O>(h: seq<Entry<I, O>>): set<nat> {
    set k | 0 <= k < |h| :: h[k].id
  }

  ghost function Unfinished<I, O>(h: seq<Entry<I, O>>, done: set<nat>): nat {
    |IdsOf(h) - done|
  }

  lemma UnfinishedFalls<I, O>(h: seq<Entry<I, O>>, done: set<nat>, k: nat)
    requires k < |h| && h[k].id !in done
    ensures Unfinished(h, done + {h[k].id}) < Unfinished(h, done)
  {
    var a := h[k].id;
    assert IdsOf(h) - (done + {a}) == (IdsOf(h) - done) - {a};
    assert a in IdsOf(h) - done;
  }

  /** Moving on costs at least one step a position. */
  lemma {:induction false} WorkFalls<I, O>(h: seq<Entry<I, O>>, done: set<nat>, k: nat, k': nat)
    requires k <= k' <= |h|
    ensures Work(h, done, k) >= Work(h, done, k') + (k' - k)
    decreases k' - k
  {
    if k < k' {
      WorkFalls(h, done, k + 1, k');
    }
  }

  /** What remains to be done at the levels above once they are returned to. */
  ghost function Pending<I, O>(h: seq<Entry<I, O>>, path: seq<nat>): nat
    requires forall j :: 0 <= j < |path| ==> CallOf(h, path[j]) < |h|
  {
    if path == [] then 0 else
    var last := |path| - 1;
    Pending(h, path[..last]) + Work(h, Members(path[..last]), CallOf(h, path[last]) + 1)
  }

  ghost predicate OnHistory<I, O>(h: seq<Entry<I, O>>, path: seq<nat>) {
    forall j :: 0 <= j < |path| ==> CallOf(h, path[j]) < |h|
  }

  ghost function Cost<I, O>(h: seq<Entry<I, O>>, path: seq<nat>, k: nat): nat
    requires OnHistory(h, path) && k <= |h|
  {
    Pending(h, path) + Work(h, Members(path), k)
  }

  lemma CostAdvance<I, O>(h: seq<Entry<I, O>>, path: seq<nat>, k: nat, k': nat)
    requires OnHistory(h, path) && k < k' <= |h|
    ensures Cost(h, path, k') < Cost(h, path, k)
  {
    WorkFalls(h, Members(path), k, k');
  }

  lemma CostPush<I, O>(h: seq<Entry<I, O>>, path: seq<nat>, k: nat, a: nat, k': nat)
    requires OnHistory(h, path) && k < |h| && h[k].CallEntry? && h[k].id == a && CallOf(h, a) == k && a !in path
    requires k' <= |h|
    ensures OnHistory(h, path + [a]) && Cost(h, path + [a], k') < Cost(h, path, k)
  {
    var path' := path + [a];
    assert path'[..|path|] == path;
    assert Members(path') == Members(path) + {a};
    WorkFalls(h, Members(path'), 0, k');
  }

  lemma CostPop<I, O>(h: seq<Entry<I, O>>, path: seq<nat>, k: nat, k': nat)
    requires OnHistory(h, path) && k <= |h| && |path| > 0 && CallOf(h, path[|path| - 1]) < k' <= |h|
    ensures OnHistory(h, path[..|path| - 1]) && Cost(h, path[..|path| - 1], k') < Cost(h, path, k)
  {
    var last := |path| - 1;
    WorkFalls(h, Members(path[..last]), CallOf(h, path[last]) + 1, k');
    WorkFalls(h, Members(path), k, |h|);
  }
}
