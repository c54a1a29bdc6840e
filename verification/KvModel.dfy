/** The key/value specification the servers are checked against. */
module KvModel {
  import opened Options
  import opened Collections
  import opened Linearizability
  import opened Histories
  import opened TimedOperations
  import opened Locality
  import opened CheckHistory

  datatype KvInput = KvInput(op: nat, key: string, value: string) // 0: get, 1: put, otherwise: append

  datatype KvOutput = KvOutput(value: string)

  type KvOperation = Operation<KvInput, KvOutput>

  /** One key's value. */
  function KvStep(st: string, inp: KvInput, out: KvOutput): (bool, string) {
    if inp.op == 0 then (out.value == st, st)
    else if inp.op == 1 then (true, inp.value)
    else (true, st + inp.value)
  }

  function OneKey(): Model<string, KvInput, KvOutput> {
    Model("", KvStep, (s: string, t: string) => s == t)
  }

  function KeyOf(inp: KvInput): string { inp.key }

  lemma OneKeyRespected()
    ensures Respected(OneKey())
  {
  }

  // ---------------------------------------------------------------------
  // The whole store
  // ---------------------------------------------------------------------

  function MapStep(st: map<string, string>, inp: KvInput, out: KvOutput): (bool, map<string, string>) {
    if inp.op == 0 then (out.value == Lookup(st, inp.key), st)
    else if inp.op == 1 then (true, st[inp.key := inp.value])
    else (true, st[inp.key := Lookup(st, inp.key) + inp.value])
  }

  function WholeMap(): Model<map<string, string>, KvInput, KvOutput> {
    Model(map[], MapStep, (s: map<string, string>, t: map<string, string>) => s == t)
  }

  ghost predicate SameValues(s: map<string, string>, t: map<string, string>) {
    forall k :: Lookup(s, k) == Lookup(t, k)
  }

  lemma {:induction false} MapAccepts(history: seq<KvOperation>, s: map<string, string>, t: map<string, string>, order: seq<nat>)
    requires SameValues(s, t)
    ensures Accepts(TimedProblem(WholeMap(), history), s, order) <==>
      Accepts(TimedProblem(Store(OneKey(), KeyOf), history), t, order)
    decreases |order|
  {
    if order != [] {
      var p, q := TimedProblem(WholeMap(), history), TimedProblem(Store(OneKey(), KeyOf), history);
      var a := order[0];
      if a < |history| {
        StepsAgree(s, t, history[a].input, history[a].output);
        MapAccepts(history, p.step(s, a).1, q.step(t, a).1, order[1..]);
      }
    }
  }

  lemma StepsAgree(s: map<string, string>, t: map<string, string>, inp: KvInput, out: KvOutput)
    requires SameValues(s, t)
    ensures var r, r' := MapStep(s, inp, out), StoreStep(OneKey(), KeyOf, t, inp, out);
      r.0 == r'.0 && SameValues(r.1, r'.1)
  {
    var r, r' := MapStep(s, inp, out), StoreStep(OneKey(), KeyOf, t, inp, out);
    assert Current(OneKey(), t, inp.key) == Lookup(t, inp.key) == Lookup(s, inp.key);
    forall k ensures Lookup(r.1, k) == Lookup(r'.1, k) {
      assert Lookup(s, k) == Lookup(t, k);
    }
  }

  /** One object per key is the whole map. */
  lemma WholeMapIsStore(history: seq<KvOperation>)
    ensures LinearizableHistory(WholeMap(), history) <==> LinearizableHistory(Store(OneKey(), KeyOf), history)
  {
    if WellTimed(history) {
      var p, q := TimedProblem(WholeMap(), history), TimedProblem(Store(OneKey(), KeyOf), history);
      forall order ensures Linearization(p, order) <==> Linearization(q, order) {
        MapAccepts(history, map[], map[], order);
      }
    }
  }

  /** Checking the parts decides whether the whole map explains the history. */
  method CheckKvOperations(history: seq<KvOperation>, arrivals: seq<nat>) returns (ok: bool)
    requires WellTimed(history) && history != []
    requires |arrivals| == |KeysOf(KeyOf, history)| && Ids(|arrivals|, arrivals) && Distinct(arrivals)
    ensures ok <==> LinearizableHistory(WholeMap(), history)
  {
    WholeMapIsStore(history);
    var result, entries, info; ghost var keys;
    result, entries, info, keys := CheckOperations(OneKey(), KeyOf, history, false, arrivals, None, (_, _) => false);
    ok := result == Ok;
  }
}
