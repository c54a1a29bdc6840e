/**
 What clients see of the service, as the checker sees it: the requests that
 took effect, each called no later than it was started and answered no earlier
 than some peer knew it committed, are a history of one store.
 */
module ClientHistory {
  import opened Options
  import opened RaftTypes
  import opened RaftPeer
  import opened RaftTheorems
  import opened Provenance
  import opened Linearizability
  import opened TimedOperations
  import opened KvMachine
  import opened KvDesk
  import opened KvServer
  import opened KvDelivery
  import opened KvRuns
  import Locality
  import KvModel
  import C = Cluster

  // ---------------------------------------------------------------------
  // Real time
  // ---------------------------------------------------------------------

  /** At moment `k` some peer knows the entry after `x` others committed. */
  ghost predicate KnownAt(n: nat, steps: seq<C.Step>, k: nat, x: nat) {
    k <= |steps| && exists p: nat :: p < n && x < C.After(n, steps[..k]).servers[p].commitIndex
  }

  /** What is known committed was started before. */
  lemma KnownWasStarted(n: nat, steps: seq<C.Step>, log: Log, k: nat, x: nat, y: nat)
    requires LogOfRun(n, steps, log) && KnownAt(n, steps, k, y) && x <= y
    ensures x < |log| && Born(n, steps, k, x, log[x])
  {
    var p: nat :| p < n && y < C.After(n, steps[..k]).servers[p].commitIndex;
    var f := C.After(n, steps[..k]).servers[p];
    EntriesWereStarted(n, steps, k, p);
    assert LogOfMoment(C.After(n, steps[..k]), log);
    assert PeerWithin(f, log);
    assert Full(f)[..f.commitIndex][x] == log[x];
    assert Born(n, steps, k, x, Full(f)[x]);
  }

  /** What a peer has handed over it knows committed. */
  lemma HandedIsKnown(n: nat, steps: seq<C.Step>, log: Log, i: nat, k: nat, m: ApplyMsg)
    requires LogOfRun(n, steps, log) && i < n && k <= |steps| && m in C.After(n, steps[..k]).servers[i].applyCh && m.CommandMsg?
    ensures m.index > 0 && KnownAt(n, steps, k, m.index - 1)
  {
    SentWithinLog(n, steps, log, i, k, m);
    assert LogOfMoment(C.After(n, steps[..k]), log);
    assert PeerWithin(C.After(n, steps[..k]).servers[i], log);
    assert Fits(log, m);
  }

  /** The entry a handler waits for is the log's, if its peer hands something over there while it still leads. */
  lemma OwnEntry(n: nat, steps: seq<C.Step>, log: Log, i: nat, j: nat, op: Op, index: nat, term: nat, k: nat, m: ApplyMsg)
    requires LogOfRun(n, steps, log) && Issued(n, steps, i, j, op, index, term)
    requires j < k <= |steps| && Leads(C.After(n, steps[..k]), i, term)
    requires m in C.After(n, steps[..k]).servers[i].applyCh && m.CommandMsg? && m.index == index
    ensures index <= |log| && log[index - 1] == LogEntry(term, Cmd(op))
  {
    EntryStays(n, steps, i, j, index - 1, LogEntry(term, Cmd(op)), k);
    SentWithinLog(n, steps, log, i, k, m);
    var x := C.After(n, steps[..k]).servers[i];
    assert Full(x)[..index][index - 1] == log[..index][index - 1];
  }

  /**
   Real-time order: if a command had been handed over, at any peer, by the time
   a handler started its own, and the handler is answered for that, then the
   earlier command comes first in the log.
   */
  lemma RealTimeOrder(
    n: nat, steps: seq<C.Step>, log: Log, p: nat, k: nat, a: ApplyMsg, i: nat, j: nat, op: Op, index: nat, term: nat, k': nat, b: ApplyMsg)
    requires LogOfRun(n, steps, log) && j < |steps|
    requires p < n && k <= j && a in C.After(n, steps[..k]).servers[p].applyCh && a.CommandMsg?
    requires Issued(n, steps, i, j, op, index, term) && j < k' <= |steps| && Leads(C.After(n, steps[..k']), i, term)
    requires b in C.After(n, steps[..k']).servers[i].applyCh && b.CommandMsg? && b.index == index
    ensures a.index < index
  {
    OwnEntry(n, steps, log, i, j, op, index, term, k', b);
    HandedIsKnown(n, steps, log, p, k, a);
    if index <= a.index {
      KnownWasStarted(n, steps, log, k, index - 1, a.index - 1);
      var i0: nat, j0: nat :| j0 < k && StartedAt(n, steps, i0, j0, index - 1, log[index - 1]);
      StartedOnce(n, steps, i, j, i0, j0, index - 1, log[index - 1]);
    }
  }

  // ---------------------------------------------------------------------
  // Requests
  // ---------------------------------------------------------------------

  /** When a client called and was answered, in moments of the run, and what it was told. */
  datatype Request = Request(call: nat, ret: nat, reply: OpReply)

  ghost predicate StartedFrom(n: nat, steps: seq<C.Step>, call: nat, x: nat, e: LogEntry) {
    exists i: nat, j: nat :: call <= j && StartedAt(n, steps, i, j, x, e)
  }

  /** The request for the log's entry after `x` others: called before it was started, answered with its result once it was known. */
  ghost predicate Answered(n: nat, steps: seq<C.Step>, log: Log, x: nat, q: Request) {
    && x < |log| && q.reply == ReplyAt(OpsOf(log), x)
    && StartedFrom(n, steps, q.call, x, log[x]) && KnownAt(n, steps, q.ret, x)
  }

  /** What a handler returns answers the request for its own entry. */
  lemma HandlerAnswers(
    n: nat, steps: seq<C.Step>, log: Log, i: nat, r: nat, j: nat, op: Op, term: nat, k: nat, k': nat,
    d: seq<ApplyMsg>, events: seq<Event>, ch: Channel, reply: OpReply)
    requires Orderly(n, steps) && LogOfRun(n, steps, log) && Issued(n, steps, i, j, op, ch.index, term)
    requires r <= k <= k' && j < k' && OneLife(n, steps, i, r, k') && DeliveredAt(n, steps, i, r, k, d)
    requires Leads(C.After(n, steps[..k']), i, term) && reply != OVERTAKEN
    requires var desk := Run(StoredAt(n, steps, i, r), events);
      desk.heard == ReadAll(d) && ch in desk.buffers && desk.buffers[ch] == Some(reply)
    ensures Answered(n, steps, log, ch.index - 1, Request(j, k', reply)) && log[ch.index - 1] == LogEntry(term, Cmd(op))
  {
    var q := HandlerResult(n, steps, log, i, r, j, op, term, k, k', d, events, ch, reply);
    HandedLater(n, steps, i, r, k, k', d);
    assert d[q] in d;
    OwnEntry(n, steps, log, i, j, op, ch.index, term, k', d[q]);
    HandedIsKnown(n, steps, log, i, k', d[q]);
  }

  /** What the program leaves pending can be completed: whatever is known committed at the end could be answered then. */
  lemma PendingCompletes(n: nat, steps: seq<C.Step>, log: Log, x: nat) returns (q: Request)
    requires LogOfRun(n, steps, log) && KnownAt(n, steps, |steps|, x)
    ensures Answered(n, steps, log, x, q)
  {
    KnownWasStarted(n, steps, log, |steps|, x, x);
    var i: nat, j: nat :| j < |steps| && StartedAt(n, steps, i, j, x, log[x]);
    q := Request(j, |steps|, ReplyAt(OpsOf(log), x));
  }

  /** A request that was started again, and answered for that, is answered for its first start. */
  lemma RepeatAnswers(n: nat, steps: seq<C.Step>, log: Log, x: nat, y: nat, call: nat, q: Request)
    requires LogOfRun(n, steps, log) && NonDecreasing(OpsOf(log)) && x < y && Answered(n, steps, log, y, q)
    requires SameRequest(OpsOf(log), x, y) && StartedFrom(n, steps, call, x, log[x])
    ensures Answered(n, steps, log, x, q.(call := call))
  {
    ExactlyOnce(OpsOf(log), y);
    KnownBelow(n, steps, q.ret, x, y);
  }

  /** So is one answered from the record, if its client has started nothing later. */
  lemma RecallAnswers(
    n: nat, steps: seq<C.Step>, log: Log, x: nat, cmd: Op, reached: nat, call: nat, k: nat, reply: OpReply)
    requires NonDecreasing(OpsOf(log)) && x < reached <= |log| && KnownAt(n, steps, k, reached - 1)
    requires OpsOf(log)[x].clientId == cmd.clientId && OpsOf(log)[x].seqId == cmd.seqId && StartedFrom(n, steps, call, x, log[x])
    requires forall y :: 0 <= y < reached && OpsOf(log)[y].clientId == cmd.clientId ==> OpsOf(log)[y].seqId <= cmd.seqId
    requires Recalled(OpsOf(log)[..reached], cmd, reply)
    ensures Answered(n, steps, log, x, Request(call, k, reply))
  {
    RecalledIsFirst(OpsOf(log), x, cmd, reached, reply);
    KnownBelow(n, steps, k, x, reached - 1);
  }

  lemma RecalledIsFirst(ops: seq<Op>, x: nat, cmd: Op, reached: nat, reply: OpReply)
    requires NonDecreasing(ops) && x < reached <= |ops| && ops[x].clientId == cmd.clientId && ops[x].seqId == cmd.seqId
    requires forall y :: 0 <= y < reached && ops[y].clientId == cmd.clientId ==> ops[y].seqId <= cmd.seqId
    requires Recalled(ops[..reached], cmd, reply)
    ensures reply == ReplyAt(ops, x)
  {
    var p: nat :| RecalledAt(ops[..reached], cmd, reply, p);
    assert ops[..reached][..p] == ops[..p] && ops[..reached][x] == ops[x];
    if x < p { FirstReply(ops, x, p); }
  }

  lemma FirstReply(ops: seq<Op>, x: nat, p: nat)
    requires NonDecreasing(ops) && x < p < |ops| && SameRequest(ops, x, p)
    ensures ReplyAt(ops, p) == ReplyAt(ops, x)
  {
    ExactlyOnce(ops, p);
  }

  lemma KnownBelow(n: nat, steps: seq<C.Step>, k: nat, x: nat, y: nat)
    requires KnownAt(n, steps, k, y) && x <= y
    ensures KnownAt(n, steps, k, x)
  {
    var p: nat :| p < n && y < C.After(n, steps[..k]).servers[p].commitIndex;
  }

  /** What comes no later in the log was called before what comes after it was answered. */
  lemma CalledBefore(n: nat, steps: seq<C.Step>, log: Log, x: nat, y: nat, qx: Request, qy: Request)
    requires LogOfRun(n, steps, log) && x <= y && Answered(n, steps, log, x, qx) && Answered(n, steps, log, y, qy)
    ensures qx.call < qy.ret
  {
    KnownWasStarted(n, steps, log, qy.ret, x, y);
    var i: nat, j: nat :| qx.call <= j && StartedAt(n, steps, i, j, x, log[x]);
    var i0: nat, j0: nat :| j0 < qy.ret && StartedAt(n, steps, i0, j0, x, log[x]);
    StartedOnce(n, steps, i, j, i0, j0, x, log[x]);
  }

  // ---------------------------------------------------------------------
  // The commands that take effect, run on the plain store
  // ---------------------------------------------------------------------

  /** Where in the first `bound` commands those that take effect stand. */
  ghost function EffectiveAt(ops: seq<Op>, bound: nat): (at: seq<nat>)
    requires bound <= |ops|
    ensures forall a :: 0 <= a < |at| ==> at[a] < bound && TakesEffect(ops, at[a])
    ensures forall a, b :: 0 <= a < b < |at| ==> at[a] < at[b]
  {
    if bound == 0 then [] else
    EffectiveAt(ops, bound - 1) + if TakesEffect(ops, bound - 1) then [bound - 1] else []
  }

  /** The commands the checker's specification knows. */
  predicate Plain(op: Op) {
    op.kind == "Get" || op.kind == "Put" || op.kind == "Append"
  }

  function InputOf(op: Op): KvModel.KvInput {
    KvModel.KvInput(if op.kind == "Get" then 0 else if op.kind == "Put" then 1 else 2, op.key, op.value)
  }

  function OperationOf(op: Op, q: Request): KvModel.KvOperation {
    Operation(op.clientId, InputOf(op), q.call, KvModel.KvOutput(q.reply.value), q.ret)
  }

  /** What the checker is given. */
  ghost function HistoryOf(ops: seq<Op>, at: seq<nat>, requests: seq<Request>): (h: seq<KvModel.KvOperation>)
    requires |at| == |requests| && forall a :: 0 <= a < |at| ==> at[a] < |ops|
    ensures |h| == |at| && forall a :: 0 <= a < |at| ==> h[a] == OperationOf(ops[at[a]], requests[a])
  {
    seq(|at|, a requires 0 <= a < |at| => OperationOf(ops[at[a]], requests[a]))
  }

  ghost function First(k: nat): (order: seq<nat>)
    ensures |order| == k && forall a :: 0 <= a < k ==> order[a] == a
  {
    seq(k, a requires 0 <= a < k => a)
  }

  /** A plain command that takes effect does to the store what the specification says, and tells what it says. */
  lemma PlainStep(ops: seq<Op>, x: nat, reply: OpReply)
    requires x < |ops| && TakesEffect(ops, x) && Plain(ops[x]) && reply == ReplyAt(ops, x)
    ensures KvModel.MapStep(Fold(ops[..x]).kvStore, InputOf(ops[x]), KvModel.KvOutput(reply.value)) == (true, Fold(ops[..x + 1]).kvStore)
  {
    FoldNext(ops, x);
  }

  lemma StoreStays(ops: seq<Op>, x: nat)
    requires x < |ops| && !TakesEffect(ops, x)
    ensures Fold(ops[..x + 1]).kvStore == Fold(ops[..x]).kvStore
  {
    FoldNext(ops, x);
  }

  /** The replies of the log are those of the plain store. */
  ghost predicate Truthful(ops: seq<Op>, at: seq<nat>, history: seq<KvModel.KvOperation>) {
    |history| == |at| && forall a :: 0 <= a < |at| ==>
      && at[a] < |ops| && Plain(ops[at[a]])
      && history[a].input == InputOf(ops[at[a]]) && history[a].output == KvModel.KvOutput(ReplyAt(ops, at[a]).value)
  }

  ghost predicate RunsToFor(history: seq<KvModel.KvOperation>, k: nat, store: map<string, string>, key: int) {
    var p := TimedProblem(KvModel.WholeMap(), history);
    Accepts(p, map[], First(k)) && StateAfter(p, map[], First(k)) == store
  }

  /** The first `k` operations of the history run on the plain store, and leave `store`. */
  ghost predicate RunsTo(history: seq<KvModel.KvOperation>, k: nat, store: map<string, string>) {
    forall key {:trigger RunsToFor(history, k, store, key)} :: RunsToFor(history, k, store, key)
  }

  lemma RunsStart(history: seq<KvModel.KvOperation>)
    ensures RunsTo(history, 0, map[])
  {
    assert First(0) == [];
    assert RunsToFor(history, 0, map[], 0);
  }

  lemma RunsNext(history: seq<KvModel.KvOperation>, k: nat, store: map<string, string>, store': map<string, string>)
    requires RunsTo(history, k, store) && k < |history|
    requires KvModel.MapStep(store, history[k].input, history[k].output) == (true, store')
    ensures RunsTo(history, k + 1, store')
  {
    assert RunsToFor(history, k, store, 0);
    var p := TimedProblem(KvModel.WholeMap(), history);
    AcceptsSnoc(p, map[], First(k), k);
    assert First(k + 1) == First(k) + [k];
    assert First(k + 1)[..k] == First(k);
    assert RunsToFor(history, k + 1, store', 0);
  }

  lemma HistoryNext(ops: seq<Op>, x: nat, before: seq<nat>, at: seq<nat>, history: seq<KvModel.KvOperation>)
    requires Truthful(ops, at, history) && before + [x] <= at && x < |ops| && TakesEffect(ops, x)
    requires RunsTo(history, |before|, Fold(ops[..x]).kvStore)
    ensures RunsTo(history, |before| + 1, Fold(ops[..x + 1]).kvStore)
  {
    assert at[|before|] == (before + [x])[|before|] == x;
    PlainStep(ops, x, ReplyAt(ops, x));
    RunsNext(history, |before|, Fold(ops[..x]).kvStore, Fold(ops[..x + 1]).kvStore);
  }

  /** Up to `bound`, the history leaves the plain store as the log does. */
  lemma {:induction false} HistoryRuns(ops: seq<Op>, bound: nat, at: seq<nat>, history: seq<KvModel.KvOperation>)
    requires bound <= |ops| && EffectiveAt(ops, bound) <= at && Truthful(ops, at, history)
    ensures RunsTo(history, |EffectiveAt(ops, bound)|, Fold(ops[..bound]).kvStore)
    decreases bound
  {
    if bound == 0 {
      assert ops[..0] == [];
      RunsStart(history);
    } else {
      var before, x := EffectiveAt(ops, bound - 1), bound - 1;
      HistoryRuns(ops, x, at, history);
      if TakesEffect(ops, x) {
        assert EffectiveAt(ops, bound) == before + [x];
        HistoryNext(ops, x, before, at, history);
      } else {
        assert EffectiveAt(ops, bound) == before;
        StoreStays(ops, x);
      }
    }
  }

  // ---------------------------------------------------------------------
  // The service is linearizable
  // ---------------------------------------------------------------------

  ghost predicate AllAnswered(n: nat, steps: seq<C.Step>, log: Log, at: seq<nat>, requests: seq<Request>) {
    |requests| == |at| && forall a :: 0 <= a < |at| ==> Answered(n, steps, log, at[a], requests[a])
  }

  /**
   The service is linearizable.  Take the requests that took effect within the
   first `bound` commands of the log of an orderly run, each called no later
   than it was started, and answered with its result in the log no earlier than
   some peer knew it committed.  If they are gets, puts and appends, the history
   they make is one of a single store.
   */
  lemma ServiceIsLinearizable(n: nat, steps: seq<C.Step>, log: Log, bound: nat, requests: seq<Request>)
    requires LogOfRun(n, steps, log) && bound <= |log|
    requires AllAnswered(n, steps, log, EffectiveAt(OpsOf(log), bound), requests)
    requires forall x :: 0 <= x < bound && TakesEffect(OpsOf(log), x) ==> Plain(OpsOf(log)[x])
    ensures LinearizableHistory(KvModel.WholeMap(), HistoryOf(OpsOf(log), EffectiveAt(OpsOf(log), bound), requests))
  {
    var ops, at := OpsOf(log), EffectiveAt(OpsOf(log), bound);
    var history := HistoryOf(ops, at, requests);
    HistoryTruthful(n, steps, log, at, requests);
    RealTimeKept(n, steps, log, at, requests, history);
    LogOrderLinearizes(ops, bound, at, history);
  }

  lemma HistoryTruthful(n: nat, steps: seq<C.Step>, log: Log, at: seq<nat>, requests: seq<Request>)
    requires AllAnswered(n, steps, log, at, requests)
    requires forall a :: 0 <= a < |at| ==> at[a] < |log| && Plain(OpsOf(log)[at[a]])
    ensures Truthful(OpsOf(log), at, HistoryOf(OpsOf(log), at, requests))
  {
    forall a | 0 <= a < |at| ensures requests[a].reply == ReplyAt(OpsOf(log), at[a]) {
      assert Answered(n, steps, log, at[a], requests[a]);
    }
  }

  /** The order of the log is a linearization. */
  lemma LogOrderLinearizes(ops: seq<Op>, bound: nat, at: seq<nat>, history: seq<KvModel.KvOperation>)
    requires bound <= |ops| && at == EffectiveAt(ops, bound) && Truthful(ops, at, history)
    requires WellTimed(history) && RespectsRealTime(TimedProblem(KvModel.WholeMap(), history), First(|at|))
    ensures LinearizableHistory(KvModel.WholeMap(), history)
  {
    var p, order := TimedProblem(KvModel.WholeMap(), history), First(|at|);
    HistoryRuns(ops, bound, at, history);
    assert RunsToFor(history, |at|, Fold(ops[..bound]).kvStore, 0);
    assert Distinct(order) && Ids(p.n, order);
    assert Linearization(p, order);
  }

  lemma RealTimeKept(
    n: nat, steps: seq<C.Step>, log: Log, at: seq<nat>, requests: seq<Request>, history: seq<KvModel.KvOperation>)
    requires LogOfRun(n, steps, log) && AllAnswered(n, steps, log, at, requests) && |history| == |at|
    requires forall a, b :: 0 <= a < b < |at| ==> at[a] < at[b]
    requires forall a :: 0 <= a < |at| ==> history[a].call == requests[a].call && history[a].ret == requests[a].ret
    ensures WellTimed(history) && RespectsRealTime(TimedProblem(KvModel.WholeMap(), history), First(|at|))
  {
    forall a, b | 0 <= a <= b < |at| ensures history[a].call < history[b].ret {
      assert Answered(n, steps, log, at[a], requests[a]) && Answered(n, steps, log, at[b], requests[b]);
      CalledBefore(n, steps, log, at[a], at[b], requests[a], requests[b]);
    }
  }

  /** So the checker, run on such a history, finds nothing wrong. */
  method ClientsPassCheck(
    history: seq<KvModel.KvOperation>, arrivals: seq<nat>,
    ghost n: nat, ghost steps: seq<C.Step>, ghost log: Log, ghost bound: nat, ghost requests: seq<Request>)
    returns (ok: bool)
    requires LogOfRun(n, steps, log) && bound <= |log|
    requires AllAnswered(n, steps, log, EffectiveAt(OpsOf(log), bound), requests)
    requires forall x :: 0 <= x < bound && TakesEffect(OpsOf(log), x) ==> Plain(OpsOf(log)[x])
    requires history == HistoryOf(OpsOf(log), EffectiveAt(OpsOf(log), bound), requests) && history != []
    requires |arrivals| == |Locality.KeysOf(KvModel.KeyOf, history)| && Ids(|arrivals|, arrivals) && Distinct(arrivals)
    ensures ok
  {
    ServiceIsLinearizable(n, steps, log, bound, requests);
    ok := KvModel.CheckKvOperations(history, arrivals);
  }
}
