/**
 The replicated key/value state machine: what one command does, what the
 applier makes of a log of commands, and which commands take effect.
 */
module KvMachine {
  import opened Options
  import opened Collections
  import opened RaftTypes

  const OK := "OK"
  const ERR_NO_KEY := "ErrNoKey"
  const ERR_WRONG_LEADER := "ErrWrongLeader"
  const ERR_TIME_OUT := "ErrTimeOut"

  datatype OpReply = OpReply(err: string, value: string)

  datatype LastOpRecord = LastOpRecord(lastSeqId: int, lastReply: OpReply)

  /** What a snapshot holds. */
  datatype KvState = KvState(kvStore: map<string, string>, recordMap: map<int, LastOpRecord>)

  const EMPTY := KvState(map[], map[])

  // ---------------------------------------------------------------------
  // Commands
  // ---------------------------------------------------------------------

  /** A command of any other kind does nothing. */
  function Execute(store: map<string, string>, cmd: Op): (map<string, string>, OpReply) {
    if cmd.kind == "Get" then
      (store, if cmd.key in store then OpReply(OK, store[cmd.key]) else OpReply(ERR_NO_KEY, ""))
    else if cmd.kind == "Put" then (store[cmd.key := cmd.value], OpReply(OK, ""))
    else if cmd.kind == "Append" then (store[cmd.key := Lookup(store, cmd.key) + cmd.value], OpReply(OK, ""))
    else if cmd.kind == "Delete" then (store - {cmd.key}, OpReply(OK, ""))
    else (store, OpReply("", ""))
  }

  /** The applier answers a command it takes for a duplicate from its record. */
  predicate Suppressed(st: KvState, cmd: Op) {
    cmd.clientId in st.recordMap && st.recordMap[cmd.clientId].lastSeqId >= cmd.seqId
  }

  /** What applying a command does; the record is overwritten either way. */
  function ApplyOp(st: KvState, cmd: Op): (KvState, OpReply) {
    var (store, reply) :=
      if Suppressed(st, cmd) then (st.kvStore, st.recordMap[cmd.clientId].lastReply) else Execute(st.kvStore, cmd);
    (KvState(store, st.recordMap[cmd.clientId := LastOpRecord(cmd.seqId, reply)]), reply)
  }

  /** The state a log of commands leads to. */
  function Fold(log: seq<Op>): KvState {
    if log == [] then EMPTY else ApplyOp(Fold(log[..|log| - 1]), log[|log| - 1]).0
  }

  /** The reply to the `i`th command. */
  function ReplyAt(log: seq<Op>, i: nat): OpReply
    requires i < |log|
  {
    ApplyOp(Fold(log[..i]), log[i]).1
  }

  /** The commands of a log.  The service starts nothing but commands; `Nil` stands only in sentinels. */
  function OpOf(command: Command): Op {
    if command.Cmd? then command.op else Op("", "", "", 0, 0)
  }

  function OpsOf(log: Log): (ops: seq<Op>)
    ensures |ops| == |log| && forall i :: 0 <= i < |log| ==> ops[i] == OpOf(log[i].command)
  {
    seq(|log|, i requires 0 <= i < |log| => OpOf(log[i].command))
  }

  predicate TakesEffect(log: seq<Op>, i: nat)
    requires i < |log|
  {
    !Suppressed(Fold(log[..i]), log[i])
  }

  lemma FoldNext(log: seq<Op>, i: nat)
    requires i < |log|
    ensures Fold(log[..i + 1]) == ApplyOp(Fold(log[..i]), log[i]).0
  {
    assert log[..i + 1][..i] == log[..i];
  }

  // ---------------------------------------------------------------------
  // Which commands take effect
  // ---------------------------------------------------------------------

  /** `p` is the client's latest command before `i`. */
  ghost predicate Previous(log: seq<Op>, i: nat, p: nat)
    requires i < |log|
  {
    && p < i && log[p].clientId == log[i].clientId
    && forall q :: p < q < i ==> log[q].clientId != log[i].clientId
  }

  ghost predicate FirstOfClient(log: seq<Op>, i: nat)
    requires i < |log|
  {
    forall q :: 0 <= q < i ==> log[q].clientId != log[i].clientId
  }

  /** The client's latest command before `k`. */
  ghost function Latest(log: seq<Op>, client: int, k: nat): (r: Option<nat>)
    requires k <= |log|
    ensures r.Some? ==> r.value < k
  {
    if k == 0 then None
    else if log[k - 1].clientId == client then Some(k - 1)
    else Latest(log, client, k - 1)
  }

  lemma {:induction false} LatestFacts(log: seq<Op>, client: int, k: nat)
    requires k <= |log|
    ensures match Latest(log, client, k)
      case None => forall q :: 0 <= q < k ==> log[q].clientId != client
      case Some(p) => log[p].clientId == client && forall q :: p < q < k ==> log[q].clientId != client
  {
    if k > 0 && log[k - 1].clientId != client { LatestFacts(log, client, k - 1); }
  }

  /** The record of a client is that of its latest command. */
  lemma {:induction false} RecordAfter(log: seq<Op>, client: int, k: nat)
    requires k <= |log|
    ensures var records := Fold(log[..k]).recordMap;
      match Latest(log, client, k)
      case None => client !in records
      case Some(p) => client in records && records[client] == LastOpRecord(log[p].seqId, ReplyAt(log, p))
  {
    if k == 0 {
      assert log[..0] == [];
    } else {
      FoldNext(log, k - 1);
      RecordAfter(log, client, k - 1);
    }
  }

  /**
   Exact duplicate suppression: a command takes effect exactly when it is its
   client's first or its sequence number exceeds that of the client's previous
   command.  One that does not is answered as that previous command was.
   */
  lemma DuplicateSuppression(log: seq<Op>, i: nat)
    requires i < |log|
    ensures FirstOfClient(log, i) ==> TakesEffect(log, i)
    ensures forall p: nat :: Previous(log, i, p) ==>
      && (TakesEffect(log, i) <==> log[i].seqId > log[p].seqId)
      && (!TakesEffect(log, i) ==> ReplyAt(log, i) == ReplyAt(log, p))
    ensures FirstOfClient(log, i) || exists p: nat :: Previous(log, i, p)
  {
    var client := log[i].clientId;
    RecordAfter(log, client, i);
    LatestFacts(log, client, i);
    match Latest(log, client, i)
    case None =>
    case Some(p) =>
      assert Previous(log, i, p);
      forall q: nat | Previous(log, i, q) ensures q == p {
      }
  }

  /** Each client's sequence numbers never fall. */
  ghost predicate NonDecreasing(log: seq<Op>) {
    forall i, j :: 0 <= i < j < |log| && log[i].clientId == log[j].clientId ==> log[i].seqId <= log[j].seqId
  }

  ghost predicate SameRequest(log: seq<Op>, i: nat, j: nat)
    requires i < |log| && j < |log|
  {
    log[i].clientId == log[j].clientId && log[i].seqId == log[j].seqId
  }

  /**
   Exactly once: if no client's sequence numbers fall, a request takes effect at
   its first occurrence and at no other, and every repeat is answered as the
   first was.
   */
  lemma ExactlyOnce(log: seq<Op>, i: nat)
    requires NonDecreasing(log) && i < |log|
    ensures TakesEffect(log, i) <==> forall j: nat :: j < i ==> !SameRequest(log, j, i)
    ensures forall j: nat :: j < i && SameRequest(log, j, i) ==> ReplyAt(log, i) == ReplyAt(log, j)
  {
    DuplicateSuppression(log, i);
    forall j: nat | j < i && SameRequest(log, j, i)
      ensures !TakesEffect(log, i) && ReplyAt(log, i) == ReplyAt(log, j)
    {
      RepeatAnswered(log, j, i);
    }
    if !FirstOfClient(log, i) {
      var p: nat :| Previous(log, i, p);
      if !TakesEffect(log, i) { assert SameRequest(log, p, i); }
    }
  }

  lemma {:induction false} RepeatAnswered(log: seq<Op>, j: nat, i: nat)
    requires NonDecreasing(log) && j < i < |log| && SameRequest(log, j, i)
    ensures !TakesEffect(log, i) && ReplyAt(log, i) == ReplyAt(log, j)
    decreases i
  {
    DuplicateSuppression(log, i);
    assert !FirstOfClient(log, i);
    var p: nat :| Previous(log, i, p);
    assert j <= p;
    if j < p { RepeatAnswered(log, j, p); }
  }

  /**
   A request answered from the record gets the reply to its client's latest
   command, which is numbered no lower: its own reply if it is that command,
   and another's if it is an older one.
   */
  lemma RecordedReply(log: seq<Op>, cmd: Op) returns (p: nat)
    requires Suppressed(Fold(log), cmd)
    ensures p < |log| && log[p].clientId == cmd.clientId && log[p].seqId >= cmd.seqId
    ensures forall q :: p < q < |log| ==> log[q].clientId != cmd.clientId
    ensures Fold(log).recordMap[cmd.clientId].lastReply == ReplyAt(log, p)
  {
    assert log[..|log|] == log;
    RecordAfter(log, cmd.clientId, |log|);
    LatestFacts(log, cmd.clientId, |log|);
    p := Latest(log, cmd.clientId, |log|).value;
  }

  /** If numbers do fall, a request can take effect twice: the record follows the latest command, not the highest. */
  lemma FallingNumbersRepeat(a: Op, b: Op)
    requires a.clientId == b.clientId && a.seqId < b.seqId
    ensures var log := [a, b, a, b]; TakesEffect(log, 1) && TakesEffect(log, 3) && SameRequest(log, 1, 3)
  {
    var log := [a, b, a, b];
    assert Previous(log, 1, 0) && Previous(log, 3, 2);
    DuplicateSuppression(log, 1);
    DuplicateSuppression(log, 3);
  }

  // ---------------------------------------------------------------------
  // The store alone
  // ---------------------------------------------------------------------

  /** The commands that take effect, in order. */
  function Effective(log: seq<Op>): seq<Op> {
    if log == [] then [] else
    var last := |log| - 1;
    Effective(log[..last]) + if TakesEffect(log, last) then [log[last]] else []
  }

  function Store(log: seq<Op>): map<string, string> {
    if log == [] then map[] else Execute(Store(log[..|log| - 1]), log[|log| - 1]).0
  }

  /** The store is what executing the effective commands alone, without any records, makes it. */
  lemma {:induction false} StoreIsEffective(log: seq<Op>)
    ensures Fold(log).kvStore == Store(Effective(log))
  {
    if log != [] {
      var last := |log| - 1;
      StoreIsEffective(log[..last]);
      var before := Effective(log[..last]);
      if TakesEffect(log, last) {
        assert (before + [log[last]])[..|before|] == before;
      } else {
        assert before + [] == before;
      }
    }
  }
}
