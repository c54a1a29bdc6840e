/**
 From raft's messages to the state of the service: however commands, local
 and installed snapshots and the snapshot read at start-up interleave, the
 service holds the fold of the log up to the highest index it has reached.
 */
module KvDelivery {
  import opened Options
  import opened RaftTypes
  import opened RaftPeer
  import opened RaftPeerFacts
  import opened KvMachine
  import opened KvDesk

  /** What the applier reads off the channel: a snapshot's bytes encode the state its log prefix leads to. */
  function Read(m: ApplyMsg): ServiceMsg {
    match m
    case CommandMsg(command, index) => Command(OpOf(command), index)
    case SnapshotMsg(data, _, index) => Snapshot(Some(Fold(OpsOf(data))), index)
  }

  function ReadAll(msgs: seq<ApplyMsg>): (r: seq<ServiceMsg>)
    ensures |r| == |msgs| && forall j :: 0 <= j < |msgs| ==> r[j] == Read(msgs[j])
  {
    seq(|msgs|, j requires 0 <= j < |msgs| => Read(msgs[j]))
  }

  /** The message tells the truth about `log`. */
  ghost predicate Fits(log: Log, m: ApplyMsg) {
    match m
    case CommandMsg(command, index) => 1 <= index <= |log| && log[index - 1].command == command
    case SnapshotMsg(data, _, index) => |data| == index && data <= log
  }

  /** The highest index delivered, starting from `base`. */
  function Highest(base: nat, msgs: seq<ApplyMsg>): nat {
    if msgs == [] then base else Max(Highest(base, msgs[..|msgs| - 1]), msgs[|msgs| - 1].index)
  }

  /** Every command delivered is the next one; no snapshot lies below the start. */
  ghost predicate Continuous(base: nat, d: seq<ApplyMsg>) {
    forall q :: 0 <= q < |d| ==>
      if d[q].CommandMsg? then d[q].index == Highest(base, d[..q]) + 1 else d[q].index >= base
  }

  // ---------------------------------------------------------------------
  // Transparency
  // ---------------------------------------------------------------------

  /** The state is that of the log up to the highest index reached; after a restart `commitIndex` may still be behind. */
  ghost predicate Faithful(log: Log, base: nat, reached: nat, sv: Service) {
    && base <= reached <= |log|
    && sv.state == Fold(OpsOf(log)[..reached])
    && (sv.commitIndex == reached || (sv.commitIndex == 0 && reached == base))
  }

  lemma FaithfulNext(log: Log, base: nat, reached: nat, sv: Service, m: ApplyMsg)
    requires Faithful(log, base, reached, sv) && Fits(log, m)
    requires if m.CommandMsg? then m.index == reached + 1 else m.index >= base
    ensures Faithful(log, base, Max(reached, m.index), ServeOne(sv, Read(m)))
  {
    match m
    case CommandMsg(command, index) =>
      FoldNext(OpsOf(log), reached);
    case SnapshotMsg(data, _, index) =>
      assert OpsOf(data) == OpsOf(log)[..index];
  }

  ghost predicate AllFit(log: Log, d: seq<ApplyMsg>) {
    forall q :: 0 <= q < |d| ==> Fits(log, d[q])
  }

  /** The service as it starts at `base`, with the stored snapshot restored. */
  ghost function Started(log: Log, base: nat): Service
    requires base <= |log|
  {
    Service(Fold(OpsOf(log)[..base]), 0)
  }

  /** The service once it has been delivered `d`. */
  ghost function Served(log: Log, base: nat, d: seq<ApplyMsg>): Service
    requires base <= |log|
  {
    Serve(Started(log, base), ReadAll(d))
  }

  lemma ServedNext(log: Log, base: nat, d: seq<ApplyMsg>)
    requires base <= |log| && d != []
    ensures Served(log, base, d) == ServeOne(Served(log, base, d[..|d| - 1]), Read(d[|d| - 1]))
  {
    assert ReadAll(d)[..|d| - 1] == ReadAll(d[..|d| - 1]);
  }

  lemma ContinuousPrefix(log: Log, base: nat, d: seq<ApplyMsg>, k: nat)
    requires Continuous(base, d) && AllFit(log, d) && k <= |d|
    ensures Continuous(base, d[..k]) && AllFit(log, d[..k])
  {
    forall q | 0 <= q < k
      ensures if d[..k][q].CommandMsg? then d[..k][q].index == Highest(base, d[..k][..q]) + 1 else d[..k][q].index >= base
    {
      assert d[..k][..q] == d[..q];
    }
  }

  /**
   Snapshot and crash transparency: from a start at `base`, with the stored
   snapshot restored, whatever continuous stream is delivered leaves the
   service in the state the log itself leads to.
   */
  lemma {:induction false} Transparency(log: Log, base: nat, d: seq<ApplyMsg>)
    requires base <= |log| && Continuous(base, d) && AllFit(log, d)
    ensures Faithful(log, base, Highest(base, d), Served(log, base, d))
  {
    if d != [] {
      var last := |d| - 1;
      ContinuousPrefix(log, base, d, last);
      Transparency(log, base, d[..last]);
      ServedNext(log, base, d);
      FaithfulNext(log, base, Highest(base, d[..last]), Served(log, base, d[..last]), d[last]);
    }
  }

  /** The reply computed for a command is the one its place in the log calls for. */
  lemma ReplyIsReplyAt(log: Log, base: nat, d: seq<ApplyMsg>, q: nat)
    requires base <= |log| && Continuous(base, d) && AllFit(log, d) && q < |d| && d[q].CommandMsg?
    ensures 1 <= d[q].index <= |log|
    ensures ApplyOp(Served(log, base, d[..q]).state, OpOf(d[q].command)).1 == ReplyAt(OpsOf(log), d[q].index - 1)
  {
    ContinuousPrefix(log, base, d, q);
    Transparency(log, base, d[..q]);
    assert Fits(log, d[q]);
  }

  /** A reply the applier has given goes back to a command delivered. */
  lemma RepliedTo(start: Service, d: seq<ApplyMsg>, index: nat, reply: OpReply) returns (q: nat)
    requires Replied(start, ReadAll(d), index, reply)
    ensures q < |d| && d[q].CommandMsg? && d[q].index == index
    ensures reply == ApplyOp(Serve(start, ReadAll(d[..q])).state, OpOf(d[q].command)).1
  {
    q :| RepliedAt(start, ReadAll(d), q, index, reply);
    assert ReadAll(d)[..q] == ReadAll(d[..q]);
  }

  /** After a command the service is in the state of the log up to it. */
  lemma ReachedAt(log: Log, base: nat, d: seq<ApplyMsg>, q: nat)
    requires base <= |log| && Continuous(base, d) && AllFit(log, d) && q < |d| && d[q].CommandMsg?
    ensures d[q].index <= |log| && Served(log, base, d[..q + 1]).state == Fold(OpsOf(log)[..d[q].index])
  {
    ContinuousPrefix(log, base, d, q + 1);
    Transparency(log, base, d[..q + 1]);
    assert d[..q + 1][..q] == d[..q];
  }

  // ---------------------------------------------------------------------
  // Which streams are continuous
  // ---------------------------------------------------------------------

  function Commands(msgs: seq<ApplyMsg>): seq<ApplyMsg> {
    if msgs == [] then [] else
    var last := |msgs| - 1;
    Commands(msgs[..last]) + if msgs[last].CommandMsg? then [msgs[last]] else []
  }

  /**
   `d` is what has been delivered of the messages `e` a peer has sent since it
   started at `base`.  Commands are sent by one goroutine and keep their order;
   each snapshot is sent by a goroutine of its own.
   */
  ghost predicate Delivery(e: seq<ApplyMsg>, d: seq<ApplyMsg>) {
    && Commands(d) <= Commands(e)
    && forall m :: m in d ==> m in e
  }

  /**
   No command beyond an installed snapshot overtakes it, and none it covers
   comes after it.  The snapshot sent at start-up, which is at `base`, may be
   overtaken.
   */
  ghost predicate SnapshotsInPlace(base: nat, e: seq<ApplyMsg>, d: seq<ApplyMsg>) {
    && (forall z, q :: z in e && z.SnapshotMsg? && z.index > base && 0 <= q < |d| && d[q].CommandMsg? && d[q].index > z.index ==>
      z in d[..q])
    && (forall p, q :: 0 <= p < q < |d| && d[p].SnapshotMsg? && d[q].CommandMsg? ==> d[q].index > d[p].index)
  }

  /** What a peer sends from a start at `base`: in order, with nothing below the start. */
  ghost predicate SentFrom(base: nat, e: seq<ApplyMsg>) {
    && InOrder(e)
    && (base > 0 ==> |e| > 0 && e[0].SnapshotMsg? && e[0].index == base)
    && forall m :: m in e && m.SnapshotMsg? ==> m.index >= base
  }

  lemma {:induction false} CommandsAt(msgs: seq<ApplyMsg>, q: nat)
    requires q < |msgs| && msgs[q].CommandMsg?
    ensures |Commands(msgs[..q])| < |Commands(msgs)| && Commands(msgs)[|Commands(msgs[..q])|] == msgs[q]
    decreases |msgs|
  {
    var last := |msgs| - 1;
    if q < last {
      CommandsAt(msgs[..last], q);
      assert msgs[..last][..q] == msgs[..q];
    }
  }

  lemma {:induction false} CommandsIn(msgs: seq<ApplyMsg>, c: nat) returns (q: nat)
    requires c < |Commands(msgs)|
    ensures q < |msgs| && msgs[q] == Commands(msgs)[c] && msgs[q].CommandMsg? && |Commands(msgs[..q])| == c
    decreases |msgs|
  {
    var last := |msgs| - 1;
    if c < |Commands(msgs[..last])| {
      q := CommandsIn(msgs[..last], c);
      assert msgs[..last][..q] == msgs[..q];
    } else {
      q := last;
    }
  }

  lemma {:induction false} HighestBounds(base: nat, msgs: seq<ApplyMsg>, q: nat)
    requires q < |msgs|
    ensures Highest(base, msgs) >= base && msgs[q].index <= Highest(base, msgs)
    decreases |msgs|
  {
    var last := |msgs| - 1;
    if q < last {
      HighestBounds(base, msgs[..last], q);
    } else {
      HighestAtLeast(base, msgs[..last]);
    }
  }

  lemma {:induction false} HighestAtLeast(base: nat, msgs: seq<ApplyMsg>)
    ensures Highest(base, msgs) >= base
  {
    if msgs != [] { HighestAtLeast(base, msgs[..|msgs| - 1]); }
  }

  lemma {:induction false} HighestBelow(base: nat, msgs: seq<ApplyMsg>, bound: nat)
    requires base <= bound && forall q :: 0 <= q < |msgs| ==> msgs[q].index <= bound
    ensures Highest(base, msgs) <= bound
  {
    if msgs != [] { HighestBelow(base, msgs[..|msgs| - 1], bound); }
  }

  /** Where the peer sent the command delivered at `q`. */
  lemma SentAt(e: seq<ApplyMsg>, d: seq<ApplyMsg>, q: nat) returns (p: nat)
    requires Delivery(e, d) && q < |d| && d[q].CommandMsg?
    ensures p < |e| && e[p] == d[q] && |Commands(e[..p])| == |Commands(d[..q])|
  {
    CommandsAt(d, q);
    p := CommandsIn(e, |Commands(d[..q])|);
  }

  lemma {:induction false} CommandsGrow(msgs: seq<ApplyMsg>, p: nat, q: nat)
    requires p <= q <= |msgs|
    ensures |Commands(msgs[..p])| <= |Commands(msgs[..q])|
    decreases q
  {
    if p < q {
      CommandsGrow(msgs, p, q - 1);
      assert msgs[..q][..q - 1] == msgs[..q - 1];
    }
  }

  /** Commands sent earlier have lower indices, and the level before a command is at least the start. */
  lemma LevelBounds(base: nat, e: seq<ApplyMsg>, p: nat)
    requires SentFrom(base, e) && p < |e| && e[p].CommandMsg?
    ensures Level(e[..p]) >= base
  {
    if base > 0 {
      LevelRises(e, 1, p);
      assert e[..1][..0] == [];
      assert Level(e[..1]) == base;
    }
  }

  lemma EarlierCommand(e: seq<ApplyMsg>, o: nat, p: nat)
    requires InOrder(e) && o < |e| && p < |e| && e[o].CommandMsg? && |Commands(e[..o])| < |Commands(e[..p])|
    ensures o < p && e[o].index <= Level(e[..p])
  {
    if p <= o { CommandsGrow(e, p, o); }
    LevelRises(e, o + 1, p);
    assert e[..o + 1][..o] == e[..o];
  }

  /** Nothing delivered before a command is at or beyond it. */
  lemma DeliveredBelow(base: nat, e: seq<ApplyMsg>, d: seq<ApplyMsg>, q: nat, p: nat)
    requires SentFrom(base, e) && Delivery(e, d) && SnapshotsInPlace(base, e, d)
    requires q < |d| && d[q].CommandMsg? && p < |e| && e[p] == d[q] && |Commands(e[..p])| == |Commands(d[..q])|
    ensures Highest(base, d[..q]) <= Level(e[..p])
  {
    LevelBounds(base, e, p);
    forall j | 0 <= j < q ensures d[..q][j].index <= Level(e[..p]) {
      if d[j].CommandMsg? {
        var o := SentAt(e, d, j);
        CommandsAt(d[..q], j);
        assert d[..q][..j] == d[..j];
        EarlierCommand(e, o, p);
      }
    }
    HighestBelow(base, d[..q], Level(e[..p]));
  }

  /** Everything sent up to a command has been reached when it is delivered. */
  lemma DeliveredReaches(base: nat, e: seq<ApplyMsg>, d: seq<ApplyMsg>, q: nat, p: nat)
    requires SentFrom(base, e) && Delivery(e, d) && SnapshotsInPlace(base, e, d)
    requires q < |d| && d[q].CommandMsg? && p < |e| && e[p] == d[q] && |Commands(e[..p])| == |Commands(d[..q])|
    ensures Highest(base, d[..q]) >= Level(e[..p])
  {
    var level := Level(e[..p]);
    HighestAtLeast(base, d[..q]);
    if level > base {
      LevelReached(e, p);
      var o :| 0 <= o < p && e[o].index == level;
      if e[o].CommandMsg? {
        CommandsAt(e[..p], o);
        assert e[..p][..o] == e[..o];
        var c := |Commands(e[..o])|;
        CommandsAt(e, o);
        DeliveredPrefix(e, d, q);
        var j := CommandsIn(d[..q], c);
        HighestBounds(base, d[..q], j);
      } else {
        assert e[o] in d[..q];
        var j :| 0 <= j < q && d[..q][j] == e[o];
        HighestBounds(base, d[..q], j);
      }
    }
  }

  lemma {:induction false} CommandsPrefix(msgs: seq<ApplyMsg>, q: nat)
    requires q <= |msgs|
    ensures Commands(msgs[..q]) <= Commands(msgs)
    decreases |msgs|
  {
    var last := |msgs| - 1;
    if q <= last {
      CommandsPrefix(msgs[..last], q);
      assert msgs[..last][..q] == msgs[..q];
    } else {
      assert msgs[..q] == msgs;
    }
  }

  lemma DeliveredPrefix(e: seq<ApplyMsg>, d: seq<ApplyMsg>, q: nat)
    requires Delivery(e, d) && q <= |d|
    ensures Commands(d[..q]) <= Commands(e)
  {
    CommandsPrefix(d, q);
  }

  /** If snapshots arrive in place, what is delivered is continuous. */
  lemma InPlaceIsContinuous(base: nat, e: seq<ApplyMsg>, d: seq<ApplyMsg>)
    requires SentFrom(base, e) && Delivery(e, d) && SnapshotsInPlace(base, e, d)
    ensures Continuous(base, d)
  {
    forall q | 0 <= q < |d|
      ensures if d[q].CommandMsg? then d[q].index == Highest(base, d[..q]) + 1 else d[q].index >= base
    {
      if d[q].CommandMsg? {
        var p := SentAt(e, d, q);
        DeliveredBelow(base, e, d, q, p);
        DeliveredReaches(base, e, d, q, p);
      } else {
        assert d[q] in e;
      }
    }
  }

  /** Commands delivered in the order they are sent reach the applier with indices rising, wherever snapshots fall. */
  lemma DeliveryRises(e: seq<ApplyMsg>, d: seq<ApplyMsg>)
    requires InOrder(e) && Delivery(e, d)
    ensures Rising(ReadAll(d))
  {
    var msgs := ReadAll(d);
    forall i, j | 0 <= i <= j < |msgs| && msgs[j].Command?
      ensures msgs[j].index > 0 && (i < j && msgs[i].Command? ==> msgs[i].index < msgs[j].index)
    {
      var p := SentAt(e, d, j);
      if i < j && msgs[i].Command? { DeliveredEarlier(e, d, i, j, p); }
    }
  }

  lemma DeliveredEarlier(e: seq<ApplyMsg>, d: seq<ApplyMsg>, i: nat, j: nat, p: nat)
    requires InOrder(e) && Delivery(e, d) && i < j < |d| && d[i].CommandMsg? && d[j].CommandMsg?
    requires p < |e| && e[p] == d[j] && |Commands(e[..p])| == |Commands(d[..j])|
    ensures d[i].index < d[j].index
  {
    var o := SentAt(e, d, i);
    CommandsAt(d[..j], i);
    assert d[..j][..i] == d[..i];
    EarlierCommand(e, o, p);
  }

  /** What is delivered continuously reaches the applier with command indices rising. */
  lemma ContinuousRises(base: nat, d: seq<ApplyMsg>)
    requires Continuous(base, d)
    ensures Rising(ReadAll(d))
  {
    var msgs := ReadAll(d);
    forall i, j | 0 <= i <= j < |msgs| && msgs[j].Command?
      ensures msgs[j].index > 0 && (i < j && msgs[i].Command? ==> msgs[i].index < msgs[j].index)
    {
      if i < j {
        HighestBounds(base, d[..j], i);
        assert d[..j][i] == d[i];
      }
    }
  }

  lemma PutThenAppend(a: Op, b: Op)
    requires a.kind == "Put" && b.kind == "Append" && a.key == b.key && a.value != "" && a.clientId != b.clientId
    ensures ApplyOp(EMPTY, b).0.kvStore != ApplyOp(ApplyOp(EMPTY, a).0, b).0.kvStore
  {
    var st := ApplyOp(EMPTY, a).0;
    assert Execute(map[], a).0 == map[a.key := a.value];
    assert ApplyOp(EMPTY, b).0.kvStore[b.key] == "" + b.value;
    assert ApplyOp(st, b).0.kvStore[b.key] == a.value + b.value;
    assert |"" + b.value| < |a.value + b.value|;
  }

  lemma OvertakenStream(z: ApplyMsg, m: ApplyMsg)
    requires z.SnapshotMsg? && z.index == 1 && m.CommandMsg? && m.index == 2
    ensures SentFrom(0, [z, m]) && Delivery([z, m], [m, z]) && Highest(0, [m, z]) == 2
  {
    var e, d := [z, m], [m, z];
    assert e[..1] == [z] && d[..1] == [m] && [z][..0] == [] && [m][..0] == [] && e[..0] == [];
    assert Commands([]) == [] && Level([]) == 0;
    assert Level([z]) == 1 && Commands([z]) == [] + [] && Commands([m]) == [] + [m] && Highest(0, [m]) == 2;
    assert Commands(e) == [] + [m] && Commands(d) == [m] + [];
  }

  lemma OvertakenState(log: Log, z: ApplyMsg, m: ApplyMsg)
    requires z.SnapshotMsg? && z.index == 1 && m.CommandMsg? && m.index == 2
    ensures Served(log, 0, [m, z]).state == ApplyOp(EMPTY, OpOf(m.command)).0
  {
    var d := [m, z];
    assert d[..1] == [m] && [m][..0] == [];
    ServedNext(log, 0, d);
    ServedNext(log, 0, [m]);
    assert OpsOf(log)[..0] == [] && ReadAll([]) == [];
  }

  lemma FoldTwo(ops: seq<Op>)
    requires |ops| == 2
    ensures Fold(ops) == ApplyOp(ApplyOp(EMPTY, ops[0]).0, ops[1]).0
  {
    FoldNext(ops, 0);
    FoldNext(ops, 1);
    assert ops[..0] == [] && ops[..2] == ops;
  }

  /**
   Snapshots must be in place: a command that overtakes the snapshot before it
   is applied to the wrong state, and the snapshot then comes too late.
   */
  lemma OvertakenSnapshotIsLost(log: Log, z: ApplyMsg, m: ApplyMsg)
    requires |log| == 2 && log[0].command.Cmd? && log[1].command.Cmd?
    requires var a, b := log[0].command.op, log[1].command.op;
      a.kind == "Put" && b.kind == "Append" && a.key == b.key && a.value != "" && a.clientId != b.clientId
    requires z == SnapshotMsg(log[..1], log[0].term, 1) && m == CommandMsg(log[1].command, 2)
    ensures SentFrom(0, [z, m]) && AllFit(log, [z, m]) && Delivery([z, m], [m, z]) && Highest(0, [m, z]) == 2
    ensures Served(log, 0, [m, z]).state != Fold(OpsOf(log))
  {
    OvertakenStream(z, m);
    OvertakenState(log, z, m);
    FoldTwo(OpsOf(log));
    PutThenAppend(log[0].command.op, log[1].command.op);
  }
}
