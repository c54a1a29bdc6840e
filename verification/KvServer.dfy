/**
 The key/value server: the applier, the four state machine handlers, the
 snapshot it restores, and the handshake between the applier and the request
 handlers that wait for it.  Each method is a step of `KvDesk`, about which
 the theorems over all orders of steps are proved.
 */
module KvServer {
  import opened Options
  import opened Collections
  import opened RaftTypes
  import opened RaftPeer
  import opened RaftPeerFacts
  import opened RaftNode
  import opened KvMachine
  import opened KvDesk

  /** Raft's stored state has outgrown the limit, if there is one. */
  predicate Outgrown(limit: int, size: int) {
    limit != -1 && size > limit
  }

  /**
   What is handed to raft as a snapshot after the `j`th message: the state a
   command led to, under its index, if that left raft's stored state outgrown.
   */
  ghost function Encoded(sv: Service, msgs: seq<ServiceMsg>, limit: int, sizes: seq<int>, j: nat): Option<(nat, KvState)>
    requires j < |msgs| <= |sizes|
  {
    if msgs[j].Command? && Outgrown(limit, sizes[j]) then Some((msgs[j].index, Serve(sv, msgs[..j + 1]).state)) else None
  }

  ghost predicate RecalledAt(ops: seq<Op>, cmd: Op, reply: OpReply, p: nat) {
    && p < |ops| && ops[p].clientId == cmd.clientId && ops[p].seqId >= cmd.seqId && reply == ReplyAt(ops, p)
    && forall q :: p < q < |ops| ==> ops[q].clientId != cmd.clientId
  }

  /** `reply` answers `cmd` from the record: it is the reply to the client's latest command, numbered no lower. */
  ghost predicate Recalled(ops: seq<Op>, cmd: Op, reply: OpReply) {
    exists p: nat :: RecalledAt(ops, cmd, reply, p)
  }

  lemma RecordRecalls(st: KvState, cmd: Op)
    requires Suppressed(st, cmd)
    ensures forall ops :: Fold(ops) == st ==> Recalled(ops, cmd, st.recordMap[cmd.clientId].lastReply)
  {
    forall ops | Fold(ops) == st ensures Recalled(ops, cmd, st.recordMap[cmd.clientId].lastReply) {
      var p := RecordedReply(ops, cmd);
      assert RecalledAt(ops, cmd, st.recordMap[cmd.clientId].lastReply, p);
    }
  }

  /** What a request may do while the applier is at work. */
  datatype Act =
    | Joins(index: nat)                                  // waits on a new channel
    | Reads(which: nat, startTerm: nat)                  // reads a channel it waits on
    | Leaves(index: nat, opreply: OpReply, err: string)  // clears the slot of an index

  datatype Began =
    | Answered(reply: OpReply)              // a repeat, answered from the record
    | Refused(leaderId: int)                // not the leader
    | Waiting(index: nat, startTerm: nat)   // started in the log

  class KVServer {
    const me: nat
    const maxraftstate: int
    const rf: Raft
    var commitIndex: nat
    var leaderId: int
    var kvStore: map<string, string>
    var recordMap: map<int, LastOpRecord>
    var notifyChans: map<nat, Channel>

    ghost var start: Service                  // the service as it was started
    ghost var heard: seq<ServiceMsg>          // what the applier has taken in since
    ghost var chans: set<Channel>             // every channel ever made
    ghost var due: Option<(nat, OpReply)>     // a command applied whose waiter has still to be told
    ghost var sent: nat                       // the last index a waiter was looked up for

    ghost function State(): KvState
      reads this
    {
      KvState(kvStore, recordMap)
    }

    ghost function View(): Service
      reads this
    {
      Service(State(), commitIndex)
    }

    /** The server and its waiters as a value. */
    ghost function Front(): Desk
      reads this, chans
    {
      Desk(View(), heard, notifyChans, map ch | ch in chans :: ch.buffer, due, sent)
    }

    ghost predicate Valid()
      reads this, chans
    {
      Steady(start, Front())
    }

    /** Starts the server and its raft peer from what storage holds; a stored snapshot is restored. */
    constructor (peers: nat, me: nat, persister: Persister, maxraftstate: int)
      requires me < peers
      ensures this.me == me && this.maxraftstate == maxraftstate && fresh(rf) && rf.persister == persister
      ensures rf.View() == Make(me, peers, persister.raftState, persister.snapshot)
      ensures Valid() && start == Service(Fold(OpsOf(persister.snapshot)), 0) && Front() == Opened(start)
      ensures chans == {}
    {
      this.me, this.maxraftstate := me, maxraftstate;
      rf := new Raft(peers, me, persister);
      commitIndex, leaderId := 0, 0;
      kvStore, recordMap, notifyChans := map[], map[], map[];
      chans, heard, due, sent := {}, [], None, 0;
      new;
      if |persister.snapshot| > 0 {
        RestoreSnapshot(Some(Fold(OpsOf(persister.snapshot))));
      }
      start := View();
      assert Front().buffers == map[];
      OpenedSteady(start);
    }

    // -------------------------------------------------------------------
    // The state machine
    // -------------------------------------------------------------------

    method GetHandler(cmd: Op) returns (reply: OpReply)
      ensures cmd.kind == "Get" ==> (kvStore, reply) == Execute(kvStore, cmd)
    {
      if cmd.key in kvStore {
        reply := OpReply(OK, kvStore[cmd.key]);
      } else {
        reply := OpReply(ERR_NO_KEY, "");
      }
    }

    method PutHandler(cmd: Op) returns (reply: OpReply)
      modifies this`kvStore
      ensures cmd.kind == "Put" ==> (kvStore, reply) == Execute(old(kvStore), cmd)
    {
      kvStore := kvStore[cmd.key := cmd.value];
      reply := OpReply(OK, "");
    }

    method DeleteHandler(cmd: Op) returns (reply: OpReply)
      modifies this`kvStore
      ensures cmd.kind == "Delete" ==> (kvStore, reply) == Execute(old(kvStore), cmd)
    {
      kvStore := kvStore - {cmd.key};
      reply := OpReply(OK, "");
    }

    method AppendHandler(cmd: Op) returns (reply: OpReply)
      modifies this`kvStore
      ensures cmd.kind == "Append" ==> (kvStore, reply) == Execute(old(kvStore), cmd)
    {
      kvStore := kvStore[cmd.key := Lookup(kvStore, cmd.key) + cmd.value];
      reply := OpReply(OK, "");
    }

    method ApplyToStateMachine(cmd: Op) returns (reply: OpReply)
      modifies this`kvStore
      ensures (kvStore, reply) == Execute(old(kvStore), cmd)
    {
      if cmd.kind == "Get" {
        reply := GetHandler(cmd);
      } else if cmd.kind == "Put" {
        reply := PutHandler(cmd);
      } else if cmd.kind == "Append" {
        reply := AppendHandler(cmd);
      } else if cmd.kind == "Delete" {
        reply := DeleteHandler(cmd);
      } else {
        reply := OpReply("", "");
      }
    }

    method RestoreSnapshot(data: Option<KvState>)
      modifies this`kvStore, this`recordMap
      ensures State() == if data.Some? then data.value else old(State())
    {
      if data.Some? {
        kvStore := data.value.kvStore;
        recordMap := data.value.recordMap;
      }
    }

    // -------------------------------------------------------------------
    // The applier
    // -------------------------------------------------------------------

    /** Applies a command.  `raftStateSize` is what raft's stored state has grown to. */
    method ApplyCommand(cmd: Op, idx: nat, raftStateSize: int) returns (reply: OpReply, snapshot: Option<(nat, KvState)>)
      requires Valid() && due == None && Rising(heard + [Command(cmd, idx)])
      modifies this`commitIndex, this`kvStore, this`recordMap, this`heard, this`due
      ensures Valid() && Front() == Step(old(Front()), Deliver(Command(cmd, idx)))
      ensures due == Some((idx, reply))
      ensures snapshot == if Outgrown(maxraftstate, raftStateSize) then Some((idx, State())) else None
    {
      StepSteady(start, Front(), Deliver(Command(cmd, idx)));
      commitIndex := idx;
      if cmd.clientId in recordMap && recordMap[cmd.clientId].lastSeqId >= cmd.seqId {
        reply := recordMap[cmd.clientId].lastReply;
      } else {
        reply := ApplyToStateMachine(cmd);
      }
      recordMap := recordMap[cmd.clientId := LastOpRecord(cmd.seqId, reply)];
      snapshot := None;
      if maxraftstate != -1 && raftStateSize > maxraftstate {
        snapshot := Some((commitIndex, KvState(kvStore, recordMap)));
      }
      heard, due := heard + [Command(cmd, idx)], Some((idx, reply));
      assert Front().buffers == old(Front()).buffers;
    }

    /** Answers whoever waits for the command just applied: the send never finds the channel full. */
    method Notify(idx: nat, reply: OpReply)
      requires Valid() && due == Some((idx, reply))
      modifies this`due, this`sent, chans`buffer
      ensures Valid() && Front() == Step(old(Front()), Send) && due == None
      ensures idx in notifyChans ==> old(notifyChans[idx].buffer) == None && notifyChans[idx].buffer == Some(reply)
      ensures forall ch :: ch in chans && !(idx in notifyChans && notifyChans[idx] == ch) ==> ch.buffer == old(ch.buffer)
    {
      QuietSteady(start, Front(), Send);
      SlotHasRoom(start, Front());
      if idx in notifyChans {
        var ch := notifyChans[idx];
        ch.buffer := Some(reply);
      }
      due, sent := None, idx;
      assert Front().buffers == Step(old(Front()), Send).buffers;
    }

    /** Takes a snapshot that is ahead, and turns away everyone who can still be told. */
    method ApplySnapshot(data: Option<KvState>, index: nat)
      requires Valid() && due == None
      modifies this`commitIndex, this`kvStore, this`recordMap, this`notifyChans, this`heard, chans`buffer
      ensures Valid() && Front() == Step(old(Front()), Deliver(Snapshot(data, index)))
      ensures commitIndex == Max(index, old(commitIndex))
      ensures State() == if index > old(commitIndex) && data.Some? then data.value else old(State())
    {
      ghost var from := Front();
      QuietSteady(start, from, Deliver(Snapshot(data, index)));
      SlotsAreKnown(start, from);
      heard := heard + [Snapshot(data, index)];
      if index > commitIndex {
        commitIndex := index;
        RestoreSnapshot(data);
        assert Front().buffers == from.buffers;
        ghost var mid := from.(sv := ServeOne(from.sv, Snapshot(data, index)), heard := heard);
        assert Front() == mid;
        DismissAll();
        assert Front() == KvDesk.TurnAway(mid);
      } else {
        assert Front().buffers == from.buffers;
      }
      assert Front() == Step(from, Deliver(Snapshot(data, index)));
    }

    /** Turns away everyone who can still be told, and clears their slots. */
    method DismissAll()
      requires SlotsKnown(Front())
      modifies this`notifyChans, chans`buffer
      ensures Front() == KvDesk.TurnAway(old(Front()))
    {
      var toDelete := TurnAway();
      notifyChans := notifyChans - toDelete;
      assert Front().buffers == KvDesk.TurnAway(old(Front())).buffers;
      assert Front().slots == KvDesk.TurnAway(old(Front())).slots;
    }

    /** Tells every waiter not yet answered that it was overtaken. */
    method TurnAway() returns (toDelete: set<nat>)
      requires SlotsKnown(Front())
      modifies chans`buffer
      ensures forall i: nat :: i in toDelete <==> i in notifyChans && old(notifyChans[i].buffer) == None
      ensures forall ch :: ch in chans ==>
        ch.buffer == if Listed(Front(), ch) && old(ch.buffer) == None then Some(OVERTAKEN) else old(ch.buffer)
    {
      toDelete := {};
      var rest := notifyChans.Keys;
      while rest != {}
        invariant rest <= notifyChans.Keys
        invariant forall i: nat :: i in toDelete <==> i in notifyChans && i !in rest && old(notifyChans[i].buffer) == None
        invariant forall ch :: ch in chans ==>
          ch.buffer == if Listed(old(Front()), ch) && ch.index !in rest && old(ch.buffer) == None then Some(OVERTAKEN) else old(ch.buffer)
        decreases |rest|
      {
        var i :| i in rest;
        rest := rest - {i};
        var ch := notifyChans[i];
        if ch.buffer == None {
          ch.buffer := Some(OVERTAKEN);
          toDelete := toDelete + {i};
        }
      }
    }

    // -------------------------------------------------------------------
    // Requests
    // -------------------------------------------------------------------

    /**
     The first part of every request handler.  A request whose client has been
     answered for it or a later one gets that answer again and never reaches
     raft; any other is at the end of the peer's log, at the index and in the
     term to wait for, unless the peer is no leader.
     */
    method Begin(cmd: Op) returns (r: Began)
      requires WF(rf.View())
      modifies rf, rf.persister
      ensures r.Answered? <==> Suppressed(State(), cmd)
      ensures r.Answered? ==> r.reply == recordMap[cmd.clientId].lastReply
      ensures r.Answered? ==> forall ops :: Fold(ops) == State() ==> Recalled(ops, cmd, r.reply)
      ensures r.Refused? <==> !Suppressed(State(), cmd) && old(rf.role) != Leader
      ensures r.Refused? ==> r.leaderId == leaderId
      ensures !r.Waiting? ==> rf.View() == old(rf.View())
      ensures r.Waiting? ==> rf.View() == RaftPeer.Start(old(rf.View()), Cmd(cmd)) && r.startTerm == rf.currTerm
      ensures r.Waiting? ==> |rf.logs| > 0 && r.index == |Full(rf.View())|
      ensures r.Waiting? ==> Full(rf.View()) == old(Full(rf.View())) + [LogEntry(r.startTerm, Cmd(cmd))]
    {
      if cmd.clientId in recordMap && cmd.seqId <= recordMap[cmd.clientId].lastSeqId {
        RecordRecalls(State(), cmd);
        return Answered(recordMap[cmd.clientId].lastReply);
      }
      var index, startTerm, isLeader := rf.Start(Cmd(cmd));
      if !isLeader {
        return Refused(leaderId);
      }
      StartFacts(old(rf.View()), Cmd(cmd));
      r := Waiting(index, startTerm);
    }

    /** Takes the place of whoever else waits for the index. */
    method Register(index: nat) returns (ch: Channel)
      requires Valid()
      modifies this`notifyChans, this`chans
      ensures Valid() && fresh(ch) && ch.index == index && chans == old(chans) + {ch}
      ensures Front() == Step(old(Front()), Join(ch))
      ensures notifyChans == old(notifyChans)[index := ch] && ch.buffer == None
    {
      ch := new Channel(index);
      QuietSteady(start, Front(), Join(ch));
      notifyChans := notifyChans[index := ch];
      chans := chans + {ch};
      assert Front().buffers == Step(old(Front()), Join(ch)).buffers;
    }

    /**
     Waits for the reply; nothing in the channel means the wait timed out.  What
     is returned as a result is that of the command heard at the index waited
     for, or word of having been overtaken.
     */
    method Collect(ch: Channel, startTerm: nat) returns (opreply: OpReply, err: string)
      requires Valid() && ch in chans
      modifies ch`buffer
      ensures Valid() && Front() == Step(old(Front()), Take(ch))
      ensures ch.buffer == None && opreply == if old(ch.buffer) == None then OpReply("", "") else old(ch.buffer).value
      ensures err == if old(ch.buffer) == None then ERR_TIME_OUT
        else if rf.role == Leader && rf.currTerm == startTerm then OK else ERR_WRONG_LEADER
      ensures err == OK && opreply != OVERTAKEN ==> Replied(start, heard, ch.index, opreply)
    {
      ghost var from := Front();
      QuietSteady(start, from, Take(ch));
      if ch.buffer == None {
        assert from.buffers[ch := None] == from.buffers;
        return OpReply("", ""), ERR_TIME_OUT;
      }
      opreply := ch.buffer.value;
      HeldGood(start, from, ch);
      ch.buffer := None;
      assert Front().buffers == from.buffers[ch := None];
      var currTerm, isLeader := rf.GetState();
      assert Front() == Step(from, Take(ch));
      assert Steady(start, Front());
      if !isLeader || currTerm != startTerm {
        return opreply, ERR_WRONG_LEADER;
      }
      err := OK;
    }

    /** The last part of every request handler. */
    method Finish(index: nat, opreply: OpReply, err: string) returns (reply: OpReply)
      requires Valid()
      modifies this`notifyChans, this`leaderId
      ensures Valid() && Front() == Step(old(Front()), Leave(index)) && notifyChans == old(notifyChans) - {index}
      ensures reply == if err == OK then opreply else OpReply(err, "")
      ensures leaderId == if err == OK then me else old(leaderId)
    {
      QuietSteady(start, Front(), Leave(index));
      notifyChans := notifyChans - {index};
      if err == OK {
        reply := opreply;
        leaderId := me;
      } else {
        reply := OpReply(err, "");
      }
      assert Front().buffers == old(Front()).buffers;
    }

    // -------------------------------------------------------------------
    // The applier among requests
    // -------------------------------------------------------------------

    /** Requests act, in any way and number; `waiting` are the channels they wait on. */
    method Others(acts: seq<Act>, waiting: seq<Channel>) returns (waiting': seq<Channel>)
      requires Valid() && forall ch :: ch in waiting ==> ch in chans
      modifies this`notifyChans, this`chans, this`leaderId, chans`buffer
      ensures Valid() && old(chans) <= chans && fresh(chans - old(chans)) && forall ch :: ch in waiting' ==> ch in chans
    {
      waiting' := waiting;
      for a := 0 to |acts|
        invariant Valid() && old(chans) <= chans && fresh(chans - old(chans)) && forall ch :: ch in waiting' ==> ch in chans
      {
        match acts[a]
        case Joins(index) =>
          var ch := Register(index);
          waiting' := waiting' + [ch];
        case Reads(which, startTerm) =>
          if which < |waiting'| {
            var opreply, err := Collect(waiting'[which], startTerm);
          }
        case Leaves(index, opreply, err) =>
          var reply := Finish(index, opreply, err);
      }
    }

    /** One message off raft's channel.  The lock is free while raft takes a snapshot, before the waiter is told. */
    method ApplyOne(m: ServiceMsg, size: int, acts: seq<Act>, waiting: seq<Channel>)
      returns (snapshot: Option<(nat, KvState)>, waiting': seq<Channel>)
      requires Valid() && due == None && Rising(heard + [m]) && forall ch :: ch in waiting ==> ch in chans
      modifies this, chans`buffer
      ensures Valid() && due == None && heard == old(heard) + [m] && start == old(start) && View() == ServeOne(old(View()), m)
      ensures old(chans) <= chans && fresh(chans - old(chans)) && forall ch :: ch in waiting' ==> ch in chans
      ensures snapshot == if m.Command? && Outgrown(maxraftstate, size) then Some((m.index, State())) else None
    {
      match m
      case Command(cmd, idx) =>
        var reply;
        reply, snapshot := ApplyCommand(cmd, idx, size);
        waiting' := Others(acts, waiting);
        Notify(idx, reply);
      case Snapshot(data, index) =>
        ApplySnapshot(data, index);
        snapshot, waiting' := None, waiting;
    }

    /** Requests act, and then the applier takes in a message. */
    method Round(m: ServiceMsg, size: int, acts: (seq<Act>, seq<Act>), waiting: seq<Channel>)
      returns (snapshot: Option<(nat, KvState)>, waiting': seq<Channel>)
      requires Valid() && due == None && Rising(heard + [m]) && forall ch :: ch in waiting ==> ch in chans
      modifies this, chans`buffer
      ensures Valid() && due == None && heard == old(heard) + [m] && start == old(start) && View() == ServeOne(old(View()), m)
      ensures old(chans) <= chans && fresh(chans - old(chans)) && forall ch :: ch in waiting' ==> ch in chans
      ensures snapshot == if m.Command? && Outgrown(maxraftstate, size) then Some((m.index, State())) else None
    {
      waiting' := Others(acts.0, waiting);
      snapshot, waiting' := ApplyOne(m, size, acts.1, waiting');
    }

    /** The applier's loop over what raft delivers, with requests acting before each message and while raft takes a snapshot. */
    method Applier(msgs: seq<ServiceMsg>, sizes: seq<int>, acts: seq<(seq<Act>, seq<Act>)>, waiting: seq<Channel>)
      returns (snapshots: seq<Option<(nat, KvState)>>)
      requires Valid() && due == None && Rising(heard + msgs) && |sizes| == |acts| == |msgs|
      requires forall ch :: ch in waiting ==> ch in chans
      modifies this, chans`buffer
      ensures Valid() && due == None && heard == old(heard) + msgs && start == old(start)
      ensures View() == Serve(old(View()), msgs) && |snapshots| == |msgs|
      ensures forall j :: 0 <= j < |msgs| ==> snapshots[j] == Encoded(old(View()), msgs, maxraftstate, sizes, j)
    {
      ghost var from := View();
      snapshots := [];
      var now := waiting;
      for j := 0 to |msgs|
        invariant Valid() && due == None && heard == old(heard) + msgs[..j] && start == old(start)
        invariant old(chans) <= chans && fresh(chans - old(chans)) && forall ch :: ch in now ==> ch in chans
        invariant View() == Serve(from, msgs[..j]) && |snapshots| == j
        invariant forall i :: 0 <= i < j ==> snapshots[i] == Encoded(from, msgs, maxraftstate, sizes, i)
      {
        assert msgs[..j + 1][..j] == msgs[..j];
        RisingNext(old(heard), msgs, j);
        var snapshot;
        snapshot, now := Round(msgs[j], sizes[j], acts[j], now);
        snapshots := snapshots + [snapshot];
      }
      assert msgs[..|msgs|] == msgs;
    }
  }
}
