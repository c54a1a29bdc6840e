/** The server object over one life of its peer: what it holds, and what its handlers return. */
module KvService {
  import opened Options
  import opened RaftTypes
  import opened RaftPeer
  import opened RaftPeerFacts
  import opened RaftNode
  import opened RaftTheorems
  import opened KvMachine
  import opened KvDesk
  import opened KvServer
  import opened KvDelivery
  import opened KvRuns
  import C = Cluster

  lemma StartedPeer(n: nat, steps: seq<C.Step>, i: nat, r: nat)
    requires i < n && OneLife(n, steps, i, r, r)
    ensures var x := C.After(n, steps[..r]).servers[i]; x == Make(i, n, x.raftState, x.snapshot)
  {
    if r == 0 {
      assert steps[..0] == [];
    } else {
      AfterNext(n, steps, r - 1);
    }
  }

  /**
   A server started from the storage of peer `me` at moment `r`, and fed what
   that peer has delivered by moment `k`, whatever requests do meanwhile, is in
   the state of the log up to the highest index delivered.
   */
  method ServeLife(
    peers: nat, me: nat, persister: Persister, maxraftstate: int, msgs: seq<ServiceMsg>, sizes: seq<int>,
    acts: seq<(seq<Act>, seq<Act>)>,
    ghost steps: seq<C.Step>, ghost log: Log, ghost r: nat, ghost k: nat, ghost d: seq<ApplyMsg>)
    returns (kv: KVServer, snapshots: seq<Option<(nat, KvState)>>)
    requires me < peers && LogOfRun(peers, steps, log)
    requires OneLife(peers, steps, me, r, k) && DeliveredAt(peers, steps, me, r, k, d)
    requires var x := C.After(peers, steps[..r]).servers[me];
      persister.raftState == x.raftState && persister.snapshot == x.snapshot
    requires msgs == ReadAll(d) && |sizes| == |acts| == |msgs|
    ensures fresh(kv) && kv.Valid() && kv.start == StoredAt(peers, steps, me, r) && kv.heard == ReadAll(d)
    ensures kv.rf.View() == C.After(peers, steps[..r]).servers[me]
    ensures var base := BaseAt(peers, steps, me, r); Faithful(log, base, Highest(base, d), kv.View())
  {
    kv := new KVServer(peers, me, persister, maxraftstate);
    StartedPeer(peers, steps, me, r);
    ContinuousRises(BaseAt(peers, steps, me, r), d);
    assert kv.heard + msgs == msgs;
    snapshots := kv.Applier(msgs, sizes, acts, []);
    ServiceFollows(peers, steps, log, me, r, k, d);
  }

  /**
   A handler begins while its peer is as it is at moment `j` of the run.  If it
   is to wait, the run goes on with its command started, at the index and in
   the term it waits for; if it is answered at once, it gets the reply the log
   calls for to its client's latest command, which is numbered no lower.
   */
  method BeginOwn(kv: KVServer, cmd: Op, ghost n: nat, ghost steps: seq<C.Step>, ghost log: Log, ghost i: nat, ghost j: nat,
                  ghost base: nat, ghost reached: nat)
    returns (r: Began)
    requires i < n && j < |steps| && kv.rf.View() == C.After(n, steps[..j]).servers[i]
    requires kv.rf.role == Leader && !Suppressed(kv.State(), cmd) ==> steps[j] == C.ClientStart(i, Cmd(cmd))
    requires Faithful(log, base, reached, kv.View())
    modifies kv.rf, kv.rf.persister
    ensures r.Waiting? ==> Issued(n, steps, i, j, cmd, r.index, r.startTerm)
    ensures r.Waiting? ==> kv.rf.View() == C.After(n, steps[..j + 1]).servers[i]
    ensures r.Answered? ==> Recalled(OpsOf(log)[..reached], cmd, r.reply)
  {
    C.PeerWF(n, steps[..j], i);
    LastFacts(kv.rf.View());
    AfterNext(n, steps, j);
    r := kv.Begin(cmd);
  }

  /**
   A handler that started `op` and collects a reply from its channel while its
   peer is as it is at moment `k` of the run, its service having been told of
   `d`: if the term check passes and no snapshot overtook it, it returns the
   answer to `op`, which is the log's command at that index; and if commands
   were told of in turn, the result of `op` at its place in the log.
   */
  method CollectOwn(
    kv: KVServer, ch: Channel, startTerm: nat,
    ghost n: nat, ghost steps: seq<C.Step>, ghost log: Log, ghost i: nat, ghost r: nat, ghost j: nat, ghost op: Op,
    ghost k: nat, ghost d: seq<ApplyMsg>)
    returns (opreply: OpReply, err: string, ghost q: nat)
    requires kv.Valid() && ch in kv.chans
    requires Orderly(n, steps) && LogOfRun(n, steps, log) && Issued(n, steps, i, j, op, ch.index, startTerm)
    requires j < k && OneLife(n, steps, i, r, k) && HandedOver(n, steps, i, k, d)
    requires kv.start == StoredAt(n, steps, i, r) && kv.heard == ReadAll(d)
    requires kv.rf.View() == C.After(n, steps[..k]).servers[i]
    modifies ch`buffer
    ensures kv.Valid()
    ensures err == OK && opreply != OVERTAKEN ==>
      AnswerTo(kv.start, d, q, op, ch.index, opreply) && ch.index <= |log| && OpsOf(log)[ch.index - 1] == op
    ensures err == OK && opreply != OVERTAKEN && Continuous(BaseAt(n, steps, i, r), d) ==>
      opreply == ReplyAt(OpsOf(log), ch.index - 1)
  {
    opreply, err := kv.Collect(ch, startTerm);
    q := 0;
    if err == OK && opreply != OVERTAKEN {
      assert |OK| != |ERR_TIME_OUT| && |OK| != |ERR_WRONG_LEADER|;
      assert C.After(n, steps[..k]).servers[i].role == Leader;
      q := OwnResult(n, steps, log, i, r, j, op, ch.index, startTerm, k, k, d, opreply);
    }
  }
}
