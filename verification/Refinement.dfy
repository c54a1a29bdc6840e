/**
 Every run of the cluster is a run of Raft over whole logs: trimming the log,
 the offset indices, the merge loop of AppendEntries and both branches of
 InstallSnapshot come to the few steps of `Consensus`.
 */
module Refinement {
  import opened RaftTypes
  import opened RaftPeer
  import opened RaftPeerFacts
  import opened Consensus
  import opened ConsensusBasic
  import opened ConsensusSafety
  import opened ConsensusSteps
  import C = Cluster

  function Abs(s: Server): Replica
    requires |s.logs| > 0
  {
    Replica(s.currTerm, s.votedFor, s.role, Full(s), s.votes, s.commitIndex, s.lastIncludedIndex, s.matchIndex)
  }

  /** What a message in flight tells about the record. */
  ghost predicate PacketOK(s: State, m: C.Packet) {
    match m
    case VoteRequest(src, dst, args, log) =>
      && src != dst
      && args.candidateId == src
      && Ask(src, args.term, log) in s.asks
      && args.lastLogIndex == |log|
      && args.lastLogTerm == LastTerm(log)
    case VoteReply(src, dst, startTerm, reply) =>
      reply.voteGranted ==> (src, startTerm) in s.grants && s.grants[(src, startTerm)] == dst
    case AppendRequest(src, dst, args, log) =>
      Offer(args.term, log, args.leaderCommit) in s.offers && Carries(args, log)
    case AppendReply(src, dst, args, reply) =>
      reply.success ==> args.prevLogIndex + |args.entries| <= AckLen(s, src, args.term)
    case SnapshotRequest(src, dst, args) =>
      Snap(src, args.term, args.data) in s.snaps && SnapshotArgsOK(args)
    case SnapshotReply(src, dst, args, reply) =>
      Snap(dst, args.term, args.data) in s.snaps && SnapshotArgsOK(args)
  }

  ghost predicate PacketsOK(s: State, net: set<C.Packet>) {
    forall m :: m in net ==> PacketOK(s, m)
  }

  /** A peer's own bookkeeping agrees with the record. */
  ghost predicate ServerOK(s: State, x: Server) {
    && (forall t :: t in x.elected ==>
      t <= x.currTerm && (t == x.currTerm && x.role == Candidate ==> Majority(x.peers, x.votes)))
    && (forall m :: m in x.applyCh ==> MsgOK(s, m))
  }

  ghost predicate SnapSeen(s: State, data: Log) {
    exists src: nat, t: nat :: Snap(src, t, data) in s.snaps
  }

  /** What a peer handed to its service was recorded. */
  ghost predicate MsgOK(s: State, m: ApplyMsg) {
    match m
    case CommandMsg(command, index) => Applied(index, command) in s.applied
    case SnapshotMsg(data, _, index) => |data| == index && SnapSeen(s, data)
  }

  ghost predicate SimFor(c: C.Cluster, s: State, key: int)
    requires C.WFCluster(c) && |s.replicas| == |c.servers|
  {
    && (forall i :: 0 <= i < |c.servers| ==> s.replicas[i] == Abs(c.servers[i]) && ServerOK(s, c.servers[i]))
    && PacketsOK(s, c.net)
  }

  /** The record `s` describes the cluster `c`. */
  ghost predicate Sim(c: C.Cluster, s: State) {
    && C.WFCluster(c)
    && |s.replicas| == |c.servers|
    && forall key :: SimFor(c, s, key)
  }

  lemma PacketIs(c: C.Cluster, s: State, m: C.Packet)
    requires Sim(c, s) && m in c.net
    ensures PacketOK(s, m)
  {
    assert SimFor(c, s, 0);
  }

  lemma PeerIs(c: C.Cluster, s: State, i: nat)
    requires Sim(c, s) && i < |c.servers|
    ensures s.replicas[i] == Abs(c.servers[i]) && ServerOK(s, c.servers[i])
  {
    assert SimFor(c, s, 0);
  }

  // ---------------------------------------------------------------------
  // Frames
  // ---------------------------------------------------------------------

  lemma PacketGrows(s: State, s': State, m: C.Packet)
    requires PacketOK(s, m) && Grows(s, s')
    ensures PacketOK(s', m)
  {
  }

  lemma ServerGrows(s: State, s': State, x: Server)
    requires ServerOK(s, x) && Grows(s, s')
    ensures ServerOK(s', x)
  {
    forall m | m in x.applyCh ensures MsgOK(s', m) {
      MsgGrows(s, s', m);
    }
  }

  lemma MsgGrows(s: State, s': State, m: ApplyMsg)
    requires MsgOK(s, m) && Grows(s, s')
    ensures MsgOK(s', m)
  {
    if m.SnapshotMsg? {
      var src: nat, t: nat :| Snap(src, t, m.data) in s.snaps;
      assert Snap(src, t, m.data) in s'.snaps;
    }
  }

  /** One peer changed in step with its replica, and sound messages were sent. */
  lemma SimUpdate(c: C.Cluster, c': C.Cluster, s: State, s': State, i: nat, x: Server, packets: set<C.Packet>)
    requires Sim(c, s) && Grows(s, s') && i < |c.servers| && C.WFCluster(c')
    requires c'.servers == c.servers[i := x] && c'.net == c.net + packets
    requires |x.logs| > 0 && s'.replicas == s.replicas[i := Abs(x)]
    requires ServerOK(s', x) && PacketsOK(s', packets)
    ensures Sim(c', s')
  {
    assert SimFor(c, s, 0);
    forall m | m in c'.net ensures PacketOK(s', m) {
      if m in c.net { PacketGrows(s, s', m); }
    }
    forall j | 0 <= j < |c'.servers|
      ensures s'.replicas[j] == Abs(c'.servers[j]) && ServerOK(s', c'.servers[j])
    {
      if j != i { ServerGrows(s, s', c.servers[j]); }
    }
  }

  /** The facts about leaders and ballots the safety lemmas ask for. */
  lemma BasicFacts(s: State)
    requires Basic(s)
    ensures LeadShape(s) && GrantsBind(s) && Elections(s)
    ensures forall v, t :: (v, t) in s.ballots ==> (v, t) in s.grants
    ensures forall i :: 0 <= i < |s.replicas| && s.replicas[i].role == Leader ==>
      && s.replicas[i].term in s.lead
      && s.replicas[i].term in s.elect
      && s.replicas[i].log == s.lead[s.replicas[i].term]
    ensures forall i :: 0 <= i < |s.replicas| ==>
      && LogOK(s.lead, s.replicas[i].log)
      && s.replicas[i].base <= |s.replicas[i].log|
      && |s.replicas[i].matched| == |s.replicas|
  {
  }

  // The invariants under a key, so that proofs that only pass them on need not unfold them.

  ghost predicate BasicFor(s: State, key: int) { Basic(s) }

  ghost predicate SafeFor(s: State, key: int) { Safe(s) }

  /** The invariants that need no hypothesis. */
  ghost predicate Sound(s: State) {
    forall key :: BasicFor(s, key)
  }

  /** The safety invariants. */
  ghost predicate Secure(s: State) {
    forall key :: SafeFor(s, key)
  }

  /** `s'` follows from `s`: the invariants are kept, and safety if the step met the hypotheses. */
  ghost predicate Follows(s: State, s': State, hyp: bool) {
    Sound(s') && Grows(s, s') && (Secure(s) && hyp ==> Secure(s'))
  }

  lemma GrowsTransitive(a: State, b: State, c: State)
    requires Grows(a, b) && Grows(b, c)
    ensures Grows(a, c)
  {
  }

  lemma FollowsTransitive(a: State, b: State, c: State, h1: bool, h2: bool)
    requires Follows(a, b, h1) && Follows(b, c, h2)
    ensures Follows(a, c, h1 && h2)
  {
    GrowsTransitive(a, b, c);
  }

  lemma FollowsSelf(s: State)
    requires Sound(s)
    ensures Follows(s, s, true)
  {
  }

  // ---------------------------------------------------------------------
  // Steps of the record, packaged
  // ---------------------------------------------------------------------

  lemma DoBump(s: State, i: nat, t: nat)
    requires Sound(s) && i < |s.replicas| && t > s.replicas[i].term
    ensures Follows(s, Bump(s, i, t), true)
  {
    assert BasicFor(s, 0);
    BumpKeeps(s, i, t);
    if Secure(s) {
      assert SafeFor(s, 0);
      BumpSafe(s, i, t);
    }
  }

  lemma DoDemote(s: State, i: nat)
    requires Sound(s) && i < |s.replicas|
    ensures Follows(s, Demote(s, i), true)
  {
    assert BasicFor(s, 0);
    DemoteKeeps(s, i);
    if Secure(s) {
      assert SafeFor(s, 0);
      DemoteSafe(s, i);
    }
  }

  lemma DoStand(s: State, i: nat)
    requires Sound(s) && i < |s.replicas|
    ensures Follows(s, Stand(s, i), true)
  {
    assert BasicFor(s, 0);
    StandKeeps(s, i);
    if Secure(s) {
      assert SafeFor(s, 0);
      StandSafe(s, i);
    }
  }

  lemma DoGrant(s: State, i: nat, a: Ask)
    requires Sound(s) && CanGrant(s, i, a)
    ensures Follows(s, Grant(s, i, a), true)
  {
    assert BasicFor(s, 0);
    GrantKeeps(s, i, a);
    if Secure(s) {
      assert SafeFor(s, 0);
      GrantSafe(s, i, a);
    }
  }

  lemma DoCount(s: State, i: nat, v: nat)
    requires Sound(s) && CanCount(s, i, v)
    ensures Follows(s, Count(s, i, v), true)
  {
    assert BasicFor(s, 0);
    CountKeeps(s, i, v);
    if Secure(s) {
      assert SafeFor(s, 0);
      CountSafe(s, i, v);
    }
  }

  lemma DoWin(s: State, i: nat)
    requires Sound(s) && CanWin(s, i)
    ensures Follows(s, Consensus.Win(s, i), MatchedWithinLog(s.replicas[i], i))
  {
    assert BasicFor(s, 0);
    WinKeeps(s, i);
    BasicFacts(s);
    WinIsFirst(s, i);
    if Secure(s) && MatchedWithinLog(s.replicas[i], i) {
      assert SafeFor(s, 0);
      WinSafe(s, i);
    }
  }

  lemma DoExtend(s: State, i: nat, c: Command)
    requires Sound(s) && CanExtend(s, i)
    ensures Follows(s, Extend(s, i, c), true)
  {
    assert BasicFor(s, 0);
    ExtendKeeps(s, i, c);
    BasicFacts(s);
    if Secure(s) {
      assert SafeFor(s, 0);
      ExtendSafe(s, i, c);
    }
  }

  lemma DoSendOffer(s: State, i: nat)
    requires Sound(s) && i < |s.replicas|
    ensures Follows(s, SendOffer(s, i), s.replicas[i].role == Leader)
  {
    assert BasicFor(s, 0);
    SendOfferKeeps(s, i);
    BasicFacts(s);
    if Secure(s) && s.replicas[i].role == Leader {
      assert SafeFor(s, 0);
      SendOfferSafe(s, i);
    }
  }

  lemma DoSendSnap(s: State, i: nat)
    requires Sound(s) && i < |s.replicas| && s.replicas[i].base <= |s.replicas[i].log|
    ensures Follows(s, SendSnap(s, i), true)
  {
    assert BasicFor(s, 0);
    SendSnapKeeps(s, i);
    if Secure(s) {
      assert SafeFor(s, 0);
      SendSnapSafe(s, i);
    }
  }

  lemma DoTakeOffer(s: State, i: nat, o: Offer)
    requires Sound(s) && CanTakeOffer(s, i, o)
    ensures Follows(s, TakeOffer(s, i, o), true)
  {
    assert BasicFor(s, 0);
    TakeOfferKeeps(s, i, o);
    BasicFacts(s);
    if Secure(s) {
      assert SafeFor(s, 0);
      SafeIsComplete(s);
      TakeOfferSafe(s, i, o);
    }
  }

  lemma DoTakeSnap(s: State, i: nat, z: Snap)
    requires Sound(s) && CanTakeSnap(s, i, z)
    ensures Follows(s, TakeSnap(s, i, z), true)
  {
    assert BasicFor(s, 0);
    TakeSnapKeeps(s, i, z);
    BasicFacts(s);
    if Secure(s) {
      assert SafeFor(s, 0);
      SafeIsComplete(s);
      TakeSnapSafe(s, i, z);
    }
  }

  lemma DoMatch(s: State, i: nat, p: nat, m: nat)
    requires Sound(s) && CanMatch(s, i, p, m)
    ensures Follows(s, Match(s, i, p, m), true)
  {
    assert BasicFor(s, 0);
    MatchKeeps(s, i, p, m);
    if Secure(s) {
      assert SafeFor(s, 0);
      MatchSafe(s, i, p, m);
    }
  }

  lemma DoAdvance(s: State, i: nat, index: nat)
    requires Sound(s) && CanAdvance(s, i, index)
    ensures Follows(s, Advance(s, i, index), true)
  {
    assert BasicFor(s, 0);
    AdvanceKeeps(s, i, index);
    BasicFacts(s);
    if Secure(s) {
      assert SafeFor(s, 0);
      AdvanceSafe(s, i, index);
    }
  }

  lemma DoTrim(s: State, i: nat, k: nat)
    requires Sound(s) && CanTrim(s, i, k)
    ensures Follows(s, Trim(s, i, k), k <= s.replicas[i].commit)
  {
    assert BasicFor(s, 0);
    TrimKeeps(s, i, k);
    if Secure(s) && k <= s.replicas[i].commit {
      assert SafeFor(s, 0);
      TrimSafe(s, i, k);
    }
  }

  lemma DoApply(s: State, i: nat, k: nat)
    requires Sound(s) && CanApply(s, i, k)
    ensures Follows(s, ApplyAt(s, i, k), true)
  {
    assert BasicFor(s, 0);
    ApplyKeeps(s, i, k);
    if Secure(s) {
      assert SafeFor(s, 0);
      ApplySafe(s, i, k);
    }
  }

  lemma DoReset(s: State, i: nat, matched: seq<nat>)
    requires Sound(s) && i < |s.replicas| && |matched| == |s.replicas|
    ensures Follows(s, Reset(s, i, matched), true)
  {
    assert BasicFor(s, 0);
    ResetKeeps(s, i, matched);
    if Secure(s) {
      assert SafeFor(s, 0);
      ResetSafe(s, i, matched);
    }
  }
}
