/** Each step of the cluster, followed by its record. */
module Simulation {
  import opened Collections
  import opened RaftTypes
  import opened RaftPeer
  import opened RaftPeerFacts
  import opened Consensus
  import opened ConsensusSteps
  import opened Refinement
  import C = Cluster

  // ---------------------------------------------------------------------
  // Elections
  // ---------------------------------------------------------------------

  lemma SimElect(c: C.Cluster, s: State, i: nat) returns (s': State)
    requires Sim(c, s) && Sound(s) && i < |c.servers|
    ensures Sim(C.Next(c, C.Elect(i)), s') && Follows(s, s', true)
  {
    PeerIs(c, s, i);
    var x := StartElection(c.servers[i]);
    s' := Stand(s, i);
    DoStand(s, i);
    StartElectionFacts(c.servers[i]);
    LastFacts(x);
    C.NextWF(c, C.Elect(i));
    forall m | m in C.VoteRequests(x) ensures PacketOK(s', m) {
    }
    ServerGrows(s, s', c.servers[i]);
    SimUpdate(c, C.Next(c, C.Elect(i)), s, s', i, x, C.VoteRequests(x));
  }

  /** The part of a handler that learns of a higher term. */
  lemma SimStepDown(c: C.Cluster, s: State, i: nat, t: nat) returns (s': State)
    requires Sim(c, s) && Sound(s) && i < |c.servers| && t > c.servers[i].currTerm
    ensures Sim(C.Update(c, i, StepDown(c.servers[i], t)), s') && Follows(s, s', true)
    ensures s' == Bump(s, i, t)
  {
    PeerIs(c, s, i);
    var x := StepDown(c.servers[i], t);
    s' := Bump(s, i, t);
    DoBump(s, i, t);
    C.UpdateWF(c, i, x, {});
    ServerGrows(s, s', c.servers[i]);
    SimUpdate(c, C.Update(c, i, x), s, s', i, x, {});
  }

  /** The part of a handler that recognises its caller's term. */
  lemma SimRecognise(c: C.Cluster, s: State, i: nat, t: nat) returns (s': State)
    requires Sim(c, s) && Sound(s) && i < |c.servers| && t >= c.servers[i].currTerm
    ensures var x := if t > c.servers[i].currTerm then StepDown(c.servers[i], t) else c.servers[i].(role := Follower);
      Sim(C.Update(c, i, x), s') && Follows(s, s', true)
  {
    PeerIs(c, s, i);
    if t > c.servers[i].currTerm {
      s' := SimStepDown(c, s, i, t);
    } else {
      var x := c.servers[i].(role := Follower);
      s' := Demote(s, i);
      DoDemote(s, i);
      C.UpdateWF(c, i, x, {});
      ServerGrows(s, s', c.servers[i]);
      SimUpdate(c, C.Update(c, i, x), s, s', i, x, {});
    }
  }

  /** A reply that claims nothing. */
  lemma SimReply(c: C.Cluster, s: State, m: C.Packet)
    requires Sim(c, s) && PacketOK(s, m) && C.WFCluster(C.Send(c, {m}))
    ensures Sim(C.Send(c, {m}), s)
  {
    SimSend(c, s, s, {m});
  }

  lemma SimGrant(c: C.Cluster, s: State, i: nat, args: RequestVoteArgs, log: Log) returns (s': State)
    requires Sim(c, s) && Sound(s) && i < |c.servers| && args.candidateId != i
    requires Ask(args.candidateId, args.term, log) in s.asks
    requires args.lastLogIndex == |log| && args.lastLogTerm == LastTerm(log)
    requires var x := c.servers[i];
      && args.term == x.currTerm
      && (x.votedFor == -1 || x.votedFor == args.candidateId)
      && (args.lastLogTerm > x.logs[|x.logs| - 1].term
        || (args.lastLogTerm == x.logs[|x.logs| - 1].term && args.lastLogIndex >= LastLogicalIndex(x)))
    ensures var x := Persist(c.servers[i].(votedFor := args.candidateId, role := Follower));
      Sim(C.Update(c, i, x), s') && Follows(s, s', true)
    ensures (i, args.term) in s'.grants && s'.grants[(i, args.term)] == args.candidateId
  {
    PeerIs(c, s, i);
    var a := Ask(args.candidateId, args.term, log);
    var x := Persist(c.servers[i].(votedFor := args.candidateId, role := Follower));
    LastFacts(c.servers[i]);
    s' := Grant(s, i, a);
    DoGrant(s, i, a);
    C.UpdateWF(c, i, x, {});
    ServerGrows(s, s', c.servers[i]);
    SimUpdate(c, C.Update(c, i, x), s, s', i, x, {});
  }

  lemma SimRequestVote(c: C.Cluster, s: State, m: C.Packet) returns (s': State)
    requires Sim(c, s) && Sound(s) && m in c.net && m.VoteRequest?
    ensures Sim(C.Handle(c, m), s') && Follows(s, s', true)
  {
    var i, args := m.dst, m.vote;
    var x := c.servers[i];
    PacketIs(c, s, m);
    var (x', reply) := RequestVote(x, args);
    C.HandleWF(c, m);
    s' := SimVoteOrStepDown(c, s, i, args, m.log);
    SimReply(C.Update(c, i, x'), s', C.VoteReply(m.dst, m.src, args.term, reply));
  }

  lemma SimVoteOrStepDown(c: C.Cluster, s: State, i: nat, args: RequestVoteArgs, log: Log) returns (s': State)
    requires Sim(c, s) && Sound(s) && i < |c.servers|
    requires Ask(args.candidateId, args.term, log) in s.asks && args.candidateId != i
    requires args.lastLogIndex == |log| && args.lastLogTerm == LastTerm(log)
    ensures var (x', reply) := RequestVote(c.servers[i], args);
      && Sim(C.Update(c, i, x'), s') && Follows(s, s', true)
      && (reply.voteGranted ==> (i, args.term) in s'.grants && s'.grants[(i, args.term)] == args.candidateId)
  {
    var x := c.servers[i];
    if args.term > x.currTerm {
      var s1 := SimStepDown(c, s, i, args.term);
      var c1 := C.Update(c, i, StepDown(x, args.term));
      VoteAfterStepDown(x, args);
      s' := SimVote(c1, s1, i, args, log);
      FollowsTransitive(s, s1, s', true, true);
      assert C.Update(c1, i, RequestVote(x, args).0) == C.Update(c, i, RequestVote(x, args).0);
    } else {
      s' := SimVote(c, s, i, args, log);
    }
  }

  lemma VoteAfterStepDown(x: Server, args: RequestVoteArgs)
    requires WF(x) && args.term > x.currTerm
    ensures WF(StepDown(x, args.term)) && RequestVote(StepDown(x, args.term), args) == RequestVote(x, args)
  {
    StepDownFacts(x, args.term);
  }

  /** A vote request that does not raise the term. */
  lemma SimVote(c: C.Cluster, s: State, i: nat, args: RequestVoteArgs, log: Log) returns (s': State)
    requires Sim(c, s) && Sound(s) && i < |c.servers| && args.term <= c.servers[i].currTerm
    requires Ask(args.candidateId, args.term, log) in s.asks && args.candidateId != i
    requires args.lastLogIndex == |log| && args.lastLogTerm == LastTerm(log)
    ensures var (x', reply) := RequestVote(c.servers[i], args);
      && Sim(C.Update(c, i, x'), s') && Follows(s, s', true)
      && (reply.voteGranted ==> (i, args.term) in s'.grants && s'.grants[(i, args.term)] == args.candidateId)
  {
    if RequestVote(c.servers[i], args).1.voteGranted {
      s' := SimGrant(c, s, i, args, log);
    } else {
      s' := s;
      FollowsSelf(s);
      assert C.Update(c, i, c.servers[i]) == c;
    }
  }

  lemma SimVoteReply(c: C.Cluster, s: State, m: C.Packet) returns (s': State)
    requires Sim(c, s) && Sound(s) && m in c.net && m.VoteReply?
    ensures Sim(C.Handle(c, m), s') && Follows(s, s', true)
  {
    var i := m.dst;
    var x := c.servers[i];
    var reply := m.voteReply;
    PacketIs(c, s, m);
    C.HandleWF(c, m);
    s' := s;
    FollowsSelf(s);
    if x.role == Candidate && x.currTerm == m.startTerm {
      if reply.voteGranted {
        s' := SimCount(c, s, i, m.src);
      } else if reply.term > x.currTerm {
        s' := SimStepDown(c, s, i, reply.term);
      } else {
        assert C.Handle(c, m) == c;
      }
      if reply.voteGranted && |x.votes + {m.src}| <= x.peers / 2 && reply.term > x.currTerm {
        var c1 := C.Update(c, i, x.(votes := x.votes + {m.src}));
        var s1 := s';
        s' := SimStepDown(c1, s1, i, reply.term);
        FollowsTransitive(s, s1, s', true, true);
        assert C.Handle(c, m) == C.Update(c1, i, StepDown(c1.servers[i], reply.term));
      }
    } else {
      assert C.Handle(c, m) == c;
    }
  }

  /** A granted vote is counted; once there are enough, the winner may become leader. */
  lemma SimCount(c: C.Cluster, s: State, i: nat, v: nat) returns (s': State)
    requires Sim(c, s) && Sound(s) && i < |c.servers| && v < |c.servers| && c.servers[i].role == Candidate
    requires (v, c.servers[i].currTerm) in s.grants && s.grants[(v, c.servers[i].currTerm)] == i
    ensures var x := c.servers[i].(votes := c.servers[i].votes + {v});
      && Sim(C.Update(c, i, x), s')
      && (|x.votes| > x.peers / 2 ==> Sim(C.Update(c, i, x.(elected := x.elected + {x.currTerm})), s'))
      && Follows(s, s', true)
  {
    PeerIs(c, s, i);
    var x := c.servers[i].(votes := c.servers[i].votes + {v});
    var y := x.(elected := x.elected + {x.currTerm});
    s' := Count(s, i, v);
    DoCount(s, i, v);
    ServerGrows(s, s', c.servers[i]);
    VotesArePeers(s, i);
    VotesArePeers(s', i);
    MoreVotes(s', c.servers[i], v);
    C.UpdateWF(c, i, x, {});
    SimUpdate(c, C.Update(c, i, x), s, s', i, x, {});
    if |x.votes| > x.peers / 2 {
      C.UpdateWF(c, i, y, {});
      SimUpdate(c, C.Update(c, i, y), s, s', i, y, {});
    }
  }

  lemma MoreVotes(s: State, x: Server, v: nat)
    requires ServerOK(s, x)
    requires forall p :: p in x.votes + {v} ==> p < x.peers
    ensures ServerOK(s, x.(votes := x.votes + {v}))
  {
    SubsetSize(x.votes, x.votes + {v});
  }

  lemma VotesArePeers(s: State, i: nat)
    requires Sound(s) && i < |s.replicas| && s.replicas[i].role == Candidate
    ensures forall v :: v in s.replicas[i].votes ==> v < |s.replicas|
  {
    assert BasicFor(s, 0);
    forall v | v in s.replicas[i].votes ensures v < |s.replicas| {
      assert (v, s.replicas[i].term) in s.grants;
    }
  }

  lemma SimFinishVote(c: C.Cluster, s: State, m: C.Packet) returns (s': State)
    requires Sim(c, s) && Sound(s) && m in c.net && m.VoteReply?
    ensures Sim(C.Next(c, C.FinishVote(m)), s') && Follows(s, s', true)
  {
    if m.voteReply.term > c.servers[m.dst].currTerm {
      s' := SimStepDown(c, s, m.dst, m.voteReply.term);
    } else {
      s' := s;
      FollowsSelf(s);
      assert C.Next(c, C.FinishVote(m)) == c;
    }
  }

  /** The hypothesis on a winner: it believes no peer to match beyond its own log. */
  predicate MatchWithinLog(x: Server) {
    forall p :: 0 <= p < |x.matchIndex| && p != x.me ==> x.matchIndex[p] <= LastLogicalIndex(x)
  }

  lemma SimWin(c: C.Cluster, s: State, i: nat, term: nat) returns (s': State)
    requires Sim(c, s) && Sound(s) && i < |c.servers| && term in c.servers[i].elected
    ensures Sim(C.Next(c, C.Win(i, term)), s')
    ensures Follows(s, s', c.servers[i].role == Candidate && c.servers[i].currTerm == term ==> MatchWithinLog(c.servers[i]))
  {
    PeerIs(c, s, i);
    var x := c.servers[i];
    var y := x.(elected := x.elected - {term});
    var z := BecomeLeader(y, term);
    C.NextWF(c, C.Win(i, term));
    if x.role == Candidate && x.currTerm == term {
      s' := Consensus.Win(s, i);
      DoWin(s, i);
      LastFacts(x);
      assert MatchedWithinLog(s.replicas[i], i) == MatchWithinLog(x);
    } else {
      s' := s;
      FollowsSelf(s);
      assert z == y;
    }
    ServerGrows(s, s', x);
    assert Abs(z) == s'.replicas[i];
    SimUpdate(c, C.Next(c, C.Win(i, term)), s, s', i, z, {});
  }

  // ---------------------------------------------------------------------
  // Requests
  // ---------------------------------------------------------------------

  lemma SimClientStart(c: C.Cluster, s: State, i: nat, command: Command) returns (s': State)
    requires Sim(c, s) && Sound(s) && i < |c.servers|
    ensures Sim(C.Next(c, C.ClientStart(i, command)), s') && Follows(s, s', true)
  {
    PeerIs(c, s, i);
    var x := c.servers[i];
    C.NextWF(c, C.ClientStart(i, command));
    if x.role == Leader {
      s' := Extend(s, i, command);
      DoExtend(s, i, command);
      StartFacts(x, command);
    } else {
      s' := s;
      FollowsSelf(s);
    }
    ServerGrows(s, s', x);
    SimUpdate(c, C.Next(c, C.ClientStart(i, command)), s, s', i, Start(x, command), {});
  }

  /** Messages are sent; no peer changes. */
  lemma SimSend(c: C.Cluster, s: State, s': State, packets: set<C.Packet>)
    requires Sim(c, s) && Grows(s, s') && s'.replicas == s.replicas && C.WFCluster(C.Send(c, packets)) && PacketsOK(s', packets)
    ensures Sim(C.Send(c, packets), s')
  {
    assert SimFor(c, s, 0);
    forall m | m in C.Send(c, packets).net ensures PacketOK(s', m) {
      if m in c.net { PacketGrows(s, s', m); }
    }
    forall i | 0 <= i < |c.servers| ensures ServerOK(s', c.servers[i]) {
      ServerGrows(s, s', c.servers[i]);
    }
  }

  lemma SimSendAppend(c: C.Cluster, s: State, i: nat, peer: nat) returns (s': State)
    requires Sim(c, s) && Sound(s) && C.Enabled(c, C.SendAppend(i, peer))
    ensures Sim(C.Next(c, C.SendAppend(i, peer)), s') && Follows(s, s', c.servers[i].role == Leader)
  {
    PeerIs(c, s, i);
    var x := c.servers[i];
    C.NextWF(c, C.SendAppend(i, peer));
    s' := SendOffer(s, i);
    DoSendOffer(s, i);
    BuildAppendCarries(x, peer);
    SimSend(c, s, s', {C.AppendRequest(i, peer, BuildAppend(x, peer), Full(x))});
  }

  lemma SimSendSnapshot(c: C.Cluster, s: State, i: nat, peer: nat) returns (s': State)
    requires Sim(c, s) && Sound(s) && C.Enabled(c, C.SendSnapshot(i, peer))
    ensures Sim(C.Next(c, C.SendSnapshot(i, peer)), s') && Follows(s, s', true)
  {
    PeerIs(c, s, i);
    var x := c.servers[i];
    C.NextWF(c, C.SendSnapshot(i, peer));
    LastFacts(x);
    s' := SendSnap(s, i);
    DoSendSnap(s, i);
    assert Full(x)[..x.lastIncludedIndex] == x.snapshot;
    SimSend(c, s, s', {C.SnapshotRequest(i, peer, BuildSnapshot(x))});
  }

  // ---------------------------------------------------------------------
  // The service, and crashes
  // ---------------------------------------------------------------------

  lemma SimTakeSnapshot(c: C.Cluster, s: State, i: nat, index: nat) returns (s': State)
    requires Sim(c, s) && Sound(s) && C.Enabled(c, C.TakeSnapshot(i, index))
    ensures Sim(C.Next(c, C.TakeSnapshot(i, index)), s')
    ensures Follows(s, s', index <= c.servers[i].commitIndex)
  {
    PeerIs(c, s, i);
    var x := c.servers[i];
    C.NextWF(c, C.TakeSnapshot(i, index));
    SnapshotFacts(x, index);
    LastFacts(x);
    if index > x.lastIncludedIndex {
      s' := Trim(s, i, index);
      DoTrim(s, i, index);
    } else {
      s' := s;
      FollowsSelf(s);
    }
    ServerGrows(s, s', x);
    SimUpdate(c, C.Next(c, C.TakeSnapshot(i, index)), s, s', i, Snapshot(x, index), {});
  }

  /** One command is handed over, at the next index. */
  predicate Feeds(x: Server) {
    x.lastApplied < x.commitIndex && x.lastApplied + 1 <= LastLogicalIndex(x)
  }

  lemma FedServer(s: State, x: Server)
    requires WF(x) && ServerOK(s, x) && Feeds(x)
    requires Applied(x.lastApplied + 1, Full(x)[x.lastApplied].command) in s.applied
    ensures ServerOK(s, SendApplyMsg(x)) && Abs(SendApplyMsg(x)) == Abs(x)
  {
    var index := x.lastApplied + 1;
    FullAt(x, index);
    var msg := CommandMsg(x.logs[PhysicalIndex(x, index)].command, index);
    assert SendApplyMsg(x).applyCh == x.applyCh + [msg];
  }

  /** What handing over does to the record. */
  lemma FeedRecord(s: State, i: nat, x: Server) returns (s': State)
    requires Sound(s) && i < |s.replicas| && WF(x) && ServerOK(s, x) && s.replicas[i] == Abs(x)
    ensures Follows(s, s', true) && s'.replicas == s.replicas
    ensures ServerOK(s', SendApplyMsg(x)) && |SendApplyMsg(x).logs| > 0 && Abs(SendApplyMsg(x)) == Abs(x)
  {
    LastFacts(x);
    s' := s;
    if Feeds(x) {
      s' := ApplyAt(s, i, x.lastApplied + 1);
      DoApply(s, i, x.lastApplied + 1);
      ServerGrows(s, s', x);
      FedServer(s', x);
    } else {
      FollowsSelf(s);
    }
  }

  lemma SimFeedService(c: C.Cluster, s: State, i: nat) returns (s': State)
    requires Sim(c, s) && Sound(s) && i < |c.servers|
    ensures Sim(C.Next(c, C.FeedService(i)), s') && Follows(s, s', true)
  {
    PeerIs(c, s, i);
    C.NextWF(c, C.FeedService(i));
    s' := FeedRecord(s, i, c.servers[i]);
    SimUpdate(c, C.Next(c, C.FeedService(i)), s, s', i, SendApplyMsg(c.servers[i]), {});
  }

  /** What a restart does to the record. */
  lemma RestartRecord(s: State, i: nat, x: Server, x': Server) returns (s': State)
    requires Sound(s) && i < |s.replicas| && WF(x) && s.replicas[i] == Abs(x) && |x.matchIndex| == |s.replicas|
    requires x' == Make(x.me, x.peers, x.raftState, x.snapshot)
    ensures Follows(s, s', true) && WF(x') && s'.replicas == s.replicas[i := Abs(x')] && ServerOK(s', x')
  {
    RestartRecovers(x);
    LastFacts(x);
    var s1 := Reset(s, i, x'.matchIndex);
    DoReset(s, i, x'.matchIndex);
    s' := SendSnap(s1, i);
    DoSendSnap(s1, i);
    FollowsTransitive(s, s1, s', true, true);
    assert Snap(i, x.currTerm, x.snapshot) in s'.snaps;
  }

  lemma SimRestart(c: C.Cluster, s: State, i: nat) returns (s': State)
    requires Sim(c, s) && Sound(s) && i < |c.servers|
    ensures Sim(C.Next(c, C.Restart(i)), s') && Follows(s, s', true)
  {
    PeerIs(c, s, i);
    var x := c.servers[i];
    var x' := Make(i, |c.servers|, x.raftState, x.snapshot);
    C.NextWF(c, C.Restart(i));
    s' := RestartRecord(s, i, x, x');
    SimUpdate(c, C.Next(c, C.Restart(i)), s, s', i, x', {});
  }

  // ---------------------------------------------------------------------
  // Handlers of requests
  // ---------------------------------------------------------------------

  ghost predicate Accepts(x: Server, args: AppendEntriesArgs) {
    && x.role == Follower && x.currTerm == args.term
    && x.lastIncludedIndex <= args.prevLogIndex <= LastLogicalIndex(x)
    && args.prevLogTerm == x.logs[PhysicalIndex(x, args.prevLogIndex)].term
  }

  lemma AcceptedServer(s: State, i: nat, x: Server, args: AppendEntriesArgs, log: Log)
    requires WF(x) && Accepts(x, args) && Carries(args, log) && i < |s.replicas| && s.replicas[i] == Abs(x)
    requires LogOK(s.lead, Full(x)) && LogOK(s.lead, log) && Offer(args.term, log, args.leaderCommit) in s.offers
    ensures CanTakeOffer(s, i, Offer(args.term, log, args.leaderCommit))
    ensures var x' := Accept(x, PhysicalIndex(x, args.prevLogIndex), args);
      && WF(x')
      && Abs(x') == TakeOffer(s, i, Offer(args.term, log, args.leaderCommit)).replicas[i]
      && x' == x.(logs := x'.logs, commitIndex := x'.commitIndex, raftState := x'.raftState)
  {
    var k := PhysicalIndex(x, args.prevLogIndex);
    AcceptFacts(s.lead, x, k, args, log);
    LastFacts(Accept(x, k, args));
  }

  /** An accepted append request. */
  lemma SimAccept(c: C.Cluster, s: State, i: nat, args: AppendEntriesArgs, log: Log) returns (s': State)
    requires Sim(c, s) && Sound(s) && i < |c.servers| && Carries(args, log) && Accepts(c.servers[i], args)
    requires Offer(args.term, log, args.leaderCommit) in s.offers
    ensures var x := c.servers[i];
      Sim(C.Update(c, i, Accept(x, PhysicalIndex(x, args.prevLogIndex), args)), s') && Follows(s, s', true)
    ensures |log| <= AckLen(s', i, args.term)
  {
    PeerIs(c, s, i);
    var x := c.servers[i];
    var x' := Accept(x, PhysicalIndex(x, args.prevLogIndex), args);
    var o := Offer(args.term, log, args.leaderCommit);
    LogsAreOK(s, i, o);
    AcceptedServer(s, i, x, args, log);
    s' := TakeOffer(s, i, o);
    DoTakeOffer(s, i, o);
    C.UpdateWF(c, i, x', {});
    ServerGrows(s, s', x);
    SimUpdate(c, C.Update(c, i, x'), s, s', i, x', {});
  }

  lemma LogsAreOK(s: State, i: nat, o: Offer)
    requires Sound(s) && i < |s.replicas| && o in s.offers
    ensures LogOK(s.lead, s.replicas[i].log) && LogOK(s.lead, o.log)
  {
    assert BasicFor(s, 0);
  }

  lemma SnapLogsAreOK(s: State, i: nat, z: Snap)
    requires Sound(s) && i < |s.replicas| && z in s.snaps
    ensures LogOK(s.lead, s.replicas[i].log) && LogOK(s.lead, z.log)
  {
    assert BasicFor(s, 0);
  }

  lemma SimAppendEntries(c: C.Cluster, s: State, m: C.Packet) returns (s': State)
    requires Sim(c, s) && Sound(s) && m in c.net && m.AppendRequest?
    ensures Sim(C.Handle(c, m), s') && Follows(s, s', true)
  {
    var i, args := m.dst, m.append;
    var x := c.servers[i];
    PacketIs(c, s, m);
    var (x', reply) := AppendEntries(x, args);
    C.HandleWF(c, m);
    if args.term < x.currTerm {
      s' := s;
      FollowsSelf(s);
      assert C.Update(c, i, x') == c;
    } else {
      s' := SimAppendCurrent(c, s, m);
    }
    SimReply(C.Update(c, i, x'), s', C.AppendReply(m.dst, m.src, args, reply));
  }

  /** A request of the peer's term or a later one. */
  lemma SimAppendCurrent(c: C.Cluster, s: State, m: C.Packet) returns (s': State)
    requires Sim(c, s) && Sound(s) && m in c.net && m.AppendRequest? && m.append.term >= c.servers[m.dst].currTerm
    ensures Sim(C.Update(c, m.dst, AppendEntries(c.servers[m.dst], m.append).0), s') && Follows(s, s', true)
    ensures AppendEntries(c.servers[m.dst], m.append).1.success ==>
      m.append.prevLogIndex + |m.append.entries| <= AckLen(s', m.dst, m.append.term)
  {
    var x, args := c.servers[m.dst], m.append;
    var x1 := if args.term > x.currTerm then StepDown(x, args.term) else x.(role := Follower);
    AppendOutcome(x, args, x1);
    s' := SimAppendAs(c, s, m, x1, AppendEntries(x, args).0, AppendEntries(x, args).1.success);
  }

  lemma SimAppendAs(c: C.Cluster, s: State, m: C.Packet, x1: Server, x': Server, success: bool) returns (s': State)
    requires Sim(c, s) && Sound(s) && m in c.net && m.AppendRequest? && m.append.term >= c.servers[m.dst].currTerm
    requires var x := c.servers[m.dst];
      x1 == if m.append.term > x.currTerm then StepDown(x, m.append.term) else x.(role := Follower)
    requires if success then Accepts(x1, m.append) && x' == Accept(x1, PhysicalIndex(x1, m.append.prevLogIndex), m.append) else x' == x1
    ensures Sim(C.Update(c, m.dst, x'), s') && Follows(s, s', true)
    ensures success ==> m.append.prevLogIndex + |m.append.entries| <= AckLen(s', m.dst, m.append.term)
  {
    var i, args := m.dst, m.append;
    PacketIs(c, s, m);
    var c1 := C.Update(c, i, x1);
    var s1 := SimRecognise(c, s, i, args.term);
    if success {
      s' := SimAccept(c1, s1, i, args, m.log);
      FollowsTransitive(s, s1, s', true, true);
    } else {
      s' := s1;
    }
    assert C.Update(c1, i, x') == C.Update(c, i, x');
  }

  lemma AppendOutcome(x: Server, args: AppendEntriesArgs, x1: Server)
    requires WF(x) && args.term >= x.currTerm
    requires x1 == if args.term > x.currTerm then StepDown(x, args.term) else x.(role := Follower)
    ensures var (x', reply) := AppendEntries(x, args);
      if reply.success then Accepts(x1, args) && x' == Accept(x1, PhysicalIndex(x1, args.prevLogIndex), args) else x' == x1
  {
  }

  /** An installed snapshot. */
  lemma SimInstall(c: C.Cluster, s: State, i: nat, src: nat, args: InstallSnapshotArgs) returns (s': State)
    requires Sim(c, s) && Sound(s) && i < |c.servers| && SnapshotArgsOK(args)
    requires Snap(src, args.term, args.data) in s.snaps
    requires var x := c.servers[i];
      x.role == Follower && x.currTerm == args.term && x.lastIncludedIndex < args.lastIncludedIndex
    ensures Sim(C.Update(c, i, Install(c.servers[i], args)), s') && Follows(s, s', true)
  {
    PeerIs(c, s, i);
    var x := c.servers[i];
    var x' := Install(x, args);
    var z := Snap(src, args.term, args.data);
    SnapLogsAreOK(s, i, z);
    InstallWF(x, args);
    InstallFull(s.lead, x, args);
    s' := TakeSnap(s, i, z);
    DoTakeSnap(s, i, z);
    C.UpdateWF(c, i, x', {});
    ServerGrows(s, s', x);
    SimUpdate(c, C.Update(c, i, x'), s, s', i, x', {});
  }

  lemma SimInstallSnapshot(c: C.Cluster, s: State, m: C.Packet) returns (s': State)
    requires Sim(c, s) && Sound(s) && m in c.net && m.SnapshotRequest?
    ensures Sim(C.Handle(c, m), s') && Follows(s, s', true)
  {
    var i, args := m.dst, m.snap;
    var x := c.servers[i];
    PacketIs(c, s, m);
    var (x', reply) := InstallSnapshot(x, args);
    C.HandleWF(c, m);
    if args.term < x.currTerm {
      s' := s;
      FollowsSelf(s);
      assert C.Update(c, i, x') == c;
    } else {
      var x1 := if args.term > x.currTerm then StepDown(x, args.term) else x.(role := Follower);
      var c1 := C.Update(c, i, x1);
      var s1 := SimRecognise(c, s, i, args.term);
      if x1.lastIncludedIndex < args.lastIncludedIndex {
        s' := SimInstall(c1, s1, i, m.src, args);
        FollowsTransitive(s, s1, s', true, true);
      } else {
        s' := s1;
        assert x' == x1;
      }
      assert C.Update(c1, i, x') == C.Update(c, i, x');
    }
    SimReply(C.Update(c, i, x'), s', C.SnapshotReply(m.dst, m.src, args, reply));
  }

  // ---------------------------------------------------------------------
  // Handlers of replies
  // ---------------------------------------------------------------------

  /** A leader learns how far a peer matches. */
  lemma SimMatch(c: C.Cluster, s: State, i: nat, p: nat, m: nat, x: Server) returns (s': State)
    requires Sim(c, s) && Sound(s) && i < |c.servers| && p < |c.servers| && CanMatch(s, i, p, m)
    requires WF(x)
    requires var y := c.servers[i];
      x == y.(matchIndex := y.matchIndex[p := Max(m, y.matchIndex[p])], nextIndex := x.nextIndex)
    ensures Sim(C.Update(c, i, x), s') && Follows(s, s', true)
  {
    PeerIs(c, s, i);
    s' := Match(s, i, p, m);
    DoMatch(s, i, p, m);
    C.UpdateWF(c, i, x, {});
    ServerGrows(s, s', c.servers[i]);
    SimUpdate(c, C.Update(c, i, x), s, s', i, x, {});
  }

  /** A leader's commit scan. */
  lemma SimCommit(c: C.Cluster, s: State, i: nat) returns (s': State)
    requires Sim(c, s) && Sound(s) && i < |c.servers| && c.servers[i].role == Leader
    ensures Sim(C.Update(c, i, CommitIndexUpdate(c.servers[i])), s') && Follows(s, s', true)
  {
    PeerIs(c, s, i);
    var x := c.servers[i];
    var x' := CommitIndexUpdate(x);
    LastFacts(x);
    CommitTargetIsHighest(x, LastLogicalIndex(x));
    if x'.commitIndex > x.commitIndex {
      FullAt(x, x'.commitIndex);
      CommitIsMajority(s, i, x, x'.commitIndex);
      s' := Advance(s, i, x'.commitIndex);
      DoAdvance(s, i, x'.commitIndex);
    } else {
      s' := s;
      FollowsSelf(s);
    }
    C.UpdateWF(c, i, x', {});
    ServerGrows(s, s', x);
    SimUpdate(c, C.Update(c, i, x'), s, s', i, x', {});
  }

  lemma CommitIsMajority(s: State, i: nat, x: Server, index: nat)
    requires WF(x) && i < |s.replicas| && x.me == i && x.peers == |s.replicas| && s.replicas[i] == Abs(x)
    requires x.role == Leader && 1 <= index <= |Full(x)| && x.commitIndex < index
    requires x.lastIncludedIndex <= index <= LastLogicalIndex(x) && Committable(x, index)
    requires TermAt(Full(x), index) == x.currTerm
    ensures CanAdvance(s, i, index)
  {
    assert Holders(x, index) == Counted(|s.replicas|, i, x.matchIndex, index);
  }

  /** A successful append: the leader records the match, then scans for an index to commit. */
  lemma SimSuccess(c: C.Cluster, s: State, i: nat, p: nat, len: nat) returns (s': State)
    requires Sim(c, s) && Sound(s) && i < |c.servers| && p < |c.servers| && c.servers[i].role == Leader
    requires len <= AckLen(s, p, c.servers[i].currTerm)
    ensures Sim(C.Update(c, i, RecordMatch(c.servers[i], p, len)), s') && Follows(s, s', true)
  {
    PeerIs(c, s, i);
    var x := c.servers[i];
    var k := Max(len, x.matchIndex[p]);
    var x1 := SetNext(x.(matchIndex := x.matchIndex[p := k]), p, k + 1);
    var s1 := SimMatch(c, s, i, p, len, x1);
    var c1 := C.Update(c, i, x1);
    s' := SimCommit(c1, s1, i);
    FollowsTransitive(s, s1, s', true, true);
    assert C.Update(c1, i, CommitIndexUpdate(x1)) == C.Update(c, i, CommitIndexUpdate(x1));
  }

  lemma SimAppendReply(c: C.Cluster, s: State, m: C.Packet) returns (s': State)
    requires Sim(c, s) && Sound(s) && m in c.net && m.AppendReply?
    ensures Sim(C.Handle(c, m), s') && Follows(s, s', true)
  {
    PacketIs(c, s, m);
    s' := SimReplyAt(c, s, m.dst, m.src, m.append, m.appendReply);
  }

  lemma SimReplyAt(c: C.Cluster, s: State, i: nat, p: nat, args: AppendEntriesArgs, reply: AppendEntriesReply)
    returns (s': State)
    requires Sim(c, s) && Sound(s) && i < |c.servers| && p < |c.servers|
    requires reply.success ==> args.prevLogIndex + |args.entries| <= AckLen(s, p, args.term)
    ensures Sim(C.Update(c, i, HandleAppendReply(c.servers[i], p, args, reply)), s') && Follows(s, s', true)
  {
    var x := c.servers[i];
    if x.currTerm == args.term && reply.term > x.currTerm {
      ReplyIs(x, p, args, reply);
      s' := SimStepDown(c, s, i, reply.term);
    } else if x.currTerm == args.term && x.role == Leader && reply.success {
      ReplyIs(x, p, args, reply);
      s' := SimSuccess(c, s, i, p, args.prevLogIndex + |args.entries|);
    } else {
      s' := SimRejection(c, s, i, p, args, reply);
    }
  }

  lemma ReplyIs(x: Server, p: nat, args: AppendEntriesArgs, reply: AppendEntriesReply)
    requires WF(x) && p < x.peers && x.currTerm == args.term
    ensures reply.term > x.currTerm ==> HandleAppendReply(x, p, args, reply) == StepDown(x, reply.term)
    ensures reply.term <= x.currTerm && x.role == Leader && reply.success ==>
      HandleAppendReply(x, p, args, reply) == RecordMatch(x, p, args.prevLogIndex + |args.entries|)
  {
  }

  lemma SimRejection(c: C.Cluster, s: State, i: nat, p: nat, args: AppendEntriesArgs, reply: AppendEntriesReply)
    returns (s': State)
    requires Sim(c, s) && Sound(s) && i < |c.servers| && p < |c.servers|
    requires var x := c.servers[i];
      x.currTerm == args.term ==> reply.term <= x.currTerm && (x.role == Leader ==> !reply.success)
    ensures Sim(C.Update(c, i, HandleAppendReply(c.servers[i], p, args, reply)), s') && Follows(s, s', true)
  {
    PeerIs(c, s, i);
    var x := c.servers[i];
    var x' := HandleAppendReply(x, p, args, reply);
    s' := s;
    FollowsSelf(s);
    RejectionKeeps(s, x, p, args, reply);
    HandleAppendReplyFacts(x, p, args, reply);
    C.UpdateWF(c, i, x', {});
    SimUpdate(c, C.Update(c, i, x'), s, s, i, x', {});
  }

  /** A reply that is late or negative changes at most where the leader tries next. */
  lemma RejectionKeeps(s: State, x: Server, peer: nat, args: AppendEntriesArgs, reply: AppendEntriesReply)
    requires WF(x) && peer < x.peers && ServerOK(s, x)
    requires x.currTerm == args.term ==> reply.term <= x.currTerm && (x.role == Leader ==> !reply.success)
    ensures var x' := HandleAppendReply(x, peer, args, reply);
      |x'.logs| > 0 && Abs(x') == Abs(x) && ServerOK(s, x')
  {
  }

  lemma SimSnapshotReply(c: C.Cluster, s: State, m: C.Packet) returns (s': State)
    requires Sim(c, s) && Sound(s) && m in c.net && m.SnapshotReply?
    ensures Sim(C.Handle(c, m), s') && Follows(s, s', true)
  {
    assert SimFor(c, s, 0);
    var i, args, reply := m.dst, m.snap, m.snapReply;
    var x := c.servers[i];
    PacketIs(c, s, m);
    C.HandleWF(c, m);
    var x' := HandleSnapshotReply(x, m.src, args, reply);
    if reply.term > x.currTerm {
      s' := SimStepDown(c, s, i, reply.term);
    } else if x.role == Leader && x.currTerm == args.term {
      assert CanMatch(s, i, m.src, args.lastIncludedIndex) by {
        var z := Snap(i, args.term, args.data);
        assert z in s.snaps && z.src == i && args.lastIncludedIndex <= |z.log|;
      }
      s' := SimMatch(c, s, i, m.src, args.lastIncludedIndex, x');
    } else {
      s' := s;
      FollowsSelf(s);
      assert C.Handle(c, m) == c;
    }
  }

  // ---------------------------------------------------------------------
  // All steps
  // ---------------------------------------------------------------------

  lemma SimDeliver(c: C.Cluster, s: State, m: C.Packet) returns (s': State)
    requires Sim(c, s) && Sound(s) && m in c.net
    ensures Sim(C.Handle(c, m), s') && Follows(s, s', true)
  {
    match m
    case VoteRequest(_, _, _, _) => s' := SimRequestVote(c, s, m);
    case VoteReply(_, _, _, _) => s' := SimVoteReply(c, s, m);
    case AppendRequest(_, _, _, _) => s' := SimAppendEntries(c, s, m);
    case AppendReply(_, _, _, _) => s' := SimAppendReply(c, s, m);
    case SnapshotRequest(_, _, _) => s' := SimInstallSnapshot(c, s, m);
    case SnapshotReply(_, _, _, _) => s' := SimSnapshotReply(c, s, m);
  }

  /** The request is built by a peer that still leads. */
  predicate SenderLeads(c: C.Cluster, step: C.Step) {
    step.SendAppend? && step.i < |c.servers| ==> c.servers[step.i].role == Leader
  }

  /** The new leader believes no peer to match beyond its own log. */
  predicate WinnerWithinLog(c: C.Cluster, step: C.Step) {
    step.Win? && step.i < |c.servers| && c.servers[step.i].role == Candidate && c.servers[step.i].currTerm == step.term ==>
      MatchWithinLog(c.servers[step.i])
  }

  /** The service snapshots only what the peer has committed. */
  predicate SnapshotWithinCommit(c: C.Cluster, step: C.Step) {
    step.TakeSnapshot? && step.i < |c.servers| ==> step.index <= c.servers[step.i].commitIndex || !C.Enabled(c, step)
  }

  lemma SimNext(c: C.Cluster, s: State, step: C.Step) returns (s': State)
    requires Sim(c, s) && Sound(s)
    ensures Sim(C.Next(c, step), s')
    ensures Follows(s, s', SenderLeads(c, step) && WinnerWithinLog(c, step) && SnapshotWithinCommit(c, step))
  {
    if !C.Enabled(c, step) {
      s' := s;
      FollowsSelf(s);
    } else {
      match step
      case Elect(i) => s' := SimElect(c, s, i);
      case Win(i, term) => s' := SimWin(c, s, i, term);
      case ClientStart(i, command) => s' := SimClientStart(c, s, i, command);
      case SendAppend(i, peer) => s' := SimSendAppend(c, s, i, peer);
      case SendSnapshot(i, peer) => s' := SimSendSnapshot(c, s, i, peer);
      case TakeSnapshot(i, index) => s' := SimTakeSnapshot(c, s, i, index);
      case FeedService(i) => s' := SimFeedService(c, s, i);
      case Restart(i) => s' := SimRestart(c, s, i);
      case Deliver(m) => s' := SimDeliver(c, s, m);
      case FinishVote(m) => s' := SimFinishVote(c, s, m);
    }
  }
}
