/**
 A cluster of Raft peers and a network that may lose, delay, duplicate and
 reorder messages.

 Each region a peer runs under its lock is one step.  A sender may have lost
 its leadership between the check of its role and the step that builds its
 request.  Crashes lose everything but stable storage.  Every sequence of
 steps is a run: a step that cannot be taken leaves the cluster as it is.
 */
module Cluster {
  import opened Options
  import opened Collections
  import opened RaftTypes
  import opened RaftPeer
  import opened RaftPeerFacts

  /**
   A message in flight.  `log` records the sender's whole log when it built the
   request; no step reads it.
   */
  datatype Packet =
    | VoteRequest(src: nat, dst: nat, vote: RequestVoteArgs, log: Log)
    | VoteReply(src: nat, dst: nat, startTerm: nat, voteReply: RequestVoteReply)
    | AppendRequest(src: nat, dst: nat, append: AppendEntriesArgs, log: Log)
    | AppendReply(src: nat, dst: nat, append: AppendEntriesArgs, appendReply: AppendEntriesReply)
    | SnapshotRequest(src: nat, dst: nat, snap: InstallSnapshotArgs)
    | SnapshotReply(src: nat, dst: nat, snap: InstallSnapshotArgs, snapReply: InstallSnapshotReply)

  datatype Cluster = Cluster(servers: seq<Server>, net: set<Packet>)

  datatype Step =
    | Elect(i: nat)                       // startElection
    | Win(i: nat, term: nat)              // becomeLeader
    | ClientStart(i: nat, command: Command) // Start
    | SendAppend(i: nat, peer: nat)       // makeAppendEntry builds its request
    | SendSnapshot(i: nat, peer: nat)     // sendInstallSnapshotToPeers builds its request
    | TakeSnapshot(i: nat, index: nat)    // Snapshot
    | FeedService(i: nat)                 // one turn of sendApplyMsg
    | Restart(i: nat)                     // crash, then Make
    | Deliver(packet: Packet)             // a request reaches its handler, or a reply its caller
    | FinishVote(packet: Packet)          // what follows becomeLeader in the vote goroutine

  function Init(n: nat): Cluster {
    Cluster(seq(n, i requires 0 <= i < n => Make(i, n, None, [])), {})
  }

  /** The peers are well formed and messages name peers. */
  ghost predicate WFCluster(c: Cluster) {
    && (forall i :: 0 <= i < |c.servers| ==>
      WF(c.servers[i]) && c.servers[i].me == i && c.servers[i].peers == |c.servers|)
    && (forall m :: m in c.net ==> m.src < |c.servers| && m.dst < |c.servers|)
    && (forall m :: m in c.net && m.SnapshotRequest? ==> SnapshotArgsOK(m.snap))
  }

  predicate Enabled(c: Cluster, step: Step) {
    match step
    case Elect(i) => i < |c.servers|
    case Win(i, term) => i < |c.servers| && term in c.servers[i].elected
    case ClientStart(i, _) => i < |c.servers|
    case SendAppend(i, peer) => i < |c.servers| && peer < |c.servers| && peer != i && CanBuildAppend(c.servers[i], peer)
    case SendSnapshot(i, peer) => i < |c.servers| && peer < |c.servers| && peer != i
    case TakeSnapshot(i, index) =>
      i < |c.servers| && index <= c.servers[i].lastApplied && index <= LastLogicalIndex(c.servers[i])
    case FeedService(i) => i < |c.servers|
    case Restart(i) => i < |c.servers|
    case Deliver(m) => m in c.net
    case FinishVote(m) => m in c.net && m.VoteReply?
  }

  function Update(c: Cluster, i: nat, s: Server): Cluster
    requires i < |c.servers|
  {
    c.(servers := c.servers[i := s])
  }

  function Send(c: Cluster, packets: set<Packet>): Cluster {
    c.(net := c.net + packets)
  }

  function VoteRequests(s: Server): set<Packet>
    requires WF(s)
  {
    set p | p in Below(s.peers) && p != s.me :: VoteRequest(s.me, p, VoteArgs(s), Full(s))
  }

  /** A message reaches its destination. */
  function Handle(c: Cluster, m: Packet): Cluster
    requires WFCluster(c) && m in c.net
  {
    var s := c.servers[m.dst];
    match m
    case VoteRequest(_, _, args, _) =>
      var (s', reply) := RequestVote(s, args);
      Send(Update(c, m.dst, s'), {VoteReply(m.dst, m.src, args.term, reply)})
    case VoteReply(_, _, startTerm, reply) =>
      Update(c, m.dst, HandleVoteReply(s, m.src, startTerm, reply))
    case AppendRequest(_, _, args, _) =>
      var (s', reply) := AppendEntries(s, args);
      Send(Update(c, m.dst, s'), {AppendReply(m.dst, m.src, args, reply)})
    case AppendReply(_, _, args, reply) =>
      Update(c, m.dst, HandleAppendReply(s, m.src, args, reply))
    case SnapshotRequest(_, _, args) =>
      var (s', reply) := InstallSnapshot(s, args);
      Send(Update(c, m.dst, s'), {SnapshotReply(m.dst, m.src, args, reply)})
    case SnapshotReply(_, _, args, reply) =>
      Update(c, m.dst, HandleSnapshotReply(s, m.src, args, reply))
  }

  function Next(c: Cluster, step: Step): Cluster
    requires WFCluster(c)
  {
    if !Enabled(c, step) then c else
    match step
    case Elect(i) =>
      var s := StartElection(c.servers[i]);
      StartElectionFacts(c.servers[i]);
      Send(Update(c, i, s), VoteRequests(s))
    case Win(i, term) =>
      var s := c.servers[i];
      Update(c, i, BecomeLeader(s.(elected := s.elected - {term}), term))
    case ClientStart(i, command) =>
      Update(c, i, Start(c.servers[i], command))
    case SendAppend(i, peer) =>
      var s := c.servers[i];
      Send(c, {AppendRequest(i, peer, BuildAppend(s, peer), Full(s))})
    case SendSnapshot(i, peer) =>
      Send(c, {SnapshotRequest(i, peer, BuildSnapshot(c.servers[i]))})
    case TakeSnapshot(i, index) =>
      Update(c, i, Snapshot(c.servers[i], index))
    case FeedService(i) =>
      Update(c, i, SendApplyMsg(c.servers[i]))
    case Restart(i) =>
      var s := c.servers[i];
      Update(c, i, Make(i, |c.servers|, s.raftState, s.snapshot))
    case Deliver(m) =>
      Handle(c, m)
    case FinishVote(m) =>
      Update(c, m.dst, FinishVoteReply(c.servers[m.dst], m.voteReply))
  }

  // ---------------------------------------------------------------------
  // Runs
  // ---------------------------------------------------------------------

  ghost predicate WFServer(c: Cluster, i: nat, s: Server) {
    WF(s) && s.me == i && s.peers == |c.servers|
  }

  lemma UpdateWF(c: Cluster, i: nat, s: Server, packets: set<Packet>)
    requires WFCluster(c) && i < |c.servers| && WFServer(c, i, s)
    requires forall m :: m in packets ==>
      m.src < |c.servers| && m.dst < |c.servers| && (m.SnapshotRequest? ==> SnapshotArgsOK(m.snap))
    ensures WFCluster(Send(Update(c, i, s), packets))
    ensures WFCluster(Update(c, i, s))
    ensures WFCluster(Send(c, packets))
  {
  }

  lemma InitWF(n: nat)
    ensures WFCluster(Init(n))
  {
    forall i | 0 <= i < n ensures WF(Init(n).servers[i]) {
      var s := Make(i, n, None, []);
      assert s.applyCh == [];
      StreamStart();
    }
  }

  lemma RequestWF(c: Cluster, m: Packet)
    requires WFCluster(c) && m in c.net && (m.VoteRequest? || m.AppendRequest? || m.SnapshotRequest?)
    ensures WFCluster(Handle(c, m))
  {
    var s := c.servers[m.dst];
    match m
    case VoteRequest(_, _, args, _) =>
      UpdateWF(c, m.dst, RequestVote(s, args).0, {VoteReply(m.dst, m.src, args.term, RequestVote(s, args).1)});
    case AppendRequest(_, _, args, _) =>
      AppendEntriesWF(s, args);
      UpdateWF(c, m.dst, AppendEntries(s, args).0, {AppendReply(m.dst, m.src, args, AppendEntries(s, args).1)});
    case SnapshotRequest(_, _, args) =>
      InstallSnapshotWF(s, args);
      UpdateWF(c, m.dst, InstallSnapshot(s, args).0, {SnapshotReply(m.dst, m.src, args, InstallSnapshot(s, args).1)});
  }

  lemma ReplyWF(c: Cluster, m: Packet)
    requires WFCluster(c) && m in c.net && (m.VoteReply? || m.AppendReply? || m.SnapshotReply?)
    ensures WFCluster(Handle(c, m))
  {
    var s := c.servers[m.dst];
    match m
    case VoteReply(_, _, startTerm, reply) =>
      UpdateWF(c, m.dst, HandleVoteReply(s, m.src, startTerm, reply), {});
    case AppendReply(_, _, args, reply) =>
      HandleAppendReplyFacts(s, m.src, args, reply);
      UpdateWF(c, m.dst, HandleAppendReply(s, m.src, args, reply), {});
    case SnapshotReply(_, _, args, reply) =>
      UpdateWF(c, m.dst, HandleSnapshotReply(s, m.src, args, reply), {});
  }

  lemma HandleWF(c: Cluster, m: Packet)
    requires WFCluster(c) && m in c.net
    ensures WFCluster(Handle(c, m))
  {
    if m.VoteRequest? || m.AppendRequest? || m.SnapshotRequest? { RequestWF(c, m); } else { ReplyWF(c, m); }
  }

  lemma AppendEntriesWF(s: Server, args: AppendEntriesArgs)
    requires WF(s)
    ensures var s' := AppendEntries(s, args).0; WF(s') && s'.me == s.me && s'.peers == s.peers
  {
    if args.term >= s.currTerm {
      var s1 := if args.term > s.currTerm then StepDown(s, args.term) else s.(role := Follower);
      assert WF(s1);
      if s1.lastIncludedIndex <= args.prevLogIndex <= LastLogicalIndex(s1) {
        AcceptWF(s1, PhysicalIndex(s1, args.prevLogIndex), args);
      }
    }
  }

  lemma InstallSnapshotWF(s: Server, args: InstallSnapshotArgs)
    requires WF(s) && SnapshotArgsOK(args)
    ensures var s' := InstallSnapshot(s, args).0; WF(s') && s'.me == s.me && s'.peers == s.peers
  {
    if s.currTerm <= args.term {
      var s1 := if args.term > s.currTerm then StepDown(s, args.term) else s.(role := Follower);
      assert WF(s1);
      if s1.lastIncludedIndex < args.lastIncludedIndex {
        InstallWF(s1, args);
      }
    }
  }

  /** What a peer does by itself. */
  lemma OwnStepWF(c: Cluster, step: Step)
    requires WFCluster(c) && Enabled(c, step)
    requires step.ClientStart? || step.TakeSnapshot? || step.FeedService? || step.Restart?
    ensures WFCluster(Next(c, step))
  {
    match step
    case ClientStart(i, command) =>
      if c.servers[i].role == Leader { StartFacts(c.servers[i], command); }
      UpdateWF(c, i, Start(c.servers[i], command), {});
    case TakeSnapshot(i, index) =>
      SnapshotFacts(c.servers[i], index);
      UpdateWF(c, i, Snapshot(c.servers[i], index), {});
    case FeedService(i) =>
      SendApplyMsgFacts(c.servers[i]);
      UpdateWF(c, i, SendApplyMsg(c.servers[i]), {});
    case Restart(i) =>
      RestartRecovers(c.servers[i]);
      UpdateWF(c, i, Make(i, |c.servers|, c.servers[i].raftState, c.servers[i].snapshot), {});
  }

  /** Elections. */
  lemma VoteStepWF(c: Cluster, step: Step)
    requires WFCluster(c) && Enabled(c, step) && (step.Elect? || step.Win? || step.FinishVote?)
    ensures WFCluster(Next(c, step))
  {
    match step
    case Elect(i) =>
      var s := StartElection(c.servers[i]);
      StartElectionFacts(c.servers[i]);
      UpdateWF(c, i, s, VoteRequests(s));
    case Win(i, term) =>
      var s := c.servers[i];
      UpdateWF(c, i, BecomeLeader(s.(elected := s.elected - {term}), term), {});
    case FinishVote(m) =>
      UpdateWF(c, m.dst, FinishVoteReply(c.servers[m.dst], m.voteReply), {});
  }

  lemma NextWF(c: Cluster, step: Step)
    requires WFCluster(c)
    ensures WFCluster(Next(c, step))
  {
    if Enabled(c, step) {
      match step
      case SendAppend(i, peer) =>
        UpdateWF(c, i, c.servers[i], {AppendRequest(i, peer, BuildAppend(c.servers[i], peer), Full(c.servers[i]))});
      case SendSnapshot(i, peer) =>
        UpdateWF(c, i, c.servers[i], {SnapshotRequest(i, peer, BuildSnapshot(c.servers[i]))});
      case Deliver(m) =>
        HandleWF(c, m);
      case _ =>
        if step.Elect? || step.Win? || step.FinishVote? { VoteStepWF(c, step); } else { OwnStepWF(c, step); }
    }
  }

  ghost predicate WellFormedFor(c: Cluster, key: int) {
    WFCluster(c)
  }

  ghost predicate WellFormed(c: Cluster) {
    forall key {:trigger WellFormedFor(c, key)} :: WellFormedFor(c, key)
  }

  /** The cluster of `n` peers after a sequence of steps. */
  function After(n: nat, steps: seq<Step>): (c: Cluster)
    ensures WellFormed(c) && |c.servers| == n
  {
    if steps == [] then
      InitWF(n);
      Init(n)
    else
      var c := After(n, steps[..|steps| - 1]);
      assert WellFormedFor(c, 0);
      NextWF(c, steps[|steps| - 1]);
      Next(c, steps[|steps| - 1])
  }

  lemma AfterWF(n: nat, steps: seq<Step>)
    ensures WFCluster(After(n, steps))
  {
    assert WellFormedFor(After(n, steps), 0);
  }

  lemma PeerWF(n: nat, steps: seq<Step>, i: nat)
    requires i < n
    ensures var x := After(n, steps).servers[i]; WF(x) && x.me == i && x.peers == n
  {
    AfterWF(n, steps);
  }
}
