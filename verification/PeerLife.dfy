/** What the steps of the cluster leave of a peer that does not crash. */
module PeerLife {
  import opened RaftPeer
  import C = Cluster

  /** A step that is not a restart sends at most one message, and a snapshot only beyond the last one. */
  ghost predicate Extends(x: Server, x': Server) {
    && x.lastIncludedIndex <= x'.lastIncludedIndex
    && x.applyCh <= x'.applyCh
    && forall q :: |x.applyCh| <= q < |x'.applyCh| && x'.applyCh[q].SnapshotMsg? ==> x'.applyCh[q].index > x.lastIncludedIndex
  }

  lemma AppendExtends(x: Server, args: AppendEntriesArgs)
    requires WF(x)
    ensures Extends(x, AppendEntries(x, args).0)
  {
  }

  lemma InstallExtends(x: Server, args: InstallSnapshotArgs)
    requires WF(x)
    ensures Extends(x, InstallSnapshot(x, args).0)
  {
  }

  lemma RepliesExtend(x: Server, peer: nat, m: C.Packet)
    requires WF(x) && peer < x.peers
    ensures m.VoteRequest? ==> Extends(x, RequestVote(x, m.vote).0)
    ensures m.VoteReply? ==> Extends(x, HandleVoteReply(x, peer, m.startTerm, m.voteReply))
    ensures m.AppendReply? ==> Extends(x, HandleAppendReply(x, peer, m.append, m.appendReply))
    ensures m.SnapshotReply? ==> Extends(x, HandleSnapshotReply(x, peer, m.snap, m.snapReply))
  {
  }

  lemma HandleExtends(c: C.Cluster, m: C.Packet)
    requires C.WFCluster(c) && m in c.net
    ensures Extends(c.servers[m.dst], C.Handle(c, m).servers[m.dst])
  {
    var x := c.servers[m.dst];
    match m
    case AppendRequest(_, _, args, _) => AppendExtends(x, args);
    case SnapshotRequest(_, _, args) => InstallExtends(x, args);
    case VoteRequest(_, _, _, _) => RepliesExtend(x, m.src, m);
    case VoteReply(_, _, _, _) => RepliesExtend(x, m.src, m);
    case AppendReply(_, _, _, _) => RepliesExtend(x, m.src, m);
    case SnapshotReply(_, _, _, _) => RepliesExtend(x, m.src, m);
  }

  lemma StepExtends(c: C.Cluster, step: C.Step, i: nat)
    requires C.WFCluster(c) && i < |c.servers| && step != C.Restart(i)
    ensures Extends(c.servers[i], C.Next(c, step).servers[i])
  {
    if C.Enabled(c, step) && step.Deliver? && step.packet.dst == i {
      HandleExtends(c, step.packet);
    }
  }
}
