/**
 What a leader believes of its peers.  If every leader starts its term
 believing nothing, then what it comes to believe that a peer holds, the peer
 holds, and it never tries past the end of its own log.
 */
module LeaderTables {
  import opened RaftTypes
  import opened RaftPeer
  import opened RaftPeerFacts
  import opened Consensus
  import opened ConsensusSafety
  import opened ConsensusSteps
  import opened Refinement
  import opened Simulation
  import opened RaftTheorems
  import opened PeerLife
  import opened PeerRules
  import C = Cluster

  /** A new leader starts with its view of the others cleared. */
  predicate FreshWinner(c: C.Cluster, step: C.Step) {
    step.Win? && step.i < |c.servers| && c.servers[step.i].role == Candidate && c.servers[step.i].currTerm == step.term ==>
      forall p :: 0 <= p < |c.servers[step.i].matchIndex| && p != step.i ==> c.servers[step.i].matchIndex[p] == 0
  }

  ghost predicate FreshStep(c: C.Cluster, step: C.Step) {
    SenderLeads(c, step) && FreshWinner(c, step)
  }

  /** Every append request was built by a peer that still led, and every leader started with a cleared view. */
  ghost predicate Fresh(n: nat, steps: seq<C.Step>) {
    forall k {:trigger FreshStep(C.After(n, steps[..k]), steps[k])} ::
      0 <= k < |steps| ==> FreshStep(C.After(n, steps[..k]), steps[k])
  }

  lemma FreshIsOrderly(n: nat, steps: seq<C.Step>)
    requires Fresh(n, steps)
    ensures Orderly(n, steps)
  {
    forall k | 0 <= k < |steps| ensures OrderlyStep(C.After(n, steps[..k]), steps[k]) {
      assert FreshStep(C.After(n, steps[..k]), steps[k]);
      C.AfterWF(n, steps[..k]);
    }
  }

  // ---------------------------------------------------------------------
  // The invariant
  // ---------------------------------------------------------------------

  /** What `l` believes of peer `q` is backed by what `q` accepted in its term, or by the snapshot `q` has. */
  ghost predicate TableOK(s: State, l: Server, f: Server, q: nat) {
    && q < |l.matchIndex| && q < |l.nextIndex| && l.currTerm in s.lead
    && l.nextIndex[q] <= |s.lead[l.currTerm]| + 1 && l.matchIndex[q] <= |s.lead[l.currTerm]|
    && (l.matchIndex[q] <= AckLen(s, q, l.currTerm) || l.matchIndex[q] <= f.lastIncludedIndex)
  }

  /** What a reply in flight will make its leader believe. */
  ghost predicate ReplyOK(s: State, servers: seq<Server>, m: C.Packet) {
    match m
    case AppendReply(_, _, args, reply) =>
      args.term in s.lead && (reply.success || reply.term > args.term || reply.conflictIndex <= |s.lead[args.term]| + 1)
    case SnapshotReply(src, _, args, reply) =>
      reply.term > args.term || (src < |servers| && args.lastIncludedIndex <= servers[src].lastIncludedIndex)
    case _ => true
  }

  ghost predicate BackedFor(c: C.Cluster, s: State, key: int) {
    && (forall i, q :: 0 <= i < |c.servers| && 0 <= q < |c.servers| && i != q && c.servers[i].role == Leader ==>
      TableOK(s, c.servers[i], c.servers[q], q))
    && (forall m :: m in c.net ==> ReplyOK(s, c.servers, m))
  }

  ghost predicate Backed(c: C.Cluster, s: State) {
    forall key {:trigger BackedFor(c, s, key)} :: BackedFor(c, s, key)
  }

  lemma BackedTable(c: C.Cluster, s: State, i: nat, q: nat)
    requires Backed(c, s) && i < |c.servers| && q < |c.servers| && i != q && c.servers[i].role == Leader
    ensures TableOK(s, c.servers[i], c.servers[q], q)
  {
    assert BackedFor(c, s, 0);
  }

  lemma BackedReply(c: C.Cluster, s: State, m: C.Packet)
    requires Backed(c, s) && m in c.net
    ensures ReplyOK(s, c.servers, m)
  {
    assert BackedFor(c, s, 0);
  }

  // ---------------------------------------------------------------------
  // Peers
  // ---------------------------------------------------------------------

  lemma BaseRises(c: C.Cluster, step: C.Step, i: nat)
    requires C.WFCluster(c) && i < |c.servers|
    ensures |C.Next(c, step).servers| == |c.servers|
    ensures c.servers[i].lastIncludedIndex <= C.Next(c, step).servers[i].lastIncludedIndex
  {
    if step == C.Restart(i) {
      RestartRecovers(c.servers[i]);
    } else {
      StepExtends(c, step, i);
    }
  }

  /** The leader goes on as it was. */
  ghost predicate Unmoved(x: Server, x': Server) {
    x.role == Leader && x.currTerm == x'.currTerm && x.matchIndex == x'.matchIndex && x.nextIndex == x'.nextIndex
  }

  /** The leader is new. */
  ghost predicate Begins(x: Server, x': Server, i: nat) {
    && x.role == Candidate && x'.currTerm == x.currTerm && x'.logs == x.logs && x'.snapshot == x.snapshot
    && x'.lastIncludedIndex == x.lastIncludedIndex && x'.matchIndex == x.matchIndex
    && forall q :: 0 <= q < |x'.nextIndex| && q != i ==> x'.nextIndex[q] == LastLogicalIndex(x) + 1
  }

  lemma RequestsUnseat(x: Server, m: C.Packet, x': Server)
    requires WF(x) && x'.role == Leader
    requires || (m.VoteRequest? && x' == RequestVote(x, m.vote).0)
             || (m.AppendRequest? && x' == AppendEntries(x, m.append).0)
             || (m.SnapshotRequest? && x' == InstallSnapshot(x, m.snap).0)
    ensures Unmoved(x, x')
  {
  }

  /** How a peer comes to be leader after a step. */
  lemma LeaderMoves(c: C.Cluster, step: C.Step, i: nat)
    requires C.WFCluster(c) && i < |c.servers| && C.Next(c, step).servers[i].role == Leader
    ensures var x, x' := c.servers[i], C.Next(c, step).servers[i];
      || Unmoved(x, x')
      || (step == C.Win(i, x.currTerm) && Begins(x, x', i))
      || (step.Deliver? && step.packet in c.net && step.packet.dst == i && (step.packet.AppendReply? || step.packet.SnapshotReply?))
  {
    if C.Enabled(c, step) && step.Deliver? && step.packet.dst == i {
      var m := step.packet;
      if m.VoteRequest? || m.AppendRequest? || m.SnapshotRequest? {
        RequestsUnseat(c.servers[i], m, C.Next(c, step).servers[i]);
      }
    }
  }

  lemma NextBounded(x: Server, reply: AppendEntriesReply, bound: nat)
    requires WF(x) && reply.conflictIndex <= bound && LastLogicalIndex(x) + 1 <= bound
    ensures match NextAfterConflict(x, reply) case Some(next) => next <= bound case None => true
  {
    LastOfTermRule(x.logs, reply.conflictTerm, |x.logs|);
  }

  lemma {:induction false} ConflictBounded(x: Server, k: nat, term: nat, found: nat)
    requires k < |x.logs|
    ensures ConflictIndex(x, k, term, found) <= Max(found, x.lastIncludedIndex + k)
    decreases k
  {
    if k > 0 && x.logs[k].term == term { ConflictBounded(x, k - 1, term, LogicalIndex(x, k)); }
  }

  /** Where a follower points its leader to. */
  lemma RejectBounded(x: Server, args: AppendEntriesArgs)
    requires WF(x)
    ensures var (x', reply) := AppendEntries(x, args);
      || reply.success || reply.term > args.term
      || (reply.conflictIndex <= Max(args.prevLogIndex, x'.lastIncludedIndex + 1) && x'.currTerm == args.term)
  {
    if args.term >= x.currTerm {
      var x1 := if args.term > x.currTerm then StepDown(x, args.term) else x.(role := Follower);
      if x1.lastIncludedIndex <= args.prevLogIndex <= LastLogicalIndex(x1) {
        var k := PhysicalIndex(x1, args.prevLogIndex);
        ConflictBounded(x1, k, x1.logs[k].term, 0);
      }
    }
  }

  lemma InstallReaches(x: Server, args: InstallSnapshotArgs)
    requires WF(x)
    ensures var (x', reply) := InstallSnapshot(x, args);
      reply.term > args.term || args.lastIncludedIndex <= x'.lastIncludedIndex
  {
  }

  // ---------------------------------------------------------------------
  // Every step keeps the tables backed
  // ---------------------------------------------------------------------

  lemma TableStays(s: State, s': State, x: Server, x': Server, f: Server, f': Server, q: nat)
    requires TableOK(s, x, f, q) && Grows(s, s') && Unmoved(x, x') && f.lastIncludedIndex <= f'.lastIncludedIndex
    ensures TableOK(s', x', f', q)
  {
  }

  lemma TableBegins(s: State, x: Server, x': Server, f: Server, i: nat, q: nat)
    requires WF(x) && WF(x') && x'.peers == x.peers && q < x.peers && q != i && Begins(x, x', i) && x.matchIndex[q] == 0
    requires x'.currTerm in s.lead && Full(x') == s.lead[x'.currTerm]
    ensures TableOK(s, x', f, q)
  {
    LastFacts(x');
  }

  /** An acknowledgement is of what the leader wrote. */
  lemma AckWithinLead(s: State, q: nat, t: nat)
    requires AcksKept(s) && t in s.lead
    ensures AckLen(s, q, t) <= |s.lead[t]|
  {
    if (q, t) in s.acks { assert AckKept(s, q, t, s.acks[(q, t)]); }
  }

  lemma TableAnswered(s: State, x: Server, f: Server, peer: nat, q: nat, args: AppendEntriesArgs, reply: AppendEntriesReply)
    requires WF(x) && peer < x.peers && q < x.peers && x.role == Leader && x.currTerm == args.term
    requires TableOK(s, x, f, q) && Full(x) == s.lead[x.currTerm] && AcksKept(s)
    requires reply.success ==> args.prevLogIndex + |args.entries| <= AckLen(s, peer, args.term)
    requires reply.success || reply.conflictIndex <= |s.lead[args.term]| + 1
    requires HandleAppendReply(x, peer, args, reply).role == Leader
    ensures TableOK(s, HandleAppendReply(x, peer, args, reply), f, q)
  {
    LastFacts(x);
    AckWithinLead(s, q, x.currTerm);
    if !reply.success { NextBounded(x, reply, |Full(x)| + 1); }
  }

  lemma TableInstalled(s: State, x: Server, f: Server, peer: nat, q: nat, args: InstallSnapshotArgs, reply: InstallSnapshotReply)
    requires WF(x) && peer < x.peers && q < x.peers && TableOK(s, x, f, q) && Full(x) == s.lead[x.currTerm]
    requires args.lastIncludedIndex <= |Full(x)| && (peer == q ==> args.lastIncludedIndex <= f.lastIncludedIndex)
    ensures TableOK(s, HandleSnapshotReply(x, peer, args, reply).(currTerm := x.currTerm), f, q)
  {
  }

  ghost predicate Step(c: C.Cluster, s: State, step: C.Step, s': State) {
    Records(c, s, true) && C.WFCluster(c) && Records(C.Next(c, step), s', true) && Later(s, s') && Backed(c, s) && FreshWinner(c, step)
  }

  /** A leader that handles a reply was one before. */
  lemma ReplyNeedsLeader(x: Server, m: C.Packet, x': Server)
    requires WF(x) && m.src < x.peers && x'.role == Leader
    requires || (m.AppendReply? && x' == HandleAppendReply(x, m.src, m.append, m.appendReply))
             || (m.SnapshotReply? && x' == HandleSnapshotReply(x, m.src, m.snap, m.snapReply))
    ensures x.role == Leader && x'.currTerm == x.currTerm
    ensures m.AppendReply? ==> Unmoved(x, x') || (x.currTerm == m.append.term && m.appendReply.term <= x.currTerm)
    ensures m.SnapshotReply? ==> Unmoved(x, x') || (x.currTerm == m.snap.term && m.snapReply.term <= x.currTerm)
  {
  }

  lemma AppendReplyTable(c: C.Cluster, s: State, m: C.Packet, i: nat, q: nat)
    requires Records(c, s, true) && C.WFCluster(c) && Backed(c, s) && m in c.net && m.AppendReply? && m.dst == i
    requires i < |c.servers| && q < |c.servers| && i != q
    requires HandleAppendReply(c.servers[i], m.src, m.append, m.appendReply).role == Leader
    ensures TableOK(s, HandleAppendReply(c.servers[i], m.src, m.append, m.appendReply), c.servers[q], q)
  {
    assert RecordsFor(c, s, true, 0);
    var x, x' := c.servers[i], HandleAppendReply(c.servers[i], m.src, m.append, m.appendReply);
    ReplyNeedsLeader(x, m, x');
    BackedTable(c, s, i, q);
    if Unmoved(x, x') {
      TableStays(s, s, x, x', c.servers[q], c.servers[q], q);
    } else {
      BackedReply(c, s, m);
      PacketIs(c, s, m);
      LeaderLog(c, s, i, x.currTerm);
      assert AcksKept(s) by { assert SafeFor(s, 0); }
      TableAnswered(s, x, c.servers[q], m.src, q, m.append, m.appendReply);
    }
  }

  lemma SnapshotReplyTable(c: C.Cluster, s: State, m: C.Packet, i: nat, q: nat)
    requires Records(c, s, true) && C.WFCluster(c) && Backed(c, s) && m in c.net && m.SnapshotReply? && m.dst == i
    requires i < |c.servers| && q < |c.servers| && i != q
    requires HandleSnapshotReply(c.servers[i], m.src, m.snap, m.snapReply).role == Leader
    ensures TableOK(s, HandleSnapshotReply(c.servers[i], m.src, m.snap, m.snapReply), c.servers[q], q)
  {
    assert RecordsFor(c, s, true, 0);
    var x, x' := c.servers[i], HandleSnapshotReply(c.servers[i], m.src, m.snap, m.snapReply);
    ReplyNeedsLeader(x, m, x');
    BackedTable(c, s, i, q);
    if Unmoved(x, x') {
      TableStays(s, s, x, x', c.servers[q], c.servers[q], q);
    } else {
      BackedReply(c, s, m);
      SnapshotWithin(c, s, m);
      LeaderLog(c, s, i, x.currTerm);
      TableInstalled(s, x, c.servers[q], m.src, q, m.snap, m.snapReply);
      assert x'.(currTerm := x.currTerm) == x';
    }
  }

  /** A snapshot replied to is of the sender's own log. */
  lemma SnapshotWithin(c: C.Cluster, s: State, m: C.Packet)
    requires Sim(c, s) && Sound(s) && Secure(s) && m in c.net && m.SnapshotReply?
    ensures |c.servers[m.dst].logs| > 0 && m.snap.lastIncludedIndex <= |Full(c.servers[m.dst])|
  {
    PacketIs(c, s, m);
    PeerIs(c, s, m.dst);
    assert BasicFor(s, 0) && SafeFor(s, 0);
    assert SnapOK(s, Snap(m.dst, m.snap.term, m.snap.data));
    BasicFacts(s);
  }

  ghost predicate ReachesFor(c: C.Cluster, step: C.Step, c': C.Cluster, key: int) {
    C.WFCluster(c) && c' == C.Next(c, step)
  }

  /** The step leads from `c` to `c'`. */
  ghost predicate Reaches(c: C.Cluster, step: C.Step, c': C.Cluster) {
    forall key {:trigger ReachesFor(c, step, c', key)} :: ReachesFor(c, step, c', key)
  }

  /** How the leader came by its table, and what the peer's snapshot has become. */
  lemma TableMoves(c: C.Cluster, step: C.Step, c': C.Cluster, i: nat, q: nat)
    requires Reaches(c, step, c') && i < |c.servers| && q < |c.servers| && |c'.servers| == |c.servers| && c'.servers[i].role == Leader
    ensures c.servers[q].lastIncludedIndex <= c'.servers[q].lastIncludedIndex
    ensures Unmoved(c.servers[i], c'.servers[i])
      || (step == C.Win(i, c.servers[i].currTerm) && Begins(c.servers[i], c'.servers[i], i))
      || (step.Deliver? && step.packet in c.net && step.packet.dst == i && (step.packet.AppendReply? || step.packet.SnapshotReply?))
  {
    assert ReachesFor(c, step, c', 0);
    LeaderMoves(c, step, i);
    BaseRises(c, step, q);
  }

  lemma TableNext(c: C.Cluster, s: State, step: C.Step, c': C.Cluster, s': State, i: nat, q: nat)
    requires Reaches(c, step, c') && Records(c, s, true) && Records(c', s', true) && Later(s, s') && Backed(c, s) && FreshWinner(c, step)
    requires i < |c.servers| && q < |c.servers| && i != q && |c'.servers| == |c.servers| && c'.servers[i].role == Leader
    ensures TableOK(s', c'.servers[i], c'.servers[q], q)
  {
    var x, x', f, f' := c.servers[i], c'.servers[i], c.servers[q], c'.servers[q];
    TableMoves(c, step, c', i, q);
    assert LaterFor(s, s', 0);
    if Unmoved(x, x') {
      BackedTable(c, s, i, q);
      TableStays(s, s', x, x', f, f', q);
    } else if step.Win? {
      WinTable(c, step, c', s', i, q);
    } else {
      ReplyTable(c, s, step, c', i, q);
      TableStays(s, s', x', x', f, f', q);
    }
  }

  lemma ReplyTable(c: C.Cluster, s: State, step: C.Step, c': C.Cluster, i: nat, q: nat)
    requires Reaches(c, step, c') && Records(c, s, true) && Backed(c, s)
    requires step.Deliver? && step.packet in c.net && step.packet.dst == i && (step.packet.AppendReply? || step.packet.SnapshotReply?)
    requires i < |c.servers| && q < |c.servers| && i != q && |c'.servers| == |c.servers| && c'.servers[i].role == Leader
    ensures TableOK(s, c'.servers[i], c.servers[q], q)
  {
    assert ReachesFor(c, step, c', 0);
    var m := step.packet;
    if m.AppendReply? { AppendReplyTable(c, s, m, i, q); } else { SnapshotReplyTable(c, s, m, i, q); }
  }

  lemma WinTable(c: C.Cluster, step: C.Step, c': C.Cluster, s': State, i: nat, q: nat)
    requires Reaches(c, step, c') && Records(c', s', true) && FreshWinner(c, step)
    requires i < |c.servers| && q < |c.servers| && i != q && |c'.servers| == |c.servers| && c'.servers[i].role == Leader
    requires step == C.Win(i, c.servers[i].currTerm) && Begins(c.servers[i], c'.servers[i], i)
    ensures TableOK(s', c'.servers[i], c'.servers[q], q)
  {
    assert ReachesFor(c, step, c', 0);
    C.NextWF(c, step);
    assert RecordsFor(c', s', true, 0);
    LeaderLog(c', s', i, c'.servers[i].currTerm);
    TableBegins(s', c.servers[i], c'.servers[i], c'.servers[q], i, q);
  }

  // ---------------------------------------------------------------------
  // Replies
  // ---------------------------------------------------------------------

  lemma ReplyStays(s: State, s': State, xs: seq<Server>, xs': seq<Server>, m: C.Packet)
    requires ReplyOK(s, xs, m) && Grows(s, s') && |xs'| == |xs|
    requires forall i :: 0 <= i < |xs| ==> xs[i].lastIncludedIndex <= xs'[i].lastIncludedIndex
    ensures ReplyOK(s', xs', m)
  {
  }

  /** A message sent in a step that is a reply answers the request delivered in it. */
  lemma NewReply(c: C.Cluster, step: C.Step, m: C.Packet)
    requires C.WFCluster(c) && m in C.Next(c, step).net && m !in c.net && (m.AppendReply? || m.SnapshotReply?)
    ensures step.Deliver? && step.packet in c.net && |C.Next(c, step).servers| == |c.servers|
    ensures var y := step.packet; var x := c.servers[y.dst];
      || (y.AppendRequest? && m == C.AppendReply(y.dst, y.src, y.append, AppendEntries(x, y.append).1)
          && C.Next(c, step).servers[y.dst] == AppendEntries(x, y.append).0)
      || (y.SnapshotRequest? && m == C.SnapshotReply(y.dst, y.src, y.snap, InstallSnapshot(x, y.snap).1)
          && C.Next(c, step).servers[y.dst] == InstallSnapshot(x, y.snap).0)
  {
  }

  /** A follower's snapshot is within the log of every leader of its term. */
  lemma BaseWithinLead(c: C.Cluster, s: State, i: nat)
    requires Sim(c, s) && Sound(s) && Secure(s) && i < |c.servers| && c.servers[i].currTerm in s.lead
    ensures c.servers[i].lastIncludedIndex <= |s.lead[c.servers[i].currTerm]|
  {
    PeerIs(c, s, i);
    RunComplete(s);
    assert SafeFor(s, 0);
    var r := s.replicas[i];
    assert ReplicaCommit(s, r);
    CommittedInLead(s, r.log[..r.commit], r.term, r.term);
  }

  lemma RequestWithinLead(c: C.Cluster, s: State, m: C.Packet)
    requires Sim(c, s) && Sound(s) && Secure(s) && m in c.net && m.AppendRequest?
    ensures m.append.term in s.lead && m.append.prevLogIndex <= |s.lead[m.append.term]|
  {
    PacketIs(c, s, m);
    assert SafeFor(s, 0);
    assert OfferOK(s, Offer(m.append.term, m.log, m.append.leaderCommit));
  }

  lemma ReplyNext(c: C.Cluster, s: State, step: C.Step, s': State, m: C.Packet)
    requires Step(c, s, step, s') && m in C.Next(c, step).net
    ensures ReplyOK(s', C.Next(c, step).servers, m)
  {
    var c' := C.Next(c, step);
    assert LaterFor(s, s', 0);
    if m in c.net {
      BackedReply(c, s, m);
      Rises(c, step);
      ReplyStays(s, s', c.servers, c'.servers, m);
    } else if m.AppendReply? || m.SnapshotReply? {
      NewReply(c, step, m);
      var y := step.packet;
      if y.AppendRequest? {
        RejectReply(c, s, step, s', y);
      } else {
        InstallReaches(c.servers[y.dst], y.snap);
      }
    }
  }

  lemma Rises(c: C.Cluster, step: C.Step)
    requires C.WFCluster(c)
    ensures |C.Next(c, step).servers| == |c.servers|
    ensures forall i :: 0 <= i < |c.servers| ==> c.servers[i].lastIncludedIndex <= C.Next(c, step).servers[i].lastIncludedIndex
  {
    forall i | 0 <= i < |c.servers| ensures c.servers[i].lastIncludedIndex <= C.Next(c, step).servers[i].lastIncludedIndex {
      BaseRises(c, step, i);
    }
  }

  lemma RejectReply(c: C.Cluster, s: State, step: C.Step, s': State, y: C.Packet)
    requires Step(c, s, step, s') && y in c.net && y.AppendRequest? && |C.Next(c, step).servers| == |c.servers|
    requires C.Next(c, step).servers[y.dst] == AppendEntries(c.servers[y.dst], y.append).0
    ensures var reply := AppendEntries(c.servers[y.dst], y.append).1;
      && y.append.term in s'.lead
      && (reply.success || reply.term > y.append.term || reply.conflictIndex <= |s'.lead[y.append.term]| + 1)
  {
    var c', x := C.Next(c, step), c.servers[y.dst];
    assert LaterFor(s, s', 0) && RecordsFor(c, s, true, 0) && RecordsFor(c', s', true, 0);
    RequestWithinLead(c, s, y);
    RejectBounded(x, y.append);
    if c'.servers[y.dst].currTerm == y.append.term { BaseWithinLead(c', s', y.dst); }
  }

  lemma BackedNext(c: C.Cluster, s: State, step: C.Step, s': State)
    requires Step(c, s, step, s')
    ensures Backed(C.Next(c, step), s')
  {
    var c' := C.Next(c, step);
    Rises(c, step);
    assert ReachesFor(c, step, c', 0);
    forall i, q | 0 <= i < |c'.servers| && 0 <= q < |c'.servers| && i != q && c'.servers[i].role == Leader
      ensures TableOK(s', c'.servers[i], c'.servers[q], q)
    {
      TableNext(c, s, step, c', s', i, q);
    }
    forall m | m in c'.net ensures ReplyOK(s', c'.servers, m) {
      ReplyNext(c, s, step, s', m);
    }
    assert BackedFor(c', s', 0);
  }

  // ---------------------------------------------------------------------
  // Over runs
  // ---------------------------------------------------------------------

  /** The record of a fresh run, its tables backed. */
  lemma {:induction false} BackedRun(n: nat, steps: seq<C.Step>, k: nat) returns (s: State)
    requires Fresh(n, steps) && k <= |steps|
    ensures Records(C.After(n, steps[..k]), s, true) && Backed(C.After(n, steps[..k]), s)
    decreases k
  {
    if k == 0 {
      assert steps[..0] == [];
      RecordsStart(n, true);
      s := Blank(n);
      assert BackedFor(C.Init(n), s, 0);
    } else {
      var s0 := BackedRun(n, steps, k - 1);
      AfterNext(n, steps, k - 1);
      FreshIsOrderly(n, steps);
      OrderlyAt(n, steps, k - 1);
      assert FreshStep(C.After(n, steps[..k - 1]), steps[k - 1]);
      s := RecordsNext(C.After(n, steps[..k - 1]), s0, steps[k - 1], true);
      BackedNext(C.After(n, steps[..k - 1]), s0, steps[k - 1], s);
    }
  }

  /**
   In a run in which every leader starts with its view cleared, a leader never
   tries a peer past the end of its own log, and a peer of no later term holds
   all the leader believes it to hold.
   */
  lemma TablesAreTruthful(n: nat, steps: seq<C.Step>, p: nat, q: nat)
    requires Fresh(n, steps) && p < n && q < n && p != q && C.After(n, steps).servers[p].role == Leader
    ensures var l, f := C.After(n, steps).servers[p], C.After(n, steps).servers[q];
      && |l.logs| > 0 && |f.logs| > 0 && q < |l.nextIndex| && q < |l.matchIndex|
      && l.nextIndex[q] <= |Full(l)| + 1 && l.matchIndex[q] <= |Full(l)|
      && (f.currTerm <= l.currTerm ==> Full(l)[..l.matchIndex[q]] <= Full(f))
  {
    var s := BackedRun(n, steps, |steps|);
    assert steps[..|steps|] == steps;
    var c := C.After(n, steps);
    C.AfterWF(n, steps);
    assert RecordsFor(c, s, true, 0);
    BackedTable(c, s, p, q);
    LeaderLog(c, s, p, c.servers[p].currTerm);
    if c.servers[q].currTerm <= c.servers[p].currTerm { HeldByPeer(c, s, p, q); }
  }

  lemma HeldByPeer(c: C.Cluster, s: State, p: nat, q: nat)
    requires Sim(c, s) && Sound(s) && Secure(s) && p < |c.servers| && q < |c.servers|
    requires var l, f := c.servers[p], c.servers[q];
      TableOK(s, l, f, q) && |l.logs| > 0 && |f.logs| > 0 && Full(l) == s.lead[l.currTerm] && f.currTerm <= l.currTerm
    ensures Full(c.servers[p])[..c.servers[p].matchIndex[q]] <= Full(c.servers[q])
  {
    var l, f := c.servers[p], c.servers[q];
    var m := l.matchIndex[q];
    PeerIs(c, s, q);
    assert SafeFor(s, 0);
    if m <= AckLen(s, q, l.currTerm) {
      if m > 0 { AckHeld(s, q, l.currTerm, m); }
    } else {
      SnapshotHeld(s, q, l.currTerm, m);
    }
  }

  /** What a peer accepted in the term it is in it still holds. */
  lemma AckHeld(s: State, q: nat, t: nat, k: nat)
    requires AcksKept(s) && q < |s.replicas| && s.replicas[q].term <= t && 0 < k <= AckLen(s, q, t)
    ensures t in s.lead && k <= |s.lead[t]| && s.lead[t][..k] <= s.replicas[q].log
  {
    assert AckKept(s, q, t, k);
  }

  lemma SnapshotHeld(s: State, q: nat, t: nat, k: nat)
    requires Sound(s) && Secure(s) && q < |s.replicas| && s.replicas[q].term <= t && t in s.lead && k <= s.replicas[q].base
    ensures k <= |s.lead[t]| && s.lead[t][..k] <= s.replicas[q].log
  {
    RunComplete(s);
    assert SafeFor(s, 0);
    var r := s.replicas[q];
    assert ReplicaCommit(s, r);
    CommittedInLead(s, r.log[..r.commit], r.term, t);
    assert s.lead[t][..k] == r.log[..r.commit][..k];
  }
}
