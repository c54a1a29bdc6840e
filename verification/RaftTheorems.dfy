/** The guarantees of section 5 of the Raft paper, for every run of the cluster. */
module RaftTheorems {
  import opened Options
  import opened RaftTypes
  import opened RaftPeer
  import opened RaftPeerFacts
  import opened Consensus
  import opened ConsensusSafety
  import opened ConsensusSteps
  import opened Refinement
  import opened Simulation
  import C = Cluster

  // ---------------------------------------------------------------------
  // The record of a run
  // ---------------------------------------------------------------------

  function Blank(n: nat): State {
    State(seq(n, i requires 0 <= i < n => Abs(Make(i, n, None, []))),
          {}, {}, {}, map[], map[], map[], map[], map[], map[], map[], {}, {})
  }

  lemma BlankSound(n: nat)
    ensures Sim(C.Init(n), Blank(n)) && Sound(Blank(n)) && Secure(Blank(n))
  {
    C.InitWF(n);
    var s := Blank(n);
    assert Basic(s);
    assert Safe(s) by {
      forall i | 0 <= i < n ensures ReplicaCommit(s, s.replicas[i]) {
        assert s.replicas[i].log[..0] == [];
      }
    }
  }

  /** The run met both hypotheses at every step. */
  ghost predicate Orderly(n: nat, steps: seq<C.Step>) {
    forall k {:trigger OrderlyStep(C.After(n, steps[..k]), steps[k])} ::
      0 <= k < |steps| ==> OrderlyStep(C.After(n, steps[..k]), steps[k])
  }

  ghost predicate OrderlyStep(c: C.Cluster, step: C.Step) {
    SenderLeads(c, step) && WinnerWithinLog(c, step)
  }

  /** No peer has handed over more than it knows committed. */
  ghost predicate AppliedWithinCommit(c: C.Cluster) {
    forall i :: 0 <= i < |c.servers| ==> c.servers[i].lastApplied <= c.servers[i].commitIndex
  }

  // ---------------------------------------------------------------------
  // Commit indices
  // ---------------------------------------------------------------------

  /** An accepted request raises the commit index to the sender's, which the merged log covers. */
  lemma AcceptCommit(s: State, i: nat, x: Server, args: AppendEntriesArgs, log: Log)
    requires WF(x) && Accepts(x, args) && Carries(args, log) && i < |s.replicas| && s.replicas[i] == Abs(x)
    requires LogOK(s.lead, Full(x)) && LogOK(s.lead, log)
    requires Offer(args.term, log, args.leaderCommit) in s.offers && args.leaderCommit <= |log|
    ensures Accept(x, PhysicalIndex(x, args.prevLogIndex), args).commitIndex == Max(args.leaderCommit, x.commitIndex)
  {
    AcceptedServer(s, i, x, args, log);
    OfferRaisesCommit(s, i, Offer(args.term, log, args.leaderCommit));
  }

  lemma OfferRaisesCommit(s: State, i: nat, o: Offer)
    requires CanTakeOffer(s, i, o) && o.commit <= |o.log|
    ensures TakeOffer(s, i, o).replicas[i].commit == Max(o.commit, s.replicas[i].commit)
  {
    assert o.log <= Absorb(s.replicas[i].log, o.log);
  }

  lemma AppendCommit(c: C.Cluster, s: State, m: C.Packet)
    requires Sim(c, s) && Sound(s) && Secure(s) && m in c.net && m.AppendRequest?
    ensures c.servers[m.dst].commitIndex <= AppendEntries(c.servers[m.dst], m.append).0.commitIndex
  {
    assert SimFor(c, s, 0);
    var i, args := m.dst, m.append;
    var x := c.servers[i];
    PacketIs(c, s, m);
    if args.term >= x.currTerm && AppendEntries(x, args).1.success {
      var x1 := if args.term > x.currTerm then StepDown(x, args.term) else x.(role := Follower);
      var s1 := SimRecognise(c, s, i, args.term);
      var o := Offer(args.term, m.log, args.leaderCommit);
      PeerIs(C.Update(c, i, x1), s1, i);
      LogsAreOK(s1, i, o);
      assert SafeFor(s1, 0);
      assert OfferOK(s1, o);
      AcceptCommit(s1, i, x1, args, m.log);
    }
  }

  /** Within one life of a peer its commit index never falls. */
  lemma CommitRises(c: C.Cluster, s: State, step: C.Step, i: nat)
    requires Sim(c, s) && Sound(s) && Secure(s) && i < |c.servers| && step != C.Restart(i)
    ensures c.servers[i].commitIndex <= C.Next(c, step).servers[i].commitIndex
  {
    if C.Enabled(c, step) && step.Deliver? {
      var m := step.packet;
      if m.AppendRequest? {
        AppendCommit(c, s, m);
      } else if m.AppendReply? {
        ReplyCommit(c.servers[m.dst], m.src, m.append, m.appendReply);
      }
    }
  }

  lemma RecordMatchCommit(x: Server, peer: nat, len: nat)
    requires WF(x) && peer < x.peers
    ensures x.commitIndex <= RecordMatch(x, peer, len).commitIndex
  {
    var k := Max(len, x.matchIndex[peer]);
    var x1 := SetNext(x.(matchIndex := x.matchIndex[peer := k]), peer, k + 1);
    CommitTargetIsHighest(x1, LastLogicalIndex(x1));
  }

  lemma ReplyCommit(x: Server, peer: nat, args: AppendEntriesArgs, reply: AppendEntriesReply)
    requires WF(x) && peer < x.peers
    ensures x.commitIndex <= HandleAppendReply(x, peer, args, reply).commitIndex
  {
    RecordMatchCommit(x, peer, args.prevLogIndex + |args.entries|);
  }

  /** Besides commit indices, the index handed over moves only up to them. */
  lemma WithinKept(c: C.Cluster, s: State, step: C.Step)
    requires Sim(c, s) && Sound(s) && Secure(s) && AppliedWithinCommit(c)
    ensures AppliedWithinCommit(C.Next(c, step))
  {
    var c' := C.Next(c, step);
    C.NextWF(c, step);
    forall i | 0 <= i < |c'.servers| ensures c'.servers[i].lastApplied <= c'.servers[i].commitIndex {
      if step == C.Restart(i) {
        RestartRecovers(c.servers[i]);
      } else {
        CommitRises(c, s, step, i);
        AppliedMoves(c, step, i);
      }
    }
  }

  lemma AppliedMoves(c: C.Cluster, step: C.Step, i: nat)
    requires C.WFCluster(c) && i < |c.servers| && step != C.Restart(i)
    ensures var x, x' := c.servers[i], C.Next(c, step).servers[i];
      x'.lastApplied <= Max(x.lastApplied, x'.commitIndex)
  {
    if C.Enabled(c, step) && step.Deliver? && step.packet.dst == i {
      var m := step.packet;
      if m.AppendRequest? { AppendKeepsApplied(c.servers[i], m.append); }
    }
  }

  lemma AppendKeepsApplied(x: Server, args: AppendEntriesArgs)
    requires WF(x)
    ensures AppendEntries(x, args).0.lastApplied == x.lastApplied
  {
  }

  // ---------------------------------------------------------------------
  // The record of a run
  // ---------------------------------------------------------------------

  ghost predicate RecordsFor(c: C.Cluster, s: State, safe: bool, key: int) {
    Sim(c, s) && Sound(s) && (safe ==> Secure(s) && AppliedWithinCommit(c))
  }

  /** `s` records a run that ended in `c`.  (Under a key, so that proofs that only pass it on need not unfold it.) */
  ghost predicate Records(c: C.Cluster, s: State, safe: bool) {
    forall key :: RecordsFor(c, s, safe, key)
  }

  ghost predicate LaterFor(s: State, s': State, key: int) { Grows(s, s') }

  /** `s'` has kept all that `s` recorded. */
  ghost predicate Later(s: State, s': State) {
    forall key :: LaterFor(s, s', key)
  }

  lemma LaterTransitive(a: State, b: State, c: State)
    requires Later(a, b) && Later(b, c)
    ensures Later(a, c)
  {
    assert LaterFor(a, b, 0) && LaterFor(b, c, 0);
    GrowsTransitive(a, b, c);
  }

  lemma RecordsStart(n: nat, safe: bool)
    ensures Records(C.Init(n), Blank(n), safe)
  {
    BlankSound(n);
  }

  lemma RecordsNext(c: C.Cluster, s: State, step: C.Step, safe: bool) returns (s': State)
    requires C.WFCluster(c) && Records(c, s, safe) && (safe ==> OrderlyStep(c, step))
    ensures Records(C.Next(c, step), s', safe) && Later(s, s')
  {
    assert RecordsFor(c, s, safe, 0);
    s' := SimNext(c, s, step);
    if safe { WithinKept(c, s, step); }
  }

  lemma AfterNext(n: nat, steps: seq<C.Step>, k: nat)
    requires k < |steps|
    ensures C.WFCluster(C.After(n, steps[..k])) && C.After(n, steps[..k + 1]) == C.Next(C.After(n, steps[..k]), steps[k])
  {
    C.AfterWF(n, steps[..k]);
    assert steps[..k + 1][..k] == steps[..k];
  }

  /** Follows a run from any of its moments to its end; `s'` has recorded all that was recorded on the way. */
  lemma {:induction false} RecordFrom(n: nat, steps: seq<C.Step>, k: nat, s: State, safe: bool) returns (s': State)
    requires k <= |steps| && Records(C.After(n, steps[..k]), s, safe) && (safe ==> Orderly(n, steps))
    ensures Records(C.After(n, steps), s', safe) && Later(s, s')
    ensures forall j {:trigger Retained(C.After(n, steps[..j]), s', safe)} ::
      k <= j <= |steps| ==> Retained(C.After(n, steps[..j]), s', safe)
    decreases |steps| - k
  {
    if k == |steps| {
      assert steps[..k] == steps;
      s' := s;
    } else {
      var s1 := RecordAt(n, steps, k, s, safe);
      s' := RecordFrom(n, steps, k + 1, s1, safe);
      LaterTransitive(s, s1, s');
    }
    RetainedHere(C.After(n, steps[..k]), s, s', safe);
  }

  /** Follows one step of a run. */
  lemma RecordAt(n: nat, steps: seq<C.Step>, k: nat, s: State, safe: bool) returns (s': State)
    requires k < |steps| && Records(C.After(n, steps[..k]), s, safe) && (safe ==> Orderly(n, steps))
    ensures Records(C.After(n, steps[..k + 1]), s', safe) && Later(s, s')
  {
    AfterNext(n, steps, k);
    if safe { OrderlyAt(n, steps, k); }
    s' := RecordsNext(C.After(n, steps[..k]), s, steps[k], safe);
  }

  lemma OrderlyAt(n: nat, steps: seq<C.Step>, k: nat)
    requires Orderly(n, steps) && k < |steps|
    ensures OrderlyStep(C.After(n, steps[..k]), steps[k])
  {
  }

  /** What a peer knows committed is. */
  ghost predicate KnownCommitted(s: State, x: Server) {
    && |x.logs| > 0 && x.lastApplied <= x.commitIndex <= |Full(x)|
    && Committed(s, Full(x)[..x.commitIndex], x.currTerm)
  }

  /** What peers had handed to their services by then is recorded, and what they knew committed is. */
  ghost predicate Retained(c: C.Cluster, s: State, safe: bool) {
    forall key :: RetainedFor(c, s, safe, key)
  }

  ghost predicate RetainedFor(c: C.Cluster, s: State, safe: bool, key: int) {
    && (forall i, m :: 0 <= i < |c.servers| && m in c.servers[i].applyCh ==> MsgOK(s, m))
    && (safe ==> forall i :: 0 <= i < |c.servers| ==> KnownCommitted(s, c.servers[i]))
  }

  lemma RetainedHere(c: C.Cluster, s: State, s': State, safe: bool)
    requires Records(c, s, safe) && Later(s, s')
    ensures Retained(c, s', safe)
  {
    assert RecordsFor(c, s, safe, 0) && LaterFor(s, s', 0);
    forall i, m | 0 <= i < |c.servers| && m in c.servers[i].applyCh ensures MsgOK(s', m) {
      PeerIs(c, s, i);
      MsgGrows(s, s', m);
    }
    if safe {
      forall i | 0 <= i < |c.servers| ensures KnownCommitted(s', c.servers[i]) {
        KnownCommittedHere(c, s, s', i);
      }
    }
    assert forall key :: RetainedFor(c, s', safe, key);
  }

  lemma KnownCommittedHere(c: C.Cluster, s: State, s': State, i: nat)
    requires Sim(c, s) && Secure(s) && AppliedWithinCommit(c) && Grows(s, s') && i < |c.servers|
    ensures KnownCommitted(s', c.servers[i])
  {
    assert SimFor(c, s, 0);
    var x := c.servers[i];
    assert SafeFor(s, 0);
    assert ReplicaCommit(s, s.replicas[i]);
    CommittedGrows(s, s', Full(x)[..x.commitIndex], x.currTerm, x.currTerm);
  }

  lemma RecordOf(n: nat, steps: seq<C.Step>) returns (s: State)
    ensures Sim(C.After(n, steps), s) && Sound(s)
    ensures Orderly(n, steps) ==> Secure(s) && AppliedWithinCommit(C.After(n, steps))
    ensures forall j {:trigger Retained(C.After(n, steps[..j]), s, Orderly(n, steps))} ::
      0 <= j <= |steps| ==> Retained(C.After(n, steps[..j]), s, Orderly(n, steps))
  {
    assert steps[..0] == [];
    RecordsStart(n, Orderly(n, steps));
    s := RecordFrom(n, steps, 0, Blank(n), Orderly(n, steps));
    assert RecordsFor(C.After(n, steps), s, Orderly(n, steps), 0);
  }

  lemma {:induction false} OrderlyPrefix(n: nat, steps: seq<C.Step>, k: nat)
    requires Orderly(n, steps) && k <= |steps|
    ensures Orderly(n, steps[..k])
  {
    forall j | 0 <= j < k ensures OrderlyStep(C.After(n, steps[..k][..j]), steps[..k][j]) {
      assert steps[..k][..j] == steps[..j];
    }
  }

  /** The records of two moments of one run. */
  lemma RecordsOf(n: nat, steps: seq<C.Step>, j: nat, k: nat) returns (s: State, s': State)
    requires j <= k <= |steps|
    ensures Sim(C.After(n, steps[..j]), s) && Sound(s) && Sim(C.After(n, steps[..k]), s') && Sound(s') && Grows(s, s')
    ensures Orderly(n, steps) ==> Secure(s) && Secure(s') && AppliedWithinCommit(C.After(n, steps[..k]))
  {
    var safe := Orderly(n, steps);
    if safe {
      OrderlyPrefix(n, steps, j);
      OrderlyPrefix(n, steps, k);
    }
    assert steps[..j][..0] == [];
    RecordsStart(n, safe);
    s := RecordFrom(n, steps[..j], 0, Blank(n), safe);
    assert steps[..k][..j] == steps[..j];
    s' := RecordFrom(n, steps[..k], j, s, safe);
    assert LaterFor(s, s', 0);
    assert RecordsFor(C.After(n, steps[..j]), s, safe, 0);
    assert RecordsFor(C.After(n, steps[..k]), s', safe, 0);
  }

  /** Peer `i` leads in `term`. */
  ghost predicate Leads(c: C.Cluster, i: nat, term: nat) {
    i < |c.servers| && c.servers[i].role == Leader && c.servers[i].currTerm == term
  }

  /** A leader's log is the one recorded for its term. */
  lemma LeaderLog(c: C.Cluster, s: State, i: nat, term: nat)
    requires Sim(c, s) && Sound(s) && Leads(c, i, term)
    ensures term in s.lead && |c.servers[i].logs| > 0 && Full(c.servers[i]) == s.lead[term]
  {
    assert SimFor(c, s, 0);
    assert BasicFor(s, 0);
    assert s.replicas[i].log == s.lead[term];
  }

  // ---------------------------------------------------------------------
  // Theorems that need no hypothesis
  // ---------------------------------------------------------------------

  /** The record of a run, and the two moments taken in order. */
  lemma LaterWinner(n: nat, steps: seq<C.Step>, j: nat, k: nat, p: nat, q: nat)
    requires j <= k <= |steps| && p < n && q < n
    requires C.After(n, steps[..j]).servers[p].role == Leader
    requires C.After(n, steps[..k]).servers[q].role == Leader
    requires C.After(n, steps[..j]).servers[p].currTerm == C.After(n, steps[..k]).servers[q].currTerm
    ensures p == q
  {
    var s, s' := RecordsOf(n, steps, j, k);
    LeaderWon(C.After(n, steps[..j]), s, p);
    LeaderWon(C.After(n, steps[..k]), s', q);
  }

  lemma LeaderWon(c: C.Cluster, s: State, i: nat)
    requires Sim(c, s) && Sound(s) && i < |c.servers| && c.servers[i].role == Leader
    ensures c.servers[i].currTerm in s.winner && s.winner[c.servers[i].currTerm] == i
  {
    PeerIs(c, s, i);
    assert BasicFor(s, 0);
    assert LeadersWon(s);
  }

  /**
   Election Safety: over a whole run, crashes and restarts included, at most one
   peer is ever leader in a given term.
   */
  lemma ElectionSafety(n: nat, steps: seq<C.Step>, j: nat, k: nat, p: nat, q: nat)
    requires j <= |steps| && k <= |steps| && p < n && q < n
    requires C.After(n, steps[..j]).servers[p].role == Leader
    requires C.After(n, steps[..k]).servers[q].role == Leader
    requires C.After(n, steps[..j]).servers[p].currTerm == C.After(n, steps[..k]).servers[q].currTerm
    ensures p == q
  {
    if j <= k {
      LaterWinner(n, steps, j, k, p, q);
    } else {
      LaterWinner(n, steps, k, j, q, p);
    }
  }

  /** `log` is the whole log of a peer, of an append request in flight, or of a snapshot in flight. */
  ghost predicate Present(c: C.Cluster, log: Log) {
    || (exists i :: 0 <= i < |c.servers| && |c.servers[i].logs| > 0 && log == Full(c.servers[i]))
    || (exists m :: m in c.net && m.AppendRequest? && log == m.log)
    || (exists m :: m in c.net && m.SnapshotRequest? && log == m.snap.data)
  }

  lemma PresentOK(c: C.Cluster, s: State, log: Log)
    requires Sim(c, s) && Sound(s) && Present(c, log)
    ensures LogOK(s.lead, log)
  {
    assert SimFor(c, s, 0);
    assert BasicFor(s, 0);
    if i :| 0 <= i < |c.servers| && |c.servers[i].logs| > 0 && log == Full(c.servers[i]) {
      assert s.replicas[i].log == log;
    } else if m :| m in c.net && m.AppendRequest? && log == m.log {
      PacketIs(c, s, m);
    } else {
      var m :| m in c.net && m.SnapshotRequest? && log == m.snap.data;
      PacketIs(c, s, m);
    }
  }

  lemma LogMatchingInOrder(n: nat, steps: seq<C.Step>, j: nat, k: nat, a: Log, b: Log, index: nat)
    requires j <= k <= |steps|
    requires Present(C.After(n, steps[..j]), a) && Present(C.After(n, steps[..k]), b)
    requires 1 <= index <= |a| && index <= |b| && a[index - 1].term == b[index - 1].term
    ensures a[..index] == b[..index]
  {
    var s, s' := RecordsOf(n, steps, j, k);
    PresentOK(C.After(n, steps[..j]), s, a);
    LogOKGrows(s.lead, s'.lead, a);
    PresentOK(C.After(n, steps[..k]), s', b);
    LogsMatch(s'.lead, a, b, index);
  }

  /**
   Log Matching: two logs, held by peers or in flight, at any two moments of a
   run, that have the same term at an index agree on everything up to it.  No
   assumption is made on senders.
   */
  lemma LogMatching(n: nat, steps: seq<C.Step>, j: nat, k: nat, a: Log, b: Log, index: nat)
    requires j <= |steps| && k <= |steps|
    requires Present(C.After(n, steps[..j]), a) && Present(C.After(n, steps[..k]), b)
    requires 1 <= index <= |a| && index <= |b| && a[index - 1].term == b[index - 1].term
    ensures a[..index] == b[..index]
  {
    if j <= k {
      LogMatchingInOrder(n, steps, j, k, a, b, index);
    } else {
      LogMatchingInOrder(n, steps, k, j, b, a, index);
    }
  }

  /** An append request in flight carries the tail of the log recorded with it. */
  lemma RequestsCarryLogs(n: nat, steps: seq<C.Step>, m: C.Packet)
    requires m in C.After(n, steps).net && m.AppendRequest?
    ensures Carries(m.append, m.log)
  {
    var s := RecordOf(n, steps);
    PacketIs(C.After(n, steps), s, m);
  }

  lemma RestartStep(c: C.Cluster, i: nat)
    requires C.WFCluster(c) && i < |c.servers|
    ensures var x, x' := c.servers[i], C.Next(c, C.Restart(i)).servers[i];
      && Record(x') == Record(x)
      && |x.logs| > 0 && |x'.logs| > 0 && Full(x') == Full(x) && x.lastIncludedIndex <= |Full(x)|
      && x'.snapshot == x.snapshot == Full(x)[..x.lastIncludedIndex]
      && x'.commitIndex == x'.lastApplied == x.lastIncludedIndex
  {
    RestartRecovers(c.servers[i]);
  }

  /**
   Durability: after any run, a peer that crashes and restarts recovers its
   term, its vote and the whole log it stood for, and resumes at its snapshot.
   */
  lemma Durability(n: nat, steps: seq<C.Step>, i: nat)
    requires i < n
    ensures var x, x' := C.After(n, steps).servers[i], C.After(n, steps + [C.Restart(i)]).servers[i];
      && Record(x') == Record(x)
      && |x.logs| > 0 && |x'.logs| > 0 && Full(x') == Full(x) && x.lastIncludedIndex <= |Full(x)|
      && x'.snapshot == x.snapshot == Full(x)[..x.lastIncludedIndex]
      && x'.commitIndex == x'.lastApplied == x.lastIncludedIndex
  {
    var steps' := steps + [C.Restart(i)];
    assert steps'[..|steps'| - 1] == steps;
    C.AfterWF(n, steps);
    RestartStep(C.After(n, steps), i);
  }

  /**
   Apply order: within one life of a peer the commands it sends come in strictly
   increasing index order, and where an index is skipped a snapshot reached
   exactly the index before.
   */
  lemma ApplyOrder(n: nat, steps: seq<C.Step>, i: nat, a: nat, b: nat)
    requires i < n
    requires var msgs := C.After(n, steps).servers[i].applyCh;
      a < b < |msgs| && msgs[a].CommandMsg? && msgs[b].CommandMsg?
    ensures var msgs := C.After(n, steps).servers[i].applyCh;
      && msgs[a].index < msgs[b].index
      && (msgs[b].index == 1 || exists d :: 0 <= d < b && msgs[d].index == msgs[b].index - 1)
  {
    C.PeerWF(n, steps, i);
    var msgs := C.After(n, steps).servers[i].applyCh;
    assert StreamFor(msgs, C.After(n, steps).servers[i].lastApplied, 0);
    LevelRises(msgs, a + 1, b);
    assert msgs[..a + 1][..a] == msgs[..a];
    LevelReached(msgs, b);
  }

  // ---------------------------------------------------------------------
  // Theorems about orderly runs
  // ---------------------------------------------------------------------

  lemma AppliedMatches(s: State, a: Log, bound: nat, x: Applied)
    requires Complete(s) && Committed(s, a, bound) && AppliedSound(s, x) && 1 <= x.index <= |a|
    ensures a[x.index - 1].command == x.command
  {
    var t: nat, k: nat :| AppliedBy(s, x, t, k);
    var b := s.lead[t][..k];
    assert CommittedBy(s, b, t, k);
    assert Committed(s, b, t);
    CommittedAgree(s, a, b, bound, t);
    assert a[x.index - 1] == b[x.index - 1];
  }

  lemma AppliedAgree(s: State, x: Applied, y: Applied)
    requires Complete(s) && AppliedSound(s, x) && AppliedSound(s, y) && x.index == y.index
    ensures x.command == y.command
  {
    var t: nat, k: nat :| AppliedBy(s, y, t, k);
    var b := s.lead[t][..k];
    assert CommittedBy(s, b, t, k);
    assert Committed(s, b, t);
    AppliedMatches(s, b, t, x);
  }

  lemma RunComplete(s: State)
    requires Sound(s) && Secure(s)
    ensures Complete(s)
  {
    assert BasicFor(s, 0) && SafeFor(s, 0);
    SafeIsComplete(s);
  }

  /** What a peer handed over had been committed. */
  lemma AppliedRecorded(c: C.Cluster, s: State, safe: bool, i: nat, m: ApplyMsg)
    requires Retained(c, s, safe) && Secure(s) && i < |c.servers| && m in c.servers[i].applyCh && m.CommandMsg?
    ensures AppliedSound(s, Applied(m.index, m.command))
  {
    assert RetainedFor(c, s, safe, 0);
    assert MsgOK(s, m);
    assert SafeFor(s, 0);
  }

  /**
   State Machine Safety: in an orderly run, with crashes, lost and reordered
   messages, trimmed logs and installed snapshots, no two peers ever hand
   different commands to their services at the same index.
   */
  lemma StateMachineSafety(n: nat, steps: seq<C.Step>, j: nat, k: nat, p: nat, q: nat, x: ApplyMsg, y: ApplyMsg)
    requires Orderly(n, steps) && j <= |steps| && k <= |steps| && p < n && q < n
    requires x in C.After(n, steps[..j]).servers[p].applyCh && x.CommandMsg?
    requires y in C.After(n, steps[..k]).servers[q].applyCh && y.CommandMsg?
    requires x.index == y.index
    ensures x.command == y.command
  {
    var s := RecordOf(n, steps);
    assert Retained(C.After(n, steps[..j]), s, Orderly(n, steps)) && Retained(C.After(n, steps[..k]), s, Orderly(n, steps));
    AppliedRecorded(C.After(n, steps[..j]), s, Orderly(n, steps), p, x);
    AppliedRecorded(C.After(n, steps[..k]), s, Orderly(n, steps), q, y);
    RunComplete(s);
    AppliedAgree(s, Applied(x.index, x.command), Applied(y.index, y.command));
  }

  /** At moment `k` peer `q` does not lead in a term from `term` on, or has `log` in its own. */
  ghost predicate HoldsIfLeading(n: nat, steps: seq<C.Step>, k: nat, q: nat, term: nat, log: Log)
    requires k <= |steps| && q < n
  {
    var y := C.After(n, steps[..k]).servers[q];
    y.role == Leader && term <= y.currTerm ==> |y.logs| > 0 && log <= Full(y)
  }

  /**
   Leader Completeness: what a peer knows committed was committed in some term
   no later than the peer's, as part of a log that ends with an entry of that
   term; and that log is in the log of every later leader from that term on.
   */
  lemma CommittedInLaterLeaders(n: nat, steps: seq<C.Step>, j: nat, p: nat) returns (term: nat, log: Log)
    requires Orderly(n, steps) && j <= |steps| && p < n
    ensures var x := C.After(n, steps[..j]).servers[p];
      && |x.logs| > 0 && x.commitIndex <= |Full(x)| && Full(x)[..x.commitIndex] <= log
      && term <= x.currTerm && (x.commitIndex > 0 ==> LastTerm(log) == term)
    ensures forall k: nat, q: nat :: j <= k <= |steps| && q < n ==> HoldsIfLeading(n, steps, k, q, term, log)
  {
    var s := RecordUntil(n, steps, j);
    var c := C.After(n, steps[..j]);
    var x := c.servers[p];
    assert RecordsFor(c, s, true, 0);
    PeerIs(c, s, p);
    assert SafeFor(s, 0);
    assert ReplicaCommit(s, s.replicas[p]);
    term, log := CommitOf(s, Full(x)[..x.commitIndex], x.currTerm);
    forall k: nat, q: nat | j <= k <= |steps| && q < n ensures HoldsIfLeading(n, steps, k, q, term, log) {
      LaterLeaderHolds(n, steps, j, s, k, q, term, log);
    }
  }

  lemma RecordUntil(n: nat, steps: seq<C.Step>, j: nat) returns (s: State)
    requires Orderly(n, steps) && j <= |steps|
    ensures Records(C.After(n, steps[..j]), s, true)
  {
    OrderlyPrefix(n, steps, j);
    assert steps[..j][..0] == [];
    RecordsStart(n, true);
    s := RecordFrom(n, steps[..j], 0, Blank(n), true);
  }

  /** The commit that covers a committed log, and all that it committed. */
  lemma CommitOf(s: State, a: Log, bound: nat) returns (term: nat, log: Log)
    requires Sound(s) && Secure(s) && Committed(s, a, bound)
    ensures term <= bound && a <= log && Committed(s, log, term) && (a != [] ==> LastTerm(log) == term)
  {
    assert BasicFor(s, 0) && SafeFor(s, 0);
    term, log := 0, [];
    if a != [] {
      var t: nat, k: nat :| t <= bound && CommittedBy(s, a, t, k);
      assert CommitOK(s, t, k);
      LeadTerm(s, t, k - 1);
      term, log := t, s.lead[t][..k];
      assert CommittedBy(s, log, t, k);
    }
  }

  lemma LaterLeaderHolds(n: nat, steps: seq<C.Step>, j: nat, s: State, k: nat, q: nat, term: nat, log: Log)
    requires Orderly(n, steps) && j <= k <= |steps| && q < n && Records(C.After(n, steps[..j]), s, true)
    requires Committed(s, log, term)
    ensures HoldsIfLeading(n, steps, k, q, term, log)
  {
    OrderlyPrefix(n, steps, k);
    assert steps[..k][..j] == steps[..j];
    var s' := RecordFrom(n, steps[..k], j, s, true);
    var y := C.After(n, steps[..k]).servers[q];
    assert LaterFor(s, s', 0) && RecordsFor(C.After(n, steps[..k]), s', true, 0);
    if y.role == Leader && term <= y.currTerm {
      PeerIs(C.After(n, steps[..k]), s', q);
      CommittedGrows(s, s', log, term, term);
      CommittedInLeader(s', q, log, term);
    }
  }

  lemma CommittedInLeader(s: State, q: nat, log: Log, bound: nat)
    requires Sound(s) && Secure(s) && q < |s.replicas| && s.replicas[q].role == Leader
    requires Committed(s, log, bound) && bound <= s.replicas[q].term
    ensures log <= s.replicas[q].log
  {
    assert BasicFor(s, 0) && SafeFor(s, 0);
    SafeIsComplete(s);
    CommittedInLead(s, log, bound, s.replicas[q].term);
  }

  /**
   The follower's `min(LeaderCommit, lastLogicalIndex())` never reaches past
   what the request matched: every request carries its sender's whole suffix,
   which covers its sender's commit index.
   */
  lemma RequestCoversCommit(n: nat, steps: seq<C.Step>, m: C.Packet)
    requires Orderly(n, steps) && m in C.After(n, steps).net && m.AppendRequest?
    ensures m.append.leaderCommit <= m.append.prevLogIndex + |m.append.entries|
  {
    var s := RecordOf(n, steps);
    PacketIs(C.After(n, steps), s, m);
    assert SafeFor(s, 0);
    assert OfferOK(s, Offer(m.append.term, m.log, m.append.leaderCommit));
  }

  /**
   In an orderly run commit indices never fall within one life of a peer, and
   stay between what was handed over and the end of the log.
   */
  lemma CommitIndexMonotone(n: nat, steps: seq<C.Step>, step: C.Step, i: nat)
    requires Orderly(n, steps) && i < n && step != C.Restart(i)
    ensures var x, x' := C.After(n, steps).servers[i], C.After(n, steps + [step]).servers[i];
      && x.commitIndex <= x'.commitIndex
      && x.lastIncludedIndex <= x.lastApplied <= x.commitIndex <= LastLogicalIndex(x)
  {
    var s := RecordOf(n, steps);
    var c := C.After(n, steps);
    assert (steps + [step])[..|steps|] == steps;
    CommitRises(c, s, step, i);
    PeerIs(c, s, i);
    assert SafeFor(s, 0);
    assert ReplicaCommit(s, s.replicas[i]);
    LastFacts(c.servers[i]);
  }
}
