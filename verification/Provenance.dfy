/**
 Where log entries come from: in every run each entry of every log was started
 by a client at the leader of the entry's term, at the place it stands, once.
 */
module Provenance {
  import opened RaftTypes
  import opened RaftPeer
  import opened RaftPeerFacts
  import opened Consensus
  import opened Refinement
  import opened Simulation
  import opened RaftTheorems
  import C = Cluster

  /** At moment `j` peer `i`, leading, starts what becomes the entry `e` after `x` others. */
  ghost predicate StartedAt(n: nat, steps: seq<C.Step>, i: nat, j: nat, x: nat, e: LogEntry) {
    && i < n && j < |steps| && steps[j] == C.ClientStart(i, e.command)
    && var l := C.After(n, steps[..j]).servers[i];
      l.role == Leader && x == LastLogicalIndex(l) && e.term == l.currTerm
  }

  /** The entry was started before moment `k`. */
  ghost predicate Born(n: nat, steps: seq<C.Step>, k: nat, x: nat, e: LogEntry) {
    exists i: nat, j: nat :: j < k && StartedAt(n, steps, i, j, x, e)
  }

  ghost predicate AllBorn(n: nat, steps: seq<C.Step>, k: nat, log: Log) {
    forall x :: 0 <= x < |log| ==> Born(n, steps, k, x, log[x])
  }

  lemma BornLater(n: nat, steps: seq<C.Step>, k: nat, k': nat, log: Log)
    requires AllBorn(n, steps, k, log) && k <= k'
    ensures AllBorn(n, steps, k', log)
  {
    forall x | 0 <= x < |log| ensures Born(n, steps, k', x, log[x]) {
      assert Born(n, steps, k, x, log[x]);
      var i: nat, j: nat :| j < k && StartedAt(n, steps, i, j, x, log[x]);
      assert j < k' && StartedAt(n, steps, i, j, x, log[x]);
    }
  }

  // ---------------------------------------------------------------------
  // Every log is made of entries that were started
  // ---------------------------------------------------------------------

  /** The log a message brings. */
  function Brought(m: C.Packet): Log {
    match m
    case AppendRequest(_, _, _, log) => log
    case SnapshotRequest(_, _, args) => args.data
    case _ => []
  }

  ghost predicate OriginsFor(n: nat, steps: seq<C.Step>, k: nat, c: C.Cluster, key: int) {
    && (forall i :: 0 <= i < |c.servers| ==> |c.servers[i].logs| > 0 && AllBorn(n, steps, k, Full(c.servers[i])))
    && (forall m :: m in c.net ==> AllBorn(n, steps, k, Brought(m)))
  }

  ghost predicate Origins(n: nat, steps: seq<C.Step>, k: nat, c: C.Cluster) {
    forall key {:trigger OriginsFor(n, steps, k, c, key)} :: OriginsFor(n, steps, k, c, key)
  }

  lemma AppendLog(c: C.Cluster, s: State, m: C.Packet)
    requires Sim(c, s) && Sound(s) && m in c.net && m.AppendRequest?
    ensures var x, x' := c.servers[m.dst], AppendEntries(c.servers[m.dst], m.append).0;
      |x.logs| > 0 && |x'.logs| > 0 && (Full(x') == Full(x) || Full(x') == m.log)
  {
    var x, args := c.servers[m.dst], m.append;
    PacketIs(c, s, m);
    PeerIs(c, s, m.dst);
    if args.term >= x.currTerm && AppendEntries(x, args).1.success {
      var x1 := if args.term > x.currTerm then StepDown(x, args.term) else x.(role := Follower);
      LogsAreOK(s, m.dst, Offer(args.term, m.log, args.leaderCommit));
      AcceptFacts(s.lead, x1, PhysicalIndex(x1, args.prevLogIndex), args, m.log);
    }
  }

  lemma InstallLog(c: C.Cluster, s: State, m: C.Packet)
    requires Sim(c, s) && Sound(s) && m in c.net && m.SnapshotRequest?
    ensures var x, x' := c.servers[m.dst], InstallSnapshot(c.servers[m.dst], m.snap).0;
      |x.logs| > 0 && |x'.logs| > 0 && (Full(x') == Full(x) || Full(x') == m.snap.data)
  {
    var x, args := c.servers[m.dst], m.snap;
    PacketIs(c, s, m);
    PeerIs(c, s, m.dst);
    if args.term >= x.currTerm && x.lastIncludedIndex < args.lastIncludedIndex {
      var x1 := if args.term > x.currTerm then StepDown(x, args.term) else x.(role := Follower);
      SnapLogsAreOK(s, m.dst, Snap(m.src, args.term, args.data));
      InstallFull(s.lead, x1, args);
    }
  }

  /** What a step makes of a peer's log. */
  ghost predicate LogMoves(c: C.Cluster, step: C.Step, x: Server, x': Server, i: nat) {
    && |x.logs| > 0 && |x'.logs| > 0
    && (|| Full(x') == Full(x)
        || (step.Deliver? && step.packet in c.net && Full(x') == Brought(step.packet))
        || (step.ClientStart? && step.i == i && x.role == Leader && Full(x') == Full(x) + [LogEntry(x.currTerm, step.command)]))
  }

  lemma DeliverMoves(c: C.Cluster, s: State, m: C.Packet)
    requires Sim(c, s) && Sound(s) && m in c.net
    ensures |C.Handle(c, m).servers| == |c.servers|
    ensures LogMoves(c, C.Deliver(m), c.servers[m.dst], C.Handle(c, m).servers[m.dst], m.dst)
  {
    var x := c.servers[m.dst];
    match m
    case AppendRequest(_, _, _, _) => AppendLog(c, s, m);
    case SnapshotRequest(_, _, _) => InstallLog(c, s, m);
    case AppendReply(_, _, args, reply) => HandleAppendReplyFacts(x, m.src, args, reply);
    case VoteRequest(_, _, _, _) =>
    case VoteReply(_, _, _, _) =>
    case SnapshotReply(_, _, _, _) =>
  }

  lemma StepMoves(c: C.Cluster, s: State, step: C.Step, i: nat)
    requires Sim(c, s) && Sound(s) && i < |c.servers|
    ensures |C.Next(c, step).servers| == |c.servers|
    ensures LogMoves(c, step, c.servers[i], C.Next(c, step).servers[i], i)
  {
    var x := c.servers[i];
    assert WF(x);
    if C.Enabled(c, step) {
      match step
      case Deliver(m) => DeliverMoves(c, s, m);
      case ClientStart(_, command) => if x.role == Leader { StartFacts(x, command); }
      case TakeSnapshot(p, index) => SnapshotFacts(c.servers[p], index);
      case Restart(p) => RestartRecovers(c.servers[p]);
      case FeedService(p) => SendApplyMsgFacts(c.servers[p]);
      case _ =>
    }
  }

  /** What a step sends, a peer held. */
  lemma SentMoves(c: C.Cluster, step: C.Step, m: C.Packet)
    requires C.WFCluster(c) && m in C.Next(c, step).net && m !in c.net
    ensures Brought(m) == [] || exists i :: 0 <= i < |c.servers| && |c.servers[i].logs| > 0 && Brought(m) <= Full(c.servers[i])
  {
    if step.SendAppend? || step.SendSnapshot? {
      var x := c.servers[step.i];
      assert WF(x);
      assert Brought(m) <= Full(x);
    }
  }

  lemma PeerOrigin(n: nat, steps: seq<C.Step>, k: nat, s: State, i: nat)
    requires k < |steps| && Sim(C.After(n, steps[..k]), s) && Sound(s) && i < n && Origins(n, steps, k, C.After(n, steps[..k]))
    ensures var x := C.After(n, steps[..k + 1]).servers[i]; |x.logs| > 0 && AllBorn(n, steps, k + 1, Full(x))
  {
    var c := C.After(n, steps[..k]);
    AfterNext(n, steps, k);
    StepMoves(c, s, steps[k], i);
    assert OriginsFor(n, steps, k, c, 0);
    var x, x' := c.servers[i], C.After(n, steps[..k + 1]).servers[i];
    BornLater(n, steps, k, k + 1, Full(x));
    if Full(x') == Full(x) {
    } else if steps[k].Deliver? {
      BornLater(n, steps, k, k + 1, Brought(steps[k].packet));
    } else {
      LastFacts(x);
      assert StartedAt(n, steps, i, k, |Full(x)|, LogEntry(x.currTerm, steps[k].command));
    }
  }

  lemma PacketOrigin(n: nat, steps: seq<C.Step>, k: nat, m: C.Packet)
    requires k < |steps| && Origins(n, steps, k, C.After(n, steps[..k])) && m in C.After(n, steps[..k + 1]).net
    ensures AllBorn(n, steps, k + 1, Brought(m))
  {
    var c := C.After(n, steps[..k]);
    AfterNext(n, steps, k);
    assert OriginsFor(n, steps, k, c, 0);
    if m in c.net {
      BornLater(n, steps, k, k + 1, Brought(m));
    } else {
      SentMoves(c, steps[k], m);
      if Brought(m) != [] {
        var i :| 0 <= i < |c.servers| && |c.servers[i].logs| > 0 && Brought(m) <= Full(c.servers[i]);
        BornLater(n, steps, k, k + 1, Full(c.servers[i]));
      }
    }
  }

  lemma OriginsStart(n: nat, steps: seq<C.Step>)
    ensures Origins(n, steps, 0, C.Init(n))
  {
    assert OriginsFor(n, steps, 0, C.Init(n), 0);
  }

  lemma OriginsNext(n: nat, steps: seq<C.Step>, k: nat)
    requires k < |steps| && Origins(n, steps, k, C.After(n, steps[..k]))
    ensures Origins(n, steps, k + 1, C.After(n, steps[..k + 1]))
  {
    var s, s' := RecordsOf(n, steps, k, k);
    var c' := C.After(n, steps[..k + 1]);
    forall i | 0 <= i < n ensures |c'.servers[i].logs| > 0 && AllBorn(n, steps, k + 1, Full(c'.servers[i])) {
      PeerOrigin(n, steps, k, s, i);
    }
    forall m | m in c'.net ensures AllBorn(n, steps, k + 1, Brought(m)) {
      PacketOrigin(n, steps, k, m);
    }
    assert OriginsFor(n, steps, k + 1, c', 0);
  }

  lemma {:induction false} RunOrigins(n: nat, steps: seq<C.Step>, k: nat)
    requires k <= |steps|
    ensures Origins(n, steps, k, C.After(n, steps[..k]))
    decreases k
  {
    if k == 0 {
      assert steps[..0] == [];
      OriginsStart(n, steps);
    } else {
      RunOrigins(n, steps, k - 1);
      OriginsNext(n, steps, k - 1);
    }
  }

  /** No entry comes from nowhere: whatever a peer's log holds was started, where it stands, at the leader of its term. */
  lemma EntriesWereStarted(n: nat, steps: seq<C.Step>, k: nat, i: nat)
    requires k <= |steps| && i < n
    ensures var x := C.After(n, steps[..k]).servers[i]; |x.logs| > 0 && AllBorn(n, steps, k, Full(x))
  {
    RunOrigins(n, steps, k);
    assert OriginsFor(n, steps, k, C.After(n, steps[..k]), 0);
  }

  // ---------------------------------------------------------------------
  // Once
  // ---------------------------------------------------------------------

  /** The entry is still there as long as the term is. */
  lemma EntryStays(n: nat, steps: seq<C.Step>, i: nat, j: nat, x: nat, e: LogEntry, k: nat)
    requires StartedAt(n, steps, i, j, x, e) && j < k <= |steps| && Leads(C.After(n, steps[..k]), i, e.term)
    ensures var y := C.After(n, steps[..k]).servers[i];
      |y.logs| > 0 && x < |Full(y)| && Full(y)[x] == e
  {
    var l := C.After(n, steps[..j]).servers[i];
    AfterNext(n, steps, j);
    C.PeerWF(n, steps[..j], i);
    StartFacts(l, e.command);
    LastFacts(l);
    var s, s' := RecordsOf(n, steps, j + 1, k);
    LeaderLog(C.After(n, steps[..j + 1]), s, i, e.term);
    LeaderLog(C.After(n, steps[..k]), s', i, e.term);
    assert Full(l) + [e] <= Full(C.After(n, steps[..k]).servers[i]);
  }

  lemma NotStartedAgain(n: nat, steps: seq<C.Step>, i: nat, j: nat, j': nat, x: nat, e: LogEntry)
    requires StartedAt(n, steps, i, j, x, e) && StartedAt(n, steps, i, j', x, e)
    ensures j' <= j
  {
    if j < j' {
      EntryStays(n, steps, i, j, x, e, j');
      C.PeerWF(n, steps[..j'], i);
      LastFacts(C.After(n, steps[..j']).servers[i]);
    }
  }

  /** An entry is started once. */
  lemma StartedOnce(n: nat, steps: seq<C.Step>, i: nat, j: nat, i': nat, j': nat, x: nat, e: LogEntry)
    requires StartedAt(n, steps, i, j, x, e) && StartedAt(n, steps, i', j', x, e)
    ensures i == i' && j == j'
  {
    ElectionSafety(n, steps, j, j', i, i');
    NotStartedAgain(n, steps, i, j, j', x, e);
    NotStartedAgain(n, steps, i, j', j, x, e);
  }
}
