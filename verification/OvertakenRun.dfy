/**
 A run of three peers after which a service can be told of a command before
 the snapshot the command follows.  Each snapshot is sent to the service by a
 goroutine of its own, so nothing but chance keeps it in its place.
 */
module OvertakenRun {
  import opened Options
  import opened Collections
  import opened RaftTypes
  import opened RaftPeer
  import opened RaftPeerFacts
  import opened RaftTheorems
  import opened KvMachine
  import opened KvDelivery
  import opened KvRuns
  import C = Cluster

  // ---------------------------------------------------------------------
  // Runs of three peers
  // ---------------------------------------------------------------------

  /** What matters of a peer. */
  datatype Look = Look(
    term: nat,
    vote: int,
    role: Role,
    logs: Log,
    base: nat,
    commit: nat,
    applied: nat,
    next: seq<nat>,
    matched: seq<nat>,
    snapshot: Log,
    sent: seq<ApplyMsg>)

  function LookOf(x: Server): Look {
    Look(x.currTerm, x.votedFor, x.role, x.logs, x.lastIncludedIndex, x.commitIndex, x.lastApplied,
         x.nextIndex, x.matchIndex, x.snapshot, x.applyCh)
  }

  function Last(l: Look): int { l.base + |l.logs| - 1 }

  ghost predicate ReachedFor(steps: seq<C.Step>, c: C.Cluster, ls: seq<Look>, key: int) {
    && c == C.After(3, steps) && Orderly(3, steps) && (forall step :: step in steps ==> !step.Restart?)
    && |ls| == 3 && forall i :: 0 <= i < 3 ==> LookOf(c.servers[i]) == ls[i]
  }

  /** An orderly run without crashes that ends in `c`, where the peers look like `ls`. */
  ghost predicate Reached(steps: seq<C.Step>, c: C.Cluster, ls: seq<Look>) {
    |ls| == 3 && forall key {:trigger ReachedFor(steps, c, ls, key)} :: ReachedFor(steps, c, ls, key)
  }

  lemma Here(steps: seq<C.Step>, c: C.Cluster, ls: seq<Look>)
    requires Reached(steps, c, ls)
    ensures C.WFCluster(c) && |c.servers| == 3
    ensures forall i :: 0 <= i < 3 ==> LookOf(c.servers[i]) == ls[i]
  {
    assert ReachedFor(steps, c, ls, 0);
    C.AfterWF(3, steps);
  }

  /** One peer changes, and messages are only added. */
  ghost predicate Moves(c: C.Cluster, c': C.Cluster, i: nat, x: Server) {
    i < |c.servers| && c'.servers == c.servers[i := x] && c.net <= c'.net
  }

  lemma OrderlySnoc(steps: seq<C.Step>, step: C.Step)
    requires Orderly(3, steps) && OrderlyStep(C.After(3, steps), step)
    ensures Orderly(3, steps + [step])
  {
    var all := steps + [step];
    forall k | 0 <= k < |all| ensures OrderlyStep(C.After(3, all[..k]), all[k]) {
      if k < |steps| {
        assert all[..k] == steps[..k] && all[k] == steps[k];
      } else {
        assert all[..k] == steps;
      }
    }
  }

  lemma Moved(steps: seq<C.Step>, c: C.Cluster, ls: seq<Look>, step: C.Step, i: nat, x: Server)
    returns (steps': seq<C.Step>, c': C.Cluster)
    requires Reached(steps, c, ls) && C.WFCluster(c) && OrderlyStep(c, step) && !step.Restart?
    requires i < 3 && Moves(c, C.Next(c, step), i, x)
    ensures c' == C.Next(c, step) && c.net <= c'.net && |c'.servers| == 3 && c'.servers[i] == x
    ensures Reached(steps', c', ls[i := LookOf(x)])
  {
    assert ReachedFor(steps, c, ls, 0);
    steps', c' := steps + [step], C.Next(c, step);
    OrderlySnoc(steps, step);
    assert steps'[..|steps|] == steps;
    assert ReachedFor(steps', c', ls[i := LookOf(x)], 0);
  }

  // ---------------------------------------------------------------------
  // Elections
  // ---------------------------------------------------------------------

  lemma Elect(steps: seq<C.Step>, c: C.Cluster, ls: seq<Look>, i: nat, v: nat)
    returns (steps': seq<C.Step>, c': C.Cluster)
    requires Reached(steps, c, ls) && i < 3 && v < 3 && i != v && ls[i].logs == [LogEntry(0, Nil)] && ls[i].base == 0
    ensures Reached(steps', c', ls[i := ls[i].(term := ls[i].term + 1, vote := i, role := Candidate)])
    ensures |c'.servers| == 3 && c'.servers[i].votes == {i}
    ensures C.VoteRequest(i, v, RequestVoteArgs(ls[i].term + 1, i, 0, 0), []) in c'.net
  {
    Here(steps, c, ls);
    var x := StartElection(c.servers[i]);
    StartElectionFacts(c.servers[i]);
    assert v in Below(3);
    assert Full(x) == [];
    steps', c' := Moved(steps, c, ls, C.Elect(i), i, x);
  }

  lemma Vote(steps: seq<C.Step>, c: C.Cluster, ls: seq<Look>, i: nat, v: nat, args: RequestVoteArgs)
    returns (steps': seq<C.Step>, c': C.Cluster)
    requires Reached(steps, c, ls) && i < 3 && v < 3 && i != v && ls[v].logs == [LogEntry(0, Nil)] && ls[v].base == 0
    requires ls[v].term < args.term && args.candidateId == i && args.lastLogTerm == 0
    requires C.VoteRequest(i, v, args, []) in c.net && |c.servers| == 3
    ensures Reached(steps', c', ls[v := ls[v].(term := args.term, vote := i, role := Follower)])
    ensures |c'.servers| == 3 && c'.servers[i] == c.servers[i]
    ensures C.VoteReply(v, i, args.term, RequestVoteReply(args.term, true)) in c'.net
  {
    Here(steps, c, ls);
    steps', c' := Moved(steps, c, ls, C.Deliver(C.VoteRequest(i, v, args, [])), v, RequestVote(c.servers[v], args).0);
  }

  lemma Count(steps: seq<C.Step>, c: C.Cluster, ls: seq<Look>, i: nat, v: nat)
    returns (steps': seq<C.Step>, c': C.Cluster)
    requires Reached(steps, c, ls) && i < 3 && v < 3 && i != v && ls[i].role == Candidate
    requires |c.servers| == 3 && c.servers[i].votes == {i}
    requires C.VoteReply(v, i, ls[i].term, RequestVoteReply(ls[i].term, true)) in c.net
    ensures Reached(steps', c', ls) && |c'.servers| == 3 && ls[i].term in c'.servers[i].elected
  {
    Here(steps, c, ls);
    var reply := RequestVoteReply(ls[i].term, true);
    var x := HandleVoteReply(c.servers[i], v, ls[i].term, reply);
    assert c.servers[i].votes + {v} == {i, v};
    steps', c' := Moved(steps, c, ls, C.Deliver(C.VoteReply(v, i, ls[i].term, reply)), i, x);
    assert ls[i := LookOf(x)] == ls;
  }

  lemma Win(steps: seq<C.Step>, c: C.Cluster, ls: seq<Look>, i: nat)
    returns (steps': seq<C.Step>, c': C.Cluster, next: seq<nat>)
    requires Reached(steps, c, ls) && i < 3 && ls[i].role == Candidate && ls[i].matched == [0, 0, 0]
    requires |c.servers| == 3 && ls[i].term in c.servers[i].elected
    ensures Reached(steps', c', ls[i := ls[i].(role := Leader, next := next)])
    ensures |next| == 3 && forall p :: 0 <= p < 3 && p != i ==> next[p] == Last(ls[i]) + 1
  {
    Here(steps, c, ls);
    var y := c.servers[i];
    var x := BecomeLeader(y.(elected := y.elected - {y.currTerm}), y.currTerm);
    next := x.nextIndex;
    steps', c' := Moved(steps, c, ls, C.Win(i, y.currTerm), i, x);
  }

  // ---------------------------------------------------------------------
  // Replication
  // ---------------------------------------------------------------------

  lemma Begin(steps: seq<C.Step>, c: C.Cluster, ls: seq<Look>, i: nat, command: Command)
    returns (steps': seq<C.Step>, c': C.Cluster)
    requires Reached(steps, c, ls) && i < 3 && ls[i].role == Leader
    ensures Reached(steps', c', ls[i := ls[i].(logs := ls[i].logs + [LogEntry(ls[i].term, command)])])
  {
    Here(steps, c, ls);
    steps', c' := Moved(steps, c, ls, C.ClientStart(i, command), i, Start(c.servers[i], command));
  }

  /** What a leader sends a peer whose next entry is `k` entries past the sentinel. */
  function Request(l: Look, i: nat, k: nat): AppendEntriesArgs
    requires 1 <= k <= |l.logs|
  {
    AppendEntriesArgs(l.term, i, l.base + k - 1, l.logs[k - 1].term, l.logs[k..], l.commit)
  }

  lemma Send(steps: seq<C.Step>, c: C.Cluster, ls: seq<Look>, i: nat, f: nat, k: nat)
    returns (steps': seq<C.Step>, c': C.Cluster, log: Log)
    requires Reached(steps, c, ls) && i < 3 && f < 3 && i != f && ls[i].role == Leader && f < |ls[i].next|
    requires ls[i].next[f] == ls[i].base + k && 1 <= k <= |ls[i].logs|
    ensures Reached(steps', c', ls) && C.AppendRequest(i, f, Request(ls[i], i, k), log) in c'.net
  {
    Here(steps, c, ls);
    var x := c.servers[i];
    log := Full(x);
    assert BuildAppend(x, f) == Request(ls[i], i, k);
    steps', c' := Moved(steps, c, ls, C.SendAppend(i, f), i, x);
    assert ls[i := LookOf(x)] == ls;
  }

  /** A follower whose log ends where the request begins. */
  function Extended(l: Look, args: AppendEntriesArgs): Look {
    l.(term := args.term, vote := if args.term > l.term then -1 else l.vote, role := Follower, logs := l.logs + args.entries,
    commit := if args.leaderCommit > l.commit && Last(l) >= 0 then Min(args.leaderCommit, Last(l) + |args.entries|) else l.commit)
  }

  lemma AcceptLook(x: Server, args: AppendEntriesArgs)
    requires WF(x) && x.currTerm <= args.term && args.prevLogIndex == LastLogicalIndex(x)
    requires args.prevLogTerm == x.logs[|x.logs| - 1].term
    ensures LookOf(AppendEntries(x, args).0) == Extended(LookOf(x), args)
    ensures AppendEntries(x, args).1 == AppendEntriesReply(true, 0, 0, 0)
  {
    assert Merge(x.logs, |x.logs|, args.entries) == x.logs + args.entries;
  }

  lemma Accept(steps: seq<C.Step>, c: C.Cluster, ls: seq<Look>, i: nat, f: nat, args: AppendEntriesArgs, log: Log)
    returns (steps': seq<C.Step>, c': C.Cluster)
    requires Reached(steps, c, ls) && i < 3 && f < 3 && C.AppendRequest(i, f, args, log) in c.net
    requires |ls[f].logs| > 0 && ls[f].term <= args.term && args.prevLogIndex == Last(ls[f])
    requires args.prevLogTerm == ls[f].logs[|ls[f].logs| - 1].term
    ensures Reached(steps', c', ls[f := Extended(ls[f], args)])
    ensures C.AppendReply(f, i, args, AppendEntriesReply(true, 0, 0, 0)) in c'.net
  {
    Here(steps, c, ls);
    AcceptLook(c.servers[f], args);
    steps', c' := Moved(steps, c, ls, C.Deliver(C.AppendRequest(i, f, args, log)), f, AppendEntries(c.servers[f], args).0);
  }

  /** With one follower of two, a leader of three commits. */
  lemma AckLook(x: Server, f: nat, args: AppendEntriesArgs)
    requires WF(x) && x.peers == 3 && f < 3 && f != x.me && x.role == Leader && x.currTerm == args.term
    requires args.prevLogIndex + |args.entries| == LastLogicalIndex(x) && x.matchIndex[f] <= LastLogicalIndex(x)
    requires x.logs[|x.logs| - 1].term == x.currTerm && x.commitIndex <= LastLogicalIndex(x)
    ensures var last := LastLogicalIndex(x);
      LookOf(HandleAppendReply(x, f, args, AppendEntriesReply(true, 0, 0, 0))) ==
      LookOf(x).(commit := last, next := x.nextIndex[f := last + 1], matched := x.matchIndex[f := last])
  {
    MatchLook(x, f);
  }

  lemma MatchLook(x: Server, f: nat)
    requires WF(x) && x.peers == 3 && f < 3 && f != x.me && x.matchIndex[f] <= LastLogicalIndex(x)
    requires x.logs[|x.logs| - 1].term == x.currTerm && x.commitIndex <= LastLogicalIndex(x)
    ensures var last := LastLogicalIndex(x);
      LookOf(RecordMatch(x, f, last)) ==
      LookOf(x).(commit := last, next := x.nextIndex[f := last + 1], matched := x.matchIndex[f := last])
  {
    var last := LastLogicalIndex(x);
    var x1 := SetNext(x.(matchIndex := x.matchIndex[f := last]), f, last + 1);
    assert WF(x1) && RecordMatch(x, f, last) == CommitIndexUpdate(x1);
    LastCommits(x1, f);
  }

  lemma LastCommits(x: Server, f: nat)
    requires WF(x) && x.peers == 3 && f < 3 && f != x.me && x.matchIndex[f] == LastLogicalIndex(x)
    requires x.logs[|x.logs| - 1].term == x.currTerm && x.commitIndex <= LastLogicalIndex(x)
    ensures CommitTarget(x, LastLogicalIndex(x)) == LastLogicalIndex(x)
  {
    SubsetSize({x.me, f}, Holders(x, LastLogicalIndex(x)));
    assert x.commitIndex == LastLogicalIndex(x) || Committable(x, LastLogicalIndex(x));
  }

  lemma Ack(steps: seq<C.Step>, c: C.Cluster, ls: seq<Look>, i: nat, f: nat, args: AppendEntriesArgs)
    returns (steps': seq<C.Step>, c': C.Cluster)
    requires Reached(steps, c, ls) && i < 3 && f < 3 && i != f && ls[i].role == Leader && ls[i].term == args.term
    requires C.AppendReply(f, i, args, AppendEntriesReply(true, 0, 0, 0)) in c.net
    requires |ls[i].next| == |ls[i].matched| == 3 && args.prevLogIndex + |args.entries| == Last(ls[i]) && |ls[i].logs| > 0
    requires ls[i].matched[f] <= Last(ls[i]) && ls[i].commit <= Last(ls[i]) && ls[i].logs[|ls[i].logs| - 1].term == ls[i].term
    ensures var last := Last(ls[i]);
      Reached(steps', c', ls[i := ls[i].(commit := last, next := ls[i].next[f := last + 1], matched := ls[i].matched[f := last])])
  {
    Here(steps, c, ls);
    var reply := AppendEntriesReply(true, 0, 0, 0);
    AckLook(c.servers[i], f, args);
    steps', c' := Moved(steps, c, ls, C.Deliver(C.AppendReply(f, i, args, reply)), i, HandleAppendReply(c.servers[i], f, args, reply));
  }

  lemma Feed(steps: seq<C.Step>, c: C.Cluster, ls: seq<Look>, i: nat)
    returns (steps': seq<C.Step>, c': C.Cluster)
    requires Reached(steps, c, ls) && i < 3 && ls[i].base <= ls[i].applied < ls[i].commit <= Last(ls[i])
    ensures var l := ls[i];
      Reached(steps', c', ls[i := l.(applied := l.applied + 1,
                                     sent := l.sent + [CommandMsg(l.logs[l.applied + 1 - l.base].command, l.applied + 1)])])
  {
    Here(steps, c, ls);
    steps', c' := Moved(steps, c, ls, C.FeedService(i), i, SendApplyMsg(c.servers[i]));
  }

  // ---------------------------------------------------------------------
  // Snapshots
  // ---------------------------------------------------------------------

  /** The service of a leader with one entry snapshots it. */
  lemma Trim(steps: seq<C.Step>, c: C.Cluster, ls: seq<Look>, i: nat, e: LogEntry)
    returns (steps': seq<C.Step>, c': C.Cluster)
    requires Reached(steps, c, ls) && i < 3 && ls[i].logs == [LogEntry(0, Nil), e] && ls[i].base == 0 && ls[i].applied == 1
    ensures Reached(steps', c', ls[i := ls[i].(logs := [LogEntry(e.term, Nil)], base := 1, snapshot := [e])])
  {
    Here(steps, c, ls);
    var x := c.servers[i];
    assert x.snapshot == [] && x.logs[1..] == [e] && [] + [e] == [e];
    assert Full(x)[..1] == [e] && [LogEntry(e.term, Nil)] + x.logs[2..] == [LogEntry(e.term, Nil)];
    steps', c' := Moved(steps, c, ls, C.TakeSnapshot(i, 1), i, RaftPeer.Snapshot(x, 1));
  }

  lemma SendSnap(steps: seq<C.Step>, c: C.Cluster, ls: seq<Look>, i: nat, f: nat, e: LogEntry)
    returns (steps': seq<C.Step>, c': C.Cluster)
    requires Reached(steps, c, ls) && i < 3 && f < 3 && i != f && ls[i].base == 1 && ls[i].snapshot == [e]
    ensures Reached(steps', c', ls)
    ensures C.SnapshotRequest(i, f, InstallSnapshotArgs(ls[i].term, i, 1, e.term, [e])) in c'.net
  {
    Here(steps, c, ls);
    steps', c' := Moved(steps, c, ls, C.SendSnapshot(i, f), i, c.servers[i]);
    assert ls[i := LookOf(c.servers[i])] == ls;
  }

  /** A peer that holds nothing installs a snapshot. */
  lemma TakeIn(steps: seq<C.Step>, c: C.Cluster, ls: seq<Look>, i: nat, f: nat, args: InstallSnapshotArgs)
    returns (steps': seq<C.Step>, c': C.Cluster)
    requires Reached(steps, c, ls) && i < 3 && f < 3 && C.SnapshotRequest(i, f, args) in c.net && args.lastIncludedIndex == 1
    requires ls[f].term < args.term && ls[f].logs == [LogEntry(0, Nil)] && ls[f].base == ls[f].commit == ls[f].applied == 0
    ensures Reached(steps', c', ls[f := ls[f].(term := args.term, vote := -1, role := Follower,
                                               logs := [LogEntry(args.lastIncludedTerm, Nil)], base := 1, commit := 1, applied := 1, snapshot := args.data,
                                               sent := ls[f].sent + [SnapshotMsg(args.data, args.lastIncludedTerm, 1)])])
    ensures C.SnapshotReply(f, i, args, InstallSnapshotReply(args.term)) in c'.net
  {
    Here(steps, c, ls);
    steps', c' := Moved(steps, c, ls, C.Deliver(C.SnapshotRequest(i, f, args)), f, InstallSnapshot(c.servers[f], args).0);
  }

  lemma SnapAck(steps: seq<C.Step>, c: C.Cluster, ls: seq<Look>, i: nat, f: nat, args: InstallSnapshotArgs)
    returns (steps': seq<C.Step>, c': C.Cluster)
    requires Reached(steps, c, ls) && i < 3 && f < 3 && C.SnapshotReply(f, i, args, InstallSnapshotReply(args.term)) in c.net
    requires ls[i].role == Leader && ls[i].term == args.term && args.lastIncludedIndex == 1
    requires |ls[i].next| == |ls[i].matched| == 3 && ls[i].matched[f] == 0 && ls[i].next[f] == 1
    ensures Reached(steps', c', ls[i := ls[i].(next := ls[i].next[f := 2], matched := ls[i].matched[f := 1])])
  {
    Here(steps, c, ls);
    var reply := InstallSnapshotReply(args.term);
    steps', c' := Moved(steps, c, ls, C.Deliver(C.SnapshotReply(f, i, args, reply)), i, HandleSnapshotReply(c.servers[i], f, args, reply));
  }

  // ---------------------------------------------------------------------
  // The run
  // ---------------------------------------------------------------------

  const NEW := Look(0, -1, Follower, [LogEntry(0, Nil)], 0, 0, 0, [0, 0, 0], [0, 0, 0], [], [])

  lemma Starts() returns (c: C.Cluster)
    ensures Reached([], c, [NEW, NEW, NEW])
  {
    c := C.After(3, []);
    forall i | 0 <= i < 3 ensures LookOf(c.servers[i]) == NEW {
      assert c.servers[i] == Make(i, 3, None, []);
      assert c.servers[i].nextIndex == [0, 0, 0];
    }
    assert ReachedFor([], c, [NEW, NEW, NEW], 0);
  }

  /** Peer 0 leads term 1 with the vote of peer 2. */
  lemma Opens() returns (steps: seq<C.Step>, c: C.Cluster, next: seq<nat>)
    ensures |next| == 3 && next[1] == next[2] == 1
    ensures Reached(steps, c, [NEW.(term := 1, vote := 0, role := Leader, next := next), NEW, NEW.(term := 1, vote := 0)])
  {
    var c0 := Starts();
    var ls0 := [NEW, NEW, NEW];
    var st1, c1 := Elect([], c0, ls0, 0, 2);
    var ls1 := ls0[0 := NEW.(term := 1, vote := 0, role := Candidate)];
    var st2, c2 := Vote(st1, c1, ls1, 0, 2, RequestVoteArgs(1, 0, 0, 0));
    var ls2 := ls1[2 := NEW.(term := 1, vote := 0)];
    var st3, c3 := Count(st2, c2, ls2, 0, 2);
    steps, c, next := Win(st3, c3, ls2, 0);
    assert ls2[0 := ls2[0].(role := Leader, next := next)] ==
      [NEW.(term := 1, vote := 0, role := Leader, next := next), NEW, NEW.(term := 1, vote := 0)];
  }

  /** Peer 0 once its service has snapshotted the entry `e`, which peer 2 holds. */
  function Trimmed(next: seq<nat>, e: LogEntry): Look {
    Look(1, 0, Leader, [LogEntry(1, Nil)], 1, 1, 1, next, [0, 0, 1], [e], [CommandMsg(e.command, 1)])
  }

  lemma Commits(a: Command) returns (steps: seq<C.Step>, c: C.Cluster, next: seq<nat>, other: Look)
    ensures |next| == 3 && next[1] == 1
    ensures Reached(steps, c, [Trimmed(next, LogEntry(1, a)), NEW, other])
  {
    var st0, c0, next0 := Opens();
    var l0, l2, e := NEW.(term := 1, vote := 0, role := Leader, next := next0), NEW.(term := 1, vote := 0), LogEntry(1, a);
    var st1, c1 := Begin(st0, c0, [l0, NEW, l2], 0, a);
    var l1 := l0.(logs := [LogEntry(0, Nil), e]);
    assert l0.logs + [e] == l1.logs;
    assert [l0, NEW, l2][0 := l1] == [l1, NEW, l2];
    var st2, c2, log := Send(st1, c1, [l1, NEW, l2], 0, 2, 1);
    var args := Request(l1, 0, 1);
    var st3, c3 := Accept(st2, c2, [l1, NEW, l2], 0, 2, args, log);
    other := Extended(l2, args);
    assert [l1, NEW, l2][2 := other] == [l1, NEW, other];
    var st4, c4 := Ack(st3, c3, [l1, NEW, other], 0, 2, args);
    next := next0[2 := 2];
    var l4 := l1.(commit := 1, next := next, matched := [0, 0, 1]);
    assert l1.matched[2 := 1] == [0, 0, 1];
    assert [l1, NEW, other][0 := l4] == [l4, NEW, other];
    var st5, c5 := Feed(st4, c4, [l4, NEW, other], 0);
    var l5 := l4.(applied := 1, sent := [CommandMsg(a, 1)]);
    assert l4.sent + [CommandMsg(a, 1)] == l5.sent;
    assert [l4, NEW, other][0 := l5] == [l5, NEW, other];
    steps, c := Trim(st5, c5, [l5, NEW, other], 0, e);
    assert [l5, NEW, other][0 := l5.(logs := [LogEntry(1, Nil)], base := 1, snapshot := [e])] == [Trimmed(next, e), NEW, other];
  }

  /** Peer 1, which held nothing, once it has installed the snapshot. */
  function Installed(e: LogEntry): Look {
    Look(1, -1, Follower, [LogEntry(1, Nil)], 1, 1, 1, [0, 0, 0], [0, 0, 0], [e], [SnapshotMsg([e], 1, 1)])
  }

  lemma Installs(a: Command) returns (steps: seq<C.Step>, c: C.Cluster, l: Look, other: Look)
    ensures l.term == 1 && l.role == Leader && l.logs == [LogEntry(1, Nil)] && l.base == 1 && l.commit == 1
    ensures |l.next| == 3 && l.next[1] == 2 && |l.matched| == 3 && l.matched[1] == 1
    ensures Reached(steps, c, [l, Installed(LogEntry(1, a)), other])
  {
    var e := LogEntry(1, a);
    var st0, c0, next, other0 := Commits(a);
    other := other0;
    var l0 := Trimmed(next, e);
    var st1, c1 := SendSnap(st0, c0, [l0, NEW, other], 0, 1, e);
    var args := InstallSnapshotArgs(1, 0, 1, 1, [e]);
    var st2, c2 := TakeIn(st1, c1, [l0, NEW, other], 0, 1, args);
    var f := NEW.(term := 1, vote := -1, role := Follower, logs := [LogEntry(1, Nil)], base := 1, commit := 1, applied := 1,
                  snapshot := [e], sent := [] + [SnapshotMsg([e], 1, 1)]);
    assert f == Installed(e);
    assert [l0, NEW, other][1 := f] == [l0, Installed(e), other];
    steps, c := SnapAck(st2, c2, [l0, Installed(e), other], 0, 1, args);
    l := l0.(next := next[1 := 2], matched := l0.matched[1 := 1]);
    assert [l0, Installed(e), other][0 := l] == [l, Installed(e), other];
  }

  /** Peer 1 takes the entry that follows, learns that it is committed and hands it over. */
  lemma CatchesUp(a: Command, b: Command) returns (steps: seq<C.Step>, c: C.Cluster, ls: seq<Look>)
    ensures Reached(steps, c, ls) && ls[1].sent == [SnapshotMsg([LogEntry(1, a)], 1, 1), CommandMsg(b, 2)]
  {
    var e := LogEntry(1, b);
    var st0, c0, l0, other := Installs(a);
    var f0 := Installed(LogEntry(1, a));
    var st1, c1 := Begin(st0, c0, [l0, f0, other], 0, b);
    var l1 := l0.(logs := [LogEntry(1, Nil), e]);
    assert l0.logs + [e] == l1.logs;
    assert [l0, f0, other][0 := l1] == [l1, f0, other];
    var st2, c2, log := Send(st1, c1, [l1, f0, other], 0, 1, 1);
    var args := Request(l1, 0, 1);
    var st3, c3 := Accept(st2, c2, [l1, f0, other], 0, 1, args, log);
    var f3 := Extended(f0, args);
    assert [l1, f0, other][1 := f3] == [l1, f3, other];
    var st4, c4 := Ack(st3, c3, [l1, f3, other], 0, 1, args);
    var l4 := l1.(commit := 2, next := l1.next[1 := 3], matched := l1.matched[1 := 2]);
    assert [l1, f3, other][0 := l4] == [l4, f3, other];
    assert f3.logs == [LogEntry(1, Nil), e] && f3.commit == 1 && f3.sent == f0.sent;
    steps, c, ls := HandsOver(st4, c4, l4, f3, other, e);
  }

  lemma HandsOver(steps: seq<C.Step>, c: C.Cluster, l: Look, f: Look, other: Look, e: LogEntry)
    returns (steps': seq<C.Step>, c': C.Cluster, ls: seq<Look>)
    requires Reached(steps, c, [l, f, other]) && l.role == Leader && l.term == f.term == 1 && |l.next| == 3 && l.next[1] == 3
    requires l.logs == f.logs == [LogEntry(1, Nil), e] && l.base == f.base == 1 && l.commit == 2 && e.term == 1
    requires f.commit == f.applied == 1
    ensures Reached(steps', c', ls) && ls[1].sent == f.sent + [CommandMsg(e.command, 2)]
  {
    var st1, c1, log := Send(steps, c, [l, f, other], 0, 1, 2);
    var args := Request(l, 0, 2);
    var st2, c2 := Accept(st1, c1, [l, f, other], 0, 1, args, log);
    var f2 := Extended(f, args);
    assert [l, f, other][1 := f2] == [l, f2, other];
    assert f2.commit == 2 && f2.logs == f.logs;
    steps', c' := Feed(st2, c2, [l, f2, other], 1);
    ls := [l, f2, other][1 := f2.(applied := 2, sent := f.sent + [CommandMsg(e.command, 2)])];
  }

  /**
   What a service is told must be in place: there is an orderly run, without
   crashes, in which peer 1 sends its service a snapshot and then the next
   command, and a service told of the command first, with all else in order,
   does not follow the run's log.
   */
  lemma OvertakenServiceIsLost(a: Op, b: Op) returns (steps: seq<C.Step>, z: ApplyMsg, m: ApplyMsg)
    requires a.kind == "Put" && b.kind == "Append" && a.key == b.key && a.value != "" && a.clientId != b.clientId
    ensures Orderly(3, steps) && OneLife(3, steps, 1, 0, |steps|)
    ensures C.After(3, steps).servers[1].applyCh == [z, m] && Delivery([z, m], [m, z])
    ensures forall log :: LogOfRun(3, steps, log) ==> !FollowsLog(3, steps, log, 1, 0, [m, z])
  {
    var c, ls;
    steps, c, ls := CatchesUp(Cmd(a), Cmd(b));
    assert ReachedFor(steps, c, ls, 0);
    z, m := SnapshotMsg([LogEntry(1, Cmd(a))], 1, 1), CommandMsg(Cmd(b), 2);
    OvertakenStream(z, m);
    forall log | LogOfRun(3, steps, log) ensures !FollowsLog(3, steps, log, 1, 0, [m, z]) {
      Lost(steps, log, a, b, z, m);
    }
  }

  lemma Lost(steps: seq<C.Step>, log: Log, a: Op, b: Op, z: ApplyMsg, m: ApplyMsg)
    requires a.kind == "Put" && b.kind == "Append" && a.key == b.key && a.value != "" && a.clientId != b.clientId
    requires LogOfRun(3, steps, log) && C.After(3, steps).servers[1].applyCh == [z, m]
    requires z == SnapshotMsg([LogEntry(1, Cmd(a))], 1, 1) && m == CommandMsg(Cmd(b), 2)
    ensures !FollowsLog(3, steps, log, 1, 0, [m, z])
  {
    assert steps[..|steps|] == steps && steps[..0] == [];
    assert LogOfMoment(C.After(3, steps[..|steps|]), log);
    assert z in [z, m] && m in [z, m];
    assert Fits(log, z) && Fits(log, m);
    OvertakenSnapshotIsLost(log[..2], z, m);
    OvertakenStream(z, m);
    OvertakenState(log, z, m);
    OvertakenState(log[..2], z, m);
    assert OpsOf(log)[..2] == OpsOf(log[..2]);
    assert StoredAt(3, steps, 1, 0) == Started(log, 0);
  }
}
