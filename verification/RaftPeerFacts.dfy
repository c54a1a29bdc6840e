/**
 What each locked region does to the whole log a peer stands for, and that it
 leaves the peer well formed: stable storage up to date, the sentinel and the
 stored snapshot at the same index, and the apply stream in order.
 */
module RaftPeerFacts {
  import opened RaftTypes
  import opened RaftPeer
  import opened Consensus

  /** Entry `i` of the whole log is read at `PhysicalIndex(i)`, sentinel included. */
  lemma FullAt(s: Server, index: nat)
    requires Offset(s) && s.lastIncludedIndex <= index <= LastLogicalIndex(s)
    ensures |Full(s)| == LastLogicalIndex(s)
    ensures s.logs[PhysicalIndex(s, index)].term == TermAt(Full(s), index)
    ensures index > s.lastIncludedIndex ==> s.logs[PhysicalIndex(s, index)] == Full(s)[index - 1]
    ensures s.logs[PhysicalIndex(s, index) + 1..] == Full(s)[index..]
  {
  }

  lemma LastFacts(x: Server)
    requires WF(x)
    ensures |Full(x)| == LastLogicalIndex(x) && x.logs[|x.logs| - 1].term == LastTerm(Full(x))
  {
    FullAt(x, LastLogicalIndex(x));
  }

  lemma StepDownFacts(s: Server, term: nat)
    requires WF(s)
    ensures WF(StepDown(s, term)) && Full(StepDown(s, term)) == Full(s)
  {
  }

  lemma StartElectionFacts(s: Server)
    requires WF(s)
    ensures WF(StartElection(s)) && Full(StartElection(s)) == Full(s)
  {
  }

  lemma StartFacts(s: Server, command: Command)
    requires WF(s) && s.role == Leader
    ensures WF(Start(s, command)) && Full(Start(s, command)) == Full(s) + [LogEntry(s.currTerm, command)]
  {
    assert (s.logs + [LogEntry(s.currTerm, command)])[1..] == s.logs[1..] + [LogEntry(s.currTerm, command)];
  }

  /** Restarting recovers the term, the vote and the whole log. */
  lemma RestartRecovers(s: Server)
    requires WF(s)
    ensures var s' := Make(s.me, s.peers, s.raftState, s.snapshot);
      && WF(s')
      && Record(s') == Record(s)
      && Full(s') == Full(s)
      && s'.commitIndex == s'.lastApplied == s.lastIncludedIndex
      && s'.role == Follower && forall p :: 0 <= p < s.peers ==> s'.nextIndex[p] == s'.matchIndex[p] == 0
  {
    var s' := Make(s.me, s.peers, s.raftState, s.snapshot);
    StreamStart();
    if |s.snapshot| > 0 {
      StreamAppend([], 0, SnapshotMsg(s.snapshot, s.lastIncludedTerm, s.lastIncludedIndex));
      assert s'.applyCh == [] + s'.applyCh;
    }
  }

  lemma StreamStart()
    ensures Stream([], 0)
  {
    assert forall key :: StreamFor([], 0, key);
  }

  // ---------------------------------------------------------------------
  // Commit scan
  // ---------------------------------------------------------------------

  /** The scan finds the highest index above the old one that may be committed, if there is one. */
  lemma {:induction false} CommitTargetIsHighest(s: Server, index: nat)
    requires WF(s) && index <= LastLogicalIndex(s)
    ensures var c := CommitTarget(s, index);
      && s.commitIndex <= c
      && (c > s.commitIndex ==> s.lastIncludedIndex <= c <= index && Committable(s, c))
      && (forall k :: c < k <= index && s.lastIncludedIndex <= k ==> !Committable(s, k))
  {
    if index > s.commitIndex && index >= s.lastIncludedIndex && !Committable(s, index) {
      CommitTargetIsHighest(s, index - 1);
    }
  }

  lemma HandleAppendReplyFacts(s: Server, peer: nat, args: AppendEntriesArgs, reply: AppendEntriesReply)
    requires WF(s) && peer < s.peers
    ensures WF(HandleAppendReply(s, peer, args, reply)) && Full(HandleAppendReply(s, peer, args, reply)) == Full(s)
  {
  }

  // ---------------------------------------------------------------------
  // Accepting entries
  // ---------------------------------------------------------------------

  /**
   If two logs that agree wherever their terms agree match before `k`, merging the
   rest of one into the other keeps the longer when one contains the other and
   otherwise replaces it.
   */
  lemma {:induction false} MergeIsAbsorb(lead: map<nat, Log>, head: Log, logs: Log, k: nat, entries: Log, other: Log)
    requires 1 <= k <= |logs|
    requires var full := head + logs[1..];
      && |head| + k - 1 + |entries| == |other|
      && LogOK(lead, full) && LogOK(lead, other)
      && full[..|head| + k - 1] == other[..|head| + k - 1]
    requires other[|head| + k - 1..] == entries
    ensures head + Merge(logs, k, entries)[1..] == Absorb(head + logs[1..], other)
    decreases |entries|
  {
    var full := head + logs[1..];
    var c := |head| + k - 1;
    if entries == [] {
      assert other == other[..c] <= full;
    } else if k == |logs| {
      assert full == full[..c];
      assert other == other[..c] + entries;
      assert Merge(logs, k, entries)[1..] == logs[1..] + entries;
      assert head + (logs[1..] + entries) == full + entries;
    } else if logs[k].term != entries[0].term {
      MergeCut(head, logs, k, entries, other);
    } else {
      assert full[c] == logs[k] && other[c] == entries[0];
      LogsMatch(lead, full, other, c + 1);
      MergeIsAbsorb(lead, head, logs, k + 1, entries[1..], other);
      assert Merge(logs, k, entries)[..k] == Merge(logs, k, entries)[..k + 1][..k];
    }
  }

  lemma MergeCut(head: Log, logs: Log, k: nat, entries: Log, other: Log)
    requires 1 <= k < |logs| && |entries| > 0 && logs[k].term != entries[0].term
    requires |head| + k - 1 + |entries| == |other|
    requires (head + logs[1..])[..|head| + k - 1] == other[..|head| + k - 1]
    requires other[|head| + k - 1..] == entries
    ensures head + Merge(logs, k, entries)[1..] == Absorb(head + logs[1..], other)
  {
    var full := head + logs[1..];
    var c := |head| + k - 1;
    assert full[c] == logs[k] && other[c] == entries[0];
    CutTail(head, logs, k, entries);
    assert other == other[..c] + other[c..];
  }

  lemma CutTail(head: Log, logs: Log, k: nat, entries: Log)
    requires 1 <= k < |logs|
    ensures head + (logs[..k] + entries)[1..] == (head + logs[1..])[..|head| + k - 1] + entries
  {
    assert (logs[..k] + entries)[1..] == logs[1..k] + entries;
    assert head + logs[1..k] == (head + logs[1..])[..|head| + k - 1];
  }

  /** The request `args` carries the tail of `log` from `prevLogIndex` on. */
  predicate Carries(args: AppendEntriesArgs, log: Log) {
    && args.prevLogIndex + |args.entries| == |log|
    && log[args.prevLogIndex..] == args.entries
    && TermAt(log, args.prevLogIndex) == args.prevLogTerm
  }

  /** A request carries its sender's whole log. */
  lemma BuildAppendCarries(s: Server, peer: nat)
    requires WF(s) && CanBuildAppend(s, peer)
    ensures Carries(BuildAppend(s, peer), Full(s))
  {
    FullAt(s, s.nextIndex[peer] - 1);
  }

  /** Accepting entries never touches the sentinel. */
  lemma AcceptWF(s: Server, k: nat, args: AppendEntriesArgs)
    requires WF(s) && k < |s.logs|
    ensures WF(Accept(s, k, args)) && Accept(s, k, args).me == s.me && Accept(s, k, args).peers == s.peers
  {
    MergeKeepsHead(s.logs, k + 1, args.entries);
  }

  lemma {:induction false} MergeKeepsHead(logs: Log, k: nat, entries: Log)
    requires k <= |logs|
    ensures Merge(logs, k, entries)[..k] == logs[..k]
    ensures k > 0 ==> Merge(logs, k, entries)[0] == logs[0]
    decreases |entries|
  {
    var r := Merge(logs, k, entries);
    if entries != [] && k < |logs| && logs[k].term == entries[0].term {
      MergeKeepsHead(logs, k + 1, entries[1..]);
      assert r[..k] == r[..k + 1][..k];
      assert logs[..k] == logs[..k + 1][..k];
    }
    assert k > 0 ==> r[0] == r[..k][0] && logs[0] == logs[..k][0];
  }

  /** An accepted request is absorbed whole. */
  lemma AcceptFacts(lead: map<nat, Log>, s: Server, k: nat, args: AppendEntriesArgs, log: Log)
    requires WF(s) && k < |s.logs| && Carries(args, log)
    requires LogOK(lead, Full(s)) && LogOK(lead, log)
    requires args.prevLogIndex == s.lastIncludedIndex + k && args.prevLogTerm == s.logs[k].term
    ensures WF(Accept(s, k, args))
    ensures Full(Accept(s, k, args)) == Absorb(Full(s), log)
  {
    AcceptWF(s, k, args);
    SentAgrees(lead, s, args, log);
    MergeIsAbsorb(lead, s.snapshot, s.logs, k + 1, args.entries, log);
  }

  lemma SentAgrees(lead: map<nat, Log>, s: Server, args: AppendEntriesArgs, log: Log)
    requires Offset(s) && Carries(args, log) && LogOK(lead, Full(s)) && LogOK(lead, log)
    requires s.lastIncludedIndex <= args.prevLogIndex <= LastLogicalIndex(s)
    requires args.prevLogTerm == s.logs[PhysicalIndex(s, args.prevLogIndex)].term
    ensures args.prevLogIndex <= |Full(s)| && args.prevLogIndex <= |log|
    ensures Full(s)[..args.prevLogIndex] == log[..args.prevLogIndex]
  {
    FullAt(s, args.prevLogIndex);
    if args.prevLogIndex > 0 {
      LogsMatch(lead, Full(s), log, args.prevLogIndex);
    }
  }

  // ---------------------------------------------------------------------
  // Snapshots and the apply stream
  // ---------------------------------------------------------------------

  lemma StreamAppend(msgs: seq<ApplyMsg>, level: nat, m: ApplyMsg)
    requires Stream(msgs, level) && (m.CommandMsg? ==> m.index == level + 1)
    ensures Stream(msgs + [m], Max(m.index, level))
  {
    assert StreamFor(msgs, level, 0);
    var msgs' := msgs + [m];
    assert msgs'[..|msgs|] == msgs;
    forall j | 0 <= j < |msgs'| && msgs'[j].CommandMsg? ensures msgs'[j].index == Level(msgs'[..j]) + 1 {
      if j < |msgs| { assert msgs'[..j] == msgs[..j]; }
    }
  }

  lemma {:induction false} LevelRises(msgs: seq<ApplyMsg>, a: nat, b: nat)
    requires a <= b <= |msgs| && InOrder(msgs)
    ensures Level(msgs[..a]) <= Level(msgs[..b])
    decreases b
  {
    if a < b {
      LevelRises(msgs, a, b - 1);
      assert msgs[..b][..b - 1] == msgs[..b - 1];
    }
  }

  lemma {:induction false} LevelReached(msgs: seq<ApplyMsg>, b: nat)
    requires b <= |msgs|
    ensures Level(msgs[..b]) == 0 || exists d :: 0 <= d < b && msgs[d].index == Level(msgs[..b])
    decreases b
  {
    if b > 0 {
      LevelReached(msgs, b - 1);
      assert msgs[..b][..b - 1] == msgs[..b - 1];
    }
  }

  /** A local snapshot trims the log and leaves the whole log as it was. */
  lemma SnapshotFacts(s: Server, index: nat)
    requires WF(s) && index <= LastLogicalIndex(s) && index <= s.lastApplied
    ensures WF(Snapshot(s, index)) && Full(Snapshot(s, index)) == Full(s)
    ensures Snapshot(s, index).lastIncludedIndex == Max(index, s.lastIncludedIndex)
    ensures var s' := Snapshot(s, index);
      && s'.currTerm == s.currTerm && s'.votedFor == s.votedFor && s'.role == s.role
      && s'.commitIndex == s.commitIndex && s'.lastApplied == s.lastApplied && s'.applyCh == s.applyCh
  {
    if index > s.lastIncludedIndex {
      FullAt(s, index);
      assert Full(s) == Full(s)[..index] + Full(s)[index..];
    }
  }

  lemma SendApplyMsgFacts(s: Server)
    requires WF(s)
    ensures WF(SendApplyMsg(s)) && Full(SendApplyMsg(s)) == Full(s)
  {
    if s.lastApplied < s.commitIndex && s.lastApplied + 1 <= LastLogicalIndex(s) {
      var index := s.lastApplied + 1;
      StreamAppend(s.applyCh, s.lastApplied, CommandMsg(s.logs[PhysicalIndex(s, index)].command, index));
    }
  }

  /** The snapshot's position and term are those of the log prefix it stands for. */
  predicate SnapshotArgsOK(args: InstallSnapshotArgs) {
    |args.data| == args.lastIncludedIndex && args.lastIncludedTerm == LastTerm(args.data)
  }

  /** Holding the snapshot's last entry is holding the whole prefix it stands for. */
  lemma HoldsEntryMeansPrefix(lead: map<nat, Log>, s: Server, args: InstallSnapshotArgs)
    requires Offset(s) && SnapshotArgsOK(args) && s.lastIncludedIndex < args.lastIncludedIndex
    requires LogOK(lead, Full(s)) && LogOK(lead, args.data)
    ensures HoldsEntry(s, args.lastIncludedIndex, args.lastIncludedTerm) <==> args.data <= Full(s)
    ensures HoldsEntry(s, args.lastIncludedIndex, args.lastIncludedTerm) ==>
      args.data + s.logs[PhysicalIndex(s, args.lastIncludedIndex) + 1..] == Full(s)
  {
    var index := args.lastIncludedIndex;
    FullAt(s, s.lastIncludedIndex);
    if index <= LastLogicalIndex(s) {
      FullAt(s, index);
      if Full(s)[index - 1].term == args.lastIncludedTerm {
        LogsMatch(lead, Full(s), args.data, index);
        assert args.data == args.data[..index];
        assert Full(s) == Full(s)[..index] + Full(s)[index..];
      }
    }
  }

  lemma InstallWF(s: Server, args: InstallSnapshotArgs)
    requires WF(s) && SnapshotArgsOK(args) && s.lastIncludedIndex < args.lastIncludedIndex
    ensures WF(Install(s, args))
  {
    StreamAppend(s.applyCh, s.lastApplied, SnapshotMsg(args.data, args.lastIncludedTerm, args.lastIncludedIndex));
  }

  /** An installed snapshot is absorbed like any other log. */
  lemma InstallFull(lead: map<nat, Log>, s: Server, args: InstallSnapshotArgs)
    requires Offset(s) && SnapshotArgsOK(args) && s.lastIncludedIndex < args.lastIncludedIndex
    requires LogOK(lead, Full(s)) && LogOK(lead, args.data)
    ensures Full(Install(s, args)) == Absorb(Full(s), args.data)
  {
    HoldsEntryMeansPrefix(lead, s, args);
    assert args.data + [] == args.data;
  }
}
