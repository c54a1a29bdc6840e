/**
 The Raft peer as the program has it: an object whose methods update its
 fields under a lock, with its stable storage beside it.  Each method's
 contract ties the new state to the corresponding function of `RaftPeer`,
 about which the safety theorems are proved.
 */
module RaftNode {
  import opened Options
  import opened RaftTypes
  import opened RaftPeer

  /** Stable storage: the encoded record and the snapshot, each replaced as a whole. */
  class Persister {
    var raftState: Option<Persistent>
    var snapshot: Log

    constructor ()
      ensures raftState == None && snapshot == []
    {
      raftState, snapshot := None, [];
    }

    method SaveRaftState(state: Persistent)
      modifies this
      ensures raftState == Some(state) && snapshot == old(snapshot)
    {
      raftState := Some(state);
    }

    method SaveStateAndSnapshot(state: Persistent, snap: Log)
      modifies this
      ensures raftState == Some(state) && snapshot == snap
    {
      raftState, snapshot := Some(state), snap;
    }
  }

  class Raft {
    const persister: Persister
    const me: nat
    const peers: nat
    var currTerm: nat
    var votedFor: int
    var role: Role
    var logs: Log
    var lastIncludedIndex: nat
    var lastIncludedTerm: nat
    var commitIndex: nat
    var lastApplied: nat
    var nextIndex: seq<nat>
    var matchIndex: seq<nat>
    var votes: set<nat>
    var elected: set<nat>
    var applyCh: seq<ApplyMsg>

    /** The peer as a value. */
    function View(): Server
      reads this, persister
    {
      Server(me, peers, currTerm, votedFor, role, logs, lastIncludedIndex, lastIncludedTerm,
             commitIndex, lastApplied, nextIndex, matchIndex, votes, elected,
             persister.raftState, persister.snapshot, applyCh)
    }

    /** Starts a peer from what its storage holds. */
    constructor (peers: nat, me: nat, persister: Persister)
      requires me < peers
      ensures this.persister == persister
      ensures View() == Make(me, peers, persister.raftState, persister.snapshot)
    {
      this.persister, this.me, this.peers := persister, me, peers;
      currTerm, votedFor, role, logs := 0, -1, Follower, [LogEntry(0, Nil)];
      lastIncludedIndex, lastIncludedTerm := 0, 0;
      commitIndex, lastApplied := 0, 0;
      nextIndex, matchIndex := seq(peers, _ => 0), seq(peers, _ => 0);
      votes, elected, applyCh := {}, {}, [];
      new;
      ReadPersist(persister.raftState);
      if |persister.snapshot| > 0 {
        applyCh := [SnapshotMsg(persister.snapshot, lastIncludedTerm, lastIncludedIndex)];
      }
    }

    /** Restores what `Persist` wrote; a peer that never stored anything keeps its defaults. */
    method ReadPersist(data: Option<Persistent>)
      requires Record(View()) == BLANK && commitIndex == lastApplied == 0
      modifies this
      ensures var record := if data.Some? then data.value else BLANK;
        View() == old(View()).(currTerm := record.currTerm, votedFor := record.votedFor, logs := record.logs,
        lastIncludedIndex := record.lastIncludedIndex, lastIncludedTerm := record.lastIncludedTerm,
        commitIndex := record.lastIncludedIndex, lastApplied := record.lastIncludedIndex)
    {
      if data.Some? {
        currTerm, votedFor, logs := data.value.currTerm, data.value.votedFor, data.value.logs;
        lastIncludedIndex, lastIncludedTerm := data.value.lastIncludedIndex, data.value.lastIncludedTerm;
      }
      if lastIncludedIndex > 0 {
        commitIndex := lastIncludedIndex;
        lastApplied := lastIncludedIndex;
      }
    }

    method Persist()
      modifies persister
      ensures View() == RaftPeer.Persist(old(View()))
    {
      persister.SaveRaftState(Persistent(currTerm, votedFor, logs, lastIncludedIndex, lastIncludedTerm));
    }

    method PersistWithSnapshot(snapshot: Log)
      modifies persister
      ensures View() == RaftPeer.PersistWithSnapshot(old(View()), snapshot)
    {
      persister.SaveStateAndSnapshot(Persistent(currTerm, votedFor, logs, lastIncludedIndex, lastIncludedTerm), snapshot);
    }

    // -------------------------------------------------------------------
    // Elections
    // -------------------------------------------------------------------

    method StartElection() returns (args: RequestVoteArgs)
      requires WF(View())
      modifies this, persister
      ensures View() == RaftPeer.StartElection(old(View()))
      ensures args == RequestVoteArgs(old(currTerm) + 1, me, LastLogicalIndex(View()), logs[|logs| - 1].term)
    {
      currTerm := currTerm + 1;
      votedFor := me;
      role := Candidate;
      votes := {me};
      Persist();
      args := RequestVoteArgs(currTerm, me, lastIncludedIndex + |logs| - 1, logs[|logs| - 1].term);
    }

    method RequestVote(args: RequestVoteArgs) returns (reply: RequestVoteReply)
      requires WF(View())
      modifies this, persister
      ensures (View(), reply) == RaftPeer.RequestVote(old(View()), args)
    {
      if args.term > currTerm {
        role := Follower;
        votedFor := -1;
        currTerm := args.term;
        Persist();
      }
      if args.term < currTerm {
        return RequestVoteReply(currTerm, false);
      }
      if votedFor == -1 || votedFor == args.candidateId {
        var lastlog := logs[|logs| - 1];
        if args.lastLogTerm > lastlog.term
          || (args.lastLogTerm == lastlog.term && args.lastLogIndex >= lastIncludedIndex + |logs| - 1)
        {
          votedFor := args.candidateId;
          Persist();
          role := Follower;
          return RequestVoteReply(currTerm, true);
        }
      }
      return RequestVoteReply(currTerm, false);
    }

    /** `won` says that the caller goes on to `BecomeLeader` and then `FinishVoteReply`. */
    method HandleVoteReply(peer: nat, startTerm: nat, reply: RequestVoteReply) returns (won: bool)
      modifies this, persister
      ensures View() == RaftPeer.HandleVoteReply(old(View()), peer, startTerm, reply)
      ensures won ==> startTerm in elected && startTerm == currTerm && |votes| > peers / 2
    {
      won := false;
      if role != Candidate || currTerm != startTerm {
        return;
      }
      if reply.voteGranted {
        votes := votes + {peer};
        if |votes| > peers / 2 {
          elected := elected + {startTerm};
          return true;
        }
      }
      FinishVoteReply(reply);
    }

    method FinishVoteReply(reply: RequestVoteReply)
      modifies this, persister
      ensures View() == RaftPeer.FinishVoteReply(old(View()), reply)
    {
      if reply.term > currTerm {
        currTerm := reply.term;
        role := Follower;
        votedFor := -1;
        Persist();
      }
    }

    method BecomeLeader(electionTerm: nat)
      requires WF(View())
      modifies this
      ensures View() == RaftPeer.BecomeLeader(old(View()), electionTerm)
    {
      if role != Candidate || electionTerm != currTerm {
        return;
      }
      role := Leader;
      var last: nat := lastIncludedIndex + |logs| - 1;
      var peer := 0;
      while peer < peers
        invariant 0 <= peer <= peers && |nextIndex| == peers
        invariant View() == old(View()).(role := Leader, nextIndex := nextIndex)
        invariant forall p :: 0 <= p < peers ==>
          nextIndex[p] == if p < peer && p != me then last + 1 else old(nextIndex)[p]
      {
        if peer != me {
          nextIndex := nextIndex[peer := last + 1];
        }
        peer := peer + 1;
      }
      assert nextIndex == RaftPeer.BecomeLeader(old(View()), electionTerm).nextIndex;
    }

    // -------------------------------------------------------------------
    // The leader's side
    // -------------------------------------------------------------------

    method GetState() returns (term: nat, isLeader: bool)
      ensures term == currTerm && isLeader == (role == Leader)
    {
      return currTerm, role == Leader;
    }

    method Start(command: Command) returns (index: int, term: int, isLeader: bool)
      requires WF(View())
      modifies this, persister
      ensures View() == RaftPeer.Start(old(View()), command)
      ensures isLeader == (old(role) == Leader)
      ensures isLeader ==> term == currTerm && index == LastLogicalIndex(View()) == old(LastLogicalIndex(View())) + 1
      ensures !isLeader ==> index == -1 && term == -1
    {
      if role != Leader {
        return -1, -1, false;
      }
      term := currTerm;
      index := lastIncludedIndex + |logs|;
      logs := logs + [LogEntry(currTerm, command)];
      Persist();
      isLeader := true;
    }

    /** The request for a peer, or none when the peer needs a snapshot. */
    method MakeAppendEntry(peer: nat) returns (args: Option<AppendEntriesArgs>)
      requires WF(View()) && peer < peers
      requires Lagging(View(), peer) || CanBuildAppend(View(), peer)
      ensures args == if Lagging(View(), peer) then None else Some(BuildAppend(View(), peer))
    {
      if nextIndex[peer] <= lastIncludedIndex {
        return None;
      }
      var k := nextIndex[peer] - lastIncludedIndex;
      return Some(AppendEntriesArgs(currTerm, me, nextIndex[peer] - 1, logs[k - 1].term, logs[k..], commitIndex));
    }

    /** Commits the highest index a majority is known to hold, if it is of this term. */
    method CommitIndexUpdate()
      requires WF(View())
      modifies this
      ensures View() == RaftPeer.CommitIndexUpdate(old(View()))
    {
      commitIndex := FindCommit();
    }

    /** The scan for that index, from the end of the log down. */
    method FindCommit() returns (target: nat)
      requires WF(View())
      ensures target == CommitTarget(View(), LastLogicalIndex(View()))
    {
      ghost var s := View();
      var n: nat := lastIncludedIndex + |logs| - 1;
      while n > commitIndex && n >= lastIncludedIndex
        invariant n <= LastLogicalIndex(s)
        invariant CommitTarget(s, n) == CommitTarget(s, LastLogicalIndex(s))
      {
        var ok := MayCommit(n);
        assert CommitTarget(s, n) == if Committable(s, n) then n else CommitTarget(s, n - 1);
        if ok {
          return n;
        }
        n := n - 1;
      }
      target := commitIndex;
    }

    /** An index may be committed if its entry is of this term and a majority holds it. */
    method MayCommit(index: nat) returns (ok: bool)
      requires WF(View()) && lastIncludedIndex <= index <= LastLogicalIndex(View())
      ensures ok == Committable(View(), index)
    {
      if logs[index - lastIncludedIndex].term != currTerm {
        return false;
      }
      var count := CountHolders(me, matchIndex, index);
      return count > peers / 2;
    }

    /** How many peers are known to hold an index, `me` included. */
    static method CountHolders(me: nat, matchIndex: seq<nat>, index: nat) returns (count: nat)
      requires me < |matchIndex|
      ensures count == |HoldersBelow(me, matchIndex, index, |matchIndex|)|
    {
      count := 1;
      for peer := 0 to |matchIndex|
        invariant count == |HoldersBelow(me, matchIndex, index, peer)|
      {
        if peer != me && matchIndex[peer] >= index {
          count := count + 1;
        }
      }
    }

    method HandleAppendReply(peer: nat, args: AppendEntriesArgs, reply: AppendEntriesReply)
      requires WF(View()) && peer < peers
      modifies this, persister
      ensures View() == RaftPeer.HandleAppendReply(old(View()), peer, args, reply)
    {
      if currTerm != args.term {
        return;
      }
      if reply.term > currTerm {
        currTerm := reply.term;
        votedFor := -1;
        Persist();
        role := Follower;
        return;
      }
      if role != Leader {
        return;
      }
      if reply.success {
        matchIndex := matchIndex[peer := Max(args.prevLogIndex + |args.entries|, matchIndex[peer])];
        nextIndex := nextIndex[peer := matchIndex[peer] + 1];
        CommitIndexUpdate();
      } else if reply.conflictTerm == -1 {
        nextIndex := nextIndex[peer := reply.conflictIndex];
      } else {
        if reply.conflictIndex < lastIncludedIndex {
          return;
        }
        var after := FindTerm(reply.conflictTerm);
        nextIndex := nextIndex[peer := if after.Some? then after.value + lastIncludedIndex else reply.conflictIndex];
      }
      if nextIndex[peer] < 1 {
        nextIndex := nextIndex[peer := 1];
      }
    }

    /** The position after the last entry of a term, found from the end. */
    method FindTerm(term: int) returns (after: Option<nat>)
      ensures after == LastOfTerm(logs, term, |logs|)
    {
      var k := |logs|;
      while k > 0
        invariant 0 <= k <= |logs|
        invariant LastOfTerm(logs, term, k) == LastOfTerm(logs, term, |logs|)
      {
        if logs[k - 1].term == term {
          return Some(k);
        }
        k := k - 1;
      }
      return None;
    }

    method HandleSnapshotReply(peer: nat, args: InstallSnapshotArgs, reply: InstallSnapshotReply)
      requires WF(View()) && peer < peers
      modifies this, persister
      ensures View() == RaftPeer.HandleSnapshotReply(old(View()), peer, args, reply)
    {
      if reply.term > currTerm {
        currTerm := reply.term;
        role := Follower;
        votedFor := -1;
        Persist();
        return;
      }
      if role != Leader || currTerm != args.term {
        return;
      }
      matchIndex := matchIndex[peer := Max(args.lastIncludedIndex, matchIndex[peer])];
      nextIndex := nextIndex[peer := Max(matchIndex[peer] + 1, nextIndex[peer])];
    }

    // -------------------------------------------------------------------
    // The follower's side
    // -------------------------------------------------------------------

    method AppendEntries(args: AppendEntriesArgs) returns (reply: AppendEntriesReply)
      requires WF(View())
      modifies this, persister
      ensures (View(), reply) == RaftPeer.AppendEntries(old(View()), args)
    {
      if args.term < currTerm {
        return AppendEntriesReply(false, currTerm, 0, 0);
      }
      role := Follower;
      if args.term > currTerm {
        votedFor := -1;
        currTerm := args.term;
        Persist();
      }
      if args.prevLogIndex > lastIncludedIndex + |logs| - 1 {
        return AppendEntriesReply(false, 0, lastIncludedIndex + |logs|, -1);
      }
      if args.prevLogIndex < lastIncludedIndex {
        return AppendEntriesReply(false, currTerm, lastIncludedIndex + 1, -1);
      }
      var k := args.prevLogIndex - lastIncludedIndex;
      if args.prevLogTerm != logs[k].term {
        var first := FindConflict(k);
        return AppendEntriesReply(false, 0, first, logs[k].term);
      }
      AcceptEntries(k, args);
      return AppendEntriesReply(true, 0, 0, 0);
    }

    method AcceptEntries(k: nat, args: AppendEntriesArgs)
      requires k < |logs|
      modifies this, persister
      ensures View() == Accept(old(View()), k, args)
    {
      MergeEntries(k + 1, args.entries);
      Persist();
      if args.leaderCommit > commitIndex {
        commitIndex := Min(args.leaderCommit, lastIncludedIndex + |logs| - 1);
      }
    }

    /** The first index of the run of equal terms that ends at physical index `k`. */
    method FindConflict(k: nat) returns (first: nat)
      requires k < |logs|
      ensures first == ConflictIndex(View(), k, logs[k].term, 0)
    {
      first := 0;
      var i := k;
      while i > 0 && logs[i].term == logs[k].term
        invariant 0 <= i <= k
        invariant ConflictIndex(View(), i, logs[k].term, first) == ConflictIndex(View(), k, logs[k].term, 0)
      {
        first := i + lastIncludedIndex;
        i := i - 1;
      }
    }

    /** Writes entries from physical index `k`, cutting the log at the first difference. */
    method MergeEntries(k: nat, entries: Log)
      requires k <= |logs|
      modifies this`logs
      ensures logs == Merge(old(logs), k, entries)
    {
      var i := 0;
      while i < |entries|
        invariant 0 <= i <= |entries| && k + i <= |logs| && logs == old(logs)
        invariant Merge(logs, k + i, entries[i..]) == Merge(old(logs), k, entries)
      {
        if k + i < |logs| {
          if logs[k + i].term != entries[i].term {
            logs := logs[..k + i] + entries[i..];
            return;
          }
        } else {
          logs := logs + entries[i..];
          return;
        }
        assert entries[i..][1..] == entries[i + 1..];
        i := i + 1;
      }
    }

    method InstallSnapshot(args: InstallSnapshotArgs) returns (reply: InstallSnapshotReply)
      requires WF(View())
      modifies this, persister
      ensures (View(), reply) == RaftPeer.InstallSnapshot(old(View()), args)
    {
      if currTerm > args.term {
        return InstallSnapshotReply(currTerm);
      }
      role := Follower;
      if args.term > currTerm {
        currTerm := args.term;
        votedFor := -1;
        Persist();
      }
      reply := InstallSnapshotReply(currTerm);
      if lastIncludedIndex >= args.lastIncludedIndex {
        return;
      }
      InstallState(args);
    }

    method InstallState(args: InstallSnapshotArgs)
      requires |logs| > 0 && currTerm == args.term
      modifies this, persister
      ensures View() == Install(old(View()), args)
    {
      var split := FindEntry(args.lastIncludedIndex, args.lastIncludedTerm);
      if split.Some? {
        TakeOver([LogEntry(args.lastIncludedTerm, Nil)] + logs[split.value + 1..], args);
      } else {
        TakeOver([LogEntry(args.lastIncludedTerm, Nil)], args);
      }
    }

    /** Takes a snapshot and what is kept of the log behind it. */
    method TakeOver(newLogs: Log, args: InstallSnapshotArgs)
      requires |logs| > 0 && currTerm == args.term
      modifies this, persister
      ensures View() == Adopt(old(View()), newLogs, args)
    {
      MoveUp(newLogs, args);
      PersistWithSnapshot(args.data);
      applyCh := applyCh + [SnapshotMsg(args.data, lastIncludedTerm, lastIncludedIndex)];
    }

    method MoveUp(newLogs: Log, args: InstallSnapshotArgs)
      modifies this`logs, this`lastIncludedIndex, this`lastIncludedTerm, this`commitIndex, this`lastApplied
      ensures logs == newLogs
      ensures lastIncludedIndex == args.lastIncludedIndex && lastIncludedTerm == args.lastIncludedTerm
      ensures commitIndex == Max(args.lastIncludedIndex, old(commitIndex))
      ensures lastApplied == Max(args.lastIncludedIndex, old(lastApplied))
    {
      logs := newLogs;
      lastIncludedIndex := args.lastIncludedIndex;
      lastIncludedTerm := args.lastIncludedTerm;
      commitIndex := Max(args.lastIncludedIndex, commitIndex);
      lastApplied := Max(args.lastIncludedIndex, lastApplied);
    }

    /** The position of the entry with a given index and term, if the log holds it. */
    method FindEntry(index: nat, term: nat) returns (split: Option<nat>)
      ensures split.Some? <==> HoldsEntry(View(), index, term)
      ensures split.Some? ==> split.value == PhysicalIndex(View(), index)
    {
      split := None;
      var i := 0;
      while i < |logs|
        invariant 0 <= i <= |logs|
        invariant split.Some? <==> PhysicalIndex(View(), index) < i && HoldsEntry(View(), index, term)
        invariant split.Some? ==> split.value == PhysicalIndex(View(), index)
      {
        if i + lastIncludedIndex == index && logs[i].term == term {
          split := Some(i);
        }
        i := i + 1;
      }
    }

    // -------------------------------------------------------------------
    // The service's side
    // -------------------------------------------------------------------

    /** `snapshot` holds the effect of the log up to `index`. */
    method Snapshot(index: nat, snapshot: Log)
      requires WF(View()) && index <= LastLogicalIndex(View())
      requires index > lastIncludedIndex ==> snapshot == Full(View())[..index]
      modifies this, persister
      ensures View() == RaftPeer.Snapshot(old(View()), index)
    {
      if index <= lastIncludedIndex {
        return;
      }
      var k := index - lastIncludedIndex;
      lastIncludedTerm := logs[k].term;
      var newLogs := [LogEntry(logs[k].term, Nil)];
      if k + 1 < |logs| {
        newLogs := newLogs + logs[k + 1..];
      }
      assert newLogs == [LogEntry(logs[k].term, Nil)] + logs[k + 1..];
      logs := newLogs;
      lastIncludedIndex := index;
      lastApplied := Max(index, lastApplied);
      PersistWithSnapshot(snapshot);
    }

    /** One turn of the loop that feeds the service. */
    method SendApplyMsg() returns (msg: Option<ApplyMsg>)
      requires WF(View())
      modifies this
      ensures View() == RaftPeer.SendApplyMsg(old(View()))
      ensures applyCh == old(applyCh) + if msg.Some? then [msg.value] else []
    {
      msg := None;
      if lastApplied < commitIndex {
        lastApplied := lastApplied + 1;
        if lastApplied > lastIncludedIndex + |logs| - 1 {
          lastApplied := lastApplied - 1;
          return;
        }
        msg := Some(CommandMsg(logs[lastApplied - lastIncludedIndex].command, lastApplied));
        applyCh := applyCh + [msg.value];
      }
    }
  }
}
