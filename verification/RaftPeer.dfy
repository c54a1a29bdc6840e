/**
 One Raft peer as a value, and each region the peer runs under its lock as a
 function of that value.

 The log is offset: `logs[0]` is a sentinel that stands for the entry at
 `lastIncludedIndex`.  The stored snapshot is represented by the log prefix
 whose effect it holds, so `Full` is the whole log the peer stands for.
 */
module RaftPeer {
  import opened Options
  import opened RaftTypes

  datatype RequestVoteArgs = RequestVoteArgs(term: nat, candidateId: nat, lastLogIndex: nat, lastLogTerm: nat)

  datatype RequestVoteReply = RequestVoteReply(term: nat, voteGranted: bool)

  datatype AppendEntriesArgs = AppendEntriesArgs(
    term: nat,
    leaderId: nat,
    prevLogIndex: nat,
    prevLogTerm: nat,
    entries: Log,
    leaderCommit: nat)

  datatype AppendEntriesReply = AppendEntriesReply(success: bool, term: nat, conflictIndex: nat, conflictTerm: int)

  datatype InstallSnapshotArgs = InstallSnapshotArgs(
    term: nat,
    leaderId: nat,
    lastIncludedIndex: nat,
    lastIncludedTerm: nat,
    data: Log)

  datatype InstallSnapshotReply = InstallSnapshotReply(term: nat)

  /** A message on the apply channel. */
  datatype ApplyMsg =
    | CommandMsg(command: Command, index: nat)
    | SnapshotMsg(data: Log, term: nat, index: nat)

  /** The encoded record `persist` writes. */
  datatype Persistent = Persistent(
    currTerm: nat,
    votedFor: int,
    logs: Log,
    lastIncludedIndex: nat,
    lastIncludedTerm: nat)

  datatype Server = Server(
    me: nat,
    peers: nat,
    currTerm: nat,
    votedFor: int,
    role: Role,
    logs: Log,
    lastIncludedIndex: nat,
    lastIncludedTerm: nat,
    commitIndex: nat,
    lastApplied: nat,
    nextIndex: seq<nat>,
    matchIndex: seq<nat>,
    votes: set<nat>,            // peers whose vote the current election has counted
    elected: set<nat>,          // elections whose winner has yet to enter becomeLeader
    raftState: Option<Persistent>, // stable storage
    snapshot: Log,              // stable storage
    applyCh: seq<ApplyMsg>)     // messages sent to the service since the peer started

  // ---------------------------------------------------------------------
  // Index helpers
  // ---------------------------------------------------------------------

  function PhysicalIndex(s: Server, logical: int): int {
    logical - s.lastIncludedIndex
  }

  function LogicalIndex(s: Server, physical: int): int {
    physical + s.lastIncludedIndex
  }

  function LastLogicalIndex(s: Server): int {
    s.lastIncludedIndex + |s.logs| - 1
  }

  /** The whole log a peer stands for; entry `i` is at position `i - 1`. */
  function Full(s: Server): Log
    requires |s.logs| > 0
  {
    s.snapshot + s.logs[1..]
  }

  // ---------------------------------------------------------------------
  // What holds whenever the lock is free
  // ---------------------------------------------------------------------

  /** The record `persist` would write. */
  function Record(s: Server): Persistent {
    Persistent(s.currTerm, s.votedFor, s.logs, s.lastIncludedIndex, s.lastIncludedTerm)
  }

  /** The state of a peer that has never stored anything. */
  const BLANK := Persistent(0, -1, [LogEntry(0, Nil)], 0, 0)

  /** Stable storage holds the current term, vote, log and snapshot position. */
  predicate WrittenThrough(s: Server) {
    Record(s) == if s.raftState.Some? then s.raftState.value else BLANK
  }

  /** The sentinel and the stored snapshot both stand for `lastIncludedIndex`. */
  predicate Offset(s: Server) {
    && |s.logs| > 0
    && |s.snapshot| == s.lastIncludedIndex
    && s.lastIncludedTerm == LastTerm(s.snapshot)
    && s.logs[0].term == s.lastIncludedTerm
  }

  /** The index up to which a stream of messages has brought the service. */
  function Level(msgs: seq<ApplyMsg>): nat {
    if msgs == [] then 0 else
    var last := msgs[|msgs| - 1];
    if last.CommandMsg? then last.index else Max(last.index, Level(msgs[..|msgs| - 1]))
  }

  /** Commands come one by one; a gap ends exactly at a snapshot. */
  predicate InOrder(msgs: seq<ApplyMsg>) {
    forall j :: 0 <= j < |msgs| && msgs[j].CommandMsg? ==> msgs[j].index == Level(msgs[..j]) + 1
  }

  ghost predicate StreamFor(msgs: seq<ApplyMsg>, level: nat, key: int) {
    InOrder(msgs) && Level(msgs) == level
  }

  /** The messages sent are in order and have reached `level`.  (Under a key, so that steps that send nothing need not unfold it.) */
  ghost predicate Stream(msgs: seq<ApplyMsg>, level: nat) {
    forall key :: StreamFor(msgs, level, key)
  }

  predicate Tables(s: Server) {
    s.me < s.peers && |s.nextIndex| == s.peers && |s.matchIndex| == s.peers
  }

  ghost predicate WF(s: Server) {
    && Tables(s)
    && Offset(s)
    && WrittenThrough(s)
    && Stream(s.applyCh, s.lastApplied)
    && s.lastIncludedIndex <= s.lastApplied
  }

  // ---------------------------------------------------------------------
  // Storage
  // ---------------------------------------------------------------------

  function Persist(s: Server): Server {
    s.(raftState := Some(Record(s)))
  }

  function PersistWithSnapshot(s: Server, snapshot: Log): Server {
    s.(raftState := Some(Record(s)), snapshot := snapshot)
  }

  /** Step down on learning of a higher term. */
  function StepDown(s: Server, term: nat): Server {
    Persist(s.(currTerm := term, votedFor := -1, role := Follower))
  }

  /** A peer made from what stable storage holds. */
  function Make(me: nat, peers: nat, raftState: Option<Persistent>, snapshot: Log): (s: Server)
    requires me < peers
  {
    var record := if raftState.Some? then raftState.value else BLANK;
    Server(me, peers, record.currTerm, record.votedFor, Follower, record.logs,
           record.lastIncludedIndex, record.lastIncludedTerm,
           record.lastIncludedIndex, record.lastIncludedIndex,
           seq(peers, _ => 0), seq(peers, _ => 0), {}, {}, raftState, snapshot,
           if |snapshot| > 0 then [SnapshotMsg(snapshot, record.lastIncludedTerm, record.lastIncludedIndex)] else [])
  }

  // ---------------------------------------------------------------------
  // Elections
  // ---------------------------------------------------------------------

  function StartElection(s: Server): Server {
    Persist(s.(currTerm := s.currTerm + 1, votedFor := s.me, role := Candidate, votes := {s.me}))
  }

  function VoteArgs(s: Server): RequestVoteArgs
    requires WF(s)
  {
    RequestVoteArgs(s.currTerm, s.me, LastLogicalIndex(s), s.logs[|s.logs| - 1].term)
  }

  function RequestVote(s: Server, args: RequestVoteArgs): (Server, RequestVoteReply)
    requires WF(s)
  {
    var s1 := if args.term > s.currTerm then StepDown(s, args.term) else s;
    if args.term < s1.currTerm then
      (s1, RequestVoteReply(s1.currTerm, false))
    else if s1.votedFor == -1 || s1.votedFor == args.candidateId then
      var lastTerm := s1.logs[|s1.logs| - 1].term;
      if args.lastLogTerm > lastTerm || (args.lastLogTerm == lastTerm && args.lastLogIndex >= LastLogicalIndex(s1)) then
        (Persist(s1.(votedFor := args.candidateId, role := Follower)), RequestVoteReply(s1.currTerm, true))
      else
        (s1, RequestVoteReply(s1.currTerm, false))
    else
      (s1, RequestVoteReply(s1.currTerm, false))
  }

  /** A vote reply up to the point where the lock is given up to become leader. */
  function HandleVoteReply(s: Server, peer: nat, startTerm: nat, reply: RequestVoteReply): Server {
    if s.role != Candidate || s.currTerm != startTerm then s else
    var s1 := if reply.voteGranted then s.(votes := s.votes + {peer}) else s;
    if reply.voteGranted && |s1.votes| > s.peers / 2 then
      s1.(elected := s1.elected + {startTerm})
    else
      FinishVoteReply(s1, reply)
  }

  /** The rest of a vote reply. */
  function FinishVoteReply(s: Server, reply: RequestVoteReply): Server {
    if reply.term > s.currTerm then StepDown(s, reply.term) else s
  }

  function BecomeLeader(s: Server, electionTerm: nat): Server
    requires WF(s)
  {
    if s.role != Candidate || electionTerm != s.currTerm then s else
    var last: nat := LastLogicalIndex(s);
    s.(role := Leader,
    nextIndex := seq(s.peers, p requires 0 <= p < s.peers && |s.nextIndex| == s.peers =>
      if p == s.me then s.nextIndex[p] else last + 1))
  }

  // ---------------------------------------------------------------------
  // Log replication: the leader's side
  // ---------------------------------------------------------------------

  function Start(s: Server, command: Command): Server {
    if s.role != Leader then s else
    Persist(s.(logs := s.logs + [LogEntry(s.currTerm, command)]))
  }

  /** Whether the peer to be served has fallen behind the snapshot. */
  predicate Lagging(s: Server, peer: nat)
    requires peer < |s.nextIndex|
  {
    s.nextIndex[peer] <= s.lastIncludedIndex
  }

  /** Reading the log from `nextIndex` is within bounds; otherwise the peer panics. */
  predicate CanBuildAppend(s: Server, peer: nat) {
    && peer < |s.nextIndex|
    && !Lagging(s, peer)
    && s.nextIndex[peer] <= LastLogicalIndex(s) + 1
  }

  function BuildAppend(s: Server, peer: nat): AppendEntriesArgs
    requires WF(s) && CanBuildAppend(s, peer)
  {
    var k := PhysicalIndex(s, s.nextIndex[peer]);
    AppendEntriesArgs(s.currTerm, s.me, s.nextIndex[peer] - 1, s.logs[k - 1].term, s.logs[k..], s.commitIndex)
  }

  function BuildSnapshot(s: Server): InstallSnapshotArgs {
    InstallSnapshotArgs(s.currTerm, s.me, s.lastIncludedIndex, s.lastIncludedTerm, s.snapshot)
  }

  /** The peers below `k` known to hold an index, with `me` always among them. */
  function HoldersBelow(me: nat, matchIndex: seq<nat>, index: nat, k: nat): (r: set<nat>)
    requires k <= |matchIndex|
    ensures forall p: nat :: p in r <==> p == me || (p < k && matchIndex[p] >= index)
  {
    if k == 0 then {me}
    else
      var r := HoldersBelow(me, matchIndex, index, k - 1);
      if k - 1 != me && matchIndex[k - 1] >= index then r + {k - 1} else r
  }

  /** The peers known to hold an index, the leader included. */
  function Holders(s: Server, index: nat): set<nat>
    requires Tables(s)
  {
    HoldersBelow(s.me, s.matchIndex, index, s.peers)
  }

  predicate Committable(s: Server, index: nat)
    requires WF(s) && s.lastIncludedIndex <= index <= LastLogicalIndex(s)
  {
    s.logs[PhysicalIndex(s, index)].term == s.currTerm && |Holders(s, index)| > s.peers / 2
  }

  /**
   The scan for the highest index the leader may commit.  Below the sentinel the
   program would panic; the scan stops there.
   */
  function CommitTarget(s: Server, index: nat): nat
    requires WF(s) && index <= LastLogicalIndex(s)
  {
    if index <= s.commitIndex || index < s.lastIncludedIndex then s.commitIndex
    else if Committable(s, index) then index
    else CommitTarget(s, index - 1)
  }

  function CommitIndexUpdate(s: Server): Server
    requires WF(s)
  {
    s.(commitIndex := CommitTarget(s, LastLogicalIndex(s)))
  }

  /** The physical index after the last entry of a term, or none. */
  function LastOfTerm(logs: Log, term: int, k: nat): Option<nat>
    requires k <= |logs|
  {
    if k == 0 then None
    else if logs[k - 1].term == term then Some(k)
    else LastOfTerm(logs, term, k - 1)
  }

  /** Where a leader tries next after a rejected append; `None` means it sends a snapshot instead. */
  function NextAfterConflict(s: Server, reply: AppendEntriesReply): Option<nat> {
    if reply.conflictTerm == -1 then Some(reply.conflictIndex)
    else if reply.conflictIndex < s.lastIncludedIndex then None
    else match LastOfTerm(s.logs, reply.conflictTerm, |s.logs|)
         case Some(k) => Some(k + s.lastIncludedIndex)
         case None => Some(reply.conflictIndex)
  }

  function SetNext(s: Server, peer: nat, next: nat): Server
    requires peer < |s.nextIndex|
  {
    s.(nextIndex := s.nextIndex[peer := Max(next, 1)])
  }

  /** The peer is known to hold the log up to `len`. */
  function RecordMatch(s: Server, peer: nat, len: nat): Server
    requires WF(s) && peer < s.peers
  {
    var m := Max(len, s.matchIndex[peer]);
    CommitIndexUpdate(SetNext(s.(matchIndex := s.matchIndex[peer := m]), peer, m + 1))
  }

  function HandleAppendReply(s: Server, peer: nat, args: AppendEntriesArgs, reply: AppendEntriesReply): Server
    requires WF(s) && peer < s.peers
  {
    if s.currTerm != args.term then s
    else if reply.term > s.currTerm then StepDown(s, reply.term)
    else if s.role != Leader then s
    else if reply.success then
      RecordMatch(s, peer, args.prevLogIndex + |args.entries|)
    else
      match NextAfterConflict(s, reply)
      case Some(next) => SetNext(s, peer, next)
      case None => s
  }

  function HandleSnapshotReply(s: Server, peer: nat, args: InstallSnapshotArgs, reply: InstallSnapshotReply): Server
    requires WF(s) && peer < s.peers
  {
    if reply.term > s.currTerm then StepDown(s, reply.term)
    else if s.role != Leader || s.currTerm != args.term then s
    else
      var m := Max(args.lastIncludedIndex, s.matchIndex[peer]);
      s.(matchIndex := s.matchIndex[peer := m], nextIndex := s.nextIndex[peer := Max(m + 1, s.nextIndex[peer])])
  }

  // ---------------------------------------------------------------------
  // Log replication: the follower's side
  // ---------------------------------------------------------------------

  /** The scan for the first entry of the conflicting term; `found` is the last index seen so far. */
  function ConflictIndex(s: Server, k: nat, term: nat, found: nat): nat
    requires k < |s.logs|
  {
    if k > 0 && s.logs[k].term == term then ConflictIndex(s, k - 1, term, LogicalIndex(s, k)) else found
  }

  /** Writes `entries` from physical index `k`, cutting the log at the first difference. */
  function Merge(logs: Log, k: nat, entries: Log): (r: Log)
    requires k <= |logs|
    ensures |r| >= k
    decreases |entries|
  {
    if entries == [] then logs
    else if k == |logs| then logs + entries
    else if logs[k].term != entries[0].term then logs[..k] + entries
    else Merge(logs, k + 1, entries[1..])
  }

  function AppendEntries(s: Server, args: AppendEntriesArgs): (Server, AppendEntriesReply)
    requires WF(s)
  {
    if args.term < s.currTerm then
      (s, AppendEntriesReply(false, s.currTerm, 0, 0))
    else
      var s1 := if args.term > s.currTerm then StepDown(s, args.term) else s.(role := Follower);
      if args.prevLogIndex > LastLogicalIndex(s1) then
        (s1, AppendEntriesReply(false, 0, LastLogicalIndex(s1) + 1, -1))
      else if args.prevLogIndex < s1.lastIncludedIndex then
        (s1, AppendEntriesReply(false, s1.currTerm, s1.lastIncludedIndex + 1, -1))
      else
        var k := PhysicalIndex(s1, args.prevLogIndex);
        if args.prevLogTerm != s1.logs[k].term then
          (s1, AppendEntriesReply(false, 0, ConflictIndex(s1, k, s1.logs[k].term, 0), s1.logs[k].term))
        else
          (Accept(s1, k, args), AppendEntriesReply(true, 0, 0, 0))
  }

  /** The part of AppendEntries that changes the log. */
  function Accept(s: Server, k: nat, args: AppendEntriesArgs): Server
    requires k < |s.logs|
  {
    var s1 := Persist(s.(logs := Merge(s.logs, k + 1, args.entries)));
    if args.leaderCommit > s1.commitIndex then
      s1.(commitIndex := Min(args.leaderCommit, LastLogicalIndex(s1)))
    else s1
  }

  /** Whether the follower already holds the snapshot's last entry. */
  predicate HoldsEntry(s: Server, index: nat, term: nat) {
    var k := PhysicalIndex(s, index);
    0 <= k < |s.logs| && s.logs[k].term == term
  }

  function InstallSnapshot(s: Server, args: InstallSnapshotArgs): (Server, InstallSnapshotReply)
    requires WF(s)
  {
    if s.currTerm > args.term then
      (s, InstallSnapshotReply(s.currTerm))
    else
      var s1 := if args.term > s.currTerm then StepDown(s, args.term) else s.(role := Follower);
      if s1.lastIncludedIndex >= args.lastIncludedIndex then
        (s1, InstallSnapshotReply(s1.currTerm))
      else
        (Install(s1, args), InstallSnapshotReply(s1.currTerm))
  }

  /** The part of InstallSnapshot that changes the log. */
  function Install(s: Server, args: InstallSnapshotArgs): Server
    requires |s.logs| > 0
  {
    var sentinel := LogEntry(args.lastIncludedTerm, Nil);
    var logs := if HoldsEntry(s, args.lastIncludedIndex, args.lastIncludedTerm)
    then [sentinel] + s.logs[PhysicalIndex(s, args.lastIncludedIndex) + 1..]
    else [sentinel];
    Adopt(s, logs, args)
  }

  /** Takes a snapshot and what is kept of the log behind it. */
  function Adopt(s: Server, logs: Log, args: InstallSnapshotArgs): Server {
    PersistWithSnapshot(
      s.(logs := logs,
         lastIncludedIndex := args.lastIncludedIndex,
         lastIncludedTerm := args.lastIncludedTerm,
         commitIndex := Max(args.lastIncludedIndex, s.commitIndex),
         lastApplied := Max(args.lastIncludedIndex, s.lastApplied),
         applyCh := s.applyCh + [SnapshotMsg(args.data, args.lastIncludedTerm, args.lastIncludedIndex)]),
      args.data)
  }

  // ---------------------------------------------------------------------
  // The service's side
  // ---------------------------------------------------------------------

  /** The service has captured everything up to `index`. */
  function Snapshot(s: Server, index: nat): Server
    requires WF(s) && index <= LastLogicalIndex(s)
  {
    if index <= s.lastIncludedIndex then s else
    var k := PhysicalIndex(s, index);
    PersistWithSnapshot(
      s.(logs := [LogEntry(s.logs[k].term, Nil)] + s.logs[k + 1..],
         lastIncludedIndex := index,
         lastIncludedTerm := s.logs[k].term,
         lastApplied := Max(index, s.lastApplied)),
      Full(s)[..index])
  }

  /** One turn of the loop that feeds the apply channel. */
  function SendApplyMsg(s: Server): Server
    requires WF(s)
  {
    if s.lastApplied < s.commitIndex && s.lastApplied + 1 <= LastLogicalIndex(s) then
      var index := s.lastApplied + 1;
      s.(lastApplied := index,
      applyCh := s.applyCh + [CommandMsg(s.logs[PhysicalIndex(s, index)].command, index)])
    else s
  }
}
