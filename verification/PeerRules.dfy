/**
 What a peer answers, told in terms of the whole log it stands for: whom it
 votes for, what it makes of a higher term, where it sends a leader whose
 entries do not fit, and where that leader goes.
 */
module PeerRules {
  import opened Options
  import opened RaftTypes
  import opened RaftPeer
  import opened RaftPeerFacts

  // ---------------------------------------------------------------------
  // Votes
  // ---------------------------------------------------------------------

  /**
   A peer stands for the next term with its own vote, on record, and asks for
   others' with the end of its whole log, trimmed or not.
   */
  lemma ElectionRule(s: Server)
    requires WF(s)
    ensures var s' := StartElection(s);
      && WF(s') && Full(s') == Full(s)
      && s'.currTerm == s.currTerm + 1 && s'.votedFor == s.me && s'.role == Candidate && s'.votes == {s.me}
      && VoteArgs(s') == RequestVoteArgs(s.currTerm + 1, s.me, |Full(s)|, LastTerm(Full(s)))
  {
    StartElectionFacts(s);
    LastFacts(StartElection(s));
  }

  /** The candidate's log ends in a later term, or in the same one and no earlier. */
  predicate AtLeast(args: RequestVoteArgs, log: Log) {
    args.lastLogTerm > LastTerm(log) || (args.lastLogTerm == LastTerm(log) && args.lastLogIndex >= |log|)
  }

  /** The vote is still the candidate's to have. */
  predicate MayVote(s: Server, args: RequestVoteArgs) {
    args.term > s.currTerm || (args.term == s.currTerm && (s.votedFor == -1 || s.votedFor == args.candidateId))
  }

  /**
   A peer grants its vote exactly if it has it to give in the candidate's term
   and the candidate's log is at least as up to date as its own, trimmed or not.
   */
  lemma VoteRule(s: Server, args: RequestVoteArgs)
    requires WF(s)
    ensures var (s', reply) := RequestVote(s, args);
      && (reply.voteGranted <==> MayVote(s, args) && AtLeast(args, Full(s)))
      && reply.term == s'.currTerm == Max(args.term, s.currTerm)
      && s'.votedFor == (if reply.voteGranted then args.candidateId else if args.term > s.currTerm then -1 else s.votedFor)
      && s'.role == (if reply.voteGranted || args.term > s.currTerm then Follower else s.role)
      && WF(s') && Full(s') == Full(s)
  {
    LastFacts(s);
  }

  // ---------------------------------------------------------------------
  // Higher terms
  // ---------------------------------------------------------------------

  /** What hearing of `term` makes of a peer: if it is higher, a follower of that term that has not voted, on record. */
  ghost predicate Heeds(s: Server, s': Server, term: nat) {
    && s'.currTerm == Max(s.currTerm, term) && |s.logs| > 0 && |s'.logs| > 0 && Full(s') == Full(s)
    && if term > s.currTerm then s'.role == Follower && s'.votedFor == -1 && s'.raftState == Some(Record(s'))
       else s'.role == s.role && s'.votedFor == s.votedFor && s'.raftState == s.raftState
  }

  lemma FinishVoteRule(s: Server, reply: RequestVoteReply)
    requires WF(s)
    ensures Heeds(s, FinishVoteReply(s, reply), reply.term)
    ensures reply.term <= s.currTerm ==> FinishVoteReply(s, reply) == s
  {
  }

  /** The reply brings the candidate past half of the votes. */
  predicate Wins(s: Server, peer: nat, reply: RequestVoteReply) {
    reply.voteGranted && |s.votes + {peer}| > s.peers / 2
  }

  /** A reply to the current election counts if it grants the vote, wins if that makes a majority, and is heeded if it does not. */
  lemma VoteReplyRule(s: Server, peer: nat, startTerm: nat, reply: RequestVoteReply)
    requires WF(s)
    ensures var s' := HandleVoteReply(s, peer, startTerm, reply);
      if s.role != Candidate || s.currTerm != startTerm then s' == s
      else
        && s'.votes == (if reply.voteGranted then s.votes + {peer} else s.votes)
        && (startTerm in s'.elected <==> startTerm in s.elected || Wins(s, peer, reply))
        && Heeds(s, s', if Wins(s, peer, reply) then s.currTerm else reply.term)
  {
  }

  /** The winner of the current election, and no one else, starts to lead, and tries every other peer past its own last entry. */
  lemma LeadRule(s: Server, electionTerm: nat)
    requires WF(s)
    ensures var s' := BecomeLeader(s, electionTerm);
      if s.role == Candidate && s.currTerm == electionTerm then
        && s'.role == Leader && s'.matchIndex == s.matchIndex && Record(s') == Record(s) && Full(s') == Full(s)
        && forall p :: 0 <= p < s.peers && p != s.me ==> s'.nextIndex[p] == |Full(s)| + 1
      else s' == s
  {
    LastFacts(s);
  }

  /** The peer may be taken to hold `len` entries, and all others what they were; the leader commits all that this lets it. */
  ghost predicate Credits(s: Server, s': Server, peer: nat, len: nat)
    requires WF(s) && WF(s') && peer < s.peers == s'.peers
  {
    && s'.matchIndex == s.matchIndex[peer := Max(len, s.matchIndex[peer])]
    && s'.nextIndex == s.nextIndex[peer := s'.matchIndex[peer] + 1]
    && s'.commitIndex >= s.commitIndex
    && (s'.commitIndex > s.commitIndex ==>
      s'.lastIncludedIndex <= s'.commitIndex <= LastLogicalIndex(s') && Committable(s', s'.commitIndex))
    && forall k :: Max(s'.commitIndex + 1, s'.lastIncludedIndex) <= k <= LastLogicalIndex(s') ==> !Committable(s', k)
  }

  /**
   A reply to a request of the current term is heeded; if it is no higher and
   the peer leads, success credits the peer with what the request carried, and
   failure sends it where the follower's reply calls for.
   */
  lemma AppendReplyRule(s: Server, peer: nat, args: AppendEntriesArgs, reply: AppendEntriesReply)
    requires WF(s) && peer < s.peers
    ensures var s' := HandleAppendReply(s, peer, args, reply);
      && WF(s') && s'.peers == s.peers
      && if s.currTerm != args.term then s' == s
         else
           && Heeds(s, s', reply.term)
           && (reply.term <= s.currTerm && s.role == Leader && reply.success ==>
             Credits(s, s', peer, args.prevLogIndex + |args.entries|))
           && (reply.term <= s.currTerm && s.role == Leader && !reply.success ==>
             && s'.matchIndex == s.matchIndex && s'.commitIndex == s.commitIndex
             && s'.nextIndex == match NextAfterConflict(s, reply)
                case Some(next) => s.nextIndex[peer := Max(next, 1)]
                case None => s.nextIndex)
           && (reply.term <= s.currTerm && s.role != Leader ==> s' == s)
  {
    HandleAppendReplyFacts(s, peer, args, reply);
    if s.currTerm == args.term && reply.term <= s.currTerm && s.role == Leader && reply.success {
      CreditRule(s, peer, args.prevLogIndex + |args.entries|);
    }
  }

  lemma CreditRule(s: Server, peer: nat, len: nat)
    requires WF(s) && peer < s.peers
    ensures WF(RecordMatch(s, peer, len)) && Credits(s, RecordMatch(s, peer, len), peer, len)
  {
    var m := Max(len, s.matchIndex[peer]);
    var s1 := SetNext(s.(matchIndex := s.matchIndex[peer := m]), peer, m + 1);
    assert WF(s1);
    CommitTargetIsHighest(s1, LastLogicalIndex(s1));
    var s' := RecordMatch(s, peer, len);
    forall k | s'.lastIncludedIndex <= k <= LastLogicalIndex(s') ensures Committable(s', k) <==> Committable(s1, k) {
    }
  }

  /** A reply to a snapshot of a higher term is heeded; one to a request of the leader's own term raises its view of the peer. */
  lemma SnapshotReplyRule(s: Server, peer: nat, args: InstallSnapshotArgs, reply: InstallSnapshotReply)
    requires WF(s) && peer < s.peers
    ensures var s' := HandleSnapshotReply(s, peer, args, reply);
      && Heeds(s, s', reply.term)
      && (reply.term <= s.currTerm && s.role == Leader && s.currTerm == args.term ==>
        && s'.matchIndex[peer] == Max(args.lastIncludedIndex, s.matchIndex[peer])
        && s'.nextIndex[peer] == Max(s'.matchIndex[peer] + 1, s.nextIndex[peer])
        && forall p :: 0 <= p < s.peers && p != peer ==>
          s'.matchIndex[p] == s.matchIndex[p] && s'.nextIndex[p] == s.nextIndex[p])
  {
  }

  // ---------------------------------------------------------------------
  // Entries that do not fit
  // ---------------------------------------------------------------------

  /** From `c` up to `prev` the log has entries of one term, and before `c` it has another or is trimmed away. */
  ghost predicate TermBegins(log: Log, base: nat, c: nat, prev: nat) {
    && base < c <= prev <= |log|
    && (forall i :: c <= i <= prev ==> TermAt(log, i) == TermAt(log, prev))
    && (c == base + 1 || TermAt(log, c - 1) != TermAt(log, prev))
  }

  lemma {:induction false} ScanFindsStart(s: Server, k: nat, found: nat)
    requires WF(s) && 0 < k < |s.logs|
    ensures TermBegins(Full(s), s.lastIncludedIndex, ConflictIndex(s, k, s.logs[k].term, found), s.lastIncludedIndex + k)
    decreases k
  {
    FullAt(s, s.lastIncludedIndex + k);
    if k > 1 {
      FullAt(s, s.lastIncludedIndex + k - 1);
      if s.logs[k - 1].term == s.logs[k].term { ScanFindsStart(s, k - 1, LogicalIndex(s, k)); }
    }
  }

  /** The whole log fits a request that continues it. */
  predicate Fits(s: Server, args: AppendEntriesArgs)
    requires |s.logs| > 0
  {
    s.lastIncludedIndex <= args.prevLogIndex <= |Full(s)| && TermAt(Full(s), args.prevLogIndex) == args.prevLogTerm
  }

  /** A request of an earlier term is refused, with word of the term; any other is accepted exactly if the log fits it. */
  lemma AppendRule(s: Server, args: AppendEntriesArgs)
    requires WF(s)
    ensures var (s', reply) := AppendEntries(s, args);
      && (reply.success <==> args.term >= s.currTerm && Fits(s, args))
      && (args.term < s.currTerm ==> s' == s && reply.term == s.currTerm)
      && (args.term >= s.currTerm ==> s'.currTerm == args.term && s'.role == Follower && reply.term <= args.term)
      && (args.term >= s.currTerm && !reply.success ==> |s'.logs| > 0 && Full(s') == Full(s))
  {
    if args.term >= s.currTerm { CurrentRule(s, if args.term > s.currTerm then StepDown(s, args.term) else s.(role := Follower), args); }
  }

  lemma CurrentRule(s: Server, s1: Server, args: AppendEntriesArgs)
    requires WF(s) && args.term >= s.currTerm
    requires s1 == if args.term > s.currTerm then StepDown(s, args.term) else s.(role := Follower)
    ensures var (s', reply) := AppendEntries(s, args);
      && (reply.success <==> Fits(s, args)) && reply.term <= args.term
      && s'.currTerm == args.term && s'.role == Follower && (!reply.success ==> s' == s1)
    ensures |s1.logs| > 0 && Full(s1) == Full(s)
  {
    LastFacts(s);
    if s.lastIncludedIndex <= args.prevLogIndex <= LastLogicalIndex(s) { FullAt(s, args.prevLogIndex); }
  }

  /** A request that is accepted brings the follower's commit index up to the leader's, as far as the log now goes. */
  lemma CommitRule(s: Server, args: AppendEntriesArgs)
    requires WF(s) && args.term >= s.currTerm && Fits(s, args)
    ensures var s' := AppendEntries(s, args).0;
      |s'.logs| > 0 && s'.commitIndex == if args.leaderCommit > s.commitIndex then Min(args.leaderCommit, |Full(s')|) else s.commitIndex
  {
    LastFacts(s);
    FullAt(s, args.prevLogIndex);
    var s1 := if args.term > s.currTerm then StepDown(s, args.term) else s.(role := Follower);
    var k := PhysicalIndex(s1, args.prevLogIndex);
    assert AppendEntries(s, args).0 == Accept(s1, k, args);
    AcceptCommits(s1, k, args, Accept(s1, k, args));
  }

  lemma AcceptCommits(s: Server, k: nat, args: AppendEntriesArgs, s': Server)
    requires WF(s) && k < |s.logs| && s' == Accept(s, k, args)
    ensures |s'.logs| > 0
    ensures s'.commitIndex == if args.leaderCommit > s.commitIndex then Min(args.leaderCommit, |Full(s')|) else s.commitIndex
  {
    AcceptWF(s, k, args);
    LastFacts(s');
  }

  /**
   Where a follower sends a leader whose entries do not fit: to its own end, or
   past its snapshot, if the place tried is beyond them; otherwise to where the
   term of its own entry there begins.
   */
  lemma RejectRule(s: Server, args: AppendEntriesArgs)
    requires WF(s) && args.term >= s.currTerm && !Fits(s, args)
    ensures var reply, prev, log := AppendEntries(s, args).1, args.prevLogIndex, Full(s);
      && (prev > |log| ==> reply.conflictTerm == -1 && reply.conflictIndex == |log| + 1)
      && (prev < s.lastIncludedIndex ==> reply.conflictTerm == -1 && reply.conflictIndex == s.lastIncludedIndex + 1)
      && (s.lastIncludedIndex < prev <= |log| ==>
        reply.conflictTerm == TermAt(log, prev) && TermBegins(log, s.lastIncludedIndex, reply.conflictIndex, prev))
      && (prev == s.lastIncludedIndex ==> reply.conflictTerm == TermAt(log, prev) && reply.conflictIndex == 0)
  {
    LastFacts(s);
    if s.lastIncludedIndex <= args.prevLogIndex <= LastLogicalIndex(s) {
      var s1 := if args.term > s.currTerm then StepDown(s, args.term) else s.(role := Follower);
      assert WF(s1) && Full(s1) == Full(s);
      var k := PhysicalIndex(s1, args.prevLogIndex);
      FullAt(s1, args.prevLogIndex);
      if k > 0 { ScanFindsStart(s1, k, 0); }
    }
  }

  // ---------------------------------------------------------------------
  // Where the leader goes
  // ---------------------------------------------------------------------

  /** The scan finds the last entry of the term among the first `k`, if there is one. */
  lemma {:induction false} LastOfTermRule(logs: Log, term: int, k: nat)
    requires k <= |logs|
    ensures match LastOfTerm(logs, term, k)
      case Some(x) => 1 <= x <= k && logs[x - 1].term == term && forall i :: x <= i < k ==> logs[i].term != term
      case None => forall i :: 0 <= i < k ==> logs[i].term != term
  {
    if k > 0 && logs[k - 1].term != term { LastOfTermRule(logs, term, k - 1); }
  }

  /** Up to its end, the leader's log has its last entry of the term right before `next`. */
  ghost predicate JustPast(log: Log, base: nat, term: int, next: nat) {
    base < next <= |log| + 1 && TermAt(log, next - 1) == term && forall i :: next <= i <= |log| ==> TermAt(log, i) != term
  }

  ghost predicate Lacks(log: Log, base: nat, term: int) {
    forall i :: base <= i <= |log| ==> TermAt(log, i) != term
  }

  /**
   Where a leader goes from there: to the place named, if the follower was
   short or the leader has no entry of the term named; else right past its own
   last entry of that term; and to its snapshot, if the place named lies in it.
   */
  lemma NextRule(l: Server, reply: AppendEntriesReply)
    requires WF(l)
    ensures var base, log, term := l.lastIncludedIndex, Full(l), reply.conflictTerm;
      match NextAfterConflict(l, reply)
      case None => term != -1 && reply.conflictIndex < base
      case Some(next) =>
        && (term == -1 ==> next == reply.conflictIndex)
        && (term != -1 ==> reply.conflictIndex >= base)
        && (term != -1 ==> JustPast(log, base, term, next) || (next == reply.conflictIndex && Lacks(log, base, term)))
  {
    LastFacts(l);
    LastOfTermRule(l.logs, reply.conflictTerm, |l.logs|);
    forall i | l.lastIncludedIndex <= i <= |Full(l)| ensures l.logs[i - l.lastIncludedIndex].term == TermAt(Full(l), i) {
      FullAt(l, i);
    }
  }

  // ---------------------------------------------------------------------
  // Snapshots and the service
  // ---------------------------------------------------------------------

  /**
   A snapshot of an earlier term is refused, with word of the term.  Any other
   makes a follower, and one that reaches further than the peer's own replaces
   it, moves everything up to its index and is passed on to the service.
   */
  lemma InstallRule(s: Server, args: InstallSnapshotArgs)
    requires WF(s)
    ensures var (s', reply) := InstallSnapshot(s, args);
      && reply.term == s'.currTerm == Max(args.term, s.currTerm)
      && (args.term < s.currTerm ==> s' == s)
      && (args.term >= s.currTerm ==> s'.role == Follower && s'.votedFor == if args.term > s.currTerm then -1 else s.votedFor)
      && (args.term >= s.currTerm && args.lastIncludedIndex <= s.lastIncludedIndex ==>
        && s'.logs == s.logs && s'.snapshot == s.snapshot && s'.lastIncludedIndex == s.lastIncludedIndex
        && s'.commitIndex == s.commitIndex && s'.lastApplied == s.lastApplied && s'.applyCh == s.applyCh)
      && (args.term >= s.currTerm && args.lastIncludedIndex > s.lastIncludedIndex ==>
        && s'.snapshot == args.data && s'.raftState == Some(Record(s'))
        && s'.lastIncludedIndex == args.lastIncludedIndex && s'.lastIncludedTerm == args.lastIncludedTerm
        && s'.commitIndex == Max(args.lastIncludedIndex, s.commitIndex)
        && s'.lastApplied == Max(args.lastIncludedIndex, s.lastApplied)
        && s'.applyCh == s.applyCh + [SnapshotMsg(args.data, args.lastIncludedTerm, args.lastIncludedIndex)])
  {
  }

  /** The next entry of the whole log goes to the service exactly if it is committed. */
  lemma ApplyRule(s: Server)
    requires WF(s)
    ensures var s' := SendApplyMsg(s);
      if s.lastApplied < s.commitIndex && s.lastApplied < |Full(s)| then
        && s'.lastApplied == s.lastApplied + 1 && s'.commitIndex == s.commitIndex
        && s'.applyCh == s.applyCh + [CommandMsg(Full(s)[s.lastApplied].command, s.lastApplied + 1)]
      else s' == s
  {
    LastFacts(s);
    if s.lastApplied < |Full(s)| { FullAt(s, s.lastApplied + 1); }
  }
}
