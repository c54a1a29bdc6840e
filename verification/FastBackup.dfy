/**
 Bringing a follower's log up to the leader's.  A rejected append tells the
 leader where to try next; a follower behind the leader's snapshot is sent
 that instead.  Undisturbed, the exchanges end, and soon.
 */
module FastBackup {
  import opened Options
  import opened RaftTypes
  import opened RaftPeer
  import opened RaftPeerFacts
  import opened PeerRules
  import opened Consensus
  import opened Refinement
  import opened RaftTheorems
  import opened LeaderTables
  import C = Cluster

  // ---------------------------------------------------------------------
  // One exchange
  // ---------------------------------------------------------------------

  /** The leader sends its snapshot and handles the reply. */
  function SnapshotExchange(l: Server, f: Server, peer: nat): (Server, Server)
    requires WF(l) && WF(f) && peer < l.peers
  {
    var args := BuildSnapshot(l);
    var (f1, reply) := InstallSnapshot(f, args);
    (HandleSnapshotReply(l, peer, args, reply), f1)
  }

  /** The leader sends what it finds due and handles the reply, with a snapshot to follow if the reply calls for one. */
  function Exchange(l: Server, f: Server, peer: nat): (r: (Server, Server))
    requires WF(l) && WF(f) && peer < l.peers && l.nextIndex[peer] <= LastLogicalIndex(l) + 1
  {
    if Lagging(l, peer) then SnapshotExchange(l, f, peer) else
    var args := BuildAppend(l, peer);
    var (f1, reply) := AppendEntries(f, args);
    var l1 := HandleAppendReply(l, peer, args, reply);
    if Rebuffed(l, reply) then
      C.AppendEntriesWF(f, args);
      HandleAppendReplyFacts(l, peer, args, reply);
      SnapshotExchange(l1, f1, peer)
    else (l1, f1)
  }

  /** The reply sends the leader back past its own snapshot. */
  predicate Rebuffed(l: Server, reply: AppendEntriesReply) {
    reply.term <= l.currTerm && l.role == Leader && !reply.success && NextAfterConflict(l, reply).None?
  }

  // ---------------------------------------------------------------------
  // What an exchange starts from
  // ---------------------------------------------------------------------

  ghost predicate PairedFor(lead: map<nat, Log>, l: Server, f: Server, peer: nat, key: int)
    requires WF(l) && WF(f) && peer < l.peers && f.lastIncludedIndex <= |Full(l)| && l.matchIndex[peer] <= |Full(l)|
  {
    && peer != l.me && l.role == Leader && f.currTerm <= l.currTerm
    && LogOK(lead, Full(l)) && LogOK(lead, Full(f))
    && TermAt(Full(l), f.lastIncludedIndex) == f.lastIncludedTerm
    && Full(l)[..l.matchIndex[peer]] <= Full(f)
  }

  /**
   A leader and a follower whose logs hold, entry by entry, what the leaders
   of the entries' terms wrote; the leader's log covers the follower's
   snapshot and agrees with it; and what the leader believes the follower
   holds, it holds.
   */
  ghost predicate Paired(lead: map<nat, Log>, l: Server, f: Server, peer: nat) {
    && WF(l) && WF(f) && peer < l.peers && l.nextIndex[peer] <= LastLogicalIndex(l) + 1 && LastLogicalIndex(l) == |Full(l)|
    && f.lastIncludedIndex <= |Full(l)| && l.matchIndex[peer] <= |Full(l)|
    && forall key :: PairedFor(lead, l, f, peer, key)
  }

  /** The follower holds the leader's log, and the leader knows. */
  ghost predicate Synced(l: Server, f: Server, peer: nat)
    requires WF(l) && WF(f) && peer < l.peers
  {
    Full(l) <= Full(f) && l.matchIndex[peer] == LastLogicalIndex(l)
  }

  /** The leader as one exchange with `peer` leaves it. */
  ghost predicate Moved(l: Server, l': Server, peer: nat)
    requires WF(l) && peer < l.peers
  {
    && WF(l') && l'.me == l.me && l'.peers == l.peers && l'.role == l.role && l'.currTerm == l.currTerm
    && l'.logs == l.logs && l'.snapshot == l.snapshot && l'.lastIncludedIndex == l.lastIncludedIndex
  }

  lemma SnapshotAgrees(lead: map<nat, Log>, l: Server, f: Server, peer: nat)
    requires Paired(lead, l, f, peer)
    ensures f.snapshot <= Full(l)
  {
    assert PairedFor(lead, l, f, peer, 0);
    FullAt(f, f.lastIncludedIndex);
    if f.lastIncludedIndex > 0 {
      assert f.snapshot == Full(f)[..f.lastIncludedIndex];
      LogsMatch(lead, Full(l), Full(f), f.lastIncludedIndex);
    }
  }

  // ---------------------------------------------------------------------
  // Snapshots
  // ---------------------------------------------------------------------

  /** The follower that took the term of a request. */
  function Joined(f: Server, term: nat): Server {
    if term > f.currTerm then StepDown(f, term) else f.(role := Follower)
  }

  lemma JoinedFacts(f: Server, term: nat)
    requires WF(f)
    ensures WF(Joined(f, term)) && Full(Joined(f, term)) == Full(f)
  {
    if term > f.currTerm { StepDownFacts(f, term); }
  }

  lemma SnapshotFollower(lead: map<nat, Log>, l: Server, f: Server, peer: nat)
    requires Paired(lead, l, f, peer)
    ensures var f' := SnapshotExchange(l, f, peer).1;
      && WF(f') && f'.currTerm == l.currTerm && LogOK(lead, Full(f'))
      && f'.lastIncludedIndex == Max(f.lastIncludedIndex, l.lastIncludedIndex)
      && TermAt(Full(l), f'.lastIncludedIndex) == f'.lastIncludedTerm
      && Full(l)[..Max(l.lastIncludedIndex, l.matchIndex[peer])] <= Full(f')
  {
    assert PairedFor(lead, l, f, peer, 0);
    var f1 := Joined(f, l.currTerm);
    JoinedFacts(f, l.currTerm);
    SnapshotAgrees(lead, l, f, peer);
    assert f.snapshot <= Full(f);
    FullAt(l, l.lastIncludedIndex);
    if f1.lastIncludedIndex < l.lastIncludedIndex {
      InstalledFollower(lead, l, f1, l.matchIndex[peer]);
    }
  }

  /** A follower behind the leader's snapshot takes it, and loses nothing the leader knows it holds. */
  lemma InstalledFollower(lead: map<nat, Log>, l: Server, f: Server, m: nat)
    requires WF(l) && WF(f) && LogOK(lead, Full(l)) && LogOK(lead, Full(f)) && f.lastIncludedIndex < l.lastIncludedIndex
    requires m <= |Full(l)| && Full(l)[..m] <= Full(f)
    ensures var f' := Install(f, BuildSnapshot(l));
      && WF(f') && f'.currTerm == f.currTerm && LogOK(lead, Full(f'))
      && f'.lastIncludedIndex == l.lastIncludedIndex <= |Full(l)| && TermAt(Full(l), l.lastIncludedIndex) == f'.lastIncludedTerm
      && Full(l)[..Max(l.lastIncludedIndex, m)] <= Full(f')
  {
    var args := BuildSnapshot(l);
    FullAt(l, l.lastIncludedIndex);
    assert l.snapshot == Full(l)[..l.lastIncludedIndex];
    LogOKPrefix(lead, Full(l), l.snapshot);
    InstallWF(f, args);
    InstallFull(lead, f, args);
  }

  lemma SnapshotStep(lead: map<nat, Log>, l: Server, f: Server, peer: nat)
    requires Paired(lead, l, f, peer)
    ensures var (l', f') := SnapshotExchange(l, f, peer);
      && Moved(l, l', peer) && Paired(lead, l', f', peer)
      && f'.lastIncludedIndex == Max(f.lastIncludedIndex, l.lastIncludedIndex)
      && l'.matchIndex[peer] == Max(l.lastIncludedIndex, l.matchIndex[peer])
      && l'.nextIndex[peer] == Max(l'.matchIndex[peer] + 1, l.nextIndex[peer])
  {
    assert PairedFor(lead, l, f, peer, 0);
    SnapshotFollower(lead, l, f, peer);
    FullAt(l, l.lastIncludedIndex);
  }

  // ---------------------------------------------------------------------
  // Appends
  // ---------------------------------------------------------------------

  /** Whoever led a term began writing its entries in one place. */
  lemma TermStartsOnce(lead: map<nat, Log>, a: Log, b: Log, i: nat, j: nat)
    requires LogOK(lead, a) && LogOK(lead, b) && 1 <= i <= |b| && i <= j <= |a| && TermAt(a, j) == TermAt(b, i)
    ensures TermAt(a, i) == TermAt(b, i)
  {
    assert FromLeader(lead, a, j - 1) && FromLeader(lead, b, i - 1);
    assert a[..j][i - 1] == a[i - 1] && b[..i][i - 1] == b[i - 1];
  }

  /** Told of a disagreement at `prev`, the leader goes on to a lower place or resorts to its snapshot. */
  lemma ConflictLowers(lead: map<nat, Log>, l: Server, log: Log, prev: nat, reply: AppendEntriesReply)
    requires WF(l) && LogOK(lead, Full(l)) && LogOK(lead, log)
    requires l.lastIncludedIndex <= prev <= LastLogicalIndex(l) && 1 <= prev <= |log|
    requires reply.conflictTerm == TermAt(log, prev) && Differs(Full(l), log, prev) && 1 <= reply.conflictIndex <= prev
    ensures match NextAfterConflict(l, reply)
      case Some(next) => 1 <= next <= prev
      case None => reply.conflictIndex < l.lastIncludedIndex
  {
    FullAt(l, prev);
    LastOfTermRule(l.logs, reply.conflictTerm, |l.logs|);
    match LastOfTerm(l.logs, reply.conflictTerm, |l.logs|)
    case None =>
    case Some(x) =>
      var j := x - 1 + l.lastIncludedIndex;
      FullAt(l, j);
      if j >= prev { TermStartsOnce(lead, Full(l), log, prev, j); }
  }

  ghost predicate Differs(a: Log, b: Log, i: nat) {
    i <= |a| && i <= |b| && TermAt(a, i) != TermAt(b, i)
  }

  /** The follower does not hold what precedes the place tried. */
  ghost predicate Rejecting(l: Server, f: Server, prev: nat)
    requires WF(l) && WF(f) && prev <= |Full(l)|
  {
    f.lastIncludedIndex <= prev && (prev > |Full(f)| || TermAt(Full(l), prev) != TermAt(Full(f), prev))
  }

  ghost function Bit(b: bool): nat { if b then 1 else 0 }

  /** How far the two are from agreeing. */
  ghost function Rank(l: Server, f: Server, peer: nat): nat
    requires WF(l) && WF(f) && peer < l.peers && l.nextIndex[peer] <= |Full(l)| + 1
  {
    var next := l.nextIndex[peer];
    if next <= l.lastIncludedIndex then 2
    else if next - 1 < f.lastIncludedIndex then 1
    else if Rejecting(l, f, next - 1) then next + 2 + Bit(f.lastIncludedIndex < l.lastIncludedIndex)
    else 0
  }

  lemma LaggingStep(lead: map<nat, Log>, l: Server, f: Server, peer: nat)
    requires Paired(lead, l, f, peer) && Lagging(l, peer)
    ensures var (l', f') := SnapshotExchange(l, f, peer);
      Moved(l, l', peer) && Paired(lead, l', f', peer) && Rank(l', f', peer) < 2
  {
    assert PairedFor(lead, l, f, peer, 0);
    SnapshotStep(lead, l, f, peer);
    var (l', f') := SnapshotExchange(l, f, peer);
    assert PairedFor(lead, l', f', peer, 0);
    MatchedAgrees(l', f', peer);
  }

  /** Where the leader believes the follower to be, the two agree. */
  lemma MatchedAgrees(l: Server, f: Server, peer: nat)
    requires WF(l) && WF(f) && peer < l.peers && |Full(l)| == LastLogicalIndex(l)
    requires l.matchIndex[peer] <= |Full(l)| && Full(l)[..l.matchIndex[peer]] <= Full(f)
    ensures !Rejecting(l, f, l.matchIndex[peer])
  {
    var m := l.matchIndex[peer];
    if m > 0 { assert Full(l)[..m][m - 1] == Full(f)[m - 1]; }
  }

  /** What an append request does to the leader that sent it and is refused. */
  lemma Refused(l: Server, peer: nat, args: AppendEntriesArgs, reply: AppendEntriesReply, next: nat)
    requires WF(l) && peer < l.peers && l.role == Leader && args.term == l.currTerm && reply.term <= l.currTerm
    requires !reply.success && NextAfterConflict(l, reply) == Some(next)
    ensures var l' := HandleAppendReply(l, peer, args, reply);
      && Moved(l, l', peer) && Full(l') == Full(l) && !Rebuffed(l, reply)
      && l'.matchIndex == l.matchIndex && l'.nextIndex[peer] == Max(next, 1)
  {
  }

  /** What it does to the leader when it is accepted. */
  lemma Accepted(l: Server, peer: nat, args: AppendEntriesArgs, reply: AppendEntriesReply)
    requires WF(l) && peer < l.peers && l.role == Leader && args.term == l.currTerm && reply.term <= l.currTerm && reply.success
    ensures var l' := HandleAppendReply(l, peer, args, reply);
      && Moved(l, l', peer) && Full(l') == Full(l) && !Rebuffed(l, reply)
      && l'.matchIndex[peer] == Max(args.prevLogIndex + |args.entries|, l.matchIndex[peer])
      && l'.nextIndex[peer] == l'.matchIndex[peer] + 1
  {
    HandleAppendReplyFacts(l, peer, args, reply);
  }

  /** What keeps the two paired. */
  lemma StillPaired(lead: map<nat, Log>, l: Server, f: Server, peer: nat, l': Server, f': Server)
    requires Paired(lead, l, f, peer) && Moved(l, l', peer) && Full(l') == Full(l)
    requires WF(f') && f'.currTerm == l.currTerm && LogOK(lead, Full(f'))
    requires f'.lastIncludedIndex == f.lastIncludedIndex && f'.lastIncludedTerm == f.lastIncludedTerm
    requires l'.matchIndex[peer] <= |Full(l)| && Full(l)[..l'.matchIndex[peer]] <= Full(f')
    requires l'.nextIndex[peer] <= |Full(l)| + 1
    ensures Paired(lead, l', f', peer)
  {
    assert PairedFor(lead, l, f, peer, 0);
  }

  ghost predicate JoinedTo(f: Server, f1: Server, term: nat) {
    && WF(f1) && |f.logs| > 0 && f1 == Joined(f, term) && Full(f1) == Full(f) && f1.currTerm == term
    && f1.lastIncludedIndex == f.lastIncludedIndex && f1.lastIncludedTerm == f.lastIncludedTerm && f1.logs == f.logs
  }

  /** What a follower answers when the place tried is beyond its log, or before its snapshot's end. */
  lemma AnswersMiss(f: Server, args: AppendEntriesArgs)
    requires WF(f) && f.currTerm <= args.term
    requires args.prevLogIndex > LastLogicalIndex(f) || args.prevLogIndex < f.lastIncludedIndex
    ensures var (f1, reply) := AppendEntries(f, args);
      && JoinedTo(f, f1, args.term)
      && reply == if args.prevLogIndex > LastLogicalIndex(f) then AppendEntriesReply(false, 0, LastLogicalIndex(f) + 1, -1)
                  else AppendEntriesReply(false, args.term, f.lastIncludedIndex + 1, -1)
  {
    JoinedFacts(f, args.term);
  }

  /** What it answers otherwise. */
  lemma AnswersHit(f: Server, args: AppendEntriesArgs)
    requires WF(f) && f.currTerm <= args.term && f.lastIncludedIndex <= args.prevLogIndex <= LastLogicalIndex(f)
    ensures var f1, k := Joined(f, args.term), PhysicalIndex(f, args.prevLogIndex);
      && JoinedTo(f, f1, args.term)
      && AppendEntries(f, args) ==
        if args.prevLogTerm == f.logs[k].term then (Accept(f1, k, args), AppendEntriesReply(true, 0, 0, 0))
        else (f1, AppendEntriesReply(false, 0, ConflictIndex(f1, k, f.logs[k].term, 0), f.logs[k].term))
  {
    JoinedFacts(f, args.term);
  }

  lemma PhysicalTerm(s: Server, index: nat)
    requires WF(s) && s.lastIncludedIndex <= index <= LastLogicalIndex(s)
    ensures |Full(s)| == LastLogicalIndex(s) && s.logs[PhysicalIndex(s, index)].term == TermAt(Full(s), index)
  {
    FullAt(s, index);
  }

  /** What the leader sends. */
  lemma Sent(l: Server, peer: nat)
    requires WF(l) && CanBuildAppend(l, peer)
    ensures var args := BuildAppend(l, peer);
      && args.prevLogIndex == l.nextIndex[peer] - 1 <= |Full(l)| == LastLogicalIndex(l)
      && args.prevLogTerm == TermAt(Full(l), args.prevLogIndex)
      && args.prevLogIndex + |args.entries| == |Full(l)|
  {
    FullAt(l, l.nextIndex[peer] - 1);
  }

  /** The follower as it is once it has taken what the leader sent. */
  lemma TakesAll(lead: map<nat, Log>, l: Server, f: Server, peer: nat)
    requires WF(l) && CanBuildAppend(l, peer) && LogOK(lead, Full(l)) && WF(f) && LogOK(lead, Full(f))
    requires var prev := l.nextIndex[peer] - 1;
      f.lastIncludedIndex <= prev <= LastLogicalIndex(f) && prev <= |Full(l)| && prev <= |Full(f)| &&
      TermAt(Full(l), prev) == TermAt(Full(f), prev)
    ensures var args := BuildAppend(l, peer);
      var k := PhysicalIndex(f, args.prevLogIndex);
      var f' := Accept(f, k, args);
      && args.prevLogTerm == f.logs[k].term
      && WF(f') && LogOK(lead, Full(f')) && Full(l) <= Full(f')
      && f'.currTerm == f.currTerm && f'.lastIncludedIndex == f.lastIncludedIndex && f'.lastIncludedTerm == f.lastIncludedTerm
  {
    var args := BuildAppend(l, peer);
    Sent(l, peer);
    PhysicalTerm(f, args.prevLogIndex);
    BuildAppendCarries(l, peer);
    AcceptFacts(lead, f, PhysicalIndex(f, args.prevLogIndex), args, Full(l));
  }

  /** A follower that holds what precedes takes the rest. */
  lemma AcceptStep(lead: map<nat, Log>, l: Server, f: Server, peer: nat)
    requires Paired(lead, l, f, peer) && !Lagging(l, peer)
    requires f.lastIncludedIndex <= l.nextIndex[peer] - 1 && !Rejecting(l, f, l.nextIndex[peer] - 1)
    ensures var (l', f') := Exchange(l, f, peer);
      Moved(l, l', peer) && Paired(lead, l', f', peer) && Synced(l', f', peer)
  {
    assert PairedFor(lead, l, f, peer, 0);
    var args := BuildAppend(l, peer);
    var f1, prev := Joined(f, l.currTerm), args.prevLogIndex;
    BoundaryAgrees(lead, l, f, peer);
    Sent(l, peer);
    AnswersHit(f, args);
    TakesAll(lead, l, f1, peer);
    var reply := AppendEntries(f, args).1;
    Accepted(l, peer, args, reply);
    var l', f' := HandleAppendReply(l, peer, args, reply), Accept(f1, PhysicalIndex(f1, prev), args);
    assert l'.matchIndex[peer] == |Full(l)| && Full(l)[..|Full(l)|] == Full(l);
    StillPaired(lead, l, f, peer, l', f');
  }

  /** A follower whose log ends too early, or whose snapshot reaches too far, says so. */
  lemma MissStep(lead: map<nat, Log>, l: Server, f: Server, peer: nat)
    requires Paired(lead, l, f, peer) && !Lagging(l, peer)
    requires var prev := l.nextIndex[peer] - 1; prev < f.lastIncludedIndex || prev > |Full(f)|
    ensures var (l', f') := Exchange(l, f, peer);
      && Moved(l, l', peer) && Paired(lead, l', f', peer)
      && f'.lastIncludedIndex == f.lastIncludedIndex && Full(f') == Full(f)
      && l'.nextIndex[peer] == 1 + if l.nextIndex[peer] - 1 < f.lastIncludedIndex then f.lastIncludedIndex else |Full(f)|
  {
    assert PairedFor(lead, l, f, peer, 0);
    var args := BuildAppend(l, peer);
    var prev := args.prevLogIndex;
    FullAt(f, f.lastIncludedIndex);
    AnswersMiss(f, args);
    Refused(l, peer, args, AppendEntries(f, args).1, 1 + if prev < f.lastIncludedIndex then f.lastIncludedIndex else |Full(f)|);
    var (l', f') := Exchange(l, f, peer);
    StillPaired(lead, l, f, peer, l', f');
  }

  /** The answer of a follower that disagrees. */
  lemma DisagreeReply(lead: map<nat, Log>, l: Server, f: Server, peer: nat)
    requires Paired(lead, l, f, peer) && !Lagging(l, peer) && f.lastIncludedIndex < l.nextIndex[peer]
    requires Differs(Full(l), Full(f), l.nextIndex[peer] - 1)
    ensures var args := BuildAppend(l, peer);
      var (f1, reply) := AppendEntries(f, args);
      && f1 == Joined(f, l.currTerm) && !reply.success && reply.term == 0
      && match NextAfterConflict(l, reply)
         case Some(next) => 1 <= next < l.nextIndex[peer]
         case None => f.lastIncludedIndex < l.lastIncludedIndex
  {
    assert PairedFor(lead, l, f, peer, 0);
    var args := BuildAppend(l, peer);
    BoundaryAgrees(lead, l, f, peer);
    Sent(l, peer);
    DisagreeAnswer(f, args);
    ConflictLowers(lead, l, Full(f), args.prevLogIndex, AppendEntries(f, args).1);
  }

  lemma DisagreeAnswer(f: Server, args: AppendEntriesArgs)
    requires WF(f) && f.currTerm <= args.term && f.lastIncludedIndex < args.prevLogIndex <= LastLogicalIndex(f) == |Full(f)|
    requires args.prevLogTerm != TermAt(Full(f), args.prevLogIndex)
    ensures var (f1, reply) := AppendEntries(f, args);
      && f1 == Joined(f, args.term) && !reply.success && reply.term == 0
      && reply.conflictTerm == TermAt(Full(f), args.prevLogIndex)
      && TermBegins(Full(f), f.lastIncludedIndex, reply.conflictIndex, args.prevLogIndex)
  {
    FullAt(f, args.prevLogIndex);
    AnswersHit(f, args);
    RejectRule(f, args);
  }

  /** A follower that disagrees names the place where its term begins. */
  lemma DisagreeStep(lead: map<nat, Log>, l: Server, f: Server, peer: nat)
    requires Paired(lead, l, f, peer) && !Lagging(l, peer) && f.lastIncludedIndex < l.nextIndex[peer]
    requires Differs(Full(l), Full(f), l.nextIndex[peer] - 1)
    ensures var (l', f') := Exchange(l, f, peer);
      && Moved(l, l', peer) && Paired(lead, l', f', peer)
      && (|| (l'.nextIndex[peer] < l.nextIndex[peer] && f'.lastIncludedIndex == f.lastIncludedIndex)
          || (f.lastIncludedIndex < l.lastIncludedIndex == f'.lastIncludedIndex && l'.nextIndex[peer] == l.nextIndex[peer])
          || Rank(l', f', peer) < 2)
  {
    assert PairedFor(lead, l, f, peer, 0);
    var args, f1 := BuildAppend(l, peer), Joined(f, l.currTerm);
    var reply := AppendEntries(f, args).1;
    DisagreeReply(lead, l, f, peer);
    JoinedFacts(f, l.currTerm);
    match NextAfterConflict(l, reply)
    case Some(next) =>
      Refused(l, peer, args, reply, next);
      StillPaired(lead, l, f, peer, HandleAppendReply(l, peer, args, reply), f1);
    case None =>
      StillPaired(lead, l, f, peer, l, f1);
      RebuffedStep(lead, l, f1, peer);
  }

  lemma RebuffedStep(lead: map<nat, Log>, l: Server, f: Server, peer: nat)
    requires Paired(lead, l, f, peer) && f.lastIncludedIndex < l.lastIncludedIndex < l.nextIndex[peer]
    ensures var (l', f') := SnapshotExchange(l, f, peer);
      && Moved(l, l', peer) && Paired(lead, l', f', peer)
      && f'.lastIncludedIndex == l.lastIncludedIndex
      && (l'.nextIndex[peer] == l.nextIndex[peer] || Rank(l', f', peer) < 2)
  {
    assert PairedFor(lead, l, f, peer, 0);
    SnapshotStep(lead, l, f, peer);
    var (l', f') := SnapshotExchange(l, f, peer);
    assert PairedFor(lead, l', f', peer, 0);
    MatchedAgrees(l', f', peer);
  }

  /** At the end of the follower's snapshot, the two agree. */
  lemma BoundaryAgrees(lead: map<nat, Log>, l: Server, f: Server, peer: nat)
    requires Paired(lead, l, f, peer)
    ensures |Full(f)| == LastLogicalIndex(f) >= f.lastIncludedIndex && !Rejecting(l, f, f.lastIncludedIndex)
  {
    assert PairedFor(lead, l, f, peer, 0);
    FullAt(f, f.lastIncludedIndex);
  }

  lemma RankFalls(lead: map<nat, Log>, l: Server, f: Server, peer: nat, l': Server, f': Server)
    requires Paired(lead, l, f, peer) && Paired(lead, l', f', peer) && Moved(l, l', peer) && !Lagging(l, peer)
    requires f.lastIncludedIndex < l.nextIndex[peer] && Rejecting(l, f, l.nextIndex[peer] - 1)
    requires || (l'.nextIndex[peer] < l.nextIndex[peer] && f'.lastIncludedIndex == f.lastIncludedIndex)
             || (f.lastIncludedIndex < l.lastIncludedIndex == f'.lastIncludedIndex && l'.nextIndex[peer] == l.nextIndex[peer])
             || Rank(l', f', peer) < 2
    ensures Rank(l', f', peer) < Rank(l, f, peer)
  {
  }

  lemma ExchangeProgress(lead: map<nat, Log>, l: Server, f: Server, peer: nat)
    requires Paired(lead, l, f, peer)
    ensures var (l', f') := Exchange(l, f, peer);
      && Moved(l, l', peer) && Paired(lead, l', f', peer)
      && (Synced(l', f', peer) || Rank(l', f', peer) < Rank(l, f, peer))
  {
    if Lagging(l, peer) {
      LaggingStep(lead, l, f, peer);
    } else if l.nextIndex[peer] <= f.lastIncludedIndex {
      LowProgress(lead, l, f, peer);
    } else if !Rejecting(l, f, l.nextIndex[peer] - 1) {
      AcceptStep(lead, l, f, peer);
    } else {
      RejectProgress(lead, l, f, peer);
    }
  }

  lemma LowProgress(lead: map<nat, Log>, l: Server, f: Server, peer: nat)
    requires Paired(lead, l, f, peer) && !Lagging(l, peer) && l.nextIndex[peer] <= f.lastIncludedIndex
    ensures var (l', f') := Exchange(l, f, peer);
      Moved(l, l', peer) && Paired(lead, l', f', peer) && Rank(l', f', peer) < Rank(l, f, peer)
  {
    var (l', f') := Exchange(l, f, peer);
    MissStep(lead, l, f, peer);
    BoundaryAgrees(lead, l', f', peer);
  }

  lemma RejectProgress(lead: map<nat, Log>, l: Server, f: Server, peer: nat)
    requires Paired(lead, l, f, peer) && !Lagging(l, peer) && f.lastIncludedIndex < l.nextIndex[peer]
    requires Rejecting(l, f, l.nextIndex[peer] - 1)
    ensures var (l', f') := Exchange(l, f, peer);
      Moved(l, l', peer) && Paired(lead, l', f', peer) && Rank(l', f', peer) < Rank(l, f, peer)
  {
    var (l', f') := Exchange(l, f, peer);
    if l.nextIndex[peer] - 1 > |Full(f)| {
      MissStep(lead, l, f, peer);
    } else {
      DisagreeStep(lead, l, f, peer);
    }
    RankFalls(lead, l, f, peer, l', f');
  }

  // ---------------------------------------------------------------------
  // All exchanges
  // ---------------------------------------------------------------------

  /** The two after `n` exchanges. */
  ghost function Exchanges(lead: map<nat, Log>, l: Server, f: Server, peer: nat, n: nat): (r: (Server, Server))
    requires Paired(lead, l, f, peer)
    ensures Paired(lead, r.0, r.1, peer) && Moved(l, r.0, peer)
    decreases n
  {
    if n == 0 then (l, f) else
    ExchangeProgress(lead, l, f, peer);
    var (l', f') := Exchange(l, f, peer);
    Exchanges(lead, l', f', peer, n - 1)
  }

  /** Fast backup ends: the follower soon holds the leader's whole log, which has not changed. */
  lemma {:induction false} BackupEnds(lead: map<nat, Log>, l: Server, f: Server, peer: nat) returns (n: nat)
    requires Paired(lead, l, f, peer)
    ensures n <= l.nextIndex[peer] + 4
    ensures var (l', f') := Exchanges(lead, l, f, peer, n); Synced(l', f', peer) && Full(l') == Full(l)
  {
    n := BackupEndsWithin(lead, l, f, peer);
  }

  /** After `n` exchanges the follower holds the leader's log. */
  ghost predicate EndsAfter(lead: map<nat, Log>, l: Server, f: Server, peer: nat, n: nat)
    requires Paired(lead, l, f, peer)
  {
    var (l', f') := Exchanges(lead, l, f, peer, n);
    Synced(l', f', peer)
  }

  lemma EndsOneLater(lead: map<nat, Log>, l: Server, f: Server, peer: nat, l': Server, f': Server, n: nat)
    requires Paired(lead, l, f, peer) && Paired(lead, l', f', peer) && (l', f') == Exchange(l, f, peer)
    requires EndsAfter(lead, l', f', peer, n)
    ensures EndsAfter(lead, l, f, peer, n + 1)
  {
  }

  lemma {:induction false} BackupEndsWithin(lead: map<nat, Log>, l: Server, f: Server, peer: nat) returns (n: nat)
    requires Paired(lead, l, f, peer)
    ensures n <= Rank(l, f, peer) + 1 && EndsAfter(lead, l, f, peer, n)
    decreases Rank(l, f, peer)
  {
    ExchangeProgress(lead, l, f, peer);
    var (l', f') := Exchange(l, f, peer);
    n := 0;
    if !Synced(l', f', peer) {
      n := BackupEndsWithin(lead, l', f', peer);
    }
    EndsOneLater(lead, l, f, peer, l', f', n);
    n := n + 1;
  }

  /**
   In every orderly run a leader and a peer of no later term are so paired,
   given that the leader's tables are truthful about the peer.
   */
  lemma RunsArePaired(n: nat, steps: seq<C.Step>, p: nat, q: nat) returns (lead: map<nat, Log>)
    requires Orderly(n, steps) && p < n && q < n && p != q
    requires var l, f := C.After(n, steps).servers[p], C.After(n, steps).servers[q];
      && l.role == Leader && f.currTerm <= l.currTerm && q < |l.nextIndex| == |l.matchIndex| && l.nextIndex[q] <= LastLogicalIndex(l) + 1
      && |l.logs| > 0 && |f.logs| > 0 && l.matchIndex[q] <= |Full(l)| && Full(l)[..l.matchIndex[q]] <= Full(f)
    ensures Paired(lead, C.After(n, steps).servers[p], C.After(n, steps).servers[q], q)
  {
    var s := RecordOf(n, steps);
    lead := s.lead;
    var l, f := C.After(n, steps).servers[p], C.After(n, steps).servers[q];
    assert steps[..|steps|] == steps;
    var term, log := CommittedInLaterLeaders(n, steps, |steps|, q);
    assert HoldsIfLeading(n, steps, |steps|, p, term, log);
    PeerLogOK(C.After(n, steps), s, p);
    PeerLogOK(C.After(n, steps), s, q);
    PairUp(lead, l, f, q);
  }

  /** In every run in which leaders start with a cleared view, a leader is so paired with every peer of no later term. */
  lemma FreshRunsArePaired(n: nat, steps: seq<C.Step>, p: nat, q: nat) returns (lead: map<nat, Log>)
    requires Fresh(n, steps) && p < n && q < n && p != q
    requires var l, f := C.After(n, steps).servers[p], C.After(n, steps).servers[q];
      l.role == Leader && f.currTerm <= l.currTerm
    ensures Paired(lead, C.After(n, steps).servers[p], C.After(n, steps).servers[q], q)
  {
    FreshIsOrderly(n, steps);
    TablesAreTruthful(n, steps, p, q);
    C.PeerWF(n, steps, p);
    LastFacts(C.After(n, steps).servers[p]);
    lead := RunsArePaired(n, steps, p, q);
  }

  lemma PeerLogOK(c: C.Cluster, s: State, i: nat)
    requires Sim(c, s) && Sound(s) && i < |c.servers|
    ensures |c.servers[i].logs| > 0 && LogOK(s.lead, Full(c.servers[i]))
  {
    PeerIs(c, s, i);
    assert BasicFor(s, 0);
    BasicFacts(s);
  }

  lemma PairUp(lead: map<nat, Log>, l: Server, f: Server, peer: nat)
    requires WF(l) && WF(f) && peer < l.peers && peer != l.me && l.role == Leader && f.currTerm <= l.currTerm
    requires LogOK(lead, Full(l)) && LogOK(lead, Full(f)) && l.nextIndex[peer] <= LastLogicalIndex(l) + 1
    requires l.matchIndex[peer] <= |Full(l)| && Full(l)[..l.matchIndex[peer]] <= Full(f)
    requires f.lastIncludedIndex <= f.commitIndex <= |Full(f)| && Full(f)[..f.commitIndex] <= Full(l)
    ensures Paired(lead, l, f, peer)
  {
    CoveredAgrees(l, f);
  }

  lemma CoveredAgrees(l: Server, f: Server)
    requires WF(l) && WF(f) && f.lastIncludedIndex <= f.commitIndex <= |Full(f)| && Full(f)[..f.commitIndex] <= Full(l)
    ensures f.lastIncludedIndex <= LastLogicalIndex(l) == |Full(l)| && TermAt(Full(l), f.lastIncludedIndex) == f.lastIncludedTerm
  {
    FullAt(l, l.lastIncludedIndex);
    FullAt(f, f.lastIncludedIndex);
    if f.lastIncludedIndex > 0 {
      assert Full(f)[..f.commitIndex][f.lastIncludedIndex - 1] == Full(l)[f.lastIncludedIndex - 1];
    }
  }

  // ---------------------------------------------------------------------
  // Why Log Matching between the two logs alone is not enough
  // ---------------------------------------------------------------------

  /** Log Matching between two logs. */
  ghost predicate Match(a: Log, b: Log) {
    forall k :: 1 <= k <= |a| && k <= |b| && a[k - 1].term == b[k - 1].term ==> a[..k] == b[..k]
  }

  function Entries(terms: seq<nat>, c: Command): Log {
    seq(|terms|, k requires 0 <= k < |terms| => LogEntry(terms[k], c))
  }

  /** A peer at term 3 with entries of the given terms and nothing trimmed. */
  function Peer(me: nat, role: Role, terms: seq<nat>, c: Command, next: nat): Server {
    var logs := [LogEntry(0, Nil)] + Entries(terms, c);
    Server(me, 2, 3, -1, role, logs, 0, 0, 0, 0, [0, next], [0, 0], {}, {}, Some(Persistent(3, -1, logs, 0, 0)), [], [])
  }

  lemma PeerFacts(me: nat, role: Role, terms: seq<nat>, c: Command, next: nat)
    requires me < 2
    ensures WF(Peer(me, role, terms, c, next)) && Full(Peer(me, role, terms, c, next)) == Entries(terms, c)
  {
    var x := Peer(me, role, terms, c, next);
    assert x.logs[1..] == Entries(terms, c);
    assert [] + Entries(terms, c) == Entries(terms, c);
  }

  /** Tried at index 3, the leader is sent on to 4. */
  lemma SentOn(c: Command)
    ensures var l, f := Peer(0, Leader, [1, 1, 3], c, 3), Peer(1, Follower, [1, 3], c, 0);
      WF(l) && WF(f) && Exchange(l, f, 1) == (Peer(0, Leader, [1, 1, 3], c, 4), f)
  {
    PeerFacts(0, Leader, [1, 1, 3], c, 3);
    PeerFacts(1, Follower, [1, 3], c, 0);
    var l, f := Peer(0, Leader, [1, 1, 3], c, 3), Peer(1, Follower, [1, 3], c, 0);
    var args := BuildAppend(l, 1);
    assert args.prevLogIndex == 2 && args.prevLogTerm == 1;
    assert ConflictIndex(f, 2, 3, 0) == ConflictIndex(f, 1, 3, 2) == 2;
    assert AppendEntries(f, args) == (f, AppendEntriesReply(false, 0, 2, 3));
    assert LastOfTerm(l.logs, 3, 4) == Some(4);
    assert l.nextIndex[1 := 4] == [0, 4];
  }

  /** Tried at index 4, it is sent back to 3. */
  lemma SentBack(c: Command)
    ensures var l, f := Peer(0, Leader, [1, 1, 3], c, 4), Peer(1, Follower, [1, 3], c, 0);
      WF(l) && WF(f) && Exchange(l, f, 1) == (Peer(0, Leader, [1, 1, 3], c, 3), f)
  {
    PeerFacts(0, Leader, [1, 1, 3], c, 4);
    PeerFacts(1, Follower, [1, 3], c, 0);
    var l, f := Peer(0, Leader, [1, 1, 3], c, 4), Peer(1, Follower, [1, 3], c, 0);
    var args := BuildAppend(l, 1);
    assert args.prevLogIndex == 3;
    assert AppendEntries(f, args) == (f, AppendEntriesReply(false, 0, 3, -1));
    assert l.nextIndex[1 := 3] == [0, 3];
  }

  /**
   Two logs that match entry by entry can still go round for ever, if no one
   leader could have written both: term 3 begins at index 3 in one of these and
   at index 2 in the other.
   */
  lemma MatchingLogsCanCycle(c: Command)
    ensures Match(Entries([1, 1, 3], c), Entries([1, 3], c))
    ensures var l, l', f := Peer(0, Leader, [1, 1, 3], c, 3), Peer(0, Leader, [1, 1, 3], c, 4), Peer(1, Follower, [1, 3], c, 0);
      && WF(l) && WF(l') && WF(f)
      && Exchange(l, f, 1) == (l', f) && Exchange(l', f, 1) == (l, f)
      && l.matchIndex[1] == l'.matchIndex[1] == 0
  {
    SentOn(c);
    SentBack(c);
    CycleMatches(c);
  }

  lemma CycleMatches(c: Command)
    ensures Match(Entries([1, 1, 3], c), Entries([1, 3], c))
  {
    var a, b := Entries([1, 1, 3], c), Entries([1, 3], c);
    assert a[..1] == b[..1];
  }
}
