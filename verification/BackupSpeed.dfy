/** What is fast about fast backup: it takes about one exchange for each term in the part of the follower's log that differs. */
module BackupSpeed {
  import opened Options
  import opened Collections
  import opened RaftTypes
  import opened RaftPeer
  import opened RaftPeerFacts
  import opened PeerRules
  import opened Consensus
  import opened ConsensusSafety
  import opened Refinement
  import opened RaftTheorems
  import opened FastBackup
  import C = Cluster

  // ---------------------------------------------------------------------
  // Terms along a log
  // ---------------------------------------------------------------------

  /** Terms never fall along the log. */
  ghost predicate TermsRise(log: Log) {
    forall i, j :: 0 <= i <= j < |log| ==> log[i].term <= log[j].term
  }

  lemma RecordedLogsRise(s: State, log: Log)
    requires LeadShape(s) && LogOK(s.lead, log)
    ensures TermsRise(log)
  {
    forall i, j | 0 <= i <= j < |log| ensures log[i].term <= log[j].term {
      assert FromLeader(s.lead, log, j);
      assert log[..j + 1][i] == log[i];
      LeadTerm(s, log[j].term, i);
    }
  }

  /** They do not in any log of any run. */
  lemma RunsRise(n: nat, steps: seq<C.Step>, i: nat)
    requires i < n
    ensures var x := C.After(n, steps).servers[i]; |x.logs| > 0 && TermsRise(Full(x))
  {
    var s := RecordOf(n, steps);
    PeerLogOK(C.After(n, steps), s, i);
    assert BasicFor(s, 0);
    RecordedLogsRise(s, Full(C.After(n, steps).servers[i]));
  }

  /** The terms of the entries past `base` and up to `top`. */
  ghost function TermsIn(log: Log, base: nat, top: nat): set<nat>
    requires top <= |log|
  {
    set i | base < i <= top :: TermAt(log, i)
  }

  lemma TermsGrow(log: Log, base: nat, base': nat, top: nat, top': nat)
    requires base' <= base && top <= top' <= |log|
    ensures TermsIn(log, base, top) <= TermsIn(log, base', top')
    ensures |TermsIn(log, base, top)| <= |TermsIn(log, base', top')|
  {
    SubsetSize(TermsIn(log, base, top), TermsIn(log, base', top'));
  }

  /** A term that begins past `top` is not among those up to `top`. */
  lemma TermLeft(log: Log, base: nat, top: nat, prev: nat)
    requires TermsRise(log) && base <= top < prev <= |log| && base < prev
    requires top == base || TermAt(log, top) != TermAt(log, prev)
    ensures |TermsIn(log, base, top)| < |TermsIn(log, base, prev)|
  {
    TermsGrow(log, base, base, top, prev);
    var t := TermAt(log, prev);
    assert t in TermsIn(log, base, prev);
    forall i | base < i <= top ensures TermAt(log, i) != t {
      assert log[i - 1].term <= log[top - 1].term <= log[prev - 1].term;
    }
    Smaller(TermsIn(log, base, top), TermsIn(log, base, prev), t);
  }

  // ---------------------------------------------------------------------
  // The rank that falls
  // ---------------------------------------------------------------------

  ghost function Top(f: Server, prev: nat): nat
    requires |f.logs| > 0
  {
    Min(prev, |Full(f)|)
  }

  /** How far the two are from agreeing, counted in terms. */
  ghost function TermRank(l: Server, f: Server, peer: nat): nat
    requires WF(l) && WF(f) && peer < l.peers && l.nextIndex[peer] <= |Full(l)| + 1
  {
    var next := l.nextIndex[peer];
    if next <= l.lastIncludedIndex then 2
    else if next - 1 < f.lastIncludedIndex then 1
    else if Rejecting(l, f, next - 1) then
      |TermsIn(Full(f), f.lastIncludedIndex, Top(f, next - 1))| + 2
      + Bit(next - 1 > |Full(f)|) + Bit(f.lastIncludedIndex < l.lastIncludedIndex)
    else 0
  }

  lemma LowRanks(l: Server, f: Server, peer: nat)
    requires WF(l) && WF(f) && peer < l.peers && l.nextIndex[peer] <= |Full(l)| + 1 && Rank(l, f, peer) < 2
    ensures TermRank(l, f, peer) == Rank(l, f, peer)
  {
  }

  /** Sent on by a follower that disagrees at `prev`, the leader next tries where they agree, or below the follower's whole term. */
  lemma NextIsBelowTerm(lead: map<nat, Log>, l: Server, f: Server, prev: nat, reply: AppendEntriesReply, next: nat)
    requires WF(l) && WF(f) && LogOK(lead, Full(l)) && LogOK(lead, Full(f)) && TermsRise(Full(f))
    requires l.lastIncludedIndex <= prev <= LastLogicalIndex(l) == |Full(l)| && f.lastIncludedIndex < prev
    requires Differs(Full(l), Full(f), prev)
    requires reply.conflictTerm == TermAt(Full(f), prev) && TermBegins(Full(f), f.lastIncludedIndex, reply.conflictIndex, prev)
    requires NextAfterConflict(l, reply) == Some(next) && f.lastIncludedIndex <= next - 1
    ensures next <= prev
    ensures !Rejecting(l, f, next - 1)
      || |TermsIn(Full(f), f.lastIncludedIndex, next - 1)| < |TermsIn(Full(f), f.lastIncludedIndex, prev)|
  {
    ConflictLowers(lead, l, Full(f), prev, reply);
    NextRule(l, reply);
    if Rejecting(l, f, next - 1) { TermLeft(Full(f), f.lastIncludedIndex, next - 1, prev); }
  }

  // ---------------------------------------------------------------------
  // One exchange
  // ---------------------------------------------------------------------

  /** The follower's log after an exchange, if it is not the leader's yet. */
  ghost predicate LogKept(l: Server, f: Server, f': Server) {
    |l.logs| > 0 && |f.logs| > 0 && |f'.logs| > 0 && (Full(f') == Full(f) || Full(f') == l.snapshot)
  }

  lemma SnapshotLog(lead: map<nat, Log>, l: Server, f: Server, peer: nat)
    requires Paired(lead, l, f, peer)
    ensures LogKept(l, f, SnapshotExchange(l, f, peer).1)
  {
    assert PairedFor(lead, l, f, peer, 0);
    var f1, args := Joined(f, l.currTerm), BuildSnapshot(l);
    JoinedFacts(f, l.currTerm);
    if f1.lastIncludedIndex < l.lastIncludedIndex {
      FullAt(l, l.lastIncludedIndex);
      LogOKPrefix(lead, Full(l), l.snapshot);
      InstallFull(lead, f1, args);
    }
  }

  /** Both logs' terms rise, and the two are paired. */
  ghost predicate Ready(lead: map<nat, Log>, l: Server, f: Server, peer: nat) {
    Paired(lead, l, f, peer) && TermsRise(Full(l)) && TermsRise(Full(f))
  }

  ghost predicate NearerFor(lead: map<nat, Log>, l: Server, f: Server, peer: nat, l': Server, f': Server, key: int) {
    Ready(lead, l, f, peer) && Ready(lead, l', f', peer) && TermRank(l', f', peer) < TermRank(l, f, peer)
  }

  ghost predicate Nearer(lead: map<nat, Log>, l: Server, f: Server, peer: nat, l': Server, f': Server) {
    forall key {:trigger NearerFor(lead, l, f, peer, l', f', key)} :: NearerFor(lead, l, f, peer, l', f', key)
  }

  lemma KeptRises(l: Server, f: Server, f': Server)
    requires LogKept(l, f, f') && TermsRise(Full(l)) && TermsRise(Full(f))
    ensures TermsRise(Full(f'))
  {
    if Full(f') == l.snapshot {
      forall i, j | 0 <= i <= j < |l.snapshot| ensures l.snapshot[i].term <= l.snapshot[j].term {
        assert Full(l)[i] == l.snapshot[i] && Full(l)[j] == l.snapshot[j];
      }
    }
  }

  lemma LaggingNearer(lead: map<nat, Log>, l: Server, f: Server, peer: nat)
    requires Ready(lead, l, f, peer) && Lagging(l, peer)
    ensures var (l', f') := Exchange(l, f, peer); Nearer(lead, l, f, peer, l', f')
  {
    var (l', f') := Exchange(l, f, peer);
    LaggingStep(lead, l, f, peer);
    SnapshotLog(lead, l, f, peer);
    KeptRises(l, f, f');
    LowRanks(l', f', peer);
    assert NearerFor(lead, l, f, peer, l', f', 0);
  }

  /** The follower was short, or its snapshot reached further. */
  lemma MissNearer(lead: map<nat, Log>, l: Server, f: Server, peer: nat)
    requires Ready(lead, l, f, peer) && !Lagging(l, peer)
    requires var prev := l.nextIndex[peer] - 1; prev < f.lastIncludedIndex || prev > |Full(f)|
    ensures var (l', f') := Exchange(l, f, peer); Nearer(lead, l, f, peer, l', f')
  {
    var (l', f') := Exchange(l, f, peer);
    MissStep(lead, l, f, peer);
    BoundaryAgrees(lead, l', f', peer);
    assert NearerFor(lead, l, f, peer, l', f', 0);
  }

  lemma DisagreeNearer(lead: map<nat, Log>, l: Server, f: Server, peer: nat)
    requires Ready(lead, l, f, peer) && !Lagging(l, peer) && f.lastIncludedIndex < l.nextIndex[peer]
    requires Differs(Full(l), Full(f), l.nextIndex[peer] - 1)
    ensures var (l', f') := Exchange(l, f, peer); Nearer(lead, l, f, peer, l', f')
  {
    assert PairedFor(lead, l, f, peer, 0);
    BoundaryAgrees(lead, l, f, peer);
    Sent(l, peer);
    var args := BuildAppend(l, peer);
    DisagreeAnswer(f, args);
    JoinedFacts(f, l.currTerm);
    match NextAfterConflict(l, AppendEntries(f, args).1)
    case Some(next) => DisagreeMoves(lead, l, f, peer, next);
    case None => DisagreeSnapshot(lead, l, f, peer);
  }

  lemma DisagreeTerms(lead: map<nat, Log>, l: Server, f: Server, peer: nat, next: nat)
    requires Ready(lead, l, f, peer) && !Lagging(l, peer) && f.lastIncludedIndex < l.nextIndex[peer]
    requires Differs(Full(l), Full(f), l.nextIndex[peer] - 1)
    requires NextAfterConflict(l, AppendEntries(f, BuildAppend(l, peer)).1) == Some(next)
    ensures f.lastIncludedIndex < l.nextIndex[peer] - 1 && 1 <= next < l.nextIndex[peer]
    ensures f.lastIncludedIndex <= next - 1 && Rejecting(l, f, next - 1) ==>
      |TermsIn(Full(f), f.lastIncludedIndex, next - 1)| < |TermsIn(Full(f), f.lastIncludedIndex, l.nextIndex[peer] - 1)|
  {
    assert PairedFor(lead, l, f, peer, 0);
    var args := BuildAppend(l, peer);
    var reply, prev := AppendEntries(f, args).1, args.prevLogIndex;
    BoundaryAgrees(lead, l, f, peer);
    Sent(l, peer);
    DisagreeAnswer(f, args);
    ConflictLowers(lead, l, Full(f), prev, reply);
    if f.lastIncludedIndex <= next - 1 { NextIsBelowTerm(lead, l, f, prev, reply, next); }
  }

  lemma DisagreeMoves(lead: map<nat, Log>, l: Server, f: Server, peer: nat, next: nat)
    requires Ready(lead, l, f, peer) && !Lagging(l, peer) && f.lastIncludedIndex < l.nextIndex[peer]
    requires Differs(Full(l), Full(f), l.nextIndex[peer] - 1)
    requires NextAfterConflict(l, AppendEntries(f, BuildAppend(l, peer)).1) == Some(next)
    ensures var (l', f') := Exchange(l, f, peer); Nearer(lead, l, f, peer, l', f')
  {
    assert PairedFor(lead, l, f, peer, 0);
    var args, f1 := BuildAppend(l, peer), Joined(f, l.currTerm);
    var reply := AppendEntries(f, args).1;
    DisagreeTerms(lead, l, f, peer, next);
    BoundaryAgrees(lead, l, f, peer);
    Sent(l, peer);
    DisagreeAnswer(f, args);
    JoinedFacts(f, l.currTerm);
    Refused(l, peer, args, reply, next);
    var l' := HandleAppendReply(l, peer, args, reply);
    StillPaired(lead, l, f, peer, l', f1);
    MovedNearer(lead, l, f, peer, l', f1, next);
  }

  lemma MovedNearer(lead: map<nat, Log>, l: Server, f: Server, peer: nat, l': Server, f': Server, next: nat)
    requires Ready(lead, l, f, peer) && Paired(lead, l', f', peer) && Moved(l, l', peer) && !Lagging(l, peer)
    requires Full(f') == Full(f) && f'.lastIncludedIndex == f.lastIncludedIndex < l.nextIndex[peer] - 1
    requires Differs(Full(l), Full(f), l.nextIndex[peer] - 1) && 1 <= next < l.nextIndex[peer] && l'.nextIndex[peer] == next
    requires f.lastIncludedIndex <= next - 1 && Rejecting(l, f, next - 1) ==>
      |TermsIn(Full(f), f.lastIncludedIndex, next - 1)| < |TermsIn(Full(f), f.lastIncludedIndex, l.nextIndex[peer] - 1)|
    ensures Nearer(lead, l, f, peer, l', f')
  {
    SomeTerm(Full(f), f.lastIncludedIndex, l.nextIndex[peer] - 1);
    assert Full(l') == Full(l);
    assert NearerFor(lead, l, f, peer, l', f', 0);
  }

  lemma SomeTerm(log: Log, base: nat, top: nat)
    requires base < top <= |log|
    ensures |TermsIn(log, base, top)| >= 1
  {
    assert TermAt(log, top) in TermsIn(log, base, top);
  }

  lemma DisagreeSnapshot(lead: map<nat, Log>, l: Server, f: Server, peer: nat)
    requires Ready(lead, l, f, peer) && !Lagging(l, peer) && f.lastIncludedIndex < l.nextIndex[peer]
    requires Differs(Full(l), Full(f), l.nextIndex[peer] - 1)
    requires NextAfterConflict(l, AppendEntries(f, BuildAppend(l, peer)).1) == None
    ensures var (l', f') := Exchange(l, f, peer); Nearer(lead, l, f, peer, l', f')
  {
    assert PairedFor(lead, l, f, peer, 0);
    var args, f1 := BuildAppend(l, peer), Joined(f, l.currTerm);
    BoundaryAgrees(lead, l, f, peer);
    Sent(l, peer);
    DisagreeReply(lead, l, f, peer);
    JoinedFacts(f, l.currTerm);
    StillPaired(lead, l, f, peer, l, f1);
    RebuffedStep(lead, l, f1, peer);
    SnapshotLog(lead, l, f1, peer);
    var (l', f') := SnapshotExchange(l, f1, peer);
    KeptRises(l, f1, f');
    SnapshotNearer(lead, l, f, peer, l', f');
    assert NearerFor(lead, l, f, peer, l', f', 0);
  }

  lemma SnapshotNearer(lead: map<nat, Log>, l: Server, f: Server, peer: nat, l': Server, f': Server)
    requires Ready(lead, l, f, peer) && Ready(lead, l', f', peer) && Moved(l, l', peer) && !Lagging(l, peer)
    requires f.lastIncludedIndex < l.lastIncludedIndex == f'.lastIncludedIndex && LogKept(l, f, f')
    requires Differs(Full(l), Full(f), l.nextIndex[peer] - 1) && f.lastIncludedIndex < l.nextIndex[peer] - 1
    requires l'.nextIndex[peer] == l.nextIndex[peer] || Rank(l', f', peer) < 2
    ensures TermRank(l', f', peer) < TermRank(l, f, peer)
  {
    var prev := l.nextIndex[peer] - 1;
    SomeTerm(Full(f), f.lastIncludedIndex, prev);
    if Rank(l', f', peer) < 2 {
      LowRanks(l', f', peer);
    } else if Full(f') == Full(f) {
      TermsGrow(Full(f), f'.lastIncludedIndex, f.lastIncludedIndex, Top(f', prev), Top(f, prev));
    } else {
      assert TermsIn(Full(f'), f'.lastIncludedIndex, Top(f', prev)) == {};
    }
  }

  lemma ExchangeNearer(lead: map<nat, Log>, l: Server, f: Server, peer: nat)
    requires Ready(lead, l, f, peer)
    ensures var (l', f') := Exchange(l, f, peer);
      (Paired(lead, l', f', peer) && Synced(l', f', peer)) || Nearer(lead, l, f, peer, l', f')
  {
    if Lagging(l, peer) {
      LaggingNearer(lead, l, f, peer);
    } else if l.nextIndex[peer] <= f.lastIncludedIndex || l.nextIndex[peer] > |Full(f)| + 1 {
      MissNearer(lead, l, f, peer);
    } else if !Rejecting(l, f, l.nextIndex[peer] - 1) {
      AcceptStep(lead, l, f, peer);
    } else {
      BoundaryAgrees(lead, l, f, peer);
      DisagreeNearer(lead, l, f, peer);
    }
  }

  // ---------------------------------------------------------------------
  // All exchanges
  // ---------------------------------------------------------------------

  ghost predicate RankedFor(lead: map<nat, Log>, l: Server, f: Server, peer: nat, rank: nat, key: int) {
    Ready(lead, l, f, peer) && TermRank(l, f, peer) <= rank
  }

  /** The two are ready, and no further apart than `rank`. */
  ghost predicate Ranked(lead: map<nat, Log>, l: Server, f: Server, peer: nat, rank: nat) {
    forall key {:trigger RankedFor(lead, l, f, peer, rank, key)} :: RankedFor(lead, l, f, peer, rank, key)
  }

  /** An exchange ends the backup or lowers the rank. */
  lemma RankedStep(lead: map<nat, Log>, l: Server, f: Server, peer: nat, rank: nat) returns (l': Server, f': Server)
    requires Paired(lead, l, f, peer) && Ranked(lead, l, f, peer, rank)
    ensures Paired(lead, l', f', peer)
    ensures EndsAfter(lead, l', f', peer, 0) || (rank > 0 && Ranked(lead, l', f', peer, rank - 1))
    ensures forall n: nat :: EndsAfter(lead, l', f', peer, n) ==> EndsAfter(lead, l, f, peer, n + 1)
  {
    assert RankedFor(lead, l, f, peer, rank, 0);
    ExchangeNearer(lead, l, f, peer);
    var pair := Exchange(l, f, peer);
    l', f' := pair.0, pair.1;
    if !(Paired(lead, l', f', peer) && Synced(l', f', peer)) {
      assert NearerFor(lead, l, f, peer, l', f', 0);
      assert RankedFor(lead, l', f', peer, rank - 1, 0);
    }
    forall n: nat | EndsAfter(lead, l', f', peer, n) ensures EndsAfter(lead, l, f, peer, n + 1) {
      EndsOneLater(lead, l, f, peer, l', f', n);
    }
  }

  lemma {:induction false} BackupWithinTerms(lead: map<nat, Log>, l: Server, f: Server, peer: nat, rank: nat) returns (n: nat)
    requires Paired(lead, l, f, peer) && Ranked(lead, l, f, peer, rank)
    ensures n <= rank + 1 && EndsAfter(lead, l, f, peer, n)
    decreases rank
  {
    var l', f' := RankedStep(lead, l, f, peer, rank);
    n := 0;
    if !EndsAfter(lead, l', f', peer, 0) {
      n := BackupWithinTerms(lead, l', f', peer, rank - 1);
    }
    n := n + 1;
  }

  /**
   Fast backup is fast: the follower holds the leader's whole log after no more
   exchanges than there are terms in what the follower holds past its snapshot,
   and five besides, however many entries those are.
   */
  lemma BackupIsFast(lead: map<nat, Log>, l: Server, f: Server, peer: nat) returns (n: nat)
    requires Paired(lead, l, f, peer) && TermsRise(Full(l)) && TermsRise(Full(f))
    ensures n <= |TermsIn(Full(f), f.lastIncludedIndex, |Full(f)|)| + 5
    ensures var (l', f') := Exchanges(lead, l, f, peer, n); Synced(l', f', peer) && Full(l') == Full(l)
  {
    var rank := |TermsIn(Full(f), f.lastIncludedIndex, |Full(f)|)| + 4;
    TermRankBounded(l, f, peer);
    assert RankedFor(lead, l, f, peer, rank, 0);
    n := BackupWithinTerms(lead, l, f, peer, rank);
  }

  lemma TermRankBounded(l: Server, f: Server, peer: nat)
    requires WF(l) && WF(f) && peer < l.peers && l.nextIndex[peer] <= |Full(l)| + 1
    ensures TermRank(l, f, peer) <= |TermsIn(Full(f), f.lastIncludedIndex, |Full(f)|)| + 4
  {
    if l.nextIndex[peer] > 0 {
      TermsGrow(Full(f), f.lastIncludedIndex, f.lastIncludedIndex, Top(f, l.nextIndex[peer] - 1), |Full(f)|);
    }
  }
}
