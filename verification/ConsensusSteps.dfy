/**
 Every step keeps the safety invariants, given the two hypotheses on runs:
 append requests are built by a current leader, and a new leader believes no
 peer to match beyond its own log.
 */
module ConsensusSteps {
  import opened Collections
  import opened RaftTypes
  import opened Consensus
  import opened ConsensusSafety

  // ---------------------------------------------------------------------
  // What growth of the record keeps
  // ---------------------------------------------------------------------

  lemma KeptGrows(s: State, s': State, log: Log, t: nat, k: nat, hi: nat, hi': nat)
    requires Grows(s, s') && t in s.lead && k <= |s.lead[t]| && hi <= hi'
    requires Kept(s, log, t, k, hi)
    ensures t in s'.lead && k <= |s'.lead[t]| && Kept(s', log, t, k, hi')
  {
    assert s.lead[t] <= s'.lead[t];
    assert s'.lead[t][..k] == s.lead[t][..k];
    if !(s.lead[t][..k] <= log) {
      var u :| t < u < hi && u in s.elect && !(s.lead[t][..k] <= s.elect[u]);
      assert u in s'.elect && s'.elect[u] == s.elect[u];
    }
  }

  lemma CommittedGrows(s: State, s': State, log: Log, b: nat, b': nat)
    requires Grows(s, s') && b <= b' && Committed(s, log, b)
    ensures Committed(s', log, b')
  {
    if log != [] {
      var t: nat, k: nat :| t <= b && CommittedBy(s, log, t, k);
      assert s'.lead[t][..k] == s.lead[t][..k];
      assert CommittedBy(s', log, t, k);
    }
  }

  lemma CommittedPrefix(s: State, log: Log, p: Log, b: nat)
    requires Committed(s, log, b) && p <= log
    ensures Committed(s, p, b)
  {
    if p != [] {
      var t: nat, k: nat :| t <= b && CommittedBy(s, log, t, k);
      assert CommittedBy(s, p, t, k);
    }
  }

  ghost predicate SameLogs(s: State, s': State) {
    && |s'.replicas| == |s.replicas|
    && forall i :: 0 <= i < |s.replicas| ==> s'.replicas[i].log == s.replicas[i].log
  }

  lemma AcksStable(s: State, s': State)
    requires AcksKept(s) && Grows(s, s') && SameLogs(s, s') && s'.acks == s.acks
    ensures AcksKept(s')
  {
    forall p, t, k: nat | (p, t) in s'.acks && k <= s'.acks[(p, t)] ensures AckKept(s', p, t, k) {
      assert AckKept(s, p, t, k);
      KeptGrows(s, s', s.replicas[p].log, t, k, s.replicas[p].term + 1, s'.replicas[p].term + 1);
    }
  }

  /** New ballots show the voter's log, in a term still undecided. */
  ghost predicate BallotsFresh(s: State, s': State) {
    forall p, u :: (p, u) in s'.ballots && !((p, u) in s.ballots && s'.ballots[(p, u)] == s.ballots[(p, u)]) ==>
      && p < |s'.replicas|
      && s'.replicas[p].term == u
      && u !in s'.elect
      && s'.ballots[(p, u)].log == s'.replicas[p].log
  }

  lemma BallotsStable(s: State, s': State)
    requires BallotsKept(s) && AcksKept(s') && Grows(s, s') && s'.acks == s.acks && BallotsFresh(s, s')
    ensures BallotsKept(s')
  {
    forall p, t, k: nat, u | (p, t) in s'.acks && k <= s'.acks[(p, t)] && (p, u) in s'.ballots && t < u
      ensures BallotKept(s', p, t, k, u)
    {
      if (p, u) in s.ballots && s'.ballots[(p, u)] == s.ballots[(p, u)] {
        assert BallotKept(s, p, t, k, u);
        KeptGrows(s, s', s.ballots[(p, u)].log, t, k, u, u);
      } else {
        assert AckKept(s', p, t, k);
      }
    }
  }

  lemma CommitStable(s: State, s': State, t: nat, k: nat)
    requires CommitOK(s, t, k) && Grows(s, s')
    ensures CommitOK(s', t, k)
  {
    assert Acked(s, t, k) <= Acked(s', t, k) by {
      forall p | p in Acked(s, t, k) ensures p in Acked(s', t, k) {
        if (p, t) in s.acks { assert (p, t) in s'.acks && s.acks[(p, t)] <= s'.acks[(p, t)]; }
      }
    }
    SubsetSize(Acked(s, t, k), Acked(s', t, k));
  }

  lemma CommitsStable(s: State, s': State)
    requires CommitsOK(s) && Grows(s, s') && s'.commits == s.commits
    ensures CommitsOK(s')
  {
    forall t, k | (t, k) in s'.commits ensures CommitOK(s', t, k) {
      CommitStable(s, s', t, k);
    }
  }

  lemma OfferStable(s: State, s': State, o: Offer)
    requires OfferOK(s, o) && Grows(s, s')
    ensures OfferOK(s', o)
  {
    CommittedGrows(s, s', o.log[..o.commit], o.term, o.term);
    assert s.lead[o.term] <= s'.lead[o.term];
  }

  lemma OffersStable(s: State, s': State)
    requires OffersOK(s) && Grows(s, s') && s'.offers == s.offers
    ensures OffersOK(s')
  {
    forall o | o in s'.offers ensures OfferOK(s', o) { OfferStable(s, s', o); }
  }

  lemma SnapsStable(s: State, s': State)
    requires SnapsOK(s) && Grows(s, s') && s'.snaps == s.snaps
    requires forall i :: 0 <= i < |s.replicas| ==> s'.replicas[i].base >= s.replicas[i].base
    ensures SnapsOK(s')
  {
    forall z | z in s'.snaps ensures SnapOK(s', z) {
      assert SnapOK(s, z);
      CommittedGrows(s, s', z.log, z.term, z.term);
    }
  }

  lemma AppliedStable(s: State, s': State)
    requires AppliedOK(s) && Grows(s, s') && s'.applied == s.applied
    ensures AppliedOK(s')
  {
    forall x | x in s'.applied ensures AppliedSound(s', x) {
      var t: nat, k: nat :| AppliedBy(s, x, t, k);
      assert s.lead[t] <= s'.lead[t];
      assert AppliedBy(s', x, t, k);
    }
  }

  lemma ReplicaCommitStable(s: State, s': State, r: Replica, r': Replica)
    requires ReplicaCommit(s, r) && Grows(s, s')
    requires r'.log == r.log && r'.base <= r'.commit <= r.commit && r.term <= r'.term
    ensures ReplicaCommit(s', r')
  {
    CommittedGrows(s, s', r.log[..r.commit], r.term, r'.term);
    assert r'.log[..r'.commit] <= r.log[..r.commit];
    CommittedPrefix(s', r.log[..r.commit], r'.log[..r'.commit], r'.term);
  }

  // ---------------------------------------------------------------------
  // Steps that leave logs and acceptances alone
  // ---------------------------------------------------------------------

  ghost predicate Calm(s: State, s': State) {
    && Grows(s, s')
    && SameLogs(s, s')
    && s'.acks == s.acks
    && s'.commits == s.commits
    && s'.offers == s.offers
    && s'.snaps == s.snaps
    && s'.applied == s.applied
    && BallotsFresh(s, s')
    && forall i :: 0 <= i < |s.replicas| ==>
      s.replicas[i].base <= s'.replicas[i].base <= s'.replicas[i].commit <= s.replicas[i].commit
  }

  lemma CalmKeeps(s: State, s': State)
    requires Safe(s) && Calm(s, s') && MatchesOK(s')
    ensures Safe(s')
  {
    AcksStable(s, s');
    BallotsStable(s, s');
    CommitsStable(s, s');
    OffersStable(s, s');
    SnapsStable(s, s');
    AppliedStable(s, s');
    forall i | 0 <= i < |s.replicas| ensures ReplicaCommit(s', s'.replicas[i]) {
      ReplicaCommitStable(s, s', s.replicas[i], s'.replicas[i]);
    }
  }

  /** No leader's term, log, commit index or view changed. */
  lemma MatchesStable(s: State, s': State)
    requires MatchesOK(s) && Grows(s, s') && s'.acks == s.acks
    requires forall i :: 0 <= i < |s.replicas| && s'.replicas[i].role == Leader ==>
      && s.replicas[i].role == Leader
      && s'.replicas[i].term == s.replicas[i].term
      && s'.replicas[i].log == s.replicas[i].log
      && s'.replicas[i].matched == s.replicas[i].matched
      && s'.replicas[i].commit >= s.replicas[i].commit
    ensures MatchesOK(s')
  {
    forall i, p | 0 <= i < |s'.replicas| && 0 <= p < |s'.replicas| && p != i && s'.replicas[i].role == Leader
      ensures MatchOK(s', i, p)
    {
      assert MatchOK(s, i, p);
    }
  }

  lemma BumpSafe(s: State, i: nat, t: nat)
    requires Safe(s) && i < |s.replicas| && t > s.replicas[i].term
    requires Grows(s, Bump(s, i, t))
    ensures Safe(Bump(s, i, t))
  {
    var s' := Bump(s, i, t);
    MatchesStable(s, s');
    CalmKeeps(s, s');
  }

  lemma DemoteSafe(s: State, i: nat)
    requires Safe(s) && i < |s.replicas|
    requires Grows(s, Demote(s, i))
    ensures Safe(Demote(s, i))
  {
    var s' := Demote(s, i);
    MatchesStable(s, s');
    CalmKeeps(s, s');
  }

  lemma CountSafe(s: State, i: nat, v: nat)
    requires Safe(s) && CanCount(s, i, v)
    requires Grows(s, Count(s, i, v))
    ensures Safe(Count(s, i, v))
  {
    var s' := Count(s, i, v);
    MatchesStable(s, s');
    CalmKeeps(s, s');
  }

  lemma StandSafe(s: State, i: nat)
    requires Safe(s) && i < |s.replicas|
    requires Grows(s, Stand(s, i))
    ensures Safe(Stand(s, i))
  {
    var s' := Stand(s, i);
    MatchesStable(s, s');
    CalmKeeps(s, s');
  }

  lemma GrantSafe(s: State, i: nat, a: Ask)
    requires Safe(s) && CanGrant(s, i, a)
    requires Grows(s, Grant(s, i, a))
    ensures Safe(Grant(s, i, a))
  {
    var s' := Grant(s, i, a);
    MatchesStable(s, s');
    CalmKeeps(s, s');
  }

  lemma TrimSafe(s: State, i: nat, k: nat)
    requires Safe(s) && CanTrim(s, i, k) && k <= s.replicas[i].commit
    requires Grows(s, Trim(s, i, k))
    ensures Safe(Trim(s, i, k))
  {
    var s' := Trim(s, i, k);
    MatchesStable(s, s');
    CalmKeeps(s, s');
  }

  lemma ResetSafe(s: State, i: nat, matched: seq<nat>)
    requires Safe(s) && i < |s.replicas| && |matched| == |s.replicas|
    requires Grows(s, Reset(s, i, matched))
    ensures Safe(Reset(s, i, matched))
  {
    var s' := Reset(s, i, matched);
    MatchesStable(s, s');
    CalmKeeps(s, s');
  }

  lemma MatchSafe(s: State, i: nat, p: nat, m: nat)
    requires Safe(s) && CanMatch(s, i, p, m)
    requires Grows(s, Match(s, i, p, m))
    ensures Safe(Match(s, i, p, m))
  {
    var s' := Match(s, i, p, m);
    MatchMatches(s, i, p, m);
    CalmKeeps(s, s');
  }

  lemma MatchMatches(s: State, i: nat, p: nat, m: nat)
    requires MatchesOK(s) && SnapsOK(s) && ReplicaCommits(s) && CanMatch(s, i, p, m)
    ensures MatchesOK(Match(s, i, p, m))
  {
    var s' := Match(s, i, p, m);
    forall j, q | 0 <= j < |s'.replicas| && 0 <= q < |s'.replicas| && q != j && s'.replicas[j].role == Leader
      ensures MatchOK(s', j, q)
    {
      assert MatchOK(s, j, q);
      if j == i && !(m <= AckLen(s, p, s.replicas[i].term)) {
        var z :| z in s.snaps && z.src == i && m <= |z.log|;
        assert SnapOK(s, z);
        assert ReplicaCommit(s, s.replicas[i]);
      }
    }
  }

  // ---------------------------------------------------------------------
  // Sending and applying
  // ---------------------------------------------------------------------

  lemma SendOfferSafe(s: State, i: nat)
    requires Safe(s) && i < |s.replicas| && s.replicas[i].role == Leader
    requires s.replicas[i].term in s.lead && s.replicas[i].log == s.lead[s.replicas[i].term]
    requires Grows(s, SendOffer(s, i))
    ensures Safe(SendOffer(s, i))
  {
    var s' := SendOffer(s, i);
    assert ReplicaCommit(s, s.replicas[i]);
    assert OfferOK(s, Offer(s.replicas[i].term, s.replicas[i].log, s.replicas[i].commit));
    ExtraMessages(s, s');
  }

  lemma SendSnapSafe(s: State, i: nat)
    requires Safe(s) && i < |s.replicas| && s.replicas[i].base <= |s.replicas[i].log|
    requires Grows(s, SendSnap(s, i))
    ensures Safe(SendSnap(s, i))
  {
    var s' := SendSnap(s, i);
    var r := s.replicas[i];
    assert ReplicaCommit(s, r);
    CommittedPrefix(s, r.log[..r.commit], r.log[..r.base], r.term);
    ExtraMessages(s, s');
  }

  lemma AppliedIsCommitted(s: State, i: nat, k: nat)
    requires ReplicaCommits(s) && CanApply(s, i, k)
    ensures AppliedSound(s, Applied(k, s.replicas[i].log[k - 1].command))
  {
    var r := s.replicas[i];
    assert ReplicaCommit(s, r);
    assert r.log[..r.commit][k - 1] == r.log[k - 1];
    var t: nat, c: nat :| t <= r.term && CommittedBy(s, r.log[..r.commit], t, c);
    assert s.lead[t][k - 1] == r.log[..r.commit][k - 1];
    assert AppliedBy(s, Applied(k, r.log[k - 1].command), t, c);
  }

  lemma ApplySafe(s: State, i: nat, k: nat)
    requires Safe(s) && CanApply(s, i, k)
    requires Grows(s, ApplyAt(s, i, k))
    ensures Safe(ApplyAt(s, i, k))
  {
    AppliedIsCommitted(s, i, k);
    ExtraMessages(s, ApplyAt(s, i, k));
  }

  /** Adding sound messages or applied entries changes nothing else. */
  lemma ExtraMessages(s: State, s': State)
    requires Safe(s) && Grows(s, s')
    requires s' == s.(offers := s'.offers, snaps := s'.snaps, applied := s'.applied)
    requires forall o :: o in s'.offers && o !in s.offers ==> OfferOK(s, o)
    requires forall z :: z in s'.snaps && z !in s.snaps ==> SnapOK(s, z)
    requires forall x :: x in s'.applied && x !in s.applied ==> AppliedSound(s, x)
    ensures Safe(s')
  {
    AcksStable(s, s');
    BallotsStable(s, s');
    CommitsStable(s, s');
    MatchesStable(s, s');
    forall o | o in s'.offers ensures OfferOK(s', o) { OfferStable(s, s', o); }
    forall z | z in s'.snaps ensures SnapOK(s', z) {
      assert SnapOK(s, z);
      CommittedGrows(s, s', z.log, z.term, z.term);
    }
    forall x | x in s'.applied ensures AppliedSound(s', x) {
      var t: nat, k: nat :| AppliedBy(s, x, t, k);
      assert AppliedBy(s', x, t, k);
    }
    forall i | 0 <= i < |s.replicas| ensures ReplicaCommit(s', s'.replicas[i]) {
      ReplicaCommitStable(s, s', s.replicas[i], s'.replicas[i]);
    }
  }

  // ---------------------------------------------------------------------
  // Committed prefixes and leaders' logs
  // ---------------------------------------------------------------------

  ghost predicate HeldBy(s: State, t: nat, k: nat, u: nat) {
    t in s.lead && k <= |s.lead[t]| && u in s.elect && u in s.lead && s.elect[u] <= s.lead[u] && s.lead[t][..k] <= s.elect[u]
  }

  /** Leader Completeness as a property of the state. */
  ghost predicate Complete(s: State) {
    && s.lead.Keys == s.elect.Keys
    && forall t, k, u :: (t, k) in s.commits && u in s.elect && t < u ==> HeldBy(s, t, k, u)
  }

  lemma SafeIsComplete(s: State)
    requires Basic(s) && BallotsKept(s) && CommitsOK(s)
    ensures Complete(s)
  {
    forall t, k, u | (t, k) in s.commits && u in s.elect && t < u ensures HeldBy(s, t, k, u) {
      LeaderCompleteness(s, t, k, u);
    }
  }

  /** Every leader from the committing term on holds a committed prefix. */
  lemma CommittedInLead(s: State, log: Log, bound: nat, u: nat)
    requires Complete(s) && Committed(s, log, bound) && bound <= u && u in s.lead
    ensures log <= s.lead[u]
  {
    if log != [] {
      var t: nat, k: nat :| t <= bound && CommittedBy(s, log, t, k);
      if t < u {
        assert HeldBy(s, t, k, u);
      }
    }
  }

  /** Two committed prefixes never disagree. */
  lemma CommittedAgree(s: State, a: Log, b: Log, bound: nat, bound': nat)
    requires Complete(s) && Committed(s, a, bound) && Committed(s, b, bound')
    ensures a <= b || b <= a
  {
    if a != [] && b != [] {
      var t: nat, k: nat :| t <= bound && CommittedBy(s, a, t, k);
      var u: nat, m: nat :| u <= bound' && CommittedBy(s, b, u, m);
      var w := Max(t, u);
      assert Committed(s, a, t) && Committed(s, b, u);
      CommittedInLead(s, a, t, w);
      CommittedInLead(s, b, u, w);
      PrefixesCompare(a, b, s.lead[w]);
    }
  }

  // ---------------------------------------------------------------------
  // Winning and appending
  // ---------------------------------------------------------------------

  /** A replica's acceptance of its own log, recorded while it leads. */
  lemma OwnAckKept(s: State, s': State, i: nat)
    requires AcksKept(s) && Grows(s, s') && i < |s.replicas|
    requires s'.replicas[i].term in s'.elect && s'.replicas[i].term in s'.lead
    requires s'.replicas[i].log == s'.lead[s'.replicas[i].term]
    requires forall p :: 0 <= p < |s.replicas| && p != i ==> s'.replicas[p].log == s.replicas[p].log
    requires s.replicas[i].log <= s'.replicas[i].log
    requires s'.acks == s.acks[(i, s'.replicas[i].term) := |s'.replicas[i].log|]
    ensures AcksKept(s')
  {
    forall p, t, k: nat | (p, t) in s'.acks && k <= s'.acks[(p, t)] ensures AckKept(s', p, t, k) {
      if (p, t) != (i, s'.replicas[i].term) {
        assert AckKept(s, p, t, k);
        KeptGrows(s, s', s.replicas[p].log, t, k, s.replicas[p].term + 1, s'.replicas[p].term + 1);
      }
    }
  }

  /** Acceptances recorded in a replica's current term concern none of its ballots. */
  lemma BallotsOutlive(s: State, s': State, i: nat)
    requires BallotsKept(s) && GrantsBind(s) && Grows(s, s') && i < |s.replicas| && s'.ballots == s.ballots
    requires forall v, t :: (v, t) in s.ballots ==> (v, t) in s.grants
    requires forall k :: k in s'.acks && k != (i, s.replicas[i].term) ==> k in s.acks && s'.acks[k] == s.acks[k]
    ensures BallotsKept(s')
  {
    forall p, t, k: nat, u | (p, t) in s'.acks && k <= s'.acks[(p, t)] && (p, u) in s'.ballots && t < u
      ensures BallotKept(s', p, t, k, u)
    {
      assert (p, u) in s.grants;
      assert (p, t) in s.acks && k <= s.acks[(p, t)];
      assert BallotKept(s, p, t, k, u);
      KeptGrows(s, s', s.ballots[(p, u)].log, t, k, u, u);
    }
  }

  /** Before it wins, a candidate has accepted nothing in its term. */
  lemma NoAckBeforeWin(s: State, i: nat)
    requires AcksKept(s) && i < |s.replicas| && s.replicas[i].term !in s.elect
    ensures AckLen(s, i, s.replicas[i].term) == 0
    ensures (i, s.replicas[i].term) !in s.acks
  {
    assert (i, s.replicas[i].term) in s.acks ==> AckKept(s, i, s.replicas[i].term, 0);
  }

  lemma WinMatches(s: State, i: nat)
    requires MatchesOK(s) && CanWin(s, i) && Grows(s, Win(s, i)) && |s.replicas[i].matched| == |s.replicas|
    requires forall p :: 0 <= p < |s.replicas| && p != i ==> s.replicas[i].matched[p] <= |s.replicas[i].log|
    ensures MatchesOK(Win(s, i))
  {
    var s' := Win(s, i);
    forall j, p | 0 <= j < |s'.replicas| && 0 <= p < |s'.replicas| && p != j && s'.replicas[j].role == Leader
      ensures MatchOK(s', j, p)
    {
      if j != i { assert MatchOK(s, j, p); }
    }
  }

  /** The hypothesis on a new leader: it believes no peer to match beyond its own log. */
  ghost predicate MatchedWithinLog(r: Replica, i: nat) {
    forall p :: 0 <= p < |r.matched| && p != i ==> r.matched[p] <= |r.log|
  }

  lemma WinSafe(s: State, i: nat)
    requires Safe(s) && GrantsBind(s) && CanWin(s, i) && Grows(s, Win(s, i))
    requires s.replicas[i].term !in s.elect
    requires |s.replicas[i].matched| == |s.replicas| && MatchedWithinLog(s.replicas[i], i)
    requires forall v, t :: (v, t) in s.ballots ==> (v, t) in s.grants
    ensures Safe(Win(s, i))
  {
    var s' := Win(s, i);
    NoAckBeforeWin(s, i);
    OwnAckKept(s, s', i);
    BallotsOutlive(s, s', i);
    CommitsStable(s, s');
    OffersStable(s, s');
    SnapsStable(s, s');
    AppliedStable(s, s');
    WinMatches(s, i);
    forall j | 0 <= j < |s.replicas| ensures ReplicaCommit(s', s'.replicas[j]) {
      ReplicaCommitStable(s, s', s.replicas[j], s'.replicas[j]);
    }
  }

  lemma ReplicaCommitLonger(s: State, s': State, r: Replica, r': Replica)
    requires ReplicaCommit(s, r) && Grows(s, s')
    requires r.log <= r'.log && r'.base == r.base && r'.commit == r.commit && r.term <= r'.term
    ensures ReplicaCommit(s', r')
  {
    CommittedGrows(s, s', r.log[..r.commit], r.term, r'.term);
    assert r'.log[..r'.commit] == r.log[..r.commit];
  }

  lemma ExtendMatches(s: State, i: nat, c: Command)
    requires MatchesOK(s) && CanExtend(s, i) && Grows(s, Extend(s, i, c))
    ensures MatchesOK(Extend(s, i, c))
  {
    var s' := Extend(s, i, c);
    forall j, p | 0 <= j < |s'.replicas| && 0 <= p < |s'.replicas| && p != j && s'.replicas[j].role == Leader
      ensures MatchOK(s', j, p)
    {
      assert MatchOK(s, j, p);
    }
  }

  lemma ExtendSafe(s: State, i: nat, c: Command)
    requires Safe(s) && GrantsBind(s) && CanExtend(s, i) && Grows(s, Extend(s, i, c))
    requires s.replicas[i].term in s.lead && s.replicas[i].log == s.lead[s.replicas[i].term]
    requires s.replicas[i].term in s.elect
    requires forall v, t :: (v, t) in s.ballots ==> (v, t) in s.grants
    ensures Safe(Extend(s, i, c))
  {
    var s' := Extend(s, i, c);
    assert AckLen(s, i, s.replicas[i].term) <= |s.replicas[i].log| by {
      if (i, s.replicas[i].term) in s.acks {
        assert AckKept(s, i, s.replicas[i].term, AckLen(s, i, s.replicas[i].term));
      }
    }
    OwnAckKept(s, s', i);
    BallotsOutlive(s, s', i);
    CommitsStable(s, s');
    OffersStable(s, s');
    SnapsStable(s, s');
    AppliedStable(s, s');
    ExtendMatches(s, i, c);
    forall j | 0 <= j < |s.replicas| ensures ReplicaCommit(s', s'.replicas[j]) {
      ReplicaCommitLonger(s, s', s.replicas[j], s'.replicas[j]);
    }
  }

  // ---------------------------------------------------------------------
  // Committing
  // ---------------------------------------------------------------------

  /** The peers a leader counts have accepted the entry in its term. */
  lemma CountedAcked(s: State, i: nat, index: nat)
    requires LeadShape(s) && MatchesOK(s) && CanAdvance(s, i, index)
    requires s.replicas[i].term in s.lead && s.replicas[i].log == s.lead[s.replicas[i].term]
    ensures CommitOK(s, s.replicas[i].term, index)
  {
    var r := s.replicas[i];
    LeadTerm(s, r.term, index - 1);
    var q := Counted(|s.replicas|, i, r.matched, index);
    assert q <= Acked(s, r.term, index) by {
      forall p | p in q ensures p in Acked(s, r.term, index) {
        if p != i { assert MatchOK(s, i, p); }
      }
    }
    SubsetSize(q, Acked(s, r.term, index));
  }

  lemma AdvanceSafe(s: State, i: nat, index: nat)
    requires Safe(s) && LeadShape(s) && CanAdvance(s, i, index) && Grows(s, Advance(s, i, index))
    requires s.replicas[i].term in s.lead && s.replicas[i].log == s.lead[s.replicas[i].term]
    ensures Safe(Advance(s, i, index))
  {
    var s' := Advance(s, i, index);
    var t := s.replicas[i].term;
    CountedAcked(s, i, index);
    AcksStable(s, s');
    BallotsStable(s, s');
    OffersStable(s, s');
    SnapsStable(s, s');
    AppliedStable(s, s');
    MatchesStable(s, s');
    forall u, k | (u, k) in s'.commits ensures CommitOK(s', u, k) {
      CommitStable(s, s', u, k);
    }
    assert CommittedBy(s', s.replicas[i].log[..index], t, index);
    forall j | 0 <= j < |s.replicas| ensures ReplicaCommit(s', s'.replicas[j]) {
      assert ReplicaCommit(s, s.replicas[j]);
      if j != i { ReplicaCommitStable(s, s', s.replicas[j], s'.replicas[j]); }
    }
  }

  // ---------------------------------------------------------------------
  // Accepting entries and snapshots
  // ---------------------------------------------------------------------

  /** `other` is part of the log of a leader from `t` on, or of `t`'s leader itself. */
  ghost predicate FromLaterLeader(s: State, other: Log, t: nat, hi: nat) {
    (t in s.lead && other <= s.lead[t])
    || exists u :: t < u < hi && u in s.elect && u in s.lead && other <= s.lead[u]
  }

  /** Absorbing such a log keeps what was accepted, or blames a leader that lacked it. */
  lemma AbsorbKept(s: State, log: Log, other: Log, t: nat, k: nat, hi: nat)
    requires LeadShape(s) && t in s.lead && k <= |s.lead[t]|
    requires Kept(s, log, t, k, hi) && FromLaterLeader(s, other, t, hi)
    ensures Kept(s, Absorb(log, other), t, k, hi)
  {
    var x := s.lead[t][..k];
    if x <= log && !(other <= log) {
      if other <= s.lead[t] {
        PrefixesCompare(x, other, s.lead[t]);
      } else {
        var u :| t < u < hi && u in s.elect && u in s.lead && other <= s.lead[u];
        if x <= s.elect[u] {
          PrefixesCompare(x, other, s.lead[u]);
        }
      }
    }
  }

  lemma TakeAcks(s: State, s': State, i: nat, other: Log)
    requires LeadShape(s) && AcksKept(s) && Grows(s, s') && i < |s.replicas|
    requires s'.lead == s.lead && s'.elect == s.elect && s'.acks == s.acks
    requires s'.replicas[i].term == s.replicas[i].term
    requires s'.replicas[i].log == Absorb(s.replicas[i].log, other)
    requires forall p :: 0 <= p < |s.replicas| && p != i ==> s'.replicas[p].log == s.replicas[p].log
    requires forall t :: (i, t) in s.acks ==> FromLaterLeader(s, other, t, s.replicas[i].term + 1)
    ensures AcksKept(s')
  {
    forall p, t, k: nat | (p, t) in s'.acks && k <= s'.acks[(p, t)] ensures AckKept(s', p, t, k) {
      assert AckKept(s, p, t, k);
      if p == i {
        AbsorbKept(s, s.replicas[i].log, other, t, k, s.replicas[i].term + 1);
        KeptGrows(s, s', Absorb(s.replicas[i].log, other), t, k, s.replicas[i].term + 1, s'.replicas[i].term + 1);
      } else {
        KeptGrows(s, s', s.replicas[p].log, t, k, s.replicas[p].term + 1, s'.replicas[p].term + 1);
      }
    }
  }

  /** Absorbing a prefix comparable with the committed one keeps the committed one. */
  lemma AbsorbCommit(log: Log, commit: nat, other: Log)
    requires commit <= |log| && (log[..commit] <= other || other <= log[..commit])
    ensures log[..commit] <= Absorb(log, other)
  {
    if other <= log[..commit] {
      assert other <= log;
    }
  }

  lemma TakeCommit(s: State, s': State, i: nat, other: Log)
    requires Grows(s, s') && i < |s.replicas| && ReplicaCommit(s, s.replicas[i])
    requires s.replicas[i].log[..s.replicas[i].commit] <= other || other <= s.replicas[i].log[..s.replicas[i].commit]
    requires s'.replicas[i].log == Absorb(s.replicas[i].log, other)
    requires s'.replicas[i].base <= s'.replicas[i].commit
    requires s'.replicas[i].commit == s.replicas[i].commit
      || (s'.replicas[i].commit <= |other| && Committed(s', other[..s'.replicas[i].commit], s'.replicas[i].term))
    ensures ReplicaCommit(s', s'.replicas[i])
  {
    var r, r' := s.replicas[i], s'.replicas[i];
    AbsorbCommit(r.log, r.commit, other);
    if r'.commit == r.commit {
      CommittedGrows(s, s', r.log[..r.commit], r.term, r'.term);
      assert r'.log[..r.commit] == r.log[..r.commit];
    } else {
      assert other <= r'.log;
      assert r'.log[..r'.commit] == other[..r'.commit];
    }
  }

  /** A replica's acceptance of an append request is recorded once its log holds the request. */
  lemma NewAck(s: State, s': State, i: nat, o: Offer)
    requires AcksKept(s) && i < |s.replicas| && o.term in s.lead && o.term in s.elect && o.log <= s.lead[o.term]
    requires o.log <= s.replicas[i].log && s.replicas[i].term == o.term
    requires s' == s.(acks := s.acks[(i, o.term) := Max(AckLen(s, i, o.term), |o.log|)])
    ensures AcksKept(s')
  {
    forall p, t, k: nat | (p, t) in s'.acks && k <= s'.acks[(p, t)] ensures AckKept(s', p, t, k) {
      if (p, t) in s.acks && k <= s.acks[(p, t)] {
        assert AckKept(s, p, t, k);
      } else {
        assert s.lead[t][..k] <= o.log;
      }
    }
  }

  lemma TakeMatches(s: State, s': State, i: nat)
    requires MatchesOK(s) && Grows(s, s') && i < |s.replicas| && s'.replicas[i].role == Follower
    requires forall p :: 0 <= p < |s.replicas| && p != i ==> s'.replicas[p] == s.replicas[p]
    ensures MatchesOK(s')
  {
    forall j, p | 0 <= j < |s'.replicas| && 0 <= p < |s'.replicas| && p != j && s'.replicas[j].role == Leader
      ensures MatchOK(s', j, p)
    {
      assert MatchOK(s, j, p);
    }
  }

  /** Everything but the absorbing replica's own acceptances and commit index. */
  lemma TakeRest(s: State, s': State, i: nat)
    requires Safe(s) && Grows(s, s') && i < |s.replicas| && s'.replicas[i].role == Follower
    requires s'.commits == s.commits && s'.offers == s.offers && s'.snaps == s.snaps && s'.applied == s.applied
    requires forall p :: 0 <= p < |s.replicas| && p != i ==> s'.replicas[p] == s.replicas[p]
    requires s'.replicas[i].base >= s.replicas[i].base && ReplicaCommit(s', s'.replicas[i])
    ensures CommitsOK(s') && ReplicaCommits(s') && OffersOK(s') && SnapsOK(s') && MatchesOK(s') && AppliedOK(s')
  {
    CommitsStable(s, s');
    OffersStable(s, s');
    SnapsStable(s, s');
    AppliedStable(s, s');
    TakeMatches(s, s', i);
    forall j | 0 <= j < |s.replicas| ensures ReplicaCommit(s', s'.replicas[j]) {
      if j != i { ReplicaCommitStable(s, s', s.replicas[j], s'.replicas[j]); }
    }
  }

  lemma TakeOfferAcks(s: State, i: nat, o: Offer)
    requires LeadShape(s) && AcksKept(s) && OfferOK(s, o) && CanTakeOffer(s, i, o) && Grows(s, TakeOffer(s, i, o))
    ensures AcksKept(TakeOffer(s, i, o))
  {
    var s' := TakeOffer(s, i, o);
    var mid := Put(s, i, s'.replicas[i]);
    assert Grows(s, mid);
    TakeOfferLog(s, mid, i, o);
    NewAck(mid, s', i, o);
  }

  lemma TakeOfferLog(s: State, mid: State, i: nat, o: Offer)
    requires LeadShape(s) && AcksKept(s) && OfferOK(s, o) && CanTakeOffer(s, i, o) && Grows(s, mid)
    requires mid == Put(s, i, TakeOffer(s, i, o).replicas[i])
    ensures AcksKept(mid)
  {
    forall t | (i, t) in s.acks ensures FromLaterLeader(s, o.log, t, s.replicas[i].term + 1) {
      assert AckKept(s, i, t, 0);
    }
    TakeAcks(s, mid, i, o.log);
  }

  lemma TakeOfferSafe(s: State, i: nat, o: Offer)
    requires Safe(s) && LeadShape(s) && Complete(s) && GrantsBind(s)
    requires CanTakeOffer(s, i, o) && Grows(s, TakeOffer(s, i, o))
    requires forall v, t :: (v, t) in s.ballots ==> (v, t) in s.grants
    ensures Safe(TakeOffer(s, i, o))
  {
    var s' := TakeOffer(s, i, o);
    var r := s.replicas[i];
    assert OfferOK(s, o);
    assert ReplicaCommit(s, r);
    CommittedInLead(s, r.log[..r.commit], r.term, o.term);
    PrefixesCompare(r.log[..r.commit], o.log, s.lead[o.term]);
    TakeOfferAcks(s, i, o);
    BallotsOutlive(s, s', i);
    TakeOfferCommit(s, i, o);
    TakeRest(s, s', i);
  }

  lemma TakeOfferCommit(s: State, i: nat, o: Offer)
    requires CanTakeOffer(s, i, o) && Grows(s, TakeOffer(s, i, o)) && OfferOK(s, o) && ReplicaCommit(s, s.replicas[i])
    requires s.replicas[i].log[..s.replicas[i].commit] <= o.log || o.log <= s.replicas[i].log[..s.replicas[i].commit]
    ensures ReplicaCommit(TakeOffer(s, i, o), TakeOffer(s, i, o).replicas[i])
  {
    var s' := TakeOffer(s, i, o);
    CommittedGrows(s, s', o.log[..o.commit], o.term, o.term);
    assert o.log <= s'.replicas[i].log;
    TakeCommit(s, s', i, o.log);
  }

  lemma TakeSnapSafe(s: State, i: nat, z: Snap)
    requires Safe(s) && LeadShape(s) && Complete(s) && GrantsBind(s)
    requires CanTakeSnap(s, i, z) && Grows(s, TakeSnap(s, i, z))
    requires forall v, t :: (v, t) in s.ballots ==> (v, t) in s.grants
    ensures Safe(TakeSnap(s, i, z))
  {
    var s' := TakeSnap(s, i, z);
    var r := s.replicas[i];
    assert SnapOK(s, z);
    assert ReplicaCommit(s, r);
    TakeSnapAcks(s, i, z);
    BallotsOutlive(s, s', i);
    TakeSnapCommit(s, i, z);
    TakeRest(s, s', i);
  }

  lemma TakeSnapAcks(s: State, i: nat, z: Snap)
    requires LeadShape(s) && Complete(s) && AcksKept(s) && CommitsOK(s) && SnapOK(s, z)
    requires CanTakeSnap(s, i, z) && Grows(s, TakeSnap(s, i, z))
    ensures AcksKept(TakeSnap(s, i, z))
  {
    var r := s.replicas[i];
    forall t | (i, t) in s.acks ensures FromLaterLeader(s, z.log, t, r.term + 1) {
      assert AckKept(s, i, t, 0);
      SnapFromLeader(s, z, t, r.term);
    }
    TakeAcks(s, TakeSnap(s, i, z), i, z.log);
  }

  lemma TakeSnapCommit(s: State, i: nat, z: Snap)
    requires Complete(s) && CanTakeSnap(s, i, z) && Grows(s, TakeSnap(s, i, z)) && SnapOK(s, z) && ReplicaCommit(s, s.replicas[i])
    ensures ReplicaCommit(TakeSnap(s, i, z), TakeSnap(s, i, z).replicas[i])
  {
    var s', r := TakeSnap(s, i, z), s.replicas[i];
    CommittedAgree(s, r.log[..r.commit], z.log, r.term, z.term);
    CommittedGrows(s, s', z.log, z.term, z.term);
    assert z.log[..|z.log|] == z.log;
    TakeCommit(s, s', i, z.log);
  }

  /** A snapshot holds only what leaders of its time hold, even when its sender leads no more. */
  lemma SnapFromLeader(s: State, z: Snap, t: nat, hi: nat)
    requires Complete(s) && CommitsOK(s) && Committed(s, z.log, z.term) && z.term <= hi && t in s.lead && |z.log| > 0
    ensures FromLaterLeader(s, z.log, t, hi + 1)
  {
    var u: nat, k: nat :| u <= z.term && CommittedBy(s, z.log, u, k);
    assert CommitOK(s, u, k);
    if u <= t {
      assert Committed(s, z.log, u);
      CommittedInLead(s, z.log, u, t);
    }
  }
}
