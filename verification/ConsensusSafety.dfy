/**
 State Machine Safety over whole logs.

 The invariants below hold in every run in which append requests are built by
 a replica that is still leader, and no leader starts its term believing that
 a peer matches beyond the end of its own log.
 */
module ConsensusSafety {
  import opened Collections
  import opened RaftTypes
  import opened Consensus

  // ---------------------------------------------------------------------
  // Invariants
  // ---------------------------------------------------------------------

  /** `log` holds the first `k` entries of term `t`'s leader, unless a leader between `t` and `hi` lacked them. */
  ghost predicate Kept(s: State, log: Log, t: nat, k: nat, hi: nat)
    requires t in s.lead && k <= |s.lead[t]|
  {
    s.lead[t][..k] <= log
    || exists u :: t < u < hi && u in s.elect && !(s.lead[t][..k] <= s.elect[u])
  }

  ghost predicate AckKept(s: State, p: nat, t: nat, k: nat) {
    && p < |s.replicas|
    && t in s.elect
    && t in s.lead
    && k <= |s.lead[t]|
    && t <= s.replicas[p].term
    && Kept(s, s.replicas[p].log, t, k, s.replicas[p].term + 1)
  }

  /** What a replica has accepted it keeps, or loses only to a leader that lacked it. */
  ghost predicate AcksKept(s: State) {
    forall p, t, k: nat :: (p, t) in s.acks && k <= s.acks[(p, t)] ==> AckKept(s, p, t, k)
  }

  ghost predicate BallotKept(s: State, p: nat, t: nat, k: nat, u: nat) {
    && (p, u) in s.ballots
    && t in s.lead
    && k <= |s.lead[t]|
    && Kept(s, s.ballots[(p, u)].log, t, k, u)
  }

  /** The same at the moment of a vote. */
  ghost predicate BallotsKept(s: State) {
    forall p, t, k: nat, u ::
      (p, t) in s.acks && k <= s.acks[(p, t)] && (p, u) in s.ballots && t < u ==> BallotKept(s, p, t, k, u)
  }

  ghost function Acked(s: State, t: nat, k: nat): set<nat> {
    set p | p in Below(|s.replicas|) && AckLen(s, p, t) >= k
  }

  ghost predicate CommitOK(s: State, t: nat, k: nat) {
    && t in s.elect
    && t in s.lead
    && |s.elect[t]| < k <= |s.lead[t]|
    && Majority(|s.replicas|, Acked(s, t, k))
  }

  /** A committed entry is of its leader's term and a majority accepted it in that term. */
  ghost predicate CommitsOK(s: State) {
    forall t, k :: (t, k) in s.commits ==> CommitOK(s, t, k)
  }

  ghost predicate CommittedBy(s: State, log: Log, t: nat, k: nat) {
    (t, k) in s.commits && t in s.lead && k <= |s.lead[t]| && log <= s.lead[t][..k]
  }

  /** `log` is covered by a commit made in a term no later than `bound`. */
  ghost predicate Committed(s: State, log: Log, bound: nat) {
    log == [] || exists t: nat, k: nat :: t <= bound && CommittedBy(s, log, t, k)
  }

  ghost predicate ReplicaCommit(s: State, r: Replica) {
    r.base <= r.commit <= |r.log| && Committed(s, r.log[..r.commit], r.term)
  }

  ghost predicate ReplicaCommits(s: State) {
    forall i :: 0 <= i < |s.replicas| ==> ReplicaCommit(s, s.replicas[i])
  }

  ghost predicate OfferOK(s: State, o: Offer) {
    && o.term in s.lead
    && o.log <= s.lead[o.term]
    && o.commit <= |o.log|
    && Committed(s, o.log[..o.commit], o.term)
  }

  ghost predicate OffersOK(s: State) {
    forall o :: o in s.offers ==> OfferOK(s, o)
  }

  ghost predicate SnapOK(s: State, z: Snap) {
    Committed(s, z.log, z.term) && z.src < |s.replicas| && |z.log| <= s.replicas[z.src].base
  }

  ghost predicate SnapsOK(s: State) {
    forall z :: z in s.snaps ==> SnapOK(s, z)
  }

  ghost predicate MatchOK(s: State, i: nat, p: nat)
    requires i < |s.replicas|
  {
    var r := s.replicas[i];
    && r.term in s.elect
    && p < |r.matched|
    && (r.matched[p] <= |s.elect[r.term]| || r.matched[p] <= AckLen(s, p, r.term) || r.matched[p] <= r.commit)
  }

  /** A leader's view of its peers is backed by what they accepted in its term. */
  ghost predicate MatchesOK(s: State) {
    && (forall i, p :: 0 <= i < |s.replicas| && 0 <= p < |s.replicas| && p != i && s.replicas[i].role == Leader ==>
      MatchOK(s, i, p))
    && (forall i :: 0 <= i < |s.replicas| && s.replicas[i].role == Leader ==>
      AckLen(s, i, s.replicas[i].term) >= |s.replicas[i].log|)
  }

  ghost predicate AppliedBy(s: State, x: Applied, t: nat, k: nat) {
    (t, k) in s.commits && t in s.lead && 1 <= x.index <= k <= |s.lead[t]| && s.lead[t][x.index - 1].command == x.command
  }

  ghost predicate AppliedSound(s: State, x: Applied) {
    exists t: nat, k: nat :: AppliedBy(s, x, t, k)
  }

  /** Whatever was handed to a service had been committed. */
  ghost predicate AppliedOK(s: State) {
    forall x :: x in s.applied ==> AppliedSound(s, x)
  }

  ghost predicate Safe(s: State) {
    && AcksKept(s)
    && BallotsKept(s)
    && CommitsOK(s)
    && ReplicaCommits(s)
    && OffersOK(s)
    && SnapsOK(s)
    && MatchesOK(s)
    && AppliedOK(s)
  }

  // ---------------------------------------------------------------------
  // Leader Completeness
  // ---------------------------------------------------------------------

  /** The entries a leader wrote itself are those after the log it was elected with. */
  lemma LeadTerm(s: State, t: nat, j: nat)
    requires LeadShape(s) && t in s.lead && j < |s.lead[t]|
    ensures s.lead[t][j].term <= t
    ensures s.lead[t][j].term == t <==> j >= |s.elect[t]|
  {
    assert j < |s.elect[t]| ==> s.elect[t][j] == s.lead[t][j];
  }

  /** The last entry of an elected log comes from an earlier leader, whose log it extends past its election. */
  lemma LastFromLeader(s: State, log: Log)
    requires LeadShape(s) && LogOK(s.lead, log) && |log| > 0
    ensures LastTerm(log) in s.lead && log <= s.lead[LastTerm(log)]
    ensures LastTerm(log) in s.elect && s.elect[LastTerm(log)] <= log && |s.elect[LastTerm(log)]| < |log|
  {
    assert FromLeader(s.lead, log, |log| - 1);
    assert log[..|log| - 1 + 1] == log;
    var t := LastTerm(log);
    LeadTerm(s, t, |log| - 1);
  }

  /** A voter that holds a committed prefix votes only for candidates that hold it. */
  lemma VotePassesOn(s: State, t: nat, k: nat, u: nat, voter: Log, cand: Log)
    requires LeadShape(s) && t in s.elect && |s.elect[t]| < k <= |s.lead[t]|
    requires LogOK(s.lead, voter) && LogOK(s.lead, cand) && TermsBelow(cand, u)
    requires s.lead[t][..k] <= voter && UpToDate(cand, voter)
    requires forall w :: t < w < u && w in s.elect ==> s.lead[t][..k] <= s.elect[w]
    ensures s.lead[t][..k] <= cand
  {
    var x := s.lead[t][..k];
    LastFromLeader(s, voter);
    TermAtLeast(s, voter, t, k);
    assert |cand| > 0;
    LastFromLeader(s, cand);
    var a, b := LastTerm(cand), LastTerm(voter);
    if a == b {
      PrefixesCompare(voter, cand, s.lead[a]);
    } else {
      assert cand[|cand| - 1].term < u;
      assert x <= s.elect[a];
    }
  }

  /** A log that holds an entry of term `t` ends in a term no earlier. */
  lemma TermAtLeast(s: State, log: Log, t: nat, k: nat)
    requires LeadShape(s) && LogOK(s.lead, log)
    requires t in s.elect && |s.elect[t]| < k <= |s.lead[t]| && s.lead[t][..k] <= log
    ensures |log| > 0 && LastTerm(log) >= t
  {
    assert s.lead[t][k - 1].term == t;
    assert log[k - 1] == s.lead[t][k - 1];
    LastFromLeader(s, log);
    var w := LastTerm(log);
    assert s.lead[w][k - 1] == log[k - 1];
    if k - 1 < |s.elect[w]| {
      assert s.elect[w][k - 1] == s.lead[w][k - 1];
    }
  }

  /**
   Leader Completeness: every later leader was elected with every entry
   committed before.  (Raft paper, section 5.4.3.)
   */
  lemma {:induction false} LeaderCompleteness(s: State, t: nat, k: nat, u: nat)
    requires Basic(s) && BallotsKept(s) && CommitsOK(s)
    requires (t, k) in s.commits && u in s.elect && t < u
    ensures t in s.lead && k <= |s.lead[t]| && s.lead[t][..k] <= s.elect[u]
    decreases u
  {
    assert CommitOK(s, t, k);
    forall w | t < w < u && w in s.elect ensures s.lead[t][..k] <= s.elect[w] {
      LeaderCompleteness(s, t, k, w);
    }
    var v := MajoritiesMeet(|s.replicas|, Acked(s, t, k), s.quorum[u]);
    CompletenessStep(s, t, k, u, v);
  }

  lemma CompletenessStep(s: State, t: nat, k: nat, u: nat, v: nat)
    requires LeadShape(s) && MessageLogs(s) && Ballots(s) && BallotsKept(s) && CommitOK(s, t, k)
    requires u in s.elect && t < u && v in Acked(s, t, k) && v in s.quorum[u]
    requires forall w :: t < w < u && w in s.elect ==> s.lead[t][..k] <= s.elect[w]
    ensures s.lead[t][..k] <= s.elect[u]
  {
    var b := s.ballots[(v, u)];
    assert BallotKept(s, v, t, k, u);
    assert s.lead[t][..k] <= b.log;
    VotePassesOn(s, t, k, u, b.log, s.elect[u]);
  }
}
