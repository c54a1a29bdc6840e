/**
 Raft over whole logs.

 A replica here carries its full log: the entries a snapshot has absorbed
 followed by the entries still held.  Next to the replicas the state records
 what has happened so far (votes granted, elections won, entries accepted,
 requests sent).  No step reads that record to decide what to do except where
 a message carries it; it lets the safety argument of the Raft paper
 (sections 5.2 to 5.4) be stated as invariants of one state.
 */
module Consensus {
  import opened Collections
  import opened RaftTypes

  datatype Replica = Replica(
    term: nat,
    vote: int,
    role: Role,
    log: Log,
    votes: set<nat>,
    commit: nat,
    base: nat,
    matched: seq<nat>)

  /** A vote request: the candidate's whole log stands for its last index and term. */
  datatype Ask = Ask(cand: nat, term: nat, log: Log)

  /** An append request: the sender's whole log and commit index. */
  datatype Offer = Offer(term: nat, log: Log, commit: nat)

  /** A snapshot request: the log prefix the snapshot stands for. */
  datatype Snap = Snap(src: nat, term: nat, log: Log)

  /** A vote cast before its election was decided, with both logs at that moment. */
  datatype Ballot = Ballot(cand: nat, log: Log, candLog: Log)

  /** A command handed to a service at an index. */
  datatype Applied = Applied(index: nat, command: Command)

  datatype State = State(
    replicas: seq<Replica>,
    asks: set<Ask>,
    offers: set<Offer>,
    snaps: set<Snap>,
    grants: map<(nat, nat), nat>,     // (voter, term) to candidate
    ballots: map<(nat, nat), Ballot>, // (voter, term) to the vote as first cast
    elect: map<nat, Log>,             // term to the leader's log when it won
    lead: map<nat, Log>,              // term to the leader's log so far
    winner: map<nat, nat>,            // term to leader
    quorum: map<nat, set<nat>>,       // term to the voters that elected it
    acks: map<(nat, nat), nat>,       // (replica, term) to the length accepted in that term
    commits: set<(nat, nat)>,         // (term, index) pairs a leader has committed
    applied: set<Applied>)

  // ---------------------------------------------------------------------
  // Steps
  // ---------------------------------------------------------------------

  /** What a log becomes on accepting another: kept if it already contains it. */
  function Absorb(log: Log, other: Log): Log {
    if other <= log then log else other
  }

  /** The voter's test: the candidate's log is at least as up to date. */
  predicate UpToDate(cand: Log, voter: Log) {
    LastTerm(cand) > LastTerm(voter)
    || (LastTerm(cand) == LastTerm(voter) && |cand| >= |voter|)
  }

  function AckLen(s: State, p: nat, t: nat): nat {
    if (p, t) in s.acks then s.acks[(p, t)] else 0
  }

  function Put(s: State, i: nat, r: Replica): State
    requires i < |s.replicas|
  {
    s.(replicas := s.replicas[i := r])
  }

  /** Learns of a higher term. */
  function Bump(s: State, i: nat, t: nat): State
    requires i < |s.replicas|
  {
    Put(s, i, s.replicas[i].(term := t, vote := -1, role := Follower))
  }

  /** Recognises the current term's sender. */
  function Demote(s: State, i: nat): State
    requires i < |s.replicas|
  {
    Put(s, i, s.replicas[i].(role := Follower))
  }

  /** Starts an election. */
  function Stand(s: State, i: nat): State
    requires i < |s.replicas|
  {
    var r := s.replicas[i];
    var t := r.term + 1;
    Put(s, i, r.(term := t, vote := i, role := Candidate, votes := {i})).(
    asks := s.asks + {Ask(i, t, r.log)},
    grants := s.grants[(i, t) := i],
    ballots := if t in s.elect then s.ballots else s.ballots[(i, t) := Ballot(i, r.log, r.log)])
  }

  predicate CanGrant(s: State, i: nat, a: Ask) {
    && i < |s.replicas|
    && a in s.asks
    && a.cand != i
    && s.replicas[i].term == a.term
    && (s.replicas[i].vote == -1 || s.replicas[i].vote == a.cand)
    && UpToDate(a.log, s.replicas[i].log)
  }

  /** Grants a vote. */
  function Grant(s: State, i: nat, a: Ask): State
    requires CanGrant(s, i, a)
  {
    var r := s.replicas[i];
    Put(s, i, r.(vote := a.cand, role := Follower)).(
    grants := s.grants[(i, a.term) := a.cand],
    ballots := if a.term in s.elect || (i, a.term) in s.ballots then s.ballots
    else s.ballots[(i, a.term) := Ballot(a.cand, r.log, a.log)])
  }

  predicate CanCount(s: State, i: nat, v: nat) {
    && i < |s.replicas|
    && v < |s.replicas|
    && s.replicas[i].role == Candidate
    && (v, s.replicas[i].term) in s.grants
    && s.grants[(v, s.replicas[i].term)] == i
  }

  /** Counts a granted vote. */
  function Count(s: State, i: nat, v: nat): State
    requires CanCount(s, i, v)
  {
    Put(s, i, s.replicas[i].(votes := s.replicas[i].votes + {v}))
  }

  predicate CanWin(s: State, i: nat) {
    && i < |s.replicas|
    && s.replicas[i].role == Candidate
    && Majority(|s.replicas|, s.replicas[i].votes)
  }

  /** Becomes leader. */
  function Win(s: State, i: nat): State
    requires CanWin(s, i)
  {
    var r := s.replicas[i];
    Put(s, i, r.(role := Leader)).(
    elect := s.elect[r.term := r.log],
    lead := s.lead[r.term := r.log],
    winner := s.winner[r.term := i],
    quorum := s.quorum[r.term := r.votes],
    acks := s.acks[(i, r.term) := Max(AckLen(s, i, r.term), |r.log|)])
  }

  predicate CanExtend(s: State, i: nat) {
    i < |s.replicas| && s.replicas[i].role == Leader
  }

  /** A leader appends a client command. */
  function Extend(s: State, i: nat, c: Command): State
    requires CanExtend(s, i)
  {
    var r := s.replicas[i];
    var log := r.log + [LogEntry(r.term, c)];
    Put(s, i, r.(log := log)).(
    lead := s.lead[r.term := log],
    acks := s.acks[(i, r.term) := Max(AckLen(s, i, r.term), |log|)])
  }

  /** Builds an append request, whatever the sender's role is by now. */
  function SendOffer(s: State, i: nat): State
    requires i < |s.replicas|
  {
    var r := s.replicas[i];
    s.(offers := s.offers + {Offer(r.term, r.log, r.commit)})
  }

  /** Builds a snapshot request, whatever the sender's role is by now. */
  function SendSnap(s: State, i: nat): State
    requires i < |s.replicas| && s.replicas[i].base <= |s.replicas[i].log|
  {
    var r := s.replicas[i];
    s.(snaps := s.snaps + {Snap(i, r.term, r.log[..r.base])})
  }

  predicate CanTakeOffer(s: State, i: nat, o: Offer) {
    && i < |s.replicas|
    && o in s.offers
    && s.replicas[i].term == o.term
    && s.replicas[i].role == Follower
    && s.replicas[i].base <= |o.log|
  }

  /** Accepts an append request. */
  function TakeOffer(s: State, i: nat, o: Offer): State
    requires CanTakeOffer(s, i, o)
  {
    var r := s.replicas[i];
    var log := Absorb(r.log, o.log);
    Put(s, i, r.(log := log,
                 commit := if o.commit > r.commit then Min(o.commit, |log|) else r.commit)).(
    acks := s.acks[(i, o.term) := Max(AckLen(s, i, o.term), |o.log|)])
  }

  predicate CanTakeSnap(s: State, i: nat, z: Snap) {
    && i < |s.replicas|
    && z in s.snaps
    && s.replicas[i].term == z.term
    && s.replicas[i].role == Follower
    && s.replicas[i].base < |z.log|
  }

  /** Installs a snapshot. */
  function TakeSnap(s: State, i: nat, z: Snap): State
    requires CanTakeSnap(s, i, z)
  {
    var r := s.replicas[i];
    Put(s, i, r.(log := Absorb(r.log, z.log), base := |z.log|, commit := Max(|z.log|, r.commit)))
  }

  predicate CanMatch(s: State, i: nat, p: nat, m: nat) {
    && i < |s.replicas|
    && p < |s.replicas[i].matched|
    && s.replicas[i].role == Leader
    && (m <= AckLen(s, p, s.replicas[i].term) || exists z :: z in s.snaps && z.src == i && m <= |z.log|)
  }

  /** A leader records how far a peer's log is known to match. */
  function Match(s: State, i: nat, p: nat, m: nat): State
    requires CanMatch(s, i, p, m)
  {
    var r := s.replicas[i];
    Put(s, i, r.(matched := r.matched[p := Max(m, r.matched[p])]))
  }

  /** The peers a leader counts for an index, itself included. */
  function Counted(n: nat, i: nat, matched: seq<nat>, index: nat): set<nat>
    requires |matched| == n
  {
    {i} + set p | p in Below(n) && p != i && matched[p] >= index
  }

  predicate CanAdvance(s: State, i: nat, index: nat) {
    && i < |s.replicas|
    && var r := s.replicas[i];
    && |r.matched| == |s.replicas|
    && r.role == Leader
    && r.commit < index <= |r.log|
    && r.log[index - 1].term == r.term
    && Majority(|s.replicas|, Counted(|s.replicas|, i, r.matched, index))
  }

  /** A leader commits an entry of its own term. */
  function Advance(s: State, i: nat, index: nat): State
    requires CanAdvance(s, i, index)
  {
    var r := s.replicas[i];
    Put(s, i, r.(commit := index)).(commits := s.commits + {(r.term, index)})
  }

  predicate CanTrim(s: State, i: nat, k: nat) {
    && i < |s.replicas|
    && s.replicas[i].base <= k <= |s.replicas[i].log|
  }

  /** Replaces a log prefix by a local snapshot. */
  function Trim(s: State, i: nat, k: nat): State
    requires CanTrim(s, i, k)
  {
    Put(s, i, s.replicas[i].(base := k))
  }

  predicate CanApply(s: State, i: nat, k: nat) {
    && i < |s.replicas|
    && 1 <= k <= s.replicas[i].commit
    && k <= |s.replicas[i].log|
  }

  /** Hands the entry at an index to the service. */
  function ApplyAt(s: State, i: nat, k: nat): State
    requires CanApply(s, i, k)
  {
    s.(applied := s.applied + {Applied(k, s.replicas[i].log[k - 1].command)})
  }

  /** Crashes and restarts from stable storage. */
  function Reset(s: State, i: nat, matched: seq<nat>): State
    requires i < |s.replicas|
  {
    var r := s.replicas[i];
    Put(s, i, r.(role := Follower, votes := {}, commit := r.base, matched := matched))
  }

  // ---------------------------------------------------------------------
  // Invariants that need no hypothesis on the run
  // ---------------------------------------------------------------------

  /** The prefix of `log` ending at `j` is a prefix of the log of the leader that wrote that entry. */
  ghost predicate FromLeader(lead: map<nat, Log>, log: Log, j: int)
    requires 0 <= j < |log|
  {
    log[j].term in lead && log[..j + 1] <= lead[log[j].term]
  }

  ghost predicate LogOK(lead: map<nat, Log>, log: Log) {
    forall j :: 0 <= j < |log| ==> FromLeader(lead, log, j)
  }

  ghost predicate TermsBelow(log: Log, t: nat) {
    forall j :: 0 <= j < |log| ==> log[j].term < t
  }

  /** A granted vote binds its voter for the rest of that term. */
  ghost predicate GrantsBind(s: State) {
    forall v, t :: (v, t) in s.grants ==>
      && v < |s.replicas|
      && s.grants[(v, t)] < |s.replicas|
      && (s.replicas[v].term > t || (s.replicas[v].term == t && s.replicas[v].vote == s.grants[(v, t)]))
  }

  ghost predicate VotesGranted(s: State) {
    forall i, v :: 0 <= i < |s.replicas| && s.replicas[i].role == Candidate && v in s.replicas[i].votes ==>
      (v, s.replicas[i].term) in s.grants && s.grants[(v, s.replicas[i].term)] == i
  }

  ghost predicate ElectedByQuorum(s: State) {
    && s.lead.Keys == s.elect.Keys
    && s.winner.Keys == s.elect.Keys
    && s.quorum.Keys == s.elect.Keys
    && (forall t :: t in s.elect ==> Majority(|s.replicas|, s.quorum[t]))
    && (forall t, v :: t in s.elect && v in s.quorum[t] ==> (v, t) in s.grants && s.grants[(v, t)] == s.winner[t])
  }

  ghost predicate LeadersWon(s: State) {
    && (forall i :: 0 <= i < |s.replicas| && s.replicas[i].role == Leader ==>
      && s.replicas[i].term in s.winner
      && s.replicas[i].term in s.lead
      && s.winner[s.replicas[i].term] == i
      && s.replicas[i].log == s.lead[s.replicas[i].term])
    && (forall t :: t in s.winner ==>
      && s.winner[t] < |s.replicas|
      && s.replicas[s.winner[t]].term >= t
      && (s.replicas[s.winner[t]].term == t ==> s.replicas[s.winner[t]].role != Candidate))
  }

  ghost predicate Elections(s: State) {
    ElectedByQuorum(s) && GrantsBind(s) && VotesGranted(s) && LeadersWon(s)
  }

  /** A leader only adds entries of its own term to the log it was elected with. */
  ghost predicate LeadShape(s: State) {
    && s.lead.Keys == s.elect.Keys
    && forall t :: t in s.elect ==>
      && s.elect[t] <= s.lead[t]
      && TermsBelow(s.elect[t], t)
      && LogOK(s.lead, s.lead[t])
      && forall j :: |s.elect[t]| <= j < |s.lead[t]| ==> s.lead[t][j].term == t
  }

  ghost predicate ReplicaLogs(s: State) {
    forall i :: 0 <= i < |s.replicas| ==>
      && LogOK(s.lead, s.replicas[i].log)
      && TermsBelow(s.replicas[i].log, s.replicas[i].term + 1)
      && (s.replicas[i].role == Candidate ==> TermsBelow(s.replicas[i].log, s.replicas[i].term))
      && s.replicas[i].base <= |s.replicas[i].log|
      && |s.replicas[i].matched| == |s.replicas|
  }

  ghost predicate MessageLogs(s: State) {
    && (forall a :: a in s.asks ==> LogOK(s.lead, a.log) && TermsBelow(a.log, a.term))
    && (forall o :: o in s.offers ==> LogOK(s.lead, o.log) && TermsBelow(o.log, o.term + 1))
    && (forall z :: z in s.snaps ==> LogOK(s.lead, z.log) && TermsBelow(z.log, z.term + 1) && z.src < |s.replicas|)
    && (forall k :: k in s.ballots ==> LogOK(s.lead, s.ballots[k].log) && LogOK(s.lead, s.ballots[k].candLog))
  }

  ghost predicate Logs(s: State) {
    LeadShape(s) && ReplicaLogs(s) && MessageLogs(s)
  }

  /** Ballots were cast for logs at least as up to date, and elections were won on them. */
  ghost predicate BallotsFair(s: State) {
    && (forall v, t :: (v, t) in s.ballots ==>
      && (v, t) in s.grants
      && s.ballots[(v, t)].cand == s.grants[(v, t)]
      && UpToDate(s.ballots[(v, t)].candLog, s.ballots[(v, t)].log))
    && (forall v, t :: (v, t) in s.grants && t !in s.elect ==> (v, t) in s.ballots)
    && (forall t, v :: t in s.elect && t in s.quorum && v in s.quorum[t] ==>
      (v, t) in s.ballots && s.ballots[(v, t)].candLog == s.elect[t])
  }

  /** A candidate's log is the one it asked votes for. */
  ghost predicate CandidatesFixed(s: State) {
    && (forall a :: a in s.asks ==>
      && a.cand < |s.replicas|
      && a.term <= s.replicas[a.cand].term
      && (s.replicas[a.cand].role == Candidate && s.replicas[a.cand].term == a.term ==> a.log == s.replicas[a.cand].log))
    && (forall v, t :: (v, t) in s.ballots ==>
      var c := s.ballots[(v, t)].cand;
      && c < |s.replicas|
      && t <= s.replicas[c].term
      && (s.replicas[c].role == Candidate && s.replicas[c].term == t ==> s.ballots[(v, t)].candLog == s.replicas[c].log))
  }

  ghost predicate Ballots(s: State) {
    ElectedByQuorum(s) && BallotsFair(s) && CandidatesFixed(s)
  }

  ghost predicate Basic(s: State) {
    Elections(s) && Logs(s) && Ballots(s)
  }

  // ---------------------------------------------------------------------
  // Growth of the record
  // ---------------------------------------------------------------------

  ghost predicate LeadGrows(lead: map<nat, Log>, lead': map<nat, Log>) {
    forall t :: t in lead ==> t in lead' && lead[t] <= lead'[t]
  }

  /** What one state's record keeps of an earlier one's. */
  ghost predicate Grows(s: State, s': State) {
    && |s'.replicas| == |s.replicas|
    && s.asks <= s'.asks
    && s.offers <= s'.offers
    && s.snaps <= s'.snaps
    && s.commits <= s'.commits
    && s.applied <= s'.applied
    && LeadGrows(s.lead, s'.lead)
    && (forall t :: t in s.elect ==> t in s'.elect && s'.elect[t] == s.elect[t])
    && (forall t :: t in s.winner ==> t in s'.winner && s'.winner[t] == s.winner[t])
    && (forall k :: k in s.grants ==> k in s'.grants && s'.grants[k] == s.grants[k])
    && (forall k :: k in s.acks ==> k in s'.acks && s.acks[k] <= s'.acks[k])
    && (forall i :: 0 <= i < |s.replicas| ==> s.replicas[i].term <= s'.replicas[i].term)
  }

  lemma LogOKGrows(lead: map<nat, Log>, lead': map<nat, Log>, log: Log)
    requires LeadGrows(lead, lead') && LogOK(lead, log)
    ensures LogOK(lead', log)
  {
    forall j | 0 <= j < |log| ensures FromLeader(lead', log, j) {
      assert FromLeader(lead, log, j);
    }
  }

  lemma LogOKPrefix(lead: map<nat, Log>, log: Log, p: Log)
    requires LogOK(lead, log) && p <= log
    ensures LogOK(lead, p)
  {
    forall j | 0 <= j < |p| ensures FromLeader(lead, p, j) {
      assert FromLeader(lead, log, j);
      assert p[..j + 1] == log[..j + 1];
    }
  }

  /** Log Matching for two well-formed logs. */
  lemma LogsMatch(lead: map<nat, Log>, a: Log, b: Log, k: nat)
    requires LogOK(lead, a) && LogOK(lead, b)
    requires 1 <= k <= |a| && k <= |b| && a[k - 1].term == b[k - 1].term
    ensures a[..k] == b[..k]
  {
    assert FromLeader(lead, a, k - 1) && FromLeader(lead, b, k - 1);
  }
}
