/**
 Every step keeps the invariants that need no hypothesis: election safety and
 the shape of logs.  Senders may have lost their leadership when they build a
 request.
 */
module ConsensusBasic {
  import opened RaftTypes
  import opened Consensus

  // ---------------------------------------------------------------------
  // Quiet changes
  // ---------------------------------------------------------------------

  /** A change of one replica that wins nothing, grants nothing and writes no entry of its own. */
  ghost predicate Quiet(s: State, i: nat, r: Replica) {
    && i < |s.replicas|
    && QuietVote(s, i, r)
    && LogOK(s.lead, r.log)
    && TermsBelow(r.log, r.term + 1)
    && r.base <= |r.log|
    && |r.matched| == |s.replicas|
  }

  ghost predicate QuietVote(s: State, i: nat, r: Replica)
    requires i < |s.replicas|
  {
    var was := s.replicas[i];
    && r.term >= was.term
    && (r.term == was.term ==> r.vote == was.vote)
    && (r.role == Candidate ==> was.role == Candidate && r.term == was.term && r.log == was.log)
    && (r.role == Candidate ==> forall v :: v in r.votes && v !in was.votes ==>
      (v, r.term) in s.grants && s.grants[(v, r.term)] == i)
    && (r.role == Leader ==> was.role == Leader && r.term == was.term && r.log == was.log)
  }

  lemma QuietElectionsQuorum(s: State, i: nat, r: Replica)
    requires Elections(s) && i < |s.replicas| && QuietVote(s, i, r)
    ensures ElectedByQuorum(Put(s, i, r))
  {
  }

  lemma QuietElectionsBind(s: State, i: nat, r: Replica)
    requires Elections(s) && i < |s.replicas| && QuietVote(s, i, r)
    ensures GrantsBind(Put(s, i, r))
  {
  }

  lemma QuietElectionsVotes(s: State, i: nat, r: Replica)
    requires Elections(s) && i < |s.replicas| && QuietVote(s, i, r)
    ensures VotesGranted(Put(s, i, r))
  {
  }

  lemma QuietElectionsLeaders(s: State, i: nat, r: Replica)
    requires LeadersWon(s) && i < |s.replicas| && QuietVote(s, i, r)
    ensures LeadersWon(Put(s, i, r))
  {
  }

  lemma QuietElections(s: State, i: nat, r: Replica)
    requires Elections(s) && i < |s.replicas| && QuietVote(s, i, r)
    ensures Elections(Put(s, i, r))
  {
    QuietElectionsQuorum(s, i, r);
    QuietElectionsBind(s, i, r);
    QuietElectionsVotes(s, i, r);
    QuietElectionsLeaders(s, i, r);
  }

  lemma QuietLogs(s: State, i: nat, r: Replica)
    requires Logs(s) && Quiet(s, i, r)
    ensures Logs(Put(s, i, r))
  {
  }

  lemma QuietBallots(s: State, i: nat, r: Replica)
    requires Ballots(s) && i < |s.replicas| && QuietVote(s, i, r)
    ensures Ballots(Put(s, i, r))
  {
  }

  lemma QuietKeeps(s: State, i: nat, r: Replica)
    requires Basic(s) && Quiet(s, i, r)
    ensures Basic(Put(s, i, r)) && Grows(s, Put(s, i, r))
  {
    QuietElections(s, i, r);
    QuietLogs(s, i, r);
    QuietBallots(s, i, r);
  }

  /** The parts of the state the invariants of this module speak about. */
  ghost predicate SameBasis(s: State, s': State) {
    s' == s.(acks := s'.acks, commits := s'.commits, applied := s'.applied)
  }

  lemma SameBasisKeeps(s: State, s': State)
    requires Basic(s) && SameBasis(s, s')
    ensures Basic(s')
  {
    SameElections(s, s');
    SameLogs(s, s');
    SameBallots(s, s');
  }

  lemma SameElections(s: State, s': State)
    requires Elections(s) && SameBasis(s, s')
    ensures Elections(s')
  {
  }

  lemma SameLogs(s: State, s': State)
    requires Logs(s) && SameBasis(s, s')
    ensures Logs(s')
  {
  }

  lemma SameBallots(s: State, s': State)
    requires Ballots(s) && SameBasis(s, s')
    ensures Ballots(s')
  {
  }

  lemma BumpKeeps(s: State, i: nat, t: nat)
    requires Basic(s) && i < |s.replicas| && t > s.replicas[i].term
    ensures Basic(Bump(s, i, t)) && Grows(s, Bump(s, i, t))
  {
    QuietKeeps(s, i, s.replicas[i].(term := t, vote := -1, role := Follower));
  }

  lemma DemoteKeeps(s: State, i: nat)
    requires Basic(s) && i < |s.replicas|
    ensures Basic(Demote(s, i)) && Grows(s, Demote(s, i))
  {
    QuietKeeps(s, i, s.replicas[i].(role := Follower));
  }

  lemma CountKeeps(s: State, i: nat, v: nat)
    requires Basic(s) && CanCount(s, i, v)
    ensures Basic(Count(s, i, v)) && Grows(s, Count(s, i, v))
  {
    QuietKeeps(s, i, s.replicas[i].(votes := s.replicas[i].votes + {v}));
  }

  lemma MatchKeeps(s: State, i: nat, p: nat, m: nat)
    requires Basic(s) && CanMatch(s, i, p, m)
    ensures Basic(Match(s, i, p, m)) && Grows(s, Match(s, i, p, m))
  {
    var r := s.replicas[i];
    QuietKeeps(s, i, r.(matched := r.matched[p := Max(m, r.matched[p])]));
  }

  lemma TrimKeeps(s: State, i: nat, k: nat)
    requires Basic(s) && CanTrim(s, i, k)
    ensures Basic(Trim(s, i, k)) && Grows(s, Trim(s, i, k))
  {
    QuietKeeps(s, i, s.replicas[i].(base := k));
  }

  lemma ResetKeeps(s: State, i: nat, matched: seq<nat>)
    requires Basic(s) && i < |s.replicas| && |matched| == |s.replicas|
    ensures Basic(Reset(s, i, matched)) && Grows(s, Reset(s, i, matched))
  {
    var r := s.replicas[i];
    QuietKeeps(s, i, r.(role := Follower, votes := {}, commit := r.base, matched := matched));
  }

  lemma AdvanceKeeps(s: State, i: nat, index: nat)
    requires Basic(s) && CanAdvance(s, i, index)
    ensures Basic(Advance(s, i, index)) && Grows(s, Advance(s, i, index))
  {
    var r := s.replicas[i].(commit := index);
    QuietKeeps(s, i, r);
    SameBasisKeeps(Put(s, i, r), Advance(s, i, index));
  }

  lemma ApplyKeeps(s: State, i: nat, k: nat)
    requires Basic(s) && CanApply(s, i, k)
    ensures Basic(ApplyAt(s, i, k)) && Grows(s, ApplyAt(s, i, k))
  {
    SameBasisKeeps(s, ApplyAt(s, i, k));
  }

  // ---------------------------------------------------------------------
  // Messages
  // ---------------------------------------------------------------------

  lemma MessagesKeep(s: State, s': State)
    requires Basic(s) && s' == s.(offers := s'.offers, snaps := s'.snaps)
    requires MessageLogs(s')
    ensures Basic(s')
  {
    assert Elections(s') by { assert ElectedByQuorum(s') && GrantsBind(s') && VotesGranted(s') && LeadersWon(s'); }
    assert Logs(s') by { assert LeadShape(s') && ReplicaLogs(s'); }
    assert Ballots(s') by { assert BallotsFair(s') && CandidatesFixed(s'); }
  }

  lemma SendOfferKeeps(s: State, i: nat)
    requires Basic(s) && i < |s.replicas|
    ensures Basic(SendOffer(s, i)) && Grows(s, SendOffer(s, i))
  {
    MessagesKeep(s, SendOffer(s, i));
  }

  lemma SendSnapKeeps(s: State, i: nat)
    requires Basic(s) && i < |s.replicas| && s.replicas[i].base <= |s.replicas[i].log|
    ensures Basic(SendSnap(s, i)) && Grows(s, SendSnap(s, i))
  {
    var r := s.replicas[i];
    LogOKPrefix(s.lead, r.log, r.log[..r.base]);
    MessagesKeep(s, SendSnap(s, i));
  }

  lemma AbsorbOK(lead: map<nat, Log>, log: Log, other: Log, t: nat)
    requires LogOK(lead, log) && TermsBelow(log, t)
    requires LogOK(lead, other) && TermsBelow(other, t)
    ensures LogOK(lead, Absorb(log, other)) && TermsBelow(Absorb(log, other), t)
  {
  }

  lemma TakeOfferKeeps(s: State, i: nat, o: Offer)
    requires Basic(s) && CanTakeOffer(s, i, o)
    ensures Basic(TakeOffer(s, i, o)) && Grows(s, TakeOffer(s, i, o))
  {
    var r := TakeOffer(s, i, o).replicas[i];
    AbsorbOK(s.lead, s.replicas[i].log, o.log, o.term + 1);
    QuietKeeps(s, i, r);
    SameBasisKeeps(Put(s, i, r), TakeOffer(s, i, o));
  }

  lemma TakeSnapKeeps(s: State, i: nat, z: Snap)
    requires Basic(s) && CanTakeSnap(s, i, z)
    ensures Basic(TakeSnap(s, i, z)) && Grows(s, TakeSnap(s, i, z))
  {
    AbsorbOK(s.lead, s.replicas[i].log, z.log, z.term + 1);
    QuietKeeps(s, i, TakeSnap(s, i, z).replicas[i]);
  }

  // ---------------------------------------------------------------------
  // Standing and voting
  // ---------------------------------------------------------------------

  lemma StandFresh(s: State, i: nat)
    requires GrantsBind(s) && BallotsFair(s) && i < |s.replicas|
    ensures (i, s.replicas[i].term + 1) !in s.grants
    ensures (i, s.replicas[i].term + 1) !in s.ballots
  {
  }

  lemma StandElectionsBind(s: State, i: nat)
    requires Elections(s) && i < |s.replicas|
    requires (i, s.replicas[i].term + 1) !in s.grants
    ensures GrantsBind(Stand(s, i))
  {
  }

  lemma StandElectionsVotes(s: State, i: nat)
    requires Elections(s) && i < |s.replicas|
    requires (i, s.replicas[i].term + 1) !in s.grants
    ensures VotesGranted(Stand(s, i))
  {
  }

  lemma StandElectionsLeaders(s: State, i: nat)
    requires LeadersWon(s) && i < |s.replicas|
    ensures LeadersWon(Stand(s, i))
  {
  }

  lemma StandElections(s: State, i: nat)
    requires Elections(s) && i < |s.replicas|
    requires (i, s.replicas[i].term + 1) !in s.grants
    ensures Elections(Stand(s, i))
  {
    StandQuorum(s, i);
    StandElectionsBind(s, i);
    StandElectionsVotes(s, i);
    StandElectionsLeaders(s, i);
  }

  lemma StandLogs(s: State, i: nat)
    requires Logs(s) && i < |s.replicas|
    ensures Logs(Stand(s, i))
  {
    var s' := Stand(s, i);
    assert LeadShape(s');
    assert ReplicaLogs(s');
  }

  lemma StandFair(s: State, i: nat)
    requires ElectedByQuorum(s) && BallotsFair(s) && i < |s.replicas|
    requires (i, s.replicas[i].term + 1) !in s.grants
    ensures ElectedByQuorum(Stand(s, i)) && BallotsFair(Stand(s, i))
  {
    StandQuorum(s, i);
    StandBallots(s, i);
  }

  lemma StandQuorum(s: State, i: nat)
    requires ElectedByQuorum(s) && i < |s.replicas| && (i, s.replicas[i].term + 1) !in s.grants
    ensures ElectedByQuorum(Stand(s, i))
  {
  }

  lemma StandBallots(s: State, i: nat)
    requires BallotsFair(s) && i < |s.replicas| && (i, s.replicas[i].term + 1) !in s.grants
    ensures BallotsFair(Stand(s, i))
  {
    var s' := Stand(s, i);
    var t := s.replicas[i].term + 1;
    assert forall k :: k in s.ballots ==> k in s'.ballots && s'.ballots[k] == s.ballots[k];
    assert forall k :: k in s'.ballots && k != (i, t) ==> k in s.ballots;
  }

  lemma StandFixed(s: State, i: nat)
    requires CandidatesFixed(s) && i < |s.replicas|
    ensures CandidatesFixed(Stand(s, i))
  {
  }

  lemma StandKeeps(s: State, i: nat)
    requires Basic(s) && i < |s.replicas|
    ensures Basic(Stand(s, i)) && Grows(s, Stand(s, i))
  {
    StandFresh(s, i);
    StandElections(s, i);
    StandLogs(s, i);
    StandFair(s, i);
    StandFixed(s, i);
  }

  lemma GrantElectionsQuorum(s: State, i: nat, a: Ask)
    requires Elections(s) && CanGrant(s, i, a) && a.cand < |s.replicas|
    requires (i, a.term) in s.grants ==> s.grants[(i, a.term)] == a.cand
    ensures ElectedByQuorum(Grant(s, i, a))
  {
  }

  lemma GrantElectionsBind(s: State, i: nat, a: Ask)
    requires Elections(s) && CanGrant(s, i, a) && a.cand < |s.replicas|
    requires (i, a.term) in s.grants ==> s.grants[(i, a.term)] == a.cand
    ensures GrantsBind(Grant(s, i, a))
  {
  }

  lemma GrantElectionsVotes(s: State, i: nat, a: Ask)
    requires Elections(s) && CanGrant(s, i, a) && a.cand < |s.replicas|
    requires (i, a.term) in s.grants ==> s.grants[(i, a.term)] == a.cand
    ensures VotesGranted(Grant(s, i, a))
  {
  }

  lemma GrantElectionsLeaders(s: State, i: nat, a: Ask)
    requires LeadersWon(s) && CanGrant(s, i, a)
    ensures LeadersWon(Grant(s, i, a))
  {
  }

  lemma GrantElections(s: State, i: nat, a: Ask)
    requires Elections(s) && CanGrant(s, i, a) && a.cand < |s.replicas|
    requires (i, a.term) in s.grants ==> s.grants[(i, a.term)] == a.cand
    ensures Elections(Grant(s, i, a))
  {
    GrantElectionsQuorum(s, i, a);
    GrantElectionsBind(s, i, a);
    GrantElectionsVotes(s, i, a);
    GrantElectionsLeaders(s, i, a);
  }

  lemma GrantLogs(s: State, i: nat, a: Ask)
    requires Logs(s) && CanGrant(s, i, a)
    ensures Logs(Grant(s, i, a))
  {
    var s' := Grant(s, i, a);
    assert LeadShape(s');
    assert ReplicaLogs(s');
  }

  lemma GrantBallotsQuorum(s: State, i: nat, a: Ask)
    requires Ballots(s) && CanGrant(s, i, a)
    requires (i, a.term) in s.grants ==> s.grants[(i, a.term)] == a.cand
    ensures ElectedByQuorum(Grant(s, i, a))
  {
  }

  lemma GrantBallotsFair(s: State, i: nat, a: Ask)
    requires Ballots(s) && CanGrant(s, i, a)
    requires (i, a.term) in s.grants ==> s.grants[(i, a.term)] == a.cand
    ensures BallotsFair(Grant(s, i, a))
  {
  }

  lemma GrantBallotsFixed(s: State, i: nat, a: Ask)
    requires Ballots(s) && CanGrant(s, i, a)
    requires (i, a.term) in s.grants ==> s.grants[(i, a.term)] == a.cand
    ensures CandidatesFixed(Grant(s, i, a))
  {
  }

  lemma GrantBallots(s: State, i: nat, a: Ask)
    requires Ballots(s) && CanGrant(s, i, a)
    requires (i, a.term) in s.grants ==> s.grants[(i, a.term)] == a.cand
    ensures Ballots(Grant(s, i, a))
  {
    GrantBallotsQuorum(s, i, a);
    GrantBallotsFair(s, i, a);
    GrantBallotsFixed(s, i, a);
  }

  lemma GrantConsistent(s: State, i: nat, a: Ask)
    requires GrantsBind(s) && CandidatesFixed(s) && CanGrant(s, i, a)
    ensures (i, a.term) in s.grants ==> s.grants[(i, a.term)] == a.cand
    ensures a.cand < |s.replicas|
  {
  }

  lemma GrantKeeps(s: State, i: nat, a: Ask)
    requires Basic(s) && CanGrant(s, i, a)
    ensures Basic(Grant(s, i, a)) && Grows(s, Grant(s, i, a))
  {
    GrantConsistent(s, i, a);
    GrantElections(s, i, a);
    GrantLogs(s, i, a);
    GrantBallots(s, i, a);
  }

  // ---------------------------------------------------------------------
  // Winning
  // ---------------------------------------------------------------------

  /** Two elections in one term would share a voter. */
  lemma WinIsFirst(s: State, i: nat)
    requires Elections(s) && CanWin(s, i)
    ensures s.replicas[i].term !in s.elect
  {
    var t := s.replicas[i].term;
    if t in s.elect {
      var v := MajoritiesMeet(|s.replicas|, s.replicas[i].votes, s.quorum[t]);
    }
  }

  lemma WinQuorum(s: State, i: nat)
    requires ElectedByQuorum(s) && VotesGranted(s) && CanWin(s, i) && s.replicas[i].term !in s.elect
    ensures ElectedByQuorum(Win(s, i))
  {
  }

  lemma WinVotes(s: State, i: nat)
    requires GrantsBind(s) && VotesGranted(s) && CanWin(s, i)
    ensures GrantsBind(Win(s, i)) && VotesGranted(Win(s, i))
  {
  }

  lemma WinLeaders(s: State, i: nat)
    requires ElectedByQuorum(s) && LeadersWon(s) && CanWin(s, i) && s.replicas[i].term !in s.elect
    ensures LeadersWon(Win(s, i))
  {
  }

  lemma WinElections(s: State, i: nat)
    requires Elections(s) && CanWin(s, i) && s.replicas[i].term !in s.elect
    ensures Elections(Win(s, i))
  {
    WinQuorum(s, i);
    WinVotes(s, i);
    WinLeaders(s, i);
  }

  lemma WinGrows(s: State, i: nat)
    requires s.winner.Keys == s.elect.Keys && s.lead.Keys == s.elect.Keys
    requires CanWin(s, i) && s.replicas[i].term !in s.elect
    ensures Grows(s, Win(s, i))
  {
  }

  lemma WinLead(s: State, i: nat)
    requires LeadShape(s) && ReplicaLogs(s) && CanWin(s, i) && s.replicas[i].term !in s.elect
    ensures LeadGrows(s.lead, Win(s, i).lead)
    ensures LeadShape(Win(s, i))
  {
    var s' := Win(s, i);
    assert LeadGrows(s.lead, s'.lead);
    forall t | t in s'.elect ensures LogOK(s'.lead, s'.lead[t]) {
      LogOKGrows(s.lead, s'.lead, s'.lead[t]);
    }
  }

  /** Logs stay well formed as leaders' logs grow. */
  lemma GrowthLogs(s: State, s': State)
    requires ReplicaLogs(s) && MessageLogs(s) && LeadGrows(s.lead, s'.lead)
    requires s'.asks == s.asks && s'.offers == s.offers && s'.snaps == s.snaps && s'.ballots == s.ballots
    requires |s'.replicas| == |s.replicas|
    ensures MessageLogs(s')
    ensures forall i :: 0 <= i < |s.replicas| ==> LogOK(s'.lead, s.replicas[i].log)
  {
    forall a | a in s.asks ensures LogOK(s'.lead, a.log) { LogOKGrows(s.lead, s'.lead, a.log); }
    forall o | o in s.offers ensures LogOK(s'.lead, o.log) { LogOKGrows(s.lead, s'.lead, o.log); }
    forall z | z in s.snaps ensures LogOK(s'.lead, z.log) { LogOKGrows(s.lead, s'.lead, z.log); }
    forall k | k in s.ballots
      ensures LogOK(s'.lead, s.ballots[k].log) && LogOK(s'.lead, s.ballots[k].candLog)
    {
      LogOKGrows(s.lead, s'.lead, s.ballots[k].log);
      LogOKGrows(s.lead, s'.lead, s.ballots[k].candLog);
    }
    forall i | 0 <= i < |s.replicas| ensures LogOK(s'.lead, s.replicas[i].log) {
      LogOKGrows(s.lead, s'.lead, s.replicas[i].log);
    }
  }

  lemma WinLogs(s: State, i: nat)
    requires Logs(s) && CanWin(s, i) && s.replicas[i].term !in s.elect
    ensures Logs(Win(s, i))
  {
    WinLead(s, i);
    GrowthLogs(s, Win(s, i));
  }

  lemma WinBallots(s: State, i: nat)
    requires Ballots(s) && VotesGranted(s) && CanWin(s, i) && s.replicas[i].term !in s.elect
    requires ElectedByQuorum(Win(s, i))
    ensures Ballots(Win(s, i))
  {
    var s' := Win(s, i);
    assert CandidatesFixed(s');
  }

  lemma WinKeeps(s: State, i: nat)
    requires Basic(s) && CanWin(s, i)
    ensures Basic(Win(s, i)) && Grows(s, Win(s, i))
  {
    WinIsFirst(s, i);
    WinElections(s, i);
    WinLogs(s, i);
    WinBallots(s, i);
    WinGrows(s, i);
  }

  // ---------------------------------------------------------------------
  // Appending
  // ---------------------------------------------------------------------

  lemma ExtendQuorum(s: State, i: nat, c: Command)
    requires ElectedByQuorum(s) && CanExtend(s, i) && s.replicas[i].term in s.lead
    ensures ElectedByQuorum(Extend(s, i, c))
  {
  }

  lemma ExtendVotes(s: State, i: nat, c: Command)
    requires GrantsBind(s) && VotesGranted(s) && CanExtend(s, i)
    ensures GrantsBind(Extend(s, i, c)) && VotesGranted(Extend(s, i, c))
  {
  }

  lemma ExtendLeaders(s: State, i: nat, c: Command)
    requires LeadersWon(s) && CanExtend(s, i)
    ensures LeadersWon(Extend(s, i, c))
  {
  }

  lemma ExtendElections(s: State, i: nat, c: Command)
    requires Elections(s) && CanExtend(s, i)
    ensures Elections(Extend(s, i, c))
  {
    ExtendQuorum(s, i, c);
    ExtendVotes(s, i, c);
    ExtendLeaders(s, i, c);
  }

  lemma ExtendGrows(s: State, i: nat, c: Command)
    requires CanExtend(s, i)
    requires s.replicas[i].term in s.lead && s.lead[s.replicas[i].term] == s.replicas[i].log
    ensures Grows(s, Extend(s, i, c))
  {
  }

  lemma ExtendLead(s: State, i: nat, c: Command)
    requires LeadShape(s) && CanExtend(s, i)
    requires s.replicas[i].term in s.lead && s.lead[s.replicas[i].term] == s.replicas[i].log
    ensures LeadGrows(s.lead, Extend(s, i, c).lead)
    ensures LeadShape(Extend(s, i, c))
    ensures LogOK(Extend(s, i, c).lead, Extend(s, i, c).replicas[i].log)
  {
    var s' := Extend(s, i, c);
    var t0 := s.replicas[i].term;
    assert LeadGrows(s.lead, s'.lead);
    assert LogOK(s'.lead, s'.lead[t0]) by {
      LogOKGrows(s.lead, s'.lead, s.lead[t0]);
      forall j | 0 <= j < |s'.lead[t0]|
        ensures FromLeader(s'.lead, s'.lead[t0], j)
      {
        if j < |s.lead[t0]| {
          assert FromLeader(s.lead, s.lead[t0], j);
          assert s'.lead[t0][..j + 1] == s.lead[t0][..j + 1];
        }
      }
    }
    forall t | t in s'.elect ensures LogOK(s'.lead, s'.lead[t]) {
      if t != t0 { LogOKGrows(s.lead, s'.lead, s'.lead[t]); }
    }
  }

  lemma ExtendLogs(s: State, i: nat, c: Command)
    requires Logs(s) && CanExtend(s, i)
    requires s.replicas[i].term in s.lead && s.lead[s.replicas[i].term] == s.replicas[i].log
    ensures Logs(Extend(s, i, c))
  {
    ExtendLead(s, i, c);
    GrowthLogs(s, Extend(s, i, c));
  }

  lemma ExtendBallots(s: State, i: nat, c: Command)
    requires Ballots(s) && CanExtend(s, i)
    requires ElectedByQuorum(Extend(s, i, c))
    ensures Ballots(Extend(s, i, c))
  {
    ExtendFair(s, i, c);
    ExtendFixed(s, i, c);
  }

  lemma ExtendFair(s: State, i: nat, c: Command)
    requires BallotsFair(s) && CanExtend(s, i)
    ensures BallotsFair(Extend(s, i, c))
  {
  }

  lemma ExtendFixed(s: State, i: nat, c: Command)
    requires CandidatesFixed(s) && CanExtend(s, i)
    ensures CandidatesFixed(Extend(s, i, c))
  {
  }

  lemma ExtendKeeps(s: State, i: nat, c: Command)
    requires Basic(s) && CanExtend(s, i)
    ensures Basic(Extend(s, i, c)) && Grows(s, Extend(s, i, c))
  {
    ExtendElections(s, i, c);
    ExtendLogs(s, i, c);
    ExtendBallots(s, i, c);
    ExtendGrows(s, i, c);
  }
}
