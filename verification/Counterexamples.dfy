/**
 Both hypotheses of State Machine Safety are needed: for each there is a run
 that meets the other one and in which two peers hand different commands to
 their services at the same index.
 */
module Counterexamples {
  import opened Options
  import opened Collections
  import opened RaftTypes
  import opened RaftPeer
  import opened RaftPeerFacts
  import opened Simulation
  import opened RaftTheorems
  import C = Cluster

  /** Every append request was built by a peer that still led. */
  ghost predicate SendersLead(n: nat, steps: seq<C.Step>) {
    forall k :: 0 <= k < |steps| ==> SenderLeads(C.After(n, steps[..k]), steps[k])
  }

  /** No peer won an election believing another to match beyond its own log. */
  ghost predicate WinnersWithinLog(n: nat, steps: seq<C.Step>) {
    forall k :: 0 <= k < |steps| ==> WinnerWithinLog(C.After(n, steps[..k]), steps[k])
  }

  /** The two hypotheses together are those of State Machine Safety. */
  lemma OrderlyIsBoth(n: nat, steps: seq<C.Step>)
    ensures Orderly(n, steps) <==> SendersLead(n, steps) && WinnersWithinLog(n, steps)
  {
    if SendersLead(n, steps) && WinnersWithinLog(n, steps) {
      forall k | 0 <= k < |steps| ensures OrderlyStep(C.After(n, steps[..k]), steps[k]) {
      }
    }
    if Orderly(n, steps) {
      assert forall k :: 0 <= k < |steps| ==> OrderlyStep(C.After(n, steps[..k]), steps[k]);
    }
  }

  // ---------------------------------------------------------------------
  // Runs of five peers that meet one of the hypotheses
  // ---------------------------------------------------------------------

  ghost predicate MeetsFor(steps: seq<C.Step>, senders: bool, key: int) {
    if senders then SendersLead(5, steps) else WinnersWithinLog(5, steps)
  }

  /** The run meets the hypothesis on senders, or else the one on winners. */
  ghost predicate Meets(steps: seq<C.Step>, senders: bool) {
    forall key :: MeetsFor(steps, senders, key)
  }

  ghost predicate StepMeets(c: C.Cluster, step: C.Step, senders: bool) {
    if senders then SenderLeads(c, step) else WinnerWithinLog(c, step)
  }

  /** `c` is the cluster after `steps`. */
  ghost predicate At(steps: seq<C.Step>, c: C.Cluster) {
    c == C.After(5, steps)
  }

  lemma AddStep(steps: seq<C.Step>, c: C.Cluster, step: C.Step, senders: bool)
    requires At(steps, c) && Meets(steps, senders) && StepMeets(c, step, senders)
    ensures C.WFCluster(c) && |c.servers| == 5
    ensures At(steps + [step], C.Next(c, step)) && Meets(steps + [step], senders)
  {
    C.AfterWF(5, steps);
    var all := steps + [step];
    assert all[..|steps|] == steps;
    assert MeetsFor(steps, senders, 0);
    assert MeetsFor(all, senders, 0) by {
      forall k | 0 <= k < |all| ensures StepMeets(C.After(5, all[..k]), all[k], senders) {
        if k < |steps| {
          assert all[..k] == steps[..k] && all[k] == steps[k];
        }
      }
    }
  }

  // ---------------------------------------------------------------------
  // Peers without snapshots, in brief
  // ---------------------------------------------------------------------

  datatype Brief = Brief(term: nat, vote: int, role: Role, log: Log, commit: nat, next: seq<nat>, matched: seq<nat>,
                         sent: seq<ApplyMsg>)

  ghost predicate Shows(x: Server, b: Brief) {
    && x.currTerm == b.term
    && x.votedFor == b.vote
    && x.role == b.role
    && x.logs == [LogEntry(0, Nil)] + b.log
    && x.lastIncludedIndex == 0
    && x.commitIndex == b.commit
    && x.nextIndex == b.next
    && x.matchIndex == b.matched
    && x.applyCh == b.sent
  }

  ghost predicate Shown(c: C.Cluster, bs: seq<Brief>) {
    |c.servers| == |bs| == 5 && forall i :: 0 <= i < 5 ==> Shows(c.servers[i], bs[i])
  }

  ghost predicate ReachedFor(steps: seq<C.Step>, c: C.Cluster, bs: seq<Brief>, senders: bool, key: int) {
    At(steps, c) && Meets(steps, senders) && Shown(c, bs)
  }

  /** A run that meets a hypothesis, and how its peers look at the end. */
  ghost predicate Reached(steps: seq<C.Step>, c: C.Cluster, bs: seq<Brief>, senders: bool) {
    |c.servers| == |bs| == 5 && forall key :: ReachedFor(steps, c, bs, senders, key)
  }

  lemma ShowsFacts(x: Server, b: Brief)
    requires Offset(x) && Shows(x, b)
    ensures Full(x) == b.log && LastLogicalIndex(x) == |b.log| && |x.logs| == |b.log| + 1
    ensures x.logs[|x.logs| - 1].term == LastTerm(b.log)
  {
    assert x.logs[1..] == b.log;
    assert x.snapshot == [];
  }

  // ---------------------------------------------------------------------
  // What each step does to one peer
  // ---------------------------------------------------------------------

  predicate Grants(b: Brief, args: RequestVoteArgs) {
    args.lastLogTerm > LastTerm(b.log) || (args.lastLogTerm == LastTerm(b.log) && args.lastLogIndex >= |b.log|)
  }

  function Voter(b: Brief, args: RequestVoteArgs): Brief {
    b.(term := args.term, vote := if Grants(b, args) then args.candidateId else -1, role := Follower)
  }

  lemma VoteOnce(x: Server, b: Brief, args: RequestVoteArgs)
    requires WF(x) && Shows(x, b) && b.term < args.term
    ensures Shows(RequestVote(x, args).0, Voter(b, args))
    ensures RequestVote(x, args).1 == RequestVoteReply(args.term, Grants(b, args))
  {
    ShowsFacts(x, b);
  }

  /** The log a follower is left with when the first entry it is sent is new to it. */
  function Merged(b: Brief, args: AppendEntriesArgs): Brief
    requires args.prevLogIndex <= |b.log|
  {
    var log := b.log[..args.prevLogIndex] + args.entries;
    b.(term := args.term, vote := if args.term > b.term then -1 else b.vote, role := Follower, log := log,
    commit := if args.leaderCommit > b.commit then Min(args.leaderCommit, |log|) else b.commit)
  }

  ghost predicate NewEntries(b: Brief, args: AppendEntriesArgs) {
    && b.term <= args.term
    && args.prevLogIndex <= |b.log|
    && args.prevLogTerm == TermAt(b.log, args.prevLogIndex)
    && |args.entries| > 0
    && (args.prevLogIndex < |b.log| ==> b.log[args.prevLogIndex].term != args.entries[0].term)
  }

  lemma MergeNew(logs: Log, log: Log, k: nat, entries: Log)
    requires logs == [LogEntry(0, Nil)] + log && k <= |log| && |entries| > 0
    requires k < |log| ==> log[k].term != entries[0].term
    ensures Merge(logs, k + 1, entries) == [LogEntry(0, Nil)] + (log[..k] + entries)
  {
    assert k < |log| ==> logs[k + 1] == log[k];
    assert logs[..k + 1] == [LogEntry(0, Nil)] + log[..k];
    if k == |log| { assert logs == logs[..k + 1]; }
  }

  lemma AcceptNew(x: Server, b: Brief, args: AppendEntriesArgs)
    requires WF(x) && Shows(x, b) && NewEntries(b, args)
    ensures Shows(AppendEntries(x, args).0, Merged(b, args))
    ensures AppendEntries(x, args).1 == AppendEntriesReply(true, 0, 0, 0)
  {
    MergeNew(x.logs, b.log, args.prevLogIndex, args.entries);
    assert x.logs[args.prevLogIndex].term == TermAt(b.log, args.prevLogIndex);
  }

  function Request(b: Brief, l: nat, f: nat): AppendEntriesArgs
    requires f < |b.next| && 1 <= b.next[f] <= |b.log| + 1
  {
    AppendEntriesArgs(b.term, l, b.next[f] - 1, TermAt(b.log, b.next[f] - 1), b.log[b.next[f] - 1..], b.commit)
  }

  lemma RequestBuilt(x: Server, b: Brief, f: nat)
    requires WF(x) && Shows(x, b) && f < |b.next| && 1 <= b.next[f] <= |b.log| + 1
    ensures CanBuildAppend(x, f) && BuildAppend(x, f) == Request(b, x.me, f)
  {
    ShowsFacts(x, b);
    var k := b.next[f];
    assert x.logs[k..] == b.log[k - 1..];
    assert x.logs[k - 1].term == TermAt(b.log, k - 1);
  }

  const ACCEPTED := AppendEntriesReply(true, 0, 0, 0)

  function Informed(b: Brief, f: nat, args: AppendEntriesArgs, c: nat): Brief
    requires f < |b.matched| && f < |b.next|
  {
    var m := Max(args.prevLogIndex + |args.entries|, b.matched[f]);
    b.(commit := c, matched := b.matched[f := m], next := b.next[f := m + 1])
  }

  lemma LastCommitted(x: Server)
    requires WF(x) && Committable(x, LastLogicalIndex(x))
    ensures LastLogicalIndex(x) <= CommitTarget(x, LastLogicalIndex(x))
  {
  }

  /** A leader that hears of an acceptance commits its last entry if enough peers seem to hold it. */
  lemma AckHeard(x: Server, b: Brief, f: nat, args: AppendEntriesArgs) returns (c: nat)
    requires WF(x) && Shows(x, b) && f < x.peers && x.peers == 5 && b.role == Leader && b.term == args.term
    ensures Shows(HandleAppendReply(x, f, args, ACCEPTED), Informed(b, f, args, c))
    ensures LastTerm(b.log) == b.term && |HoldersBelow(x.me, Informed(b, f, args, c).matched, |b.log|, 5)| > 2 ==>
      |b.log| <= c
  {
    c := MatchHeard(x, b, f, args.prevLogIndex + |args.entries|);
  }

  lemma MatchHeard(x: Server, b: Brief, f: nat, len: nat) returns (c: nat)
    requires WF(x) && Shows(x, b) && f < x.peers && x.peers == 5
    ensures var m := Max(len, b.matched[f]);
      && Shows(RecordMatch(x, f, len), b.(commit := c, matched := b.matched[f := m], next := b.next[f := m + 1]))
      && (LastTerm(b.log) == b.term && |HoldersBelow(x.me, b.matched[f := m], |b.log|, 5)| > 2 ==> |b.log| <= c)
  {
    ShowsFacts(x, b);
    var m := Max(len, x.matchIndex[f]);
    var x1 := SetNext(x.(matchIndex := x.matchIndex[f := m]), f, m + 1);
    c := CommitTarget(x1, LastLogicalIndex(x1));
    if LastTerm(b.log) == b.term && |HoldersBelow(x.me, x1.matchIndex, |b.log|, 5)| > 2 {
      LastCommitted(x1);
    }
  }

  // ---------------------------------------------------------------------
  // Single steps of the cluster
  // ---------------------------------------------------------------------

  /** One peer changes, and messages are only added. */
  ghost predicate Moves(c: C.Cluster, c': C.Cluster, i: nat, x: Server) {
    i < |c.servers| && c'.servers == c.servers[i := x] && c.net <= c'.net
  }

  lemma ShownAfter(c: C.Cluster, c': C.Cluster, bs: seq<Brief>, i: nat, x: Server, b: Brief)
    requires Shown(c, bs) && Moves(c, c', i, x) && Shows(x, b)
    ensures Shown(c', bs[i := b])
  {
  }

  function Ballot(b: Brief, i: nat): RequestVoteArgs {
    RequestVoteArgs(b.term, i, |b.log|, LastTerm(b.log))
  }

  function Standing(b: Brief, i: nat): Brief {
    b.(term := b.term + 1, vote := i, role := Candidate)
  }

  /** A peer stands for election. */
  lemma StepElect(steps: seq<C.Step>, c: C.Cluster, bs: seq<Brief>, senders: bool, i: nat)
    returns (steps': seq<C.Step>, c': C.Cluster)
    requires Reached(steps, c, bs, senders) && i < 5
    ensures Reached(steps', c', bs[i := Standing(bs[i], i)], senders) && c.net <= c'.net
    ensures c'.servers[i].votes == {i}
    ensures forall v :: 0 <= v < 5 && v != i ==> C.VoteRequest(i, v, Ballot(Standing(bs[i], i), i), bs[i].log) in c'.net
  {
    assert ReachedFor(steps, c, bs, senders, 0);
    var step := C.Elect(i);
    AddStep(steps, c, step, senders);
    steps', c' := steps + [step], C.Next(c, step);
    var x := StartElection(c.servers[i]);
    StartElectionFacts(c.servers[i]);
    ShownAfter(c, c', bs, i, x, Standing(bs[i], i));
    RequestsSent(x, Standing(bs[i], i));
  }

  lemma RequestsSent(x: Server, b: Brief)
    requires WF(x) && Shows(x, b) && x.peers == 5
    ensures forall v :: 0 <= v < 5 && v != x.me ==> C.VoteRequest(x.me, v, Ballot(b, x.me), b.log) in C.VoteRequests(x)
  {
    ShowsFacts(x, b);
    forall v | 0 <= v < 5 && v != x.me ensures C.VoteRequest(x.me, v, Ballot(b, x.me), b.log) in C.VoteRequests(x) {
      assert v in Below(5);
    }
  }

  /** A vote request reaches a peer of an earlier term. */
  lemma StepVote(steps: seq<C.Step>, c: C.Cluster, bs: seq<Brief>, senders: bool,
                 i: nat, v: nat, args: RequestVoteArgs, log: Log)
    returns (steps': seq<C.Step>, c': C.Cluster)
    requires Reached(steps, c, bs, senders) && i < 5 && v < 5 && i != v
    requires C.VoteRequest(i, v, args, log) in c.net && bs[v].term < args.term
    ensures Reached(steps', c', bs[v := Voter(bs[v], args)], senders) && c.net <= c'.net
    ensures C.VoteReply(v, i, args.term, RequestVoteReply(args.term, Grants(bs[v], args))) in c'.net
    ensures c'.servers[i] == c.servers[i]
  {
    assert ReachedFor(steps, c, bs, senders, 0);
    var step := C.Deliver(C.VoteRequest(i, v, args, log));
    AddStep(steps, c, step, senders);
    steps', c' := steps + [step], C.Next(c, step);
    VoteOnce(c.servers[v], bs[v], args);
    ShownAfter(c, c', bs, v, RequestVote(c.servers[v], args).0, Voter(bs[v], args));
  }

  /** A granted vote reaches its candidate. */
  lemma StepCount(steps: seq<C.Step>, c: C.Cluster, bs: seq<Brief>, senders: bool, i: nat, v: nat)
    returns (steps': seq<C.Step>, c': C.Cluster)
    requires Reached(steps, c, bs, senders) && i < 5 && v < 5 && bs[i].role == Candidate
    requires C.VoteReply(v, i, bs[i].term, RequestVoteReply(bs[i].term, true)) in c.net
    ensures Reached(steps', c', bs, senders) && c.net <= c'.net
    ensures c'.servers[i].votes == c.servers[i].votes + {v}
    ensures |c'.servers[i].votes| > 2 ==> bs[i].term in c'.servers[i].elected
  {
    assert ReachedFor(steps, c, bs, senders, 0);
    var reply := RequestVoteReply(bs[i].term, true);
    var step := C.Deliver(C.VoteReply(v, i, bs[i].term, reply));
    AddStep(steps, c, step, senders);
    steps', c' := steps + [step], C.Next(c, step);
    ShownAfter(c, c', bs, i, HandleVoteReply(c.servers[i], v, bs[i].term, reply), bs[i]);
    assert bs[i := bs[i]] == bs;
  }

  function Winner(b: Brief, i: nat): Brief
    requires |b.next| == 5
  {
    b.(role := Leader, next := seq(5, p requires 0 <= p < 5 => if p == i then b.next[p] else |b.log| + 1))
  }

  /** A candidate with enough votes becomes leader. */
  lemma StepWin(steps: seq<C.Step>, c: C.Cluster, bs: seq<Brief>, senders: bool, i: nat)
    returns (steps': seq<C.Step>, c': C.Cluster)
    requires Reached(steps, c, bs, senders) && i < 5 && bs[i].role == Candidate && |bs[i].next| == |bs[i].matched| == 5
    requires bs[i].term in c.servers[i].elected
    requires senders || forall p :: 0 <= p < 5 && p != i ==> bs[i].matched[p] <= |bs[i].log|
    ensures Reached(steps', c', bs[i := Winner(bs[i], i)], senders) && c.net <= c'.net
  {
    assert ReachedFor(steps, c, bs, senders, 0);
    var step := C.Win(i, bs[i].term);
    var x := c.servers[i];
    C.AfterWF(5, steps);
    ShowsFacts(x, bs[i]);
    AddStep(steps, c, step, senders);
    steps', c' := steps + [step], C.Next(c, step);
    var y := BecomeLeader(x.(elected := x.elected - {bs[i].term}), bs[i].term);
    assert y.nextIndex == Winner(bs[i], i).next;
    ShownAfter(c, c', bs, i, y, Winner(bs[i], i));
  }

  function Longer(b: Brief, command: Command): Brief {
    b.(log := b.log + [LogEntry(b.term, command)])
  }

  /** A leader takes a command. */
  lemma StepStart(steps: seq<C.Step>, c: C.Cluster, bs: seq<Brief>, senders: bool, i: nat, command: Command)
    returns (steps': seq<C.Step>, c': C.Cluster)
    requires Reached(steps, c, bs, senders) && i < 5 && bs[i].role == Leader
    ensures Reached(steps', c', bs[i := Longer(bs[i], command)], senders) && c.net <= c'.net
  {
    assert ReachedFor(steps, c, bs, senders, 0);
    var step := C.ClientStart(i, command);
    AddStep(steps, c, step, senders);
    steps', c' := steps + [step], C.Next(c, step);
    var y := Start(c.servers[i], command);
    assert y.logs == [LogEntry(0, Nil)] + Longer(bs[i], command).log;
    ShownAfter(c, c', bs, i, y, Longer(bs[i], command));
  }

  /** A peer builds an append request. */
  lemma StepSend(steps: seq<C.Step>, c: C.Cluster, bs: seq<Brief>, senders: bool, l: nat, f: nat)
    returns (steps': seq<C.Step>, c': C.Cluster)
    requires Reached(steps, c, bs, senders) && l < 5 && f < 5 && l != f
    requires |bs[l].next| == 5 && 1 <= bs[l].next[f] <= |bs[l].log| + 1
    requires senders ==> bs[l].role == Leader
    ensures Reached(steps', c', bs, senders) && c.net <= c'.net
    ensures C.AppendRequest(l, f, Request(bs[l], l, f), bs[l].log) in c'.net
  {
    assert ReachedFor(steps, c, bs, senders, 0);
    var step := C.SendAppend(l, f);
    AddStep(steps, c, step, senders);
    steps', c' := steps + [step], C.Next(c, step);
    RequestSent(c, bs[l], l, f);
  }

  lemma RequestSent(c: C.Cluster, b: Brief, l: nat, f: nat)
    requires C.WFCluster(c) && |c.servers| == 5 && l < 5 && f < 5 && l != f && Shows(c.servers[l], b)
    requires f < |b.next| && 1 <= b.next[f] <= |b.log| + 1
    ensures var c' := C.Next(c, C.SendAppend(l, f));
      c'.servers == c.servers && c'.net == c.net + {C.AppendRequest(l, f, Request(b, l, f), b.log)}
  {
    RequestBuilt(c.servers[l], b, f);
    ShowsFacts(c.servers[l], b);
    AppendSent(c, l, f, Request(b, l, f), b.log);
  }

  lemma AppendSent(c: C.Cluster, l: nat, f: nat, args: AppendEntriesArgs, log: Log)
    requires C.WFCluster(c) && l < |c.servers| && f < |c.servers| && l != f && CanBuildAppend(c.servers[l], f)
    requires BuildAppend(c.servers[l], f) == args && Full(c.servers[l]) == log
    ensures var c' := C.Next(c, C.SendAppend(l, f));
      c'.servers == c.servers && c'.net == c.net + {C.AppendRequest(l, f, args, log)}
  {
  }

  /** A follower accepts an append request. */
  lemma StepAccept(steps: seq<C.Step>, c: C.Cluster, bs: seq<Brief>, senders: bool,
                   l: nat, f: nat, args: AppendEntriesArgs, log: Log)
    returns (steps': seq<C.Step>, c': C.Cluster)
    requires Reached(steps, c, bs, senders) && l < 5 && f < 5 && NewEntries(bs[f], args)
    requires C.AppendRequest(l, f, args, log) in c.net
    ensures Reached(steps', c', bs[f := Merged(bs[f], args)], senders) && c.net <= c'.net
    ensures C.AppendReply(f, l, args, ACCEPTED) in c'.net
  {
    assert ReachedFor(steps, c, bs, senders, 0);
    var step := C.Deliver(C.AppendRequest(l, f, args, log));
    AddStep(steps, c, step, senders);
    steps', c' := steps + [step], C.Next(c, step);
    AcceptNew(c.servers[f], bs[f], args);
    ShownAfter(c, c', bs, f, AppendEntries(c.servers[f], args).0, Merged(bs[f], args));
  }

  /** A leader hears that a follower accepted. */
  lemma StepAck(steps: seq<C.Step>, c: C.Cluster, bs: seq<Brief>, senders: bool, l: nat, f: nat, args: AppendEntriesArgs)
    returns (steps': seq<C.Step>, c': C.Cluster, k: nat)
    requires Reached(steps, c, bs, senders) && l < 5 && f < 5 && |bs[l].matched| == |bs[l].next| == 5
    requires bs[l].role == Leader && bs[l].term == args.term
    requires C.AppendReply(f, l, args, ACCEPTED) in c.net
    ensures Reached(steps', c', bs[l := Informed(bs[l], f, args, k)], senders) && c.net <= c'.net
    ensures LastTerm(bs[l].log) == bs[l].term ==>
      |HoldersBelow(l, Informed(bs[l], f, args, k).matched, |bs[l].log|, 5)| > 2 ==> |bs[l].log| <= k
  {
    assert ReachedFor(steps, c, bs, senders, 0);
    var step := C.Deliver(C.AppendReply(f, l, args, ACCEPTED));
    AddStep(steps, c, step, senders);
    steps', c' := steps + [step], C.Next(c, step);
    k := AckHeard(c.servers[l], bs[l], f, args);
    ShownAfter(c, c', bs, l, HandleAppendReply(c.servers[l], f, args, ACCEPTED), Informed(bs[l], f, args, k));
  }

  function Fed(b: Brief, k: nat): Brief
    requires k < |b.log|
  {
    b.(sent := b.sent + [CommandMsg(b.log[k].command, k + 1)])
  }

  lemma FeedOnce(x: Server, b: Brief, k: nat)
    requires WF(x) && Shows(x, b) && Level(b.sent) == k < b.commit && k < |b.log|
    ensures Shows(SendApplyMsg(x), Fed(b, k))
  {
    ShowsFacts(x, b);
    assert StreamFor(x.applyCh, x.lastApplied, 0);
    assert x.logs[k + 1] == b.log[k];
  }

  /** A peer hands its next committed command to its service. */
  lemma StepFeed(steps: seq<C.Step>, c: C.Cluster, bs: seq<Brief>, senders: bool, i: nat, k: nat)
    returns (steps': seq<C.Step>, c': C.Cluster)
    requires Reached(steps, c, bs, senders) && i < 5 && Level(bs[i].sent) == k < bs[i].commit && k < |bs[i].log|
    ensures Reached(steps', c', bs[i := Fed(bs[i], k)], senders) && c.net <= c'.net
  {
    assert ReachedFor(steps, c, bs, senders, 0);
    var step := C.FeedService(i);
    AddStep(steps, c, step, senders);
    steps', c' := steps + [step], C.Next(c, step);
    FeedOnce(c.servers[i], bs[i], k);
    ShownAfter(c, c', bs, i, SendApplyMsg(c.servers[i]), Fed(bs[i], k));
  }

  // ---------------------------------------------------------------------
  // Elections and replication as a whole
  // ---------------------------------------------------------------------

  ghost predicate Votes(bs: seq<Brief>, i: nat, v: nat) {
    |bs| == 5 && i < 5 && v < 5 && i != v && bs[v].term <= bs[i].term && Grants(bs[v], Ballot(Standing(bs[i], i), i))
  }

  /** A peer stands and two others grant it their votes. */
  lemma RunCampaign(steps: seq<C.Step>, c: C.Cluster, bs: seq<Brief>, senders: bool, i: nat, v: nat, w: nat)
    returns (steps': seq<C.Step>, c': C.Cluster, bs': seq<Brief>)
    requires Reached(steps, c, bs, senders) && Votes(bs, i, v) && Votes(bs, i, w) && v != w
    ensures var args := Ballot(Standing(bs[i], i), i);
      && bs' == bs[i := Standing(bs[i], i)][v := Voter(bs[v], args)][w := Voter(bs[w], args)]
      && C.VoteReply(v, i, args.term, RequestVoteReply(args.term, true)) in c'.net
      && C.VoteReply(w, i, args.term, RequestVoteReply(args.term, true)) in c'.net
    ensures Reached(steps', c', bs', senders) && c'.servers[i].votes == {i}
    ensures forall u :: 0 <= u < 5 && u != i ==> C.VoteRequest(i, u, Ballot(Standing(bs[i], i), i), bs[i].log) in c'.net
  {
    var args := Ballot(Standing(bs[i], i), i);
    var bs1 := bs[i := Standing(bs[i], i)];
    var st1, c1 := StepElect(steps, c, bs, senders, i);
    var st2, c2 := StepVote(st1, c1, bs1, senders, i, v, args, bs[i].log);
    steps', c' := StepVote(st2, c2, bs1[v := Voter(bs[v], args)], senders, i, w, args, bs[i].log);
    bs' := bs1[v := Voter(bs[v], args)][w := Voter(bs[w], args)];
  }

  /** A peer is elected by two others. */
  lemma RunElection(steps: seq<C.Step>, c: C.Cluster, bs: seq<Brief>, senders: bool, i: nat, v: nat, w: nat)
    returns (steps': seq<C.Step>, c': C.Cluster, bs': seq<Brief>)
    requires Reached(steps, c, bs, senders) && Votes(bs, i, v) && Votes(bs, i, w) && v != w
    requires |bs[i].next| == |bs[i].matched| == 5
    requires senders || forall p :: 0 <= p < 5 && p != i ==> bs[i].matched[p] <= |bs[i].log|
    ensures var args := Ballot(Standing(bs[i], i), i);
      bs' == bs[v := Voter(bs[v], args)][w := Voter(bs[w], args)][i := Winner(Standing(bs[i], i), i)]
    ensures Reached(steps', c', bs', senders)
    ensures forall u :: 0 <= u < 5 && u != i ==> C.VoteRequest(i, u, Ballot(Standing(bs[i], i), i), bs[i].log) in c'.net
  {
    var st1, c1, bs1 := RunCampaign(steps, c, bs, senders, i, v, w);
    var st2, c2 := StepCount(st1, c1, bs1, senders, i, v);
    var st3, c3 := StepCount(st2, c2, bs1, senders, i, w);
    assert c3.servers[i].votes == {i, v, w};
    steps', c' := StepWin(st3, c3, bs1, senders, i);
    bs' := bs1[i := Winner(Standing(bs[i], i), i)];
  }

  ghost predicate Replicable(bs: seq<Brief>, l: nat, f: nat) {
    && |bs| == 5 && l < 5 && f < 5 && l != f
    && |bs[l].next| == |bs[l].matched| == 5 && 1 <= bs[l].next[f] <= |bs[l].log| + 1
    && NewEntries(bs[f], Request(bs[l], l, f))
  }

  /** A peer's request is accepted; the reply is still on its way. */
  lemma RunAppend(steps: seq<C.Step>, c: C.Cluster, bs: seq<Brief>, senders: bool, l: nat, f: nat)
    returns (steps': seq<C.Step>, c': C.Cluster, bs': seq<Brief>)
    requires Reached(steps, c, bs, senders) && Replicable(bs, l, f) && (senders ==> bs[l].role == Leader)
    ensures bs' == bs[f := Merged(bs[f], Request(bs[l], l, f))]
    ensures Reached(steps', c', bs', senders)
    ensures C.AppendReply(f, l, Request(bs[l], l, f), ACCEPTED) in c'.net
  {
    var st1, c1 := StepSend(steps, c, bs, senders, l, f);
    steps', c' := StepAccept(st1, c1, bs, senders, l, f, Request(bs[l], l, f), bs[l].log);
    bs' := bs[f := Merged(bs[f], Request(bs[l], l, f))];
  }

  /** A leader's request is accepted and the leader hears of it. */
  lemma RunReplicate(steps: seq<C.Step>, c: C.Cluster, bs: seq<Brief>, senders: bool, l: nat, f: nat)
    returns (steps': seq<C.Step>, c': C.Cluster, bs': seq<Brief>, k: nat)
    requires Reached(steps, c, bs, senders) && Replicable(bs, l, f) && bs[l].role == Leader
    ensures bs' == bs[f := Merged(bs[f], Request(bs[l], l, f))][l := Informed(bs[l], f, Request(bs[l], l, f), k)]
    ensures Reached(steps', c', bs', senders)
    ensures LastTerm(bs[l].log) == bs[l].term ==>
      |HoldersBelow(l, bs'[l].matched, |bs[l].log|, 5)| > 2 ==> |bs[l].log| <= k
  {
    var st1, c1, bs1 := RunAppend(steps, c, bs, senders, l, f);
    steps', c', k := StepAck(st1, c1, bs1, senders, l, f, Request(bs[l], l, f));
    bs' := bs1[l := Informed(bs[l], f, Request(bs[l], l, f), k)];
  }

  lemma ThreeHolders(l: nat, matched: seq<nat>, index: nat, p: nat, q: nat)
    requires |matched| == 5 && l < 5 && p < 5 && q < 5 && l != p && l != q && p != q
    requires matched[p] >= index && matched[q] >= index
    ensures |HoldersBelow(l, matched, index, 5)| > 2
  {
    assert {l, p, q} <= HoldersBelow(l, matched, index, 5);
    SubsetSize({l, p, q}, HoldersBelow(l, matched, index, 5));
  }

  // ---------------------------------------------------------------------
  // The start
  // ---------------------------------------------------------------------

  const FRESH := Brief(0, -1, Follower, [], 0, [0, 0, 0, 0, 0], [0, 0, 0, 0, 0], [])

  lemma RunStarts(senders: bool) returns (c: C.Cluster)
    ensures Reached([], c, [FRESH, FRESH, FRESH, FRESH, FRESH], senders)
  {
    c := C.After(5, []);
    assert MeetsFor([], senders, 0);
    forall i | 0 <= i < 5 ensures Shows(c.servers[i], FRESH) {
      assert c.servers[i] == Make(i, 5, None, []);
      assert c.servers[i].nextIndex == [0, 0, 0, 0, 0];
    }
  }

  /** Distinct commands. */
  function Req(id: int): Command {
    Cmd(Op("Put", "k", "v", id, 0))
  }

  lemma NextAfterWin(b: Brief, i: nat)
    requires |b.next| == 5 && i < 5
    ensures |Winner(b, i).next| == 5
    ensures forall p :: 0 <= p < 5 && p != i ==> Winner(b, i).next[p] == |b.log| + 1
  {
  }

  // ---------------------------------------------------------------------
  // A request built after its sender lost the leadership
  // ---------------------------------------------------------------------

  const NONE: seq<nat> := [0, 0, 0, 0, 0]

  /** Peer 2 leads term 1 and appends command 2; peer 0 then leads term 2, and peer 2 learns of it. */
  lemma LateSenderOpens() returns (steps: seq<C.Step>, c: C.Cluster, bs: seq<Brief>)
    ensures Reached(steps, c, bs, false)
    ensures |bs[0].next| == 5 && bs[0] == Brief(2, 0, Leader, [], 0, bs[0].next, NONE, [])
    ensures forall p :: 1 <= p < 5 ==> bs[0].next[p] == 1
    ensures |bs[2].next| == 5 && bs[2] == Brief(2, -1, Follower, [LogEntry(1, Req(2))], 0, bs[2].next, NONE, [])
    ensures bs[2].next[3] == bs[2].next[4] == 1
    ensures bs[3] == bs[4] == Brief(2, 0, Follower, [], 0, NONE, NONE, [])
  {
    var bs0 := [FRESH, FRESH, FRESH, FRESH, FRESH];
    var c0 := RunStarts(false);
    var st1, c1, bs1 := RunElection([], c0, bs0, false, 2, 3, 4);
    NextAfterWin(Standing(FRESH, 2), 2);
    var st2, c2 := StepStart(st1, c1, bs1, false, 2, Req(2));
    var bs2 := bs1[2 := Longer(bs1[2], Req(2))];
    var st3, c3 := StepElect(st2, c2, bs2, false, 0);
    var bs3 := bs2[0 := Standing(bs2[0], 0)];
    var st4, c4, bs4 := RunElection(st3, c3, bs3, false, 0, 3, 4);
    NextAfterWin(Standing(bs3[0], 0), 0);
    steps, c := StepVote(st4, c4, bs4, false, 0, 2, Ballot(Standing(bs3[0], 0), 0), bs3[0].log);
    bs := bs4[2 := Voter(bs4[2], Ballot(Standing(bs3[0], 0), 0))];
  }

  /** Peer 0 commits and hands over command 1; peers 3 and 4 hold it. */
  lemma LateSenderCommits() returns (steps: seq<C.Step>, c: C.Cluster, bs: seq<Brief>)
    ensures Reached(steps, c, bs, false)
    ensures bs[0].sent == [CommandMsg(Req(1), 1)]
    ensures |bs[2].next| == 5 && bs[2] == Brief(2, -1, Follower, [LogEntry(1, Req(2))], 0, bs[2].next, NONE, [])
    ensures bs[2].next[3] == bs[2].next[4] == 1
    ensures forall p :: p == 3 || p == 4 ==> bs[p] == Brief(2, 0, Follower, [LogEntry(2, Req(1))], bs[p].commit, NONE, NONE, [])
  {
    var st1, c1, bs1 := LateSenderOpens();
    var st2, c2 := StepStart(st1, c1, bs1, false, 0, Req(1));
    var bs2 := bs1[0 := Longer(bs1[0], Req(1))];
    var st3, c3, bs3, k3 := RunReplicate(st2, c2, bs2, false, 0, 3);
    var st4, c4, bs4, k4 := RunReplicate(st3, c3, bs3, false, 0, 4);
    ThreeHolders(0, bs4[0].matched, 1, 3, 4);
    steps, c := StepFeed(st4, c4, bs4, false, 0, 0);
    bs := bs4[0 := Fed(bs4[0], 0)];
  }

  /** Peer 2, a follower by now, has its request of term 2 accepted by peers 3 and 4. */
  lemma LateSenderOverwrites() returns (steps: seq<C.Step>, c: C.Cluster, bs: seq<Brief>)
    ensures Reached(steps, c, bs, false)
    ensures bs[0].sent == [CommandMsg(Req(1), 1)]
    ensures |bs[2].next| == 5 && bs[2] == Brief(2, -1, Follower, [LogEntry(1, Req(2))], 0, bs[2].next, NONE, [])
    ensures forall p :: p == 3 || p == 4 ==> bs[p] == Brief(2, 0, Follower, [LogEntry(1, Req(2))], bs[p].commit, NONE, NONE, [])
  {
    var st1, c1, bs1 := LateSenderCommits();
    var st2, c2, bs2 := RunAppend(st1, c1, bs1, false, 2, 3);
    steps, c, bs := RunAppend(st2, c2, bs2, false, 2, 4);
  }

  /**
   Without the hypothesis on senders State Machine Safety fails: in some run in
   which every winner's `matchIndex` stays within its log, a request built by a
   peer that had lost its leadership makes two peers apply different commands
   at index 1.
   */
  lemma LateSenderBreaksSafety() returns (steps: seq<C.Step>)
    ensures WinnersWithinLog(5, steps) && !SendersLead(5, steps)
    ensures CommandMsg(Req(1), 1) in C.After(5, steps).servers[0].applyCh
    ensures CommandMsg(Req(2), 1) in C.After(5, steps).servers[2].applyCh
  {
    var st1, c1, bs1 := LateSenderOverwrites();
    var st2, c2, bs2 := RunElection(st1, c1, bs1, false, 2, 3, 4);
    NextAfterWin(Standing(bs1[2], 2), 2);
    var st3, c3 := StepStart(st2, c2, bs2, false, 2, Req(3));
    var bs3 := bs2[2 := Longer(bs2[2], Req(3))];
    var st4, c4, bs4, k4 := RunReplicate(st3, c3, bs3, false, 2, 3);
    var st5, c5, bs5, k5 := RunReplicate(st4, c4, bs4, false, 2, 4);
    ThreeHolders(2, bs5[2].matched, 2, 3, 4);
    var st6, c6 := StepFeed(st5, c5, bs5, false, 2, 0);
    steps := st6;
    var bs6 := bs5[2 := Fed(bs5[2], 0)];
    assert ReachedFor(steps, c6, bs6, false, 0);
    assert Shows(c6.servers[0], bs6[0]) && Shows(c6.servers[2], bs6[2]);
    assert MeetsFor(steps, false, 0);
    NotOrderly(steps, 0, 2, CommandMsg(Req(1), 1), CommandMsg(Req(2), 1));
  }

  /** A run in which safety fails misses one of the hypotheses. */
  lemma NotOrderly(steps: seq<C.Step>, p: nat, q: nat, x: ApplyMsg, y: ApplyMsg)
    requires p < 5 && q < 5 && x.CommandMsg? && y.CommandMsg? && x.index == y.index && x.command != y.command
    requires x in C.After(5, steps).servers[p].applyCh && y in C.After(5, steps).servers[q].applyCh
    ensures !(SendersLead(5, steps) && WinnersWithinLog(5, steps))
  {
    OrderlyIsBoth(5, steps);
    if Orderly(5, steps) {
      assert steps[..|steps|] == steps;
      StateMachineSafety(5, steps, |steps|, |steps|, p, q, x, y);
    }
  }

  // ---------------------------------------------------------------------
  // A matchIndex left over from an earlier term
  // ---------------------------------------------------------------------

  /** A request that starts at the first entry replaces a log that differs there. */
  lemma WholeRequest(b: Brief, l: nat, f: nat, to: Brief)
    requires f < |b.next| && b.next[f] == 1
    ensures Request(b, l, f) == AppendEntriesArgs(b.term, l, 0, 0, b.log, b.commit)
    ensures Merged(to, Request(b, l, f)).log == b.log
  {
    assert b.log[0..] == b.log;
    assert to.log[..0] + b.log == b.log;
  }

  const TWO := [LogEntry(1, Req(4)), LogEntry(1, Req(5))]

  lemma TwoEntries(b: Brief)
    requires b.log == [] && b.term == 1
    ensures Longer(Longer(b, Req(4)), Req(5)).log == TWO
  {
  }

  /** Peer 0 leads term 1 and replicates two entries to peer 2 only. */
  lemma StaleMatchOpens() returns (steps: seq<C.Step>, c: C.Cluster, bs: seq<Brief>)
    ensures Reached(steps, c, bs, true)
    ensures |bs[0].next| == 5 && |bs[0].matched| == 5
    ensures bs[0] == Brief(1, 0, Leader, TWO, bs[0].commit, bs[0].next, bs[0].matched, [])
    ensures bs[0].matched[2] == 2
    ensures bs[1] == FRESH
    ensures bs[2] == Brief(1, -1, Follower, TWO, bs[2].commit, NONE, NONE, [])
    ensures bs[3] == bs[4] == Brief(1, 0, Follower, [], 0, NONE, NONE, [])
  {
    var bs0 := [FRESH, FRESH, FRESH, FRESH, FRESH];
    var c0 := RunStarts(true);
    var st1, c1, bs1 := RunElection([], c0, bs0, true, 0, 3, 4);
    NextAfterWin(Standing(FRESH, 0), 0);
    var st2, c2 := StepStart(st1, c1, bs1, true, 0, Req(4));
    var bs2 := bs1[0 := Longer(bs1[0], Req(4))];
    var st3, c3 := StepStart(st2, c2, bs2, true, 0, Req(5));
    var bs3 := bs2[0 := Longer(bs2[0], Req(5))];
    TwoEntries(bs1[0]);
    WholeRequest(bs3[0], 0, 2, bs3[2]);
    var k: nat;
    steps, c, bs, k := RunReplicate(st3, c3, bs3, true, 0, 2);
  }

  /** Peer 1 leads term 2 and overwrites everyone's log with its own entry. */
  lemma StaleMatchOverwrites() returns (steps: seq<C.Step>, c: C.Cluster, bs: seq<Brief>)
    ensures Reached(steps, c, bs, true)
    ensures |bs[0].next| == 5 && |bs[0].matched| == 5
    ensures bs[0] == Brief(2, -1, Follower, [LogEntry(2, Req(6))], bs[0].commit, bs[0].next, bs[0].matched, [])
    ensures bs[0].matched[2] == 2
    ensures bs[1].log == [LogEntry(2, Req(6))] && bs[1].term == 2
    ensures bs[2] == Brief(2, -1, Follower, [LogEntry(2, Req(6))], bs[2].commit, NONE, NONE, [])
    ensures forall p :: p == 3 || p == 4 ==> bs[p] == Brief(2, 1, Follower, [LogEntry(2, Req(6))], bs[p].commit, NONE, NONE, [])
  {
    var st1, c1, bs1 := StaleMatchOpens();
    var st2, c2 := StepElect(st1, c1, bs1, true, 1);
    var bs2 := bs1[1 := Standing(bs1[1], 1)];
    var st3, c3, bs3 := RunElection(st2, c2, bs2, true, 1, 3, 4);
    NextAfterWin(Standing(bs2[1], 1), 1);
    var st4, c4 := StepStart(st3, c3, bs3, true, 1, Req(6));
    var bs4 := bs3[1 := Longer(bs3[1], Req(6))];
    assert bs4[1].log == [LogEntry(2, Req(6))];
    WholeRequest(bs4[1], 1, 0, bs4[0]);
    WholeRequest(bs4[1], 1, 2, bs4[2]);
    WholeRequest(bs4[1], 1, 3, bs4[3]);
    WholeRequest(bs4[1], 1, 4, bs4[4]);
    var st5, c5, bs5 := RunAppend(st4, c4, bs4, true, 1, 0);
    var st6, c6, bs6 := RunAppend(st5, c5, bs5, true, 1, 2);
    var st7, c7, bs7 := RunAppend(st6, c6, bs6, true, 1, 3);
    steps, c, bs := RunAppend(st7, c7, bs7, true, 1, 4);
  }

  /** Peer 0 leads term 3 and commits command 2 on the strength of its old view of peer 2. */
  lemma StaleMatchCommits() returns (steps: seq<C.Step>, c: C.Cluster, bs: seq<Brief>)
    ensures Reached(steps, c, bs, true)
    ensures bs[0].sent == [CommandMsg(Req(6), 1), CommandMsg(Req(2), 2)]
    ensures bs[2] == Brief(2, -1, Follower, [LogEntry(2, Req(6))], bs[2].commit, NONE, NONE, [])
    ensures forall p :: p == 3 || p == 4 ==> bs[p] == Brief(3, 0, Follower, [LogEntry(2, Req(6))], bs[p].commit, NONE, NONE, [])
  {
    var st1, c1, bs1 := StaleMatchOverwrites();
    var st2, c2, bs2 := RunElection(st1, c1, bs1, true, 0, 3, 4);
    NextAfterWin(Standing(bs1[0], 0), 0);
    var st3, c3 := StepStart(st2, c2, bs2, true, 0, Req(2));
    var bs3 := bs2[0 := Longer(bs2[0], Req(2))];
    var st4, c4, bs4, k4 := RunReplicate(st3, c3, bs3, true, 0, 1);
    ThreeHolders(0, bs4[0].matched, 2, 1, 2);
    var st5, c5 := StepFeed(st4, c4, bs4, true, 0, 0);
    var bs5 := bs4[0 := Fed(bs4[0], 0)];
    steps, c := StepFeed(st5, c5, bs5, true, 0, 1);
    bs := bs5[0 := Fed(bs5[0], 1)];
  }

  /** Peer 2 leads term 4 and has its own entry accepted by peers 3 and 4. */
  lemma StaleMatchReplaces() returns (steps: seq<C.Step>, c: C.Cluster, bs: seq<Brief>)
    ensures Reached(steps, c, bs, true)
    ensures bs[0].sent == [CommandMsg(Req(6), 1), CommandMsg(Req(2), 2)] && bs[2].sent == []
    ensures bs[2].log == [LogEntry(2, Req(6)), LogEntry(4, Req(7))] && bs[2].commit >= 2
  {
    var st1, c1, bs1 := StaleMatchCommits();
    var st2, c2 := StepElect(st1, c1, bs1, true, 2);
    var bs2 := bs1[2 := Standing(bs1[2], 2)];
    var st3, c3, bs3 := RunElection(st2, c2, bs2, true, 2, 3, 4);
    NextAfterWin(Standing(bs2[2], 2), 2);
    var st4, c4 := StepStart(st3, c3, bs3, true, 2, Req(7));
    var bs4 := bs3[2 := Longer(bs3[2], Req(7))];
    var st5, c5, bs5, k5 := RunReplicate(st4, c4, bs4, true, 2, 3);
    var k6;
    steps, c, bs, k6 := RunReplicate(st5, c5, bs5, true, 2, 4);
    ThreeHolders(2, bs[2].matched, 2, 3, 4);
  }

  /**
   Without the hypothesis on winners State Machine Safety fails: in some run in
   which every append request is built by a current leader, a `matchIndex` left
   over from an earlier term makes two peers apply different commands at index 2.
   */
  lemma StaleMatchBreaksSafety() returns (steps: seq<C.Step>)
    ensures SendersLead(5, steps) && !WinnersWithinLog(5, steps)
    ensures CommandMsg(Req(2), 2) in C.After(5, steps).servers[0].applyCh
    ensures CommandMsg(Req(7), 2) in C.After(5, steps).servers[2].applyCh
  {
    var st6, c6, bs6 := StaleMatchReplaces();
    var st7, c7 := StepFeed(st6, c6, bs6, true, 2, 0);
    var bs7 := bs6[2 := Fed(bs6[2], 0)];
    var st8, c8 := StepFeed(st7, c7, bs7, true, 2, 1);
    steps := st8;
    var bs8 := bs7[2 := Fed(bs7[2], 1)];
    assert ReachedFor(steps, c8, bs8, true, 0);
    assert Shows(c8.servers[0], bs8[0]) && Shows(c8.servers[2], bs8[2]);
    assert bs8[0].sent[1] == CommandMsg(Req(2), 2) && bs8[2].sent[1] == CommandMsg(Req(7), 2);
    assert MeetsFor(steps, true, 0);
    NotOrderly(steps, 0, 2, CommandMsg(Req(2), 2), CommandMsg(Req(7), 2));
  }
}
