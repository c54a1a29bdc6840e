/** The key/value service over every run of the cluster. */
module KvRuns {
  import opened Options
  import opened RaftTypes
  import opened RaftPeer
  import opened RaftPeerFacts
  import opened Consensus
  import opened ConsensusSafety
  import opened ConsensusSteps
  import opened Refinement
  import opened RaftTheorems
  import opened PeerLife
  import opened Provenance
  import opened KvMachine
  import opened KvDesk
  import opened KvDelivery
  import C = Cluster

  // ---------------------------------------------------------------------
  // One log for all services
  // ---------------------------------------------------------------------

  lemma {:induction false} LastOf(terms: set<nat>) returns (w: nat)
    requires terms != {}
    ensures w in terms && forall t :: t in terms ==> t <= w
    decreases |terms|
  {
    var u :| u in terms;
    w := u;
    if terms != {u} {
      var v := LastOf(terms - {u});
      w := Max(u, v);
    }
    forall t | t in terms ensures t <= w {
      if t != u { assert t in terms - {u}; }
    }
  }

  /** The log of the last leader holds all that was ever committed. */
  lemma LatestLog(s: State) returns (log: Log)
    requires ConsensusSteps.Complete(s)
    ensures forall a, bound: nat :: Committed(s, a, bound) ==> a <= log
  {
    if s.lead.Keys == {} {
      log := [];
    } else {
      var w := LastOf(s.lead.Keys);
      log := s.lead[w];
      forall a, bound: nat | Committed(s, a, bound) ensures a <= log {
        if a != [] {
          var t: nat, k: nat :| t <= bound && CommittedBy(s, a, t, k);
          assert Committed(s, a, t);
          CommittedInLead(s, a, t, w);
        }
      }
    }
  }

  lemma MsgFits(s: State, log: Log, m: ApplyMsg)
    requires Secure(s) && MsgOK(s, m) && forall a, bound: nat :: Committed(s, a, bound) ==> a <= log
    ensures Fits(log, m)
  {
    assert SafeFor(s, 0);
    match m
    case CommandMsg(command, index) =>
      var x := Applied(index, command);
      assert AppliedSound(s, x);
      var t: nat, k: nat :| AppliedBy(s, x, t, k);
      var a := s.lead[t][..k];
      assert CommittedBy(s, a, t, k);
      assert Committed(s, a, t);
      assert a[index - 1] == log[index - 1];
    case SnapshotMsg(data, _, index) =>
      var src: nat, t: nat :| Snap(src, t, data) in s.snaps;
      assert SnapOK(s, Snap(src, t, data));
  }

  /** Everything peers ever hand to their services, and all they ever know committed, comes from `log`. */
  ghost predicate LogOfRun(n: nat, steps: seq<C.Step>, log: Log) {
    forall j: nat {:trigger LogOfMoment(C.After(n, steps[..j]), log)} ::
      j <= |steps| ==> LogOfMoment(C.After(n, steps[..j]), log)
  }

  ghost predicate LogOfMoment(c: C.Cluster, log: Log) {
    && (forall i, m :: 0 <= i < |c.servers| && m in c.servers[i].applyCh ==> Fits(log, m))
    && (forall i :: 0 <= i < |c.servers| ==> PeerWithin(c.servers[i], log))
  }

  ghost predicate PeerWithin(x: Server, log: Log) {
    |x.logs| > 0 && x.lastApplied <= x.commitIndex <= |Full(x)| && Full(x)[..x.commitIndex] <= log
  }

  /** An orderly run has one log. */
  lemma OneLog(n: nat, steps: seq<C.Step>) returns (log: Log)
    requires Orderly(n, steps)
    ensures LogOfRun(n, steps, log)
  {
    var s := RecordOf(n, steps);
    RunComplete(s);
    log := LatestLog(s);
    forall j: nat | j <= |steps| ensures LogOfMoment(C.After(n, steps[..j]), log) {
      assert Retained(C.After(n, steps[..j]), s, Orderly(n, steps));
      MomentFits(C.After(n, steps[..j]), s, log);
    }
  }

  lemma MomentFits(c: C.Cluster, s: State, log: Log)
    requires Secure(s) && Retained(c, s, true) && forall a, bound: nat :: Committed(s, a, bound) ==> a <= log
    ensures LogOfMoment(c, log)
  {
    assert RetainedFor(c, s, true, 0);
    forall i, m | 0 <= i < |c.servers| && m in c.servers[i].applyCh ensures Fits(log, m) {
      MsgFits(s, log, m);
    }
    forall i | 0 <= i < |c.servers| ensures PeerWithin(c.servers[i], log) {
      assert KnownCommitted(s, c.servers[i]);
    }
  }

  // ---------------------------------------------------------------------
  // One life of a peer
  // ---------------------------------------------------------------------

  lemma StepSends(n: nat, steps: seq<C.Step>, i: nat, k: nat)
    requires i < n && k < |steps| && steps[k] != C.Restart(i)
    ensures Extends(C.After(n, steps[..k]).servers[i], C.After(n, steps[..k + 1]).servers[i])
  {
    AfterNext(n, steps, k);
    StepExtends(C.After(n, steps[..k]), steps[k], i);
  }

  /** The peer was started at moment `r` and has not crashed up to moment `k`. */
  ghost predicate OneLife(n: nat, steps: seq<C.Step>, i: nat, r: nat, k: nat) {
    && r <= k <= |steps| && (r == 0 || steps[r - 1] == C.Restart(i))
    && forall j :: r <= j < k ==> steps[j] != C.Restart(i)
  }

  ghost function BaseAt(n: nat, steps: seq<C.Step>, i: nat, r: nat): nat
    requires r <= |steps| && i < n
  {
    C.After(n, steps[..r]).servers[i].lastIncludedIndex
  }

  /** What a peer sends on starting. */
  ghost predicate JustMade(x: Server) {
    x.applyCh == if |x.snapshot| > 0 then [SnapshotMsg(x.snapshot, x.lastIncludedTerm, x.lastIncludedIndex)] else []
  }

  lemma RestartSends(c: C.Cluster, i: nat)
    requires C.WFCluster(c) && i < |c.servers|
    ensures JustMade(C.Next(c, C.Restart(i)).servers[i])
  {
    assert WF(c.servers[i]);
  }

  lemma StartSends(n: nat, steps: seq<C.Step>, i: nat, r: nat)
    requires i < n && OneLife(n, steps, i, r, r)
    ensures JustMade(C.After(n, steps[..r]).servers[i])
  {
    if r == 0 {
      assert steps[..0] == [];
    } else {
      AfterNext(n, steps, r - 1);
      RestartSends(C.After(n, steps[..r - 1]), i);
    }
  }

  /** What a peer has sent since it was `x`, sentinel at `base`. */
  ghost predicate SentSince(base: nat, sent: seq<ApplyMsg>, y: Server) {
    && base <= y.lastIncludedIndex && sent <= y.applyCh
    && forall m :: m in y.applyCh && m.SnapshotMsg? ==> m.index >= base
  }

  lemma SentMore(base: nat, sent: seq<ApplyMsg>, x: Server, y: Server)
    requires SentSince(base, sent, x) && Extends(x, y)
    ensures SentSince(base, sent, y)
  {
    forall m | m in y.applyCh && m.SnapshotMsg? ensures m.index >= base {
      var q :| 0 <= q < |y.applyCh| && y.applyCh[q] == m;
      if q < |x.applyCh| { assert x.applyCh[q] == m; }
    }
  }

  ghost predicate Growing(xs: seq<Server>) {
    forall q :: 0 < q < |xs| ==> Extends(xs[q - 1], xs[q])
  }

  lemma {:induction false} GrowingSince(base: nat, sent: seq<ApplyMsg>, xs: seq<Server>)
    requires Growing(xs) && |xs| > 0 && SentSince(base, sent, xs[0])
    ensures SentSince(base, sent, xs[|xs| - 1])
  {
    var last := |xs| - 1;
    if last > 0 {
      GrowingSince(base, sent, xs[..last]);
      SentMore(base, sent, xs[last - 1], xs[last]);
    }
  }

  /** The states of a peer from one moment to another of the same life. */
  lemma LifeOf(n: nat, steps: seq<C.Step>, i: nat, r: nat, k: nat) returns (xs: seq<Server>)
    requires i < n && r <= k <= |steps| && forall j :: r <= j < k ==> steps[j] != C.Restart(i)
    ensures |xs| == k - r + 1 && Growing(xs)
    ensures xs[0] == C.After(n, steps[..r]).servers[i] && xs[k - r] == C.After(n, steps[..k]).servers[i]
  {
    xs := seq(k - r + 1, q requires 0 <= q <= k - r => C.After(n, steps[..r + q]).servers[i]);
    forall q | 0 < q < |xs| ensures Extends(xs[q - 1], xs[q]) {
      StepSends(n, steps, i, r + q - 1);
    }
  }

  lemma LifeSends(n: nat, steps: seq<C.Step>, i: nat, r: nat, k: nat)
    requires i < n && OneLife(n, steps, i, r, k)
    ensures var x := C.After(n, steps[..r]).servers[i];
      JustMade(x) && SentSince(x.lastIncludedIndex, x.applyCh, C.After(n, steps[..k]).servers[i])
  {
    StartSends(n, steps, i, r);
    var xs := LifeOf(n, steps, i, r, k);
    GrowingSince(xs[0].lastIncludedIndex, xs[0].applyCh, xs);
  }

  lemma LifeSentFrom(n: nat, steps: seq<C.Step>, i: nat, r: nat, k: nat)
    requires i < n && OneLife(n, steps, i, r, k)
    ensures SentFrom(BaseAt(n, steps, i, r), C.After(n, steps[..k]).servers[i].applyCh)
  {
    LifeSends(n, steps, i, r, k);
    var x, y := C.After(n, steps[..r]).servers[i], C.After(n, steps[..k]).servers[i];
    C.PeerWF(n, steps[..r], i);
    C.PeerWF(n, steps[..k], i);
    assert StreamFor(y.applyCh, y.lastApplied, 0);
  }

  // ---------------------------------------------------------------------
  // Transparency over runs
  // ---------------------------------------------------------------------

  /**
   `d` is what the service of peer `i`, started at moment `r`, has been
   delivered at moment `k`: messages the peer has sent, each command next after
   what has been reached.  Snapshots may come at any time, late ones included.
   */
  ghost predicate DeliveredAt(n: nat, steps: seq<C.Step>, i: nat, r: nat, k: nat, d: seq<ApplyMsg>)
    requires i < n && r <= |steps| && k <= |steps|
  {
    HandedOver(n, steps, i, k, d) && Continuous(BaseAt(n, steps, i, r), d)
  }

  /** Whatever is in `d` peer `i` has sent its service by moment `k`. */
  ghost predicate HandedOver(n: nat, steps: seq<C.Step>, i: nat, k: nat, d: seq<ApplyMsg>)
    requires i < n && k <= |steps|
  {
    forall m :: m in d ==> m in C.After(n, steps[..k]).servers[i].applyCh
  }

  /** It is enough that commands keep the order they are sent in, and that installed snapshots are delivered in place. */
  lemma InPlaceDelivered(n: nat, steps: seq<C.Step>, i: nat, r: nat, k: nat, d: seq<ApplyMsg>)
    requires i < n && OneLife(n, steps, i, r, k)
    requires var e := C.After(n, steps[..k]).servers[i].applyCh;
      Delivery(e, d) && SnapshotsInPlace(BaseAt(n, steps, i, r), e, d)
    ensures DeliveredAt(n, steps, i, r, k, d)
  {
    LifeSentFrom(n, steps, i, r, k);
    InPlaceIsContinuous(BaseAt(n, steps, i, r), C.After(n, steps[..k]).servers[i].applyCh, d);
  }

  /** What has been sent at one moment of a life has been sent at every later one. */
  lemma HandedLater(n: nat, steps: seq<C.Step>, i: nat, r: nat, k: nat, k': nat, d: seq<ApplyMsg>)
    requires i < n && r <= k <= k' && OneLife(n, steps, i, r, k') && HandedOver(n, steps, i, k, d)
    ensures HandedOver(n, steps, i, k', d)
  {
    var xs := LifeOf(n, steps, i, k, k');
    var e, e' := xs[0].applyCh, xs[k' - k].applyCh;
    GrowingSince(0, e, xs);
    forall m | m in d ensures m in e' {
      var p :| 0 <= p < |e| && e[p] == m;
      assert e'[p] == m;
    }
  }

  /** The snapshot a peer starts from is a prefix of the log. */
  lemma StoredFits(n: nat, steps: seq<C.Step>, log: Log, i: nat, r: nat)
    requires LogOfRun(n, steps, log) && i < n && OneLife(n, steps, i, r, r)
    ensures var x := C.After(n, steps[..r]).servers[i]; x.lastIncludedIndex <= |log| && x.snapshot == log[..x.lastIncludedIndex]
  {
    var x := C.After(n, steps[..r]).servers[i];
    StartSends(n, steps, i, r);
    C.PeerWF(n, steps[..r], i);
    assert LogOfMoment(C.After(n, steps[..r]), log);
    if |x.snapshot| > 0 {
      assert x.applyCh[0] in x.applyCh;
      assert Fits(log, x.applyCh[0]);
    }
  }

  lemma DeliveredFits(n: nat, steps: seq<C.Step>, log: Log, i: nat, r: nat, k: nat, d: seq<ApplyMsg>)
    requires LogOfRun(n, steps, log) && i < n && OneLife(n, steps, i, r, k) && DeliveredAt(n, steps, i, r, k, d)
    ensures var base := BaseAt(n, steps, i, r);
      base <= |log| && Continuous(base, d) && AllFit(log, d) && C.After(n, steps[..r]).servers[i].snapshot == log[..base]
  {
    var base := BaseAt(n, steps, i, r);
    assert OneLife(n, steps, i, r, r);
    StoredFits(n, steps, log, i, r);
    assert LogOfMoment(C.After(n, steps[..k]), log);
    forall q | 0 <= q < |d| ensures Fits(log, d[q]) {
      assert d[q] in C.After(n, steps[..k]).servers[i].applyCh;
    }
  }

  /** The service peer `i` starts at moment `r`, its stored snapshot restored. */
  ghost function StoredAt(n: nat, steps: seq<C.Step>, i: nat, r: nat): Service
    requires r <= |steps| && i < n
  {
    Service(Fold(OpsOf(C.After(n, steps[..r]).servers[i].snapshot)), 0)
  }

  lemma StoredIsStarted(n: nat, steps: seq<C.Step>, log: Log, i: nat, r: nat, k: nat, d: seq<ApplyMsg>)
    requires LogOfRun(n, steps, log) && i < n && OneLife(n, steps, i, r, k) && DeliveredAt(n, steps, i, r, k, d)
    ensures var base := BaseAt(n, steps, i, r);
      base <= |log| && Continuous(base, d) && AllFit(log, d) && StoredAt(n, steps, i, r) == Started(log, base)
  {
    var base := BaseAt(n, steps, i, r);
    DeliveredFits(n, steps, log, i, r, k, d);
    assert OpsOf(log[..base]) == OpsOf(log)[..base];
  }

  /**
   In an orderly run there is one log such that every service, started from its
   stored snapshot and fed by its peer, holds exactly the state that log leads
   to at the highest index the service has reached.
   */
  lemma ServicesFollowLog(n: nat, steps: seq<C.Step>) returns (log: Log)
    requires Orderly(n, steps)
    ensures LogOfRun(n, steps, log)
    ensures forall i: nat, r: nat, k: nat, d :: i < n && OneLife(n, steps, i, r, k) && DeliveredAt(n, steps, i, r, k, d) ==>
      FollowsLog(n, steps, log, i, r, d)
  {
    log := OneLog(n, steps);
    forall i: nat, r: nat, k: nat, d | i < n && OneLife(n, steps, i, r, k) && DeliveredAt(n, steps, i, r, k, d)
      ensures FollowsLog(n, steps, log, i, r, d)
    {
      ServiceFollows(n, steps, log, i, r, k, d);
    }
  }

  ghost predicate FollowsLog(n: nat, steps: seq<C.Step>, log: Log, i: nat, r: nat, d: seq<ApplyMsg>)
    requires i < n && r <= |steps|
  {
    var base := BaseAt(n, steps, i, r);
    Faithful(log, base, Highest(base, d), Serve(StoredAt(n, steps, i, r), ReadAll(d)))
  }

  lemma ServiceFollows(n: nat, steps: seq<C.Step>, log: Log, i: nat, r: nat, k: nat, d: seq<ApplyMsg>)
    requires LogOfRun(n, steps, log) && i < n && OneLife(n, steps, i, r, k) && DeliveredAt(n, steps, i, r, k, d)
    ensures FollowsLog(n, steps, log, i, r, d)
  {
    StoredIsStarted(n, steps, log, i, r, k, d);
    Transparency(log, BaseAt(n, steps, i, r), d);
  }

  // ---------------------------------------------------------------------
  // A handler gets the result of its own command
  // ---------------------------------------------------------------------

  lemma CommandsBelowLevel(msgs: seq<ApplyMsg>, q: nat)
    requires InOrder(msgs) && q < |msgs| && msgs[q].CommandMsg?
    ensures 1 <= msgs[q].index <= Level(msgs)
  {
    LevelRises(msgs, q + 1, |msgs|);
    assert msgs[..|msgs|] == msgs;
    assert msgs[..q + 1][..q] == msgs[..q];
  }

  /** What a peer has handed over is in its own log. */
  lemma AppliedIsOwn(c: C.Cluster, s: State, i: nat, m: ApplyMsg)
    requires Sim(c, s) && Sound(s) && Secure(s) && AppliedWithinCommit(c)
    requires i < |c.servers| && m in c.servers[i].applyCh && m.CommandMsg?
    ensures var x := c.servers[i];
      |x.logs| > 0 && 1 <= m.index <= |Full(x)| && Full(x)[m.index - 1].command == m.command
  {
    var x := c.servers[i];
    var q :| 0 <= q < |x.applyCh| && x.applyCh[q] == m;
    assert StreamFor(x.applyCh, x.lastApplied, 0);
    CommandsBelowLevel(x.applyCh, q);
    RunComplete(s);
    CommittedOfPeer(c, s, i);
    AppliedOfPeer(c, s, i, m);
    AppliedMatches(s, Full(x)[..x.commitIndex], x.currTerm, Applied(m.index, m.command));
  }

  lemma CommittedOfPeer(c: C.Cluster, s: State, i: nat)
    requires Sim(c, s) && Secure(s) && i < |c.servers|
    ensures var x := c.servers[i];
      |x.logs| > 0 && x.commitIndex <= |Full(x)| && Committed(s, Full(x)[..x.commitIndex], x.currTerm)
  {
    assert SimFor(c, s, 0);
    assert SafeFor(s, 0);
    assert ReplicaCommit(s, s.replicas[i]);
  }

  lemma AppliedOfPeer(c: C.Cluster, s: State, i: nat, m: ApplyMsg)
    requires Sim(c, s) && Secure(s) && i < |c.servers| && m in c.servers[i].applyCh && m.CommandMsg?
    ensures AppliedSound(s, Applied(m.index, m.command))
  {
    assert SimFor(c, s, 0);
    assert ServerOK(s, c.servers[i]);
    assert MsgOK(s, m);
    assert SafeFor(s, 0);
  }

  /** Peer `i`, leading at moment `j`, starts `op` there, at the index and in the term `Start` returns. */
  ghost predicate Issued(n: nat, steps: seq<C.Step>, i: nat, j: nat, op: Op, index: nat, term: nat) {
    index > 0 && StartedAt(n, steps, i, j, index - 1, LogEntry(term, Cmd(op)))
  }

  /**
   A request handler that started `op` and, once an index is handed to the
   service, still finds its peer leading in the term of the start, has been
   answered for `op`: whatever the peer handed over at that index is `op`.
   */
  lemma OwnCommand(n: nat, steps: seq<C.Step>, i: nat, j: nat, op: Op, index: nat, term: nat, k: nat, m: ApplyMsg)
    requires Orderly(n, steps) && Issued(n, steps, i, j, op, index, term)
    requires j < k <= |steps| && Leads(C.After(n, steps[..k]), i, term)
    requires m in C.After(n, steps[..k]).servers[i].applyCh && m.CommandMsg? && m.index == index
    ensures m.command == Cmd(op)
  {
    var s, s' := RecordsOf(n, steps, k, k);
    EntryStays(n, steps, i, j, index - 1, LogEntry(term, Cmd(op)), k);
    AppliedIsOwn(C.After(n, steps[..k]), s', i, m);
  }

  /** `reply` is what `op`, the `q`th message the service was told of, got at `index` in the state it met. */
  ghost predicate AnswerTo(start: Service, d: seq<ApplyMsg>, q: nat, op: Op, index: nat, reply: OpReply) {
    q < |d| && d[q] == CommandMsg(Cmd(op), index) && reply == ApplyOp(Serve(start, ReadAll(d[..q])).state, op).1
  }

  /**
   A handler started `op` at `index`.  At moment `k` it has read from its
   channel what answered that index, when the service had been told of `d`, in
   whatever order, and at moment `k'` it finds its peer still leading in the
   term of the start.  Then what it read is the answer to `op`, and `op` is the
   log's command at that index.  If each command was told of next after what
   had been reached, it is also the result of `op` at its place in the log.
   */
  lemma OwnResult(
    n: nat, steps: seq<C.Step>, log: Log, i: nat, r: nat, j: nat, op: Op, index: nat, term: nat, k: nat, k': nat,
    d: seq<ApplyMsg>, reply: OpReply) returns (q: nat)
    requires Orderly(n, steps) && LogOfRun(n, steps, log) && Issued(n, steps, i, j, op, index, term)
    requires r <= k <= k' && j < k' && OneLife(n, steps, i, r, k') && HandedOver(n, steps, i, k, d)
    requires Leads(C.After(n, steps[..k']), i, term)
    requires Replied(StoredAt(n, steps, i, r), ReadAll(d), index, reply)
    ensures AnswerTo(StoredAt(n, steps, i, r), d, q, op, index, reply)
    ensures index <= |log| && OpsOf(log)[index - 1] == op
    ensures Continuous(BaseAt(n, steps, i, r), d) ==> reply == ReplyAt(OpsOf(log), index - 1)
  {
    HandedLater(n, steps, i, r, k, k', d);
    q := RepliedTo(StoredAt(n, steps, i, r), d, index, reply);
    assert d[q] in d;
    OwnCommand(n, steps, i, j, op, index, term, k', d[q]);
    assert LogOfMoment(C.After(n, steps[..k']), log);
    assert Fits(log, d[q]);
    if Continuous(BaseAt(n, steps, i, r), d) {
      DeliveredReply(n, steps, log, i, r, k', d, q);
    }
  }

  /**
   However the requests of other clients come and go, share and clear slots
   while the applier works, and in whatever order the service is told of what
   its peer sent: a handler that passes its term check with anything but word
   of having been overtaken was answered for its own command.
   */
  lemma HandlerResult(
    n: nat, steps: seq<C.Step>, log: Log, i: nat, r: nat, j: nat, op: Op, term: nat, k: nat, k': nat,
    d: seq<ApplyMsg>, events: seq<Event>, ch: Channel, reply: OpReply) returns (q: nat)
    requires Orderly(n, steps) && LogOfRun(n, steps, log) && Issued(n, steps, i, j, op, ch.index, term)
    requires r <= k <= k' && j < k' && OneLife(n, steps, i, r, k') && HandedOver(n, steps, i, k, d)
    requires Leads(C.After(n, steps[..k']), i, term)
    requires var desk := Run(StoredAt(n, steps, i, r), events);
      desk.heard == ReadAll(d) && ch in desk.buffers && desk.buffers[ch] == Some(reply)
    ensures reply != OVERTAKEN ==> AnswerTo(StoredAt(n, steps, i, r), d, q, op, ch.index, reply)
    ensures reply != OVERTAKEN ==> ch.index <= |log| && OpsOf(log)[ch.index - 1] == op
    ensures reply != OVERTAKEN && Continuous(BaseAt(n, steps, i, r), d) ==> reply == ReplyAt(OpsOf(log), ch.index - 1)
  {
    var start := StoredAt(n, steps, i, r);
    RunKept(start, events);
    assert GoodReply(start, ReadAll(d), ch.index, reply);
    q := 0;
    if reply != OVERTAKEN {
      q := OwnResult(n, steps, log, i, r, j, op, ch.index, term, k, k', d, reply);
    }
  }

  /** A service told of commands in the order its peer sends them, wherever snapshots fall, is never blocked on a waiter. */
  lemma ApplierNeverBlocked(n: nat, steps: seq<C.Step>, i: nat, r: nat, k: nat, d: seq<ApplyMsg>, events: seq<Event>)
    requires i < n && OneLife(n, steps, i, r, k) && Delivery(C.After(n, steps[..k]).servers[i].applyCh, d)
    requires Run(StoredAt(n, steps, i, r), events).heard == ReadAll(d)
    ensures !Blocked(Run(StoredAt(n, steps, i, r), events))
  {
    LifeSentFrom(n, steps, i, r, k);
    DeliveryRises(C.After(n, steps[..k]).servers[i].applyCh, d);
    NeverBlocked(StoredAt(n, steps, i, r), events);
  }

  /** The reply to a command delivered is the one its place in the log calls for. */
  lemma DeliveredReply(n: nat, steps: seq<C.Step>, log: Log, i: nat, r: nat, k: nat, d: seq<ApplyMsg>, q: nat)
    requires LogOfRun(n, steps, log) && i < n && OneLife(n, steps, i, r, k) && DeliveredAt(n, steps, i, r, k, d)
    requires q < |d| && d[q].CommandMsg?
    ensures 1 <= d[q].index <= |log| && OpsOf(log)[d[q].index - 1] == OpOf(d[q].command)
    ensures ApplyOp(Serve(StoredAt(n, steps, i, r), ReadAll(d[..q])).state, OpOf(d[q].command)).1 == ReplyAt(OpsOf(log), d[q].index - 1)
  {
    StoredIsStarted(n, steps, log, i, r, k, d);
    ReplyIsReplyAt(log, BaseAt(n, steps, i, r), d, q);
    assert Fits(log, d[q]);
  }

  /**
   What the service encodes for raft after applying a command is the state of
   the log prefix that raft trims in exchange.
   */
  lemma SnapshotMeansPrefix(n: nat, steps: seq<C.Step>, log: Log, i: nat, r: nat, k: nat, d: seq<ApplyMsg>, q: nat)
    requires LogOfRun(n, steps, log) && i < n && OneLife(n, steps, i, r, k) && DeliveredAt(n, steps, i, r, k, d)
    requires q < |d| && d[q].CommandMsg?
    ensures var x := C.After(n, steps[..k]).servers[i];
      && |x.logs| > 0 && d[q].index <= x.lastApplied && d[q].index <= |Full(x)|
      && Serve(StoredAt(n, steps, i, r), ReadAll(d[..q + 1])).state == Fold(OpsOf(Full(x)[..d[q].index]))
  {
    StoredIsStarted(n, steps, log, i, r, k, d);
    ReachedAt(log, BaseAt(n, steps, i, r), d, q);
    SentWithinLog(n, steps, log, i, k, d[q]);
    var x := C.After(n, steps[..k]).servers[i];
    assert OpsOf(Full(x)[..d[q].index]) == OpsOf(log)[..d[q].index];
  }

  lemma SentWithinLog(n: nat, steps: seq<C.Step>, log: Log, i: nat, k: nat, m: ApplyMsg)
    requires LogOfRun(n, steps, log) && i < n && k <= |steps| && m in C.After(n, steps[..k]).servers[i].applyCh && m.CommandMsg?
    ensures var x := C.After(n, steps[..k]).servers[i];
      && |x.logs| > 0 && m.index <= x.lastApplied && m.index <= |Full(x)| && m.index <= |log|
      && Full(x)[..m.index] == log[..m.index]
  {
    var x := C.After(n, steps[..k]).servers[i];
    C.PeerWF(n, steps[..k], i);
    var p :| 0 <= p < |x.applyCh| && x.applyCh[p] == m;
    assert StreamFor(x.applyCh, x.lastApplied, 0);
    CommandsBelowLevel(x.applyCh, p);
    assert LogOfMoment(C.After(n, steps[..k]), log);
    assert PeerWithin(x, log);
    assert Full(x)[..x.commitIndex][..m.index] == log[..m.index];
  }
}
