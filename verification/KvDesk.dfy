/**
 The service and the requests that wait for it, as a state machine: the steps
 of the applier and of any number of request handlers, in any order.
 */
module KvDesk {
  import opened Options
  import opened RaftTypes
  import opened KvMachine

  // ---------------------------------------------------------------------
  // What the applier makes of what raft delivers
  // ---------------------------------------------------------------------

  /** What raft delivers.  Snapshot bytes that do not decode are `None`. */
  datatype ServiceMsg =
    | Command(cmd: Op, index: nat)
    | Snapshot(data: Option<KvState>, index: nat)

  datatype Service = Service(state: KvState, commitIndex: nat)

  function ServeOne(sv: Service, m: ServiceMsg): Service {
    match m
    case Command(cmd, index) => Service(ApplyOp(sv.state, cmd).0, index)
    case Snapshot(data, index) =>
      if index <= sv.commitIndex then sv
      else Service(if data.Some? then data.value else sv.state, index)
  }

  function Serve(sv: Service, msgs: seq<ServiceMsg>): Service {
    if msgs == [] then sv else ServeOne(Serve(sv, msgs[..|msgs| - 1]), msgs[|msgs| - 1])
  }

  lemma ServeNext(sv: Service, msgs: seq<ServiceMsg>, m: ServiceMsg)
    ensures Serve(sv, msgs + [m]) == ServeOne(Serve(sv, msgs), m)
  {
    assert (msgs + [m])[..|msgs|] == msgs;
  }

  /** Command indices rise. */
  predicate Rising(msgs: seq<ServiceMsg>) {
    forall i, j :: 0 <= i <= j < |msgs| && msgs[j].Command? ==>
      msgs[j].index > 0 && (i < j && msgs[i].Command? ==> msgs[i].index < msgs[j].index)
  }

  lemma RisingPrefix(msgs: seq<ServiceMsg>, rest: seq<ServiceMsg>)
    requires Rising(msgs + rest)
    ensures Rising(msgs)
  {
    var all := msgs + rest;
    forall i, j | 0 <= i <= j < |msgs| && msgs[j].Command?
      ensures msgs[j].index > 0 && (i < j && msgs[i].Command? ==> msgs[i].index < msgs[j].index)
    {
      assert all[i] == msgs[i] && all[j] == msgs[j];
    }
  }

  lemma RisingNext(was: seq<ServiceMsg>, msgs: seq<ServiceMsg>, j: nat)
    requires Rising(was + msgs) && j < |msgs|
    ensures Rising(was + msgs[..j] + [msgs[j]])
  {
    assert was + msgs == (was + msgs[..j] + [msgs[j]]) + msgs[j + 1..];
    RisingPrefix(was + msgs[..j] + [msgs[j]], msgs[j + 1..]);
  }

  // ---------------------------------------------------------------------
  // The desk
  // ---------------------------------------------------------------------

  /** Where one waiting request is answered; room for one reply. */
  class Channel {
    const index: nat
    var buffer: Option<OpReply>

    constructor (index: nat)
      ensures this.index == index && buffer == None
    {
      this.index := index;
      buffer := None;
    }
  }

  /** What waiters are told when a snapshot overtakes them. */
  const OVERTAKEN := OpReply(ERR_WRONG_LEADER, "")

  datatype Desk = Desk(
    sv: Service,
    heard: seq<ServiceMsg>,                    // what the applier has taken in, in order
    slots: map<nat, Channel>,                  // who is listed as waiting for each index
    buffers: map<Channel, Option<OpReply>>,    // every channel ever made
    due: Option<(nat, OpReply)>,               // a command applied whose waiter has still to be told
    sent: nat)                                 // the last index a waiter was looked up for

  function Opened(start: Service): Desk {
    Desk(start, [], map[], map[], None, 0)
  }

  datatype Event =
    | Deliver(m: ServiceMsg)   // the applier takes in a message: a command is applied, a snapshot restored
    | Send                     // the applier answers whoever waits for the command just applied
    | Join(ch: Channel)        // a handler waits on a new channel
    | Take(ch: Channel)        // a handler reads its channel
    | Leave(index: nat)        // a handler is done, and clears the slot of its index, whoever holds it

  predicate Listed(d: Desk, ch: Channel) {
    ch.index in d.slots && d.slots[ch.index] == ch
  }

  /** A channel with room, listed, that a snapshot ahead turns away. */
  predicate Dismissed(d: Desk, ch: Channel) {
    ch in d.buffers && Listed(d, ch) && d.buffers[ch] == None
  }

  /** A snapshot ahead of the service turns away all who can still be told. */
  function TurnAway(d: Desk): Desk {
    d.(slots := map i | i in d.slots && !Dismissed(d, d.slots[i]) :: d.slots[i],
       buffers := map ch | ch in d.buffers :: if Dismissed(d, ch) then Some(OVERTAKEN) else d.buffers[ch])
  }

  /** The applier takes in one message at a time.  A waiter is told after its command is applied; others may act between. */
  function Hear(d: Desk, m: ServiceMsg): Desk
    requires d.due == None
  {
    var d' := d.(sv := ServeOne(d.sv, m), heard := d.heard + [m]);
    match m
    case Command(cmd, index) => d'.(due := Some((index, ApplyOp(d.sv.state, cmd).1)))
    case Snapshot(_, index) => if index <= d.sv.commitIndex then d' else TurnAway(d')
  }

  /** A send to a channel that is full blocks the applier. */
  predicate Blocked(d: Desk) {
    d.due.Some? && d.due.value.0 in d.slots
    && var ch := d.slots[d.due.value.0]; ch in d.buffers && d.buffers[ch].Some?
  }

  function Tell(d: Desk): Desk
    requires d.due.Some?
  {
    var (index, reply) := d.due.value;
    d.(buffers := if index in d.slots then d.buffers[d.slots[index] := Some(reply)] else d.buffers, due := None, sent := index)
  }

  /** A step that cannot be taken changes nothing. */
  function Step(d: Desk, e: Event): Desk {
    match e
    case Deliver(m) => if d.due.Some? then d else Hear(d, m)
    case Send => if d.due == None || Blocked(d) then d else Tell(d)
    case Join(ch) => if ch in d.buffers then d else d.(slots := d.slots[ch.index := ch], buffers := d.buffers[ch := None])
    case Take(ch) => if ch !in d.buffers then d else d.(buffers := d.buffers[ch := None])
    case Leave(index) => d.(slots := d.slots - {index})
  }

  function Run(start: Service, events: seq<Event>): Desk {
    if events == [] then Opened(start) else Step(Run(start, events[..|events| - 1]), events[|events| - 1])
  }

  // ---------------------------------------------------------------------
  // What a channel can hold
  // ---------------------------------------------------------------------

  /** The `q`th message is the command at `index`, and `reply` is its result in the state it met. */
  ghost predicate RepliedAt(start: Service, heard: seq<ServiceMsg>, q: nat, index: nat, reply: OpReply) {
    && q < |heard| && heard[q].Command? && heard[q].index == index
    && reply == ApplyOp(Serve(start, heard[..q]).state, heard[q].cmd).1
  }

  ghost predicate Replied(start: Service, heard: seq<ServiceMsg>, index: nat, reply: OpReply) {
    exists q: nat :: RepliedAt(start, heard, q, index, reply)
  }

  lemma RepliedStays(start: Service, heard: seq<ServiceMsg>, more: seq<ServiceMsg>, index: nat, reply: OpReply)
    requires Replied(start, heard, index, reply)
    ensures Replied(start, heard + more, index, reply)
  {
    var q: nat :| RepliedAt(start, heard, q, index, reply);
    assert (heard + more)[..q] == heard[..q];
    assert RepliedAt(start, heard + more, q, index, reply);
  }

  lemma RepliedLast(start: Service, heard: seq<ServiceMsg>, m: ServiceMsg)
    requires m.Command?
    ensures Replied(start, heard + [m], m.index, ApplyOp(Serve(start, heard).state, m.cmd).1)
  {
    assert (heard + [m])[..|heard|] == heard;
    assert RepliedAt(start, heard + [m], |heard|, m.index, ApplyOp(Serve(start, heard).state, m.cmd).1);
  }

  ghost predicate SlotsKnown(d: Desk) {
    forall i :: i in d.slots ==> d.slots[i] in d.buffers && d.slots[i].index == i
  }

  ghost predicate GoodReply(start: Service, heard: seq<ServiceMsg>, index: nat, reply: OpReply) {
    reply == OVERTAKEN || Replied(start, heard, index, reply)
  }

  /** A channel holds the result at its own index, or word of having been overtaken. */
  ghost predicate BuffersGood(start: Service, d: Desk) {
    forall ch :: ch in d.buffers && d.buffers[ch].Some? ==> GoodReply(start, d.heard, ch.index, d.buffers[ch].value)
  }

  ghost predicate Kept(start: Service, d: Desk) {
    && d.sv == Serve(start, d.heard)
    && SlotsKnown(d)
    && BuffersGood(start, d)
    && (d.due.Some? ==> Replied(start, d.heard, d.due.value.0, d.due.value.1))
  }

  lemma GoodStays(start: Service, d: Desk, m: ServiceMsg)
    requires BuffersGood(start, d)
    ensures BuffersGood(start, d.(heard := d.heard + [m]))
  {
    forall ch | ch in d.buffers && d.buffers[ch].Some?
      ensures GoodReply(start, d.heard + [m], ch.index, d.buffers[ch].value)
    {
      assert GoodReply(start, d.heard, ch.index, d.buffers[ch].value);
      if d.buffers[ch].value != OVERTAKEN {
        RepliedStays(start, d.heard, [m], ch.index, d.buffers[ch].value);
      }
    }
  }

  lemma HearKept(start: Service, d: Desk, m: ServiceMsg)
    requires Kept(start, d) && d.due == None
    ensures Kept(start, Hear(d, m))
  {
    var d1 := d.(sv := ServeOne(d.sv, m), heard := d.heard + [m]);
    ServeNext(start, d.heard, m);
    GoodStays(start, d, m);
    if m.Command? {
      RepliedLast(start, d.heard, m);
    } else if m.index > d.sv.commitIndex {
      TurnAwayGood(start, d1);
      TurnAwayKnown(d1);
    }
  }

  lemma TurnAwayGood(start: Service, d: Desk)
    requires BuffersGood(start, d)
    ensures BuffersGood(start, TurnAway(d))
  {
    var d' := TurnAway(d);
    forall ch | ch in d'.buffers && d'.buffers[ch].Some?
      ensures GoodReply(start, d'.heard, ch.index, d'.buffers[ch].value)
    {
      if !Dismissed(d, ch) { assert d'.buffers[ch] == d.buffers[ch]; }
    }
  }

  lemma TurnAwayKnown(d: Desk)
    requires SlotsKnown(d)
    ensures SlotsKnown(TurnAway(d))
  {
  }

  lemma TellKept(start: Service, d: Desk)
    requires Kept(start, d) && d.due.Some?
    ensures Kept(start, Tell(d))
  {
  }

  lemma StepKept(start: Service, d: Desk, e: Event)
    requires Kept(start, d)
    ensures Kept(start, Step(d, e))
  {
    match e
    case Deliver(m) => if d.due == None { HearKept(start, d, m); }
    case Send => if d.due.Some? { TellKept(start, d); }
    case Join(_) =>
    case Take(_) =>
    case Leave(_) =>
  }

  /**
   Whatever the order in which requests come, are displaced from their slots,
   have them cleared by others and leave, the service is in the state of what
   it has heard, and a request finds in its channel nothing but the result of
   the command heard at its own index, or word that a snapshot overtook it.
   */
  lemma {:induction false} RunKept(start: Service, events: seq<Event>)
    ensures Kept(start, Run(start, events))
  {
    if events != [] {
      RunKept(start, events[..|events| - 1]);
      StepKept(start, Run(start, events[..|events| - 1]), events[|events| - 1]);
    }
  }

  // ---------------------------------------------------------------------
  // The applier is never blocked
  // ---------------------------------------------------------------------

  /** A slot beyond the last index looked up has room. */
  ghost predicate RoomAhead(d: Desk) {
    forall i :: i in d.slots && i > d.sent ==> d.slots[i] in d.buffers && d.buffers[d.slots[i]] == None
  }

  /** The waiter due to be told waits for the last message heard; the last one looked up, for an earlier one. */
  ghost predicate SentBefore(d: Desk) {
    && (d.due.Some? ==> d.heard != [] && d.heard[|d.heard| - 1].Command? && d.heard[|d.heard| - 1].index == d.due.value.0)
    && (d.sent == 0 || exists j :: 0 <= j < Told(d) && d.heard[j].Command? && d.heard[j].index == d.sent)
  }

  /** How many of the messages heard have been dealt with in full. */
  ghost function Told(d: Desk): int {
    if d.due.Some? then |d.heard| - 1 else |d.heard|
  }

  ghost predicate Prompt(d: Desk) {
    Rising(d.heard) && RoomAhead(d) && SentBefore(d)
  }

  lemma DueAhead(d: Desk)
    requires Prompt(d) && d.due.Some?
    ensures d.due.value.0 > d.sent && !Blocked(d)
  {
    if d.sent > 0 {
      var j :| 0 <= j < |d.heard| - 1 && d.heard[j].Command? && d.heard[j].index == d.sent;
      assert d.heard[j].index < d.heard[|d.heard| - 1].index;
    }
  }

  lemma StepPrompt(start: Service, d: Desk, e: Event)
    requires Kept(start, d) && Prompt(d) && Rising(Step(d, e).heard)
    ensures Prompt(Step(d, e))
  {
    match e
    case Deliver(m) => if d.due == None { HearPrompt(d, m); }
    case Send => if d.due.Some? { TellPrompt(start, d); }
    case Join(_) =>
    case Take(_) =>
    case Leave(_) =>
  }

  lemma HearPrompt(d: Desk, m: ServiceMsg)
    requires Prompt(d) && d.due == None && SlotsKnown(d) && Rising(Hear(d, m).heard)
    ensures Prompt(Hear(d, m))
  {
    if d.sent > 0 {
      var j :| 0 <= j < |d.heard| && d.heard[j].Command? && d.heard[j].index == d.sent;
      assert Hear(d, m).heard[j] == d.heard[j];
    }
  }

  lemma TellPrompt(start: Service, d: Desk)
    requires Kept(start, d) && Prompt(d) && d.due.Some?
    ensures !Blocked(d) && Prompt(Tell(d))
  {
    DueAhead(d);
    assert Tell(d).heard[|d.heard| - 1].index == Tell(d).sent;
  }

  lemma HeardGrows(d: Desk, e: Event)
    requires Rising(Step(d, e).heard)
    ensures Rising(d.heard)
  {
    if e.Deliver? && d.due == None { RisingPrefix(d.heard, [e.m]); }
  }

  /** If commands come in rising order, the applier never waits on a full channel: it always gets past telling a waiter. */
  lemma {:induction false} NeverBlocked(start: Service, events: seq<Event>)
    requires Rising(Run(start, events).heard)
    ensures Prompt(Run(start, events)) && !Blocked(Run(start, events)) && Step(Run(start, events), Send).due == None
  {
    if events != [] {
      var d, e := Run(start, events[..|events| - 1]), events[|events| - 1];
      HeardGrows(d, e);
      NeverBlocked(start, events[..|events| - 1]);
      RunKept(start, events[..|events| - 1]);
      StepPrompt(start, d, e);
    }
    if Run(start, events).due.Some? { DueAhead(Run(start, events)); }
  }

  // ---------------------------------------------------------------------
  // Both together
  // ---------------------------------------------------------------------

  ghost predicate SteadyFor(start: Service, d: Desk, key: int) {
    Kept(start, d) && Prompt(d)
  }

  /** All that every step keeps, if commands come in rising order. */
  ghost predicate Steady(start: Service, d: Desk) {
    forall key {:trigger SteadyFor(start, d, key)} :: SteadyFor(start, d, key)
  }

  lemma OpenedSteady(start: Service)
    ensures Steady(start, Opened(start))
  {
  }

  lemma StepSteady(start: Service, d: Desk, e: Event)
    requires Steady(start, d) && Rising(Step(d, e).heard)
    ensures Steady(start, Step(d, e))
  {
    assert SteadyFor(start, d, 0);
    StepKept(start, d, e);
    StepPrompt(start, d, e);
  }

  /** A step other than a delivery leaves what has been heard alone. */
  lemma QuietSteady(start: Service, d: Desk, e: Event)
    requires Steady(start, d) && (e.Deliver? ==> e.m.Snapshot?)
    ensures Steady(start, Step(d, e))
  {
    assert SteadyFor(start, d, 0);
    StepSteady(start, d, e);
  }

  lemma HeldGood(start: Service, d: Desk, ch: Channel)
    requires Steady(start, d) && ch in d.buffers && d.buffers[ch].Some?
    ensures GoodReply(start, d.heard, ch.index, d.buffers[ch].value)
  {
    assert SteadyFor(start, d, 0);
  }

  lemma SlotHasRoom(start: Service, d: Desk)
    requires Steady(start, d) && d.due.Some?
    ensures !Blocked(d) && (d.due.value.0 in d.slots ==> d.slots[d.due.value.0] in d.buffers)
  {
    assert SteadyFor(start, d, 0);
    DueAhead(d);
  }

  lemma SlotsAreKnown(start: Service, d: Desk)
    requires Steady(start, d)
    ensures SlotsKnown(d)
  {
    assert SteadyFor(start, d, 0);
  }
}
