/**
 Three participants rendezvous at "start_simulation", exchange ticks, drain each other's
 ticks and rendezvous again at "end_simulation". Every participant is a sequential program
 that pops one FIFO event queue; several of its loops throw away every event they do not
 recognise, so a wake-up that arrived one step too early would be lost for good.

 The module is the transition system: one program counter and one queue per participant,
 the server's synchronization-point table, and the ticks on the wire.
 */
module Rendezvous {
  import opened SyncPoints
  import Wire

  datatype Label = Start | End

  const PARTIES: nat := 3

  datatype Event =
    | Sync(event: SyncEvent<Label>)
    | Tick(sender: nat, wire: seq<Wire.Byte>)

  /** A tick as a participant records it: `_decode_tick` of the payload, and its sender. */
  datatype Heard = Heard(sender: nat, seqno: nat)

  datatype Pc =
    | Register(name: Label)        // about to call register_or_swallow
    | AwaitAnnounced(name: Label)  // inside wait_for_announced
    | Vote(name: Label)            // about to call synchronization_point_achieved
    | AwaitSynchronized(name: Label)
    | Drain(cycle: nat)             // inside the inner drain loop of a running-phase cycle
    | Emit(cycle: nat)              // drain loop left, output_handler not yet called
    | CatchUp                       // inside drain_peer_ticks
    | Done

  datatype Participant = Participant(
    pc: Pc,
    queue: seq<Event>,
    sent: seq<nat>,            // model.sent_ticks
    heard: seq<Heard>,         // the driver's received_ticks
    modelHeard: seq<Heard>,    // model.received_ticks
    duringSync: seq<Heard>,    // received_during_sync
    achieved: seq<Label>,
    synchronized: seq<Label>)

  /** `wins` is the history of successful registrations, in order. */
  datatype State = State(
    ticks: nat,
    parts: seq<Participant>,
    points: map<Label, Point>,
    wins: seq<Label>)

  datatype Action =
    | DoRegister(who: nat, acked: bool)
    | DoPop(who: nat)
    | DoStopDraining(who: nat)
    | DoEmit(who: nat)
    | DoFinishCatchUp(who: nat)
    | DoVote(who: nat)
    | DoRetire(name: Label)

  const NEWCOMER := Participant(Register(Start), [], [], [], [], [], [], [])

  function Initial(ticks: nat): State {
    State(ticks, [NEWCOMER, NEWCOMER, NEWCOMER], map[], [])
  }

  function Everyone(): set<Handle> { {0, 1, 2} }

  // --- The local program of one participant -------------------------------------------------

  /** Where a participant goes after a rendezvous. */
  function AfterSync(name: Label, ticks: nat): Pc {
    match name
    case Start => if ticks == 0 then CatchUp else Drain(0)
    case End => Done
  }

  /** `_decode_tick`: only 4-byte payloads carry a number. */
  function Decode(e: Event): seq<Heard>
    requires e.Tick?
  {
    if |e.wire| == 4 then [Heard(e.sender, Wire.FromBytes(e.wire))] else []
  }

  /** A tick is heard as the number that was sent; a payload of any other length is ignored. */
  lemma DecodeIs(e: Event, n: nat)
    requires e.Tick? && n < Wire.LIMIT
    ensures e.wire == Wire.ToBytes4(n) ==> Decode(e) == [Heard(e.sender, n)]
    ensures |e.wire| != 4 ==> Decode(e) == []
  {
    Wire.DecodeEncode(n);
  }

  /** A participant that blocks on its queue, or drains it. */
  predicate Popping(p: Participant, ticks: nat) {
    match p.pc
    case AwaitAnnounced(_) => true
    case AwaitSynchronized(_) => true
    case Drain(_) => true
    case CatchUp => |p.heard| < 2 * ticks
    case _ => false
  }

  /** One `queue.get_nowait()` and what the surrounding loop does with the event. */
  function Pop(p: Participant, ticks: nat): Participant
    requires Popping(p, ticks) && p.queue != []
  {
    var e, rest := p.queue[0], p.(queue := p.queue[1..]);
    match p.pc
    case AwaitAnnounced(l) =>
      if e == Sync(Announced(l)) then rest.(pc := Vote(l)) else HearDuringSync(rest, e)
    case AwaitSynchronized(l) =>
      if e.Sync? && e.event.Synchronized? && e.event.name == l
      then rest.(pc := AfterSync(l, ticks), synchronized := p.synchronized + [l])
      else HearDuringSync(rest, e)
    case _ =>
      if e.Tick? then rest.(heard := p.heard + Decode(e), modelHeard := p.modelHeard + Decode(e))
      else rest
  }

  /** `wait_for_event` on an event that does not match: ticks go to `on_tick`, the rest is dropped. */
  function HearDuringSync(p: Participant, e: Event): Participant {
    if e.Tick? then p.(duringSync := p.duringSync + Decode(e), modelHeard := p.modelHeard + Decode(e))
    else p
  }

  // --- The server ---------------------------------------------------------------------------

  function Push(p: Participant, e: Event): Participant {
    p.(queue := p.queue + [e])
  }

  /** One event to every required federate. */
  function Broadcast(parts: seq<Participant>, e: Event): (r: seq<Participant>)
    ensures |r| == |parts|
    ensures forall i :: 0 <= i < |parts| ==> r[i] == Push(parts[i], e)
  {
    seq(|parts|, i requires 0 <= i < |parts| => Push(parts[i], e))
  }

  /** `send_interaction`: a tick reaches both peers and not its sender. */
  function Fanout(parts: seq<Participant>, from: nat, e: Event): (r: seq<Participant>)
    ensures |r| == |parts|
    ensures forall i :: 0 <= i < |parts| ==> r[i] == if i == from then parts[i] else Push(parts[i], e)
  {
    seq(|parts|, i requires 0 <= i < |parts| => if i == from then parts[i] else Push(parts[i], e))
  }

  // --- Actions ------------------------------------------------------------------------------

  predicate Enabled(s: State, a: Action) {
    && |s.parts| == PARTIES
    && match a
       case DoRetire(l) => l in s.points && s.points[l].complete
       case _ =>
         && a.who < PARTIES
         && var p := s.parts[a.who];
         match a
         case DoRegister(_, _) => p.pc.Register?
         case DoPop(_) => Popping(p, s.ticks) && p.queue != []
         case DoStopDraining(_) => p.pc.Drain?
         case DoEmit(_) => p.pc.Emit? && |p.sent| + 1 < Wire.LIMIT
         case DoFinishCatchUp(_) => p.pc.CatchUp? && |p.heard| == 2 * s.ticks
         case DoVote(_) => p.pc.Vote? && Achieve(s.points, p.pc.name, a.who, true).Counted?
  }

  function Apply(s: State, a: Action): State
    requires Enabled(s, a)
  {
    match a
    case DoRegister(i, acked) => ApplyRegister(s, i, acked)
    case DoPop(i) => s.(parts := s.parts[i := Pop(s.parts[i], s.ticks)])
    case DoStopDraining(i) => s.(parts := s.parts[i := s.parts[i].(pc := Emit(s.parts[i].pc.cycle))])
    case DoEmit(i) => ApplyEmit(s, i)
    case DoFinishCatchUp(i) => s.(parts := s.parts[i := s.parts[i].(pc := Register(End))])
    case DoVote(i) => ApplyVote(s, i)
    case DoRetire(l) => s.(points := Retire(s.points, l))
  }

  /** `register_or_swallow`: the winner is acknowledged and the point announced to everyone; a
      loser sees either a failure event or an error that it swallows. */
  function ApplyRegister(s: State, i: nat, acked: bool): State
    requires |s.parts| == PARTIES && i < PARTIES && s.parts[i].pc.Register?
  {
    var l := s.parts[i].pc.name;
    var p := s.parts[i].(pc := AwaitAnnounced(l));
    var r := SyncPoints.Register(s.points, l, {}, Everyone());
    if r.Registered? then
      var parts := s.parts[i := Push(p, Sync(RegistrationSucceeded(l)))];
      s.(parts := Broadcast(parts, Sync(Announced(l))), points := r.points, wins := s.wins + [l])
    else
      s.(parts := s.parts[i := if acked then Push(p, Sync(RegistrationFailed(l))) else p])
  }

  function ApplyVote(s: State, i: nat): State
    requires |s.parts| == PARTIES && i < PARTIES && s.parts[i].pc.Vote?
    requires Achieve(s.points, s.parts[i].pc.name, i, true).Counted?
  {
    var l := s.parts[i].pc.name;
    var r := Achieve(s.points, l, i, true);
    var parts := s.parts[i := s.parts[i].(pc := AwaitSynchronized(l), achieved := s.parts[i].achieved + [l])];
    s.(parts := if r.completed then Broadcast(parts, Sync(Synchronized(l, r.points[l].failed))) else parts,
       points := r.points)
  }

  /** `output_handler` numbers the tick, `send_interaction` fans it out, the cycle ends. */
  function ApplyEmit(s: State, i: nat): State
    requires |s.parts| == PARTIES && i < PARTIES && s.parts[i].pc.Emit? && |s.parts[i].sent| + 1 < Wire.LIMIT
  {
    var p := s.parts[i];
    var k := p.pc.cycle;
    var next := |p.sent| + 1;
    var p' := p.(sent := p.sent + [next], pc := if k + 1 < s.ticks then Drain(k + 1) else CatchUp);
    s.(parts := Fanout(s.parts[i := p'], i, Tick(i, Wire.ToBytes4(next))))
  }

  /** A run is the list of actions taken; it is legal when each is enabled where it happens. */
  predicate Legal(s: State, run: seq<Action>)
    decreases |run|
  {
    run == [] || (Enabled(s, run[0]) && Legal(Apply(s, run[0]), run[1..]))
  }

  function Execute(s: State, run: seq<Action>): State
    requires Legal(s, run)
    decreases |run|
  {
    if run == [] then s else Execute(Apply(s, run[0]), run[1..])
  }
}
