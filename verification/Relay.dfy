/**
 The relay pipeline: a generator numbers messages, a bounded buffer forwards them at its own
 pace and drops arrivals while it is full, a processor records what it gets. The three
 models are objects that their drivers step; each method is proved against a function on
 the model's state, and the functions make up the transition system of the three processes.
 */
module Relay {
  import opened Outcomes
  import opened Wire

  type Payload = seq<Byte>

  /** What a driver hands to `external_transition`: the private parameter, a single named
      parameter, bare bytes, or something that carries no bytes. */
  datatype External = Private(raw: Payload) | Single(raw: Payload) | Bare(raw: Payload) | Unusable

  // --- Generator ----------------------------------------------------------------------------

  datatype GeneratorState = GeneratorState(stopAfter: int, tick: nat, published: seq<nat>)

  datatype Output = Silent | Emitted(wire: Payload) | Overflow

  /** The number is recorded before it is encoded, so an overflow leaves it recorded. */
  function GeneratorOutput(g: GeneratorState): (GeneratorState, Output) {
    if |g.published| >= g.stopAfter then (g, Silent)
    else
      var n := g.tick + 1;
      (g.(tick := n, published := g.published + [n]), if n < LIMIT then Emitted(ToBytes4(n)) else Overflow)
  }

  class Generator {
    var stopAfter: int
    var tick: nat
    var published: seq<nat>

    function State(): GeneratorState
      reads this
    {
      GeneratorState(stopAfter, tick, published)
    }

    constructor (stopAfter: int)
      ensures State() == GeneratorState(stopAfter, 0, [])
    {
      this.stopAfter, tick, published := stopAfter, 0, [];
    }

    method OutputHandler() returns (out: Output)
      modifies this
      ensures (State(), out) == GeneratorOutput(old(State()))
    {
      if |published| >= stopAfter { return Silent; }
      tick := tick + 1;
      published := published + [tick];
      if tick >= LIMIT { return Overflow; }
      out := Emitted(ToBytes4(tick));
    }
  }

  // --- Buffer -------------------------------------------------------------------------------

  datatype BufferState = BufferState(
    capacity: int, period: int, tick: nat, queue: seq<nat>, dropped: seq<nat>, forwarded: seq<nat>)

  /** The head is due on every N-th tick. */
  predicate Due(b: BufferState)
    requires b.period >= 1
  {
    b.queue != [] && b.tick % b.period == 0
  }

  function BufferOutput(b: BufferState): (BufferState, Output)
    requires b.period >= 1
  {
    var c := b.(tick := b.tick + 1);
    (c, if !Due(c) then Silent else if c.queue[0] < LIMIT then Emitted(ToBytes4(c.queue[0])) else Overflow)
  }

  function BufferInternal(b: BufferState): BufferState
    requires b.period >= 1
  {
    if Due(b) then b.(queue := b.queue[1..], forwarded := b.forwarded + [b.queue[0]]) else b
  }

  function BufferExternal(b: BufferState, port: string, e: External): BufferState {
    if port != "in_msg" || e.Unusable? then b
    else
      var n := FromBytes(e.raw);
      if |b.queue| >= b.capacity then b.(dropped := b.dropped + [n]) else b.(queue := b.queue + [n])
  }

  class Buffer {
    var capacity: int
    var period: int
    var tick: nat
    var queue: seq<nat>
    var dropped: seq<nat>
    var forwarded: seq<nat>

    function State(): BufferState
      reads this
    {
      BufferState(capacity, period, tick, queue, dropped, forwarded)
    }

    constructor (capacity: int, period: int)
      ensures State() == BufferState(capacity, period, 0, [], [], [])
    {
      this.capacity, this.period, tick := capacity, period, 0;
      queue, dropped, forwarded := [], [], [];
    }

    method OutputHandler() returns (out: Output)
      requires period >= 1
      modifies this`tick
      ensures (State(), out) == BufferOutput(old(State()))
    {
      tick := tick + 1;
      if queue == [] { return Silent; }
      if tick % period != 0 { return Silent; }
      if queue[0] >= LIMIT { return Overflow; }
      out := Emitted(ToBytes4(queue[0]));
    }

    method InternalTransition()
      requires period >= 1
      modifies this`queue, this`forwarded
      ensures State() == BufferInternal(old(State()))
    {
      if queue == [] { return; }
      if tick % period != 0 { return; }
      var head := queue[0];
      queue, forwarded := queue[1..], forwarded + [head];
    }

    method ExternalTransition(port: string, e: External)
      modifies this`queue, this`dropped
      ensures State() == BufferExternal(old(State()), port, e)
      ensures port != "in_msg" || e.Unusable? ==> queue == old(queue) && dropped == old(dropped)
      ensures port == "in_msg" && !e.Unusable? ==>
                if |old(queue)| < capacity then queue == old(queue) + [FromBytes(e.raw)] && dropped == old(dropped)
                else queue == old(queue) && dropped == old(dropped) + [FromBytes(e.raw)]
    {
      if port != "in_msg" || e.Unusable? { return; }
      var n := FromBytes(e.raw);
      if |queue| >= capacity {
        dropped := dropped + [n];
        return;
      }
      queue := queue + [n];
    }
  }

  /** The buffer's constructor refuses a capacity or a period below one. */
  method NewBuffer(capacity: int, period: int) returns (r: Result<BufferState>)
    ensures r.Error? <==> capacity < 1 || period < 1
    ensures r.Ok? ==> r.value == BufferState(capacity, period, 0, [], [], [])
  {
    if capacity < 1 || period < 1 { return Error; }
    var b := new Buffer(capacity, period);
    r := Ok(b.State());
  }

  // --- Processor ----------------------------------------------------------------------------

  function ProcessorExternal(received: seq<nat>, port: string, e: External): seq<nat> {
    if port != "in_msg" || e.Unusable? then received else received + [FromBytes(e.raw)]
  }

  class Processor {
    var received: seq<nat>

    constructor ()
      ensures received == []
    {
      received := [];
    }

    method ExternalTransition(port: string, e: External)
      modifies this
      ensures received == ProcessorExternal(old(received), port, e)
      ensures received == if port == "in_msg" && !e.Unusable? then old(received) + [FromBytes(e.raw)] else old(received)
    {
      if port != "in_msg" || e.Unusable? { return; }
      received := received + [FromBytes(e.raw)];
    }
  }

  // --- The drivers --------------------------------------------------------------------------

  /** An event on a federate's stream: an interaction of the mapped class, or anything else, which
      the drain throws away. */
  datatype Event = Interaction(wire: Payload) | Foreign

  function BufferEvent(b: BufferState, e: Event): BufferState {
    if e.Foreign? then b else BufferExternal(b, "in_msg", Private(e.wire))
  }

  function BufferEvents(b: BufferState, events: seq<Event>): BufferState {
    if events == [] then b else BufferEvent(BufferEvents(b, events[..|events| - 1]), events[|events| - 1])
  }

  /** `drain_externals_now`: every event that is there, in order. */
  method Drain(events: seq<Event>, model: Buffer) returns (delivered: nat)
    modifies model
    ensures model.State() == BufferEvents(old(model.State()), events)
    ensures delivered == |Payloads(events)|
  {
    delivered := 0;
    assert events[..|events|] == events;
    for i := 0 to |events|
      invariant model.State() == BufferEvents(old(model.State()), events[..i])
      invariant delivered == |Payloads(events[..i])|
    {
      assert events[..i + 1][..i] == events[..i];
      PayloadsPush(events[..i], events[i]);
      assert events[..i + 1] == events[..i] + [events[i]];
      if events[i].Interaction? {
        model.ExternalTransition("in_msg", Private(events[i].wire));
        delivered := delivered + 1;
      }
    }
  }

  /** `emit_outputs_now`: the output goes out before the internal transition pops it. */
  method Emit(model: Buffer) returns (out: Output)
    requires model.period >= 1
    modifies model
    ensures out == BufferOutput(old(model.State())).1
    ensures model.State() == if out.Overflow? then BufferOutput(old(model.State())).0
                             else BufferInternal(BufferOutput(old(model.State())).0)
  {
    out := model.OutputHandler();
    if out.Overflow? { return; }
    model.InternalTransition();
  }

  /** The payloads among the events. */
  function Payloads(events: seq<Event>): seq<Payload> {
    if events == [] then []
    else if events[0].Interaction? then [events[0].wire] + Payloads(events[1..])
    else Payloads(events[1..])
  }

  lemma {:induction false} PayloadsPush(events: seq<Event>, e: Event)
    ensures Payloads(events + [e]) == Payloads(events) + if e.Interaction? then [e.wire] else []
    decreases |events|
  {
    if events == [] {
      assert [] + [e] == [e] && [e][1..] == [];
    } else {
      assert (events + [e])[1..] == events[1..] + [e];
      PayloadsPush(events[1..], e);
    }
  }

  // --- The three processes ------------------------------------------------------------------

  /** `sending` is the point between sending the head and popping it. */
  datatype State = State(
    gen: GeneratorState,
    crashed: bool,
    first: seq<Event>,
    buffer: BufferState,
    sending: bool,
    second: seq<Event>,
    received: seq<nat>)

  datatype Action =
    | Generate
    | BufferReceive
    | BufferSend
    | BufferPop
    | ProcessorReceive
    | NoiseFirst
    | NoiseSecond

  function Initial(messages: int, capacity: int, period: int): State
    requires capacity >= 1 && period >= 1
  {
    State(GeneratorState(messages, 0, []), false, [], BufferState(capacity, period, 0, [], [], []), false, [], [])
  }

  predicate Enabled(s: State, a: Action) {
    match a
    case Generate => !s.crashed
    case BufferReceive => !s.sending && s.first != []
    case BufferSend => !s.sending && s.buffer.period >= 1 && !BufferOutput(s.buffer).1.Overflow?
    case BufferPop => s.sending && s.buffer.period >= 1
    case ProcessorReceive => s.second != []
    case NoiseFirst => true
    case NoiseSecond => true
  }

  function Apply(s: State, a: Action): State
    requires Enabled(s, a)
  {
    match a
    case Generate =>
      var (g, out) := GeneratorOutput(s.gen);
      (match out
       case Silent => s.(gen := g)
       case Emitted(wire) => s.(gen := g, first := s.first + [Interaction(wire)])
       case Overflow => s.(gen := g, crashed := true))
    case BufferReceive => s.(first := s.first[1..], buffer := BufferEvent(s.buffer, s.first[0]))
    case BufferSend =>
      var (b, out) := BufferOutput(s.buffer);
      s.(buffer := b, sending := true, second := if out.Emitted? then s.second + [Interaction(out.wire)] else s.second)
    case BufferPop => s.(buffer := BufferInternal(s.buffer), sending := false)
    case ProcessorReceive =>
      s.(second := s.second[1..],
         received := if s.second[0].Foreign? then s.received
                     else ProcessorExternal(s.received, "in_msg", Private(s.second[0].wire)))
    case NoiseFirst => s.(first := s.first + [Foreign])
    case NoiseSecond => s.(second := s.second + [Foreign])
  }

  predicate Legal(s: State, run: seq<Action>)
    decreases |run|
  {
    run == [] || (Enabled(s, run[0]) && Legal(Apply(s, run[0]), run[1..]))
  }

  function Execute(s: State, run: seq<Action>): State
    requires Legal(s, run)
    decreases |run|
  {
    if run == [] then s else Execute(Apply(s, run[0]), run[1..])
  }
}
