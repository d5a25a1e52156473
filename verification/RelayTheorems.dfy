/**
 Conservation, order and pacing through the relay in every reachable state, and the exact
 condition under which the runner's verdict on a finished run is positive.
 */
module RelayTheorems {
  import opened Division
  import opened Outcomes
  import opened Wire
  import opened Relay

  // --- Sequences ----------------------------------------------------------------------------

  /** `list(range(1, n + 1))`. */
  function UpTo(n: nat): (r: seq<nat>)
    ensures |r| == n && forall i :: 0 <= i < n ==> r[i] == i + 1
  {
    seq(n, i requires 0 <= i < n => i + 1)
  }

  /** `whole` is an order-preserving interleaving of `a` and `b`. */
  ghost predicate Interleaving(whole: seq<nat>, a: seq<nat>, b: seq<nat>)
    decreases |whole|
  {
    if whole == [] then a == [] && b == []
    else
      var n := |whole| - 1;
      || (a != [] && a[|a| - 1] == whole[n] && Interleaving(whole[..n], a[..|a| - 1], b))
      || (b != [] && b[|b| - 1] == whole[n] && Interleaving(whole[..n], a, b[..|b| - 1]))
  }

  lemma InterleavingPush(whole: seq<nat>, a: seq<nat>, b: seq<nat>, x: nat)
    requires Interleaving(whole, a, b)
    ensures Interleaving(whole + [x], a + [x], b) && Interleaving(whole + [x], a, b + [x])
  {
    assert (whole + [x])[..|whole|] == whole && (a + [x])[..|a|] == a && (b + [x])[..|b|] == b;
  }

  lemma {:induction false} InterleavingSize(whole: seq<nat>, a: seq<nat>, b: seq<nat>)
    requires Interleaving(whole, a, b)
    ensures |whole| == |a| + |b|
    decreases |whole|
  {
    if whole != [] {
      var n := |whole| - 1;
      if a != [] && a[|a| - 1] == whole[n] && Interleaving(whole[..n], a[..|a| - 1], b) {
        InterleavingSize(whole[..n], a[..|a| - 1], b);
      } else {
        InterleavingSize(whole[..n], a, b[..|b| - 1]);
      }
    }
  }

  /** An interleaving of 1..n splits it into two increasing, disjoint, exhaustive parts. */
  ghost predicate Splits(n: nat, a: seq<nat>, b: seq<nat>) {
    && Increasing(a, n) && Increasing(b, n)
    && (forall x :: x in a ==> x !in b)
    && (forall x :: 1 <= x <= n ==> x in a || x in b)
  }

  ghost predicate Increasing(s: seq<nat>, n: nat) {
    && (forall i :: 0 <= i < |s| ==> 1 <= s[i] <= n)
    && (forall i, j :: 0 <= i < j < |s| ==> s[i] < s[j])
  }

  lemma SplitsPush(n: nat, a: seq<nat>, b: seq<nat>)
    requires n > 0 && Splits(n - 1, a, b)
    ensures Splits(n, a + [n], b) && Splits(n, a, b + [n])
  {
    assert Increasing(a + [n], n) && Increasing(b + [n], n);
    assert (a + [n])[|a|] == n && (b + [n])[|b|] == n;
    assert forall x :: x in a ==> x in a + [n];
    assert forall x :: x in b ==> x in b + [n];
    forall x | x in a + [n] ensures x == n || x in a {}
    forall x | x in b + [n] ensures x == n || x in b {}
  }

  lemma {:induction false} InterleavingSplits(n: nat, a: seq<nat>, b: seq<nat>)
    requires Interleaving(UpTo(n), a, b)
    ensures Splits(n, a, b)
    decreases n
  {
    if n > 0 {
      assert UpTo(n)[..n - 1] == UpTo(n - 1);
      if a != [] && a[|a| - 1] == n && Interleaving(UpTo(n - 1), a[..|a| - 1], b) {
        var k := |a| - 1;
        InterleavingSplits(n - 1, a[..k], b);
        SplitsPush(n, a[..k], b);
        assert a == a[..k] + [n];
      } else {
        var k := |b| - 1;
        InterleavingSplits(n - 1, a, b[..k]);
        SplitsPush(n, a, b[..k]);
        assert b == b[..k] + [n];
      }
    }
  }

  // --- What is on the wire ------------------------------------------------------------------

  /** The numbers that the events carry. */
  ghost function Numbers(events: seq<Event>): seq<nat> {
    if events == [] then []
    else if events[0].Interaction? then [FromBytes(events[0].wire)] + Numbers(events[1..])
    else Numbers(events[1..])
  }

  lemma {:induction false} NumbersPush(events: seq<Event>, e: Event)
    ensures Numbers(events + [e]) == Numbers(events) + if e.Interaction? then [FromBytes(e.wire)] else []
    decreases |events|
  {
    if events == [] {
      assert [] + [e] == [e] && [e][1..] == [];
    } else {
      assert (events + [e])[1..] == events[1..] + [e];
      NumbersPush(events[1..], e);
    }
  }

  /** A sent number arrives as the same number. */
  lemma NumbersSend(events: seq<Event>, n: nat)
    requires n < LIMIT
    ensures Numbers(events + [Interaction(ToBytes4(n))]) == Numbers(events) + [n]
  {
    DecodeEncode(n);
    NumbersPush(events, Interaction(ToBytes4(n)));
  }

  // --- The invariant ------------------------------------------------------------------------

  /** What the generator put on the wire: everything recorded, but for a number that overflowed. */
  ghost function Sent(s: State): nat {
    if s.crashed && s.gen.published != [] then |s.gen.published| - 1 else |s.gen.published|
  }

  ghost predicate Counting(s: State) {
    && s.gen.published == UpTo(s.gen.tick)
    && (if s.crashed then s.gen.tick == LIMIT else s.gen.tick < LIMIT)
  }

  /** Everything sent is at the buffer or still on its way, in order. */
  ghost predicate FirstHop(s: State) { InOrder(Numbers(s.first), Sent(s), s.buffer) }

  ghost predicate InOrder(travelling: seq<nat>, sent: nat, b: BufferState) {
    && |travelling| <= sent
    && travelling == UpTo(sent)[sent - |travelling|..]
    && Interleaving(UpTo(sent - |travelling|), b.forwarded + b.queue, b.dropped)
  }

  /** The head between being sent and being popped. */
  ghost function InTransit(s: State): seq<nat>
    requires s.buffer.period >= 1
  {
    if s.sending && Due(s.buffer) then [s.buffer.queue[0]] else []
  }

  /** Everything forwarded, or being forwarded, is at the processor or on its way, in order. */
  ghost predicate SecondHop(s: State) {
    s.buffer.period >= 1 && s.received + Numbers(s.second) == s.buffer.forwarded + InTransit(s)
  }

  ghost predicate Paced(s: State) {
    && s.buffer.capacity >= 1 && s.buffer.period >= 1
    && |s.buffer.queue| <= s.buffer.capacity
    && |s.buffer.forwarded| + |InTransit(s)| <= s.buffer.tick / s.buffer.period
  }

  ghost predicate Inv(s: State) { Counting(s) && FirstHop(s) && SecondHop(s) && Paced(s) }

  /** Arrivals so far. */
  ghost function Arrivals(s: State): nat
    requires |Numbers(s.first)| <= Sent(s)
  {
    Sent(s) - |Numbers(s.first)|
  }

  lemma OneMoreTravels(travelling: seq<nat>, sent: nat, b: BufferState)
    requires InOrder(travelling, sent, b)
    ensures InOrder(travelling + [sent + 1], sent + 1, b)
  {
    var k := sent - |travelling|;
    assert UpTo(sent + 1)[k..] == UpTo(sent)[k..] + [sent + 1];
  }

  lemma GenerateFirstHop(s: State)
    requires Counting(s) && FirstHop(s) && Enabled(s, Generate)
    ensures Counting(Apply(s, Generate)) && FirstHop(Apply(s, Generate))
  {
    var s' := Apply(s, Generate);
    var n := s.gen.tick + 1;
    if |s.gen.published| < s.gen.stopAfter {
      assert s'.gen.published == UpTo(n);
      if n < LIMIT {
        NumbersSend(s.first, n);
        OneMoreTravels(Numbers(s.first), Sent(s), s.buffer);
      }
    }
  }

  lemma StepGenerate(s: State)
    requires Inv(s) && Enabled(s, Generate)
    ensures Inv(Apply(s, Generate))
  {
    GenerateFirstHop(s);
    var s' := Apply(s, Generate);
    assert s'.buffer == s.buffer && s'.sending == s.sending && s'.second == s.second && s'.received == s.received;
    assert InTransit(s') == InTransit(s);
  }

  lemma UpToHead(n: nat, k: nat)
    requires k < n
    ensures UpTo(n)[k..] == [k + 1] + UpTo(n)[k + 1..]
  {}

  /** The first number on its way arrives and extends the interleaving on one side or the other. */
  lemma OneArrives(x: nat, rest: seq<nat>, sent: nat, b: BufferState, wire: Payload)
    requires InOrder([x] + rest, sent, b) && FromBytes(wire) == x
    ensures InOrder(rest, sent, BufferEvent(b, Interaction(wire)))
  {
    var k := sent - |rest| - 1;
    UpToHead(sent, k);
    assert x == ([x] + rest)[0] == k + 1;
    assert rest == ([x] + rest)[1..] == UpTo(sent)[k + 1..];
    assert UpTo(k + 1) == UpTo(k) + [x];
    InterleavingPush(UpTo(k), b.forwarded + b.queue, b.dropped, x);
    assert (b.forwarded + b.queue) + [x] == b.forwarded + (b.queue + [x]);
  }

  lemma ReceiveFirstHop(s: State)
    requires FirstHop(s) && Enabled(s, BufferReceive)
    ensures FirstHop(Apply(s, BufferReceive))
  {
    var s' := Apply(s, BufferReceive);
    if s.first[0].Interaction? {
      OneArrives(FromBytes(s.first[0].wire), Numbers(s'.first), Sent(s), s.buffer, s.first[0].wire);
    }
  }

  lemma StepBufferReceive(s: State)
    requires Inv(s) && Enabled(s, BufferReceive)
    ensures Inv(Apply(s, BufferReceive))
  {
    var s' := Apply(s, BufferReceive);
    ReceiveFirstHop(s);
    var b, b' := s.buffer, s'.buffer;
    assert b' == b.(queue := b'.queue, dropped := b'.dropped) && |b'.queue| <= b.capacity;
    assert InTransit(s') == [] && InTransit(s) == [];
    assert SecondHop(s') && Paced(s');
  }

  /** What the buffer holds are numbers that fit into the payload. */
  lemma QueueFits(s: State)
    requires Counting(s) && FirstHop(s)
    ensures forall i :: 0 <= i < |s.buffer.queue| ==> s.buffer.queue[i] < LIMIT
  {
    var b := s.buffer;
    InterleavingSplits(Arrivals(s), b.forwarded + b.queue, b.dropped);
    forall i | 0 <= i < |b.queue| ensures b.queue[i] < LIMIT {
      assert (b.forwarded + b.queue)[|b.forwarded| + i] == b.queue[i];
    }
  }

  /** The quotient moves exactly at the multiples. */
  lemma WholeQuotient(t: nat, p: nat)
    requires p >= 1
    ensures (t + 1) / p == t / p + if (t + 1) % p == 0 then 1 else 0
  {
    var q, r := t / p, t % p;
    assert t == q * p + r;
    if r + 1 == p {
      assert t + 1 == (q + 1) * p;
      Remainder(t + 1, p, q + 1, 0);
    } else {
      Remainder(t + 1, p, q, r + 1);
    }
  }

  lemma StepBufferSend(s: State)
    requires Inv(s) && Enabled(s, BufferSend)
    ensures Inv(Apply(s, BufferSend))
  {
    var s' := Apply(s, BufferSend);
    WholeQuotient(s.buffer.tick, s.buffer.period);
    assert InTransit(s) == [];
    if Due(s'.buffer) {
      var head := s.buffer.queue[0];
      NumbersSend(s.second, head);
      assert InTransit(s') == [head];
      assert s.received + (Numbers(s.second) + [head]) == (s.received + Numbers(s.second)) + [head];
    } else {
      assert InTransit(s') == [];
    }
  }

  lemma PopInOrder(travelling: seq<nat>, sent: nat, b: BufferState)
    requires InOrder(travelling, sent, b) && b.period >= 1
    ensures InOrder(travelling, sent, BufferInternal(b))
  {
    if Due(b) {
      assert b.queue == [b.queue[0]] + b.queue[1..];
      assert (b.forwarded + [b.queue[0]]) + b.queue[1..] == b.forwarded + b.queue;
    }
  }

  /** What was sent is what is popped. */
  lemma StepBufferPop(s: State)
    requires Inv(s) && Enabled(s, BufferPop)
    ensures Inv(Apply(s, BufferPop))
    ensures Apply(s, BufferPop).buffer.forwarded == s.buffer.forwarded + InTransit(s)
  {
    var s' := Apply(s, BufferPop);
    PopInOrder(Numbers(s.first), Sent(s), s.buffer);
    assert s'.buffer.forwarded == s.buffer.forwarded + InTransit(s);
    assert InTransit(s') == [];
    assert s'.buffer.forwarded + [] == s'.buffer.forwarded;
  }

  lemma ProcessorSecondHop(s: State)
    requires SecondHop(s) && Enabled(s, ProcessorReceive)
    ensures SecondHop(Apply(s, ProcessorReceive))
  {
    var s' := Apply(s, ProcessorReceive);
    assert InTransit(s') == InTransit(s);
    if s.second[0].Interaction? {
      var x := FromBytes(s.second[0].wire);
      assert Numbers(s.second) == [x] + Numbers(s'.second);
      assert (s.received + [x]) + Numbers(s'.second) == s.received + ([x] + Numbers(s'.second));
    }
  }

  lemma StepProcessor(s: State)
    requires Inv(s) && Enabled(s, ProcessorReceive)
    ensures Inv(Apply(s, ProcessorReceive))
  {
    var s' := Apply(s, ProcessorReceive);
    ProcessorSecondHop(s);
    assert Sent(s') == Sent(s) && FirstHop(s');
    assert InTransit(s') == InTransit(s);
  }

  lemma StepNoiseFirst(s: State)
    requires Inv(s)
    ensures Inv(s.(first := s.first + [Foreign]))
  {
    var s' := s.(first := s.first + [Foreign]);
    NumbersPush(s.first, Foreign);
    assert Numbers(s'.first) == Numbers(s.first) && Sent(s') == Sent(s) && InTransit(s') == InTransit(s);
  }

  lemma StepNoiseSecond(s: State)
    requires Inv(s)
    ensures Inv(s.(second := s.second + [Foreign]))
  {
    var s' := s.(second := s.second + [Foreign]);
    NumbersPush(s.second, Foreign);
    assert Numbers(s'.second) == Numbers(s.second) && Sent(s') == Sent(s) && InTransit(s') == InTransit(s);
  }

  lemma StepKeeps(s: State, a: Action)
    requires Inv(s) && Enabled(s, a)
    ensures Inv(Apply(s, a))
  {
    match a
    case Generate => StepGenerate(s);
    case BufferReceive => StepBufferReceive(s);
    case BufferSend => StepBufferSend(s);
    case BufferPop => StepBufferPop(s);
    case ProcessorReceive => StepProcessor(s);
    case NoiseFirst => StepNoiseFirst(s);
    case NoiseSecond => StepNoiseSecond(s);
  }

  lemma {:induction false} RunKeeps(s: State, run: seq<Action>)
    requires Inv(s) && Legal(s, run)
    ensures Inv(Execute(s, run))
    decreases |run|
  {
    if run != [] {
      StepKeeps(s, run[0]);
      RunKeeps(Apply(s, run[0]), run[1..]);
    }
  }

  lemma Reached(messages: int, capacity: int, period: int, run: seq<Action>)
    requires capacity >= 1 && period >= 1 && Legal(Initial(messages, capacity, period), run)
    ensures Inv(Execute(Initial(messages, capacity, period), run))
  {
    var s := Initial(messages, capacity, period);
    assert UpTo(0) == [] && s.gen.published == UpTo(0);
    assert [] + s.buffer.queue == [];
    assert InTransit(s) == [] && s.received + Numbers(s.second) == [];
    RunKeeps(s, run);
  }

  // --- Conservation and pacing --------------------------------------------------------------

  /** In no reachable state does the buffer have to encode a number that does not fit. */
  lemma BufferNeverOverflows(messages: int, capacity: int, period: int, run: seq<Action>)
    requires capacity >= 1 && period >= 1 && Legal(Initial(messages, capacity, period), run)
    ensures var s := Execute(Initial(messages, capacity, period), run);
            && (forall i :: 0 <= i < |s.buffer.queue| ==> s.buffer.queue[i] < LIMIT)
            && s.buffer.period >= 1 && !BufferOutput(s.buffer).1.Overflow?
  {
    Reached(messages, capacity, period, run);
    QueueFits(Execute(Initial(messages, capacity, period), run));
  }

  /** In every reachable state: the published numbers are an interleaving, in order, of what was
      forwarded or is queued with what was dropped, followed by what is on the way to the
      buffer; and what was forwarded, with the head that is being sent, is what the processor
      got followed by what is on the way to it. */
  lemma Conservation(messages: int, capacity: int, period: int, run: seq<Action>)
    requires capacity >= 1 && period >= 1 && Legal(Initial(messages, capacity, period), run)
    ensures var s := Execute(Initial(messages, capacity, period), run);
            && s.buffer.period >= 1 && |Numbers(s.first)| <= Sent(s)
            && s.gen.published == UpTo(Arrivals(s)) + Numbers(s.first) + (if s.crashed then [LIMIT] else [])
            && Interleaving(UpTo(Arrivals(s)), s.buffer.forwarded + s.buffer.queue, s.buffer.dropped)
            && s.received + Numbers(s.second) == s.buffer.forwarded + InTransit(s)
  {
    Reached(messages, capacity, period, run);
    var s := Execute(Initial(messages, capacity, period), run);
    assert UpTo(Sent(s)) == UpTo(Arrivals(s)) + UpTo(Sent(s))[Arrivals(s)..];
  }

  /** The queue never exceeds its capacity; no more is forwarded than the service rate allows;
      so what does not fit into queue and rate has been dropped. */
  lemma Pacing(messages: int, capacity: int, period: int, run: seq<Action>)
    requires capacity >= 1 && period >= 1 && Legal(Initial(messages, capacity, period), run)
    ensures var s := Execute(Initial(messages, capacity, period), run);
            && s.buffer.period >= 1 && |Numbers(s.first)| <= Sent(s)
            && |s.buffer.queue| <= s.buffer.capacity
            && |s.buffer.forwarded| <= s.buffer.tick / s.buffer.period
            && |s.buffer.dropped| >= Arrivals(s) - s.buffer.capacity - s.buffer.tick / s.buffer.period
  {
    Reached(messages, capacity, period, run);
    var s := Execute(Initial(messages, capacity, period), run);
    InterleavingSize(UpTo(Arrivals(s)), s.buffer.forwarded + s.buffer.queue, s.buffer.dropped);
  }

  // --- The drain loop -----------------------------------------------------------------------

  function Receives(n: nat): seq<Action> { if n == 0 then [] else [BufferReceive] + Receives(n - 1) }

  lemma BufferEventsFirst(b: BufferState, e: Event, rest: seq<Event>)
    ensures BufferEvents(b, [e] + rest) == BufferEvents(BufferEvent(b, e), rest)
    decreases |rest|
  {
    var all := [e] + rest;
    if rest == [] {
      assert all[..0] == [] && all == [e];
    } else {
      var n := |rest| - 1;
      BufferEventsFirst(b, e, rest[..n]);
      assert all[..|all| - 1] == [e] + rest[..n];
    }
  }

  /** Draining `n` events is a legal run of `n` receptions. */
  lemma {:induction false} DrainIsRun(s: State, n: nat)
    requires !s.sending && n <= |s.first|
    ensures Legal(s, Receives(n))
    ensures Execute(s, Receives(n)) == s.(first := s.first[n..], buffer := BufferEvents(s.buffer, s.first[..n]))
    decreases n
  {
    if n == 0 {
      assert s.first[..0] == [] && s.first[0..] == s.first;
    } else {
      var t := Apply(s, BufferReceive);
      assert Receives(n)[1..] == Receives(n - 1);
      DrainIsRun(t, n - 1);
      assert s.first[..n] == [s.first[0]] + t.first[..n - 1];
      BufferEventsFirst(s.buffer, s.first[0], t.first[..n - 1]);
    }
  }

  // --- Exact counts -------------------------------------------------------------------------

  /** A number arrives while the queue is full. */
  predicate FindsFull(s: State, a: Action) {
    a == BufferReceive && s.first != [] && s.first[0].Interaction? && |s.buffer.queue| == s.buffer.capacity
  }

  /** A tick on which the head would go out finds no head. */
  predicate FindsEmpty(s: State, a: Action) {
    a == BufferSend && s.buffer.period >= 1 && (s.buffer.tick + 1) % s.buffer.period == 0 && s.buffer.queue == []
  }

  function Count(s: State, run: seq<Action>, which: (State, Action) -> bool): nat
    requires Legal(s, run)
    decreases |run|
  {
    if run == [] then 0 else (if which(s, run[0]) then 1 else 0) + Count(Apply(s, run[0]), run[1..], which)
  }

  predicate IsTick(s: State, a: Action) { a == BufferSend }
  predicate IsGenerate(s: State, a: Action) { a == Generate }

  /** What has been served, or is being served. */
  ghost function Served(s: State): nat
    requires s.buffer.period >= 1
  {
    |s.buffer.forwarded| + |InTransit(s)|
  }

  function Capped(n: nat, limit: int): nat { if n <= limit then n else if limit < 0 then 0 else limit }

  lemma StepCounts(s: State, a: Action)
    requires Inv(s) && Enabled(s, a)
    ensures var s' := Apply(s, a);
            && s'.buffer.period == s.buffer.period && s'.buffer.capacity == s.buffer.capacity
            && s'.gen.stopAfter == s.gen.stopAfter
            && s'.buffer.tick == s.buffer.tick + (if IsTick(s, a) then 1 else 0)
            && |s'.buffer.dropped| == |s.buffer.dropped| + (if FindsFull(s, a) then 1 else 0)
  {}

  lemma StepServes(s: State, a: Action)
    requires Inv(s) && Enabled(s, a)
    ensures var s' := Apply(s, a);
            && s'.buffer.period == s.buffer.period
            && Served(s') + (if FindsEmpty(s, a) then 1 else 0) + s.buffer.tick / s.buffer.period ==
               Served(s) + s'.buffer.tick / s.buffer.period
  {
    if a == BufferSend { WholeQuotient(s.buffer.tick, s.buffer.period); }
    if a == BufferPop { StepBufferPop(s); }
  }

  lemma StepGenerates(s: State, a: Action)
    requires Inv(s) && Enabled(s, a)
    ensures var s' := Apply(s, a);
            && s'.gen.stopAfter == s.gen.stopAfter
            && |s'.gen.published| == |s.gen.published| +
                 (if IsGenerate(s, a) && |s.gen.published| < s.gen.stopAfter then 1 else 0)
  {}

  lemma {:induction false} RunCounts(s: State, run: seq<Action>)
    requires Inv(s) && Legal(s, run)
    ensures var e := Execute(s, run);
            && Inv(e) && e.buffer.period == s.buffer.period
            && e.buffer.tick == s.buffer.tick + Count(s, run, IsTick)
            && |e.buffer.dropped| == |s.buffer.dropped| + Count(s, run, FindsFull)
            && Served(e) + Count(s, run, FindsEmpty) + s.buffer.tick / s.buffer.period ==
               Served(s) + e.buffer.tick / s.buffer.period
    decreases |run|
  {
    if run != [] {
      StepKeeps(s, run[0]);
      StepCounts(s, run[0]);
      StepServes(s, run[0]);
      RunCounts(Apply(s, run[0]), run[1..]);
    }
  }

  lemma {:induction false} RunGenerates(s: State, run: seq<Action>)
    requires Inv(s) && Legal(s, run) && (|s.gen.published| <= s.gen.stopAfter || s.gen.published == [])
    ensures |Execute(s, run).gen.published| ==
            if s.gen.stopAfter < 0 then 0 else Capped(|s.gen.published| + Count(s, run, IsGenerate), s.gen.stopAfter)
    decreases |run|
  {
    if run != [] {
      StepKeeps(s, run[0]);
      StepGenerates(s, run[0]);
      RunGenerates(Apply(s, run[0]), run[1..]);
    }
  }

  /** Exact counts in every reachable state: one number is published per turn of the generator up to its
      limit; a number is dropped exactly when it finds the queue full; and of the ticks on which
      the head is due, each serves one number unless it finds the queue empty. */
  lemma Accounting(messages: int, capacity: int, period: int, run: seq<Action>)
    requires capacity >= 1 && period >= 1 && Legal(Initial(messages, capacity, period), run)
    ensures var start := Initial(messages, capacity, period);
            var s := Execute(start, run);
            && |s.gen.published| == Capped(Count(start, run, IsGenerate), messages)
            && |s.buffer.dropped| == Count(start, run, FindsFull)
            && s.buffer.period >= 1
            && Served(s) == Count(start, run, IsTick) / period - Count(start, run, FindsEmpty)
  {
    var start := Initial(messages, capacity, period);
    Reached(messages, capacity, period, []);
    RunCounts(start, run);
    RunGenerates(start, run);
  }

  // --- Only what does not fit is dropped ----------------------------------------------------

  ghost predicate LaterOnly(b: BufferState) { forall i :: 0 <= i < |b.dropped| ==> b.dropped[i] > b.capacity }

  lemma StepLaterOnly(s: State, a: Action)
    requires Inv(s) && Enabled(s, a) && LaterOnly(s.buffer)
    ensures LaterOnly(Apply(s, a).buffer)
  {
    if FindsFull(s, a) {
      var b := s.buffer;
      InterleavingSize(UpTo(Arrivals(s)), b.forwarded + b.queue, b.dropped);
      assert Numbers(s.first)[0] == FromBytes(s.first[0].wire);
    }
  }

  lemma {:induction false} RunLaterOnly(s: State, run: seq<Action>)
    requires Inv(s) && Legal(s, run) && LaterOnly(s.buffer)
    ensures LaterOnly(Execute(s, run).buffer)
    decreases |run|
  {
    if run != [] {
      StepKeeps(s, run[0]);
      StepLaterOnly(s, run[0]);
      RunLaterOnly(Apply(s, run[0]), run[1..]);
    }
  }

  /** As many numbers as the queue has places are never dropped, so that drops take more arrivals
      than that. */
  lemma DropsNeedAFullQueue(messages: int, capacity: int, period: int, run: seq<Action>)
    requires capacity >= 1 && period >= 1 && Legal(Initial(messages, capacity, period), run)
    ensures var s := Execute(Initial(messages, capacity, period), run);
            && |Numbers(s.first)| <= Sent(s)
            && (forall i :: 0 <= i < |s.buffer.dropped| ==> s.buffer.dropped[i] > capacity)
            && (s.buffer.dropped != [] ==> Arrivals(s) > capacity)
  {
    Reached(messages, capacity, period, []);
    Reached(messages, capacity, period, run);
    RunLaterOnly(Initial(messages, capacity, period), run);
    CapacityFixed(Initial(messages, capacity, period), run);
    DroppedHasArrived(Execute(Initial(messages, capacity, period), run));
  }

  lemma DroppedHasArrived(s: State)
    requires Counting(s) && FirstHop(s) && LaterOnly(s.buffer)
    ensures s.buffer.dropped != [] ==> Arrivals(s) > s.buffer.capacity
  {
    InterleavingSplits(Arrivals(s), s.buffer.forwarded + s.buffer.queue, s.buffer.dropped);
    assert s.buffer.dropped != [] ==> s.buffer.capacity < s.buffer.dropped[0] <= Arrivals(s);
  }

  lemma {:induction false} CapacityFixed(s: State, run: seq<Action>)
    requires Legal(s, run)
    ensures Execute(s, run).buffer.capacity == s.buffer.capacity
    decreases |run|
  {
    if run != [] { CapacityFixed(Apply(s, run[0]), run[1..]); }
  }

  /** The head goes out on every N-th tick that finds one, and the processor will read its number. */
  lemma HeadGoesOut(s: State)
    requires Inv(s) && Enabled(s, BufferSend) && s.buffer.queue != [] && (s.buffer.tick + 1) % s.buffer.period == 0
    ensures Numbers(Apply(s, BufferSend).second) == Numbers(s.second) + [s.buffer.queue[0]]
    ensures var t := Apply(s, BufferSend);
            Enabled(t, BufferPop) && Apply(t, BufferPop).buffer.forwarded == s.buffer.forwarded + [s.buffer.queue[0]]
            && Apply(t, BufferPop).buffer.queue == s.buffer.queue[1..]
  {
    QueueFits(s);
    NumbersSend(s.second, s.buffer.queue[0]);
  }

  // --- The verdict --------------------------------------------------------------------------

  function Elements(s: seq<nat>): set<nat> { set x | x in s }

  predicate Duplicates(s: seq<nat>) { |s| != |Elements(s)| }

  datatype Report = Report(
    published: seq<nat>, forwarded: seq<nat>, dropped: seq<nat>, received: seq<nat>, residual: seq<nat>,
    messages: nat, failures: bool)

  datatype Verdict = Accepted | ExitFailure | HasDuplicates | WrongNumbers | NothingPublished | Leak | Overlap | Mismatch

  /** `verify`: the checks in their order. */
  function Verify(r: Report): Verdict {
    if r.failures then ExitFailure
    else if Duplicates(r.published) || Duplicates(r.forwarded) || Duplicates(r.dropped)
            || Duplicates(r.received) || Duplicates(r.residual) then HasDuplicates
    else if r.published != UpTo(r.messages) then WrongNumbers
    else if Elements(r.published) == {} then NothingPublished
    else if Elements(r.forwarded) + Elements(r.dropped) + Elements(r.residual) != Elements(r.published) then Leak
    else if Elements(r.forwarded) * Elements(r.dropped) != {} then Overlap
    else if r.received != r.forwarded then Mismatch
    else Accepted
  }

  /** What the runner collects when the three processes have ended. */
  function Collect(s: State, messages: nat): Report {
    Report(s.gen.published, s.buffer.forwarded, s.buffer.dropped, s.received, s.buffer.queue, messages, s.crashed)
  }

  ghost predicate Distinct(s: seq<nat>) { forall i, j :: 0 <= i < j < |s| ==> s[i] != s[j] }

  lemma DistinctPush(s: seq<nat>, x: nat)
    ensures Distinct(s + [x]) <==> Distinct(s) && x !in s
    ensures Elements(s + [x]) == Elements(s) + {x}
  {
    var t := s + [x];
    if Distinct(t) {
      forall i, j | 0 <= i < j < |s| ensures s[i] != s[j] { assert t[i] != t[j]; }
      forall i | 0 <= i < |s| ensures s[i] != x { assert t[i] != t[|s|]; }
    }
    forall y ensures y in t <==> y in s || y == x { assert t[|s|] == x; }
  }

  lemma {:induction false} DuplicatesIs(s: seq<nat>)
    ensures Duplicates(s) <==> !Distinct(s)
    ensures |Elements(s)| <= |s|
    decreases |s|
  {
    if s != [] {
      var n := |s| - 1;
      DuplicatesIs(s[..n]);
      DistinctPush(s[..n], s[n]);
      assert s == s[..n] + [s[n]];
      if s[n] in s[..n] { assert Elements(s) == Elements(s[..n]); }
    }
  }

  lemma IncreasingDistinct(s: seq<nat>, n: nat)
    requires Increasing(s, n)
    ensures !Duplicates(s)
  {
    DuplicatesIs(s);
  }

  /** What a positive verdict means, for any report: the generator numbered its messages without a gap,
      each was forwarded, dropped or left over, none both forwarded and dropped, nothing is
      listed twice, and the processor got what was forwarded. That a number is not both left
      over and something else is not asked. */
  lemma VerifyIs(r: Report)
    ensures Verify(r) == Accepted <==>
            && !r.failures && r.messages >= 1 && r.published == UpTo(r.messages)
            && Distinct(r.forwarded) && Distinct(r.dropped) && Distinct(r.residual)
            && (forall x :: 1 <= x <= r.messages <==> x in r.forwarded || x in r.dropped || x in r.residual)
            && (forall x :: x in r.forwarded ==> x !in r.dropped)
            && r.received == r.forwarded
  {
    DuplicatesIs(r.published); DuplicatesIs(r.forwarded); DuplicatesIs(r.dropped);
    DuplicatesIs(r.received); DuplicatesIs(r.residual);
    ElementsUpTo(r.messages);
    assert r.messages >= 1 ==> 1 in Elements(UpTo(r.messages));
    CoversIs(r.forwarded, r.dropped, r.residual, r.messages);
    ApartIs(r.forwarded, r.dropped);
  }

  lemma CoversIs(a: seq<nat>, b: seq<nat>, c: seq<nat>, n: nat)
    ensures Elements(a) + Elements(b) + Elements(c) == Elements(UpTo(n)) <==>
            forall x :: 1 <= x <= n <==> x in a || x in b || x in c
  {
    ElementsUpTo(n);
    var all := Elements(a) + Elements(b) + Elements(c);
    assert forall x :: x in all <==> x in a || x in b || x in c;
  }

  lemma ApartIs(a: seq<nat>, b: seq<nat>)
    ensures Elements(a) * Elements(b) == {} <==> forall x :: x in a ==> x !in b
  {
    assert forall x :: x in Elements(a) * Elements(b) <==> x in a && x in b;
  }

  /** For a run in which the generator published all its messages, the verdict is positive exactly
      when nothing is left on the way: the first channel is empty, and the second holds at
      most the head that the buffer has sent and not popped yet. */
  lemma VerdictIsExact(messages: nat, capacity: int, period: int, run: seq<Action>)
    requires capacity >= 1 && period >= 1 && messages >= 1 && Legal(Initial(messages, capacity, period), run)
    requires var s := Execute(Initial(messages, capacity, period), run); !s.crashed && s.gen.published == UpTo(messages)
    ensures var s := Execute(Initial(messages, capacity, period), run);
            s.buffer.period >= 1 &&
            (Verify(Collect(s, messages)) == Accepted <==> Numbers(s.first) == [] && Numbers(s.second) == InTransit(s))
  {
    Reached(messages, capacity, period, run);
    var s := Execute(Initial(messages, capacity, period), run);
    VerdictOf(s, messages);
  }

  lemma ReceivedIs(s: State)
    requires SecondHop(s)
    ensures s.received == s.buffer.forwarded <==> Numbers(s.second) == InTransit(s)
  {
    var f, t := s.buffer.forwarded, InTransit(s);
    assert (f + t)[..|f|] == f && (f + t)[|f|..] == t;
    assert (s.received + Numbers(s.second))[..|s.received|] == s.received;
    assert (s.received + Numbers(s.second))[|s.received|..] == Numbers(s.second);
  }

  lemma PartsIncrease(s: State)
    requires Counting(s) && FirstHop(s)
    ensures Increasing(s.buffer.forwarded, Arrivals(s)) && Increasing(s.buffer.queue, Arrivals(s))
    ensures Increasing(s.buffer.dropped, Arrivals(s))
    ensures forall x :: 1 <= x <= Arrivals(s) ==> x in s.buffer.forwarded || x in s.buffer.queue || x in s.buffer.dropped
    ensures forall x :: x in s.buffer.forwarded ==> x !in s.buffer.dropped
  {
    var b := s.buffer;
    var both := b.forwarded + b.queue;
    InterleavingSplits(Arrivals(s), both, b.dropped);
    assert b.forwarded == both[..|b.forwarded|] && b.queue == both[|b.forwarded|..];
  }

  lemma ReceivedIncreases(s: State)
    requires Counting(s) && FirstHop(s) && SecondHop(s)
    ensures Increasing(s.received, Arrivals(s))
  {
    var b := s.buffer;
    var both := b.forwarded + b.queue;
    InterleavingSplits(Arrivals(s), both, b.dropped);
    assert b.forwarded + InTransit(s) == both[..|b.forwarded| + |InTransit(s)|];
    assert s.received == (s.received + Numbers(s.second))[..|s.received|];
  }

  lemma VerdictOf(s: State, messages: nat)
    requires Inv(s) && !s.crashed && messages >= 1 && s.gen.published == UpTo(messages)
    ensures Verify(Collect(s, messages)) == Accepted <==> Numbers(s.first) == [] && Numbers(s.second) == InTransit(s)
  {
    var b, k := s.buffer, Arrivals(s);
    assert Sent(s) == messages;
    PartsIncrease(s);
    ReceivedIncreases(s);
    ReceivedIs(s);
    IncreasingDistinct(b.forwarded, k);
    IncreasingDistinct(b.queue, k);
    IncreasingDistinct(b.dropped, k);
    IncreasingDistinct(s.received, k);
    IncreasingDistinct(UpTo(messages), messages);
    ElementsUpTo(messages);
    assert 1 in Elements(UpTo(messages));
    SeenIs(b.forwarded, b.dropped, b.queue, k, messages);
    assert k == messages <==> Numbers(s.first) == [];
  }

  lemma ElementsUpTo(n: nat)
    ensures forall x :: x in Elements(UpTo(n)) <==> 1 <= x <= n
  {
    forall x ensures x in Elements(UpTo(n)) <==> 1 <= x <= n {
      if 1 <= x <= n { assert UpTo(n)[x - 1] == x; }
    }
  }

  /** The numbers seen at the buffer are all published ones exactly when all have arrived. */
  lemma SeenIs(forwarded: seq<nat>, dropped: seq<nat>, queue: seq<nat>, k: nat, n: nat)
    requires Increasing(forwarded, k) && Increasing(dropped, k) && Increasing(queue, k) && k <= n
    requires forall x :: 1 <= x <= k ==> x in forwarded || x in queue || x in dropped
    requires forall x :: x in forwarded ==> x !in dropped
    ensures Elements(forwarded) + Elements(dropped) + Elements(queue) == Elements(UpTo(n)) <==> k == n
    ensures Elements(forwarded) * Elements(dropped) == {}
  {
    var seen := Elements(forwarded) + Elements(dropped) + Elements(queue);
    ElementsUpTo(n);
    forall x ensures x in seen <==> 1 <= x <= k {}
    if k == n {
      assert seen == Elements(UpTo(n));
    } else {
      assert n in Elements(UpTo(n)) && n !in seen;
    }
  }
}
