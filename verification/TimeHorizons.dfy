/**
 What one federate's time state promises: the least timestamp it may still send, the least
 timestamp it may still be given, and how every step on that federate alone moves the two.
 */
module TimeHorizons {
  import opened Outcomes
  import opened TimeManagement

  // --- Send floors as numbers ---------------------------------------------------------------

  /** The least timestamp the federate may still use, before the cap at the final time. */
  ghost function Floor(f: Federate): nat {
    OutgoingBase(f) + OutgoingLookahead(f) + if OutgoingExclusive(f) then 1 else 0
  }

  /** The same after the pending request is granted at `at`. */
  ghost function FloorAfter(f: Federate, at: nat): nat {
    var t := Max(f.current, Min(at, f.requested));
    var la := Projected(f, t);
    t + la + if la == 0 && (Strict(f.mode) || (f.strict && t <= f.current)) then 1 else 0
  }

  ghost predicate Reaches(floor: nat, x: int) { floor > FINAL || floor >= x }

  ghost function Capped(floor: nat): Bound { if floor > FINAL then Unbounded else Finite(floor) }

  lemma SendHorizonIs(f: Federate)
    ensures SendHorizon(f) == Capped(Floor(f))
  {}

  lemma AfterGrantIs(f: Federate, at: nat)
    ensures AfterGrant(f, at) == Capped(FloorAfter(f, at))
  {
    var t := Max(f.current, Min(at, f.requested));
    SendHorizonIs(f.(current := t, strict := Strict(f.mode) || (f.strict && t <= f.current),
                     lookahead := Projected(f, t), pending := false));
  }

  /** The check on outgoing timestamps lets through exactly the timestamps at or above the send
      horizon that the server computes grants from. */
  lemma ValidationMatchesHorizon(f: Federate, timestamp: nat)
    requires f.regulating && timestamp <= FINAL
    ensures Accepts(f, timestamp) <==> SendHorizon(f).Finite? && timestamp >= SendHorizon(f).limit
    ensures Accepts(f, timestamp) <==> timestamp >= Floor(f)
  {
    SendHorizonIs(f);
  }

  /** No message below `x` can still come from this federate, whatever it is granted next. */
  ghost predicate SendsFrom(f: Federate, x: int) {
    && Reaches(Floor(f), x)
    && (MayGrantEarly(f) && f.flushMinimum.Some? ==> Reaches(FloorAfter(f, f.flushMinimum.value), x))
    && (MayGrantEarly(f) ==>
          forall j :: 0 <= j < |f.queue| && f.queue[j] < f.requested ==> Reaches(FloorAfter(f, f.queue[j]), x))
  }

  /** The server's horizon of a regulator says exactly that. */
  lemma AvailableIs(f: Federate, x: int)
    ensures AtLeast(Available(f), x) <==> SendsFrom(f, x)
  {
    SendHorizonIs(f);
    if MayGrantEarly(f) {
      var b := SendHorizon(f);
      if f.flushMinimum.Some? {
        AfterGrantIs(f, f.flushMinimum.value);
        b := Least(b, AfterGrant(f, f.flushMinimum.value));
      }
      LoweredIs(f, f.queue, b, x);
    }
  }

  lemma {:induction false} LoweredIs(f: Federate, queue: seq<nat>, b: Bound, x: int)
    ensures AtLeast(LowerByQueue(f, queue, b), x) <==>
            AtLeast(b, x) &&
            forall j :: 0 <= j < |queue| && queue[j] < f.requested ==> Reaches(FloorAfter(f, queue[j]), x)
    decreases |queue|
  {
    if queue != [] {
      AfterGrantIs(f, queue[0]);
      var b' := if queue[0] < f.requested then Least(b, AfterGrant(f, queue[0])) else b;
      LoweredIs(f, queue[1..], b', x);
      assert forall j :: 1 <= j < |queue| ==> queue[j] == queue[1..][j - 1];
      assert forall j :: 0 <= j < |queue| - 1 ==> queue[1..][j] == queue[j + 1];
    }
  }

  // --- What a constrained federate was promised ---------------------------------------------

  /** The first timestamp a constrained federate may still be given. With `strict` this counts
      the promise of a time-advance or next-message grant, after which even the granted time
      itself is closed; without it only the past is closed. */
  ghost function Opens(f: Federate, strict: bool): int {
    Frontier(f) + if strict && FrontierClosed(f) then 1 else 0
  }

  ghost predicate Shape(f: Federate) {
    && (f.pending || f.regulationPending || f.constrainedPending ==> f.joined)
    && (f.pending ==> f.current <= f.requested)
    && (!f.constrained ==> f.queue == [] && f.preserved.None? && f.received.None? && f.log == [])
    && (f.preserved.Some? ==> f.preserved.value <= f.current)
    && (f.regulationPending ==> !f.regulating && !f.pending)
    && (f.constrainedPending ==> !f.constrained && !f.pending)
  }

  /** A lookahead decrease never outruns logical time. */
  ghost predicate Reduction(f: Federate) {
    f.reducing ==>
      && f.regulating && f.originTime <= f.current
      && f.lookaheadTarget < f.lookahead == f.originValue - (f.current - f.originTime)
  }

  /** Messages delivered ahead of the current time belong to the request that is being served. */
  ghost predicate Progress(f: Federate) {
    && (f.received.Some? && f.received.value > f.current ==>
          (f.pending && f.received.value <= f.requested && f.mode != FQR) || f.regulationPending)
    && (f.constrained && f.pending && NextMessage(f.mode) ==>
          if f.flushMinimum.Some? then f.received == f.flushMinimum
          else f.received.None? || f.received.value <= f.current)
  }

  /** Nothing that waits for the federate, or was just given to it, lies before its opening. */
  ghost predicate Fenced(f: Federate, strict: bool) {
    && (forall j :: 0 <= j < |f.queue| ==> f.queue[j] >= Opens(f, strict))
    && (MayGrantEarly(f) && f.flushMinimum.Some? ==> f.flushMinimum.value >= Opens(f, strict))
  }

  /** Deliveries in timestamp order so far were in timestamp order. */
  ghost predicate Ordered(f: Federate) {
    && (forall i, j :: 0 <= i < j < |f.log| ==> f.log[i] <= f.log[j])
    && (forall i :: 0 <= i < |f.log| ==> f.log[i] <= Frontier(f))
  }

  /** After a strict grant a regulator does not send at the granted time itself. */
  ghost predicate InStep(f: Federate) {
    f.constrained && f.regulating && f.preserved == Some(f.current) ==> f.strict || f.lookahead >= 1
  }

  ghost predicate Sound(f: Federate, strict: bool) {
    && Shape(f) && Reduction(f) && Progress(f) && Fenced(f, strict) && Ordered(f)
    && (strict ==> InStep(f))
  }

  /** A federate never sends into its own past. */
  lemma OwnFloor(f: Federate, strict: bool)
    requires Sound(f, strict) && f.regulating && f.constrained
    ensures SendsFrom(f, Opens(f, strict))
  {
    forall x: nat | x >= Opens(f, strict) && f.pending && x < f.requested
      ensures FloorAfter(f, x) >= Opens(f, strict)
    {}
  }

  /** A message waiting in the queue of a constrained federate moves its own floor at most down
      to the message. */
  lemma ArrivalFloor(f: Federate, ts: nat, x: int)
    requires SendsFrom(f, x) && ts >= f.current && ts >= x
    ensures SendsFrom(f.(queue := f.queue + [ts]), x)
  {
    var g := f.(queue := f.queue + [ts]);
    assert Floor(g) == Floor(f);
    forall j | 0 <= j < |g.queue| && g.queue[j] < g.requested && MayGrantEarly(g)
      ensures Reaches(FloorAfter(g, g.queue[j]), x)
    {
      if j < |f.queue| { assert FloorAfter(g, g.queue[j]) == FloorAfter(f, f.queue[j]); }
    }
    if MayGrantEarly(g) && g.flushMinimum.Some? {
      assert FloorAfter(g, g.flushMinimum.value) == FloorAfter(f, f.flushMinimum.value);
    }
  }

  // --- Advance requests and grants ----------------------------------------------------------

  lemma ProjectedBounds(f: Federate, at: nat)
    requires Reduction(f) && at >= f.current
    ensures Projected(f, at) <= f.lookahead
    ensures at + Projected(f, at) >= f.current + f.lookahead
    ensures at == f.current ==> Projected(f, at) == f.lookahead
  {}

  /** Asking to advance never lowers the floor, not even to where the request may end early. */
  lemma RequestRaises(f: Federate, m: Mode, target: nat, x: int)
    requires Reduction(f) && !f.pending && target >= f.current && SendsFrom(f, x)
    ensures SendsFrom(f.(pending := true, requested := target, mode := m, flushMinimum := None), x)
  {
    var g := f.(pending := true, requested := target, mode := m, flushMinimum := None);
    ProjectedBounds(f, target);
    assert Projected(g, target) == Projected(f, target);
    forall at: nat | at <= target ensures FloorAfter(g, at) >= Floor(f) {
      var t := Max(f.current, Min(at, target));
      ProjectedBounds(f, t);
      assert Projected(g, t) == Projected(f, t);
    }
  }

  /** The floor after a grant, as planned and as it turns out. */
  lemma GrantedFloor(f: Federate, at: nat)
    requires f.regulating && f.pending && f.current <= at <= f.requested
    ensures Floor(Granted(f, at)) == FloorAfter(f, at)
    ensures FloorAfter(f, f.requested) == Floor(f)
    ensures FloorAfter(f, at) >= at
  {}

  ghost predicate IsNext(f: Federate, t: nat) {
    (f.flushMinimum == Some(t) && (NextMessage(f.mode) || f.mode == FQR)) ||
    exists j :: 0 <= j < |f.queue| && f.queue[j] == t
  }

  lemma NextIs(f: Federate)
    ensures var n := NextGrantMessage(f);
            && (n.Some? ==> IsNext(f, n.value))
            && (forall j :: 0 <= j < |f.queue| ==> n.Some? && n.value <= f.queue[j])
            && (f.flushMinimum.Some? && (NextMessage(f.mode) || f.mode == FQR) ==>
                  n.Some? && n.value <= f.flushMinimum.value)
  {
    var flushed := if f.mode == FQR || NextMessage(f.mode) then f.flushMinimum else None;
    EarliestIs(f.queue, flushed);
  }

  lemma {:induction false} EarliestIs(queue: seq<nat>, best: Option<nat>)
    ensures var n := Earliest(queue, best);
            && (n.Some? ==> n == best || exists j :: 0 <= j < |queue| && queue[j] == n.value)
            && (best.Some? ==> n.Some? && n.value <= best.value)
            && (forall j :: 0 <= j < |queue| ==> n.Some? && n.value <= queue[j])
    decreases |queue|
  {
    if queue != [] {
      var best' := if best.None? || queue[0] < best.value then Some(queue[0]) else best;
      EarliestIs(queue[1..], best');
      assert forall j :: 1 <= j < |queue| ==> queue[j] == queue[1..][j - 1];
      assert forall j :: 0 <= j < |queue| - 1 ==> queue[1..][j] == queue[j + 1];
    }
  }

  /** A grant decision, case by case. */
  lemma DecisionIs(f: Federate, bound: Bound, t: nat)
    requires Shape(f) && f.pending && f.constrained
    requires Decide(f.mode, f.current, f.requested, bound, NextGrantMessage(f)) == Some(t)
    ensures f.current <= t <= f.requested
    ensures t == f.current || AtLeast(bound, t)
    ensures f.mode != FQR ==> AtLeast(bound, if Strict(f.mode) then t + 1 else t)
    ensures t == f.requested
            || (MayGrantEarly(f) && t < f.requested && IsNext(f, t))
            || (f.mode == FQR && bound.Finite? && t >= bound.limit)
            || (f.mode == FQR && t == f.current && exists n: nat :: n <= t && IsNext(f, n))
    ensures NextMessage(f.mode) && f.flushMinimum.Some? && f.current <= f.flushMinimum.value
            && (forall j :: 0 <= j < |f.queue| ==> f.flushMinimum.value <= f.queue[j])
            ==> t == Min(f.flushMinimum.value, f.requested)
    ensures f.mode == FQR && t > f.current ==> forall j :: 0 <= j < |f.queue| ==> f.queue[j] >= t
  {
    NextIs(f);
    var n := NextGrantMessage(f);
    if f.mode == FQR && n.Some? { assert IsNext(f, n.value); }
  }

  /** Granting keeps every promise the federate made as a sender. */
  lemma GrantSends(f: Federate, bound: Bound, t: nat, x: int)
    requires Shape(f) && f.pending && f.regulating && SendsFrom(f, x)
    requires if f.constrained
             then Decide(f.mode, f.current, f.requested, bound, NextGrantMessage(f)) == Some(t) && AtLeast(bound, x)
                  && Fenced(f, false)
             else t == f.requested
    ensures SendsFrom(Granted(f, t), x)
  {
    if f.constrained {
      DecisionIs(f, bound, t);
      GrantedFloor(f, t);
      forall n: nat | n <= t && t == f.current && IsNext(f, n) && f.mode == FQR ensures n == t {}
    } else {
      GrantedFloor(f, t);
    }
  }

  /** Granting keeps what the federate was promised as a receiver. */
  lemma GrantSound(f: Federate, bound: Bound, t: nat, strict: bool)
    requires Sound(f, strict) && f.pending
    requires if f.constrained
             then Decide(f.mode, f.current, f.requested, bound, NextGrantMessage(f)) == Some(t)
             else t == f.requested
    requires f.mode != FQR ==> NothingDue(f, t)
    ensures Sound(Granted(f, t), strict)
    ensures f.constrained ==> Opens(Granted(f, t), strict) == Opens(f, strict)
                              || AtLeast(bound, Opens(Granted(f, t), strict))
    ensures f.constrained ==> Opens(Granted(f, t), strict) >= Opens(f, strict)
  {
    var g := Granted(f, t);
    if f.constrained {
      DecisionIs(f, bound, t);
      ProjectedBounds(f, t);
      assert f.received.Some? ==> f.received.value <= t;
      assert Frontier(g) == t;
      assert t == f.current && !Strict(f.mode) ==> Opens(g, strict) == Opens(f, strict);
    }
  }
}
