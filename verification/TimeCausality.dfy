/**
 Causality of the whole federation: no constrained federate is ever given, or has waiting for
 it, a message from before the time it has been promised. The invariant relates every pair
 of a regulating sender and a constrained receiver, and every step of the server keeps it.
 */
module TimeCausality {
  import opened Outcomes
  import opened TimeManagement
  import opened TimeHorizons

  /** Every regulator still sends at or above what every constrained peer was promised. */
  ghost predicate Paired(s: Federation, strict: bool) {
    forall i, j :: 0 <= i < |s| && 0 <= j < |s| && i != j && s[i].regulating && s[j].constrained ==>
      SendsFrom(s[i], Opens(s[j], strict))
  }

  ghost predicate AllSound(s: Federation, strict: bool) {
    forall i :: 0 <= i < |s| ==> Sound(s[i], strict)
  }

  ghost predicate Safe(s: Federation, strict: bool) {
    AllSound(s, strict) && Paired(s, strict)
  }

  /** No regulator at all can still send below `x`. */
  ghost predicate Clear(s: Federation, x: int) {
    forall i :: 0 <= i < |s| && s[i].regulating ==> SendsFrom(s[i], x)
  }

  lemma SafeIsClear(s: Federation, strict: bool, j: nat)
    requires Safe(s, strict) && j < |s| && s[j].constrained
    ensures Clear(s, Opens(s[j], strict))
  {
    if s[j].regulating { OwnFloor(s[j], strict); }
  }

  // --- The bounds the server computes -------------------------------------------------------

  lemma {:induction false} LeastOfIs(bs: seq<Bound>, x: int)
    ensures AtLeast(LeastOf(bs), x) <==> forall i :: 0 <= i < |bs| ==> AtLeast(bs[i], x)
  {
    if bs != [] {
      var rest := bs[..|bs| - 1];
      LeastOfIs(rest, x);
      assert forall i :: 0 <= i < |rest| ==> rest[i] == bs[i];
      if AtLeast(LeastOf(bs), x) {
        forall i | 0 <= i < |bs| ensures AtLeast(bs[i], x) {
          if i < |rest| { assert AtLeast(rest[i], x); }
        }
      }
    }
  }

  lemma {:induction false} LbtsIs(s: Federation, x: int)
    ensures AtLeast(Lbts(s), x) <==> forall i :: 0 <= i < |s| && s[i].regulating ==> Reaches(Floor(s[i]), x)
  {
    if s != [] {
      var rest := s[..|s| - 1];
      LbtsIs(rest, x);
      SendHorizonIs(s[|s| - 1]);
      assert forall i :: 0 <= i < |rest| ==> rest[i] == s[i];
      if AtLeast(Lbts(s), x) {
        forall i | 0 <= i < |s| && s[i].regulating ensures Reaches(Floor(s[i]), x) {
          if i < |rest| { assert Reaches(Floor(rest[i]), x); }
        }
      }
    }
  }

  lemma SnapshotsAre(s: Federation, x: int)
    ensures AtLeast(LeastOf(Snapshots(s)), x) <==> Clear(s, x)
  {
    LeastOfIs(Snapshots(s), x);
    forall i | 0 <= i < |s| ensures AtLeast(Snapshots(s)[i], x) <==> (s[i].regulating ==> SendsFrom(s[i], x)) {
      AvailableIs(s[i], x);
    }
  }

  /** A flush request granted at an incoming horizon sends no earlier than that horizon. */
  lemma FlushedReaches(f: Federate, b: Bound, incoming: Bound, x: int)
    requires AtLeast(b, x) && AtLeast(incoming, x)
    ensures AtLeast(FlushedBy(f, b, incoming), x)
  {
    if incoming.Finite? { AfterGrantIs(f, incoming.limit); }
  }

  /** What bounds a receiver bounds every peer that could send to it. */
  lemma GaltClears(s: Federation, i: nat, x: int)
    requires i < |s| && AtLeast(Galt(s, i), x)
    ensures forall m :: 0 <= m < |s| && m != i && s[m].regulating ==> SendsFrom(s[m], x)
  {
    LeastOfIs(Without(Propagated(s), i), x);
    forall m | 0 <= m < |s| && m != i && s[m].regulating ensures SendsFrom(s[m], x) {
      assert AtLeast(Without(Propagated(s), i)[m], x);
      AvailableIs(s[m], x);
    }
  }

  /** The least timestamp that anybody at all can still send. */
  ghost predicate IsFloor(s: Federation, l: nat) { Clear(s, l) && !Clear(s, l + 1) }

  lemma FloorIs(s: Federation, l: nat)
    ensures IsFloor(s, l) <==> LeastOf(Snapshots(s)) == Finite(l)
  {
    SnapshotsAre(s, l);
    SnapshotsAre(s, l + 1);
  }

  /** A regulator that flushes may be granted at the floor, and then send from there. */
  ghost predicate FlushReaches(s: Federation, m: nat, x: int)
    requires m < |s|
  {
    s[m].constrained && s[m].pending && s[m].mode == FQR ==>
      forall l: nat :: l < s[m].requested && IsFloor(s, l) ==> Reaches(FloorAfter(s[m], l), x)
  }

  lemma PropagatedIs(s: Federation, m: nat, x: int)
    requires m < |s| && s[m].regulating
    ensures AtLeast(Propagated(s)[m], x) <==> SendsFrom(s[m], x) && FlushReaches(s, m, x)
  {
    AvailableIs(s[m], x);
    var least := LeastOf(Snapshots(s));
    forall l: nat ensures IsFloor(s, l) <==> least == Finite(l) { FloorIs(s, l); }
    if least.Finite? { AfterGrantIs(s[m], least.limit); }
  }

  /** What bounds a receiver, exactly: what every other regulator can still send, a flushing one also
      after a grant at the floor of the whole federation. */
  lemma GaltIs(s: Federation, i: nat, x: int)
    requires i < |s|
    ensures AtLeast(Galt(s, i), x) <==>
            forall m :: 0 <= m < |s| && m != i && s[m].regulating ==> SendsFrom(s[m], x) && FlushReaches(s, m, x)
  {
    var bounds := Without(Propagated(s), i);
    LeastOfIs(bounds, x);
    forall m | 0 <= m < |s|
      ensures AtLeast(bounds[m], x) <==> (m != i && s[m].regulating ==> SendsFrom(s[m], x) && FlushReaches(s, m, x))
    {
      if s[m].regulating { PropagatedIs(s, m, x); }
    }
  }

  /** Conversely the bounds are no lower than what every regulator guarantees. */
  lemma ClearBounds(s: Federation, i: nat, x: int)
    requires i < |s| && Clear(s, x)
    ensures AtLeast(Lbts(s), x) && AtLeast(Galt(s, i), x)
  {
    LbtsIs(s, x);
    SnapshotsAre(s, x);
    LeastOfIs(Snapshots(s), x);
    LeastOfIs(Without(Propagated(s), i), x);
    forall m | 0 <= m < |s| ensures AtLeast(Without(Propagated(s), i)[m], x) {
      FlushedReaches(s[m], Snapshots(s)[m], LeastOf(Snapshots(s)), x);
    }
  }

  /** The regulation time is late enough for every constrained peer. */
  lemma {:induction false} RegulationTimeIs(s: Federation, i: nat, la: nat, k: nat, from: nat, j: nat, strict: bool)
    requires k <= |s| && RegulationTime(s, i, la, k, from).Some?
    ensures RegulationTime(s, i, la, k, from).value >= from
    ensures k <= j < |s| && j != i && s[j].constrained ==>
              RegulationTime(s, i, la, k, from).value + la >= Opens(s[j], strict)
    decreases |s| - k
  {
    if k < |s| {
      if k == i || !s[k].constrained {
        RegulationTimeIs(s, i, la, k + 1, from, j, strict);
      } else {
        var lower := Frontier(s[k]) - la;
        var next := Max(from, if FrontierClosed(s[k]) then lower + 1 else lower);
        RegulationTimeIs(s, i, la, k + 1, next, j, strict);
      }
    }
  }

  // --- Steps of one federate ----------------------------------------------------------------

  ghost predicate Quiet(step: Step) {
    || step.Resign? || step.RequestRegulation? || step.RequestConstrained? || step.DisableRegulation?
    || step.DisableConstrained? || step.ModifyLookahead? || step.RequestAdvance? || step.Flush?
  }

  lemma DropIs(queue: seq<nat>, k: nat, x: int)
    requires k < |queue| && forall j :: 0 <= j < |queue| ==> queue[j] >= x
    ensures forall j :: 0 <= j < |Drop(queue, k)| ==> Drop(queue, k)[j] >= x
  {}

  /** Requests and withdrawals leave the opening where it was. */
  lemma QuietSound(f: Federate, step: Step, strict: bool)
    requires Sound(f, strict) && Admissible(f, step) && Quiet(step)
    ensures var g := Alone(f, step);
            && Sound(g, strict)
            && (g.constrained ==> f.constrained && Opens(g, strict) == Opens(f, strict))
            && (g.regulating ==> f.regulating)
  {
    if step.Flush? {
      FlushSound(f, step.k, step.kept, strict);
    } else if step.RequestAdvance? {
      RequestSound(f, step.how, step.target, strict);
    } else if step.ModifyLookahead? {
      ModifySound(f, step.interval, strict);
    } else if !step.Resign? {
      WithdrawalSound(f, step, strict);
    }
  }

  lemma WithdrawalSound(f: Federate, step: Step, strict: bool)
    requires Sound(f, strict) && Admissible(f, step)
    requires step.RequestRegulation? || step.RequestConstrained? || step.DisableRegulation? || step.DisableConstrained?
    ensures var g := Alone(f, step);
            Sound(g, strict) && (g.constrained ==> Opens(g, strict) == Opens(f, strict))
  {}

  lemma RequestSound(f: Federate, m: Mode, target: nat, strict: bool)
    requires Sound(f, strict) && Admissible(f, RequestAdvance(m, target))
    ensures var g := Alone(f, RequestAdvance(m, target));
            Sound(g, strict) && (g.constrained ==> Opens(g, strict) == Opens(f, strict))
  {}

  lemma ModifySound(f: Federate, la: nat, strict: bool)
    requires Sound(f, strict) && Admissible(f, ModifyLookahead(la))
    ensures Sound(Modified(f, la), strict)
    ensures Opens(Modified(f, la), strict) == Opens(f, strict)
  {
    var g := Modified(f, la);
    assert Frontier(g) == Frontier(f) && FrontierClosed(g) == FrontierClosed(f);
    assert Reduction(g);
    assert Shape(g) && Progress(g);
    assert Fenced(g, strict) && Ordered(g);
  }

  lemma FlushSound(f: Federate, k: nat, kept: bool, strict: bool)
    requires Sound(f, strict) && f.pending && f.constrained && f.mode == FQR && k < |f.queue|
    ensures Sound(Flushed(f, k, kept), strict)
    ensures Opens(Flushed(f, k, kept), strict) == Opens(f, strict)
  {
    DropIs(f.queue, k, Opens(f, strict));
    var g := Flushed(f, k, kept);
    assert Frontier(g) == Frontier(f) && g.preserved == f.preserved;
  }

  /** The two states have the same clock and differ at most in queues and delivery records. */
  ghost predicate SameClock(f: Federate, g: Federate) {
    g == f.(queue := g.queue, flushMinimum := g.flushMinimum, received := g.received, log := g.log)
  }

  lemma SameFloors(f: Federate, g: Federate, at: nat)
    requires SameClock(f, g)
    ensures Floor(g) == Floor(f) && FloorAfter(g, at) == FloorAfter(f, at)
  {}

  /** Removing messages lowers the floor no further, because a delivered message is remembered
      in the flush minimum. */
  lemma RemovalSends(f: Federate, g: Federate, x: int)
    requires f.pending ==> f.current <= f.requested
    requires SendsFrom(f, x) && SameClock(f, g)
    requires forall j :: 0 <= j < |g.queue| ==> g.queue[j] in f.queue
    requires g.flushMinimum.None? || g.flushMinimum == f.flushMinimum || g.flushMinimum.value in f.queue
    ensures SendsFrom(g, x)
  {
    SameFloors(f, g, 0);
    if MayGrantEarly(g) {
      assert MayGrantEarly(f);
      forall ts: nat | ts in f.queue ensures Reaches(FloorAfter(g, ts), x) {
        SameFloors(f, g, ts);
        var j :| 0 <= j < |f.queue| && f.queue[j] == ts;
        if ts < f.requested {
          assert Reaches(FloorAfter(f, f.queue[j]), x);
        } else {
          assert FloorAfter(f, ts) == Floor(f);
        }
      }
      if g.flushMinimum == f.flushMinimum && f.flushMinimum.Some? {
        SameFloors(f, g, f.flushMinimum.value);
      }
    }
  }

  lemma DropWithin(queue: seq<nat>, k: nat)
    requires k < |queue|
    ensures forall j :: 0 <= j < |Drop(queue, k)| ==> Drop(queue, k)[j] in queue
  {}

  lemma QuietSends(f: Federate, step: Step, strict: bool, x: int)
    requires Sound(f, strict) && Admissible(f, step) && Quiet(step)
    requires f.regulating && SendsFrom(f, x) && Alone(f, step).regulating
    ensures SendsFrom(Alone(f, step), x)
  {
    if step.RequestAdvance? {
      RequestRaises(f, step.how, step.target, x);
    } else if step.Flush? {
      DropWithin(f.queue, step.k);
      RemovalSends(f, Flushed(f, step.k, step.kept), x);
    }
  }

  ghost predicate MayRelease(f: Federate, k: nat, limit: nat) {
    && f.constrained && IsEarliest(f.queue, k) && f.queue[k] <= limit
    && ((f.pending && f.mode != FQR && limit <= f.requested) || (f.regulationPending && !f.pending))
    && (f.pending && NextMessage(f.mode) && f.flushMinimum.Some? ==> limit <= f.flushMinimum.value)
  }

  /** Releasing the earliest message moves the opening to that message. */
  lemma ReleaseOpens(f: Federate, k: nat, kept: bool, limit: nat, strict: bool)
    requires Shape(f) && Fenced(f, strict) && MayRelease(f, k, limit)
    ensures var g := Released(f, k, kept);
            Opens(g, strict) == if kept then f.queue[k] as int else Opens(f, strict)
    ensures kept ==> Frontier(Released(f, k, kept)) == f.queue[k]
  {
    var g := Released(f, k, kept);
    var ts := f.queue[k];
    if kept {
      assert ts >= Opens(f, strict) && Frontier(g) == ts;
      assert strict && FrontierClosed(g) ==> FrontierClosed(f);
    }
  }

  lemma ReleaseProgress(f: Federate, k: nat, kept: bool, limit: nat)
    requires Shape(f) && Progress(f) && Fenced(f, false) && MayRelease(f, k, limit)
    ensures Shape(Released(f, k, kept)) && Progress(Released(f, k, kept))
  {}

  lemma ReleaseFenced(f: Federate, k: nat, kept: bool, limit: nat, strict: bool)
    requires Shape(f) && Progress(f) && Fenced(f, strict) && MayRelease(f, k, limit)
    ensures Fenced(Released(f, k, kept), strict)
  {
    ReleaseOpens(f, k, kept, limit, strict);
    DropIs(f.queue, k, f.queue[k]);
    DropIs(f.queue, k, Opens(f, strict));
  }

  /** Deliveries stay in timestamp order. */
  lemma ReleaseOrdered(f: Federate, k: nat, kept: bool, limit: nat)
    requires Shape(f) && Fenced(f, false) && Ordered(f) && MayRelease(f, k, limit)
    ensures Ordered(Released(f, k, kept))
  {
    ReleaseOpens(f, k, kept, limit, false);
  }

  lemma ReleaseSound(f: Federate, k: nat, kept: bool, limit: nat, strict: bool)
    requires Sound(f, strict) && MayRelease(f, k, limit)
    ensures Sound(Released(f, k, kept), strict)
    ensures var g := Released(f, k, kept);
            g.constrained && g.regulating == f.regulating &&
            Opens(g, strict) == if kept then f.queue[k] as int else Opens(f, strict)
  {
    assert Fenced(f, false);
    ReleaseOpens(f, k, kept, limit, strict);
    ReleaseProgress(f, k, kept, limit);
    ReleaseFenced(f, k, kept, limit, strict);
    ReleaseOrdered(f, k, kept, limit);
    var g := Released(f, k, kept);
    assert Reduction(g);
    assert strict ==> InStep(g);
  }

  lemma ReleaseSends(f: Federate, k: nat, kept: bool, x: int)
    requires Shape(f) && SendsFrom(f, x) && k < |f.queue|
    ensures SendsFrom(Released(f, k, kept), x)
  {
    DropWithin(f.queue, k);
    RemovalSends(f, Released(f, k, kept), x);
  }

  /** Becoming a regulator: the new floor and the new time. */
  lemma RegulatingSound(f: Federate, at: nat, strict: bool)
    requires Sound(f, strict) && f.regulationPending && at >= Frontier(f) && NothingDue(f, at)
    requires strict && f.constrained ==> !(f.regulationLookahead == 0 && f.preserved == Some(at))
    ensures Sound(Regulating(f, at), strict)
    ensures f.constrained ==> Opens(Regulating(f, at), strict) == Opens(f, strict)
                              || Opens(Regulating(f, at), strict) == at
    ensures f.constrained ==> Opens(Regulating(f, at), strict) >= Opens(f, strict)
    ensures Floor(Regulating(f, at)) == at + f.regulationLookahead
    ensures !MayGrantEarly(Regulating(f, at))
  {}

  /** Becoming constrained at the current time. */
  lemma ConstrainedSound(f: Federate, strict: bool)
    requires Sound(f, strict) && f.joined && f.constrainedPending
    ensures Sound(Alone(f, CompleteConstrained), strict)
    ensures Opens(Alone(f, CompleteConstrained), strict) == f.current
  {}
}
