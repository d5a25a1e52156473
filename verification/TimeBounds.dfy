/**
 The loops by which the server computes its bounds, proved against the definitions that the
 rest of the model reasons with: propagation of flush horizons in place over the regulators,
 the available horizon of one federate, the lower bound over the regulating set, and the
 time at which regulation can be enabled. The two that walk a Go map do so in any order.
 */
module TimeBounds {
  import opened Outcomes
  import opened TimeManagement
  import opened TimeHorizons
  import opened TimeCausality

  lemma SameBound(a: Bound, b: Bound)
    requires forall x: int :: AtLeast(a, x) <==> AtLeast(b, x)
    ensures a == b
  {
    if a.Finite? { assert AtLeast(b, a.limit); assert AtLeast(b, a.limit + 1) ==> AtLeast(a, a.limit + 1); }
    if b.Finite? { assert AtLeast(a, b.limit); assert AtLeast(a, b.limit + 1) ==> AtLeast(b, b.limit + 1); }
  }

  /** Granting a flush at a horizon no lower than `m` cannot lower a bound below `m`. */
  lemma SettledAbove(f: Federate, initial: Bound, incoming: Bound, m: Bound)
    requires m.Finite? ==> AtLeast(initial, m.limit) && AtLeast(incoming, m.limit)
    requires m.Unbounded? ==> initial.Unbounded? && incoming.Unbounded?
    ensures m.Finite? ==> AtLeast(FlushedBy(f, initial, incoming), m.limit)
    ensures m.Unbounded? ==> FlushedBy(f, initial, incoming) == initial
    ensures initial == m ==> FlushedBy(f, initial, incoming) == m
  {
    if m.Finite? { FlushedReaches(f, initial, incoming, m.limit); }
  }

  /** The least of all bounds but the i-th. */
  ghost function Others(bs: seq<Bound>, i: nat): Bound { LeastOf(Without(bs, i)) }

  lemma OthersIs(bs: seq<Bound>, i: nat, x: int)
    ensures AtLeast(Others(bs, i), x) <==> forall j :: 0 <= j < |bs| && j != i ==> AtLeast(bs[j], x)
  {
    LeastOfIs(Without(bs, i), x);
    if forall j :: 0 <= j < |bs| && j != i ==> AtLeast(bs[j], x) {
      forall j | 0 <= j < |bs| ensures AtLeast(Without(bs, i)[j], x) {}
    }
    if AtLeast(Others(bs, i), x) {
      forall j | 0 <= j < |bs| && j != i ensures AtLeast(bs[j], x) { assert AtLeast(Without(bs, i)[j], x); }
    }
  }

  /** Some entry attains the least bound. */
  lemma {:induction false} LeastAttained(bs: seq<Bound>) returns (w: nat)
    requires bs != []
    ensures w < |bs| && bs[w] == LeastOf(bs)
  {
    var rest := bs[..|bs| - 1];
    if rest == [] {
      w := 0;
      assert LeastOf(rest) == Unbounded;
    } else {
      w := LeastAttained(rest);
      if LeastOf(bs) != bs[w] { w := |bs| - 1; }
    }
  }

  /** Bounds in the middle of propagation: each is either untouched or settled. */
  ghost predicate Midway(peers: seq<Federate>, initial: seq<Bound>, bs: seq<Bound>, upto: nat) {
    && |peers| == |initial| == |bs|
    && (forall i :: 0 <= i < |bs| ==> bs[i] == initial[i] || bs[i] == FlushedBy(peers[i], initial[i], LeastOf(initial)))
    && (forall i :: 0 <= i < upto && i < |bs| ==> bs[i] == FlushedBy(peers[i], initial[i], LeastOf(initial)))
  }

  /** The least bound of a federation is never lowered by propagation, so what a regulator sees
      from the others is that least bound, unless it is the only one to hold it. */
  lemma MidwayOthers(peers: seq<Federate>, initial: seq<Bound>, bs: seq<Bound>, upto: nat, i: nat)
    requires Midway(peers, initial, bs, upto) && i < |bs|
    ensures Others(bs, i) == LeastOf(initial)
            || (initial[i] == LeastOf(initial) && FlushedBy(peers[i], bs[i], Others(bs, i)) == bs[i]
                && bs[i] == initial[i] == FlushedBy(peers[i], initial[i], LeastOf(initial)))
  {
    var m := LeastOf(initial);
    var w := LeastAttained(initial);
    forall j | 0 <= j < |bs|
      ensures m.Finite? ==> AtLeast(bs[j], m.limit)
      ensures m.Unbounded? ==> bs[j].Unbounded?
      ensures initial[j] == m ==> bs[j] == m
    {
      LeastAbove(initial, j);
      SettledAbove(peers[j], initial[j], m, m);
    }
    if exists v :: 0 <= v < |bs| && v != i && initial[v] == m {
      var v :| 0 <= v < |bs| && v != i && initial[v] == m;
      forall x: int ensures AtLeast(Others(bs, i), x) <==> AtLeast(m, x) {
        OthersIs(bs, i, x);
        if AtLeast(Others(bs, i), x) { assert AtLeast(bs[v], x); }
      }
      SameBound(Others(bs, i), m);
    } else {
      assert w == i;
      var incoming := Others(bs, i);
      if m.Finite? {
        OthersIs(bs, i, m.limit);
      } else {
        forall x: int ensures AtLeast(incoming, x) { OthersIs(bs, i, x); }
        SameBound(incoming, Unbounded);
      }
      SettledAbove(peers[i], bs[i], incoming, m);
      SettledAbove(peers[i], initial[i], m, m);
    }
  }

  lemma LeastAbove(bs: seq<Bound>, j: nat)
    requires j < |bs|
    ensures LeastOf(bs).Finite? ==> AtLeast(bs[j], LeastOf(bs).limit)
    ensures LeastOf(bs).Unbounded? ==> bs[j].Unbounded?
  {
    if LeastOf(bs).Finite? {
      LeastOfIs(bs, LeastOf(bs).limit);
    } else if bs[j].Finite? {
      LeastOfIs(bs, bs[j].limit + 1);
    }
  }

  /** Propagating again from a settled or an untouched bound settles it. */
  lemma Settles(f: Federate, initial: Bound, b: Bound, m: Bound)
    requires b == initial || b == FlushedBy(f, initial, m)
    ensures FlushedBy(f, b, m) == FlushedBy(f, initial, m)
  {}

  /** `propagateFlushHorizons`: the passes over the regulators, with the early exit. They end in
      the closed form, in which every flush request is lowered by the least bound of all. */
  method PropagateFlushHorizons(peers: seq<Federate>, bounds: array<Bound>)
    requires bounds.Length == |peers| && forall i :: 0 <= i < |peers| ==> peers[i].regulating
    modifies bounds
    ensures forall i :: 0 <= i < |peers| ==>
              bounds[i] == FlushedBy(peers[i], old(bounds[i]), LeastOf(old(bounds[..])))
  {
    ghost var initial := bounds[..];
    var pass := 0;
    while pass < |peers|
      invariant 0 <= pass <= |peers|
      invariant Midway(peers, initial, bounds[..], if pass == 0 then 0 else |peers|)
    {
      var changed := false;
      for i := 0 to |peers|
        invariant Midway(peers, initial, bounds[..], i)
        invariant pass > 0 ==> Midway(peers, initial, bounds[..], |peers|)
      {
        var peer := peers[i];
        if Flushing(peer) {
          var incoming := LeastExcept(bounds, i);
          ghost var before := bounds[..];
          MidwayOthers(peers, initial, before, i, i);
          Settles(peer, initial[i], before[i], LeastOf(initial));
          if incoming.Finite? && incoming.limit < peer.requested {
            var bound := AfterGrant(peer, incoming.limit);
            if bound.Finite? && (bounds[i].Unbounded? || bound.limit < bounds[i].limit) {
              bounds[i] := bound;
              changed := true;
            }
          }
          assert bounds[..] == before[i := FlushedBy(peer, before[i], incoming)];
        }
      }
      pass := pass + 1;
      if !changed { break; }
    }
  }

  /** The inner loop: the least bound of the other regulators. */
  method LeastExcept(bounds: array<Bound>, i: nat) returns (incoming: Bound)
    ensures incoming == Others(bounds[..], i)
  {
    incoming := Unbounded;
    for j := 0 to bounds.Length
      invariant incoming == LeastOf(Without(bounds[..], i)[..j])
    {
      assert Without(bounds[..], i)[..j + 1][..j] == Without(bounds[..], i)[..j];
      if j != i { incoming := Least(incoming, bounds[j]); }
    }
    assert Without(bounds[..], i)[..bounds.Length] == Without(bounds[..], i);
  }

  // --- The available horizon ----------------------------------------------------------------

  /** The handles of the regulators, in order. */
  ghost predicate Regulators(s: Federation, hs: seq<nat>, upto: nat) {
    && (forall n :: 0 <= n < |hs| ==> hs[n] < upto && hs[n] < |s| && s[hs[n]].regulating)
    && (forall i :: 0 <= i < upto && i < |s| && s[i].regulating ==> i in hs)
  }

  /** Regulators alone have the same least horizon as the federation. */
  lemma RegulatorsLeast(s: Federation, hs: seq<nat>, bs: seq<Bound>)
    requires Regulators(s, hs, |s|) && |bs| == |hs|
    requires forall n :: 0 <= n < |hs| ==> bs[n] == Available(s[hs[n]])
    ensures LeastOf(bs) == LeastOf(Snapshots(s))
  {
    forall x: int ensures AtLeast(LeastOf(bs), x) <==> AtLeast(LeastOf(Snapshots(s)), x) {
      LeastOfIs(bs, x);
      SnapshotsAre(s, x);
      forall n | 0 <= n < |hs| ensures AtLeast(bs[n], x) <==> SendsFrom(s[hs[n]], x) { AvailableIs(s[hs[n]], x); }
      if AtLeast(LeastOf(bs), x) {
        forall i | 0 <= i < |s| && s[i].regulating ensures SendsFrom(s[i], x) {
          var n :| 0 <= n < |hs| && hs[n] == i;
          assert AtLeast(bs[n], x);
        }
      }
    }
    SameBound(LeastOf(bs), LeastOf(Snapshots(s)));
  }

  /** The minimum over the other regulators is the minimum over the other federates. */
  lemma RegulatorsGalt(s: Federation, hs: seq<nat>, bs: seq<Bound>, self: nat, result: Bound)
    requires Regulators(s, hs, |s|) && |bs| == |hs|
    requires forall n :: 0 <= n < |hs| ==> bs[n] == Propagated(s)[hs[n]]
    requires forall x: int :: Bounds(result, hs, bs, self, |hs|, x)
    ensures result == Galt(s, self)
  {
    forall x: int ensures AtLeast(result, x) <==> AtLeast(Galt(s, self), x) {
      assert Bounds(result, hs, bs, self, |hs|, x);
      OthersIs(Propagated(s), self, x);
      if AtLeast(result, x) {
        forall i | 0 <= i < |s| && i != self ensures AtLeast(Propagated(s)[i], x) {
          if s[i].regulating {
            var n :| 0 <= n < |hs| && hs[n] == i;
            assert AtLeast(bs[n], x);
          }
        }
      }
    }
    SameBound(result, Galt(s, self));
  }

  /** `availableHorizonLocked`: collect the regulators, propagate, take the minimum of the others. */
  method AvailableHorizon(s: Federation, self: nat) returns (result: Bound)
    ensures result == Galt(s, self)
  {
    var hs: seq<nat> := [];
    for i := 0 to |s|
      invariant Regulators(s, hs, i)
    {
      if s[i].regulating { hs := hs + [i]; }
    }
    var peers := seq(|hs|, n requires 0 <= n < |hs| => s[hs[n]]);
    var bounds := new Bound[|hs|](n requires 0 <= n < |hs| => Available(s[hs[n]]));
    RegulatorsLeast(s, hs, bounds[..]);
    PropagateFlushHorizons(peers, bounds);
    assert forall n :: 0 <= n < |hs| ==> bounds[n] == Propagated(s)[hs[n]];
    result := MinimumExcept(hs, bounds[..], self);
    RegulatorsGalt(s, hs, bounds[..], self, result);
  }

  ghost predicate Bounds(result: Bound, hs: seq<nat>, bs: seq<Bound>, self: nat, upto: nat, x: int)
    requires |bs| == |hs|
  {
    AtLeast(result, x) <==> forall k :: 0 <= k < upto && k < |hs| && hs[k] != self ==> AtLeast(bs[k], x)
  }

  method MinimumExcept(hs: seq<nat>, bs: seq<Bound>, self: nat) returns (result: Bound)
    requires |bs| == |hs|
    ensures forall x: int :: Bounds(result, hs, bs, self, |hs|, x)
  {
    result := Unbounded;
    for n := 0 to |hs|
      invariant forall x: int :: Bounds(result, hs, bs, self, n, x)
    {
      ghost var before := result;
      if hs[n] != self { result := Least(result, bs[n]); }
      var next := n + 1;
      forall x: int ensures Bounds(result, hs, bs, self, next, x) {
        assert Bounds(before, hs, bs, self, n, x);
      }
    }
  }

  /** `LBTSBoundOf` over the snapshot of the regulating set. */
  method LowerBound(s: Federation) returns (bound: Bound)
    ensures bound == Lbts(s)
  {
    bound := Unbounded;
    for i := 0 to |s|
      invariant bound == Lbts(s[..i])
    {
      assert s[..i + 1][..i] == s[..i];
      if s[i].regulating { bound := Least(bound, SendHorizon(s[i])); }
    }
    assert s[..|s|] == s;
  }

  // --- The time of enabling regulation ------------------------------------------------------

  /** What one constrained peer demands of a new regulator. */
  function Demand(f: Federate, lookahead: nat): int {
    Frontier(f) - lookahead + if FrontierClosed(f) then 1 else 0
  }

  predicate Possible(f: Federate, lookahead: nat) {
    FrontierClosed(f) ==> Frontier(f) - lookahead < FINAL
  }

  ghost predicate Peer(s: Federation, i: nat, k: int) { 0 <= k < |s| && k != i && s[k].constrained }

  /** The regulation time is the least time that meets every demand. */
  lemma {:induction false} RegulationTimeLeast(s: Federation, i: nat, la: nat, k: nat, from: nat)
    requires k <= |s|
    ensures RegulationTime(s, i, la, k, from).Some? <==>
            forall j :: k <= j && Peer(s, i, j) ==> Possible(s[j], la)
    ensures RegulationTime(s, i, la, k, from).Some? ==>
            var t := RegulationTime(s, i, la, k, from).value;
            && t >= from && (forall j :: k <= j && Peer(s, i, j) ==> t >= Demand(s[j], la))
            && (t == from || exists j :: k <= j && Peer(s, i, j) && t == Demand(s[j], la))
    decreases |s| - k
  {
    if k < |s| {
      if !Peer(s, i, k) {
        RegulationTimeLeast(s, i, la, k + 1, from);
      } else if Possible(s[k], la) {
        RegulationTimeLeast(s, i, la, k + 1, Max(from, Demand(s[k], la)));
      }
    }
  }

  predicate Member(s: Federation, k: nat) { k < |s| }

  /** `regulationEnableTimeLocked`: the peers are visited in any order, and the outcome is the same. */
  method RegulationEnableTime(s: Federation, i: nat, lookahead: nat, from: nat) returns (r: Option<nat>)
    ensures r == RegulationTime(s, i, lookahead, 0, from)
  {
    RegulationTimeLeast(s, i, lookahead, 0, from);
    var target := from;
    var left: set<nat> := set k: nat | k < |s| && Member(s, k);
    while left != {}
      invariant forall k :: k in left ==> k < |s|
      invariant target >= from
      invariant forall k: nat :: Peer(s, i, k) && k !in left ==> Possible(s[k], lookahead) && target >= Demand(s[k], lookahead)
      invariant target == from || exists k: nat :: Peer(s, i, k) && k !in left && target == Demand(s[k], lookahead)
      decreases |left|
    {
      var k :| k in left;
      left := left - {k};
      if k != i && s[k].constrained {
        assert Peer(s, i, k);
        var lower := Frontier(s[k]) - lookahead;
        if FrontierClosed(s[k]) {
          if lower >= FINAL { return None; }
          lower := lower + 1;
        }
        target := Max(target, lower);
      }
    }
    r := Some(target);
  }
}
