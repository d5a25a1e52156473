/**
 Progress of the server's time management: conservative synchronization does not deadlock,
 whatever the lookaheads are.
 */
module TimeProgress {
  import opened Outcomes
  import opened TimeManagement
  import opened TimeHorizons
  import opened TimeCausality
  import opened TimeTheorems
  import opened TimeBounds

  /** The time a constrained federate that is not flushing would be granted. */
  ghost function Target(f: Federate): nat {
    var n := NextGrantMessage(f);
    if NextMessage(f.mode) && n.Some? && f.current <= n.value < f.requested then n.value else f.requested
  }

  /** The least bound that lets the grant happen. */
  ghost function Needs(f: Federate): nat { Target(f) + if Strict(f.mode) then 1 else 0 }

  /** A waiting regulator sends nothing below what its own grant needs. */
  lemma WaitingSends(f: Federate)
    requires Sound(f, false) && f.pending && f.constrained && f.mode != FQR
    ensures SendsFrom(f, Needs(f))
  {
    NextIs(f);
    forall at: nat | Target(f) <= at ensures FloorAfter(f, at) >= Needs(f) {}
    assert Target(f) <= f.requested;
  }

  /** A bound that reaches what is needed fires the grant at the target. */
  lemma Fires(s: Federation, i: nat)
    requires i < |s| && Sound(s[i], false) && s[i].pending && s[i].constrained && s[i].mode != FQR
    requires Clear(s, Needs(s[i]))
    ensures Candidate(s, i) == Some(Target(s[i]))
  {
    ClearBounds(s, i, Needs(s[i]));
  }

  lemma {:induction false} FindEarliest(queue: seq<nat>) returns (k: nat)
    requires queue != []
    ensures IsEarliest(queue, k)
  {
    k := 0;
    for n := 1 to |queue|
      invariant k < n
      invariant forall j :: 0 <= j < n ==> queue[k] <= queue[j]
      invariant forall j :: 0 <= j < k ==> queue[k] < queue[j]
    {
      if queue[n] < queue[k] { k := n; }
    }
  }

  /** Once a time is decided, either the earliest message or the grant itself can go out. */
  lemma Proceeds(s: Federation, i: nat) returns (step: Step)
    requires i < |s| && Sound(s[i], false) && s[i].pending && Candidate(s, i).Some?
    ensures Enabled(s, Do(i, step)) && (step.Grant? || step.Release?)
  {
    var f, t := s[i], Candidate(s, i).value;
    if f.mode == FQR || NothingDue(f, t) {
      step := Grant;
    } else {
      var k := FindEarliest(f.queue);
      step := Release(k, true);
    }
  }

  // --- Enable requests ----------------------------------------------------------------------

  /** The time at which regulation would be enabled, the bound on incoming messages aside. */
  ghost function EnableTime(s: Federation, i: nat): Option<nat>
    requires i < |s|
  {
    RegulationTime(s, i, s[i].regulationLookahead, 0, if s[i].constrained then Frontier(s[i]) else s[i].current)
  }

  /** A bound that reaches the enable time enables regulation, or releases what is due before it. */
  lemma Enables(s: Federation, i: nat) returns (step: Step)
    requires i < |s| && Sound(s[i], false) && s[i].regulationPending && EnableTime(s, i).Some?
    requires s[i].constrained ==> Clear(s, EnableTime(s, i).value)
    ensures Enabled(s, Do(i, step)) && (step.CompleteRegulation? || step.ReleaseForEnable?)
  {
    var t := EnableTime(s, i).value;
    if s[i].constrained { ClearBounds(s, i, t); }
    assert RegulationTarget(s, i) == Some(t);
    if NothingDue(s[i], t) {
      step := CompleteRegulation;
    } else {
      var k := FindEarliest(s[i].queue);
      step := ReleaseForEnable(k, true);
    }
  }

  // --- Somebody is served -------------------------------------------------------------------

  /** The federate waits for a grant, for being constrained, or for regulation at a time that exists. */
  ghost predicate Waits(s: Federation, i: nat)
    requires i < |s|
  {
    s[i].pending || s[i].constrainedPending || (s[i].regulationPending && EnableTime(s, i).Some?)
  }

  /** Somebody waits, and so does everybody who could still send into the past of others. */
  ghost predicate Stalled(s: Federation) {
    && (exists j :: 0 <= j < |s| && Waits(s, j))
    && (forall j :: 0 <= j < |s| && s[j].regulating ==> s[j].pending || s[j].constrainedPending)
  }

  /** The bound that the federate waits for. */
  ghost function Awaits(s: Federation, i: nat): nat
    requires i < |s| && Waits(s, i)
  {
    if s[i].pending then Needs(s[i]) else if s[i].constrainedPending then s[i].current else EnableTime(s, i).value
  }

  /** A request that no bound holds back. */
  ghost predicate Free(f: Federate) { f.pending && (!f.constrained || f.mode == FQR) }

  /** A waiting regulator sends nothing below the bound that it waits for itself. */
  lemma RegulatorSends(s: Federation, m: nat)
    requires m < |s| && Sound(s[m], false) && s[m].regulating && Waits(s, m) && !Free(s[m])
    ensures SendsFrom(s[m], Awaits(s, m))
  {
    if s[m].pending { WaitingSends(s[m]); }
  }

  /** The waiting federate whose bound is least. */
  lemma {:induction false} FindLeast(s: Federation, n: nat) returns (i: nat)
    requires n <= |s| && exists j :: 0 <= j < n && Waits(s, j)
    ensures i < n && Waits(s, i)
    ensures forall j :: 0 <= j < n && Waits(s, j) ==> Awaits(s, i) <= Awaits(s, j)
    decreases n
  {
    if !exists j :: 0 <= j < n - 1 && Waits(s, j) {
      i := n - 1;
    } else {
      i := FindLeast(s, n - 1);
      if Waits(s, n - 1) && Awaits(s, n - 1) < Awaits(s, i) { i := n - 1; }
    }
  }

  /** A step that ends somebody's wait. */
  ghost predicate Serves(step: Step) { step.Grant? || step.CompleteRegulation? || step.CompleteConstrained? }

  /** A message that is due before the wait can end. */
  ghost predicate Releases(step: Step) { step.Release? || step.ReleaseForEnable? }

  lemma LeastIsServed(s: Federation, i: nat) returns (step: Step)
    requires AllSound(s, false) && i < |s| && Waits(s, i)
    requires !Free(s[i]) ==> Clear(s, Awaits(s, i))
    ensures Enabled(s, Do(i, step)) && (Serves(step) || Releases(step))
  {
    if s[i].pending {
      if !Free(s[i]) { Fires(s, i); }
      step := Proceeds(s, i);
    } else if s[i].constrainedPending {
      ClearBounds(s, i, s[i].current);
      step := CompleteConstrained;
    } else {
      step := Enables(s, i);
    }
  }

  lemma SomebodyServed(s: Federation) returns (i: nat, step: Step)
    requires Safe(s, false) && Stalled(s)
    ensures i < |s| && Waits(s, i) && Enabled(s, Do(i, step)) && (Serves(step) || Releases(step))
  {
    if free: nat :| free < |s| && Free(s[free]) {
      i := free;
    } else {
      i := FindLeast(s, |s|);
      forall m | 0 <= m < |s| && s[m].regulating ensures SendsFrom(s[m], Awaits(s, i)) {
        assert Waits(s, m) && !Free(s[m]);
        RegulatorSends(s, m);
        SendsDown(s[m], Awaits(s, m), Awaits(s, i));
      }
    }
    step := LeastIsServed(s, i);
  }

  /** Whenever somebody waits and every regulator waits, somebody is served: a message goes out, or a
      grant, or time regulation or constraint is enabled. Zero lookahead, any mix of the five
      advance requests and the two enable requests included. */
  lemma SomebodyProceeds(run: seq<Action>) returns (i: nat, step: Step)
    requires Legal([], run) && DisciplinedRun([], run, false) && Stalled(Execute([], run))
    ensures var s := Execute([], run);
            i < |s| && Waits(s, i) && Enabled(s, Do(i, step)) && (Serves(step) || Releases(step))
  {
    RunKeeps([], run, false);
    i, step := SomebodyServed(Execute([], run));
  }

  // --- Messages run out ---------------------------------------------------------------------

  ghost function Queued(s: Federation): nat {
    if s == [] then 0 else Queued(s[..|s| - 1]) + |s[|s| - 1].queue|
  }

  lemma {:induction false} QueuedUpdate(s: Federation, i: nat, f: Federate)
    requires i < |s|
    ensures Queued(s[i := f]) == Queued(s) - |s[i].queue| + |f.queue|
  {
    var n := |s| - 1;
    if i == n {
      assert s[i := f][..n] == s[..n];
    } else {
      assert s[i := f][..n] == s[..n][i := f];
      QueuedUpdate(s[..n], i, f);
    }
  }

  lemma ReleaseShape(s: Federation, i: nat, step: Step) returns (g: Federate)
    requires Enabled(s, Do(i, step)) && Releases(step)
    ensures Apply(s, Do(i, step)) == s[i := g]
    ensures SameClock(s[i], g) && |g.queue| + 1 == |s[i].queue|
    ensures s[i].pending || (s[i].regulationPending && EnableTime(s, i).Some?)
  {
    g := Released(s[i], step.k, step.kept);
  }

  /** Whether regulation can be enabled at all depends on the peers alone. */
  lemma StillPossible(s: Federation, i: nat, g: Federate)
    requires i < |s| && SameClock(s[i], g) && EnableTime(s, i).Some?
    ensures EnableTime(s[i := g], i).Some?
  {
    var s', la := s[i := g], s[i].regulationLookahead;
    RegulationTimeLeast(s, i, la, 0, if s[i].constrained then Frontier(s[i]) else s[i].current);
    RegulationTimeLeast(s', i, la, 0, if g.constrained then Frontier(g) else g.current);
    forall j | 0 <= j && Peer(s', i, j) ensures Possible(s'[j], la) { assert Peer(s, i, j) && s'[j] == s[j]; }
  }

  lemma StillStalled(s: Federation, i: nat, g: Federate)
    requires i < |s| && Stalled(s) && SameClock(s[i], g)
    requires s[i].pending || (s[i].regulationPending && EnableTime(s, i).Some?)
    ensures Stalled(s[i := g])
  {
    if !s[i].pending { StillPossible(s, i, g); }
    assert Waits(s[i := g], i);
  }

  /** Releasing one message takes one message away and ends nobody's wait. */
  lemma ReleaseStalls(s: Federation, i: nat, step: Step)
    requires Safe(s, false) && Stalled(s) && Enabled(s, Do(i, step)) && Releases(step)
    ensures var s' := Apply(s, Do(i, step));
            Safe(s', false) && Stalled(s') && Queued(s') + 1 == Queued(s)
  {
    var g := ReleaseShape(s, i, step);
    ReleaseSafe(s, i, step);
    QueuedUpdate(s, i, g);
    StillStalled(s, i, g);
  }

  lemma ReleaseSafe(s: Federation, i: nat, step: Step)
    requires Safe(s, false) && Enabled(s, Do(i, step)) && Releases(step)
    ensures Safe(Apply(s, Do(i, step)), false)
  {
    StepKeeps(s, Do(i, step), false);
  }

  ghost predicate OnlyReleases(run: seq<Action>) {
    forall k :: 0 <= k < |run| ==> run[k].Do? && Releases(run[k].step)
  }

  lemma FirstRelease(s: Federation, run: seq<Action>)
    requires Legal(s, run) && OnlyReleases(run) && run != []
    ensures run[0].Do? && Releases(run[0].step) && Enabled(s, run[0])
    ensures Legal(Apply(s, run[0]), run[1..]) && OnlyReleases(run[1..])
  {}

  lemma AddRelease(s: Federation, a: Action, rest: seq<Action>)
    requires a.Do? && Releases(a.step) && Enabled(s, a) && Legal(Apply(s, a), rest) && OnlyReleases(rest)
    ensures Legal(s, [a] + rest) && OnlyReleases([a] + rest)
    ensures Execute(s, [a] + rest) == Execute(Apply(s, a), rest)
  {
    assert ([a] + rest)[1..] == rest;
  }

  /** Whatever messages the server releases first, there are only as many as are queued. */
  lemma {:induction false} ReleasesRunOut(s: Federation, run: seq<Action>)
    requires Safe(s, false) && Stalled(s) && Legal(s, run) && OnlyReleases(run)
    ensures var e := Execute(s, run);
            Safe(e, false) && Stalled(e) && Queued(e) + |run| == Queued(s)
    decreases |run|
  {
    if run != [] {
      FirstRelease(s, run);
      ReleaseStalls(s, run[0].who, run[0].step);
      ReleasesRunOut(Apply(s, run[0]), run[1..]);
    }
  }

  /** And then somebody's wait ends. */
  lemma {:induction false} ServedAfter(s: Federation) returns (run: seq<Action>, i: nat, step: Step)
    requires Safe(s, false) && Stalled(s)
    ensures Legal(s, run) && OnlyReleases(run)
    ensures Enabled(Execute(s, run), Do(i, step)) && Serves(step)
    decreases Queued(s)
  {
    i, step := SomebodyServed(s);
    if Serves(step) {
      run := [];
    } else {
      var a := Do(i, step);
      ReleaseStalls(s, i, step);
      var rest;
      rest, i, step := ServedAfter(Apply(s, a));
      AddRelease(s, a, rest);
      run := [a] + rest;
    }
  }

  /** From every reachable state in which somebody waits and every regulator waits, and whatever
      messages the server has released since, further releases lead to a grant or to the end of an
      enable request; in all there are no more releases than messages were queued. */
  lemma WaitsEnd(run: seq<Action>, released: seq<Action>) returns (more: seq<Action>, i: nat, step: Step)
    requires Legal([], run) && DisciplinedRun([], run, false) && Stalled(Execute([], run))
    requires Legal(Execute([], run), released) && OnlyReleases(released)
    ensures var s := Execute([], run);
            var e := Execute(s, released);
            && Legal(e, more) && OnlyReleases(more) && |released| + |more| <= Queued(s)
            && Enabled(Execute(e, more), Do(i, step)) && Serves(step)
  {
    var s := Execute([], run);
    RunKeeps([], run, false);
    ReleasesRunOut(s, released);
    var e := Execute(s, released);
    more, i, step := ServedAfter(e);
    ReleasesRunOut(e, more);
  }
}
