/**
 What the rendezvous protocol achieves, for every number of ticks and every interleaving:
 nothing is lost, every run ends, and a finished run passes the runner's verification. Nobody
 gets stuck, exactly as long as the wire format can carry the number of ticks.
 */
module RendezvousTheorems {
  import opened SyncPoints
  import opened Rendezvous
  import opened RendezvousInvariant
  import Wire

  predicate AllDone(s: State) {
    |s.parts| == PARTIES && forall i :: 0 <= i < PARTIES ==> s.parts[i].pc.Done?
  }

  /** The invariant at the end of any run from the start. */
  lemma Reached(ticks: nat, run: seq<Action>) returns (s: State)
    requires Legal(Initial(ticks), run)
    ensures s == Execute(Initial(ticks), run) && Inv(s) && s.ticks == ticks
  {
    InitialHolds(ticks);
    RunKeeps(Initial(ticks), run);
    TicksFixed(Initial(ticks), run);
    s := Execute(Initial(ticks), run);
  }

  lemma {:induction false} TicksFixed(s: State, run: seq<Action>)
    requires Legal(s, run)
    ensures Execute(s, run).ticks == s.ticks
    decreases |run|
  {
    if run != [] { TicksFixed(Apply(s, run[0]), run[1..]); }
  }

  // --- Safety -------------------------------------------------------------------------------

  /** In every reachable state, whatever a participant pops next is something its current loop
      acts on, or a registration acknowledgement: no announcement, no synchronization and no
      tick is ever thrown away, and no tick is heard during a rendezvous. The end is announced to
      nobody who still has a tick to emit, and no tick is queued behind the announcement. */
  lemma NoLostWakeUp(ticks: nat, run: seq<Action>, i: nat)
    requires Legal(Initial(ticks), run) && i < PARTIES
    ensures var s := Execute(Initial(ticks), run);
            && |s.parts| == PARTIES
            && s.parts[i].duringSync == []
            && (Popping(s.parts[i], ticks) && s.parts[i].queue != [] ==>
                  Expected(s.parts[i], s.parts[i].queue[0]))
            && (Sync(Announced(End)) in s.parts[i].queue ==> !s.parts[i].pc.Drain? && !s.parts[i].pc.Emit?)
            && BehindAllTicks(s.parts[i].queue, Sync(Announced(End)))
            && (forall l :: Awaited(s, i, l) ==> AwaitedEvent(s.parts[i].pc) in s.parts[i].queue)
  {
    var s := Reached(ticks, run);
    assert Local(s.parts[i], ticks) && Mailbox(s.parts[i], Seen(s));
    if Popping(s.parts[i], ticks) && s.parts[i].queue != [] { NothingLost(s, i); }
    if Sync(Announced(End)) in s.parts[i].queue { EndAnnouncedAfterEmission(s, i); }
    forall l | Awaited(s, i, l) ensures AwaitedEvent(s.parts[i].pc) in s.parts[i].queue { StillThere(s, i, l); }
  }

  /** No tick is queued behind the event. */
  ghost predicate BehindAllTicks(queue: seq<Event>, e: Event) {
    forall a, b :: 0 <= a < b < |queue| && queue[a] == e ==> !queue[b].Tick?
  }

  /** Participant i waits for a wake-up of `l` that the server has already issued. */
  ghost predicate Awaited(s: State, i: nat, l: Label)
    requires i < |s.parts|
  {
    || (s.parts[i].pc == AwaitAnnounced(l) && l in s.wins)
    || (s.parts[i].pc == AwaitSynchronized(l) && AllVoted(s.parts, l))
  }

  function AwaitedEvent(pc: Pc): Event
    requires pc.AwaitAnnounced? || pc.AwaitSynchronized?
  {
    if pc.AwaitAnnounced? then Sync(Announced(pc.name)) else Sync(Synchronized(pc.name, {}))
  }

  /** A wake-up that was issued and is still waited for is in the queue. */
  lemma StillThere(s: State, i: nat, l: Label)
    requires i < |s.parts| && Mailbox(s.parts[i], Seen(s)) && Awaited(s, i, l)
    ensures AwaitedEvent(s.parts[i].pc) in s.parts[i].queue
  {
    var p := s.parts[i];
    assert Pending(p, Seen(s), l);
    assert multiset(p.queue)[AwaitedEvent(p.pc)] == 1;
  }

  /** The end is announced only when everybody has emitted everything. */
  lemma EndAnnouncedAfterEmission(s: State, i: nat)
    requires Locals(s) && Accounts(s) && Table(s) && i < PARTIES && Mailbox(s.parts[i], Seen(s))
    requires Sync(Announced(End)) in s.parts[i].queue
    ensures !s.parts[i].pc.Drain? && !s.parts[i].pc.Emit?
  {
    assert Pending(s.parts[i], Seen(s), End) && multiset(s.parts[i].queue)[Sync(Announced(End))] > 0;
    EndWonMeansAllSent(s, i);
    assert Local(s.parts[i], s.ticks);
  }

  /** Each label is registered successfully at most once, although the server forgets labels. */
  lemma SingleRegistration(ticks: nat, run: seq<Action>, l: Label)
    requires Legal(Initial(ticks), run)
    ensures multiset(Execute(Initial(ticks), run).wins)[l] <= 1
  {
    var s := Reached(ticks, run);
  }

  /** Nobody emits a tick before all have voted on "start_simulation". */
  lemma StartBarrier(ticks: nat, run: seq<Action>, i: nat)
    requires Legal(Initial(ticks), run) && i < PARTIES
    ensures var s := Execute(Initial(ticks), run);
            && |s.parts| == PARTIES
            && (s.parts[i].sent != [] ==> forall j :: 0 <= j < PARTIES ==> Start in s.parts[j].achieved)
  {
    var s := Reached(ticks, run);
    if !AllVoted(s.parts, Start) {
      NoTickBeforeStart(s, i);
    } else {
      forall j | 0 <= j < PARTIES ensures Start in s.parts[j].achieved {
        assert Local(s.parts[j], ticks) && HasVoted(s.parts[j], Start);
      }
    }
  }

  /** Nobody passes the end rendezvous before all have drained every tick of both peers. */
  lemma EndBarrier(ticks: nat, run: seq<Action>, i: nat, j: nat)
    requires Legal(Initial(ticks), run) && i < PARTIES && j < PARTIES
    ensures var s := Execute(Initial(ticks), run);
            && |s.parts| == PARTIES
            && (End in s.parts[i].synchronized ==>
                  |s.parts[j].heard| == 2 * ticks && Wires(s.parts[j].queue) == [])
  {
    var s := Reached(ticks, run);
    assert Local(s.parts[i], ticks);
    if HasSynced(s.parts[i], End) {
      assert HasVoted(s.parts[j], End) && Local(s.parts[j], ticks);
      CaughtUpMeansAllSent(s, j, j);
    }
  }

  // --- Progress -----------------------------------------------------------------------------

  lemma Hindmost(parts: seq<Participant>) returns (i: nat)
    requires |parts| == PARTIES
    ensures i < PARTIES && forall j :: 0 <= j < PARTIES ==> Stage(parts[i].pc) <= Stage(parts[j].pc)
  {
    i := if Stage(parts[0].pc) <= Stage(parts[1].pc) then 0 else 1;
    if Stage(parts[2].pc) < Stage(parts[i].pc) { i := 2; }
  }

  /** The next tick has no four-byte encoding: `output_handler` raises, and the participant is stuck. */
  predicate Overflows(p: Participant) { p.pc.Emit? && |p.sent| + 1 == Wire.LIMIT }

  /** The participant that is furthest behind can always move, unless its next number does not fit. */
  lemma HindmostMoves(s: State, i: nat) returns (a: Action)
    requires Inv(s) && i < PARTIES && !s.parts[i].pc.Done? && !Overflows(s.parts[i])
    requires forall j :: 0 <= j < PARTIES ==> Stage(s.parts[i].pc) <= Stage(s.parts[j].pc)
    ensures Enabled(s, a) && !a.DoRetire?
  {
    var p := s.parts[i];
    assert Local(p, s.ticks) && Mailbox(p, Seen(s));
    if p.pc.Register? {
      a := DoRegister(i, false);
    } else if p.pc.Vote? {
      assert HasRegistered(p, p.pc.name) && TableEntry(s, p.pc.name);
      var last := VoteShape(s, i, p.pc.name);
      a := DoVote(i);
    } else if p.pc.Drain? {
      a := DoStopDraining(i);
    } else if p.pc.Emit? {
      a := DoEmit(i);
    } else if p.pc.CatchUp? {
      a := CatchUpMoves(s, i);
    } else {
      assert Pending(p, Seen(s), p.pc.name);
      if p.pc.AwaitAnnounced? {
        assert HasRegistered(p, p.pc.name);
        assert Sync(Announced(p.pc.name)) in p.queue;
      } else {
        assert AllVoted(s.parts, p.pc.name);
        assert Sync(Synchronized(p.pc.name, {})) in p.queue;
      }
      a := DoPop(i);
    }
  }

  lemma CatchUpMoves(s: State, i: nat) returns (a: Action)
    requires Locals(s) && Accounts(s) && i < PARTIES && s.parts[i].pc.CatchUp?
    requires forall j :: 0 <= j < PARTIES ==> HasSentAll(s.parts[j])
    ensures Enabled(s, a) && !a.DoRetire?
  {
    assert Local(s.parts[0], s.ticks) && Local(s.parts[1], s.ticks) && Local(s.parts[2], s.ticks);
    UnderTotal(s, i);
    a := if |s.parts[i].heard| == 2 * s.ticks then DoFinishCatchUp(i) else DoPop(i);
  }

  ghost predicate SomebodyOverflows(s: State) {
    exists i :: 0 <= i < |s.parts| && Overflows(s.parts[i])
  }

  /** Every reachable state is finished or has an enabled step of some participant: no deadlock,
      no refused vote, no surplus tick. The one exception is a tick number of more than four
      bytes, and only a run with that many ticks can come to it. */
  lemma DeadlockFree(ticks: nat, run: seq<Action>)
    requires Legal(Initial(ticks), run)
    ensures var s := Execute(Initial(ticks), run);
            || AllDone(s)
            || (exists a :: Enabled(s, a) && !a.DoRetire?)
            || (ticks >= Wire.LIMIT && SomebodyOverflows(s))
  {
    var s := Reached(ticks, run);
    if !AllDone(s) {
      var i := Hindmost(s.parts);
      NotDone(s.parts, i);
      if Overflows(s.parts[i]) {
        assert Local(s.parts[i], ticks);
      } else {
        var a := HindmostMoves(s, i);
      }
    }
  }

  lemma NotDone(parts: seq<Participant>, i: nat)
    requires |parts| == PARTIES && i < PARTIES
    requires forall j :: 0 <= j < PARTIES ==> Stage(parts[i].pc) <= Stage(parts[j].pc)
    requires !forall j :: 0 <= j < PARTIES ==> parts[j].pc.Done?
    ensures !parts[i].pc.Done?
  {}

  // --- Termination --------------------------------------------------------------------------

  /** Steps a participant may still cause: its own, and the queue entries and table entries
      that they create. */
  function Work(pc: Pc, ticks: nat): nat {
    match pc
    case Register(l) => if l == Start then 25 + 4 * ticks else 12
    case AwaitAnnounced(l) => if l == Start then 19 + 4 * ticks else 6
    case Vote(l) => if l == Start then 18 + 4 * ticks else 5
    case AwaitSynchronized(l) => if l == Start then 14 + 4 * ticks else 1
    case Drain(k) => 13 + 4 * (if k < ticks then ticks - k else 0)
    case Emit(k) => 12 + 4 * (if k < ticks then ticks - k else 0)
    case CatchUp => 13
    case Done => 0
  }

  function Todo(p: Participant, ticks: nat): nat { Work(p.pc, ticks) + |p.queue| }

  function Measure(s: State): nat
    requires |s.parts| == PARTIES
  {
    Todo(s.parts[0], s.ticks) + Todo(s.parts[1], s.ticks) + Todo(s.parts[2], s.ticks) + |s.points|
  }

  lemma StepShrinks(s: State, a: Action)
    requires Inv(s) && Enabled(s, a)
    ensures |Apply(s, a).parts| == PARTIES && Measure(Apply(s, a)) < Measure(s)
  {
    if a.DoRetire? {
      assert |Retire(s.points, a.name)| < |s.points| by {
        assert Retire(s.points, a.name).Keys == s.points.Keys - {a.name};
      }
    } else {
      assert Local(s.parts[a.who], s.ticks);
      MoveShrinks(s, a);
    }
  }

  lemma MoveShrinks(s: State, a: Action)
    requires Enabled(s, a) && !a.DoRetire? && Local(s.parts[a.who], s.ticks)
    ensures |Apply(s, a).parts| == PARTIES && Measure(Apply(s, a)) < Measure(s)
  {
    match a
    case DoRegister(i, acked) => RegisterShrinks(s, i, acked);
    case DoVote(i) => VoteShrinks(s, i);
    case DoEmit(i) => EmitShrinks(s, i);
    case DoPop(i) => PopShrinks(s.parts[i], s.ticks); AdvanceShrinks(s, i, Pop(s.parts[i], s.ticks));
    case DoStopDraining(i) => AdvanceShrinks(s, i, s.parts[i].(pc := Emit(s.parts[i].pc.cycle)));
    case DoFinishCatchUp(i) => AdvanceShrinks(s, i, s.parts[i].(pc := Register(End)));
  }

  lemma AdvanceShrinks(s: State, i: nat, p': Participant)
    requires |s.parts| == PARTIES && i < PARTIES && Todo(p', s.ticks) < Todo(s.parts[i], s.ticks)
    ensures Measure(s.(parts := s.parts[i := p'])) < Measure(s)
  {
    assert i == 0 || i == 1 || i == 2;
  }

  lemma PopShrinks(p: Participant, ticks: nat)
    requires Popping(p, ticks) && p.queue != []
    ensures Todo(Pop(p, ticks), ticks) < Todo(p, ticks)
  {}

  /** One participant moves on and everyone's queue may grow by a little. */
  lemma Growth(parts: seq<Participant>, parts': seq<Participant>, i: nat, ticks: nat, grow: nat)
    requires |parts| == |parts'| == PARTIES && i < PARTIES && grow <= 1
    requires forall j :: 0 <= j < PARTIES && j != i ==> Todo(parts'[j], ticks) <= Todo(parts[j], ticks) + grow
    ensures Todo(parts'[0], ticks) + Todo(parts'[1], ticks) + Todo(parts'[2], ticks) - Todo(parts'[i], ticks) <=
            Todo(parts[0], ticks) + Todo(parts[1], ticks) + Todo(parts[2], ticks) - Todo(parts[i], ticks) + 2 * grow
  {
    assert i == 0 || i == 1 || i == 2;
  }

  lemma RegisterShrinks(s: State, i: nat, acked: bool)
    requires Enabled(s, DoRegister(i, acked))
    ensures |Apply(s, DoRegister(i, acked)).parts| == PARTIES && Measure(Apply(s, DoRegister(i, acked))) < Measure(s)
  {
    var s' := Apply(s, DoRegister(i, acked));
    var l := s.parts[i].pc.name;
    assert |s'.points| <= |s.points| + 1 by { assert s'.points.Keys <= s.points.Keys + {l}; }
    assert Todo(s'.parts[i], s.ticks) <= Todo(s.parts[i], s.ticks) - 4;
    Growth(s.parts, s'.parts, i, s.ticks, 1);
  }

  lemma VoteShrinks(s: State, i: nat)
    requires Enabled(s, DoVote(i))
    ensures |Apply(s, DoVote(i)).parts| == PARTIES && Measure(Apply(s, DoVote(i))) < Measure(s)
  {
    var s' := Apply(s, DoVote(i));
    assert |s'.points| == |s.points| by { assert s'.points.Keys == s.points.Keys; }
    assert Todo(s'.parts[i], s.ticks) <= Todo(s.parts[i], s.ticks) - 3;
    Growth(s.parts, s'.parts, i, s.ticks, 1);
  }

  lemma EmitShrinks(s: State, i: nat)
    requires Enabled(s, DoEmit(i)) && Local(s.parts[i], s.ticks)
    ensures |Apply(s, DoEmit(i)).parts| == PARTIES && Measure(Apply(s, DoEmit(i))) < Measure(s)
  {
    var p', e := EmitShape(s, i);
    var s' := Emitted(s, i, p', e);
    assert Todo(s'.parts[i], s.ticks) <= Todo(s.parts[i], s.ticks) - 3;
    Growth(s.parts, s'.parts, i, s.ticks, 1);
  }

  /** Every run is finite, with a bound that is linear in the number of ticks. */
  lemma EveryRunEnds(ticks: nat, run: seq<Action>)
    requires Legal(Initial(ticks), run)
    ensures |run| <= 75 + 12 * ticks
  {
    InitialHolds(ticks);
    RunShrinks(Initial(ticks), run);
  }

  lemma {:induction false} RunShrinks(s: State, run: seq<Action>)
    requires Inv(s) && Legal(s, run)
    ensures |Execute(s, run).parts| == PARTIES && |run| + Measure(Execute(s, run)) <= Measure(s)
    decreases |run|
  {
    if run != [] {
      StepShrinks(s, run[0]);
      StepKeeps(s, run[0]);
      RunShrinks(Apply(s, run[0]), run[1..]);
    }
  }

  // --- The result ---------------------------------------------------------------------------

  /** The numbers of a list of heard ticks. */
  function Numbers(hs: seq<Heard>): seq<nat> {
    if hs == [] then [] else Numbers(hs[..|hs| - 1]) + [hs[|hs| - 1].seqno]
  }

  /** How often `x` occurs. */
  function Count(xs: seq<nat>, x: nat): nat {
    if xs == [] then 0 else Count(xs[..|xs| - 1], x) + (if xs[|xs| - 1] == x then 1 else 0)
  }

  /** `[seq for seq in range(1, n + 1) for _ in range(2)]`. */
  function Twice(n: nat): seq<nat> {
    if n == 0 then [] else Twice(n - 1) + [n, n]
  }

  /** `sorted(xs) == ys`: ys is ascending and a rearrangement of xs. */
  ghost predicate SortsTo(xs: seq<nat>, ys: seq<nat>) {
    && (forall i, j :: 0 <= i < j < |ys| ==> ys[i] <= ys[j])
    && forall x :: Count(xs, x) == Count(ys, x)
  }

  /** The checks of `verify` in runner.py on one participant's result. */
  ghost predicate Verified(p: Participant, ticks: nat) {
    && p.achieved == [Start, End]
    && p.synchronized == [Start, End]
    && |p.sent| == ticks
    && p.sent == UpTo(ticks)
    && SortsTo(Numbers(p.modelHeard), Twice(ticks))
    && p.duringSync == []
  }

  lemma CountSnoc(xs: seq<nat>, y: nat, x: nat)
    ensures Count(xs + [y], x) == Count(xs, x) + (if x == y then 1 else 0)
  {
    assert (xs + [y])[..|xs|] == xs;
  }

  lemma {:induction false} TwiceCounts(n: nat, x: nat)
    ensures Count(Twice(n), x) == 2 * Count(UpTo(n), x)
  {
    if n > 0 {
      TwiceCounts(n - 1, x);
      assert UpTo(n) == UpTo(n - 1) + [n];
      assert Twice(n) == Twice(n - 1) + [n] + [n];
      CountSnoc(UpTo(n - 1), n, x);
      CountSnoc(Twice(n - 1), n, x);
      CountSnoc(Twice(n - 1) + [n], n, x);
    }
  }

  lemma {:induction false} TwiceAscends(n: nat)
    ensures forall i, j :: 0 <= i < j < |Twice(n)| ==> Twice(n)[i] <= Twice(n)[j]
    ensures forall i :: 0 <= i < |Twice(n)| ==> Twice(n)[i] <= n
  {
    if n > 0 { TwiceAscends(n - 1); }
  }

  lemma FromCount(init: seq<Heard>, h: Heard, q: nat, x: nat)
    ensures Count(From(init + [h], q), x) ==
            Count(From(init, q), x) + (if h.sender == q && h.seqno == x then 1 else 0)
  {
    FromAppend(init, h, q);
    if h.sender == q {
      CountSnoc(From(init, q), h.seqno, x);
    } else {
      assert From(init, q) + [] == From(init, q);
    }
  }

  ghost predicate Balanced(hs: seq<Heard>, x: nat) {
    Count(Numbers(hs), x) == Count(From(hs, 0), x) + Count(From(hs, 1), x) + Count(From(hs, 2), x)
  }

  lemma BySenderStep(init: seq<Heard>, h: Heard, x: nat)
    requires h.sender < PARTIES && Balanced(init, x)
    ensures Balanced(init + [h], x)
  {
    FromCount(init, h, 0, x);
    FromCount(init, h, 1, x);
    FromCount(init, h, 2, x);
    assert (init + [h])[..|init|] == init;
    assert Numbers(init + [h]) == Numbers(init) + [h.seqno];
    CountSnoc(Numbers(init), h.seqno, x);
  }

  /** Every number that was heard was heard from exactly one of the three. */
  lemma BySender(hs: seq<Heard>, x: nat)
    requires FromParties(hs)
    ensures Balanced(hs, x)
  {
    for k := 0 to |hs|
      invariant Balanced(hs[..k], x)
    {
      assert hs[..k + 1] == hs[..k] + [hs[k]] && hs[k] in hs;
      BySenderStep(hs[..k], hs[k], x);
    }
    assert hs[..|hs|] == hs;
  }

  lemma AllHeard(s: State, i: nat)
    requires Inv(s) && AllDone(s) && i < PARTIES
    ensures forall q :: 0 <= q < PARTIES && q != i ==> From(s.parts[i].modelHeard, q) == UpTo(s.ticks)
    ensures From(s.parts[i].modelHeard, i) == [] && FromParties(s.parts[i].modelHeard)
  {
    CaughtUpMeansAllSent(s, i, i);
    assert Local(s.parts[0], s.ticks) && Local(s.parts[1], s.ticks) && Local(s.parts[2], s.ticks);
    assert Account(s, i) && Under(s.parts[i]) == s.parts[i].modelHeard;
  }

  /** Both peers' numbers 1..n, and nothing else, sort to the expected list. */
  lemma BothPeersSort(hs: seq<Heard>, i: nat, n: nat)
    requires i < PARTIES && FromParties(hs) && From(hs, i) == []
    requires forall q :: 0 <= q < PARTIES && q != i ==> From(hs, q) == UpTo(n)
    ensures SortsTo(Numbers(hs), Twice(n))
  {
    TwiceAscends(n);
    forall x ensures Count(Numbers(hs), x) == Count(Twice(n), x) { BothPeersCount(hs, i, n, x); }
  }

  lemma BothPeersCount(hs: seq<Heard>, i: nat, n: nat, x: nat)
    requires i < PARTIES && FromParties(hs) && From(hs, i) == []
    requires forall q :: 0 <= q < PARTIES && q != i ==> From(hs, q) == UpTo(n)
    ensures Count(Numbers(hs), x) == Count(Twice(n), x)
  {
    BySender(hs, x);
    TwiceCounts(n, x);
    assert From(hs, 0) == if i == 0 then [] else UpTo(n);
    assert From(hs, 1) == if i == 1 then [] else UpTo(n);
    assert From(hs, 2) == if i == 2 then [] else UpTo(n);
  }

  lemma HeardIsVerified(p: Participant, i: nat, ticks: nat)
    requires Local(p, ticks) && p.pc.Done? && i < PARTIES
    requires forall q :: 0 <= q < PARTIES && q != i ==> From(p.modelHeard, q) == UpTo(ticks)
    requires From(p.modelHeard, i) == [] && FromParties(p.modelHeard)
    ensures Verified(p, ticks)
  {
    BothPeersSort(p.modelHeard, i, ticks);
  }

  lemma DoneIsVerified(s: State, i: nat)
    requires Inv(s) && AllDone(s) && i < PARTIES
    ensures Verified(s.parts[i], s.ticks)
  {
    AllHeard(s, i);
    HeardIsVerified(s.parts[i], i, s.ticks);
  }

  /** Whenever the protocol cannot go on, it has finished exactly if the wire can carry the number of
      ticks. Then every participant has heard both peers completely and in order, and the
      runner's verification accepts. Otherwise somebody holds a number that does not fit. */
  lemma FunctionalResult(ticks: nat, run: seq<Action>, i: nat)
    requires Legal(Initial(ticks), run) && i < PARTIES
    requires forall a :: Enabled(Execute(Initial(ticks), run), a) ==> a.DoRetire?
    ensures var s := Execute(Initial(ticks), run);
            && (AllDone(s) <==> ticks < Wire.LIMIT)
            && (ticks >= Wire.LIMIT ==> SomebodyOverflows(s))
            && (ticks < Wire.LIMIT ==>
                  && Verified(s.parts[i], ticks)
                  && forall q :: 0 <= q < PARTIES && q != i ==> From(s.parts[i].modelHeard, q) == UpTo(ticks))
  {
    var s := Reached(ticks, run);
    DeadlockFree(ticks, run);
    if AllDone(s) {
      DoneIsVerified(s, i);
      AllHeard(s, i);
    }
  }
}
