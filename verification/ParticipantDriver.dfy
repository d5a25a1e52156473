/**
 The loops of one participant's driver, as loops: waiting for an event, draining before an
 emission, and catching up with the peers. Each is proved to be a number of single pops of
 the transition system, so what is shown of the system holds for the loops.
 */
module ParticipantDriver {
  import opened SyncPoints
  import opened Rendezvous
  import Wire

  /** At most `n` pops, as long as the participant is popping and something is queued. */
  function Pops(p: Participant, ticks: nat, n: nat): Participant
    decreases n
  {
    if n == 0 || !Popping(p, ticks) || p.queue == [] then p else Pops(Pop(p, ticks), ticks, n - 1)
  }

  /** The ticks among the events, decoded. */
  function Ticks(events: seq<Event>): seq<Heard> {
    if events == [] then []
    else Ticks(events[..|events| - 1]) +
         if events[|events| - 1].Tick? then Decode(events[|events| - 1]) else []
  }

  /** The event that ends a wait. */
  predicate Matches(pc: Pc, e: Event) {
    match pc
    case AwaitAnnounced(l) => e == Sync(Announced(l))
    case AwaitSynchronized(l) => e.Sync? && e.event.Synchronized? && e.event.name == l
    case _ => false
  }

  predicate Waiting(pc: Pc) { pc.AwaitAnnounced? || pc.AwaitSynchronized? }

  class Driver {
    var me: Participant

    constructor (p: Participant)
      ensures me == p
    {
      me := p;
    }

    /** `wait_for_event` over what is queued now: it ends with the first match, hands every tick before it
        to the tick handler and drops the rest, or runs the queue empty. */
    method WaitForEvent(ticks: nat) returns (matched: bool, ghost n: nat)
      requires Waiting(me.pc)
      modifies this
      ensures me == Pops(old(me), ticks, n) && n <= |old(me).queue|
      ensures matched <==> exists k :: 0 <= k < |old(me).queue| && Matches(old(me).pc, old(me).queue[k])
      ensures matched ==> n >= 1 && Matches(old(me).pc, old(me).queue[n - 1]) && me.pc != old(me).pc
      ensures !matched ==> n == |old(me).queue| && me.pc == old(me).pc
      ensures me.queue == old(me).queue[n..]
      ensures me.duringSync == old(me).duringSync + Ticks(old(me).queue[..if matched then n - 1 else n])
      ensures me.modelHeard == old(me).modelHeard + Ticks(old(me).queue[..if matched then n - 1 else n])
      ensures me.heard == old(me).heard
    {
      n := 0;
      ghost var p := me;
      ghost var q := me.queue;
      var awaited := me.pc;
      assert q[..0] == [] && q[0..] == q;
      while me.queue != []
        invariant n <= |q| && me.queue == q[n..] && me == Pops(p, ticks, n) && me.pc == p.pc && me.heard == p.heard
        invariant forall k :: 0 <= k < n ==> !Matches(p.pc, q[k])
        invariant me.duringSync == p.duringSync + Ticks(q[..n]) && me.modelHeard == p.modelHeard + Ticks(q[..n])
        decreases |me.queue|
      {
        PopsOneMore(p, ticks, n);
        PopAwaiting(me, ticks);
        TailOf(q, n);
        var e := me.queue[0];
        me := Pop(me, ticks);
        n := n + 1;
        if Matches(awaited, e) { return true, n; }
      }
      matched := false;
    }

    /** The drain before an emission takes everything that is queued. */
    method DrainQueue(ticks: nat)
      requires me.pc.Drain?
      modifies this
      ensures me == Pops(old(me), ticks, |old(me).queue|)
      ensures me.queue == [] && me.pc == old(me).pc
      ensures me.heard == old(me).heard + Ticks(old(me).queue) && me.modelHeard == old(me).modelHeard + Ticks(old(me).queue)
    {
      ghost var n, p := 0, me;
      ghost var q := me.queue;
      assert q[..0] == [] && q[0..] == q;
      while me.queue != []
        invariant n <= |q| && me.queue == q[n..] && me == Pops(p, ticks, n) && me.pc == p.pc
        invariant me.heard == p.heard + Ticks(q[..n]) && me.modelHeard == p.modelHeard + Ticks(q[..n])
        decreases |me.queue|
      {
        PopsOneMore(p, ticks, n);
        assert q[n..][0] == q[n] && q[n..][1..] == q[n + 1..];
        assert q[..n + 1][..n] == q[..n];
        me := Pop(me, ticks);
        n := n + 1;
      }
      assert q[..n] == q;
    }

    /** `drain_peer_ticks` over what is queued now: it stops at the expected number of ticks and
        never takes more. */
    method DrainPeerTicks(ticks: nat) returns (complete: bool, ghost n: nat)
      requires me.pc.CatchUp? && |me.heard| <= 2 * ticks
      modifies this
      ensures me == Pops(old(me), ticks, n) && n <= |old(me).queue| && me.pc == old(me).pc
      ensures me.queue == old(me).queue[n..] && me.heard == old(me).heard + Ticks(old(me).queue[..n])
      ensures me.modelHeard == old(me).modelHeard + Ticks(old(me).queue[..n])
      ensures |me.heard| <= 2 * ticks && (complete <==> |me.heard| == 2 * ticks)
      ensures !complete ==> me.queue == []
    {
      n := 0;
      ghost var p, q := me, me.queue;
      assert q[..0] == [] && q[0..] == q;
      while |me.heard| < 2 * ticks && me.queue != []
        invariant n <= |q| && me.queue == q[n..] && me == Pops(p, ticks, n) && me.pc == p.pc
        invariant me.heard == p.heard + Ticks(q[..n]) && |me.heard| <= 2 * ticks
        invariant me.modelHeard == p.modelHeard + Ticks(q[..n])
        decreases |me.queue|
      {
        PopsOneMore(p, ticks, n);
        assert q[n..][0] == q[n] && q[n..][1..] == q[n + 1..];
        assert q[..n + 1][..n] == q[..n];
        me := Pop(me, ticks);
        n := n + 1;
      }
      complete := |me.heard| == 2 * ticks;
    }
  }

  /** One turn of the waiting loop. */
  lemma PopAwaiting(p: Participant, ticks: nat)
    requires Waiting(p.pc) && p.queue != []
    ensures var p', e := Pop(p, ticks), p.queue[0];
            && Popping(p, ticks) && p'.queue == p.queue[1..] && p'.heard == p.heard
            && (Matches(p.pc, e) ==> p'.pc != p.pc && p'.duringSync == p.duringSync && p'.modelHeard == p.modelHeard)
            && (!Matches(p.pc, e) ==>
                  && p'.pc == p.pc && p'.duringSync == p.duringSync + (if e.Tick? then Decode(e) else [])
                  && p'.modelHeard == p.modelHeard + if e.Tick? then Decode(e) else [])
  {
    assert p.duringSync + [] == p.duringSync && p.modelHeard + [] == p.modelHeard;
  }

  lemma TailOf(q: seq<Event>, n: nat)
    requires n < |q|
    ensures q[n..][0] == q[n] && q[n..][1..] == q[n + 1..]
    ensures Ticks(q[..n + 1]) == Ticks(q[..n]) + if q[n].Tick? then Decode(q[n]) else []
  {
    assert q[..n + 1][..n] == q[..n];
  }

  lemma {:induction false} PopsOneMore(p: Participant, ticks: nat, n: nat)
    requires Popping(Pops(p, ticks, n), ticks) && Pops(p, ticks, n).queue != []
    ensures Pops(p, ticks, n + 1) == Pop(Pops(p, ticks, n), ticks)
    decreases n
  {
    if n > 0 && Popping(p, ticks) && p.queue != [] {
      PopsOneMore(Pop(p, ticks), ticks, n - 1);
    }
  }

  // --- Loops are runs -----------------------------------------------------------------------

  function PopRun(i: nat, n: nat): seq<Action> { if n == 0 then [] else [DoPop(i)] + PopRun(i, n - 1) }

  /** A driver loop that takes `n` events is a run of `n` pops of the system, which touches nobody else. */
  lemma {:induction false} LoopIsRun(s: State, i: nat, n: nat)
    requires |s.parts| == PARTIES && i < PARTIES
    requires forall k :: 0 <= k < n ==> Popping(Pops(s.parts[i], s.ticks, k), s.ticks) && Pops(s.parts[i], s.ticks, k).queue != []
    ensures Legal(s, PopRun(i, n))
    ensures Execute(s, PopRun(i, n)) == s.(parts := s.parts[i := Pops(s.parts[i], s.ticks, n)])
    decreases n
  {
    if n == 0 {
      assert s.parts[i := s.parts[i]] == s.parts;
    } else {
      assert Pops(s.parts[i], s.ticks, 0) == s.parts[i];
      var s' := Apply(s, DoPop(i));
      var p := s.parts[i];
      forall k | 0 <= k < n - 1
        ensures Popping(Pops(s'.parts[i], s.ticks, k), s.ticks) && Pops(s'.parts[i], s.ticks, k).queue != []
      {
        assert Pops(p, s.ticks, k + 1) == Pops(Pop(p, s.ticks), s.ticks, k);
      }
      LoopIsRun(s', i, n - 1);
      assert PopRun(i, n)[1..] == PopRun(i, n - 1);
      assert s.parts[i := s'.parts[i]][i := Pops(s'.parts[i], s.ticks, n - 1)] == s.parts[i := Pops(p, s.ticks, n)];
    }
  }
}
