/**
 What every step of the rendezvous protocol keeps, and the proof that every step keeps it.
 */
module RendezvousInvariant {
  import opened SyncPoints
  import opened Rendezvous
  import Wire

  // --- Milestones of a program counter ------------------------------------------------------

  function Stage(pc: Pc): nat {
    match pc
    case Register(l) => Base(l)
    case AwaitAnnounced(l) => Base(l) + 1
    case Vote(l) => Base(l) + 2
    case AwaitSynchronized(l) => Base(l) + 3
    case Drain(_) => 4
    case Emit(_) => 4
    case CatchUp => 5
    case Done => 10
  }

  function Base(l: Label): nat { if l == Start then 0 else 6 }

  predicate HasRegistered(p: Participant, l: Label) { Stage(p.pc) > Base(l) }
  predicate HasSeen(p: Participant, l: Label) { Stage(p.pc) > Base(l) + 1 }
  predicate HasVoted(p: Participant, l: Label) { Stage(p.pc) > Base(l) + 2 }
  predicate HasSynced(p: Participant, l: Label) { Stage(p.pc) > Base(l) + 3 }
  predicate HasSentAll(p: Participant) { Stage(p.pc) >= 5 }

  predicate AllVoted(parts: seq<Participant>, l: Label) {
    forall i :: 0 <= i < |parts| ==> HasVoted(parts[i], l)
  }

  // --- Tick accounting ----------------------------------------------------------------------

  /** The ticks in a queue, as they will be heard. */
  function Wires(queue: seq<Event>): seq<Heard> {
    if queue == [] then []
    else (if queue[0].Tick? then Decode(queue[0]) else []) + Wires(queue[1..])
  }

  lemma WiresAppend(queue: seq<Event>, e: Event)
    ensures Wires(queue + [e]) == Wires(queue) + (if e.Tick? then Decode(e) else [])
  {
    if queue != [] {
      assert (queue + [e])[1..] == queue[1..] + [e];
      WiresAppend(queue[1..], e);
    } else {
      assert queue + [e] == [e];
    }
  }

  lemma WiresOfTick(queue: seq<Event>, k: nat)
    requires k < |queue| && queue[k].Tick? && |queue[k].wire| == 4
    ensures Wires(queue) != []
  {
    if k > 0 { WiresOfTick(queue[1..], k - 1); }
  }

  /** The sequence numbers heard from one sender, in order. */
  function From(hs: seq<Heard>, q: nat): seq<nat> {
    if hs == [] then []
    else From(hs[..|hs| - 1], q) + (if hs[|hs| - 1].sender == q then [hs[|hs| - 1].seqno] else [])
  }

  lemma FromAppend(hs: seq<Heard>, h: Heard, q: nat)
    ensures From(hs + [h], q) == From(hs, q) + (if h.sender == q then [h.seqno] else [])
  {
    assert (hs + [h])[..|hs|] == hs;
  }

  predicate FromParties(hs: seq<Heard>) { forall h :: h in hs ==> h.sender < PARTIES }

  lemma CountBySender(hs: seq<Heard>)
    requires FromParties(hs)
    ensures |hs| == |From(hs, 0)| + |From(hs, 1)| + |From(hs, 2)|
  {
    if hs != [] { CountBySender(hs[..|hs| - 1]); }
  }

  function UpTo(n: nat): (r: seq<nat>)
    ensures |r| == n
    ensures forall i :: 0 <= i < n ==> r[i] == i + 1
  {
    seq(n, i => i + 1)
  }

  /** Everything a participant has heard or will hear from what is already under way. */
  function Under(p: Participant): seq<Heard> { p.heard + Wires(p.queue) }

  // --- Queue shape --------------------------------------------------------------------------

  /** The order in which kinds of events can sit in one queue. */
  function Rank(e: Event): nat {
    match e
    case Tick(_, _) => 2
    case Sync(Synchronized(l, _)) => if l == Start then 1 else 4
    case Sync(x) => if x.name == Start then 0 else 3
  }

  predicate Ordered(queue: seq<Event>) {
    forall a, b :: 0 <= a < b < |queue| ==> Rank(queue[a]) <= Rank(queue[b])
  }

  // --- The invariant ------------------------------------------------------------------------

  /** The participant's own bookkeeping agrees with its program counter. */
  ghost predicate Local(p: Participant, ticks: nat) {
    && (p.pc.Drain? || p.pc.Emit? ==> p.pc.cycle < ticks && p.sent == UpTo(p.pc.cycle))
    && (Stage(p.pc) < 4 ==> p.sent == [])
    && (HasSentAll(p) ==> p.sent == UpTo(ticks))
    && (Stage(p.pc) > 5 ==> |p.heard| == 2 * ticks)
    && |p.sent| < Wire.LIMIT && p.duringSync == [] && p.modelHeard == p.heard
    && p.achieved == (if HasVoted(p, Start) then [Start] else []) + (if HasVoted(p, End) then [End] else [])
    && p.synchronized == (if HasSynced(p, Start) then [Start] else []) + (if HasSynced(p, End) then [End] else [])
  }

  /** Heard plus under way is exactly what the peers have sent, per peer and in order. */
  ghost predicate Account(s: State, i: nat)
    requires i < |s.parts| == PARTIES
  {
    && FromParties(Under(s.parts[i]))
    && forall q {:trigger From(Under(s.parts[i]), q)} :: 0 <= q < PARTIES ==>
         From(Under(s.parts[i]), q) == if q == i then [] else s.parts[q].sent
  }

  /** How far the federation as a whole has come: which labels are registered, which are voted. */
  datatype View = View(startWon: bool, startVoted: bool, endWon: bool, endVoted: bool) {
    predicate Won(l: Label) { if l == Start then startWon else endWon }
    predicate Voted(l: Label) { if l == Start then startVoted else endVoted }
  }

  function Seen(s: State): View {
    View(Start in s.wins, AllVoted(s.parts, Start), End in s.wins, AllVoted(s.parts, End))
  }

  /** Which events can be waiting in a queue: no wake-up is missing and none is stale. */
  ghost predicate Mailbox(p: Participant, v: View) {
    && Ordered(p.queue)
    && (forall e :: e in p.queue ==> Wellformed(e, p))
    && Pending(p, v, Start) && Pending(p, v, End)
  }

  /** Exactly the wake-ups of `l` that were issued and not yet consumed are in the queue, once each. */
  ghost predicate Pending(p: Participant, v: View, l: Label) {
    && multiset(p.queue)[Sync(Announced(l))] == (if v.Won(l) && !HasSeen(p, l) then 1 else 0)
    && multiset(p.queue)[Sync(Synchronized(l, {}))] == (if v.Voted(l) && !HasSynced(p, l) then 1 else 0)
  }

  /** Ticks carry four bytes, nobody votes "failed", acknowledgements do not outlive their rendezvous. */
  ghost predicate Wellformed(e: Event, p: Participant) {
    match e
    case Tick(_, w) => |w| == 4
    case Sync(Announced(_)) => true
    case Sync(Synchronized(_, failed)) => failed == {}
    case Sync(x) => HasRegistered(p, x.name) && !HasSynced(p, x.name)
  }

  function VotedSet(parts: seq<Participant>, l: Label): set<Handle> {
    set j: nat | j < |parts| && HasVoted(parts[j], l)
  }

  /** The server's table and the history of successful registrations. */
  ghost predicate Table(s: State)
    requires |s.parts| == PARTIES
  {
    && (forall l, j :: 0 <= j < PARTIES && HasRegistered(s.parts[j], l) ==> l in s.wins)
    && (forall l :: l in s.wins ==> exists j :: 0 <= j < PARTIES && HasRegistered(s.parts[j], l))
    && (forall l :: multiset(s.wins)[l] <= 1)
    && (forall l, j :: 0 <= j < PARTIES && HasSynced(s.parts[j], l) ==> AllVoted(s.parts, l))
    && (forall l :: TableEntry(s, l))
  }

  ghost predicate TableEntry(s: State, l: Label)
    requires |s.parts| == PARTIES
  {
    && (l !in s.wins ==> l !in s.points)
    && (l in s.wins && !AllVoted(s.parts, l) ==>
          l in s.points && s.points[l] == Point(Everyone(), VotedSet(s.parts, l), {}, false))
    && (l in s.points && AllVoted(s.parts, l) ==> s.points[l].complete)
  }

  ghost predicate Locals(s: State) {
    |s.parts| == PARTIES && forall i :: 0 <= i < PARTIES ==> Local(s.parts[i], s.ticks)
  }

  ghost predicate Accounts(s: State) {
    |s.parts| == PARTIES && forall i :: 0 <= i < PARTIES ==> Account(s, i)
  }

  ghost predicate Mailboxes(s: State, v: View) {
    |s.parts| == PARTIES && forall i :: 0 <= i < PARTIES ==> Mailbox(s.parts[i], v)
  }

  ghost predicate Inv(s: State) {
    Locals(s) && Accounts(s) && Table(s) && Mailboxes(s, Seen(s))
  }

  // --- Consequences used throughout ---------------------------------------------------------

  lemma SentBounded(p: Participant, ticks: nat)
    requires Local(p, ticks)
    ensures |p.sent| <= ticks
  {}

  /** A count of what participant i has heard and will hear. */
  lemma UnderTotal(s: State, i: nat)
    requires i < |s.parts| == PARTIES && Account(s, i)
    ensures |s.parts[i].heard| + |Wires(s.parts[i].queue)| ==
            |s.parts[0].sent| + |s.parts[1].sent| + |s.parts[2].sent| - |s.parts[i].sent|
  {
    var all := Under(s.parts[i]);
    CountBySender(all);
    var n0, n1, n2 := |From(all, 0)|, |From(all, 1)|, |From(all, 2)|;
    assert n0 == if i == 0 then 0 else |s.parts[0].sent|;
    assert n1 == if i == 1 then 0 else |s.parts[1].sent|;
    assert n2 == if i == 2 then 0 else |s.parts[2].sent|;
  }

  /** Once anyone has finished catching up, everybody has emitted its last tick. */
  lemma CaughtUpMeansAllSent(s: State, j: nat, q: nat)
    requires j < |s.parts| == PARTIES && q < PARTIES && Stage(s.parts[j].pc) > 5
    requires Account(s, j)
    requires forall i :: 0 <= i < PARTIES ==> Local(s.parts[i], s.ticks)
    ensures |s.parts[q].sent| == s.ticks
    ensures Wires(s.parts[j].queue) == []
  {
    UnderTotal(s, j);
    SentBounded(s.parts[0], s.ticks);
    SentBounded(s.parts[1], s.ticks);
    SentBounded(s.parts[2], s.ticks);
    assert Local(s.parts[j], s.ticks);
  }

  /** "end_simulation" is only ever registered when no tick is left to emit. */
  lemma EndWonMeansAllSent(s: State, q: nat)
    requires Locals(s) && Accounts(s) && Table(s) && End in s.wins && q < PARTIES
    ensures |s.parts[q].sent| == s.ticks
    ensures AllVoted(s.parts, Start)
  {
    var j :| 0 <= j < PARTIES && HasRegistered(s.parts[j], End);
    assert HasSynced(s.parts[j], Start);
    CaughtUpMeansAllSent(s, j, q);
  }

  /** Until everybody has voted on "start_simulation" there is no tick anywhere. */
  lemma NoTickBeforeStart(s: State, i: nat)
    requires Locals(s) && Accounts(s) && Table(s) && i < PARTIES && !AllVoted(s.parts, Start)
    ensures s.parts[i].sent == [] && Wires(s.parts[i].queue) == [] && End !in s.wins
  {
    assert forall j :: 0 <= j < PARTIES ==> !HasSynced(s.parts[j], Start) && !HasRegistered(s.parts[j], End);
    assert Local(s.parts[0], s.ticks) && Local(s.parts[1], s.ticks) && Local(s.parts[2], s.ticks);
    UnderTotal(s, i);
  }

  // --- No lost wake-up ----------------------------------------------------------------------

  /** The events a participant can find at the head of its queue, by what it is doing. */
  ghost predicate Expected(p: Participant, e: Event) {
    match p.pc
    case AwaitAnnounced(l) => e == Sync(Announced(l)) || IsAck(e)
    case AwaitSynchronized(l) => e == Sync(Synchronized(l, {})) || IsAck(e)
    case _ => e.Tick? && |e.wire| == 4
  }

  predicate IsAck(e: Event) {
    e.Sync? && (e.event.RegistrationSucceeded? || e.event.RegistrationFailed?)
  }

  lemma OrderedHead(queue: seq<Event>, e: Event)
    requires Ordered(queue) && e in queue
    ensures Rank(queue[0]) <= Rank(e)
  {
    var k :| 0 <= k < |queue| && queue[k] == e;
  }

  lemma TickInQueue(queue: seq<Event>, e: Event)
    requires e in queue && e.Tick? && |e.wire| == 4
    ensures Wires(queue) != []
  {
    var k :| 0 <= k < |queue| && queue[k] == e;
    WiresOfTick(queue, k);
  }

  /** Waiting for an announcement, nothing but it and acknowledgements can come first. */
  lemma AwaitingAnnounced(p: Participant, v: View)
    requires Mailbox(p, v) && p.pc.AwaitAnnounced? && p.queue != []
    requires !v.Voted(p.pc.name) && !v.endVoted && (p.pc.name == Start ==> !v.endWon)
    requires Wires(p.queue) == []
    ensures Expected(p, p.queue[0])
  {
    var e := p.queue[0];
    assert multiset(p.queue)[e] > 0 && Wellformed(e, p);
    match e
    case Tick(_, _) => TickInQueue(p.queue, e);
    case Sync(x) => assert Pending(p, v, x.name);
  }

  /** Waiting for the federation to synchronize, ticks and the next announcement are behind. */
  lemma AwaitingSynchronized(p: Participant, v: View)
    requires Mailbox(p, v) && p.pc.AwaitSynchronized? && p.queue != []
    requires p.pc.name == Start ==> !v.endVoted && (v.endWon ==> v.startVoted)
    requires Wires(p.queue) != [] ==> p.pc.name == Start && v.startVoted
    ensures Expected(p, p.queue[0])
  {
    var e := p.queue[0];
    assert multiset(p.queue)[e] > 0 && Wellformed(e, p);
    if e.Tick? { TickInQueue(p.queue, e); } else { assert Pending(p, v, e.event.name); }
    if v.Voted(p.pc.name) {
      assert Pending(p, v, p.pc.name);
      assert Sync(Synchronized(p.pc.name, {})) in p.queue;
      OrderedHead(p.queue, Sync(Synchronized(p.pc.name, {})));
    }
  }

  /** Draining ticks, only ticks can come first: the next announcement is behind all of them. */
  lemma Draining(p: Participant, v: View)
    requires Mailbox(p, v) && (p.pc.Drain? || p.pc.CatchUp?) && p.queue != [] && !v.endVoted
    requires v.endWon ==> Wires(p.queue) != []
    ensures Expected(p, p.queue[0])
  {
    var e := p.queue[0];
    assert multiset(p.queue)[e] > 0 && Wellformed(e, p);
    if e.Sync? { assert Pending(p, v, e.event.name); }
    if e == Sync(Announced(End)) {
      BehindNothing(p.queue);
    }
  }

  /** Behind an announcement of the end there is no tick. */
  lemma BehindNothing(queue: seq<Event>)
    requires Ordered(queue) && queue != [] && Rank(queue[0]) > 2
    ensures Wires(queue) == []
  {
    if |queue| > 1 {
      assert queue[1..][0] == queue[1];
      BehindNothing(queue[1..]);
    }
  }

  /** No lost wake-up: whatever a participant pops, it never discards an announcement or a
      synchronization, and it never hears a tick while it waits for one. */
  lemma NothingLost(s: State, i: nat)
    requires Inv(s) && i < PARTIES && Popping(s.parts[i], s.ticks) && s.parts[i].queue != []
    ensures Expected(s.parts[i], s.parts[i].queue[0])
  {
    HeadExpected(s, i, Seen(s));
  }

  lemma HeadExpected(s: State, i: nat, v: View)
    requires Locals(s) && Accounts(s) && Table(s) && i < PARTIES && v == Seen(s) && Mailbox(s.parts[i], v)
    requires Popping(s.parts[i], s.ticks) && s.parts[i].queue != []
    ensures Expected(s.parts[i], s.parts[i].queue[0])
  {
    var p := s.parts[i];
    assert HasVoted(p, End) == (p.pc == AwaitSynchronized(End));
    if p.pc.AwaitAnnounced? {
      assert !HasVoted(p, p.pc.name);
      if p.pc.name == Start { NoTickBeforeStart(s, i); } else { CaughtUpMeansAllSent(s, i, i); }
      AwaitingAnnounced(p, v);
    } else if p.pc.AwaitSynchronized? {
      if !v.startVoted { NoTickBeforeStart(s, i); }
      if p.pc.name == End { CaughtUpMeansAllSent(s, i, i); }
      AwaitingSynchronized(p, v);
    } else {
      assert !v.endVoted;
      if v.endWon { TicksStillToHear(s, i); }
      Draining(p, v);
    }
  }

  /** While a participant still misses ticks, none of them has been lost. */
  lemma TicksStillToHear(s: State, i: nat)
    requires Locals(s) && Accounts(s) && Table(s) && i < PARTIES && End in s.wins
    requires s.parts[i].pc.Drain? || (s.parts[i].pc.CatchUp? && |s.parts[i].heard| < 2 * s.ticks)
    ensures Wires(s.parts[i].queue) != []
  {
    EndWonMeansAllSent(s, 0);
    EndWonMeansAllSent(s, 1);
    EndWonMeansAllSent(s, 2);
    UnderTotal(s, i);
    assert Local(s.parts[i], s.ticks);
  }

  // --- Every step keeps the invariant -------------------------------------------------------

  ghost predicate SameVotes(parts: seq<Participant>, parts': seq<Participant>) {
    |parts| == |parts'| && forall j, l :: 0 <= j < |parts| ==> HasVoted(parts[j], l) == HasVoted(parts'[j], l)
  }

  lemma VotesAgree(parts: seq<Participant>, parts': seq<Participant>, l: Label)
    requires SameVotes(parts, parts')
    ensures AllVoted(parts, l) == AllVoted(parts', l) && VotedSet(parts, l) == VotedSet(parts', l)
  {
    if AllVoted(parts, l) {
      forall j | 0 <= j < |parts'| ensures HasVoted(parts'[j], l) { assert HasVoted(parts[j], l); }
    }
    if AllVoted(parts', l) {
      forall j | 0 <= j < |parts| ensures HasVoted(parts[j], l) { assert HasVoted(parts'[j], l); }
    }
  }

  /** Two states with the same table, whose participants have cast the same votes. */
  ghost predicate SameMilestones(s: State, s': State) {
    && |s.parts| == |s'.parts| == PARTIES
    && s.wins == s'.wins && s.points == s'.points
    && (forall j, l :: 0 <= j < PARTIES && HasRegistered(s.parts[j], l) ==> HasRegistered(s'.parts[j], l))
    && (forall j, l :: 0 <= j < PARTIES && HasRegistered(s'.parts[j], l) ==> l in s.wins)
    && SameVotes(s.parts, s'.parts)
  }

  lemma TableKept(s: State, s': State)
    requires SameMilestones(s, s') && Table(s)
    requires forall j, l :: 0 <= j < PARTIES && HasSynced(s'.parts[j], l) ==> AllVoted(s.parts, l)
    ensures Table(s') && Seen(s') == Seen(s)
  {
    forall l ensures AllVoted(s.parts, l) == AllVoted(s'.parts, l) && VotedSet(s.parts, l) == VotedSet(s'.parts, l) {
      VotesAgree(s.parts, s'.parts, l);
    }
    forall l | l in s'.wins ensures exists j :: 0 <= j < PARTIES && HasRegistered(s'.parts[j], l) {
      var j :| 0 <= j < PARTIES && HasRegistered(s.parts[j], l);
    }
    assert forall l :: TableEntry(s, l) ==> TableEntry(s', l);
  }

  lemma OrderedTail(queue: seq<Event>)
    requires Ordered(queue) && queue != []
    ensures Ordered(queue[1..]) && queue == [queue[0]] + queue[1..]
    ensures multiset(queue) == multiset{queue[0]} + multiset(queue[1..])
  {
    assert queue == [queue[0]] + queue[1..];
  }

  /** What popping does to the events left behind. */
  lemma PopWellformed(p: Participant, ticks: nat, v: View)
    requires Mailbox(p, v) && Popping(p, ticks) && p.queue != [] && Expected(p, p.queue[0])
    ensures forall x :: x in Pop(p, ticks).queue ==> Wellformed(x, Pop(p, ticks))
  {
    forall x | x in Pop(p, ticks).queue ensures Wellformed(x, Pop(p, ticks)) {
      assert x in p.queue && Wellformed(x, p);
      OrderedHead(p.queue, x);
    }
  }

  lemma PopPending(p: Participant, ticks: nat, v: View, l: Label)
    requires Popping(p, ticks) && p.queue != [] && Expected(p, p.queue[0]) && Pending(p, v, l)
    ensures Pending(Pop(p, ticks), v, l)
    ensures HasSynced(Pop(p, ticks), l) ==> HasSynced(p, l) || v.Voted(l)
  {
    TakeOne(p.queue, Sync(Announced(l)));
    TakeOne(p.queue, Sync(Synchronized(l, {})));
    assert Pop(p, ticks).queue == p.queue[1..];
  }

  lemma TakeOne(queue: seq<Event>, x: Event)
    requires queue != []
    ensures multiset(queue[1..])[x] == multiset(queue)[x] - (if queue[0] == x then 1 else 0)
  {
    assert queue == [queue[0]] + queue[1..];
  }

  lemma PopMailbox(p: Participant, ticks: nat, v: View)
    requires Mailbox(p, v) && Popping(p, ticks) && p.queue != [] && Expected(p, p.queue[0])
    ensures Mailbox(Pop(p, ticks), v)
    ensures forall l :: HasSynced(Pop(p, ticks), l) ==> HasSynced(p, l) || v.Voted(l)
  {
    OrderedTail(p.queue);
    PopWellformed(p, ticks, v);
    PopPending(p, ticks, v, Start);
    PopPending(p, ticks, v, End);
  }

  lemma PopLocal(p: Participant, ticks: nat)
    requires Local(p, ticks) && Popping(p, ticks) && p.queue != [] && Expected(p, p.queue[0])
    ensures Local(Pop(p, ticks), ticks)
    ensures Pop(p, ticks).sent == p.sent
    ensures Under(Pop(p, ticks)) == Under(p)
    ensures forall l :: HasRegistered(Pop(p, ticks), l) == HasRegistered(p, l)
    ensures forall l :: HasVoted(Pop(p, ticks), l) == HasVoted(p, l)
  {
    assert Wires(p.queue) == (if p.queue[0].Tick? then Decode(p.queue[0]) else []) + Wires(p.queue[1..]);
  }

  function Put(s: State, i: nat, p: Participant): State
    requires i < |s.parts|
  {
    s.(parts := s.parts[i := p])
  }

  lemma PutLocals(s: State, i: nat, p': Participant)
    requires Locals(s) && i < PARTIES && Local(p', s.ticks)
    ensures Locals(Put(s, i, p'))
  {}

  lemma PutMailboxes(s: State, i: nat, p': Participant, v: View)
    requires Mailboxes(s, v) && i < PARTIES && Mailbox(p', v)
    ensures Mailboxes(Put(s, i, p'), v)
  {}

  /** The accounts depend on nothing but what is sent and what is under way. */
  lemma AccountsKept(s: State, s': State)
    requires Accounts(s) && |s'.parts| == PARTIES
    requires forall j :: 0 <= j < PARTIES ==> s'.parts[j].sent == s.parts[j].sent && Under(s'.parts[j]) == Under(s.parts[j])
    ensures Accounts(s')
  {
    forall j | 0 <= j < PARTIES ensures Account(s', j) {
      assert Account(s, j);
    }
  }

  lemma PutTable(s: State, i: nat, p': Participant)
    requires |s.parts| == PARTIES && Table(s) && i < PARTIES
    requires forall l :: HasRegistered(s.parts[i], l) ==> HasRegistered(p', l)
    requires forall l :: HasRegistered(p', l) ==> l in s.wins
    requires forall l :: HasVoted(p', l) == HasVoted(s.parts[i], l)
    requires forall l :: HasSynced(p', l) ==> AllVoted(s.parts, l)
    ensures Table(Put(s, i, p')) && Seen(Put(s, i, p')) == Seen(s)
  {
    TableKept(s, Put(s, i, p'));
  }

  /** Replacing one participant by one with the same account and the same votes. */
  lemma LocalStep(s: State, i: nat, p': Participant)
    requires Inv(s) && i < PARTIES
    requires Local(p', s.ticks) && Mailbox(p', Seen(s))
    requires p'.sent == s.parts[i].sent && Under(p') == Under(s.parts[i])
    requires forall l :: HasRegistered(s.parts[i], l) ==> HasRegistered(p', l)
    requires forall l :: HasRegistered(p', l) ==> l in s.wins
    requires forall l :: HasVoted(p', l) == HasVoted(s.parts[i], l)
    requires forall l :: HasSynced(p', l) ==> AllVoted(s.parts, l)
    ensures Inv(Put(s, i, p'))
  {
    PutLocals(s, i, p');
    PutTable(s, i, p');
    PutMailboxes(s, i, p', Seen(s));
    AccountsKept(s, Put(s, i, p'));
  }

  lemma PopKeeps(s: State, i: nat)
    requires Inv(s) && Enabled(s, DoPop(i))
    ensures Inv(Apply(s, DoPop(i)))
  {
    var p := s.parts[i];
    HeadExpected(s, i, Seen(s));
    PopLocal(p, s.ticks);
    PopMailbox(p, s.ticks, Seen(s));
    LocalStep(s, i, Pop(p, s.ticks));
  }

  lemma StopDrainingKeeps(s: State, i: nat)
    requires Inv(s) && Enabled(s, DoStopDraining(i))
    ensures Inv(Apply(s, DoStopDraining(i)))
  {
    var p := s.parts[i];
    LocalStep(s, i, p.(pc := Emit(p.pc.cycle)));
  }

  lemma FinishCatchUpKeeps(s: State, i: nat)
    requires Inv(s) && Enabled(s, DoFinishCatchUp(i))
    ensures Inv(Apply(s, DoFinishCatchUp(i)))
  {
    LocalStep(s, i, s.parts[i].(pc := Register(End)));
  }

  /** How far up the ranks a queue can reach, given how far the federation has come. */
  lemma Reach(p: Participant, v: View, x: Event)
    requires Mailbox(p, v) && x in p.queue
    ensures !v.endVoted ==> Rank(x) <= 3
    ensures !v.endVoted && !v.endWon && !HasRegistered(p, End) ==> Rank(x) <= 2
    ensures !v.endVoted && !v.endWon && !HasRegistered(p, End) && Wires(p.queue) == [] ==> Rank(x) <= 1
    ensures !v.endVoted && !v.endWon && !HasRegistered(p, End) && Wires(p.queue) == [] && !v.startVoted ==> Rank(x) == 0
  {
    assert multiset(p.queue)[x] > 0 && Wellformed(x, p);
    if x.Tick? { TickInQueue(p.queue, x); } else { assert Pending(p, v, x.event.name); }
  }

  /** One more event at the end of a queue, with the federation seen as `v'` from then on. */
  lemma PushMailbox(p: Participant, e: Event, v: View, v': View)
    requires Mailbox(p, v) && Wellformed(e, p)
    requires forall x :: x in p.queue ==> Rank(x) <= Rank(e)
    requires Pending(Push(p, e), v', Start) && Pending(Push(p, e), v', End)
    ensures Mailbox(Push(p, e), v')
  {
    assert forall x :: x in Push(p, e).queue ==> x in p.queue || x == e;
  }

  /** An event that is no wake-up: an acknowledgement or a tick. */
  lemma PushQuiet(p: Participant, e: Event, v: View)
    requires Mailbox(p, v) && Wellformed(e, p) && (e.Tick? || IsAck(e))
    requires !v.endVoted
    requires e.Tick? || e.event.name == Start ==> !v.endWon && !HasRegistered(p, End)
    requires !e.Tick? && e.event.name == Start ==> !v.startVoted && Wires(p.queue) == []
    ensures Mailbox(Push(p, e), v)
  {
    forall x | x in p.queue ensures Rank(x) <= Rank(e) { Reach(p, v, x); }
    PushMailbox(p, e, v, v);
  }

  lemma PushAnnounced(p: Participant, l: Label, v: View, v': View)
    requires Mailbox(p, v) && !v.Won(l) && !HasSeen(p, l) && !v.endVoted
    requires l == Start ==> !v.startVoted && !v.endWon && Wires(p.queue) == []
    requires v' == if l == Start then v.(startWon := true) else v.(endWon := true)
    ensures Mailbox(Push(p, Sync(Announced(l))), v')
  {
    var e := Sync(Announced(l));
    forall x | x in p.queue ensures Rank(x) <= Rank(e) { Reach(p, v, x); }
    PushMailbox(p, e, v, v');
  }

  lemma PushSynchronized(p: Participant, l: Label, v: View, v': View)
    requires Mailbox(p, v) && !v.Voted(l) && !HasSynced(p, l)
    requires l == Start ==> !v.endVoted && !v.endWon && !HasRegistered(p, End) && Wires(p.queue) == []
    requires v' == if l == Start then v.(startVoted := true) else v.(endVoted := true)
    ensures Mailbox(Push(p, Sync(Synchronized(l, {}))), v')
  {
    var e := Sync(Synchronized(l, {}));
    forall x | x in p.queue ensures Rank(x) <= Rank(e) { if l == Start { Reach(p, v, x); } }
    PushMailbox(p, e, v, v');
  }

  // Retiring a label.

  lemma RetireKeeps(s: State, l: Label)
    requires Inv(s) && Enabled(s, DoRetire(l))
    ensures Inv(Apply(s, DoRetire(l)))
  {
    var s' := Apply(s, DoRetire(l));
    AccountsKept(s, s');
    RetireTable(s, l);
  }

  lemma RetireTable(s: State, l: Label)
    requires |s.parts| == PARTIES && Table(s) && l in s.points && s.points[l].complete
    ensures Table(s.(points := Retire(s.points, l)))
  {
    var s' := s.(points := Retire(s.points, l));
    forall k ensures TableEntry(s', k) { assert TableEntry(s, k) && TableEntry(s, l); }
  }

  // Emitting a tick.

  /** What an emission amounts to: the sender moves on, one tick goes to both peers. */
  ghost predicate Emission(s: State, i: nat, p': Participant, e: Event) {
    && i < |s.parts| == PARTIES && s.parts[i].pc.Emit?
    && p'.pc == (if s.parts[i].pc.cycle + 1 < s.ticks then Drain(s.parts[i].pc.cycle + 1) else CatchUp)
    && p' == s.parts[i].(pc := p'.pc, sent := s.parts[i].sent + [|s.parts[i].sent| + 1])
    && |p'.sent| < Wire.LIMIT && e.Tick? && |e.wire| == 4 && Decode(e) == [Heard(i, |s.parts[i].sent| + 1)]
  }

  function Emitted(s: State, i: nat, p': Participant, e: Event): State
    requires i < |s.parts|
  {
    s.(parts := Fanout(s.parts[i := p'], i, e))
  }

  lemma EmitShape(s: State, i: nat) returns (p': Participant, e: Event)
    requires Enabled(s, DoEmit(i))
    ensures Emission(s, i, p', e)
    ensures Apply(s, DoEmit(i)) == Emitted(s, i, p', e)
  {
    var p := s.parts[i];
    var next := |p.sent| + 1;
    p' := p.(sent := p.sent + [next], pc := if p.pc.cycle + 1 < s.ticks then Drain(p.pc.cycle + 1) else CatchUp);
    e := Tick(i, Wire.ToBytes4(next));
    Wire.DecodeEncode(next);
  }

  lemma EmitKeeps(s: State, i: nat)
    requires Inv(s) && Enabled(s, DoEmit(i))
    ensures Inv(Apply(s, DoEmit(i)))
  {
    var p', e := EmitShape(s, i);
    EmissionKeeps(s, i, p', e);
  }

  lemma EmissionKeeps(s: State, i: nat, p': Participant, e: Event)
    requires Inv(s) && Emission(s, i, p', e)
    ensures Inv(Emitted(s, i, p', e))
  {
    EmitLocals(s, i, p', e);
    EmitAccounts(s, i, p', e);
    EmitTable(s, i, p', e);
    NotYetEnd(s, i);
    EmitMailboxes(s, i, p', e, Seen(s));
  }

  lemma NotYetEnd(s: State, i: nat)
    requires Locals(s) && Accounts(s) && Table(s) && i < PARTIES && s.parts[i].pc.Emit?
    ensures End !in s.wins && !AllVoted(s.parts, End)
  {
    assert Local(s.parts[i], s.ticks) && !HasVoted(s.parts[i], End);
    if End in s.wins { EndWonMeansAllSent(s, i); }
  }

  lemma EmitLocals(s: State, i: nat, p': Participant, e: Event)
    requires Emission(s, i, p', e) && Locals(s)
    ensures Locals(Emitted(s, i, p', e))
  {
    assert p'.sent == UpTo(s.parts[i].pc.cycle + 1);
    forall j | 0 <= j < PARTIES ensures Local(Emitted(s, i, p', e).parts[j], s.ticks) {
      assert Local(s.parts[j], s.ticks);
    }
  }

  lemma EmitTable(s: State, i: nat, p': Participant, e: Event)
    requires Emission(s, i, p', e) && Table(s)
    ensures Table(Emitted(s, i, p', e)) && Seen(Emitted(s, i, p', e)) == Seen(s)
  {
    TableKept(s, Emitted(s, i, p', e));
  }

  lemma EmitAccount(s: State, i: nat, p': Participant, e: Event, j: nat)
    requires Emission(s, i, p', e) && j < PARTIES && Account(s, j)
    ensures Account(Emitted(s, i, p', e), j)
  {
    var s' := Emitted(s, i, p', e);
    if j != i {
      WiresAppend(s.parts[j].queue, e);
      assert Under(s'.parts[j]) == Under(s.parts[j]) + Decode(e);
      forall q | 0 <= q < PARTIES ensures From(Under(s'.parts[j]), q) == if q == j then [] else s'.parts[q].sent {
        FromAppend(Under(s.parts[j]), Decode(e)[0], q);
      }
    } else {
      assert Under(s'.parts[i]) == Under(s.parts[i]);
    }
  }

  lemma EmitAccounts(s: State, i: nat, p': Participant, e: Event)
    requires Emission(s, i, p', e) && Accounts(s)
    ensures Accounts(Emitted(s, i, p', e))
  {
    forall j | 0 <= j < PARTIES ensures Account(Emitted(s, i, p', e), j) { EmitAccount(s, i, p', e, j); }
  }

  lemma FanoutMailboxes(s: State, i: nat, e: Event, v: View)
    requires Mailboxes(s, v) && i < PARTIES && e.Tick? && |e.wire| == 4 && !v.endWon && !v.endVoted
    requires forall j :: 0 <= j < PARTIES ==> !HasRegistered(s.parts[j], End)
    ensures Mailboxes(s.(parts := Fanout(s.parts, i, e)), v)
  {
    forall j: nat | j < PARTIES ensures Mailbox(Fanout(s.parts, i, e)[j], v) {
      if j != i { PushQuiet(s.parts[j], e, v); }
    }
  }

  lemma EmitMailboxes(s: State, i: nat, p': Participant, e: Event, v: View)
    requires Emission(s, i, p', e) && Mailboxes(s, v) && !v.endWon && !v.endVoted
    requires forall j :: 0 <= j < PARTIES ==> !HasRegistered(s.parts[j], End)
    ensures Mailboxes(Emitted(s, i, p', e), v)
  {
    MovePc(s.parts[i], p', v);
    PutMailboxes(s, i, p', v);
    FanoutMailboxes(Put(s, i, p'), i, e, v);
  }

  /** A queue is judged by the milestones of its owner alone. */
  lemma MovePc(p: Participant, p': Participant, v: View)
    requires Mailbox(p, v) && p'.queue == p.queue
    requires forall l :: HasRegistered(p, l) ==> HasRegistered(p', l)
    requires forall l :: HasSeen(p', l) == HasSeen(p, l) && HasSynced(p', l) == HasSynced(p, l)
    ensures Mailbox(p', v)
  {
    forall e | e in p'.queue ensures Wellformed(e, p') { assert Wellformed(e, p); }
  }

  // Registering a label.

  /** Nobody has gone further with a label than a participant that has yet to register it. */
  lemma BeforeRegister(s: State, i: nat)
    requires Locals(s) && Accounts(s) && Table(s) && i < PARTIES && s.parts[i].pc.Register?
    ensures !AllVoted(s.parts, s.parts[i].pc.name) && !AllVoted(s.parts, End)
    ensures s.parts[i].pc.name in s.points <==> s.parts[i].pc.name in s.wins
    ensures s.parts[i].pc.name == Start ==>
              End !in s.wins && forall j :: 0 <= j < PARTIES ==> Wires(s.parts[j].queue) == []
  {
    var l := s.parts[i].pc.name;
    assert !HasVoted(s.parts[i], l) && !HasVoted(s.parts[i], End);
    assert TableEntry(s, l);
    if l == Start {
      forall j: nat | j < PARTIES ensures Wires(s.parts[j].queue) == [] { NoTickBeforeStart(s, j); }
      NoTickBeforeStart(s, i);
    }
  }

  /** Losing: the participant just goes on to wait for the announcement. */
  function Lost(p: Participant, l: Label, acked: bool): Participant {
    var p1 := p.(pc := AwaitAnnounced(l));
    if acked then Push(p1, Sync(RegistrationFailed(l))) else p1
  }

  lemma LostLocal(p: Participant, l: Label, acked: bool, ticks: nat)
    requires p.pc == Register(l) && Local(p, ticks)
    ensures Local(Lost(p, l, acked), ticks) && Under(Lost(p, l, acked)) == Under(p)
  {
    if acked { WiresAppend(p.queue, Sync(RegistrationFailed(l))); }
  }

  lemma LostMailbox(p: Participant, l: Label, acked: bool, v: View)
    requires p.pc == Register(l) && Mailbox(p, v) && !v.Voted(l) && !v.endVoted
    requires l == Start ==> !v.endWon && Wires(p.queue) == []
    ensures Mailbox(Lost(p, l, acked), v)
  {
    var p1 := p.(pc := AwaitAnnounced(l));
    MovePc(p, p1, v);
    if acked { PushQuiet(p1, Sync(RegistrationFailed(l)), v); }
  }

  lemma LostMilestones(p: Participant, l: Label, acked: bool)
    requires p.pc == Register(l)
    ensures Lost(p, l, acked).sent == p.sent
    ensures forall k :: HasRegistered(p, k) ==> HasRegistered(Lost(p, l, acked), k)
    ensures forall k :: HasRegistered(Lost(p, l, acked), k) ==> HasRegistered(p, k) || k == l
    ensures forall k :: HasVoted(Lost(p, l, acked), k) == HasVoted(p, k)
    ensures forall k :: HasSynced(Lost(p, l, acked), k) == HasSynced(p, k)
  {}

  lemma LostShape(s: State, i: nat, acked: bool)
    requires Enabled(s, DoRegister(i, acked)) && s.parts[i].pc.name in s.points
    ensures Apply(s, DoRegister(i, acked)) == Put(s, i, Lost(s.parts[i], s.parts[i].pc.name, acked))
  {}

  lemma LoseKeeps(s: State, i: nat, acked: bool)
    requires Inv(s) && Enabled(s, DoRegister(i, acked)) && s.parts[i].pc.name in s.points
    ensures Inv(Apply(s, DoRegister(i, acked)))
  {
    LostShape(s, i, acked);
    LostKeeps(s, i, s.parts[i].pc.name, acked);
  }

  lemma LostKeeps(s: State, i: nat, l: Label, acked: bool)
    requires Inv(s) && i < PARTIES && s.parts[i].pc == Register(l) && l in s.points
    ensures Inv(Put(s, i, Lost(s.parts[i], l, acked)))
  {
    BeforeRegister(s, i);
    LostMilestones(s.parts[i], l, acked);
    LostLocal(s.parts[i], l, acked, s.ticks);
    LostMailbox(s.parts[i], l, acked, Seen(s));
    LocalStep(s, i, Lost(s.parts[i], l, acked));
  }

  /** What winning a registration amounts to. */
  function Won(s: State, i: nat, l: Label): State
    requires i < |s.parts|
  {
    var p' := Push(s.parts[i].(pc := AwaitAnnounced(l)), Sync(RegistrationSucceeded(l)));
    State(s.ticks, Broadcast(s.parts[i := p'], Sync(Announced(l))),
          s.points[l := Point(Everyone(), {}, {}, false)], s.wins + [l])
  }

  lemma WinKeeps(s: State, i: nat, acked: bool)
    requires Inv(s) && Enabled(s, DoRegister(i, acked)) && s.parts[i].pc.name !in s.points
    ensures Inv(Apply(s, DoRegister(i, acked)))
  {
    var l := s.parts[i].pc.name;
    assert Apply(s, DoRegister(i, acked)) == Won(s, i, l);
    BeforeRegister(s, i);
    WonLocals(s, i, l);
    WonAccounts(s, i, l);
    WonTable(s, i, l);
    WonMailboxes(s, i, l, Seen(s));
  }

  lemma WonLocals(s: State, i: nat, l: Label)
    requires Locals(s) && i < PARTIES && s.parts[i].pc == Register(l)
    ensures Locals(Won(s, i, l))
  {
    forall j | 0 <= j < PARTIES ensures Local(Won(s, i, l).parts[j], s.ticks) { assert Local(s.parts[j], s.ticks); }
  }

  lemma WonAccounts(s: State, i: nat, l: Label)
    requires Accounts(s) && i < PARTIES
    ensures Accounts(Won(s, i, l))
  {
    var s' := Won(s, i, l);
    forall j | 0 <= j < PARTIES ensures s'.parts[j].sent == s.parts[j].sent && Under(s'.parts[j]) == Under(s.parts[j]) {
      var q := s.parts[j].queue;
      WiresAppend(q, Sync(RegistrationSucceeded(l)));
      WiresAppend(q, Sync(Announced(l)));
      WiresAppend(q + [Sync(RegistrationSucceeded(l))], Sync(Announced(l)));
    }
    AccountsKept(s, s');
  }

  lemma WonTable(s: State, i: nat, l: Label)
    requires i < |s.parts| == PARTIES && Table(s) && s.parts[i].pc == Register(l) && l !in s.wins
    ensures Table(Won(s, i, l))
    ensures Seen(Won(s, i, l)) == if l == Start then Seen(s).(startWon := true) else Seen(s).(endWon := true)
  {
    var s' := Won(s, i, l);
    forall k ensures AllVoted(s'.parts, k) == AllVoted(s.parts, k) && VotedSet(s'.parts, k) == VotedSet(s.parts, k) {
      VotesAgree(s.parts, s'.parts, k);
    }
    forall j, k | 0 <= j < PARTIES && HasRegistered(s'.parts[j], k) ensures k in s'.wins {
      assert HasRegistered(s.parts[j], k) || k == l;
    }
    forall k | k in s'.wins ensures exists j :: 0 <= j < PARTIES && HasRegistered(s'.parts[j], k) {
      if k == l {
        assert HasRegistered(s'.parts[i], k);
      } else {
        var j :| 0 <= j < PARTIES && HasRegistered(s.parts[j], k);
        assert HasRegistered(s'.parts[j], k);
      }
    }
    forall k ensures TableEntry(s', k) {
      assert TableEntry(s, k);
      if k == l { assert VotedSet(s.parts, l) == {}; }
    }
  }

  lemma WonMailboxes(s: State, i: nat, l: Label, v: View)
    requires Mailboxes(s, v) && i < PARTIES && s.parts[i].pc == Register(l)
    requires !v.Won(l) && !v.Voted(l) && !v.endVoted
    requires forall j :: 0 <= j < PARTIES ==> !HasRegistered(s.parts[j], l)
    requires l == Start ==> !v.endWon && forall j :: 0 <= j < PARTIES ==> Wires(s.parts[j].queue) == []
    ensures Mailboxes(Won(s, i, l), if l == Start then v.(startWon := true) else v.(endWon := true))
  {
    var v' := if l == Start then v.(startWon := true) else v.(endWon := true);
    var p1 := s.parts[i].(pc := AwaitAnnounced(l));
    var ack := Sync(RegistrationSucceeded(l));
    MovePc(s.parts[i], p1, v);
    PushQuiet(p1, ack, v);
    WiresAppend(p1.queue, ack);
    forall j | 0 <= j < PARTIES ensures Mailbox(Won(s, i, l).parts[j], v') {
      PushAnnounced(if j == i then Push(p1, ack) else s.parts[j], l, v, v');
    }
  }

  // Voting.

  function Voter(p: Participant, l: Label): Participant {
    p.(pc := AwaitSynchronized(l), achieved := p.achieved + [l])
  }

  /** What a vote amounts to, when it is the last one and when it is not. */
  function Voted(s: State, i: nat, l: Label, last: bool): State
    requires i < |s.parts|
  {
    var parts := s.parts[i := Voter(s.parts[i], l)];
    var point := Point(Everyone(), VotedSet(s.parts, l) + {i}, {}, last);
    s.(parts := if last then Broadcast(parts, Sync(Synchronized(l, {}))) else parts, points := s.points[l := point])
  }

  lemma LastVote(parts: seq<Participant>, i: nat, l: Label)
    requires i < |parts| == PARTIES && parts[i].pc == Vote(l)
    ensures Everyone() <= VotedSet(parts, l) + {i} <==> AllVoted(parts[i := Voter(parts[i], l)], l)
  {
    var parts' := parts[i := Voter(parts[i], l)];
    OneMoreVote(parts, i, l);
    var votes := VotedSet(parts', l);
    if AllVoted(parts', l) {
      assert 0 in votes && 1 in votes && 2 in votes;
    }
    if Everyone() <= votes {
      assert 0 in votes && 1 in votes && 2 in votes;
      forall j | 0 <= j < PARTIES ensures HasVoted(parts'[j], l) { assert j == 0 || j == 1 || j == 2; }
    }
  }

  /** The server's idea of the last vote is the participants' idea of it. */
  lemma VoteShape(s: State, i: nat, l: Label) returns (last: bool)
    requires i < |s.parts| == PARTIES && s.parts[i].pc == Vote(l) && l in s.wins && TableEntry(s, l)
    ensures !AllVoted(s.parts, l)
    ensures last == AllVoted(s.parts[i := Voter(s.parts[i], l)], l)
    ensures Enabled(s, DoVote(i)) && Apply(s, DoVote(i)) == Voted(s, i, l, last)
  {
    assert !HasVoted(s.parts[i], l);
    last := AllVoted(s.parts[i := Voter(s.parts[i], l)], l);
    LastVote(s.parts, i, l);
  }

  lemma VoteKeeps(s: State, i: nat)
    requires Inv(s) && Enabled(s, DoVote(i))
    ensures Inv(Apply(s, DoVote(i)))
  {
    var l := s.parts[i].pc.name;
    assert HasRegistered(s.parts[i], l);
    var last := VoteShape(s, i, l);
    VotedLocals(s, i, l, last);
    VotedAccounts(s, i, l, last);
    VotedTable(s, i, l, last);
    if l == Start {
      forall j: nat | j < PARTIES ensures Wires(s.parts[j].queue) == [] { NoTickBeforeStart(s, j); }
      NoTickBeforeStart(s, i);
    }
    assert forall j :: 0 <= j < PARTIES ==> !HasSynced(s.parts[j], l);
    VotedMailboxes(s, i, l, last, Seen(s));
  }

  lemma VotedLocals(s: State, i: nat, l: Label, last: bool)
    requires Locals(s) && i < PARTIES && s.parts[i].pc == Vote(l)
    ensures Locals(Voted(s, i, l, last))
  {
    forall j | 0 <= j < PARTIES ensures Local(Voted(s, i, l, last).parts[j], s.ticks) {
      assert Local(s.parts[j], s.ticks);
    }
  }

  lemma VotedAccounts(s: State, i: nat, l: Label, last: bool)
    requires Accounts(s) && i < PARTIES
    ensures Accounts(Voted(s, i, l, last))
  {
    var s' := Voted(s, i, l, last);
    forall j | 0 <= j < PARTIES ensures s'.parts[j].sent == s.parts[j].sent && Under(s'.parts[j]) == Under(s.parts[j]) {
      WiresAppend(s.parts[j].queue, Sync(Synchronized(l, {})));
    }
    AccountsKept(s, s');
  }

  lemma VotedTable(s: State, i: nat, l: Label, last: bool)
    requires i < |s.parts| == PARTIES && Table(s) && s.parts[i].pc == Vote(l) && !AllVoted(s.parts, l)
    requires last == AllVoted(s.parts[i := Voter(s.parts[i], l)], l)
    ensures Table(Voted(s, i, l, last))
    ensures Seen(Voted(s, i, l, last)) ==
            if !last then Seen(s) else if l == Start then Seen(s).(startVoted := true) else Seen(s).(endVoted := true)
  {
    var s' := Voted(s, i, l, last);
    VotedVotes(s, i, l, last);
    forall k | k in s'.wins ensures exists j :: 0 <= j < PARTIES && HasRegistered(s'.parts[j], k) {
      var j :| 0 <= j < PARTIES && HasRegistered(s.parts[j], k);
      assert HasRegistered(s'.parts[j], k);
    }
    forall j, k | 0 <= j < PARTIES && HasSynced(s'.parts[j], k) ensures AllVoted(s'.parts, k) {
      assert HasSynced(s.parts[j], k);
    }
    forall k ensures TableEntry(s', k) { assert TableEntry(s, k); }
  }

  lemma VotedVotes(s: State, i: nat, l: Label, last: bool)
    requires i < |s.parts| == PARTIES && s.parts[i].pc == Vote(l)
    requires last == AllVoted(s.parts[i := Voter(s.parts[i], l)], l)
    ensures AllVoted(Voted(s, i, l, last).parts, l) == last
    ensures VotedSet(Voted(s, i, l, last).parts, l) == VotedSet(s.parts, l) + {i}
    ensures forall k :: k != l ==> AllVoted(Voted(s, i, l, last).parts, k) == AllVoted(s.parts, k)
    ensures forall k :: k != l ==> VotedSet(Voted(s, i, l, last).parts, k) == VotedSet(s.parts, k)
  {
    var parts, parts' := s.parts[i := Voter(s.parts[i], l)], Voted(s, i, l, last).parts;
    assert SameVotes(parts, parts');
    VotesAgree(parts, parts', Start);
    VotesAgree(parts, parts', End);
    OneMoreVote(s.parts, i, l);
  }

  lemma OneMoreVote(parts: seq<Participant>, i: nat, l: Label)
    requires i < |parts| && parts[i].pc == Vote(l)
    ensures VotedSet(parts[i := Voter(parts[i], l)], l) == VotedSet(parts, l) + {i}
    ensures forall k :: k != l ==> VotedSet(parts[i := Voter(parts[i], l)], k) == VotedSet(parts, k)
    ensures forall k :: k != l ==> AllVoted(parts[i := Voter(parts[i], l)], k) == AllVoted(parts, k)
  {
    var parts' := parts[i := Voter(parts[i], l)];
    forall j, k | 0 <= j < |parts| && k != l ensures HasVoted(parts'[j], k) == HasVoted(parts[j], k) {
      assert k == Start || k == End;
    }
    forall k | k != l ensures AllVoted(parts', k) == AllVoted(parts, k) {
      if AllVoted(parts, k) { forall j | 0 <= j < |parts| ensures HasVoted(parts'[j], k) {} }
      if AllVoted(parts', k) { forall j | 0 <= j < |parts| ensures HasVoted(parts[j], k) {} }
    }
  }

  lemma VotedMailboxes(s: State, i: nat, l: Label, last: bool, v: View)
    requires Mailboxes(s, v) && i < PARTIES && s.parts[i].pc == Vote(l) && !v.Voted(l)
    requires forall j :: 0 <= j < PARTIES ==> !HasSynced(s.parts[j], l)
    requires l == Start ==> !v.endVoted && !v.endWon
    requires l == Start ==> forall j :: 0 <= j < PARTIES ==> !HasRegistered(s.parts[j], End) && Wires(s.parts[j].queue) == []
    ensures Mailboxes(Voted(s, i, l, last),
                      if !last then v else if l == Start then v.(startVoted := true) else v.(endVoted := true))
  {
    MovePc(s.parts[i], Voter(s.parts[i], l), v);
    if last {
      var v' := if l == Start then v.(startVoted := true) else v.(endVoted := true);
      forall j | 0 <= j < PARTIES ensures Mailbox(Voted(s, i, l, last).parts[j], v') {
        PushSynchronized(if j == i then Voter(s.parts[i], l) else s.parts[j], l, v, v');
      }
    }
  }

  // The whole step relation, and whole runs.

  lemma StepKeeps(s: State, a: Action)
    requires Inv(s) && Enabled(s, a)
    ensures Inv(Apply(s, a))
  {
    match a
    case DoRegister(i, acked) =>
      if s.parts[i].pc.name in s.points { LoseKeeps(s, i, acked); } else { WinKeeps(s, i, acked); }
    case DoPop(i) => PopKeeps(s, i);
    case DoStopDraining(i) => StopDrainingKeeps(s, i);
    case DoEmit(i) => EmitKeeps(s, i);
    case DoFinishCatchUp(i) => FinishCatchUpKeeps(s, i);
    case DoVote(i) => VoteKeeps(s, i);
    case DoRetire(l) => RetireKeeps(s, l);
  }

  lemma InitialHolds(ticks: nat)
    ensures Inv(Initial(ticks))
  {
    var s := Initial(ticks);
    InitialAccounts(s);
    InitialTable(s);
    InitialMailboxes(s);
  }

  lemma InitialAccounts(s: State)
    requires s == Initial(s.ticks)
    ensures Accounts(s) && Locals(s)
  {
    assert Under(NEWCOMER) == [];
    forall i | 0 <= i < PARTIES ensures s.parts[i] == NEWCOMER && Account(s, i) && Local(s.parts[i], s.ticks) {}
  }

  lemma InitialTable(s: State)
    requires s == Initial(s.ticks)
    ensures Table(s)
  {
    assert forall i :: 0 <= i < PARTIES ==> s.parts[i] == NEWCOMER;
    forall l ensures TableEntry(s, l) && multiset(s.wins)[l] == 0 {}
  }

  lemma InitialMailboxes(s: State)
    requires s == Initial(s.ticks)
    ensures Mailboxes(s, Seen(s))
  {
    assert !HasVoted(NEWCOMER, Start) && !HasVoted(NEWCOMER, End) && s.parts[0] == NEWCOMER;
    forall i | 0 <= i < PARTIES ensures Mailbox(s.parts[i], Seen(s)) { assert s.parts[i] == NEWCOMER; }
  }

  lemma {:induction false} RunKeeps(s: State, run: seq<Action>)
    requires Inv(s) && Legal(s, run)
    ensures Inv(Execute(s, run))
    decreases |run|
  {
    if run != [] {
      StepKeeps(s, run[0]);
      RunKeeps(Apply(s, run[0]), run[1..]);
    }
  }
}
