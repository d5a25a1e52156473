/**
 The startup barrier of the timed example for any number of federates: each waits until all
 have joined, the one with the least handle registers a synchronization point for exactly
 those handles, everybody acknowledges it from its callback, and nobody continues before
 the federation is synchronized. There is no coordinator besides the server.
 */
module Startup {
  import opened SyncPoints

  const STARTUP := "go-timed-ready"

  datatype Event =
    | Sync(event: SyncEvent<string>)
    | Halted
    | Other

  // --- One federate's code ------------------------------------------------------------------

  /** The least of the listed handles, by the loop of `waitForStartup`. */
  method ElectLeader(handles: seq<Handle>) returns (leader: Handle)
    requires handles != []
    ensures leader in handles && forall h :: h in handles ==> leader <= h
  {
    leader := handles[0];
    for i := 1 to |handles|
      invariant leader in handles[..i] && forall h :: h in handles[..i] ==> leader <= h
    {
      assert handles[..i + 1] == handles[..i] + [handles[i]];
      if handles[i] < leader { leader := handles[i]; }
    }
    assert handles[..|handles|] == handles;
  }

  ghost predicate IsLeader(h: Handle, members: set<Handle>) {
    h in members && forall m :: m in members ==> h <= m
  }

  datatype Reaction = Continue | Acknowledge | Complete | Fail

  /** `handleStartupEvent`: what one event does to the waiting federate. */
  function React(e: Event): Reaction {
    match e
    case Sync(Announced(l)) => if l == STARTUP then Acknowledge else Continue
    case Sync(Synchronized(l, failed)) =>
      if l != STARTUP then Continue else if failed != {} then Fail else Complete
    case Sync(RegistrationFailed(l)) => if l == STARTUP then Fail else Continue
    case Sync(RegistrationSucceeded(_)) => Continue
    case Halted => Fail
    case Other => Continue
  }

  datatype Membership = Assembled(handles: seq<Handle>) | TooMany | Unanswered

  /** `waitForMembers` on the lists that the server gives until an error or the deadline: the first
      that is not too short decides. */
  method WaitForMembers(polls: seq<seq<Handle>>, participants: nat) returns (m: Membership, polled: nat)
    ensures polled <= |polls| && forall k :: 0 <= k < polled ==> |polls[k]| < participants
    ensures m.Unanswered? <==> polled == |polls|
    ensures m.TooMany? <==> polled < |polls| && |polls[polled]| > participants
    ensures m.Assembled? ==> polled < |polls| && m.handles == polls[polled] && |m.handles| == participants
  {
    polled := 0;
    while polled < |polls|
      invariant polled <= |polls| && forall k :: 0 <= k < polled ==> |polls[k]| < participants
    {
      if |polls[polled]| > participants { return TooMany, polled; }
      if |polls[polled]| == participants { return Assembled(polls[polled]), polled; }
      polled := polled + 1;
    }
    m := Unanswered;
  }

  datatype Outcome = Refused | Dispersed | Unsent | Completed | Failure | Closed

  /** The announcement of the startup. */
  const ANNOUNCED := Sync(Announced(STARTUP))

  /** Everybody has acknowledged. */
  const SYNCHRONIZED := Sync(Synchronized(STARTUP, {}))

  /** The startup cannot succeed any more: somebody failed, it was never registered, or all is over. */
  predicate Fatal(e: Event) {
    || e == Halted
    || e == Sync(RegistrationFailed(STARTUP))
    || (e.Sync? && e.event.Synchronized? && e.event.name == STARTUP && e.event.failed != {})
  }

  /** How many announcements of the startup there are. */
  function Announcements(events: seq<Event>): nat {
    if events == [] then 0
    else Announcements(events[..|events| - 1]) + if events[|events| - 1] == ANNOUNCED then 1 else 0
  }

  /** The event loop of `waitForStartup` on a stream that ends after `events`: it returns at the first
      event that completes or fails the startup, and acknowledges every announcement before. */
  method AwaitSynchronization(events: seq<Event>) returns (outcome: Outcome, taken: nat, acknowledged: nat)
    ensures outcome == Completed || outcome == Failure || outcome == Closed
    ensures taken <= |events| && acknowledged == Announcements(events[..taken])
    ensures forall k :: 0 <= k < taken - 1 ==> events[k] != SYNCHRONIZED && !Fatal(events[k])
    ensures outcome == Completed <==> taken >= 1 && events[taken - 1] == SYNCHRONIZED
    ensures outcome == Failure <==> taken >= 1 && Fatal(events[taken - 1])
    ensures outcome == Closed ==> taken == |events|
  {
    taken, acknowledged := 0, 0;
    assert events[..0] == [];
    while taken < |events|
      invariant taken <= |events| && acknowledged == Announcements(events[..taken])
      invariant forall k :: 0 <= k < taken ==> events[k] != SYNCHRONIZED && !Fatal(events[k])
    {
      var reaction := React(events[taken]);
      assert events[..taken + 1][..taken] == events[..taken];
      taken := taken + 1;
      if reaction == Fail { return Failure, taken, acknowledged; }
      if reaction == Complete { return Completed, taken, acknowledged; }
      if reaction == Acknowledge { acknowledged := acknowledged + 1; }
    }
    outcome := Closed;
  }

  /** `waitForStartup`: wait for the members, register if nobody listed has a lesser handle, then
      wait for the federation to synchronize. `sent` says whether the registration call goes through. */
  method WaitForStartup(self: Handle, participants: int, polls: seq<seq<Handle>>, sent: bool, events: seq<Event>)
      returns (outcome: Outcome, registered: bool, polled: nat, taken: nat, acknowledged: nat)
    ensures outcome == Refused <==> participants < 1
    ensures participants <= 1 ==> !registered && polled == taken == acknowledged == 0
    ensures participants == 1 ==> outcome == Completed
    ensures polled <= |polls| && forall k :: 0 <= k < polled ==> |polls[k]| < participants
    ensures outcome == Dispersed <==> participants > 1 && (polled == |polls| || |polls[polled]| > participants)
    ensures participants > 1 && outcome != Dispersed ==> polled < |polls| && |polls[polled]| == participants
    ensures registered <==> participants > 1 && outcome != Dispersed && IsLeader(self, set h | h in polls[polled])
    ensures outcome == Unsent <==> registered && !sent
    ensures outcome == Dispersed || outcome == Unsent ==> taken == 0
    ensures taken <= |events| && acknowledged == Announcements(events[..taken])
    ensures forall k :: 0 <= k < taken - 1 ==> events[k] != SYNCHRONIZED && !Fatal(events[k])
    ensures participants > 1 ==> (outcome == Completed <==> taken >= 1 && events[taken - 1] == SYNCHRONIZED)
    ensures participants > 1 ==> (outcome == Failure <==> taken >= 1 && Fatal(events[taken - 1]))
    ensures outcome == Closed ==> taken == |events|
  {
    assert events[..0] == [];
    registered, polled, taken, acknowledged := false, 0, 0, 0;
    if participants < 1 { return Refused, false, 0, 0, 0; }
    if participants == 1 { return Completed, false, 0, 0, 0; }
    var m;
    m, polled := WaitForMembers(polls, participants);
    if !m.Assembled? { return Dispersed, false, polled, 0, 0; }
    var leader := ElectLeader(m.handles);
    registered := self == leader;
    if registered && !sent { return Unsent, true, polled, 0, 0; }
    outcome, taken, acknowledged := AwaitSynchronization(events);
  }

  datatype Pc = Absent | Polling | Registering | Waiting | Returned | Failed

  datatype Federate = Federate(handle: Handle, pc: Pc, queue: seq<Event>)

  // --- The federation -----------------------------------------------------------------------

  /** `registrations` and `voters` are histories: who called register, and whose vote counted. */
  datatype State = State(
    feds: seq<Federate>,
    members: set<Handle>,
    points: map<string, Point>,
    registrations: seq<nat>,
    voters: set<Handle>,
    halted: bool)

  datatype Action =
    | Join(who: nat)
    | Poll(who: nat)
    | DoRegister(who: nat)
    | Receive(who: nat)
    | Retire
    | Noise(who: nat)
    | Halt

  function Initial(handles: seq<Handle>): State {
    State(seq(|handles|, i requires 0 <= i < |handles| => Federate(handles[i], Absent, [])), {}, map[], [], {}, false)
  }

  predicate Enabled(s: State, a: Action) {
    match a
    case Join(i) => i < |s.feds| && s.feds[i].pc == Absent
    case Poll(i) => i < |s.feds| && s.feds[i].pc == Polling
    case DoRegister(i) => i < |s.feds| && s.feds[i].pc == Registering
    case Receive(i) => i < |s.feds| && s.feds[i].pc == Waiting && s.feds[i].queue != []
    case Retire => STARTUP in s.points && s.points[STARTUP].complete
    case Noise(i) => i < |s.feds| && s.feds[i].pc != Absent
    case Halt => !s.halted
  }

  function Push(f: Federate, e: Event): Federate { f.(queue := f.queue + [e]) }

  /** One event to every federate in the set. */
  function Broadcast(feds: seq<Federate>, recipients: set<Handle>, e: Event): (r: seq<Federate>)
    ensures |r| == |feds|
    ensures forall i :: 0 <= i < |feds| ==> r[i] == if feds[i].handle in recipients then Push(feds[i], e) else feds[i]
  {
    seq(|feds|, i requires 0 <= i < |feds| => if feds[i].handle in recipients then Push(feds[i], e) else feds[i])
  }

  ghost function Apply(s: State, a: Action): State
    requires Enabled(s, a)
  {
    match a
    case Join(i) =>
      s.(feds := s.feds[i := s.feds[i].(pc := Polling)], members := s.members + {s.feds[i].handle})
    case Poll(i) => s.(feds := s.feds[i := s.feds[i].(pc := AfterPoll(s, i))])
    case DoRegister(i) => AfterRegister(s, i)
    case Receive(i) => AfterReceive(s, i)
    case Retire => s.(points := SyncPoints.Retire(s.points, STARTUP))
    case Noise(i) => s.(feds := s.feds[i := Push(s.feds[i], Other)])
    case Halt => s.(feds := Broadcast(s.feds, s.members, Halted), halted := true)
  }

  /** `waitForMembers`: too many members is an error, too few means another poll. */
  ghost function AfterPoll(s: State, i: nat): Pc
    requires i < |s.feds|
  {
    if |s.members| > |s.feds| then Failed
    else if |s.members| < |s.feds| then Polling
    else if IsLeader(s.feds[i].handle, s.members) then Registering
    else Waiting
  }

  /** A refused registration comes back as a failure event. */
  function AfterRegister(s: State, i: nat): State
    requires i < |s.feds|
  {
    var feds := s.feds[i := s.feds[i].(pc := Waiting)];
    var r := SyncPoints.Register(s.points, STARTUP, s.members, s.members);
    var t := s.(registrations := s.registrations + [i]);
    if r.Registered? then
      var acked := feds[i := Push(feds[i], Sync(RegistrationSucceeded(STARTUP)))];
      t.(feds := Broadcast(acked, r.points[STARTUP].required, Sync(Announced(STARTUP))), points := r.points)
    else
      t.(feds := feds[i := Push(feds[i], Sync(RegistrationFailed(STARTUP)))])
  }

  /** One turn of the event loop. */
  function AfterReceive(s: State, i: nat): State
    requires i < |s.feds| && s.feds[i].queue != []
  {
    var f := s.feds[i].(queue := s.feds[i].queue[1..]);
    match React(s.feds[i].queue[0])
    case Continue => s.(feds := s.feds[i := f])
    case Complete => s.(feds := s.feds[i := f.(pc := Returned)])
    case Fail => s.(feds := s.feds[i := f.(pc := Failed)])
    case Acknowledge =>
      var v := Achieve(s.points, STARTUP, f.handle, true);
      if !v.Counted? then s.(feds := s.feds[i := f.(pc := Failed)])
      else
        var feds := s.feds[i := f];
        var p := v.points[STARTUP];
        s.(feds := if v.completed then Broadcast(feds, p.required, Sync(Synchronized(STARTUP, p.failed))) else feds,
           points := v.points, voters := s.voters + {f.handle})
  }

  ghost predicate Legal(s: State, run: seq<Action>)
    decreases |run|
  {
    run == [] || (Enabled(s, run[0]) && Legal(Apply(s, run[0]), run[1..]))
  }

  ghost function Execute(s: State, run: seq<Action>): State
    requires Legal(s, run)
    decreases |run|
  {
    if run == [] then s else Execute(Apply(s, run[0]), run[1..])
  }
}
