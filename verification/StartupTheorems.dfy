/**
 Agreement, single registration, the barrier and progress of the startup protocol, for every
 number of federates, every assignment of distinct handles and every interleaving.
 */
module StartupTheorems {
  import opened SyncPoints
  import opened Startup

  // --- One turn of the event loop -----------------------------------------------------------

  /** A turn in the federation does what `AwaitSynchronization` does with the event, in every state: it
      returns at the completing event, fails at a fatal one or a refused acknowledgement, and
      otherwise goes on waiting. Only an announcement is acknowledged. */
  lemma TurnIs(s: State, i: nat)
    requires Enabled(s, Receive(i))
    ensures var e, f, f' := s.feds[i].queue[0], s.feds[i], Apply(s, Receive(i)).feds[i];
            var refused := e == ANNOUNCED && !Achieve(s.points, STARTUP, f.handle, true).Counted?;
            && |Apply(s, Receive(i)).feds| == |s.feds|
            && (f'.pc == Returned <==> e == SYNCHRONIZED)
            && (f'.pc == Failed <==> Fatal(e) || refused)
            && (f'.pc == Waiting <==> e != SYNCHRONIZED && !Fatal(e) && !refused)
            && (Apply(s, Receive(i)).points != s.points ==> e == ANNOUNCED && !refused)
  {}

  /** A poll in the federation does what `WaitForMembers` and the election do with the list of members,
      in every state: it fails on too many, goes on with too few, and otherwise leads to a
      registration exactly for the least handle. */
  lemma PollIs(s: State, i: nat)
    requires Enabled(s, Poll(i))
    ensures var pc := Apply(s, Poll(i)).feds[i].pc;
            && (pc == Failed <==> |s.members| > |s.feds|)
            && (pc == Polling <==> |s.members| < |s.feds|)
            && (pc == Registering <==> |s.members| == |s.feds| && IsLeader(s.feds[i].handle, s.members))
            && (pc == Waiting <==> |s.members| == |s.feds| && !IsLeader(s.feds[i].handle, s.members))
  {}

  /** A halt is told to every member, behind what it has still to read. */
  lemma HaltIsTold(s: State, i: nat)
    requires Enabled(s, Halt) && i < |s.feds| && s.feds[i].handle in s.members
    ensures Apply(s, Halt).halted && Apply(s, Halt).feds[i] == s.feds[i].(queue := s.feds[i].queue + [Halted])
  {}

  // --- Counting events ----------------------------------------------------------------------

  ghost function Count(q: seq<Event>, e: Event): nat {
    if q == [] then 0 else (if q[0] == e then 1 else 0) + Count(q[1..], e)
  }

  lemma {:induction false} CountPush(q: seq<Event>, x: Event, e: Event)
    ensures Count(q + [x], e) == Count(q, e) + if x == e then 1 else 0
    decreases |q|
  {
    if q == [] {
      assert [] + [x] == [x] && [x][1..] == [];
    } else {
      assert (q + [x])[1..] == q[1..] + [x];
      CountPush(q[1..], x, e);
    }
  }

  lemma {:induction false} Counted(q: seq<Event>, e: Event)
    requires Count(q, e) > 0
    ensures e in q
  {
    if q[0] != e { Counted(q[1..], e); }
  }

  // --- The invariant ------------------------------------------------------------------------

  ghost predicate Crew(feds: seq<Federate>, all: set<Handle>) {
    && |all| == |feds| > 1
    && (forall i :: 0 <= i < |feds| ==> feds[i].handle in all)
    && (forall h :: h in all ==> exists i :: 0 <= i < |feds| && feds[i].handle == h)
    && (forall i, j :: 0 <= i < |feds| && 0 <= j < |feds| && feds[i].handle == feds[j].handle ==> i == j)
  }

  ghost predicate Passed(pc: Pc) { pc != Absent && pc != Polling }

  ghost predicate Harmless(e: Event, halted: bool) {
    || e == ANNOUNCED || e == SYNCHRONIZED || e == Sync(RegistrationSucceeded(STARTUP)) || e == Other
    || (e == Halted && halted)
  }

  /** What one federate's program counter and queue say, given the history of the federation. */
  ghost predicate Account(f: Federate, members: set<Handle>, all: set<Handle>, registered: bool, voters: set<Handle>, halted: bool) {
    && (f.handle in members <==> f.pc != Absent)
    && (Passed(f.pc) ==> members == all)
    && (f.pc == Registering ==> IsLeader(f.handle, all))
    && (IsLeader(f.handle, all) ==> (registered <==> Passed(f.pc) && f.pc != Registering))
    && (f.handle in voters ==> Passed(f.pc) && f.pc != Registering)
    && (f.pc == Returned ==> registered && voters == all)
    && (f.pc == Failed ==> halted)
    && Count(f.queue, ANNOUNCED) == (if registered && f.handle !in voters then 1 else 0)
    && Count(f.queue, SYNCHRONIZED) == (if voters == all && f.pc != Returned then 1 else 0)
    && (forall k :: 0 <= k < |f.queue| ==> Harmless(f.queue[k], halted))
  }

  ghost predicate Table(points: map<string, Point>, all: set<Handle>, registered: bool, voters: set<Handle>) {
    && voters <= all && (voters != {} ==> registered)
    && (STARTUP in points ==> registered && points[STARTUP] == Point(all, voters, {}, voters == all))
    && (STARTUP !in points && registered ==> voters == all)
  }

  ghost predicate Registrations(s: State, all: set<Handle>) {
    s.registrations == [] ||
    (|s.registrations| == 1 && s.registrations[0] < |s.feds| && IsLeader(s.feds[s.registrations[0]].handle, all))
  }

  ghost predicate Inv(s: State, all: set<Handle>) {
    && Crew(s.feds, all) && s.members <= all
    && Registrations(s, all)
    && (s.registrations != [] ==> s.members == all)
    && Table(s.points, all, s.registrations != [], s.voters)
    && (forall i :: 0 <= i < |s.feds| ==>
          Account(s.feds[i], s.members, all, s.registrations != [], s.voters, s.halted))
  }

  lemma NonEmpty(feds: seq<Federate>, all: set<Handle>)
    requires Crew(feds, all)
    ensures all != {}
  {
    assert feds[0].handle in all;
  }

  ghost function Handles(handles: seq<Handle>): set<Handle> { set i | 0 <= i < |handles| :: handles[i] }

  ghost predicate Distinct(handles: seq<Handle>) {
    forall i, j :: 0 <= i < j < |handles| ==> handles[i] != handles[j]
  }

  lemma {:induction false} DistinctSize(handles: seq<Handle>)
    requires Distinct(handles)
    ensures |Handles(handles)| == |handles|
  {
    if handles != [] {
      var n := |handles| - 1;
      DistinctSize(handles[..n]);
      assert Handles(handles) == Handles(handles[..n]) + {handles[n]};
    }
  }

  lemma InitialHolds(handles: seq<Handle>)
    requires |handles| > 1 && Distinct(handles)
    ensures Inv(Initial(handles), Handles(handles))
  {
    DistinctSize(handles);
    var s, all := Initial(handles), Handles(handles);
    forall h | h in all ensures exists i :: 0 <= i < |s.feds| && s.feds[i].handle == h {
      var i :| 0 <= i < |handles| && handles[i] == h;
      assert s.feds[i].handle == h;
    }
    NonEmpty(s.feds, all);
  }

  // --- Steps --------------------------------------------------------------------------------

  lemma CrewUpdate(feds: seq<Federate>, all: set<Handle>, i: nat, f: Federate)
    requires Crew(feds, all) && i < |feds| && f.handle == feds[i].handle
    ensures Crew(feds[i := f], all)
  {
    var g := feds[i := f];
    forall h | h in all ensures exists j :: 0 <= j < |g| && g[j].handle == h {
      var j :| 0 <= j < |feds| && feds[j].handle == h;
      assert g[j].handle == h;
    }
  }

  lemma CrewBroadcast(feds: seq<Federate>, all: set<Handle>, recipients: set<Handle>, e: Event)
    requires Crew(feds, all)
    ensures Crew(Broadcast(feds, recipients, e), all)
  {
    var g := Broadcast(feds, recipients, e);
    assert forall j :: 0 <= j < |g| ==> g[j].handle == feds[j].handle;
    forall h | h in all ensures exists j :: 0 <= j < |g| && g[j].handle == h {
      var j :| 0 <= j < |feds| && feds[j].handle == h;
      assert g[j].handle == h;
    }
  }

  /** An event that neither announces nor synchronizes changes no account. */
  lemma PushQuiet(f: Federate, e: Event, members: set<Handle>, all: set<Handle>, registered: bool, voters: set<Handle>, halted: bool, halted': bool)
    requires Account(f, members, all, registered, voters, halted) && (halted ==> halted')
    requires e != ANNOUNCED && e != SYNCHRONIZED && Harmless(e, halted')
    ensures Account(Push(f, e), members, all, registered, voters, halted')
  {
    CountPush(f.queue, e, ANNOUNCED);
    CountPush(f.queue, e, SYNCHRONIZED);
  }

  lemma StepJoin(s: State, all: set<Handle>, i: nat)
    requires Inv(s, all) && Enabled(s, Join(i))
    ensures Inv(Apply(s, Join(i)), all)
  {
    var s' := Apply(s, Join(i));
    CrewUpdate(s.feds, all, i, s.feds[i].(pc := Polling));
    forall j | 0 <= j < |s.feds| ensures Account(s'.feds[j], s'.members, all, s'.registrations != [], s'.voters, s'.halted) {
      assert Account(s.feds[j], s.members, all, s.registrations != [], s.voters, s.halted);
      assert Account(s.feds[i], s.members, all, s.registrations != [], s.voters, s.halted);
    }
  }

  lemma FullMembership(members: set<Handle>, all: set<Handle>)
    requires members <= all && |members| == |all|
    ensures members == all
  {
    assert all == members + (all - members);
    assert |all| == |members| + |all - members|;
  }

  lemma Smaller(members: set<Handle>, all: set<Handle>)
    requires members <= all
    ensures |members| <= |all|
  {
    assert all == members + (all - members);
  }

  lemma PollAccount(s: State, all: set<Handle>, i: nat)
    requires i < |s.feds| && s.feds[i].pc == Polling && |all| == |s.feds| && s.members <= all
    requires Account(s.feds[i], s.members, all, s.registrations != [], s.voters, s.halted)
    ensures Account(s.feds[i].(pc := AfterPoll(s, i)), s.members, all, s.registrations != [], s.voters, s.halted)
  {
    Smaller(s.members, all);
    if |s.members| == |all| { FullMembership(s.members, all); }
  }

  lemma StepPoll(s: State, all: set<Handle>, i: nat)
    requires Inv(s, all) && Enabled(s, Poll(i))
    ensures Inv(Apply(s, Poll(i)), all)
  {
    var s' := Apply(s, Poll(i));
    PollAccount(s, all, i);
    CrewUpdate(s.feds, all, i, s.feds[i].(pc := AfterPoll(s, i)));
    assert Registrations(s', all);
  }

  /** The announcement reaches everybody. */
  lemma PushAnnounced(f: Federate, all: set<Handle>, voters: set<Handle>, halted: bool)
    requires f.handle in all && all != {} && voters == {} && f.pc != Registering
    requires Account(f, all, all, false, voters, halted) || (IsLeader(f.handle, all) && Account(f.(pc := Registering), all, all, false, voters, halted) && f.pc == Waiting)
    requires IsLeader(f.handle, all) ==> f.pc == Waiting
    ensures Account(Push(f, ANNOUNCED), all, all, true, voters, halted)
  {
    CountPush(f.queue, ANNOUNCED, ANNOUNCED);
    CountPush(f.queue, ANNOUNCED, SYNCHRONIZED);
  }

  /** The leader's registration: acknowledged, and announced to everybody. */
  lemma Registered(s: State, all: set<Handle>, i: nat)
    requires Inv(s, all) && Enabled(s, DoRegister(i))
    ensures var s', f := Apply(s, DoRegister(i)), s.feds[i];
            var acked := s.feds[i := Push(f.(pc := Waiting), Sync(RegistrationSucceeded(STARTUP)))];
            && s.registrations == [] && s.voters == {} && s.members == all && STARTUP !in s.points && all != {}
            && s' == s.(feds := Broadcast(acked, all, ANNOUNCED), points := s'.points, registrations := [i])
            && STARTUP in s'.points && s'.points[STARTUP] == Point(all, {}, {}, false)
  {
    NonEmpty(s.feds, all);
    var s', f := Apply(s, DoRegister(i)), s.feds[i];
    assert Account(f, s.members, all, s.registrations != [], s.voters, s.halted);
    var ack := Sync(RegistrationSucceeded(STARTUP));
    var acked := s.feds[i := Push(f.(pc := Waiting), ack)];
    assert s.feds[i := f.(pc := Waiting)][i := Push(f.(pc := Waiting), ack)] == acked;
  }

  lemma StepRegister(s: State, all: set<Handle>, i: nat)
    requires Inv(s, all) && Enabled(s, DoRegister(i))
    ensures Inv(Apply(s, DoRegister(i)), all)
    ensures Apply(s, DoRegister(i)).registrations == [i]
  {
    Registered(s, all, i);
    var s', f := Apply(s, DoRegister(i)), s.feds[i];
    assert Account(f, all, all, false, {}, s.halted);
    var ack := Sync(RegistrationSucceeded(STARTUP));
    PushQuiet(f, ack, all, all, false, {}, s.halted, s.halted);
    var acked := s.feds[i := Push(f.(pc := Waiting), ack)];
    CrewUpdate(s.feds, all, i, acked[i]);
    CrewBroadcast(acked, all, all, ANNOUNCED);
    forall j | 0 <= j < |s.feds| ensures Account(s'.feds[j], all, all, true, {}, s.halted) {
      assert Account(s.feds[j], all, all, false, {}, s.halted);
      if j == i {
        assert acked[i].(pc := Registering) == Push(f, ack);
      } else {
        assert s.feds[j].handle != f.handle && f.handle in all && s.feds[j].handle in all;
        assert !IsLeader(s.feds[j].handle, all);
      }
      PushAnnounced(acked[j], all, {}, s.halted);
    }
  }

  /** A popped event that means nothing to the waiting federate. */
  lemma PopAccount(f: Federate, pc: Pc, members: set<Handle>, all: set<Handle>, registered: bool, voters: set<Handle>, halted: bool)
    requires Account(f, members, all, registered, voters, halted) && f.pc == Waiting && f.queue != []
    requires f.queue[0] != ANNOUNCED && (voters == all ==> registered)
    requires if f.queue[0] == SYNCHRONIZED then pc == Returned
             else pc == Waiting || (pc == Failed && halted)
    ensures Account(f.(queue := f.queue[1..], pc := pc), members, all, registered, voters, halted)
  {
    if f.queue[0] == SYNCHRONIZED {
      assert Count(f.queue, SYNCHRONIZED) == 1 + Count(f.queue[1..], SYNCHRONIZED);
    }
  }

  ghost function PlainPc(f: Federate): Pc
    requires f.queue != []
  {
    if f.queue[0] == SYNCHRONIZED then Returned else if f.queue[0] == Halted then Failed else Waiting
  }

  lemma PlainReceive(s: State, all: set<Handle>, i: nat)
    requires Enabled(s, Receive(i)) && s.feds[i].queue[0] != ANNOUNCED && Harmless(s.feds[i].queue[0], s.halted)
    ensures var f := s.feds[i];
            Apply(s, Receive(i)) == s.(feds := s.feds[i := f.(queue := f.queue[1..], pc := PlainPc(f))])
  {}

  lemma StepReceivePlain(s: State, all: set<Handle>, i: nat)
    requires Inv(s, all) && Enabled(s, Receive(i)) && s.feds[i].queue[0] != ANNOUNCED
    ensures Inv(Apply(s, Receive(i)), all)
  {
    var f := s.feds[i];
    assert Account(f, s.members, all, s.registrations != [], s.voters, s.halted);
    assert Harmless(f.queue[0], s.halted);
    NonEmpty(s.feds, all);
    PlainReceive(s, all, i);
    PopAccount(f, PlainPc(f), s.members, all, s.registrations != [], s.voters, s.halted);
    CrewUpdate(s.feds, all, i, f.(queue := f.queue[1..], pc := PlainPc(f)));
  }

  /** The federate that acknowledges the announcement. */
  lemma VoteAccount(f: Federate, all: set<Handle>, voters: set<Handle>, halted: bool)
    requires f.handle in all && Account(f, all, all, true, voters, halted)
    requires f.pc == Waiting && f.queue != [] && f.queue[0] == ANNOUNCED
    ensures f.handle !in voters
    ensures var g := f.(queue := f.queue[1..]);
            var voters' := voters + {f.handle};
            if voters' == all then Account(Push(g, SYNCHRONIZED), all, all, true, voters', halted)
            else Account(g, all, all, true, voters', halted)
  {
    var g := f.(queue := f.queue[1..]);
    CountPush(g.queue, SYNCHRONIZED, ANNOUNCED);
    CountPush(g.queue, SYNCHRONIZED, SYNCHRONIZED);
  }

  /** Everybody else. */
  lemma OtherVoteAccount(f: Federate, h: Handle, all: set<Handle>, voters: set<Handle>, halted: bool)
    requires f.handle in all && h in all && f.handle != h && h !in voters && Account(f, all, all, true, voters, halted)
    ensures var voters' := voters + {h};
            if voters' == all then Account(Push(f, SYNCHRONIZED), all, all, true, voters', halted)
            else Account(f, all, all, true, voters', halted)
  {
    CountPush(f.queue, SYNCHRONIZED, ANNOUNCED);
    CountPush(f.queue, SYNCHRONIZED, SYNCHRONIZED);
  }

  /** The server counts the vote, and the last one synchronizes the federation. */
  lemma VoteCounts(s: State, all: set<Handle>, h: Handle)
    requires Table(s.points, all, true, s.voters) && h in all && h !in s.voters
    ensures var v := Achieve(s.points, STARTUP, h, true);
            && v.Counted? && v.completed == (s.voters + {h} == all)
            && v.points[STARTUP] == Point(all, s.voters + {h}, {}, s.voters + {h} == all)
            && Table(v.points, all, true, s.voters + {h})
  {
    var v := Achieve(s.points, STARTUP, h, true);
    assert all <= s.voters + {h} <==> s.voters + {h} == all;
  }

  lemma StepVote(s: State, all: set<Handle>, i: nat)
    requires Inv(s, all) && Enabled(s, Receive(i)) && s.feds[i].queue[0] == ANNOUNCED
    ensures Inv(Apply(s, Receive(i)), all)
    ensures Apply(s, Receive(i)).voters == s.voters + {s.feds[i].handle}
  {
    var s', f := Apply(s, Receive(i)), s.feds[i];
    assert Account(f, s.members, all, s.registrations != [], s.voters, s.halted);
    assert s.members == all && s.registrations != [];
    VoteAccount(f, all, s.voters, s.halted);
    VoteCounts(s, all, f.handle);
    var g := f.(queue := f.queue[1..]);
    var feds := s.feds[i := g];
    var done := s.voters + {f.handle} == all;
    CrewUpdate(s.feds, all, i, g);
    CrewBroadcast(feds, all, all, SYNCHRONIZED);
    assert s'.feds == if done then Broadcast(feds, all, SYNCHRONIZED) else feds;
    forall j | 0 <= j < |s.feds| ensures Account(s'.feds[j], all, all, true, s'.voters, s.halted) {
      assert Account(s.feds[j], all, all, true, s.voters, s.halted);
      if j != i {
        assert s.feds[j].handle != f.handle;
        OtherVoteAccount(s.feds[j], f.handle, all, s.voters, s.halted);
      }
    }
  }

  lemma StepNoise(s: State, all: set<Handle>, i: nat)
    requires Inv(s, all) && Enabled(s, Noise(i))
    ensures Inv(Apply(s, Noise(i)), all)
  {
    assert Account(s.feds[i], s.members, all, s.registrations != [], s.voters, s.halted);
    CrewUpdate(s.feds, all, i, Push(s.feds[i], Other));
    PushQuiet(s.feds[i], Other, s.members, all, s.registrations != [], s.voters, s.halted, s.halted);
  }

  lemma HaltAccount(f: Federate, members: set<Handle>, all: set<Handle>, registered: bool, voters: set<Handle>, halted: bool)
    requires Account(f, members, all, registered, voters, halted)
    ensures Account(f, members, all, registered, voters, true)
    ensures Account(Push(f, Halted), members, all, registered, voters, true)
  {
    PushQuiet(f, Halted, members, all, registered, voters, halted, true);
  }

  lemma StepHalt(s: State, all: set<Handle>)
    requires Inv(s, all) && Enabled(s, Halt)
    ensures Inv(Apply(s, Halt), all)
  {
    var s' := Apply(s, Halt);
    CrewBroadcast(s.feds, all, s.members, Halted);
    forall j | 0 <= j < |s.feds| ensures Account(s'.feds[j], s.members, all, s.registrations != [], s.voters, true) {
      HaltAccount(s.feds[j], s.members, all, s.registrations != [], s.voters, s.halted);
    }
    assert Registrations(s', all);
  }

  lemma StepRetire(s: State, all: set<Handle>)
    requires Inv(s, all) && Enabled(s, Retire)
    ensures Inv(Apply(s, Retire), all)
  {
    assert Table(Apply(s, Retire).points, all, s.registrations != [], s.voters);
  }

  lemma StepKeeps(s: State, all: set<Handle>, a: Action)
    requires Inv(s, all) && Enabled(s, a)
    ensures Inv(Apply(s, a), all)
  {
    match a
    case Join(i) => StepJoin(s, all, i);
    case Poll(i) => StepPoll(s, all, i);
    case DoRegister(i) => StepRegister(s, all, i);
    case Receive(i) => if s.feds[i].queue[0] == ANNOUNCED { StepVote(s, all, i); } else { StepReceivePlain(s, all, i); }
    case Retire => StepRetire(s, all);
    case Noise(i) => StepNoise(s, all, i);
    case Halt => StepHalt(s, all);
  }

  lemma {:induction false} RunKeeps(s: State, all: set<Handle>, run: seq<Action>)
    requires Inv(s, all) && Legal(s, run)
    ensures Inv(Execute(s, run), all)
    decreases |run|
  {
    if run != [] {
      StepKeeps(s, all, run[0]);
      RunKeeps(Apply(s, run[0]), all, run[1..]);
    }
  }

  // --- Whole runs ---------------------------------------------------------------------------

  lemma Reached(handles: seq<Handle>, run: seq<Action>)
    requires |handles| > 1 && Distinct(handles) && Legal(Initial(handles), run)
    ensures Inv(Execute(Initial(handles), run), Handles(handles))
  {
    InitialHolds(handles);
    RunKeeps(Initial(handles), Handles(handles), run);
  }

  /** Everybody who leaves the membership wait has seen the same members, so all agree on the leader;
      only the federate with the least handle ever registers, and it does so once. */
  lemma Agreement(handles: seq<Handle>, run: seq<Action>)
    requires |handles| > 1 && Distinct(handles) && Legal(Initial(handles), run)
    ensures var s := Execute(Initial(handles), run);
            && (forall i :: 0 <= i < |s.feds| && Passed(s.feds[i].pc) ==> s.members == Handles(handles))
            && (forall i :: 0 <= i < |s.feds| && s.feds[i].pc == Registering ==> IsLeader(s.feds[i].handle, Handles(handles)))
            && |s.registrations| <= 1
            && (forall k :: 0 <= k < |s.registrations| ==>
                  s.registrations[k] < |s.feds| && IsLeader(s.feds[s.registrations[k]].handle, Handles(handles)))
  {
    Reached(handles, run);
    var s, all := Execute(Initial(handles), run), Handles(handles);
    forall i | 0 <= i < |s.feds|
      ensures Passed(s.feds[i].pc) ==> s.members == all
      ensures s.feds[i].pc == Registering ==> IsLeader(s.feds[i].handle, all)
    {
      assert Account(s.feds[i], s.members, all, s.registrations != [], s.voters, s.halted);
    }
  }

  /** Nobody returns from the startup wait before everybody has passed the membership wait and
      everybody's acknowledgement has been counted. */
  lemma Barrier(handles: seq<Handle>, run: seq<Action>, i: nat)
    requires |handles| > 1 && Distinct(handles) && Legal(Initial(handles), run)
    requires i < |Execute(Initial(handles), run).feds| && Execute(Initial(handles), run).feds[i].pc == Returned
    ensures var s := Execute(Initial(handles), run);
            && s.voters == Handles(handles) && |s.registrations| == 1
            && forall j :: 0 <= j < |s.feds| ==> Passed(s.feds[j].pc) && s.feds[j].handle in s.voters
  {
    Reached(handles, run);
    var s, all := Execute(Initial(handles), run), Handles(handles);
    assert Account(s.feds[i], s.members, all, s.registrations != [], s.voters, s.halted);
    forall j | 0 <= j < |s.feds| ensures Passed(s.feds[j].pc) && s.feds[j].handle in s.voters {
      assert Account(s.feds[j], s.members, all, s.registrations != [], s.voters, s.halted);
    }
  }

  /** Nobody fails unless the federation was halted. */
  lemma NobodyFails(handles: seq<Handle>, run: seq<Action>, i: nat)
    requires |handles| > 1 && Distinct(handles) && Legal(Initial(handles), run)
    requires i < |Execute(Initial(handles), run).feds| && !Execute(Initial(handles), run).halted
    ensures Execute(Initial(handles), run).feds[i].pc != Failed
  {
    Reached(handles, run);
    var s := Execute(Initial(handles), run);
    assert Account(s.feds[i], s.members, Handles(handles), s.registrations != [], s.voters, s.halted);
  }

  // --- Progress -----------------------------------------------------------------------------

  /** A step that brings the startup forward: not unrelated traffic, a halt or a poll in vain. */
  ghost predicate Productive(s: State, a: Action)
    requires Enabled(s, a)
  {
    !a.Noise? && !a.Halt? && (a.Poll? ==> AfterPoll(s, a.who) != Polling)
  }

  ghost predicate AllReturned(s: State) { forall i :: 0 <= i < |s.feds| ==> s.feds[i].pc == Returned }

  lemma {:induction false} LeastHandle(all: set<Handle>) returns (h: Handle)
    requires all != {}
    ensures IsLeader(h, all)
    decreases |all|
  {
    var x :| x in all;
    var rest := all - {x};
    assert forall y :: y in all ==> y == x || y in rest;
    if rest == {} {
      h := x;
    } else {
      var m := LeastHandle(rest);
      h := if m < x then m else x;
    }
  }

  /** Somebody can always go on until all have returned. */
  lemma SomebodyGoesOn(s: State, all: set<Handle>) returns (a: Action)
    requires Inv(s, all) && !s.halted && !AllReturned(s)
    ensures Enabled(s, a) && Productive(s, a)
  {
    forall i | 0 <= i < |s.feds| ensures Account(s.feds[i], s.members, all, s.registrations != [], s.voters, false) {}
    if i: nat :| i < |s.feds| && s.feds[i].pc == Absent {
      a := Join(i);
    } else {
      forall h | h in all ensures h in s.members {
        var i :| 0 <= i < |s.feds| && s.feds[i].handle == h;
        assert s.feds[i].pc != Absent;
      }
      assert s.members == all;
      if i: nat :| i < |s.feds| && s.feds[i].pc == Polling {
        a := Poll(i);
      } else if i: nat :| i < |s.feds| && s.feds[i].pc == Registering {
        a := DoRegister(i);
      } else {
        var i := StillWaiting(s, all);
        a := Receive(i);
      }
    }
  }

  /** Once everybody waits, somebody has an announcement or the synchronization in its queue. */
  lemma StillWaiting(s: State, all: set<Handle>) returns (i: nat)
    requires Inv(s, all) && !s.halted && !AllReturned(s) && s.members == all
    requires forall j :: 0 <= j < |s.feds| ==> Passed(s.feds[j].pc) && s.feds[j].pc != Registering
    ensures Enabled(s, Receive(i))
  {
    NonEmpty(s.feds, all);
    var h := LeastHandle(all);
    var l :| 0 <= l < |s.feds| && s.feds[l].handle == h;
    assert Account(s.feds[l], s.members, all, s.registrations != [], s.voters, false);
    assert s.registrations != [];
    if missing: Handle :| missing in all && missing !in s.voters {
      i :| 0 <= i < |s.feds| && s.feds[i].handle == missing;
      assert Account(s.feds[i], s.members, all, true, s.voters, false);
      Counted(s.feds[i].queue, ANNOUNCED);
    } else {
      assert s.voters == all;
      i :| 0 <= i < |s.feds| && s.feds[i].pc != Returned;
      assert Account(s.feds[i], s.members, all, true, s.voters, false);
      Counted(s.feds[i].queue, SYNCHRONIZED);
    }
  }

  /** Deadlock freedom: an unhalted run that cannot go on has brought everybody through. */
  lemma DeadlockFree(handles: seq<Handle>, run: seq<Action>)
    requires |handles| > 1 && Distinct(handles) && Legal(Initial(handles), run)
    requires var s := Execute(Initial(handles), run);
             !s.halted && forall a :: Enabled(s, a) ==> !Productive(s, a)
    ensures AllReturned(Execute(Initial(handles), run))
  {
    Reached(handles, run);
    var s := Execute(Initial(handles), run);
    if !AllReturned(s) {
      var a := SomebodyGoesOn(s, Handles(handles));
    }
  }

  // --- Every run ends -----------------------------------------------------------------------

  ghost function Rank(pc: Pc): nat {
    match pc
    case Absent => 4
    case Polling => 3
    case Registering => 2
    case Waiting => 1
    case Returned => 0
    case Failed => 0
  }

  ghost function Load(feds: seq<Federate>): nat {
    if feds == [] then 0
    else Load(feds[..|feds| - 1]) + Rank(feds[|feds| - 1].pc) + |feds[|feds| - 1].queue|
  }

  lemma {:induction false} LoadUpdate(feds: seq<Federate>, i: nat, f: Federate)
    requires i < |feds|
    ensures Load(feds[i := f]) == Load(feds) - Rank(feds[i].pc) - |feds[i].queue| + Rank(f.pc) + |f.queue|
  {
    var n := |feds| - 1;
    if i == n {
      assert feds[i := f][..n] == feds[..n];
    } else {
      assert feds[i := f][..n] == feds[..n][i := f];
      LoadUpdate(feds[..n], i, f);
    }
  }

  lemma {:induction false} LoadBroadcast(feds: seq<Federate>, recipients: set<Handle>, e: Event)
    ensures Load(Broadcast(feds, recipients, e)) <= Load(feds) + |feds|
  {
    if feds != [] {
      var n := |feds| - 1;
      assert Broadcast(feds, recipients, e)[..n] == Broadcast(feds[..n], recipients, e);
      LoadBroadcast(feds[..n], recipients, e);
    }
  }

  /** Events still to be sent, and the label still to be forgotten. */
  ghost function Budget(s: State, all: set<Handle>): nat {
    (if s.registrations == [] then |s.feds| + 2 else if STARTUP in s.points then 1 else 0) +
    (if s.voters == all then 0 else |s.feds|)
  }

  ghost function Work(s: State, all: set<Handle>): nat { Load(s.feds) + Budget(s, all) }

  lemma RegisterLoad(feds: seq<Federate>, i: nat, all: set<Handle>)
    requires i < |feds| && feds[i].pc == Registering
    ensures var acked := feds[i := Push(feds[i].(pc := Waiting), Sync(RegistrationSucceeded(STARTUP)))];
            Load(Broadcast(acked, all, ANNOUNCED)) <= Load(feds) + |feds|
  {
    var acked := feds[i := Push(feds[i].(pc := Waiting), Sync(RegistrationSucceeded(STARTUP)))];
    LoadUpdate(feds, i, acked[i]);
    LoadBroadcast(acked, all, ANNOUNCED);
  }

  lemma RegisterWorks(s: State, all: set<Handle>, i: nat)
    requires Inv(s, all) && Enabled(s, DoRegister(i))
    ensures Work(Apply(s, DoRegister(i)), all) < Work(s, all)
  {
    Registered(s, all, i);
    RegisterLoad(s.feds, i, all);
    var s' := Apply(s, DoRegister(i));
    assert Budget(s, all) == 2 * |s.feds| + 2;
    assert Budget(s', all) == |s.feds| + 1;
  }

  lemma VoteWorks(s: State, all: set<Handle>, i: nat)
    requires Inv(s, all) && Enabled(s, Receive(i)) && s.feds[i].queue[0] == ANNOUNCED
    ensures Work(Apply(s, Receive(i)), all) < Work(s, all)
  {
    var s', f := Apply(s, Receive(i)), s.feds[i];
    assert Account(f, s.members, all, s.registrations != [], s.voters, s.halted);
    VoteAccount(f, all, s.voters, s.halted);
    VoteCounts(s, all, f.handle);
    var g := f.(queue := f.queue[1..]);
    LoadUpdate(s.feds, i, g);
    LoadBroadcast(s.feds[i := g], all, SYNCHRONIZED);
  }

  lemma PlainWorks(s: State, all: set<Handle>, i: nat)
    requires Enabled(s, Receive(i)) && s.feds[i].queue[0] != ANNOUNCED && Harmless(s.feds[i].queue[0], s.halted)
    ensures Work(Apply(s, Receive(i)), all) < Work(s, all)
  {
    var f := s.feds[i];
    PlainReceive(s, all, i);
    LoadUpdate(s.feds, i, f.(queue := f.queue[1..], pc := PlainPc(f)));
  }

  lemma HeadHarmless(s: State, all: set<Handle>, i: nat)
    requires Inv(s, all) && Enabled(s, Receive(i))
    ensures Harmless(s.feds[i].queue[0], s.halted)
  {
    assert Account(s.feds[i], s.members, all, s.registrations != [], s.voters, s.halted);
  }

  lemma LocalWorks(s: State, all: set<Handle>, i: nat, f: Federate, members: set<Handle>)
    requires i < |s.feds|
    ensures Work(s.(feds := s.feds[i := f], members := members), all) ==
            Work(s, all) - Rank(s.feds[i].pc) - |s.feds[i].queue| + Rank(f.pc) + |f.queue|
  {
    LoadUpdate(s.feds, i, f);
  }

  lemma RetireWorks(s: State, all: set<Handle>)
    requires Table(s.points, all, s.registrations != [], s.voters) && Enabled(s, Retire)
    ensures Work(Apply(s, Retire), all) < Work(s, all)
  {}

  /** Every productive step uses up work; a vain poll adds none, and unrelated traffic one. */
  lemma StepWorks(s: State, all: set<Handle>, a: Action)
    requires Inv(s, all) && Enabled(s, a) && !a.Halt?
    ensures Work(Apply(s, a), all) + (if Productive(s, a) then 1 else 0) <= Work(s, all) + (if a.Noise? then 1 else 0)
  {
    match a
    case Join(i) => LocalWorks(s, all, i, s.feds[i].(pc := Polling), s.members + {s.feds[i].handle});
    case Poll(i) => LocalWorks(s, all, i, s.feds[i].(pc := AfterPoll(s, i)), s.members);
    case DoRegister(i) => RegisterWorks(s, all, i);
    case Receive(i) =>
      if s.feds[i].queue[0] == ANNOUNCED {
        VoteWorks(s, all, i);
      } else {
        HeadHarmless(s, all, i);
        PlainWorks(s, all, i);
      }
    case Retire => RetireWorks(s, all);
    case Noise(i) => LocalWorks(s, all, i, Push(s.feds[i], Other), s.members);
  }

  /** How many steps of a run were productive. */
  ghost function Productives(s: State, run: seq<Action>): nat
    requires Legal(s, run)
    decreases |run|
  {
    if run == [] then 0
    else (if Productive(s, run[0]) then 1 else 0) + Productives(Apply(s, run[0]), run[1..])
  }

  /** How much unrelated traffic there was. */
  ghost function Noises(run: seq<Action>): nat
    decreases |run|
  {
    if run == [] then 0 else (if run[0].Noise? then 1 else 0) + Noises(run[1..])
  }

  ghost predicate Unhalted(run: seq<Action>) { forall k :: 0 <= k < |run| ==> !run[k].Halt? }

  lemma {:induction false} WorkBounds(s: State, all: set<Handle>, run: seq<Action>)
    requires Inv(s, all) && Legal(s, run) && Unhalted(run)
    ensures Productives(s, run) <= Work(s, all) + Noises(run)
    decreases |run|
  {
    if run != [] {
      StepKeeps(s, all, run[0]);
      StepWorks(s, all, run[0]);
      assert forall k :: 0 <= k < |run| - 1 ==> run[1..][k] == run[k + 1];
      WorkBounds(Apply(s, run[0]), all, run[1..]);
    }
  }

  lemma {:induction false} InitialLoad(handles: seq<Handle>)
    ensures Load(Initial(handles).feds) == 4 * |handles|
  {
    if handles != [] {
      var n := |handles| - 1;
      assert Initial(handles).feds[..n] == Initial(handles[..n]).feds;
      InitialLoad(handles[..n]);
    }
  }

  /** However long anybody polls in vain, a run has at most 6 N + 2 productive steps, and one more for
      every unrelated event that somebody has to read. */
  lemma EveryRunEnds(handles: seq<Handle>, run: seq<Action>)
    requires |handles| > 1 && Distinct(handles) && Legal(Initial(handles), run) && Unhalted(run)
    ensures Productives(Initial(handles), run) <= 6 * |handles| + 2 + Noises(run)
  {
    InitialHolds(handles);
    InitialLoad(handles);
    NonEmpty(Initial(handles).feds, Handles(handles));
    WorkBounds(Initial(handles), Handles(handles), run);
  }
}
