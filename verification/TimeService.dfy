/**
 What the requests of time management achieve, beside being safe: the exact time of every
 grant, whatever the server hands out in between, the lookahead that a change leads to, and
 what enabling and disabling leave behind.
 */
module TimeService {
  import opened Outcomes
  import opened TimeManagement
  import opened TimeHorizons
  import opened TimeCausality
  import opened TimeTheorems

  // --- One request, from being made to being granted ----------------------------------------

  /** The federate stays constrained and waiting through the run: it neither leaves nor is granted. */
  ghost predicate KeepsWaiting(s: Federation, i: nat, run: seq<Action>)
    requires Legal(s, run)
    decreases |run|
  {
    && i < |s| && s[i].pending && s[i].constrained
    && (run == [] || (run[0] != Do(i, Grant) && KeepsWaiting(Apply(s, run[0]), i, run[1..])))
  }

  /** A step that takes a message out of the queue. */
  ghost predicate Takes(step: Step) { step.Release? || step.Flush? || step.ReleaseForEnable? }

  /** The timestamp that an action hands to federate `i`, if it does. */
  ghost function HandedBy(s: Federation, i: nat, a: Action): seq<nat>
    requires Enabled(s, a)
  {
    if a.Do? && a.who == i && Takes(a.step) && a.step.kept
    then [s[i].queue[a.step.k]] else []
  }

  /** Everything that a run hands to federate `i`, in order. */
  ghost function Handed(s: Federation, i: nat, run: seq<Action>): seq<nat>
    requires Legal(s, run)
    decreases |run|
  {
    if run == [] then [] else HandedBy(s, i, run[0]) + Handed(Apply(s, run[0]), i, run[1..])
  }

  /** The recorded minimum is the least of what was handed out. */
  ghost predicate IsMinimum(m: Option<nat>, handed: seq<nat>) {
    && (m.None? <==> handed == [])
    && (m.Some? ==> m.value in handed && forall ts :: ts in handed ==> m.value <= ts)
  }

  /** The same request, still waiting, with the recorded minimum where the mode keeps one. */
  ghost predicate SameRequest(f: Federate, g: Federate, handed: seq<nat>) {
    && g.pending && g.constrained && g.mode == f.mode && g.requested == f.requested && g.current == f.current
    && (f.mode == FQR || NextMessage(f.mode) ==> IsMinimum(g.flushMinimum, handed))
  }

  lemma MinimumPush(m: Option<nat>, handed: seq<nat>, ts: nat)
    requires IsMinimum(m, handed)
    ensures IsMinimum(Lowered(m, ts), handed + [ts])
  {
    assert (handed + [ts])[|handed|] == ts;
    forall x | x in handed + [ts] ensures x in handed || x == ts {}
    forall x | x in handed ensures x in handed + [ts] {}
  }

  /** What one step of the federate hands out. */
  ghost function Gives(f: Federate, step: Step): seq<nat>
    requires Admissible(f, step)
  {
    if Takes(step) && step.kept then [f.queue[step.k]] else []
  }

  lemma OwnStepWaits(f: Federate, g: Federate, step: Step, handed: seq<nat>)
    requires Shape(g) && SameRequest(f, g, handed) && Admissible(g, step) && !step.Grant? && !step.CompleteRegulation?
    requires Alone(g, step).pending && Alone(g, step).constrained
    ensures SameRequest(f, Alone(g, step), handed + Gives(g, step))
  {
    assert handed + [] == handed;
    if Gives(g, step) != [] && (f.mode == FQR || NextMessage(f.mode)) {
      MinimumPush(g.flushMinimum, handed, g.queue[step.k]);
    }
  }

  lemma OtherStepWaits(f: Federate, g: Federate, g': Federate, handed: seq<nat>)
    requires SameRequest(f, g, handed) && g' == g.(queue := g'.queue)
    ensures SameRequest(f, g', handed + [])
  {
    assert handed + [] == handed;
  }

  lemma StepWaits(s: Federation, i: nat, a: Action, f: Federate, handed: seq<nat>)
    requires Enabled(s, a) && a != Do(i, Grant) && i < |s| && Shape(s[i]) && SameRequest(f, s[i], handed)
    requires i < |Apply(s, a)| && Apply(s, a)[i].pending && Apply(s, a)[i].constrained
    ensures SameRequest(f, Apply(s, a)[i], handed + HandedBy(s, i, a))
  {
    if a.Do? && a.who == i {
      assert Apply(s, a)[i] == Alone(s[i], a.step);
      OwnStepWaits(f, s[i], a.step, handed);
    } else {
      OtherStepWaits(f, s[i], Apply(s, a)[i], handed);
    }
  }

  lemma FirstWait(s: Federation, i: nat, run: seq<Action>)
    requires Legal(s, run) && run != [] && DisciplinedRun(s, run, false) && KeepsWaiting(s, i, run)
    ensures Enabled(s, run[0]) && Disciplined(s, run[0], false) && run[0] != Do(i, Grant)
    ensures var s' := Apply(s, run[0]);
            && Legal(s', run[1..]) && DisciplinedRun(s', run[1..], false) && KeepsWaiting(s', i, run[1..])
            && i < |s'| && s'[i].pending && s'[i].constrained
            && Execute(s, run) == Execute(s', run[1..])
            && Handed(s, i, run) == HandedBy(s, i, run[0]) + Handed(s', i, run[1..])
  {}

  lemma OneWait(s: Federation, i: nat, a: Action, f: Federate, handed: seq<nat>)
    requires Safe(s, false) && Enabled(s, a) && Disciplined(s, a, false) && a != Do(i, Grant)
    requires i < |s| && SameRequest(f, s[i], handed)
    requires i < |Apply(s, a)| && Apply(s, a)[i].pending && Apply(s, a)[i].constrained
    ensures Safe(Apply(s, a), false) && SameRequest(f, Apply(s, a)[i], handed + HandedBy(s, i, a))
  {
    StepKeeps(s, a, false);
    assert Sound(s[i], false);
    StepWaits(s, i, a, f, handed);
  }

  lemma Regroup(a: seq<nat>, b: seq<nat>, c: seq<nat>)
    ensures (a + b) + c == a + (b + c)
  {}

  /** While a request waits, the server remembers the least timestamp it has handed out for it. */
  lemma {:induction false} RunWaits(s: Federation, i: nat, run: seq<Action>, f: Federate, handed: seq<nat>)
    requires Safe(s, false) && Legal(s, run) && DisciplinedRun(s, run, false) && KeepsWaiting(s, i, run)
    requires i < |s| && SameRequest(f, s[i], handed)
    ensures var e := Execute(s, run);
            Safe(e, false) && i < |e| && SameRequest(f, e[i], handed + Handed(s, i, run))
    decreases |run|
  {
    if run == [] {
      assert handed + [] == handed;
    } else {
      FirstWait(s, i, run);
      OneWait(s, i, run[0], f, handed);
      var now, later := HandedBy(s, i, run[0]), Handed(Apply(s, run[0]), i, run[1..]);
      RunWaits(Apply(s, run[0]), i, run[1..], f, handed + now);
      Regroup(handed, now, later);
    }
  }

  // --- Every message once -------------------------------------------------------------------

  /** What an action puts into the queue of a constrained federate. */
  ghost function PutBy(s: Federation, i: nat, a: Action): seq<nat>
    requires Enabled(s, a) && i < |s|
  {
    if a.Send? && i in a.recipients && s[i].constrained then [a.timestamp] else []
  }

  /** What an action takes out of it, handed out or discarded by the filter. */
  ghost function TakenBy(s: Federation, i: nat, a: Action): seq<nat>
    requires Enabled(s, a)
  {
    if a.Do? && a.who == i && Takes(a.step) then [s[i].queue[a.step.k]] else []
  }

  ghost function Put(s: Federation, i: nat, run: seq<Action>): seq<nat>
    requires Legal(s, run) && StaysConstrained(s, run, i)
    decreases |run|
  {
    if run == [] then [] else PutBy(s, i, run[0]) + Put(Apply(s, run[0]), i, run[1..])
  }

  ghost function Taken(s: Federation, i: nat, run: seq<Action>): seq<nat>
    requires Legal(s, run)
    decreases |run|
  {
    if run == [] then [] else TakenBy(s, i, run[0]) + Taken(Apply(s, run[0]), i, run[1..])
  }

  /** How often a timestamp occurs. */
  ghost function Copies(xs: seq<nat>, x: nat): nat {
    if xs == [] then 0 else (if xs[0] == x then 1 else 0) + Copies(xs[1..], x)
  }

  lemma {:induction false} CopiesBoth(a: seq<nat>, b: seq<nat>, x: nat)
    ensures Copies(a + b, x) == Copies(a, x) + Copies(b, x)
    decreases |a|
  {
    if a == [] {
      assert a + b == b;
    } else {
      assert (a + b)[1..] == a[1..] + b;
      CopiesBoth(a[1..], b, x);
    }
  }

  lemma DropTakes(queue: seq<nat>, k: nat, x: nat)
    requires k < |queue|
    ensures Copies(queue, x) == Copies(Drop(queue, k), x) + Copies([queue[k]], x)
  {
    assert queue == queue[..k] + ([queue[k]] + queue[k + 1..]);
    CopiesBoth(queue[..k], [queue[k]] + queue[k + 1..], x);
    CopiesBoth([queue[k]], queue[k + 1..], x);
    CopiesBoth(queue[..k], queue[k + 1..], x);
  }

  lemma TakingQueue(f: Federate, step: Step)
    requires Admissible(f, step) && Takes(step)
    ensures Alone(f, step).queue == Drop(f.queue, step.k)
  {
    match step
    case Release(k, kept) => ReleasedQueue(f, k, kept);
    case ReleaseForEnable(k, kept) => ReleasedQueue(f, k, kept);
    case Flush(k, kept) => FlushedQueue(f, k, kept);
  }

  lemma ReleasedQueue(f: Federate, k: nat, kept: bool)
    requires k < |f.queue|
    ensures Released(f, k, kept).queue == Drop(f.queue, k)
  {}

  lemma FlushedQueue(f: Federate, k: nat, kept: bool)
    requires k < |f.queue|
    ensures Flushed(f, k, kept).queue == Drop(f.queue, k)
  {}

  lemma OtherQueue(f: Federate, step: Step)
    requires Admissible(f, step) && !Takes(step) && !step.Grant? && !step.CompleteRegulation?
    ensures Alone(f, step).constrained ==> Alone(f, step).queue == f.queue
  {}

  lemma StepConserves(s: Federation, i: nat, a: Action, x: nat)
    requires Enabled(s, a) && i < |s| && s[i].constrained && i < |Apply(s, a)| && Apply(s, a)[i].constrained
    ensures Copies(s[i].queue, x) + Copies(PutBy(s, i, a), x) ==
            Copies(Apply(s, a)[i].queue, x) + Copies(TakenBy(s, i, a), x)
  {
    if a.Do? && a.who == i && !a.step.Grant? && !a.step.CompleteRegulation? {
      if Takes(a.step) {
        TakingQueue(s[i], a.step);
        DropTakes(s[i].queue, a.step.k, x);
      } else {
        OtherQueue(s[i], a.step);
      }
    } else if a.Send? && i in a.recipients {
      CopiesBoth(s[i].queue, [a.timestamp], x);
    }
  }

  /** Every message that is queued for a constrained federate leaves the queue once: what was there and
      what came is what is there and what was taken out, each as often. */
  lemma {:induction false} MessagesConserved(s: Federation, i: nat, run: seq<Action>, x: nat)
    requires Legal(s, run) && StaysConstrained(s, run, i)
    ensures i < |s| && i < |Execute(s, run)|
    ensures Copies(s[i].queue, x) + Copies(Put(s, i, run), x) ==
            Copies(Execute(s, run)[i].queue, x) + Copies(Taken(s, i, run), x)
    decreases |run|
  {
    if run != [] {
      var s' := Apply(s, run[0]);
      StepConserves(s, i, run[0], x);
      MessagesConserved(s', i, run[1..], x);
      CopiesBoth(PutBy(s, i, run[0]), Put(s', i, run[1..]), x);
      CopiesBoth(TakenBy(s, i, run[0]), Taken(s', i, run[1..]), x);
    }
  }

  // --- The time of the grant ----------------------------------------------------------------

  /** A request may be granted as late as `x`: not past what was asked for; for a flush not past the
      bound on what can still come; and for a flush or a next-message request not past any
      message, whether it has been handed out or is still queued. */
  ghost predicate Allows(f: Federate, bound: Bound, handed: seq<nat>, x: nat) {
    && x <= f.requested
    && (f.mode == FQR ==> AtLeast(bound, x))
    && (f.mode == FQR || NextMessage(f.mode) ==>
          (forall ts :: ts in handed ==> ts >= x) && forall j :: 0 <= j < |f.queue| ==> f.queue[j] >= x)
  }

  /** The latest such time that is not in the past. */
  ghost predicate IsLatest(f: Federate, bound: Bound, handed: seq<nat>, t: nat) {
    forall x: nat :: t >= x <==> x <= f.current || Allows(f, bound, handed, x)
  }

  /** The bound has come far enough for the mode. */
  ghost predicate Suffices(f: Federate, bound: Bound, t: nat) {
    match f.mode
    case FQR => true
    case TAR => AtLeast(bound, t + 1)
    case NER => AtLeast(bound, t + 1)
    case TARA => AtLeast(bound, t)
    case NMRA => AtLeast(bound, t)
  }

  lemma NextBounds(f: Federate, handed: seq<nat>, x: nat)
    requires f.mode == FQR || NextMessage(f.mode)
    requires IsMinimum(f.flushMinimum, handed)
    ensures var n := NextGrantMessage(f);
            (n.None? || n.value >= x) <==>
            ((forall ts :: ts in handed ==> ts >= x) && forall j :: 0 <= j < |f.queue| ==> f.queue[j] >= x)
  {
    NextIs(f);
    var n := NextGrantMessage(f);
    if (forall ts :: ts in handed ==> ts >= x) && (forall j :: 0 <= j < |f.queue| ==> f.queue[j] >= x) && n.Some? {
      assert IsNext(f, n.value);
    }
  }

  lemma NextInTime(f: Federate, handed: seq<nat>)
    requires Sound(f, false) && f.constrained && f.pending && (f.mode == FQR || NextMessage(f.mode))
    requires IsMinimum(f.flushMinimum, handed)
    ensures var n := NextGrantMessage(f); n.Some? ==> n.value >= f.current
  {
    NextIs(f);
    assert MayGrantEarly(f);
  }

  /** The decision is the latest time that the request allows, if the bound suffices for it. */
  lemma DecisionIsLatest(f: Federate, bound: Bound, handed: seq<nat>, t: nat)
    requires Sound(f, false) && f.constrained && f.pending
    requires f.mode == FQR || NextMessage(f.mode) ==> IsMinimum(f.flushMinimum, handed)
    ensures var d := Decide(f.mode, f.current, f.requested, bound, NextGrantMessage(f));
            d == Some(t) <==> IsLatest(f, bound, handed, t) && Suffices(f, bound, t)
  {
    if f.mode == FQR || NextMessage(f.mode) {
      NextInTime(f, handed);
      forall x: nat ensures Allows(f, bound, handed, x) <==>
                            && x <= f.requested && (f.mode == FQR ==> AtLeast(bound, x))
                            && (NextGrantMessage(f).None? || NextGrantMessage(f).value >= x)
      {
        NextBounds(f, handed, x);
      }
    }
    LatestIs(f, bound, handed, t);
  }

  /** The latest time as the server computes it. */
  ghost function Latest(f: Federate, bound: Bound): nat {
    var n := NextGrantMessage(f);
    var t := if f.mode == FQR && bound.Finite? then Min(f.requested, bound.limit) else f.requested;
    Max(f.current, if n.Some? && (f.mode == FQR || NextMessage(f.mode)) then Min(t, n.value) else t)
  }

  lemma LatestIs(f: Federate, bound: Bound, handed: seq<nat>, t: nat)
    requires f.pending && f.current <= f.requested
    requires f.mode == FQR || NextMessage(f.mode) ==>
               && (NextGrantMessage(f).Some? ==> NextGrantMessage(f).value >= f.current)
               && forall x: nat :: Allows(f, bound, handed, x) <==>
                                   && x <= f.requested && (f.mode == FQR ==> AtLeast(bound, x))
                                   && (NextGrantMessage(f).None? || NextGrantMessage(f).value >= x)
    ensures IsLatest(f, bound, handed, t) <==> t == Latest(f, bound)
    ensures Decide(f.mode, f.current, f.requested, bound, NextGrantMessage(f)) ==
            if Suffices(f, bound, Latest(f, bound)) then Some(Latest(f, bound)) else None
  {
    var u := Latest(f, bound);
    forall x: nat ensures u >= x <==> x <= f.current || Allows(f, bound, handed, x) {}
    if IsLatest(f, bound, handed, t) {
      var atU, atT := Allows(f, bound, handed, u), Allows(f, bound, handed, t);
      assert t >= u <==> u <= f.current || atU;
      assert t <= f.current || atT;
    }
  }

  ghost predicate SomeGrant(f: Federate, bound: Bound, handed: seq<nat>, t: nat) {
    IsLatest(f, bound, handed, t) && Suffices(f, bound, t)
  }

  /** From the request to the grant, in every run: whatever has been handed out since a constrained
      federate asked, it is granted at the latest time that the request, the bound and every
      message allow, as soon as the bound suffices for that time. In particular a flush or a
      next-message grant never passes a message that was handed out for it. */
  lemma GrantTimeIs(run: seq<Action>, i: nat, how: Mode, target: nat, between: seq<Action>, t: nat)
    requires Legal([], run) && DisciplinedRun([], run, false)
    requires var s := Execute([], run); Enabled(s, Do(i, RequestAdvance(how, target))) && s[i].constrained
    requires var s := Apply(Execute([], run), Do(i, RequestAdvance(how, target)));
             Legal(s, between) && DisciplinedRun(s, between, false) && KeepsWaiting(s, i, between)
    ensures var s := Apply(Execute([], run), Do(i, RequestAdvance(how, target)));
            GrantedAsAsked(s, i, how, target, Execute(s, between), Handed(s, i, between), t)
  {
    RunKeeps([], run, false);
    RequestGranted(Execute([], run), i, how, target, between, t);
  }

  ghost predicate GrantedAsAsked(s: Federation, i: nat, how: Mode, target: nat, e: Federation, handed: seq<nat>, t: nat) {
    && i < |s| && i < |e| && e[i].pending && e[i].mode == how && e[i].requested == target && e[i].current == s[i].current
    && (Candidate(e, i) == Some(t) <==> SomeGrant(e[i], GrantBound(e, i), handed, t))
    && ((how == FQR || NextMessage(how)) && Candidate(e, i) == Some(t) ==>
          forall ts :: ts in handed ==> t <= Max(e[i].current, ts))
  }

  lemma RequestGranted(s0: Federation, i: nat, how: Mode, target: nat, between: seq<Action>, t: nat)
    requires Safe(s0, false) && Enabled(s0, Do(i, RequestAdvance(how, target))) && s0[i].constrained
    requires var s := Apply(s0, Do(i, RequestAdvance(how, target)));
             Legal(s, between) && DisciplinedRun(s, between, false) && KeepsWaiting(s, i, between)
    ensures var s := Apply(s0, Do(i, RequestAdvance(how, target)));
            GrantedAsAsked(s, i, how, target, Execute(s, between), Handed(s, i, between), t)
  {
    var s := Requested(s0, i, how, target);
    RunWaits(s, i, between, s[i], []);
    assert [] + Handed(s, i, between) == Handed(s, i, between);
    Granting(Execute(s, between), i, Handed(s, i, between), t);
  }

  lemma Requested(s0: Federation, i: nat, how: Mode, target: nat) returns (s: Federation)
    requires Safe(s0, false) && Enabled(s0, Do(i, RequestAdvance(how, target))) && s0[i].constrained
    ensures s == Apply(s0, Do(i, RequestAdvance(how, target))) && Safe(s, false)
    ensures i < |s| && s[i].mode == how && s[i].requested == target && SameRequest(s[i], s[i], [])
  {
    StepKeeps(s0, Do(i, RequestAdvance(how, target)), false);
    s := Apply(s0, Do(i, RequestAdvance(how, target)));
  }

  lemma Granting(e: Federation, i: nat, handed: seq<nat>, t: nat)
    requires Safe(e, false) && i < |e| && e[i].pending && e[i].constrained
    requires e[i].mode == FQR || NextMessage(e[i].mode) ==> IsMinimum(e[i].flushMinimum, handed)
    ensures Candidate(e, i) == Some(t) <==> SomeGrant(e[i], GrantBound(e, i), handed, t)
    ensures (e[i].mode == FQR || NextMessage(e[i].mode)) && Candidate(e, i) == Some(t) ==>
              forall ts :: ts in handed ==> t <= Max(e[i].current, ts)
  {
    DecisionIsLatest(e[i], GrantBound(e, i), handed, t);
    if IsLatest(e[i], GrantBound(e, i), handed, t) { assert t <= e[i].current || Allows(e[i], GrantBound(e, i), handed, t); }
  }

  /** Nothing holds an unconstrained federate. */
  lemma UnconstrainedGrant(s: Federation, i: nat)
    requires i < |s| && s[i].pending && !s[i].constrained && s[i].current <= s[i].requested
    ensures Candidate(s, i) == Some(s[i].requested)
  {}

  // --- Changing lookahead -------------------------------------------------------------------

  /** The federate regulates through the run and does not change its lookahead again. */
  ghost predicate KeepsRegulating(s: Federation, i: nat, run: seq<Action>)
    requires Legal(s, run)
    decreases |run|
  {
    && i < |s| && s[i].regulating
    && (run == [] || (!IsChange(run[0], i) && KeepsRegulating(Apply(s, run[0]), i, run[1..])))
  }

  ghost predicate IsChange(a: Action, i: nat) { a.Do? && a.who == i && a.step.ModifyLookahead? }

  /** Lookahead `value` at time `since` is on its way to `goal`, losing as much as time has advanced. */
  ghost predicate OnItsWay(f: Federate, since: nat, value: nat, goal: nat) {
    && f.regulating && f.current >= since
    && f.lookahead == Max(goal, value - (f.current - since))
    && (f.reducing ==> f.lookaheadTarget == goal && f.originTime <= f.current && f.originTime + f.originValue == since + value)
    && (f.lookahead > goal ==> f.reducing)
  }

  lemma ChangeStarts(f: Federate, la: nat)
    requires Reduction(f) && f.regulating
    ensures OnItsWay(Modified(f, la), f.current, f.lookahead, la)
  {}

  lemma GrantOnItsWay(f: Federate, at: nat, since: nat, value: nat, goal: nat)
    requires OnItsWay(f, since, value, goal) && at >= f.current
    ensures OnItsWay(Granted(f, at), since, value, goal)
  {}

  lemma OwnStepOnItsWay(f: Federate, step: Step, since: nat, value: nat, goal: nat)
    requires Shape(f) && OnItsWay(f, since, value, goal) && Admissible(f, step) && !step.ModifyLookahead? && !step.Grant?
    requires !step.CompleteRegulation? && Alone(f, step).regulating
    ensures OnItsWay(Alone(f, step), since, value, goal)
  {}

  lemma GrantForward(s: Federation, i: nat)
    requires i < |s| && Shape(s[i]) && s[i].pending && Candidate(s, i).Some?
    ensures Candidate(s, i).value >= s[i].current
  {
    if s[i].constrained { DecisionIs(s[i], GrantBound(s, i), Candidate(s, i).value); }
  }

  lemma StepOnItsWay(s: Federation, i: nat, a: Action, since: nat, value: nat, goal: nat)
    requires Safe(s, false) && Enabled(s, a) && Disciplined(s, a, false) && !IsChange(a, i)
    requires i < |s| && OnItsWay(s[i], since, value, goal) && i < |Apply(s, a)| && Apply(s, a)[i].regulating
    ensures Safe(Apply(s, a), false) && OnItsWay(Apply(s, a)[i], since, value, goal)
  {
    StepKeeps(s, a, false);
    assert Sound(s[i], false);
    if a.Do? && a.who == i {
      if a.step.Grant? {
        GrantForward(s, i);
        GrantOnItsWay(s[i], Candidate(s, i).value, since, value, goal);
      } else {
        OwnStepOnItsWay(s[i], a.step, since, value, goal);
      }
    }
  }

  lemma FirstRegulating(s: Federation, i: nat, run: seq<Action>)
    requires Legal(s, run) && run != [] && DisciplinedRun(s, run, false) && KeepsRegulating(s, i, run)
    ensures Enabled(s, run[0]) && Disciplined(s, run[0], false) && !IsChange(run[0], i)
    ensures var s' := Apply(s, run[0]);
            && Legal(s', run[1..]) && DisciplinedRun(s', run[1..], false) && KeepsRegulating(s', i, run[1..])
            && i < |s'| && s'[i].regulating && Execute(s, run) == Execute(s', run[1..])
  {}

  lemma {:induction false} RunOnItsWay(s: Federation, i: nat, run: seq<Action>, since: nat, value: nat, goal: nat)
    requires Safe(s, false) && Legal(s, run) && DisciplinedRun(s, run, false) && KeepsRegulating(s, i, run)
    requires i < |s| && OnItsWay(s[i], since, value, goal)
    ensures i < |Execute(s, run)| && OnItsWay(Execute(s, run)[i], since, value, goal)
    decreases |run|
  {
    if run != [] {
      FirstRegulating(s, i, run);
      StepOnItsWay(s, i, run[0], since, value, goal);
      RunOnItsWay(Apply(s, run[0]), i, run[1..], since, value, goal);
    }
  }

  /** What is left of the lookahead, on the way to `goal`. */
  ghost predicate Follows(f: Federate, g: Federate, goal: nat) {
    g.current >= f.current && g.lookahead == Max(goal, f.lookahead - (g.current - f.current))
  }

  /** After a change of lookahead, in every later run: an increase holds at once; a decrease is paid for
      by the advance of logical time, and is complete when time has advanced by as much. */
  lemma LookaheadFollows(run: seq<Action>, i: nat, la: nat, later: seq<Action>)
    requires Legal([], run) && DisciplinedRun([], run, false) && Enabled(Execute([], run), Do(i, ModifyLookahead(la)))
    requires var s := Apply(Execute([], run), Do(i, ModifyLookahead(la)));
             Legal(s, later) && DisciplinedRun(s, later, false) && KeepsRegulating(s, i, later)
    ensures var before := Execute([], run);
            var e := Execute(Apply(before, Do(i, ModifyLookahead(la))), later);
            i < |e| && Follows(before[i], e[i], la)
  {
    RunKeeps([], run, false);
    ChangedLookahead(Execute([], run), i, la, later);
  }

  lemma ChangedLookahead(before: Federation, i: nat, la: nat, later: seq<Action>)
    requires Safe(before, false) && Enabled(before, Do(i, ModifyLookahead(la)))
    requires var s := Apply(before, Do(i, ModifyLookahead(la)));
             Legal(s, later) && DisciplinedRun(s, later, false) && KeepsRegulating(s, i, later)
    ensures var e := Execute(Apply(before, Do(i, ModifyLookahead(la))), later);
            i < |e| && Follows(before[i], e[i], la)
  {
    StepKeeps(before, Do(i, ModifyLookahead(la)), false);
    ChangeStarts(before[i], la);
    var s := Apply(before, Do(i, ModifyLookahead(la)));
    RunOnItsWay(s, i, later, before[i].current, before[i].lookahead, la);
  }

  // --- Enabling, disabling and leaving ------------------------------------------------------

  /** Without a regulator nobody is held, and every request is decided at once. */
  lemma {:induction false} NobodyHolds(s: Federation, i: nat)
    requires i < |s| && forall m :: 0 <= m < |s| ==> !s[m].regulating
    ensures Lbts(s).Unbounded? && Galt(s, i).Unbounded?
    ensures s[i].pending ==> Candidate(s, i).Some?
  {
    NoBounds(s, i);
  }

  lemma {:induction false} NoBounds(s: Federation, i: nat)
    requires forall m :: 0 <= m < |s| ==> !s[m].regulating
    ensures Lbts(s).Unbounded? && LeastOf(Without(Propagated(s), i)).Unbounded?
  {
    NoLbts(s);
    forall x: int ensures AtLeast(LeastOf(Snapshots(s)), x) { SnapshotsAre(s, x); }
    NoLeast(Snapshots(s));
    NoLeast(Without(Propagated(s), i));
  }

  lemma {:induction false} NoLbts(s: Federation)
    requires forall m :: 0 <= m < |s| ==> !s[m].regulating
    ensures Lbts(s).Unbounded?
  {
    if s != [] { NoLbts(s[..|s| - 1]); }
  }

  lemma {:induction false} NoLeast(bs: seq<Bound>)
    requires forall m :: 0 <= m < |bs| ==> bs[m].Unbounded?
    ensures LeastOf(bs).Unbounded?
  {
    if bs != [] { NoLeast(bs[..|bs| - 1]); }
  }

  /** Disabling regulation takes a federate out of everybody's bound, for good until it asks again. */
  lemma DisablingFrees(s: Federation, i: nat, j: nat, x: int)
    requires Enabled(s, Do(i, DisableRegulation)) && j < |s|
    ensures var s' := Apply(s, Do(i, DisableRegulation));
            && !s'[i].regulating && s'[i].lookahead == 0 && !s'[i].reducing
            && s'[i].joined == s[i].joined && s'[i].current == s[i].current
            && s'[i].constrained == s[i].constrained && s'[i].queue == s[i].queue
            && (Clear(s', x) <==> forall m :: 0 <= m < |s| && m != i && s[m].regulating ==> SendsFrom(s[m], x))
  {
    var s' := Apply(s, Do(i, DisableRegulation));
    if Clear(s', x) {
      forall m | 0 <= m < |s| && m != i && s[m].regulating ensures SendsFrom(s[m], x) { assert s'[m] == s[m]; }
    }
  }

  /** A member that waits for nothing. */
  ghost predicate Idle(f: Federate) { f.joined && !f.pending && !f.regulationPending && !f.constrainedPending }

  /** What an idle federate may ask for: any time that is not past, the roles it does not have, and what
      belongs to those it has. It can leave at any time. */
  lemma RequestsOfIdle(f: Federate, how: Mode, target: nat, la: nat)
    requires Idle(f)
    ensures Admissible(f, RequestAdvance(how, target)) <==> f.current <= target <= FINAL
    ensures la <= FINAL ==> (Admissible(f, RequestRegulation(la)) <==> !f.regulating)
    ensures la <= FINAL ==> (Admissible(f, ModifyLookahead(la)) <==> f.regulating)
    ensures la > FINAL ==> !Admissible(f, RequestRegulation(la)) && !Admissible(f, ModifyLookahead(la))
    ensures Admissible(f, RequestConstrained) <==> !f.constrained
    ensures Admissible(f, DisableRegulation) <==> f.regulating
    ensures Admissible(f, DisableConstrained) <==> f.constrained
    ensures Admissible(f, Resign)
  {}

  /** While a request waits, a second of its kind is refused, and so is every request for a time; while
      a time is waited for, so is every other request. */
  lemma OneRequestAtATime(f: Federate, how: Mode, target: nat, la: nat)
    requires Shape(f)
    ensures !Idle(f) ==> !Admissible(f, RequestAdvance(how, target))
    ensures f.pending || f.regulationPending ==> !Admissible(f, RequestRegulation(la))
    ensures f.pending || f.constrainedPending ==> !Admissible(f, RequestConstrained)
    ensures f.pending ==> !Admissible(f, ModifyLookahead(la))
    ensures f.joined && la <= FINAL && !f.pending ==>
              && (f.regulationPending && !f.constrainedPending && !f.constrained ==> Admissible(f, RequestConstrained))
              && (f.constrainedPending && !f.regulationPending && !f.regulating ==> Admissible(f, RequestRegulation(la)))
              && (f.constrainedPending && f.regulating ==> Admissible(f, ModifyLookahead(la)))
  {}

  /** A federate that has left takes part in nothing, holds nobody and has nothing waiting. */
  lemma ResignedIsGone(s: Federation, i: nat, step: Step)
    requires Enabled(s, Do(i, Resign))
    ensures var f := Apply(s, Do(i, Resign))[i];
            && !Admissible(f, step) && !f.regulating && !f.constrained && f.queue == []
            && forall ts: nat, recipients :: !Enabled(Apply(s, Do(i, Resign)), Send(i, ts, recipients))
  {}

  /** A federate that has joined starts at time zero, free to send, to advance and to ask for either role. */
  lemma JoinedIsFree(s: Federation, la: nat, how: Mode, target: nat)
    requires la <= FINAL && target <= FINAL
    ensures var s' := Apply(s, Join);
            && |s'| == |s| + 1 && s'[..|s|] == s && s'[|s|].current == 0
            && Admissible(s'[|s|], RequestRegulation(la)) && Admissible(s'[|s|], RequestConstrained)
            && Admissible(s'[|s|], RequestAdvance(how, target)) && !s'[|s|].regulating && !s'[|s|].constrained
  {}
}
