/**
 The results about whole runs of the server's time management: causality, ordered delivery,
 the strict promise of a time-advance grant, and progress.
 */
module TimeTheorems {
  import opened Outcomes
  import opened TimeManagement
  import opened TimeHorizons
  import opened TimeRange
  import opened TimeCausality

  /** What a run must observe. Timestamped messages come from regulating federates, because the
      server does not check anybody else's timestamps. For the strict promise, regulation is not
      enabled with zero lookahead at a time that a strict grant has just closed. */
  ghost predicate Disciplined(s: Federation, a: Action, strict: bool)
    requires Enabled(s, a)
  {
    && (a.Send? ==> s[a.who].regulating)
    && (strict && a.Do? && a.step.CompleteRegulation? ==>
          !ReopensClosedTime(s[a.who], RegulationTarget(s, a.who).value))
  }

  ghost predicate ReopensClosedTime(f: Federate, at: nat) {
    f.constrained && f.regulationLookahead == 0 && f.preserved == Some(at)
  }

  // --- One step -----------------------------------------------------------------------------

  lemma Replacing(s: Federation, i: nat, g: Federate, strict: bool)
    requires Safe(s, strict) && i < |s| && Sound(g, strict)
    requires g.constrained ==>
               forall m :: 0 <= m < |s| && m != i && s[m].regulating ==> SendsFrom(s[m], Opens(g, strict))
    requires g.regulating ==>
               forall j :: 0 <= j < |s| && j != i && s[j].constrained ==> SendsFrom(g, Opens(s[j], strict))
    ensures Safe(s[i := g], strict)
  {}

  lemma StepQuiet(s: Federation, i: nat, step: Step, strict: bool)
    requires Safe(s, strict) && Enabled(s, Do(i, step)) && Quiet(step)
    ensures Safe(Apply(s, Do(i, step)), strict)
  {
    var g := Alone(s[i], step);
    QuietSound(s[i], step, strict);
    if g.regulating {
      forall j | 0 <= j < |s| && j != i && s[j].constrained ensures SendsFrom(g, Opens(s[j], strict)) {
        QuietSends(s[i], step, strict, Opens(s[j], strict));
      }
    }
    Replacing(s, i, g, strict);
  }

  /** The bound a constrained federate's grant is decided with. */
  ghost function GrantBound(s: Federation, i: nat): Bound { Least(Lbts(s), Galt(s, i)) }

  lemma CandidateAtLeast(s: Federation, i: nat, x: int)
    requires i < |s| && AtLeast(GrantBound(s, i), x)
    ensures forall m :: 0 <= m < |s| && m != i && s[m].regulating ==> SendsFrom(s[m], x)
  {
    GaltClears(s, i, x);
  }

  lemma StepGrant(s: Federation, i: nat, strict: bool)
    requires Safe(s, strict) && Enabled(s, Do(i, Grant))
    ensures Safe(Apply(s, Do(i, Grant)), strict)
    ensures s[i].constrained ==> Opens(Apply(s, Do(i, Grant))[i], strict) >= Opens(s[i], strict)
  {
    var f, t, bound := s[i], Candidate(s, i).value, GrantBound(s, i);
    var g := Granted(f, t);
    GrantSound(f, bound, t, strict);
    if g.constrained && Opens(g, strict) != Opens(f, strict) {
      CandidateAtLeast(s, i, Opens(g, strict));
    }
    if g.regulating {
      forall j | 0 <= j < |s| && j != i && s[j].constrained ensures SendsFrom(g, Opens(s[j], strict)) {
        SafeIsClear(s, strict, j);
        ClearBounds(s, i, Opens(s[j], strict));
        GrantSends(f, bound, t, Opens(s[j], strict));
      }
    }
    Replacing(s, i, g, strict);
  }

  /** How far the server releases messages for a pending request. */
  lemma ReleaseLimit(f: Federate, bound: Bound, t: nat)
    requires Sound(f, false) && f.pending && f.constrained && f.mode != FQR
    requires Decide(f.mode, f.current, f.requested, bound, NextGrantMessage(f)) == Some(t)
    ensures AtLeast(bound, t) && t <= f.requested
    ensures NextMessage(f.mode) && f.flushMinimum.Some? ==> t <= f.flushMinimum.value
  {
    DecisionIs(f, bound, t);
  }

  lemma SoundWeakens(f: Federate)
    requires Sound(f, true)
    ensures Sound(f, false)
  {}

  lemma StepReleased(s: Federation, i: nat, k: nat, kept: bool, limit: nat, strict: bool)
    requires Safe(s, strict) && i < |s| && MayRelease(s[i], k, limit)
    requires forall m :: 0 <= m < |s| && m != i && s[m].regulating ==> SendsFrom(s[m], limit)
    ensures Safe(s[i := Released(s[i], k, kept)], strict)
  {
    var f, g := s[i], Released(s[i], k, kept);
    ReleaseSound(f, k, kept, limit, strict);
    forall m | 0 <= m < |s| && m != i && s[m].regulating ensures SendsFrom(s[m], Opens(g, strict)) {
      if kept { SendsDown(s[m], limit, f.queue[k]); }
    }
    if g.regulating {
      forall j | 0 <= j < |s| && j != i && s[j].constrained ensures SendsFrom(g, Opens(s[j], strict)) {
        ReleaseSends(f, k, kept, Opens(s[j], strict));
      }
    }
    Replacing(s, i, g, strict);
  }

  lemma SendsDown(f: Federate, x: int, y: int)
    requires SendsFrom(f, x) && y <= x
    ensures SendsFrom(f, y)
  {}

  lemma StepRelease(s: Federation, i: nat, k: nat, kept: bool, strict: bool)
    requires Safe(s, strict) && Enabled(s, Do(i, Release(k, kept)))
    ensures Safe(Apply(s, Do(i, Release(k, kept))), strict)
  {
    var f, t := s[i], Candidate(s, i).value;
    if strict { SoundWeakens(f); }
    ReleaseLimit(f, GrantBound(s, i), t);
    CandidateAtLeast(s, i, t);
    StepReleased(s, i, k, kept, t, strict);
  }

  lemma RegulationTargetIs(s: Federation, i: nat, strict: bool)
    requires i < |s| && RegulationTarget(s, i).Some?
    ensures RegulationTarget(s, i).value >= (if s[i].constrained then Frontier(s[i]) else s[i].current)
    ensures forall j :: 0 <= j < |s| && j != i && s[j].constrained ==>
              RegulationTarget(s, i).value + s[i].regulationLookahead >= Opens(s[j], strict)
    ensures s[i].constrained ==>
              forall m :: 0 <= m < |s| && m != i && s[m].regulating ==> SendsFrom(s[m], RegulationTarget(s, i).value)
  {
    var f, t := s[i], RegulationTarget(s, i).value;
    var from := if f.constrained then Frontier(f) else f.current;
    RegulationTimeIs(s, i, f.regulationLookahead, 0, from, 0, strict);
    forall j | 0 <= j < |s| && j != i && s[j].constrained ensures t + f.regulationLookahead >= Opens(s[j], strict) {
      RegulationTimeIs(s, i, f.regulationLookahead, 0, from, j, strict);
    }
    if f.constrained { GaltClears(s, i, t); }
  }

  lemma StepReleaseForEnable(s: Federation, i: nat, k: nat, kept: bool, strict: bool)
    requires Safe(s, strict) && Enabled(s, Do(i, ReleaseForEnable(k, kept)))
    ensures Safe(Apply(s, Do(i, ReleaseForEnable(k, kept))), strict)
  {
    RegulationTargetIs(s, i, strict);
    StepReleased(s, i, k, kept, RegulationTarget(s, i).value, strict);
  }

  lemma StepRegulation(s: Federation, i: nat, strict: bool)
    requires Safe(s, strict) && Enabled(s, Do(i, CompleteRegulation))
    requires strict ==> !ReopensClosedTime(s[i], RegulationTarget(s, i).value)
    ensures Safe(Apply(s, Do(i, CompleteRegulation)), strict)
  {
    var f, t := s[i], RegulationTarget(s, i).value;
    var g := Regulating(f, t);
    RegulationTargetIs(s, i, strict);
    RegulatingSound(f, t, strict);
    Replacing(s, i, g, strict);
  }

  lemma StepConstrained(s: Federation, i: nat, strict: bool)
    requires Safe(s, strict) && Enabled(s, Do(i, CompleteConstrained))
    ensures Safe(Apply(s, Do(i, CompleteConstrained)), strict)
  {
    var f := s[i];
    var g := Alone(f, CompleteConstrained);
    ConstrainedSound(f, strict);
    GaltClears(s, i, f.current);
    if g.regulating {
      forall j | 0 <= j < |s| && j != i && s[j].constrained ensures SendsFrom(g, Opens(s[j], strict)) {
        assert SendsFrom(f, Opens(s[j], strict));
      }
    }
    Replacing(s, i, g, strict);
  }

  /** A regulator's message reaches every constrained recipient in time. */
  lemma SendInTime(s: Federation, i: nat, ts: nat, j: nat, strict: bool)
    requires Safe(s, strict) && i < |s| && s[i].regulating && ts <= FINAL && Accepts(s[i], ts)
    requires j < |s| && s[j].constrained
    ensures ts >= Opens(s[j], strict)
  {
    SafeIsClear(s, strict, j);
    ValidationMatchesHorizon(s[i], ts);
  }

  lemma ArrivalSound(f: Federate, ts: nat, strict: bool)
    requires Sound(f, strict) && f.constrained && ts >= Opens(f, strict)
    ensures Sound(f.(queue := f.queue + [ts]), strict)
    ensures Opens(f.(queue := f.queue + [ts]), strict) == Opens(f, strict)
  {
    var g := f.(queue := f.queue + [ts]);
    assert Frontier(g) == Frontier(f) && FrontierClosed(g) == FrontierClosed(f);
    assert Shape(g) && Reduction(g) && Progress(g) && Ordered(g);
  }

  lemma StepSend(s: Federation, i: nat, ts: nat, recipients: set<nat>, strict: bool)
    requires Safe(s, strict) && Enabled(s, Send(i, ts, recipients)) && s[i].regulating
    ensures Safe(Deliver(s, ts, recipients), strict)
  {
    var s' := Deliver(s, ts, recipients);
    forall j | 0 <= j < |s| && s[j].constrained ensures ts >= Opens(s[j], strict) {
      SendInTime(s, i, ts, j, strict);
    }
    forall j | 0 <= j < |s|
      ensures Sound(s'[j], strict) && Opens(s'[j], strict) == Opens(s[j], strict)
      ensures s'[j].constrained == s[j].constrained && s'[j].regulating == s[j].regulating
    {
      if j in recipients && s[j].constrained { ArrivalSound(s[j], ts, strict); }
    }
    forall m, j | 0 <= m < |s| && 0 <= j < |s| && m != j && s'[m].regulating && s'[j].constrained
      ensures SendsFrom(s'[m], Opens(s'[j], strict))
    {
      assert SendsFrom(s[m], Opens(s[j], strict));
      if m in recipients && s[m].constrained {
        assert ts >= s[m].current;
        ArrivalFloor(s[m], ts, Opens(s[j], strict));
      }
    }
  }

  /** Every step of the server keeps the federation safe. */
  lemma StepKeeps(s: Federation, a: Action, strict: bool)
    requires Safe(s, strict) && Enabled(s, a) && Disciplined(s, a, strict)
    ensures Safe(Apply(s, a), strict)
  {
    if a.Join? {
      assert Sound(FRESH, strict);
    } else if a.Send? {
      StepSend(s, a.who, a.timestamp, a.recipients, strict);
    } else if a.step.Grant? {
      StepGrant(s, a.who, strict);
    } else if a.step.Release? {
      StepRelease(s, a.who, a.step.k, a.step.kept, strict);
    } else if a.step.ReleaseForEnable? {
      StepReleaseForEnable(s, a.who, a.step.k, a.step.kept, strict);
    } else if a.step.CompleteRegulation? {
      StepRegulation(s, a.who, strict);
    } else if a.step.CompleteConstrained? {
      StepConstrained(s, a.who, strict);
    } else {
      StepQuiet(s, a.who, a.step, strict);
    }
  }

  // --- Whole runs ---------------------------------------------------------------------------

  ghost predicate DisciplinedRun(s: Federation, run: seq<Action>, strict: bool)
    requires Legal(s, run)
    decreases |run|
  {
    run == [] || (Disciplined(s, run[0], strict) && DisciplinedRun(Apply(s, run[0]), run[1..], strict))
  }

  /** Every run, from a federation nobody has joined yet on, keeps the federation safe. */
  lemma {:induction false} RunKeeps(s: Federation, run: seq<Action>, strict: bool)
    requires Safe(s, strict) && Legal(s, run) && DisciplinedRun(s, run, strict)
    ensures Safe(Execute(s, run), strict)
    decreases |run|
  {
    if run != [] {
      StepKeeps(s, run[0], strict);
      RunKeeps(Apply(s, run[0]), run[1..], strict);
    }
  }

  /** Causality: in every reachable state nothing that waits for a constrained federate lies
      before its logical time, what it was given in timestamp order was in timestamp order, and
      nothing that waits precedes something already given. */
  lemma Causality(run: seq<Action>, j: nat)
    requires Legal([], run) && DisciplinedRun([], run, false)
    requires j < |Execute([], run)| && Execute([], run)[j].constrained
    ensures var f := Execute([], run)[j];
            && (forall n :: 0 <= n < |f.queue| ==> f.queue[n] >= f.current)
            && (forall m, n :: 0 <= m < n < |f.log| ==> f.log[m] <= f.log[n])
            && (forall m, n :: 0 <= m < |f.log| && 0 <= n < |f.queue| ==> f.log[m] <= f.queue[n])
  {
    RunKeeps([], run, false);
    var f := Execute([], run)[j];
    assert Sound(f, false);
  }

  ghost predicate StaysConstrained(s: Federation, run: seq<Action>, j: nat)
    requires Legal(s, run)
    decreases |run|
  {
    && j < |s| && s[j].constrained
    && (run == [] || StaysConstrained(Apply(s, run[0]), run[1..], j))
  }

  /** Everything after `since` on the log. */
  ghost predicate DeliveredFrom(log: seq<nat>, since: nat, x: int) {
    since <= |log| && forall n :: since <= n < |log| ==> log[n] >= x
  }

  /** The opening is not taken back, and nothing from before it was delivered in between. */
  ghost predicate Grows(f: Federate, g: Federate, strict: bool) {
    && Opens(g, strict) >= Opens(f, strict)
    && f.log <= g.log
    && DeliveredFrom(g.log, |f.log|, Opens(f, strict))
  }

  lemma ReleaseGrows(f: Federate, k: nat, kept: bool, limit: nat, strict: bool)
    requires Sound(f, strict) && MayRelease(f, k, limit)
    ensures Grows(f, Released(f, k, kept), strict)
  {
    ReleaseSound(f, k, kept, limit, strict);
    var g := Released(f, k, kept);
    assert f.queue[k] >= Opens(f, strict);
    assert g.log == if kept then f.log + [f.queue[k]] else f.log;
  }

  lemma OwnStepGrows(s: Federation, j: nat, step: Step, strict: bool)
    requires Safe(s, strict) && Enabled(s, Do(j, step)) && Disciplined(s, Do(j, step), strict) && s[j].constrained
    ensures Next(s, j, step).constrained ==> Grows(s[j], Next(s, j, step), strict)
  {
    var f := s[j];
    if step.Grant? {
      GrantSound(f, GrantBound(s, j), Candidate(s, j).value, strict);
    } else if step.Release? {
      if strict { SoundWeakens(f); }
      ReleaseLimit(f, GrantBound(s, j), Candidate(s, j).value);
      ReleaseGrows(f, step.k, step.kept, Candidate(s, j).value, strict);
    } else if step.ReleaseForEnable? {
      ReleaseGrows(f, step.k, step.kept, RegulationTarget(s, j).value, strict);
    } else if step.CompleteRegulation? {
      RegulationTargetIs(s, j, strict);
      RegulatingSound(f, RegulationTarget(s, j).value, strict);
    } else if Quiet(step) && Alone(f, step).constrained {
      QuietGrows(f, step, strict);
    }
  }

  lemma QuietGrows(f: Federate, step: Step, strict: bool)
    requires Sound(f, strict) && Admissible(f, step) && Quiet(step) && Alone(f, step).constrained
    ensures Grows(f, Alone(f, step), strict)
  {
    QuietSound(f, step, strict);
    assert Alone(f, step).log == f.log;
  }

  /** One step never takes an opening back, and delivers nothing from before it. */
  lemma StepGrows(s: Federation, a: Action, j: nat, strict: bool)
    requires Safe(s, strict) && Enabled(s, a) && Disciplined(s, a, strict)
    requires j < |s| && s[j].constrained
    ensures |Apply(s, a)| >= |s|
    ensures Apply(s, a)[j].constrained ==> Grows(s[j], Apply(s, a)[j], strict)
  {
    if a.Do? && a.who == j {
      OwnStepGrows(s, j, a.step, strict);
    } else if a.Send? {
      var f, g := s[j], Apply(s, a)[j];
      assert Frontier(g) == Frontier(f) && FrontierClosed(g) == FrontierClosed(f);
    }
  }

  /** What a constrained federate was promised once is kept for the rest of the run. */
  lemma {:induction false} LaterDeliveries(s: Federation, run: seq<Action>, j: nat, strict: bool)
    requires Safe(s, strict) && Legal(s, run) && DisciplinedRun(s, run, strict) && StaysConstrained(s, run, j)
    ensures var e := Execute(s, run);
            && j < |e| && e[j].constrained
            && Opens(e[j], strict) >= Opens(s[j], strict)
            && s[j].log <= e[j].log
            && DeliveredFrom(e[j].log, |s[j].log|, Opens(s[j], strict))
            && (forall n :: 0 <= n < |e[j].queue| ==> e[j].queue[n] >= Opens(s[j], strict))
    decreases |run|
  {
    if run == [] {
      assert Sound(s[j], strict);
    } else {
      var s' := Apply(s, run[0]);
      StepGrows(s, run[0], j, strict);
      StepKeeps(s, run[0], strict);
      LaterDeliveries(s', run[1..], j, strict);
      var e := Execute(s', run[1..]);
      forall n | |s[j].log| <= n < |e[j].log| ensures e[j].log[n] >= Opens(s[j], strict) {
        if n < |s'[j].log| { assert e[j].log[n] == s'[j].log[n]; }
      }
    }
  }

  /** The promise of clause 8.13 for time-advance and next-message grants: after a grant at `t`
      nothing with a timestamp at or before `t` is ever queued for, or given to, the federate. */
  lemma StrictGrantClosesTheTime(run: seq<Action>, j: nat, later: seq<Action>)
    requires Legal([], run) && DisciplinedRun([], run, true)
    requires var s := Execute([], run); Enabled(s, Do(j, Grant)) && s[j].constrained && Strict(s[j].mode)
    requires var s' := Apply(Execute([], run), Do(j, Grant));
             Legal(s', later) && DisciplinedRun(s', later, true) && StaysConstrained(s', later, j)
    ensures var s := Execute([], run);
            var s' := Apply(s, Do(j, Grant));
            var e := Execute(s', later);
            var t := Candidate(s, j).value;
            && j < |e|
            && (forall n :: 0 <= n < |e[j].queue| ==> e[j].queue[n] > t)
            && DeliveredFrom(e[j].log, |s'[j].log|, t + 1)
  {
    RunKeeps([], run, true);
    var s := Execute([], run);
    var s' := Apply(s, Do(j, Grant));
    StepGrant(s, j, true);
    LaterDeliveries(s', later, j, true);
    GrantedOpens(s, j);
  }

  lemma GrantedOpens(s: Federation, j: nat)
    requires Safe(s, true) && Enabled(s, Do(j, Grant)) && s[j].constrained && Strict(s[j].mode)
    ensures Opens(Apply(s, Do(j, Grant))[j], true) == Candidate(s, j).value + 1
  {
    DecisionIs(s[j], GrantBound(s, j), Candidate(s, j).value);
    GrantSound(s[j], GrantBound(s, j), Candidate(s, j).value, true);
  }

  // --- Where the promises end ---------------------------------------------------------------

  /** The server's check guarantees timeliness exactly for regulating senders: anybody else may
      still use the first timestamps once the receiver has left them behind. */
  lemma TimelyExactlyWhenRegulating(s: Federation, i: nat, j: nat, strict: bool)
    requires Safe(s, strict) && i < |s| && j < |s| && s[j].constrained
    ensures (forall ts: nat :: ts <= FINAL && Accepts(s[i], ts) ==> ts >= Opens(s[j], strict)) <==>
            s[i].regulating || Opens(s[j], strict) == 0
  {
    if s[i].regulating {
      forall ts: nat | ts <= FINAL && Accepts(s[i], ts) ensures ts >= Opens(s[j], strict) {
        SendInTime(s, i, ts, j, strict);
      }
    } else {
      assert Accepts(s[i], 0);
    }
  }

  /** Enabling regulation keeps the strict promise exactly unless it reopens a closed time. */
  lemma RegulationKeepsStrictness(s: Federation, i: nat)
    requires Safe(s, true) && Enabled(s, Do(i, CompleteRegulation)) && s[i].constrained
    requires AllInRange(s)
    ensures var s' := Apply(s, Do(i, CompleteRegulation));
            && (Safe(s', true) <==> !ReopensClosedTime(s[i], RegulationTarget(s, i).value))
            && (SendsFrom(s'[i], Opens(s'[i], true)) <==> !ReopensClosedTime(s[i], RegulationTarget(s, i).value))
  {
    var f, t := s[i], RegulationTarget(s, i).value;
    var g := Regulating(f, t);
    RegulationTargetIs(s, i, true);
    TargetInRange(s, i);
    if ReopensClosedTime(f, t) {
      assert !InStep(g);
      assert Floor(g) == t && Opens(g, true) == t + 1;
    } else {
      StepRegulation(s, i, true);
      OwnFloor(g, true);
    }
  }
}
