/**
 Integer64 arithmetic: in every reachable state every stored time and interval is between zero
 and the final time, so that the server's sums and differences of two of them are the exact
 ones that the model computes with unbounded integers.
 */
module TimeRange {
  import opened Outcomes
  import opened TimeManagement

  ghost predicate Fits(t: Option<nat>) { t.Some? ==> t.value <= FINAL }

  ghost predicate InRange(f: Federate) {
    && f.current <= FINAL && f.requested <= FINAL && f.lookahead <= FINAL && f.regulationLookahead <= FINAL
    && f.lookaheadTarget <= FINAL && f.originTime <= FINAL && f.originValue <= FINAL
    && Fits(f.preserved) && Fits(f.received) && Fits(f.flushMinimum)
    && (forall n :: 0 <= n < |f.queue| ==> f.queue[n] <= FINAL)
  }

  ghost predicate AllInRange(s: Federation) {
    forall i :: 0 <= i < |s| ==> InRange(s[i])
  }

  lemma {:induction false} RegulationTimeInRange(s: Federation, i: nat, la: nat, k: nat, from: nat)
    requires AllInRange(s) && k <= |s| && from <= FINAL
    ensures Fits(RegulationTime(s, i, la, k, from))
    decreases |s| - k
  {
    if k < |s| {
      if k == i || !s[k].constrained {
        RegulationTimeInRange(s, i, la, k + 1, from);
      } else {
        var lower := Frontier(s[k]) - la;
        if !(FrontierClosed(s[k]) && lower >= FINAL) {
          RegulationTimeInRange(s, i, la, k + 1, Max(from, if FrontierClosed(s[k]) then lower + 1 else lower));
        }
      }
    }
  }

  lemma TargetInRange(s: Federation, i: nat)
    requires AllInRange(s) && i < |s|
    ensures Fits(RegulationTarget(s, i))
  {
    var f := s[i];
    RegulationTimeInRange(s, i, f.regulationLookahead, 0, if f.constrained then Frontier(f) else f.current);
  }

  lemma AloneInRange(f: Federate, step: Step)
    requires InRange(f) && Admissible(f, step) && !step.CompleteRegulation? && !step.Grant?
    ensures InRange(Alone(f, step))
  {
    if step.Flush? || step.Release? || step.ReleaseForEnable? {
      RemovalInRange(f, step.k, step.kept);
    } else if step.ModifyLookahead? {
      ModifiedInRange(f, step.interval);
    } else {
      RequestInRange(f, step);
    }
  }

  lemma ModifiedInRange(f: Federate, la: nat)
    requires InRange(f) && la <= FINAL
    ensures InRange(Modified(f, la))
  {
    var g := Modified(f, la);
    assert g.queue == f.queue && g.preserved == f.preserved && g.received == f.received;
    assert g.flushMinimum == f.flushMinimum && g.current == f.current && g.requested == f.requested;
    if la < f.lookahead { assert g.lookahead == f.lookahead; }
  }

  lemma RequestInRange(f: Federate, step: Step)
    requires InRange(f) && Admissible(f, step)
    requires !step.CompleteRegulation? && !step.Grant? && !step.ModifyLookahead?
    requires !step.Flush? && !step.Release? && !step.ReleaseForEnable?
    ensures InRange(Alone(f, step))
  {}

  lemma RemovalInRange(f: Federate, k: nat, kept: bool)
    requires InRange(f) && k < |f.queue|
    ensures InRange(Released(f, k, kept)) && InRange(Flushed(f, k, kept))
  {}

  lemma StepInRange(s: Federation, a: Action)
    requires AllInRange(s) && Enabled(s, a)
    ensures AllInRange(Apply(s, a))
  {
    if a.Do? {
      var f := s[a.who];
      if a.step.CompleteRegulation? {
        TargetInRange(s, a.who);
        assert InRange(Regulating(f, RegulationTarget(s, a.who).value));
      } else if a.step.Grant? {
        assert InRange(Granted(f, Candidate(s, a.who).value));
      } else {
        AloneInRange(f, a.step);
      }
    }
  }

  /** No reachable state leaves the Integer64 range, disciplined or not. */
  lemma {:induction false} RunInRange(s: Federation, run: seq<Action>)
    requires AllInRange(s) && Legal(s, run)
    ensures AllInRange(Execute(s, run))
    decreases |run|
  {
    if run != [] {
      StepInRange(s, run[0]);
      RunInRange(Apply(s, run[0]), run[1..]);
    }
  }
}
