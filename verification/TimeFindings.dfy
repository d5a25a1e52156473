/**
 Two runs in which the promises of time management are broken, one for each of the two
 conditions that the theorems about whole runs ask for.
 */
module TimeFindings {
  import opened Outcomes
  import opened TimeManagement
  import opened TimeHorizons
  import opened TimeCausality
  import opened TimeTheorems

  lemma {:induction false} Extended(s: Federation, run: seq<Action>, a: Action)
    requires Legal(s, run) && Enabled(Execute(s, run), a)
    ensures Legal(s, run + [a]) && Execute(s, run + [a]) == Apply(Execute(s, run), a)
    decreases |run|
  {
    if run == [] {
      assert run + [a] == [a] && [a][1..] == [];
    } else {
      assert (run + [a])[0] == run[0] && (run + [a])[1..] == run[1..] + [a];
      Extended(Apply(s, run[0]), run[1..], a);
    }
  }

  /** The run leads from the empty federation to `s`. */
  ghost predicate Leads(run: seq<Action>, s: Federation) {
    Legal([], run) && Execute([], run) == s
  }

  lemma Then(run: seq<Action>, s: Federation, a: Action) returns (r: seq<Action>)
    requires Leads(run, s) && Enabled(s, a)
    ensures Leads(r, Apply(s, a))
  {
    Extended([], run, a);
    r := run + [a];
  }

  lemma AllJoin(n: nat) returns (run: seq<Action>)
    ensures Leads(run, seq(n, _ => FRESH))
  {
    run := [];
    for k := 0 to n
      invariant Leads(run, seq(k, _ => FRESH))
    {
      run := Then(run, seq(k, _ => FRESH), Join);
      assert seq(k, _ => FRESH) + [FRESH] == seq(k + 1, _ => FRESH);
    }
  }

  const CONSTRAINED := FRESH.(constrained := true)

  lemma Constrain(run: seq<Action>, s: Federation, i: nat) returns (r: seq<Action>)
    requires Leads(run, s) && i < |s| && s[i] == FRESH
    ensures Leads(r, s[i := CONSTRAINED])
  {
    var s1 := s[i := FRESH.(constrainedPending := true)];
    r := Then(run, s, Do(i, RequestConstrained));
    ClearBounds(s1, i, 0);
    r := Then(r, s1, Do(i, CompleteConstrained));
    assert s1[i := CONSTRAINED] == s[i := CONSTRAINED];
  }

  ghost function Asking(f: Federate, m: Mode, t: nat): Federate {
    f.(pending := true, requested := t, mode := m, flushMinimum := None)
  }

  lemma Ask(run: seq<Action>, s: Federation, i: nat, m: Mode, t: nat) returns (r: seq<Action>)
    requires Leads(run, s) && i < |s| && Admissible(s[i], RequestAdvance(m, t))
    ensures Leads(r, s[i := Asking(s[i], m, t)])
  {
    r := Then(run, s, Do(i, RequestAdvance(m, t)));
  }

  /** A grant that nothing holds back. */
  lemma GrantAt(run: seq<Action>, s: Federation, i: nat, t: nat) returns (r: seq<Action>)
    requires Leads(run, s) && i < |s| && s[i].joined && s[i].pending && s[i].constrained && s[i].mode != FQR
    requires t == if NextMessage(s[i].mode) && s[i].flushMinimum.Some? && s[i].current <= s[i].flushMinimum.value < s[i].requested
                  then s[i].flushMinimum.value else s[i].requested
    requires s[i].queue == [] && Clear(s, if Strict(s[i].mode) then t + 1 else t)
    ensures Leads(r, s[i := Granted(s[i], t)])
  {
    ClearBounds(s, i, if Strict(s[i].mode) then t + 1 else t);
    assert Candidate(s, i) == Some(t);
    assert Timely(s, i, Grant);
    r := Then(run, s, Do(i, Grant));
  }

  /** Regulation enabled at a time that suits every peer. */
  lemma Regulate(run: seq<Action>, s: Federation, i: nat, la: nat, t: nat) returns (r: seq<Action>)
    requires Leads(run, s) && i < |s| && Admissible(s[i], RequestRegulation(la)) && s[i].queue == []
    requires t == if s[i].constrained then Frontier(s[i]) else s[i].current
    requires forall j :: 0 <= j < |s| && j != i && s[j].constrained ==> Opens(s[j], true) <= t + la && Frontier(s[j]) < FINAL
    requires Clear(s, t)
    ensures Leads(r, s[i := Regulating(s[i].(regulationPending := true, regulationLookahead := la), t)])
  {
    var f := s[i].(regulationPending := true, regulationLookahead := la);
    var s1 := s[i := f];
    r := Then(run, s, Do(i, RequestRegulation(la)));
    UnhurriedTime(s1, i, la, 0, t);
    forall m | 0 <= m < |s1| && s1[m].regulating ensures SendsFrom(s1[m], t) { assert s1[m] == s[m]; }
    ClearBounds(s1, i, t);
    assert RegulationTarget(s1, i) == Some(t);
    r := Then(r, s1, Do(i, CompleteRegulation));
    assert s1[i := Regulating(f, t)] == s[i := Regulating(f, t)];
  }

  lemma {:induction false} UnhurriedTime(s: Federation, i: nat, la: nat, k: nat, t: nat)
    requires k <= |s|
    requires forall j :: 0 <= j < |s| && j != i && s[j].constrained ==> Opens(s[j], true) <= t + la && Frontier(s[j]) < FINAL
    ensures RegulationTime(s, i, la, k, t) == Some(t)
    decreases |s| - k
  {
    if k < |s| { UnhurriedTime(s, i, la, k + 1, t); }
  }

  lemma Post(run: seq<Action>, s: Federation, i: nat, ts: nat, j: nat) returns (r: seq<Action>)
    requires Leads(run, s) && i < |s| && s[i].joined && ts <= FINAL && Accepts(s[i], ts)
    requires j < |s| && j != i && s[j].constrained
    ensures Leads(r, s[j := s[j].(queue := s[j].queue + [ts])])
  {
    r := Then(run, s, Send(i, ts, {j}));
    assert Deliver(s, ts, {j}) == s[j := s[j].(queue := s[j].queue + [ts])];
  }

  // --- An unchecked sender ------------------------------------------------------------------

  /** A federate that does not regulate puts timestamp 3 into the queue of a constrained federate
      that has been granted time 5. */
  lemma UncheckedSenderBreaksCausality() returns (run: seq<Action>)
    ensures Legal([], run)
    ensures var s := Execute([], run);
            |s| == 2 && s[0].constrained && s[0].current == 5 && s[0].queue == [3]
  {
    run := AllJoin(2);
    var s0: Federation := [FRESH, FRESH];
    assert seq(2, _ => FRESH) == s0;
    run := Constrain(run, s0, 0);
    var s1 := s0[0 := CONSTRAINED];
    run := Ask(run, s1, 0, TAR, 5);
    var s2 := s1[0 := Asking(CONSTRAINED, TAR, 5)];
    run := GrantAt(run, s2, 0, 5);
    var s3 := s2[0 := Granted(s2[0], 5)];
    run := Post(run, s3, 1, 3, 0);
  }

  // --- A reopened time ----------------------------------------------------------------------

  /** The only queued message goes out to a federate that waits for its next message. */
  lemma ReleaseOnly(run: seq<Action>, s: Federation, i: nat, ts: nat) returns (r: seq<Action>)
    requires Leads(run, s) && i < |s| && s[i].joined && s[i].pending && s[i].constrained && s[i].mode == NMRA
    requires s[i].queue == [ts] && s[i].flushMinimum.None? && s[i].received.None?
    requires s[i].current <= ts < s[i].requested && Clear(s, ts)
    ensures Leads(r, s[i := s[i].(queue := [], flushMinimum := Some(ts), received := Some(ts), log := s[i].log + [ts])])
  {
    ClearBounds(s, i, ts);
    NextIs(s[i]);
    assert s[i].queue[0] == ts;
    assert NextGrantMessage(s[i]) == Some(ts);
    assert Candidate(s, i) == Some(ts);
    assert Timely(s, i, Release(0, true));
    r := Then(run, s, Do(i, Release(0, true)));
    assert Drop([ts], 0) == [];
  }

  const STEADY := FRESH.(regulating := true, lookahead := 10, regulationLookahead := 10)
  const PARTNER := FRESH.(constrained := true, regulating := true)
  const WAITING := PARTNER.(pending := true, requested := 100, mode := NMRA)

  /** A steady regulator, and one with zero lookahead that waits for its next message. */
  lemma Setting() returns (run: seq<Action>)
    ensures Leads(run, [CONSTRAINED, WAITING, STEADY])
  {
    run := AllJoin(3);
    var s0: Federation := [FRESH, FRESH, FRESH];
    assert seq(3, _ => FRESH) == s0;
    run := Regulate(run, s0, 2, 10, 0);
    assert s0[2 := STEADY] == [FRESH, FRESH, STEADY];
    run := Constrain(run, [FRESH, FRESH, STEADY], 1);
    var s1: Federation := [FRESH, CONSTRAINED, STEADY];
    assert [FRESH, FRESH, STEADY][1 := CONSTRAINED] == s1;
    run := Regulate(run, s1, 1, 0, 0);
    assert s1[1 := PARTNER] == [FRESH, PARTNER, STEADY];
    run := Ask(run, [FRESH, PARTNER, STEADY], 1, NMRA, 100);
    assert [FRESH, PARTNER, STEADY][1 := WAITING] == [FRESH, WAITING, STEADY];
    run := Constrain(run, [FRESH, WAITING, STEADY], 0);
    assert [FRESH, WAITING, STEADY][0 := CONSTRAINED] == [CONSTRAINED, WAITING, STEADY];
  }

  const AT5 := CONSTRAINED.(current := 5, requested := 5, strict := true, preserved := Some(5))
  const REOPENED := AT5.(regulating := true, strict := false)

  lemma Reopening() returns (run: seq<Action>)
    ensures Leads(run, [REOPENED, WAITING, STEADY])
  {
    run := Setting();
    var s0: Federation := [CONSTRAINED, WAITING, STEADY];
    run := Ask(run, s0, 0, TAR, 5);
    var s1: Federation := [Asking(CONSTRAINED, TAR, 5), WAITING, STEADY];
    assert s0[0 := Asking(CONSTRAINED, TAR, 5)] == s1;
    run := GrantAt(run, s1, 0, 5);
    var s2: Federation := [AT5, WAITING, STEADY];
    assert s1[0 := Granted(s1[0], 5)] == s2;
    run := Regulate(run, s2, 0, 0, 5);
    assert s2[0 := REOPENED] == [REOPENED, WAITING, STEADY];
  }

  /** Federate 0 is granted time 5 by a time-advance request, so time 5 is closed for it. It then
      enables regulation with zero lookahead, sends at time 5, and is answered at time 5. */
  lemma ReopenedTimeBreaksStrictness() returns (run: seq<Action>)
    ensures Legal([], run)
    ensures var s := Execute([], run);
            |s| == 3 && s[0].constrained && s[0].preserved == Some(5) && s[0].queue == [5]
  {
    run := Reopening();
    var s0: Federation := [REOPENED, WAITING, STEADY];
    run := Post(run, s0, 0, 5, 1);
    var w1 := WAITING.(queue := [5]);
    assert [] + [5 as nat] == [5];
    var s1: Federation := [REOPENED, w1, STEADY];
    assert s0[1 := w1] == s1;
    assert FloorAfter(w1, 5) == 5 && Floor(w1) == 100;
    run := ReleaseOnly(run, s1, 1, 5);
    var w2 := WAITING.(flushMinimum := Some(5), received := Some(5), log := [5]);
    var s2: Federation := [REOPENED, w2, STEADY];
    assert s1[1 := w2] == s2;
    assert FloorAfter(w2, 5) == 5 && Floor(w2) == 100;
    run := GrantAt(run, s2, 1, 5);
    var s3: Federation := [REOPENED, Granted(w2, 5), STEADY];
    assert s2[1 := Granted(w2, 5)] == s3;
    run := Post(run, s3, 1, 5, 0);
  }
}
