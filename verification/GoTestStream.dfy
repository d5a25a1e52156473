/**
 The acceptor of `go test -json` output in the quality gate. It walks the lines once with a
 package state, a state per test and a growing list of errors; the result here is the exact
 language of the outputs it passes, stated without its automaton.
 */
module GoTestStream {

  type Test = string

  datatype Action = Start | Run | Pause | Cont | Output | Pass | Fail | Skip | Unknown

  datatype TestField = Package | Named(test: Test) | Invalid

  /** A line of output after decoding: blank, not a JSON object, or an event. */
  datatype Line =
    | Blank
    | Garbage
    | Event(action: Action, samePackage: bool, test: TestField, hasText: bool)

  datatype Complaint = ExitCode | Unsuccessful(number: nat) | BadLine(number: nat) | NotPassed | Missing

  // --- The language -------------------------------------------------------------------------

  datatype Move = Opens | Closes | Step(test: Test, action: Action)

  /** A line that is well formed for the package and reports no failure. */
  predicate Proper(l: Line) {
    l.Blank? ||
    (l.Event? && l.samePackage && !l.test.Invalid? && l.action != Unknown && l.action != Fail && l.action != Skip
     && (l.action == Output ==> l.hasText)
     && (l.action != Output && l.test == Package ==> l.action == Start || l.action == Pass)
     && (l.action != Output && l.test.Named? ==> l.action != Start))
  }

  /** What a proper line does to a lifecycle; output does nothing. */
  function MoveOf(l: Line): seq<Move> {
    if !l.Event? || l.action == Output then []
    else if l.test.Named? then [Step(l.test.test, l.action)]
    else if l.action == Start then [Opens] else [Closes]
  }

  function Moves(lines: seq<Line>): seq<Move> {
    if lines == [] then [] else Moves(lines[..|lines| - 1]) + MoveOf(lines[|lines| - 1])
  }

  /** The actions of one test, in order. */
  function Projection(moves: seq<Move>, t: Test): seq<Action> {
    if moves == [] then []
    else
      var m := moves[|moves| - 1];
      Projection(moves[..|moves| - 1], t) + if m.Step? && m.test == t then [m.action] else []
  }

  /** run (pause cont)* pass */
  ghost predicate Lifecycle(p: seq<Action>) {
    && |p| >= 2 && |p| % 2 == 0 && p[0] == Run && p[|p| - 1] == Pass
    && forall i :: 0 < i < |p| - 1 ==> p[i] == if i % 2 == 1 then Pause else Cont
  }

  ghost predicate OnlySteps(moves: seq<Move>) { forall i :: 0 <= i < |moves| ==> moves[i].Step? }

  ghost predicate Occurs(moves: seq<Move>, t: Test) { Projection(moves, t) != [] }

  /** One package start before and one package pass after all test moves, and a whole lifecycle
      for every test that occurs. */
  ghost predicate Complete(moves: seq<Move>) {
    && |moves| >= 2 && moves[0] == Opens && moves[|moves| - 1] == Closes
    && OnlySteps(moves[1..|moves| - 1])
    && forall t :: Occurs(moves, t) ==> Lifecycle(Projection(moves, t))
  }

  ghost predicate AllProper(lines: seq<Line>) { forall i :: 0 <= i < |lines| ==> Proper(lines[i]) }

  /** The outputs that are to pass. */
  ghost predicate Accepts(lines: seq<Line>, returncode: int, required: set<Test>) {
    && returncode == 0 && AllProper(lines) && Complete(Moves(lines))
    && forall t :: t in required ==> Occurs(Moves(lines), t)
  }

  // --- Prefixes of the language -------------------------------------------------------------

  /** A beginning of a lifecycle. */
  ghost predicate Begun(p: seq<Action>) {
    forall i :: 0 <= i < |p| ==>
      if i == 0 then p[i] == Run
      else if i % 2 == 0 then p[i] == Cont
      else p[i] == Pause || (p[i] == Pass && i == |p| - 1)
  }

  ghost predicate Passed(p: seq<Action>) { p != [] && p[|p| - 1] == Pass }

  lemma LifecycleIs(p: seq<Action>)
    ensures Lifecycle(p) <==> Begun(p) && Passed(p)
  {
    if Begun(p) && Passed(p) {
      assert |p| % 2 == 0;
      forall i | 0 < i < |p| - 1 ensures p[i] == if i % 2 == 1 then Pause else Cont {}
    }
  }

  /** What may come next in a lifecycle. */
  lemma BegunNext(p: seq<Action>, a: Action)
    ensures Begun(p + [a]) <==> Begun(p) && !Passed(p) &&
                                (if p == [] then a == Run else if |p| % 2 == 0 then a == Cont else a == Pause || a == Pass)
  {
    var q := p + [a];
    if Begun(q) {
      forall i | 0 <= i < |p|
        ensures if i == 0 then p[i] == Run else if i % 2 == 0 then p[i] == Cont else p[i] == Pause
      {
        assert q[i] == p[i];
      }
      assert q[|p|] == a;
    }
  }

  /** What the states record of a test. */
  ghost predicate Recorded(p: seq<Action>, states: map<Test, Action>, t: Test) {
    && (t in states <==> p != [])
    && (p != [] ==> states[t] == if Passed(p) then Pass else if |p| % 2 == 1 then Run else Pause)
  }

  datatype Phase = Unstarted | Started | Ended(action: Action)

  /** The acceptor's variables after a clean prefix. */
  ghost predicate Tracks(moves: seq<Move>, phase: Phase, states: map<Test, Action>) {
    && (forall t :: Begun(Projection(moves, t)) && Recorded(Projection(moves, t), states, t))
    && match phase
       case Unstarted => moves == []
       case Started => moves != [] && moves[0] == Opens && OnlySteps(moves[1..])
       case Ended(a) => a == Pass && Complete(moves)
  }

  /** A beginning of an accepted output. */
  ghost predicate Viable(moves: seq<Move>) {
    && (forall t :: Begun(Projection(moves, t)))
    && (moves == [] || (moves[0] == Opens && OnlySteps(moves[1..])) || Complete(moves))
  }

  lemma CompleteViable(moves: seq<Move>)
    requires Complete(moves)
    ensures Viable(moves)
  {
    forall t ensures Begun(Projection(moves, t)) {
      if Occurs(moves, t) { LifecycleIs(Projection(moves, t)); }
    }
  }

  lemma ProjectionPush(moves: seq<Move>, m: Move, t: Test)
    ensures Projection(moves + [m], t) == Projection(moves, t) + if m.Step? && m.test == t then [m.action] else []
  {
    assert (moves + [m])[..|moves|] == moves;
  }

  /** What is not viable cannot become so. */
  lemma ViablePrefix(moves: seq<Move>, m: Move)
    requires Viable(moves + [m])
    ensures Viable(moves)
  {
    var next := moves + [m];
    forall t ensures Begun(Projection(moves, t)) {
      ProjectionPush(moves, m, t);
      assert Begun(Projection(next, t));
      assert Projection(moves, t) + [] == Projection(moves, t);
      if m.Step? && m.test == t { BegunNext(Projection(moves, t), m.action); }
    }
    if moves != [] {
      assert next[0] == moves[0];
      if Complete(next) {
        assert next[1..|next| - 1] == moves[1..];
      } else {
        assert forall i :: 0 <= i < |moves| - 1 ==> moves[1..][i] == next[1..][i];
      }
    }
  }

  // --- The acceptor -------------------------------------------------------------------------

  predicate Allowed(previous: map<Test, Action>, t: Test, a: Action) {
    match a
    case Run => t !in previous
    case Pause => t in previous && previous[t] == Run
    case Cont => t in previous && previous[t] == Pause
    case Pass => t in previous && previous[t] == Run
    case Fail => t in previous && (previous[t] == Run || previous[t] == Pause)
    case Skip => t in previous && previous[t] == Run
    case _ => false
  }

  predicate Unfinished(states: map<Test, Action>) {
    exists t :: t in states && (states[t] == Run || states[t] == Pause)
  }

  /** A test move is allowed exactly when it continues the lifecycle. A failure may come while the test
      runs or is paused, a skip only while it runs. */
  lemma AllowedIs(moves: seq<Move>, states: map<Test, Action>, t: Test, a: Action)
    requires Begun(Projection(moves, t)) && Recorded(Projection(moves, t), states, t)
    ensures a != Fail && a != Skip ==> (Allowed(states, t, a) <==> Begun(Projection(moves, t) + [a]))
    ensures a != Fail && a != Skip && Allowed(states, t, a) ==>
              Recorded(Projection(moves, t) + [a], states[t := if a == Cont then Run else a], t)
    ensures a == Fail ==> (Allowed(states, t, a) <==> Projection(moves, t) != [] && !Passed(Projection(moves, t)))
    ensures a == Skip ==>
              (Allowed(states, t, a) <==> |Projection(moves, t)| % 2 == 1 && !Passed(Projection(moves, t)))
  {
    var p := Projection(moves, t);
    BegunNext(p, a);
    if p != [] && !Passed(p) && |p| % 2 == 0 {
      assert p[|p| - 1] == Pause;
    }
  }

  lemma {:induction false} OnlyStepsPush(moves: seq<Move>, m: Move)
    requires moves != []
    ensures OnlySteps((moves + [m])[1..]) <==> OnlySteps(moves[1..]) && m.Step?
  {
    var next := moves + [m];
    assert next[1..] == moves[1..] + [m];
    if OnlySteps(next[1..]) {
      forall i | 0 <= i < |moves[1..]| ensures moves[1..][i].Step? { assert next[1..][i] == moves[1..][i]; }
      assert next[1..][|moves| - 1] == m;
    }
  }

  lemma StepTracks(moves: seq<Move>, states: map<Test, Action>, t: Test, a: Action)
    requires Tracks(moves, Started, states) && a != Fail && a != Skip && Allowed(states, t, a)
    ensures Tracks(moves + [Step(t, a)], Started, states[t := if a == Cont then Run else a])
  {
    var m := Step(t, a);
    var states' := states[t := if a == Cont then Run else a];
    AllowedIs(moves, states, t, a);
    OnlyStepsPush(moves, m);
    forall u ensures Begun(Projection(moves + [m], u)) && Recorded(Projection(moves + [m], u), states', u) {
      ProjectionPush(moves, m, u);
      assert Begun(Projection(moves, u)) && Recorded(Projection(moves, u), states, u);
      assert Projection(moves, u) + [] == Projection(moves, u);
    }
  }

  /** A test move that is refused, or comes outside the package, leaves the language. */
  lemma StepRefused(moves: seq<Move>, phase: Phase, states: map<Test, Action>, t: Test, a: Action)
    requires Tracks(moves, phase, states) && a != Fail && a != Skip
    requires phase != Started || !Allowed(states, t, a)
    ensures !Viable(moves + [Step(t, a)])
  {
    var m := Step(t, a);
    var next := moves + [m];
    assert next[|next| - 1] == m && !Complete(next);
    if phase == Started {
      AllowedIs(moves, states, t, a);
      ProjectionPush(moves, m, t);
      assert !Begun(Projection(next, t));
    } else if phase == Unstarted {
      assert next[0] == m;
    } else {
      assert moves[|moves| - 1] == Closes && next[1..][|moves| - 2] == Closes;
    }
  }

  lemma OpensIs(moves: seq<Move>, phase: Phase, states: map<Test, Action>)
    requires Tracks(moves, phase, states)
    ensures phase == Unstarted ==> Tracks(moves + [Opens], Started, states)
    ensures phase != Unstarted ==> !Viable(moves + [Opens])
  {
    var next := moves + [Opens];
    if phase == Unstarted {
      assert next == [Opens];
      forall t ensures Projection(next, t) == Projection(moves, t) { ProjectionPush(moves, Opens, t); }
    } else {
      assert next[|next| - 1] == Opens && next[1..][|moves| - 1] == Opens;
    }
  }

  /** The package may end exactly when it is open and every test has passed. */
  lemma ClosesIs(moves: seq<Move>, phase: Phase, states: map<Test, Action>)
    requires Tracks(moves, phase, states)
    ensures phase == Started && !Unfinished(states) ==> Tracks(moves + [Closes], Ended(Pass), states)
    ensures phase != Started || Unfinished(states) ==> !Viable(moves + [Closes])
  {
    var next := moves + [Closes];
    assert next[|next| - 1] == Closes;
    forall t ensures Projection(next, t) == Projection(moves, t) {
      ProjectionPush(moves, Closes, t);
    }
    if phase == Started {
      assert next[1..|next| - 1] == moves[1..];
      assert next[1..][|moves| - 1] == Closes;
      if Unfinished(states) {
        var t :| t in states && (states[t] == Run || states[t] == Pause);
        LifecycleIs(Projection(moves, t));
        assert Recorded(Projection(moves, t), states, t);
        assert Occurs(next, t) && !Lifecycle(Projection(next, t));
      } else {
        forall t | Occurs(next, t) ensures Lifecycle(Projection(next, t)) {
          assert Recorded(Projection(moves, t), states, t);
          LifecycleIs(Projection(moves, t));
        }
      }
    } else if phase == Unstarted {
      assert next == [Closes];
    } else {
      assert moves[|moves| - 1] == Closes;
      assert next[1..][|moves| - 2] == Closes;
      assert next[1..|next| - 1][|moves| - 2] == Closes;
    }
  }

  /** One line. From a clean prefix, it is complained about exactly when the prefix with it has
      left the language. */
  method Consume(line: Line, number: nat, phase: Phase, states: map<Test, Action>, ghost moves: seq<Move>)
      returns (complaints: seq<Complaint>, phase': Phase, states': map<Test, Action>)
    ensures Tracks(moves, phase, states) && complaints == [] ==>
              Proper(line) && Tracks(moves + MoveOf(line), phase', states')
    ensures Tracks(moves, phase, states) && complaints != [] ==>
              !Proper(line) || !Viable(moves + MoveOf(line))
  {
    complaints, phase', states' := [], phase, states;
    assert moves + [] == moves;
    if line.Blank? { return; }
    if line.Garbage? || line.action == Unknown || !line.samePackage || line.test.Invalid? {
      return [BadLine(number)], phase', states';
    }
    if line.action == Fail || line.action == Skip {
      complaints := [Unsuccessful(number)];
    }
    if line.action == Output {
      if !line.hasText { complaints := complaints + [BadLine(number)]; }
    } else if line.test == Package {
      if line.action == Start {
        if Tracks(moves, phase, states) { OpensIs(moves, phase, states); }
        if phase != Unstarted { return complaints + [BadLine(number)], phase', states'; }
        phase' := Started;
      } else {
        if line.action == Pass && Tracks(moves, phase, states) { ClosesIs(moves, phase, states); }
        if line.action !in {Pass, Fail, Skip} || phase != Started || Unfinished(states) {
          return complaints + [BadLine(number)], phase', states';
        }
        phase' := Ended(line.action);
      }
    } else {
      var test, action := line.test.test, line.action;
      if Tracks(moves, phase, states) && action != Fail && action != Skip {
        if phase != Started || !Allowed(states, test, action) {
          StepRefused(moves, phase, states, test, action);
        } else {
          StepTracks(moves, states, test, action);
        }
      }
      if phase != Started || !Allowed(states, test, action) {
        return complaints + [BadLine(number)], phase', states';
      }
      states' := states[test := if action == Cont then Run else action];
    }
  }

  lemma MovesPush(lines: seq<Line>, i: nat)
    requires i < |lines|
    ensures Moves(lines[..i + 1]) == Moves(lines[..i]) + MoveOf(lines[i])
    ensures AllProper(lines[..i + 1]) <==> AllProper(lines[..i]) && Proper(lines[i])
    ensures !Viable(Moves(lines[..i])) ==> !Viable(Moves(lines[..i + 1]))
  {
    var next := lines[..i + 1];
    assert next[..i] == lines[..i] && next[i] == lines[i];
    assert forall k :: 0 <= k < i ==> next[k] == lines[..i][k];
    NotViableStays(Moves(lines[..i]), lines[i]);
  }

  lemma NotViableStays(moves: seq<Move>, line: Line)
    ensures Viable(moves + MoveOf(line)) ==> Viable(moves)
  {
    var m := MoveOf(line);
    assert moves + [] == moves;
    if m != [] && Viable(moves + m) {
      assert m == [m[0]];
      ViablePrefix(moves, m[0]);
    }
  }

  /** `parse_go_test` passes exactly the language, and then the tests it observed are the tests that
      passed and the tests that occur. */
  method ParseGoTest(lines: seq<Line>, returncode: int, required: set<Test>)
      returns (pass: bool, errors: seq<Complaint>, passed: set<Test>, observed: set<Test>)
    ensures pass <==> errors == []
    ensures pass <==> Accepts(lines, returncode, required)
    ensures pass ==> passed == observed && forall t :: t in observed <==> Occurs(Moves(lines), t)
    ensures passed <= observed
  {
    errors := if returncode != 0 then [ExitCode] else [];
    var states: map<Test, Action>, phase := map[], Unstarted;
    for i := 0 to |lines|
      invariant errors == [] ==>
                  returncode == 0 && AllProper(lines[..i]) && Tracks(Moves(lines[..i]), phase, states)
      invariant errors != [] ==>
                  returncode != 0 || !AllProper(lines[..i]) || !Viable(Moves(lines[..i]))
    {
      MovesPush(lines, i);
      var complaints;
      complaints, phase, states := Consume(lines[i], i + 1, phase, states, Moves(lines[..i]));
      errors := errors + complaints;
    }
    assert lines[..|lines|] == lines;
    ghost var clean := errors;
    passed := set t | t in states && states[t] == Pass;
    observed := states.Keys;
    if phase != Ended(Pass) { errors := errors + [NotPassed]; }
    if !(required <= passed) { errors := errors + [Missing]; }
    pass := errors == [];
    Verdict(lines, returncode, required, clean, phase, states, passed);
  }

  lemma Verdict(lines: seq<Line>, returncode: int, required: set<Test>, clean: seq<Complaint>, phase: Phase,
                states: map<Test, Action>, passed: set<Test>)
    requires passed == set t | t in states && states[t] == Pass
    requires clean == [] ==> returncode == 0 && AllProper(lines) && Tracks(Moves(lines), phase, states)
    requires clean != [] ==> returncode != 0 || !AllProper(lines) || !Viable(Moves(lines))
    ensures Accepts(lines, returncode, required) <==> clean == [] && phase == Ended(Pass) && required <= passed
    ensures Accepts(lines, returncode, required) ==>
              passed == states.Keys && forall t :: t in states <==> Occurs(Moves(lines), t)
  {
    var moves := Moves(lines);
    if Complete(moves) {
      CompleteViable(moves);
      assert moves[|moves| - 1] == Closes && moves[1..][|moves| - 2] == Closes;
    }
    if clean == [] && phase == Ended(Pass) {
      forall t ensures (t in states <==> Occurs(moves, t)) && (t in states ==> states[t] == Pass) {
        assert Recorded(Projection(moves, t), states, t);
        LifecycleIs(Projection(moves, t));
      }
      assert passed == states.Keys;
    }
  }
}
