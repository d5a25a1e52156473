/**
 The synchronization-point table of one federation, as the RTI server keeps it
 (services 4.11 to 4.15 of IEEE 1516.1-2010): registering a name, voting
 "achieved", completing a point when every required federate has voted, and dropping a
 completed label once its callbacks are through.

 The table is a map, as in the server; a retired label is simply absent again, so nothing
 in this module stops it from being registered a second time.
 */
module SyncPoints {

  type Handle = nat

  /** What one federate sees of a label on its event stream. */
  datatype SyncEvent<L> =
    | RegistrationSucceeded(name: L)
    | RegistrationFailed(name: L)
    | Announced(name: L)
    | Synchronized(name: L, failed: set<Handle>)

  datatype Point = Point(required: set<Handle>, achieved: set<Handle>, failed: set<Handle>, complete: bool)

  datatype Registration<L> = NameTaken | MemberNotJoined | Registered(points: map<L, Point>)

  /** `register`: an existing label is refused, then a requested set naming a stranger; an
      empty request stands for all current members. */
  function Register<L>(points: map<L, Point>, name: L, requested: set<Handle>, joined: set<Handle>)
    : (r: Registration<L>)
    ensures r.NameTaken? <==> name in points
    ensures r.Registered? <==> name !in points && requested <= joined
    ensures r.Registered? ==> r.points.Keys == points.Keys + {name}
    ensures r.Registered? ==> r.points[name] == Point(if requested == {} then joined else requested, {}, {}, false)
    ensures r.Registered? ==> forall l :: l in points ==> r.points[l] == points[l]
  {
    if name in points then NameTaken
    else if requested == {} then Registered(points[name := Point(joined, {}, {}, false)])
    else if !(requested <= joined) then MemberNotJoined
    else Registered(points[name := Point(requested, {}, {}, false)])
  }

  /** A point is complete as soon as all required federates have voted, and not before. */
  ghost predicate WellKept(p: Point) {
    p.failed <= p.achieved <= p.required && (p.complete <==> p.required <= p.achieved)
  }

  datatype Vote<L> =
    | NotRegistered
    | AlreadyAchieved
    | Counted(points: map<L, Point>, completed: bool)

  /** `achieve`: a vote counts once, only from a required federate, and the vote that makes
      the required set complete is the one that synchronizes the federation. */
  function Achieve<L>(points: map<L, Point>, name: L, h: Handle, successfully: bool): (r: Vote<L>)
    ensures r.Counted? <==> name in points && h in points[name].required && h !in points[name].achieved
    ensures r.NotRegistered? <==> name !in points || h !in points[name].required
    ensures r.Counted? ==> r.points.Keys == points.Keys
    ensures r.Counted? ==>
              var p, p' := points[name], r.points[name];
              && p'.required == p.required && p'.achieved == p.achieved + {h}
              && p'.failed == p.failed + (if successfully then {} else {h})
    ensures r.Counted? && WellKept(points[name]) ==>
              && WellKept(r.points[name])
              && (r.completed <==> points[name].required - points[name].achieved == {h})
    ensures r.Counted? ==> forall l :: l in points && l != name ==> r.points[l] == points[l]
  {
    if name !in points || h !in points[name].required then NotRegistered
    else if h in points[name].achieved then AlreadyAchieved
    else
      var p := points[name];
      var achieved := p.achieved + {h};
      var failed := if successfully then p.failed else p.failed + {h};
      var completed := !p.complete && p.required <= achieved;
      Counted(points[name := Point(p.required, achieved, failed, p.complete || completed)], completed)
  }

  /** `retire`: the server forgets a completed label. */
  function Retire<L>(points: map<L, Point>, name: L): (r: map<L, Point>)
    requires name in points && points[name].complete
    ensures r.Keys == points.Keys - {name} && forall l :: l in r ==> r[l] == points[l]
  {
    points - {name}
  }

  // --- All votes on one label ---------------------------------------------------------------

  datatype Ballot = Ballot(voter: Handle, successfully: bool)

  /** The table after votes on a label in the given order, and how many of them completed it. Refused
      votes change nothing. */
  function Cast<L>(points: map<L, Point>, name: L, ballots: seq<Ballot>): (map<L, Point>, nat) {
    if ballots == [] then (points, 0)
    else
      var n := |ballots| - 1;
      var (before, completions) := Cast(points, name, ballots[..n]);
      var r := Achieve(before, name, ballots[n].voter, ballots[n].successfully);
      if r.Counted? then (r.points, completions + if r.completed then 1 else 0) else (before, completions)
  }

  function Voters(ballots: seq<Ballot>): set<Handle> { set b | b in ballots :: b.voter }

  /** Whoever votes, how often and in which order: the required voters count once each, and exactly one
      vote synchronizes the federation, the one that makes the required set complete. */
  lemma {:induction false} SynchronizesOnce<L>(points: map<L, Point>, name: L, ballots: seq<Ballot>)
    requires name in points && points[name].required != {} && points[name] == Point(points[name].required, {}, {}, false)
    ensures var (after, completions) := Cast(points, name, ballots);
            && after.Keys == points.Keys && WellKept(after[name])
            && after[name].required == points[name].required
            && after[name].achieved == points[name].required * Voters(ballots)
            && completions == if points[name].required <= Voters(ballots) then 1 else 0
  {
    if ballots != [] {
      var n := |ballots| - 1;
      SynchronizesOnce(points, name, ballots[..n]);
      assert ballots == ballots[..n] + [ballots[n]];
      assert Voters(ballots) == Voters(ballots[..n]) + {ballots[n].voter};
    }
  }
}
