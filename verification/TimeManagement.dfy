/**
 The RTI server's time management for one federation in the Integer64 representation:
 regulation and constraint, lookahead, the five advance requests, the bound on incoming
 timestamps that a constrained federate waits for, and the ordered delivery of timestamped
 messages (clauses 8.1 to 8.19 of IEEE 1516.1-2010).

 Every operation of the server runs under one evaluator lease per federation, so a state is
 the whole federation and each lease is one or more of the steps below. Releasing messages
 is split into single deliveries, which also covers a transport that takes only a prefix.
 */
module TimeManagement {
  import opened Outcomes

  // --- Horizons -----------------------------------------------------------------------------

  /** The largest Integer64 time. */
  const FINAL: nat := 0x7FFF_FFFF_FFFF_FFFF

  /** A horizon past the final time is unbounded rather than wrapped. */
  datatype Bound = Finite(limit: nat) | Unbounded

  function Horizon(at: nat, interval: nat): Bound {
    if at + interval > FINAL then Unbounded else Finite(at + interval)
  }

  function Least(a: Bound, b: Bound): Bound {
    if a.Unbounded? then b else if b.Unbounded? then a else if b.limit < a.limit then b else a
  }

  /** No timestamp below `x` is possible under this bound. */
  predicate AtLeast(b: Bound, x: int) { b.Unbounded? || b.limit >= x }

  function Max(a: int, b: int): int { if a < b then b else a }
  function Min(a: int, b: int): int { if a < b then a else b }

  // --- One federate -------------------------------------------------------------------------

  datatype Mode = NER | NMRA | TAR | TARA | FQR

  predicate Strict(m: Mode) { m == TAR || m == NER }
  predicate NextMessage(m: Mode) { m == NER || m == NMRA }
  predicate Inclusive(m: Mode) { m == NMRA || m == TARA || m == FQR }

  /** The federate's regulation state and advance state; `log` is the history of timestamps
      delivered in timestamp order since time constraint was last enabled. */
  datatype Federate = Federate(
    joined: bool,
    regulating: bool,
    lookahead: nat,
    constrained: bool,
    regulationPending: bool,
    regulationLookahead: nat,
    constrainedPending: bool,
    preserved: Option<nat>,     // preservedReceiveTime
    received: Option<nat>,      // receivedTSOTime
    reducing: bool,
    lookaheadTarget: nat,
    originTime: nat,
    originValue: nat,
    current: nat,
    pending: bool,
    requested: nat,
    mode: Mode,
    strict: bool,               // strictZeroLookahead
    flushMinimum: Option<nat>,
    queue: seq<nat>,            // timestamps in tsoBuffer
    log: seq<nat>)

  const FRESH := Federate(true, false, 0, false, false, 0, false, None, None, false, 0, 0, 0,
                          0, false, 0, TAR, false, None, [], [])

  /** `projectedLookahead`: a requested decrease takes effect as logical time advances. */
  function Projected(f: Federate, at: nat): nat {
    if f.reducing && at > f.originTime
    then Max(f.lookaheadTarget, f.originValue - (at - f.originTime)) else f.lookahead
  }

  /** `outgoingTSOBound`: base, lookahead and whether the base itself is excluded. */
  function OutgoingBase(f: Federate): nat { if f.pending then f.requested else f.current }

  function OutgoingLookahead(f: Federate): nat {
    if f.pending then Projected(f, f.requested) else f.lookahead
  }

  predicate OutgoingExclusive(f: Federate) {
    && OutgoingLookahead(f) == 0
    && if f.pending then Strict(f.mode) || (f.strict && f.requested == f.current) else f.strict
  }

  /** `availableSendHorizon`: the least timestamp the federate may still put on a message, if it
      is granted exactly what it asked for. */
  function SendHorizon(f: Federate): Bound {
    if OutgoingExclusive(f)
    then (if OutgoingBase(f) >= FINAL then Unbounded else Horizon(OutgoingBase(f) + 1, OutgoingLookahead(f)))
    else Horizon(OutgoingBase(f), OutgoingLookahead(f))
  }

  /** `ValidateOutgoingTSO`: the check made on a regulating sender's timestamp. */
  predicate Accepts(f: Federate, timestamp: nat) {
    f.regulating ==>
      var floor := Horizon(OutgoingBase(f), OutgoingLookahead(f));
      && floor.Finite?
      && (timestamp > floor.limit || (!OutgoingExclusive(f) && timestamp == floor.limit))
  }

  /** The state after a grant at `at`: `recordReceivedGrant`, `recordGrantBound`,
      `advanceLookahead` and the cleared request. */
  function Granted(f: Federate, at: nat): Federate {
    var la := if f.regulating then Projected(f, at) else f.lookahead;
    var arrived := f.regulating && f.reducing && la == f.lookaheadTarget;
    f.(current := at,
       strict := Strict(f.mode) || (f.strict && at <= f.current),
       preserved := ReceiveGuarantee(f, Strict(f.mode), at),
       lookahead := la,
       reducing := f.reducing && !arrived,
       pending := false,
       flushMinimum := None)
  }

  function ReceiveGuarantee(f: Federate, strict: bool, at: nat): Option<nat> {
    if !f.constrained then f.preserved
    else if strict then Some(at)
    else if f.preserved.Some? && at > f.preserved.value then None
    else f.preserved
  }

  /** `availableHorizonAfterGrant`: the send horizon if the pending request were granted at `at`. */
  function AfterGrant(f: Federate, at: nat): Bound {
    var t := Max(f.current, Min(at, f.requested));
    SendHorizon(f.(current := t, strict := Strict(f.mode) || (f.strict && t <= f.current),
                   lookahead := Projected(f, t), pending := false))
  }

  /** A pending request that may be granted before the time it names. */
  predicate MayGrantEarly(f: Federate) {
    f.constrained && f.pending && (NextMessage(f.mode) || f.mode == FQR)
  }

  /** `availableRegulatorSnapshot`: queued messages may end the request early and lower the horizon. */
  function Available(f: Federate): Bound {
    if !MayGrantEarly(f) then SendHorizon(f)
    else
      var b := if f.flushMinimum.Some?
               then Least(SendHorizon(f), AfterGrant(f, f.flushMinimum.value)) else SendHorizon(f);
      LowerByQueue(f, f.queue, b)
  }

  function LowerByQueue(f: Federate, queue: seq<nat>, b: Bound): Bound {
    if queue == [] then b
    else LowerByQueue(f, queue[1..], if queue[0] < f.requested then Least(b, AfterGrant(f, queue[0])) else b)
  }

  // --- The federation -----------------------------------------------------------------------

  /** Federates by handle. */
  type Federation = seq<Federate>

  function Contribution(f: Federate, b: Bound): Bound { if f.regulating then b else Unbounded }

  /** `LBTSBoundOf` over the regulating set. */
  function Lbts(s: Federation): Bound {
    if s == [] then Unbounded
    else Least(Lbts(s[..|s| - 1]), Contribution(s[|s| - 1], SendHorizon(s[|s| - 1])))
  }

  function Snapshots(s: Federation): (r: seq<Bound>)
    ensures |r| == |s|
    ensures forall i :: 0 <= i < |s| ==> r[i] == Contribution(s[i], Available(s[i]))
  {
    seq(|s|, i requires 0 <= i < |s| => Contribution(s[i], Available(s[i])))
  }

  function LeastOf(bs: seq<Bound>): Bound {
    if bs == [] then Unbounded else Least(LeastOf(bs[..|bs| - 1]), bs[|bs| - 1])
  }

  predicate Flushing(f: Federate) { f.regulating && f.constrained && f.pending && f.mode == FQR }

  /** What a flush request can be granted at once because of the horizon `incoming`. */
  function FlushedBy(f: Federate, b: Bound, incoming: Bound): Bound {
    if Flushing(f) && incoming.Finite? && incoming.limit < f.requested
    then Least(b, AfterGrant(f, incoming.limit)) else b
  }

  /** The horizons after flush requests have been taken into account: every flushing regulator is
      lowered by the least horizon of the whole federation. */
  function Propagated(s: Federation): (r: seq<Bound>)
    ensures |r| == |s|
    ensures forall i :: 0 <= i < |s| ==> r[i] == FlushedBy(s[i], Snapshots(s)[i], LeastOf(Snapshots(s)))
  {
    seq(|s|, i requires 0 <= i < |s| => FlushedBy(s[i], Snapshots(s)[i], LeastOf(Snapshots(s))))
  }

  function Without(bs: seq<Bound>, i: nat): (r: seq<Bound>)
    ensures |r| == |bs|
    ensures forall j :: 0 <= j < |bs| ==> r[j] == if j == i then Unbounded else bs[j]
  {
    seq(|bs|, j requires 0 <= j < |bs| => if j == i then Unbounded else bs[j])
  }

  /** `availableHorizon`: the bound on what a federate can still receive (GALT, 8.1.5). */
  function Galt(s: Federation, i: nat): Bound { LeastOf(Without(Propagated(s), i)) }

  // --- Deciding a grant ---------------------------------------------------------------------

  /** `nextGrantMessage`. */
  function NextGrantMessage(f: Federate): Option<nat> {
    var flushed := if f.mode == FQR || NextMessage(f.mode) then f.flushMinimum else None;
    Earliest(f.queue, flushed)
  }

  function Earliest(queue: seq<nat>, best: Option<nat>): Option<nat> {
    if queue == [] then best
    else Earliest(queue[1..], if best.None? || queue[0] < best.value then Some(queue[0]) else best)
  }

  /** `decideScalarGrant`. */
  function Decide(mode: Mode, current: nat, requested: nat, bound: Bound, next: Option<nat>): Option<nat> {
    if mode == FQR then
      var t := if bound.Finite? then Min(requested, bound.limit) else requested;
      Some(Max(current, if next.Some? then Min(t, next.value) else t))
    else
      var target := if NextMessage(mode) && next.Some? && current <= next.value < requested
                    then next.value else requested;
      if AtLeast(bound, if Inclusive(mode) then target else target + 1) then Some(target) else None
  }

  /** `decideCandidateGrant`: neither the bound nor queued messages hold an unconstrained federate. */
  function Candidate(s: Federation, i: nat): Option<nat>
    requires i < |s| && s[i].pending
  {
    var f := s[i];
    if f.constrained
    then Decide(f.mode, f.current, f.requested, Least(Lbts(s), Galt(s, i)), NextGrantMessage(f))
    else Decide(f.mode, f.current, f.requested, Unbounded, None)
  }

  // --- Enabling regulation ------------------------------------------------------------------

  /** The latest time up to which a constrained federate has already been served. */
  function Frontier(f: Federate): nat {
    if f.received.Some? then Max(f.current, f.received.value) else f.current
  }

  predicate FrontierClosed(f: Federate) { f.preserved == Some(Frontier(f)) }

  /** `regulationEnableTime`: late enough that no constrained peer could have been served past the
      first timestamp the new regulator may use. */
  function RegulationTime(s: Federation, i: nat, lookahead: nat, k: nat, from: nat): Option<nat>
    requires k <= |s|
    decreases |s| - k
  {
    if k == |s| then Some(from)
    else if k == i || !s[k].constrained then RegulationTime(s, i, lookahead, k + 1, from)
    else
      var lower := Frontier(s[k]) - lookahead;
      if FrontierClosed(s[k]) && lower >= FINAL then None
      else
        RegulationTime(s, i, lookahead, k + 1, Max(from, if FrontierClosed(s[k]) then lower + 1 else lower))
  }

  /** `enableTarget` for regulation. */
  function RegulationTarget(s: Federation, i: nat): Option<nat>
    requires i < |s|
  {
    var f := s[i];
    var from := if f.constrained then Frontier(f) else f.current;
    var t := RegulationTime(s, i, f.regulationLookahead, 0, from);
    if t.Some? && f.constrained && !AtLeast(Galt(s, i), t.value) then None else t
  }

  // --- Steps --------------------------------------------------------------------------------

  /** What one federate asks for, or the server does for one federate. */
  datatype Step =
    | Resign
    | RequestRegulation(interval: nat)
    | RequestConstrained
    | DisableRegulation
    | DisableConstrained
    | ModifyLookahead(interval: nat)
    | RequestAdvance(how: Mode, target: nat)
    | CompleteRegulation
    | CompleteConstrained
    | ReleaseForEnable(k: nat, kept: bool)
    | Release(k: nat, kept: bool)
    | Flush(k: nat, kept: bool)
    | Grant

  datatype Action =
    | Join
    | Send(who: nat, timestamp: nat, recipients: set<nat>)
    | Do(who: nat, step: Step)

  /** The k-th queued message is the first among the earliest ones. */
  predicate IsEarliest(queue: seq<nat>, k: nat) {
    && k < |queue|
    && (forall j :: 0 <= j < |queue| ==> queue[k] <= queue[j])
    && (forall j :: 0 <= j < k ==> queue[k] < queue[j])
  }

  predicate NothingDue(f: Federate, t: nat) { forall j :: 0 <= j < |f.queue| ==> f.queue[j] > t }

  /** The guards of the operations that look at the requester alone. */
  predicate Admissible(f: Federate, step: Step) {
    && f.joined
    && match step
       case Resign => true
       case RequestRegulation(la) => la <= FINAL && !f.pending && !f.regulationPending && !f.regulating
       case RequestConstrained => !f.pending && !f.constrainedPending && !f.constrained
       case DisableRegulation => f.regulating
       case DisableConstrained => f.constrained
       case ModifyLookahead(la) => la <= FINAL && f.regulating && !f.pending
       case RequestAdvance(_, t) =>
         f.current <= t <= FINAL && !f.regulationPending && !f.constrainedPending && !f.pending
       case CompleteRegulation => f.regulationPending
       case CompleteConstrained => f.constrainedPending
       case ReleaseForEnable(k, _) => f.regulationPending && f.constrained && IsEarliest(f.queue, k)
       case Release(k, _) => f.pending && f.constrained && f.mode != FQR && IsEarliest(f.queue, k)
       case Flush(k, _) => f.pending && f.constrained && f.mode == FQR && k < |f.queue|
       case Grant => f.pending
  }

  /** The guards that look at the whole federation. */
  predicate Timely(s: Federation, i: nat, step: Step)
    requires i < |s| && Admissible(s[i], step)
  {
    match step
    case CompleteRegulation => RegulationTarget(s, i).Some? && NothingDue(s[i], RegulationTarget(s, i).value)
    case CompleteConstrained => AtLeast(Galt(s, i), s[i].current)
    case ReleaseForEnable(k, _) =>
      RegulationTarget(s, i).Some? && s[i].queue[k] <= RegulationTarget(s, i).value
    case Release(k, _) => Candidate(s, i).Some? && s[i].queue[k] <= Candidate(s, i).value
    case Grant =>
      Candidate(s, i).Some? && (s[i].mode != FQR ==> NothingDue(s[i], Candidate(s, i).value))
    case _ => true
  }

  predicate Enabled(s: Federation, a: Action) {
    match a
    case Join => true
    case Send(i, ts, recipients) => i < |s| && s[i].joined && ts <= FINAL && Accepts(s[i], ts) && i !in recipients
    case Do(i, step) => i < |s| && Admissible(s[i], step) && Timely(s, i, step)
  }

  function Apply(s: Federation, a: Action): Federation
    requires Enabled(s, a)
  {
    match a
    case Join => s + [FRESH]
    case Send(_, ts, recipients) => Deliver(s, ts, recipients)
    case Do(i, step) => s[i := Next(s, i, step)]
  }

  /** `reserveTSO`: a timestamped message waits in the queue of a constrained recipient; everyone
      else receives it at once. */
  function Deliver(s: Federation, ts: nat, recipients: set<nat>): (r: Federation)
    ensures |r| == |s|
    ensures forall i :: 0 <= i < |s| ==>
              r[i] == if i in recipients && s[i].constrained then s[i].(queue := s[i].queue + [ts]) else s[i]
  {
    seq(|s|, i requires 0 <= i < |s| =>
      if i in recipients && s[i].constrained then s[i].(queue := s[i].queue + [ts]) else s[i])
  }

  function Next(s: Federation, i: nat, step: Step): Federate
    requires i < |s| && Admissible(s[i], step) && Timely(s, i, step)
  {
    match step
    case CompleteRegulation => Regulating(s[i], RegulationTarget(s, i).value)
    case Grant => Granted(s[i], Candidate(s, i).value)
    case _ => Alone(s[i], step)
  }

  /** The steps whose effect depends on nothing but the federate itself. */
  function Alone(f: Federate, step: Step): Federate
    requires Admissible(f, step) && !step.CompleteRegulation? && !step.Grant?
  {
    match step
    case Resign => FRESH.(joined := false)
    case RequestRegulation(la) => f.(regulationPending := true, regulationLookahead := la)
    case RequestConstrained => f.(constrainedPending := true)
    case DisableRegulation => f.(regulating := false, lookahead := 0, reducing := false)
    case DisableConstrained =>
      f.(constrained := false, preserved := None, received := None, queue := [], log := [])
    case ModifyLookahead(la) => Modified(f, la)
    case RequestAdvance(m, t) => f.(pending := true, requested := t, mode := m, flushMinimum := None)
    case CompleteConstrained =>
      f.(constrained := true, constrainedPending := false, preserved := None, received := None, log := [])
    case ReleaseForEnable(k, kept) => Released(f, k, kept)
    case Release(k, kept) => Released(f, k, kept)
    case Flush(k, kept) => Flushed(f, k, kept)
    case _ => f
  }

  /** `ModifyLookahead`: an increase takes effect at once, a decrease as time advances. */
  function Modified(f: Federate, la: nat): Federate {
    if la >= f.lookahead then f.(lookahead := la, reducing := false)
    else if f.reducing then f.(lookaheadTarget := la)
    else f.(lookaheadTarget := la, reducing := true, originTime := f.current, originValue := f.lookahead)
  }

  /** The committed part of `emitEnable` for regulation. */
  function Regulating(f: Federate, at: nat): Federate {
    f.(current := at, preserved := ReceiveGuarantee(f, false, at), regulating := true,
       lookahead := f.regulationLookahead, regulationPending := false, reducing := false, strict := false)
  }

  function Drop(queue: seq<nat>, k: nat): seq<nat>
    requires k < |queue|
  {
    queue[..k] + queue[k + 1..]
  }

  /** One message leaves the queue in timestamp order; the subscription filter may discard it. */
  function Released(f: Federate, k: nat, kept: bool): Federate
    requires k < |f.queue|
  {
    var ts := f.queue[k];
    var g := f.(queue := Drop(f.queue, k));
    if !kept then g
    else
      g.(received := if f.received.None? || ts > f.received.value then Some(ts) else f.received,
         flushMinimum := if f.pending && NextMessage(f.mode) then Lowered(f.flushMinimum, ts) else f.flushMinimum,
         log := f.log + [ts])
  }

  /** One message leaves the queue of a flushing federate, whatever its timestamp. */
  function Flushed(f: Federate, k: nat, kept: bool): Federate
    requires k < |f.queue|
  {
    var g := f.(queue := Drop(f.queue, k));
    if !kept then g else g.(flushMinimum := Lowered(f.flushMinimum, f.queue[k]))
  }

  function Lowered(m: Option<nat>, ts: nat): Option<nat> {
    if m.None? || ts < m.value then Some(ts) else m
  }

  predicate Legal(s: Federation, run: seq<Action>)
    decreases |run|
  {
    run == [] || (Enabled(s, run[0]) && Legal(Apply(s, run[0]), run[1..]))
  }

  function Execute(s: Federation, run: seq<Action>): Federation
    requires Legal(s, run)
    decreases |run|
  {
    if run == [] then s else Execute(Apply(s, run[0]), run[1..])
  }
}
