/**
 The client state of the C++ ambassador: connection and membership, the handle caches, the
 queue that the background reader fills and the evoke services empty, and the callback gate.
 Time limits become the number of times a wait is woken; what the reader delivers meanwhile
 is a parameter, so every interleaving with the reader is covered.
 */
module Ambassador {
  import opened Outcomes
  import opened HandleCaches

  type Event = nat

  datatype Kind = ObjectClass | InteractionClass | Attribute | Parameter

  /** What the server answers with, federation by federation; one directory per kind. */
  datatype Server = Server(federations: map<string, map<Kind, Directory>>)

  /** The server does not know a federation without a name. */
  ghost predicate Proper(server: Server) {
    && "" !in server.federations
    && forall f :: f in server.federations ==>
         forall k :: k in server.federations[f] ==> Coherent(server.federations[f][k])
  }

  function Ask(server: Server, federation: string, kind: Kind): (d: Option<Directory>)
    ensures d.Some? <==> federation in server.federations && kind in server.federations[federation]
    ensures d.Some? ==> d.value == server.federations[federation][kind]
  {
    if federation in server.federations && kind in server.federations[federation]
    then Some(server.federations[federation][kind]) else None
  }

  datatype Caches = Caches(
    objectClasses: Cache<nat>, interactionClasses: Cache<nat>, attributes: Cache<string>, parameters: Cache<string>)

  const NO_CACHES := Caches(Cache(map[], map[]), Cache(map[], map[]), Cache(map[], map[]), Cache(map[], map[]))

  /** `read` and `popped` are the histories of the current event stream. `resignFailed` records a
      resignation that the server refused since the last join. */
  datatype Client = Client(
    connected: bool,
    joined: bool,
    federation: string,
    streamRunning: bool,
    enabled: bool,
    queue: seq<Event>,
    caches: Caches,
    read: seq<Event>,
    popped: seq<Event>,
    resignFailed: bool)

  datatype Outcome = Done | AlreadyConnected | NotConnected | AlreadyMember | NotMember | Rejected

  const FRESH := Client(false, false, "", false, true, [], NO_CACHES, [], [], false)

  // --- Connection and membership ------------------------------------------------------------

  function Connect(c: Client, valid: bool): (Client, Outcome) {
    if c.connected then (c, AlreadyConnected)
    else if !valid then (c, Rejected)
    else (c.(connected := true), Done)
  }

  /** Stopping the stream joins the reader and throws away what it queued. */
  function StopStream(c: Client): Client {
    if c.streamRunning then c.(streamRunning := false, queue := [], read := [], popped := []) else c
  }

  function StartStream(c: Client): Client {
    if c.streamRunning then c else c.(streamRunning := true, read := [], popped := [])
  }

  function Disconnect(c: Client): Client {
    StopStream(c).(connected := false, joined := false, federation := "", caches := NO_CACHES)
  }

  /** `accepted` is the server's decision; it accepts only federations that exist. */
  function Join(c: Client, server: Server, name: string, accepted: bool): (Client, Outcome) {
    if !c.connected then (c, NotConnected)
    else if c.joined then (c, AlreadyMember)
    else if !accepted || name !in server.federations then (c, Rejected)
    else (StartStream(c.(joined := true, federation := name, resignFailed := false)), Done)
  }

  /** The stream is stopped before the server is asked, and stays stopped if it refuses. */
  function Resign(c: Client, accepted: bool): (Client, Outcome) {
    if !c.connected then (c, NotConnected)
    else if !c.joined then (c, NotMember)
    else if !accepted then (StopStream(c).(resignFailed := true), Rejected)
    else (StopStream(c).(joined := false, federation := "", caches := NO_CACHES), Done)
  }

  // --- Lookups ------------------------------------------------------------------------------

  /** Lookups ask for a connection only; without a membership they go out without a federation. */
  function HandleOf(c: Client, server: Server, kind: Kind, scope: nat, name: string): (Client, Result<nat>) {
    if !c.connected then (c, Error)
    else
      var d := Ask(server, c.federation, kind);
      match kind
      case ObjectClass =>
        var (k, r) := GetHandle(c.caches.objectClasses, Raw, d, scope, name);
        (c.(caches := c.caches.(objectClasses := k)), r)
      case InteractionClass =>
        var (k, r) := GetHandle(c.caches.interactionClasses, Raw, d, scope, name);
        (c.(caches := c.caches.(interactionClasses := k)), r)
      case Attribute =>
        var (k, r) := GetHandle(c.caches.attributes, Decimal, d, scope, name);
        (c.(caches := c.caches.(attributes := k)), r)
      case Parameter =>
        var (k, r) := GetHandle(c.caches.parameters, Decimal, d, scope, name);
        (c.(caches := c.caches.(parameters := k)), r)
  }

  function NameOf(c: Client, server: Server, kind: Kind, scope: nat, handle: nat): (Client, Result<string>) {
    if !c.connected then (c, Error)
    else
      var d := Ask(server, c.federation, kind);
      match kind
      case ObjectClass =>
        var (k, r) := GetName(c.caches.objectClasses, Raw, d, scope, handle);
        (c.(caches := c.caches.(objectClasses := k)), r)
      case InteractionClass =>
        var (k, r) := GetName(c.caches.interactionClasses, Raw, d, scope, handle);
        (c.(caches := c.caches.(interactionClasses := k)), r)
      case Attribute =>
        var (k, r) := GetName(c.caches.attributes, Decimal, d, scope, handle);
        (c.(caches := c.caches.(attributes := k)), r)
      case Parameter =>
        var (k, r) := GetName(c.caches.parameters, Decimal, d, scope, handle);
        (c.(caches := c.caches.(parameters := k)), r)
  }

  // --- Events -------------------------------------------------------------------------------

  /** The reader thread pushes while the stream runs. */
  function Arrive(c: Client, events: seq<Event>): Client {
    if c.streamRunning then c.(queue := c.queue + events, read := c.read + events) else c
  }

  function Dispatch(c: Client): (Client, bool) {
    if c.queue == [] then (c, false)
    else (c.(queue := c.queue[1..], popped := c.popped + [c.queue[0]]), true)
  }

  // --- The invariant ------------------------------------------------------------------------

  ghost predicate CachesAgree(c: Caches, server: Server, federation: string) {
    && Agrees(c.objectClasses, Raw, Ask(server, federation, ObjectClass))
    && Agrees(c.interactionClasses, Raw, Ask(server, federation, InteractionClass))
    && Agrees(c.attributes, Decimal, Ask(server, federation, Attribute))
    && Agrees(c.parameters, Decimal, Ask(server, federation, Parameter))
  }

  ghost predicate Valid(c: Client, server: Server) {
    && (c.streamRunning ==> c.joined) && (c.joined ==> c.connected)
    && (c.joined ==> (c.streamRunning <==> !c.resignFailed))
    && (!c.joined ==> c.federation == "")
    && c.popped + c.queue == c.read
    && (!c.streamRunning ==> c.queue == [])
    && CachesAgree(c.caches, server, c.federation)
  }

  datatype Action =
    | DoConnect(valid: bool)
    | DoDisconnect
    | DoJoin(federation: string, accepted: bool)
    | DoResign(accepted: bool)
    | DoHandleOf(kind: Kind, scope: nat, name: string)
    | DoNameOf(kind: Kind, scope: nat, handle: nat)
    | DoArrive(events: seq<Event>)
    | DoDispatch
    | DoEnable(enabled: bool)

  function Step(c: Client, server: Server, a: Action): Client {
    match a
    case DoConnect(valid) => Connect(c, valid).0
    case DoDisconnect => Disconnect(c)
    case DoJoin(f, accepted) => Join(c, server, f, accepted).0
    case DoResign(accepted) => Resign(c, accepted).0
    case DoHandleOf(k, s, n) => HandleOf(c, server, k, s, n).0
    case DoNameOf(k, s, h) => NameOf(c, server, k, s, h).0
    case DoArrive(es) => Arrive(c, es)
    case DoDispatch => Dispatch(c).0
    case DoEnable(b) => c.(enabled := b)
  }

  function Run(c: Client, server: Server, run: seq<Action>): Client
    decreases |run|
  {
    if run == [] then c else Run(Step(c, server, run[0]), server, run[1..])
  }

  lemma NoCachesAgree(server: Server, federation: string)
    ensures CachesAgree(NO_CACHES, server, federation)
  {}

  lemma AskProper(server: Server, federation: string, kind: Kind)
    requires Proper(server)
    ensures var d := Ask(server, federation, kind); d.Some? ==> Coherent(d.value)
  {}

  lemma HandleOfAgrees(c: Client, server: Server, kind: Kind, scope: nat, name: string)
    requires Proper(server) && CachesAgree(c.caches, server, c.federation)
    ensures var c' := HandleOf(c, server, kind, scope, name).0;
            c' == c.(caches := c'.caches) && CachesAgree(c'.caches, server, c.federation)
    ensures c.connected ==> HandleOf(c, server, kind, scope, name).1 == ServerHandle(Ask(server, c.federation, kind), scope, name)
  {
    KeysInjective();
    var d := Ask(server, c.federation, kind);
    match kind
    case ObjectClass => HandleAnswer(c.caches.objectClasses, Raw, d, scope, name);
    case InteractionClass => HandleAnswer(c.caches.interactionClasses, Raw, d, scope, name);
    case Attribute => HandleAnswer(c.caches.attributes, Decimal, d, scope, name);
    case Parameter => HandleAnswer(c.caches.parameters, Decimal, d, scope, name);
  }

  lemma NameOfAgrees(c: Client, server: Server, kind: Kind, scope: nat, handle: nat)
    requires Proper(server) && CachesAgree(c.caches, server, c.federation)
    ensures var c' := NameOf(c, server, kind, scope, handle).0;
            c' == c.(caches := c'.caches) && CachesAgree(c'.caches, server, c.federation)
    ensures c.connected ==>
              var r, d := NameOf(c, server, kind, scope, handle).1, Ask(server, c.federation, kind);
              && (r.Ok? <==> ServerName(d, scope, handle).Ok?)
              && (r.Ok? ==> ServerHandle(d, scope, r.value) == Ok(handle))
              && (d.Some? && SingleNames(d.value) ==> r == ServerName(d, scope, handle))
  {
    KeysInjective();
    var d := Ask(server, c.federation, kind);
    AskProper(server, c.federation, kind);
    match kind
    case ObjectClass => NameAnswer(c.caches.objectClasses, Raw, d, scope, handle);
    case InteractionClass => NameAnswer(c.caches.interactionClasses, Raw, d, scope, handle);
    case Attribute => NameAnswer(c.caches.attributes, Decimal, d, scope, handle);
    case Parameter => NameAnswer(c.caches.parameters, Decimal, d, scope, handle);
  }

  lemma CachesReplaced(c: Client, server: Server, k: Caches)
    requires Valid(c, server) && CachesAgree(k, server, c.federation)
    ensures Valid(c.(caches := k), server)
  {}

  lemma StepValid(c: Client, server: Server, a: Action)
    requires Proper(server) && Valid(c, server)
    ensures Valid(Step(c, server, a), server)
  {
    if a.DoHandleOf? {
      HandleOfAgrees(c, server, a.kind, a.scope, a.name);
      CachesReplaced(c, server, HandleOf(c, server, a.kind, a.scope, a.name).0.caches);
    } else if a.DoNameOf? {
      NameOfAgrees(c, server, a.kind, a.scope, a.handle);
      CachesReplaced(c, server, NameOf(c, server, a.kind, a.scope, a.handle).0.caches);
    } else {
      MembershipValid(c, server, a);
    }
  }

  /** No entry can be cached without a federation, so a new membership starts with empty caches. */
  lemma IdleCaches(c: Client, server: Server, federation: string)
    requires Proper(server) && CachesAgree(c.caches, server, "")
    ensures CachesAgree(c.caches, server, federation)
  {
    assert forall k: Kind :: Ask(server, "", k) == None;
    NothingCached(c.caches.objectClasses, Raw);
    NothingCached(c.caches.interactionClasses, Raw);
    NothingCached(c.caches.attributes, Decimal);
    NothingCached(c.caches.parameters, Decimal);
  }

  lemma NothingCached<R(!new)>(c: Cache<R>, enc: nat -> R)
    requires Agrees(c, enc, None)
    ensures forall d :: Agrees(c, enc, d)
  {
    forall s: nat, n: string ensures (s, n) !in c.byName {
      assert ServerHandle(None, s, n) == Error;
    }
  }

  lemma MembershipValid(c: Client, server: Server, a: Action)
    requires Proper(server) && Valid(c, server) && !a.DoHandleOf? && !a.DoNameOf?
    ensures Valid(Step(c, server, a), server)
  {
    NoCachesAgree(server, "");
    if a.DoJoin? && !c.joined {
      IdleCaches(c, server, a.federation);
    }
  }

  /** In every run: a running stream implies membership, membership implies a connection, what was
      popped followed by what is queued is what the reader read, and every cached answer is
      the one that the directory of the current federation gives. */
  lemma {:induction false} RunValid(c: Client, server: Server, run: seq<Action>)
    requires Proper(server) && Valid(c, server)
    ensures Valid(Run(c, server, run), server)
    decreases |run|
  {
    if run != [] {
      StepValid(c, server, run[0]);
      RunValid(Step(c, server, run[0]), server, run[1..]);
    }
  }

  lemma FreshValid(server: Server)
    ensures Valid(FRESH, server)
  {
    NoCachesAgree(server, "");
  }

  /** After any run, a connected ambassador resolves names exactly as the server of its current
      federation does, and knows nothing while it has none. The name it gives a handle is one
      that the server resolves to that handle: the server's own, if no handle has two. */
  lemma LookupsAgree(server: Server, run: seq<Action>, kind: Kind, scope: nat, name: string, handle: nat)
    requires Proper(server)
    ensures var c := Run(FRESH, server, run);
            var d := Ask(server, c.federation, kind);
            c.connected ==>
              && HandleOf(c, server, kind, scope, name).1 == ServerHandle(d, scope, name)
              && var r := NameOf(c, server, kind, scope, handle).1;
              && (r.Ok? <==> ServerName(d, scope, handle).Ok?)
              && (r.Ok? ==> ServerHandle(d, scope, r.value) == Ok(handle))
              && (d.Some? && SingleNames(d.value) ==> r == ServerName(d, scope, handle))
  {
    FreshValid(server);
    RunValid(FRESH, server, run);
    var c := Run(FRESH, server, run);
    HandleOfAgrees(c, server, kind, scope, name);
    NameOfAgrees(c, server, kind, scope, handle);
  }

  ghost predicate StaysJoined(c: Client, server: Server, run: seq<Action>)
    decreases |run|
  {
    c.joined && (run == [] || StaysJoined(Step(c, server, run[0]), server, run[1..]))
  }

  /** A member without an event stream: nothing queued, nothing read. */
  ghost predicate Deaf(c: Client, read: seq<Event>) {
    c.joined && c.resignFailed && !c.streamRunning && c.queue == [] && c.read == read
  }

  lemma {:induction false} DeafStays(c: Client, server: Server, later: seq<Action>)
    requires Deaf(c, c.read) && StaysJoined(c, server, later)
    requires c.connected
    ensures Deaf(Run(c, server, later), c.read)
    decreases |later|
  {
    if later != [] {
      DeafStep(c, server, later[0]);
      DeafStays(Step(c, server, later[0]), server, later[1..]);
    }
  }

  lemma DeafStep(c: Client, server: Server, a: Action)
    requires Deaf(c, c.read) && c.connected && Step(c, server, a).joined
    ensures Deaf(Step(c, server, a), c.read) && Step(c, server, a).connected
  {}

  /** A resignation that the server refuses leaves a member that never reads another event, whatever
      is called, until it leaves: joining again is refused, and nothing else starts the stream. */
  lemma RefusedResignation(server: Server, run: seq<Action>, later: seq<Action>)
    requires Proper(server)
    requires var c := Run(FRESH, server, run);
             c.joined && StaysJoined(Step(c, server, DoResign(false)), server, later)
    ensures var c := Step(Run(FRESH, server, run), server, DoResign(false));
            Deaf(c, c.read) && Deaf(Run(c, server, later), c.read)
  {
    FreshValid(server);
    RunValid(FRESH, server, run);
    DeafStays(Step(Run(FRESH, server, run), server, DoResign(false)), server, later);
  }

  /** Any federation can be joined and then refuse the resignation. */
  lemma ResignationCanBeRefused(server: Server, federation: string)
    requires federation in server.federations
    ensures var c := Run(FRESH, server, [DoConnect(true), DoJoin(federation, true), DoResign(false)]);
            Deaf(c, []) && c.federation == federation
            && Join(c, server, federation, true).1 == AlreadyMember
  {
    var c1 := Step(FRESH, server, DoConnect(true));
    var c2 := Step(c1, server, DoJoin(federation, true));
    assert c2 == c1.(joined := true, federation := federation, streamRunning := true);
    RunSnoc(FRESH, server, [], DoConnect(true));
    RunSnoc(FRESH, server, [DoConnect(true)], DoJoin(federation, true));
    RunSnoc(FRESH, server, [DoConnect(true), DoJoin(federation, true)], DoResign(false));
    assert [] + [DoConnect(true)] == [DoConnect(true)];
    assert [DoConnect(true)] + [DoJoin(federation, true)] == [DoConnect(true), DoJoin(federation, true)];
    assert [DoConnect(true), DoJoin(federation, true)] + [DoResign(false)] ==
           [DoConnect(true), DoJoin(federation, true), DoResign(false)];
  }

  // --- What connecting, joining and leaving achieve -----------------------------------------

  /** Outside any federation, with no stream and nothing queued or cached. */
  ghost predicate Outside(c: Client) {
    !c.joined && !c.streamRunning && c.federation == "" && c.caches == NO_CACHES
  }

  /** After disconnecting, whatever came before: no connection, no membership, no stream; every service
      is refused but connecting, which succeeds again. */
  lemma DisconnectedIsFresh(server: Server, run: seq<Action>, federation: string, kind: Kind, scope: nat, name: string, handle: nat)
    ensures var c := Run(FRESH, server, run + [DoDisconnect]);
            && !c.connected && Outside(c) && c.enabled == Run(FRESH, server, run).enabled
            && HandleOf(c, server, kind, scope, name).1 == Error && NameOf(c, server, kind, scope, handle).1 == Error
            && Join(c, server, federation, true).1 == NotConnected && Resign(c, true).1 == NotConnected
            && Connect(c, false).1 == Rejected && Connect(c, true).1 == Done && Connect(c, true).0.connected
  {
    RunSnoc(FRESH, server, run, DoDisconnect);
  }

  /** A connected client that is no member can join every federation that takes it. It is then a member
      with a running stream from which nothing has been read; a second join is refused. */
  lemma JoiningWorks(server: Server, run: seq<Action>, federation: string)
    requires Proper(server)
    ensures var c := Run(FRESH, server, run);
            var (c', outcome) := Join(c, server, federation, true);
            && (outcome == Done <==> c.connected && !c.joined && federation in server.federations)
            && (outcome == AlreadyMember <==> c.connected && c.joined)
            && (outcome == Done ==>
                  && c'.connected && c'.joined && c'.federation == federation && c'.streamRunning
                  && c'.read == c'.queue == c'.popped == [] && c'.enabled == c.enabled
                  && Join(c', server, federation, true).1 == AlreadyMember)
            && (outcome != Done ==> c' == c)
  {
    FreshValid(server);
    RunValid(FRESH, server, run);
  }

  /** Only a member can resign. If the server agrees it is outside, still connected, and can join again. */
  lemma ResigningWorks(server: Server, run: seq<Action>, federation: string)
    requires Proper(server)
    ensures var c := Run(FRESH, server, run);
            var (c', outcome) := Resign(c, true);
            && (outcome == Done <==> c.joined)
            && (outcome == Done ==>
                  && c'.connected && Outside(c') && c'.queue == [] && c'.enabled == c.enabled
                  && Resign(c', true).1 == NotMember
                  && (federation in server.federations ==> Join(c', server, federation, true).1 == Done))
            && (outcome != Done ==> c' == c)
  {
    FreshValid(server);
    RunValid(FRESH, server, run);
  }

  /** Connecting changes nothing but the connection, and is refused to a connected client. */
  lemma ConnectingWorks(c: Client, valid: bool)
    ensures var (c', outcome) := Connect(c, valid);
            && (outcome == AlreadyConnected <==> c.connected)
            && (outcome == Rejected <==> !c.connected && !valid)
            && c' == c.(connected := c.connected || outcome == Done)
  {}

  /** A successful lookup is answered again, the same, by any server and by none: it is asked once. */
  lemma LookupsRemembered(c: Client, server: Server, kind: Kind, scope: nat, name: string, handle: nat, later: Server)
    requires c.connected
    ensures var (c', r) := HandleOf(c, server, kind, scope, name);
            r.Ok? ==> HandleOf(c', later, kind, scope, name) == (c', r)
    ensures var (c', r) := NameOf(c, server, kind, scope, handle);
            r.Ok? ==> NameOf(c', later, kind, scope, handle) == (c', r)
  {
    HandlesRemembered(c, server, kind, scope, name, later);
    NamesRemembered(c, server, kind, scope, handle, later);
  }

  lemma HandlesRemembered(c: Client, server: Server, kind: Kind, scope: nat, name: string, later: Server)
    requires c.connected
    ensures var (c', r) := HandleOf(c, server, kind, scope, name);
            r.Ok? ==> HandleOf(c', later, kind, scope, name) == (c', r)
  {}

  lemma NamesRemembered(c: Client, server: Server, kind: Kind, scope: nat, handle: nat, later: Server)
    requires c.connected
    ensures var (c', r) := NameOf(c, server, kind, scope, handle);
            r.Ok? ==> NameOf(c', later, kind, scope, handle) == (c', r)
  {}

  /** The gate as the last call of enable or disable left it. */
  ghost function Gate(run: seq<Action>, before: bool): bool {
    if run == [] then before
    else
      var n := |run| - 1;
      if run[n].DoEnable? then run[n].enabled else Gate(run[..n], before)
  }

  /** Nothing else moves the gate, and the gate moves nothing else. */
  lemma {:induction false} GateIs(c: Client, server: Server, run: seq<Action>)
    ensures Run(c, server, run).enabled == Gate(run, c.enabled)
    decreases |run|
  {
    if run != [] {
      var n := |run| - 1;
      GateIs(c, server, run[..n]);
      assert run == run[..n] + [run[n]];
      RunSnoc(c, server, run[..n], run[n]);
      GateStep(Run(c, server, run[..n]), server, run[n]);
    }
  }

  lemma GateStep(c: Client, server: Server, a: Action)
    ensures Step(c, server, a).enabled == if a.DoEnable? then a.enabled else c.enabled
    ensures a.DoEnable? ==> Step(c, server, a) == c.(enabled := a.enabled)
  {}

  // --- Pumping events -----------------------------------------------------------------------

  /** Only the reader and the evoke services act. */
  ghost predicate Pumping(run: seq<Action>) {
    forall i :: 0 <= i < |run| ==> run[i].DoArrive? || run[i].DoDispatch?
  }

  lemma {:induction false} RunSnoc(c: Client, server: Server, run: seq<Action>, a: Action)
    ensures Run(c, server, run + [a]) == Step(Run(c, server, run), server, a)
    decreases |run|
  {
    if run == [] {
      assert run + [a] == [a] && [a][1..] == [];
      assert Run(Step(c, server, a), server, []) == Step(c, server, a);
    } else {
      assert (run + [a])[1..] == run[1..] + [a];
      RunSnoc(Step(c, server, run[0]), server, run[1..], a);
    }
  }

  ghost function Brings(a: Action): seq<Event> { if a.DoArrive? then a.events else [] }

  /** Everything that arrives in a run, in order. */
  ghost function Arrived(run: seq<Action>): seq<Event>
    decreases |run|
  {
    if run == [] then [] else Brings(run[0]) + Arrived(run[1..])
  }

  /** The stream is on, and what was read is what was popped followed by what is queued. */
  ghost predicate Reading(c: Client, read: seq<Event>) {
    c.streamRunning && c.read == read && c.popped + c.queue == read
  }

  /** While the stream runs, everything that arrives is read; what is popped and what is queued are
      together exactly that. */
  lemma {:induction false} PumpingReads(c: Client, server: Server, run: seq<Action>)
    requires Reading(c, c.read) && Pumping(run)
    ensures Reading(Run(c, server, run), c.read + Arrived(run))
    decreases |run|
  {
    if run == [] {
      assert c.read + [] == c.read;
    } else {
      PumpStep(c, server, run[0]);
      PumpingRest(run);
      PumpingReads(Step(c, server, run[0]), server, run[1..]);
      assert (c.read + Brings(run[0])) + Arrived(run[1..]) == c.read + (Brings(run[0]) + Arrived(run[1..]));
    }
  }

  lemma PumpingRest(run: seq<Action>)
    requires Pumping(run) && run != []
    ensures Pumping(run[1..])
  {}

  lemma PumpStep(c: Client, server: Server, a: Action)
    requires Reading(c, c.read) && (a.DoArrive? || a.DoDispatch?)
    ensures Reading(Step(c, server, a), c.read + Brings(a))
  {
    assert c.read + [] == c.read;
    if a.DoArrive? {
      assert c.popped + (c.queue + a.events) == (c.popped + c.queue) + a.events;
    } else if c.queue != [] {
      assert c.popped + c.queue == (c.popped + [c.queue[0]]) + c.queue[1..];
    }
  }

  // --- The object ---------------------------------------------------------------------------

  class RTIambassador {
    var connected: bool
    var joined: bool
    var federation: string
    var streamRunning: bool
    var enabled: bool
    var queue: seq<Event>
    var caches: Caches
    ghost var read: seq<Event>
    ghost var popped: seq<Event>
    ghost var resignFailed: bool

    ghost function State(): Client
      reads this
    {
      Client(connected, joined, federation, streamRunning, enabled, queue, caches, read, popped, resignFailed)
    }

    constructor ()
      ensures State() == FRESH
    {
      connected, joined, federation, streamRunning, enabled := false, false, "", false, true;
      queue, caches := [], NO_CACHES;
      read, popped, resignFailed := [], [], false;
    }

    method ConnectTo(valid: bool) returns (outcome: Outcome)
      modifies this
      ensures (State(), outcome) == Connect(old(State()), valid)
    {
      if connected { return AlreadyConnected; }
      if !valid { return Rejected; }
      connected := true;
      outcome := Done;
    }

    method StopEventStream()
      modifies this
      ensures State() == StopStream(old(State()))
      ensures !streamRunning && (!old(streamRunning) ==> State() == old(State()))
    {
      if !streamRunning { return; }
      streamRunning := false;
      queue := [];
      read, popped := [], [];
    }

    method StartEventStream()
      modifies this
      ensures State() == StartStream(old(State()))
      ensures streamRunning && (old(streamRunning) ==> State() == old(State()))
    {
      if streamRunning { return; }
      streamRunning := true;
      read, popped := [], [];
    }

    method DisconnectNow()
      modifies this
      ensures State() == Disconnect(old(State()))
    {
      StopEventStream();
      connected, federation, joined := false, "", false;
      caches := NO_CACHES;
    }

    method JoinFederationExecution(server: Server, name: string, accepted: bool) returns (outcome: Outcome)
      modifies this
      ensures (State(), outcome) == Join(old(State()), server, name, accepted)
    {
      if !connected { return NotConnected; }
      if joined { return AlreadyMember; }
      if !accepted || name !in server.federations { return Rejected; }
      federation, joined := name, true;
      resignFailed := false;
      StartEventStream();
      outcome := Done;
    }

    method ResignFederationExecution(accepted: bool) returns (outcome: Outcome)
      modifies this
      ensures (State(), outcome) == Resign(old(State()), accepted)
    {
      if !connected { return NotConnected; }
      if !joined { return NotMember; }
      StopEventStream();
      if !accepted {
        resignFailed := true;
        return Rejected;
      }
      joined, federation := false, "";
      caches := NO_CACHES;
      outcome := Done;
    }

    /** The four handle services. */
    method LookUpHandle(server: Server, kind: Kind, scope: nat, name: string) returns (r: Result<nat>)
      modifies this`caches
      ensures (State(), r) == HandleOf(old(State()), server, kind, scope, name)
    {
      if !connected { return Error; }
      var d := Ask(server, federation, kind);
      match kind
      case ObjectClass =>
        var (entry, answer) := GetHandle(caches.objectClasses, Raw, d, scope, name);
        caches, r := caches.(objectClasses := entry), answer;
      case InteractionClass =>
        var (entry, answer) := GetHandle(caches.interactionClasses, Raw, d, scope, name);
        caches, r := caches.(interactionClasses := entry), answer;
      case Attribute =>
        var (entry, answer) := GetHandle(caches.attributes, Decimal, d, scope, name);
        caches, r := caches.(attributes := entry), answer;
      case Parameter =>
        var (entry, answer) := GetHandle(caches.parameters, Decimal, d, scope, name);
        caches, r := caches.(parameters := entry), answer;
    }

    /** The four name services. */
    method LookUpName(server: Server, kind: Kind, scope: nat, handle: nat) returns (r: Result<string>)
      modifies this`caches
      ensures (State(), r) == NameOf(old(State()), server, kind, scope, handle)
    {
      if !connected { return Error; }
      var d := Ask(server, federation, kind);
      match kind
      case ObjectClass =>
        var (entry, answer) := GetName(caches.objectClasses, Raw, d, scope, handle);
        caches, r := caches.(objectClasses := entry), answer;
      case InteractionClass =>
        var (entry, answer) := GetName(caches.interactionClasses, Raw, d, scope, handle);
        caches, r := caches.(interactionClasses := entry), answer;
      case Attribute =>
        var (entry, answer) := GetName(caches.attributes, Decimal, d, scope, handle);
        caches, r := caches.(attributes := entry), answer;
      case Parameter =>
        var (entry, answer) := GetName(caches.parameters, Decimal, d, scope, handle);
        caches, r := caches.(parameters := entry), answer;
    }

    /** The reader thread appends under the queue's lock. */
    method ReaderPush(events: seq<Event>)
      modifies this`queue, this`read
      ensures State() == Arrive(old(State()), events)
      ensures streamRunning ==> queue == old(queue) + events && read == old(read) + events
      ensures old(queue) <= queue && old(read) <= read
      ensures old(popped + queue == read) ==> popped + queue == read
    {
      if streamRunning {
        assert popped + (queue + events) == (popped + queue) + events;
        queue := queue + events;
        read := read + events;
      }
    }

    method DispatchOneEvent() returns (fired: bool)
      modifies this`queue, this`popped
      ensures (State(), fired) == Dispatch(old(State()))
      ensures popped + queue == old(popped + queue) && old(popped) <= popped
      ensures fired == (old(queue) != []) && |popped| == |old(popped)| + (if fired then 1 else 0)
      ensures fired ==> queue == old(queue)[1..]
    {
      if queue == [] { return false; }
      assert popped + queue == (popped + [queue[0]]) + queue[1..];
      popped := popped + [queue[0]];
      queue := queue[1..];
      fired := true;
    }

    /** One push by the reader, as a step of the run. */
    method Push(events: seq<Event>, ghost server: Server, ghost start: Client, ghost run: seq<Action>) returns (ghost run': seq<Action>)
      requires popped + queue == read && Pumping(run) && State() == Run(start, server, run)
      modifies this`queue, this`read
      ensures Pumping(run') && State() == Run(start, server, run')
      ensures popped + queue == read && old(queue) <= queue && old(read) <= read
    {
      RunSnoc(start, server, run, DoArrive(events));
      run' := run + [DoArrive(events)];
      ReaderPush(events);
    }

    /** One dispatch, as a step of the run. */
    method Pull(ghost server: Server, ghost start: Client, ghost run: seq<Action>) returns (fired: bool, ghost run': seq<Action>)
      requires popped + queue == read && Pumping(run) && State() == Run(start, server, run)
      modifies this`queue, this`popped
      ensures Pumping(run') && State() == Run(start, server, run')
      ensures popped + queue == read && old(popped) <= popped
      ensures fired == (old(queue) != []) && |popped| == |old(popped)| + (if fired then 1 else 0)
      ensures fired ==> queue == old(queue)[1..]
    {
      RunSnoc(start, server, run, DoDispatch);
      run' := run + [DoDispatch];
      fired := DispatchOneEvent();
    }

    /** `evokeCallback`: `waits` are the batches that arrive while it waits for a first event and end
        with its deadline, `hold` arrives until the minimum time is over, `tail` between the
        dispatch and the final look at the queue. Disabling the gate meanwhile has no effect. The
        answer depends on the dispatch as in the source; with one consumer it always finds an event. */
    method EvokeCallback(waits: seq<seq<Event>>, hold: seq<Event>, tail: seq<Event>, ghost server: Server)
        returns (more: bool, ghost run: seq<Action>)
      requires popped + queue == read
      modifies this`queue, this`popped, this`read
      ensures Pumping(run) && State() == Run(old(State()), server, run)
      ensures popped + queue == read
      ensures old(popped) <= popped && |popped| <= |old(popped)| + 1
      ensures !old(enabled) ==> !more && State() == old(State())
      ensures more <==> |popped| == |old(popped)| + 1 && queue != []
      ensures old(enabled) && old(queue) != [] ==> |popped| == |old(popped)| + 1
      ensures old(read) <= read
    {
      run := [];
      if !enabled { return false, run; }
      var i := 0;
      while queue == []
        invariant 0 <= i <= |waits| && popped == old(popped) && popped + queue == read && old(read) <= read
        invariant Pumping(run) && State() == Run(old(State()), server, run)
        invariant old(queue) != [] ==> i == 0 && queue == old(queue)
        decreases |waits| - i
      {
        if i == |waits| { return false, run; }
        run := Push(waits[i], server, old(State()), run);
        i := i + 1;
      }
      run := Push(hold, server, old(State()), run);
      var fired;
      fired, run := Pull(server, old(State()), run);
      run := Push(tail, server, old(State()), run);
      more := fired && queue != [];
    }

    /** `tickCallback`: one dispatch per wake-up until the minimum time, then everything that is
        there, then wake-ups until something was dispatched or the maximum time is over. */
    method TickCallback(early: seq<seq<Event>>, during: seq<seq<Event>>, late: seq<seq<Event>>, ghost server: Server)
        returns (fired: bool, ghost run: seq<Action>)
      requires popped + queue == read
      modifies this`queue, this`popped, this`read
      ensures Pumping(run) && State() == Run(old(State()), server, run)
      ensures popped + queue == read
      ensures old(popped) <= popped && old(read) <= read
      ensures !old(enabled) ==> !fired && State() == old(State())
      ensures fired <==> |popped| > |old(popped)|
      ensures old(enabled) && old(queue) != [] ==> fired
    {
      run := [];
      if !enabled { return false, run; }
      fired := false;
      var step;
      for i := 0 to |early|
        invariant Pumped(old(State()), server, run)
        invariant fired <==> |popped| > |old(popped)|
        invariant old(queue) != [] && !fired ==> queue != []
      {
        step, run := Pull(server, old(State()), run);
        fired := fired || step;
        run := Push(early[i], server, old(State()), run);
      }
      var j := 0;
      step, run := Pull(server, old(State()), run);
      while step
        invariant Pumped(old(State()), server, run)
        invariant fired || step <==> |popped| > |old(popped)|
        invariant old(queue) != [] ==> fired || step
        invariant j <= |during|
        decreases |during| - j, |queue|, step
      {
        fired := true;
        if j < |during| {
          run := Push(during[j], server, old(State()), run);
          j := j + 1;
        }
        step, run := Pull(server, old(State()), run);
      }
      var k := 0;
      while !fired && k < |late|
        invariant Pumped(old(State()), server, run)
        invariant fired <==> |popped| > |old(popped)|
        invariant old(queue) != [] ==> fired
      {
        run := Push(late[k], server, old(State()), run);
        fired, run := Pull(server, old(State()), run);
        k := k + 1;
      }
    }

    /** Exactly once and in order since an earlier moment, by steps of reader and dispatcher alone. */
    ghost predicate Pumped(start: Client, server: Server, run: seq<Action>)
      reads this
    {
      && popped + queue == read && start.popped <= popped && start.read <= read
      && Pumping(run) && State() == Run(start, server, run)
    }
  }
}
