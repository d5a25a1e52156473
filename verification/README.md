# gorti in Dafny

A model of the parts of gorti whose correctness is hardest to see from the code, with proofs.
gorti is an HLA run-time infrastructure: a Go server, client libraries in C++, Python and Java,
example federations and benchmark tooling. `dafny verify dfyconfig.toml` checks everything.

| area | files |
|---|---|
| server time management: regulation, lookahead, GALT, grants, ordered delivery | `TimeManagement`, `TimeHorizons`, `TimeCausality`, `TimeTheorems`, `TimeProgress`, `TimeService`, `TimeBounds`, `TimeRange`, `TimeFindings` |
| three participants meeting at two synchronization points | `SyncPoints`, `Rendezvous`, `RendezvousInvariant`, `RendezvousTheorems`, `ParticipantDriver` |
| startup barrier of N federates with an implicit leader | `Startup`, `StartupTheorems` |
| generator, bounded buffer and processor in three processes | `Wire`, `Relay`, `RelayTheorems` |
| C++ ambassador: membership, handle caches, callback queue | `HandleCaches`, `Ambassador` |
| SplitMix64, rejection sampler, quantiles, bootstrap | `Division`, `SplitMix`, `Sampler`, `OrderStatistics`, `Bootstrap`, `PairedComparison` |
| time-stepped scheduler and reservation server | `Scheduler` |
| acceptor of `go test -json` output | `GoTestStream` |
| crossover schedule, run, acceptance and analysis | `Crossover`, `CrossoverRun`, `CrossoverAnalysis` |

## How the source is rendered

Protocols are transition systems: a state, the enabled actions, and runs as lists of actions, so a
theorem about runs covers every interleaving. Objects and loops of the source are classes and
methods, each proved against a function or stated outright; the theorems are about those
functions. Randomness, clocks and replies of other processes are parameters. Seconds and
statistics are reals. Integer64 logical time is an unbounded integer in the model;
`TimeRange.RunInRange` proves that no reachable state leaves the range, so that nothing wraps.

Environment of the rendezvous and the startup: event streams are lossless and in order, the
server's fan-out of one event to all recipients is atomic, a sender does not get its own
interaction, time-outs do not fire, and the server may forget a completed label at any moment
after completion. In the rendezvous all three participants have joined before the first
registration. In the startup exactly N federates with distinct handles ever join. Two lines where code and comments differ: a losing
registration is documented as an error reply, but the server answers it with a failure event
and no error, so the model admits both; and the ambassador's cache keys are documented to
contain the federation name, but do not, so agreement rests on the caches being cleared.

## What turned out false, and exactly when it holds

- Timestamped messages never reach a constrained federate's past: the server checks only
  regulating senders. `UncheckedSenderBreaksCausality` is a run that puts timestamp 3 before a
  federate at time 5; `TimelyExactlyWhenRegulating` gives the condition.
- After a time-advance or next-message grant at `t`, nothing at or before `t` arrives: enabling
  regulation with zero lookahead at a time that such a grant has just closed lets a federate be
  answered at that very time. `ReopenedTimeBreaksStrictness` is the run,
  `RegulationKeepsStrictness` the condition.
- The ambassador names a handle as the server does: a lookup by an alias leaves the alias in the
  reverse cache. `AliasExample` is such a lookup, `NamesAgreeExactlyWhenSingle` shows that this is
  the only obstacle.
- A member gets its events: a refused resignation (`ResignationCanBeRefused`) leaves a member that
  never reads another event until it leaves (`RefusedResignation`).
- The rendezvous ends well for every `running_ticks`: ticks travel in four bytes, so it does exactly
  below 2^32 (`FunctionalResult`); what is said about safety holds for every number.
- The reference scheduler never finishes a job whose service time is not positive
  (`Scheduler.Reference`).
- The sampler's loop ends exactly for lengths up to 2^64 (`OversizedNeverAnswers`).

## Model

| member | source | states |
|---|---|---|
| `TimeHorizons.ValidationMatchesHorizon` | rti/internal/hla/time/validate_tso.go:34-56 | the check on a regulating sender lets through exactly the timestamps at or above the send horizon that grants are computed from |
| `TimeHorizons.AvailableIs` | rti/internal/hla/time/galt.go:90-106 | a regulator's available horizon reaches `x` exactly when no grant it can still get lets it send below `x`, queued and delivered messages included |
| `TimeHorizons.OwnFloor` | rti/internal/hla/time/zero_lookahead.go:24-57 | a sound federate cannot send before what it has itself been promised as a receiver |
| `TimeHorizons.RequestRaises` | rti/internal/hla/time/advance.go:142-190 | an advance request lowers no send floor, not even to where the request may end early |
| `TimeHorizons.ProjectedBounds` | rti/internal/hla/time/regulation.go:94-115 | a lookahead decrease never lowers time plus lookahead |
| `TimeHorizons.GrantedFloor` | rti/internal/hla/time/galt.go:62-71 | the floor planned for a grant is the floor after it, and granting what was asked changes nothing |
| `TimeHorizons.DecisionIs` | rti/internal/hla/time/typed_grant.go:152-175 | every grant lies between current and requested time, within the bound the mode demands, and is the request, the next message, the flush bound or the current time |
| `TimeHorizons.GrantSends` | rti/internal/hla/time/ner.go:423-472 | granting keeps every promise the federate made as a sender |
| `TimeHorizons.GrantSound` | rti/internal/hla/time/ner.go:549-579 | granting keeps what the federate was promised as a receiver and moves it on only within the bound |
| `TimeCausality.LbtsIs` | rti/internal/hla/time/lbts.go:32-43 | LBTS reaches `x` exactly when every regulator's floor does |
| `TimeCausality.GaltClears` | rti/internal/hla/time/galt.go:24-49 | a bound on a receiver bounds every peer that could send to it |
| `TimeCausality.GaltIs` | rti/internal/hla/time/galt.go:24-138 | GALT reaches `x` exactly when every other regulator sends nothing below `x`, a flushing one not even after a grant at the floor of the whole federation |
| `TimeCausality.ClearBounds` | rti/internal/hla/time/galt.go:24-60 | LBTS and GALT are no lower than what all regulators guarantee, flush propagation included |
| `TimeCausality.RegulationTimeIs` | rti/internal/hla/time/enable.go:371-392 | the time of enabling regulation is late enough for every constrained peer |
| `TimeCausality.ReleaseSound` | rti/internal/hla/time/asyncdelivery.go:309-364 | releasing the earliest message keeps the federate sound and moves its opening exactly to that message |
| `TimeCausality.ReleaseOrdered` | rti/internal/hla/time/asyncdelivery.go:345-356 | deliveries stay in timestamp order across releases |
| `TimeCausality.RemovalSends` | rti/internal/hla/time/flush.go:39-55 | taking messages out of the queue lowers no send floor, because a delivered one stays behind in the flush minimum |
| `TimeCausality.ModifySound` | rti/internal/hla/time/manager.go:245-289 | changing lookahead keeps the federate sound and its opening unchanged |
| `TimeCausality.RegulatingSound` | rti/internal/hla/time/enable.go:287-353 | becoming a regulator keeps the federate sound, with floor target plus lookahead |
| `TimeTheorems.SendInTime` | rti/internal/hla/time/asyncdelivery.go:146-156 | a regulator's accepted message is in time for every constrained recipient |
| `TimeTheorems.StepGrant` | rti/internal/hla/time/ner.go:350-410 | a grant keeps the whole federation safe |
| `TimeTheorems.StepSend` | rti/internal/hla/time/asyncdelivery.go:169-201 | a message queued for any set of recipients keeps the whole federation safe |
| `TimeTheorems.StepRegulation` | rti/internal/hla/time/enable.go:147-169 | a new regulator keeps the whole federation safe |
| `TimeTheorems.StepKeeps` | rti/internal/hla/time/ner.go:270-344 | every step of the server keeps the pairwise invariant between regulators and constrained federates |
| `TimeTheorems.RunKeeps` | rti/internal/hla/time/ner.go:270-344 | so does every run, for any number of federates joining and leaving |
| `TimeTheorems.Causality` | rti/internal/hla/time/doc.go:1-60 | in every reachable state nothing queued precedes the receiver's time or anything delivered in timestamp order, and those deliveries are in timestamp order; a flush request hands out queued messages, to which the same bounds apply, outside that order |
| `TimeTheorems.LaterDeliveries` | rti/internal/hla/time/enable.go:171-205 | what a constrained federate was promised once holds for the rest of the run |
| `TimeTheorems.StrictGrantClosesTheTime` | rti/internal/hla/time/advance.go:63-71 | after a time-advance or next-message grant at `t` nothing at or before `t` is queued for or given to the federate, for the rest of the run |
| `TimeTheorems.TimelyExactlyWhenRegulating` | rti/internal/hla/time/validate_tso.go:23-43 | accepted timestamps are all in time if and only if the sender regulates or the receiver still expects time zero |
| `TimeTheorems.RegulationKeepsStrictness` | rti/internal/hla/time/enable.go:314-331 | enabling regulation keeps the invariant behind the strict promise, and the federate's own floor above what was closed for it, if and only if it does not reopen a closed time with zero lookahead |
| `TimeFindings.UncheckedSenderBreaksCausality` | rti/internal/hla/time/validate_tso.go:40-43 | a run from the empty federation in which a queued timestamp precedes the receiver's time |
| `TimeFindings.ReopenedTimeBreaksStrictness` | rti/internal/hla/time/enable.go:320-327 | a run in which a message arrives at a time that a strict grant had closed |
| `TimeProgress.WaitingSends` | rti/internal/hla/time/zero_lookahead.go:42-57 | a waiting regulator sends nothing below what its own grant needs |
| `TimeProgress.SomebodyProceeds` | rti/internal/hla/time/ner.go:243-264 | whenever somebody waits, for a grant, for constraint or for regulation at a time that exists, and every regulator waits, a message or a grant can go out or an enable request can end, for any lookaheads including zero and any mix of requests |
| `TimeProgress.WaitsEnd` | rti/internal/hla/time/ner.go:270-344 | from there, whatever messages are released, a grant or the end of an enable request follows after at most as many releases as messages were queued |
| `TimeService.RunWaits` | rti/internal/hla/time/flush.go:36-55 | while a flush or next-message request waits, whatever else happens, the recorded minimum is the least timestamp handed out for it |
| `TimeService.GrantTimeIs` | rti/internal/hla/time/typed_grant.go:152-175 | from request to grant in every run: a constrained federate is granted exactly at the latest time that request, bound and messages allow, once the bound suffices for the mode; a flush or next-message grant passes no message handed out for it |
| `TimeService.MessagesConserved` | rti/internal/hla/time/asyncdelivery.go:169-364 | every message queued for a constrained federate leaves the queue once: what was there and what came is what is there and what was taken out, each as often |
| `TimeService.UnconstrainedGrant` | rti/internal/hla/time/typed_grant.go:152-175 | an unconstrained federate is granted what it asks for at once |
| `TimeService.LookaheadFollows` | rti/internal/hla/time/manager.go:245-289 | in every run after a change of lookahead: an increase holds at once, a decrease is paid for by the advance of time and complete when time has advanced by as much |
| `TimeService.NobodyHolds` | rti/internal/hla/time/galt.go:24-49 | without a regulator both bounds are infinite and every request is decided at once |
| `TimeService.DisablingFrees` | rti/internal/hla/time/manager.go:154-192 | disabling regulation takes the federate out of every bound and leaves the rest of it alone |
| `TimeService.ResignedIsGone` | rti/internal/hla/time/manager.go:193-210 | a federate that has left takes part in nothing, holds nobody and has nothing waiting |
| `TimeService.JoinedIsFree` | rti/internal/hla/time/elapsed.go:45-61 | a federate that joins starts at time zero and may send, advance or ask for either role |
| `TimeService.RequestsOfIdle` | rti/internal/hla/time/advance.go:142-190 | which requests an idle federate gets accepted: times not past, roles it does not have, and what belongs to those it has |
| `TimeService.OneRequestAtATime` | rti/internal/hla/time/advance.go:142-190 | while a request waits, which others are refused and which are not |
| `TimeBounds.PropagateFlushHorizons` | rti/internal/hla/time/galt.go:108-138 | the in-place passes with early exit lower each flush request by the least bound of all, as the closed form says |
| `TimeBounds.AvailableHorizon` | rti/internal/hla/time/galt.go:24-49 | collecting, propagating and taking the minimum gives GALT |
| `TimeBounds.LowerBound` | rti/internal/hla/time/lbts.go:32-43 | the loop computes LBTS over the regulating set |
| `TimeBounds.RegulationEnableTime` | rti/internal/hla/time/enable.go:371-392 | visiting the peers in any order gives the same time or the same refusal |
| `TimeBounds.RegulationTimeLeast` | rti/internal/hla/time/enable.go:207-219 | that time is the least one meeting every peer's demand, and exists exactly when each demand can be met |
| `TimeRange.RunInRange` | rti/internal/hla/time/arithmetic.go:11-30 | every stored time and interval stays within Integer64 in every run |
| `SyncPoints.Register` | rti/internal/hla/synchronization/manager.go:235-296 | an existing label is refused, then a stranger among the requested; otherwise exactly that label is added, open, for those requested or for all joined |
| `SyncPoints.Achieve` | rti/internal/hla/synchronization/manager.go:306-379 | a vote counts exactly once, from a required federate, touches no other label, and completes the point exactly if it is the last one missing |
| `SyncPoints.SynchronizesOnce` | rti/internal/hla/synchronization/manager.go:361-379 | whoever votes, how often and in which order, exactly one vote completes a point, once all required have voted |
| `SyncPoints.Retire` | rti/internal/hla/synchronization/manager.go:540-550 | a completed label is forgotten and nothing else |
| `Wire.DecodeEncode` | examples/pyjevsim-sync-points/participant.py:78-84 | every number below 2^32 survives four bytes and back |
| `Wire.EncodeDecode` | examples/pyjevsim-sync-points/_federate_common.py:122-129 | every four bytes are the encoding of exactly what they decode to |
| `Rendezvous.DecodeIs` | examples/pyjevsim-sync-points/_federate_common.py:122-129 | a tick is heard as the number sent, and any other payload is ignored |
| `RendezvousInvariant.StepKeeps` | examples/pyjevsim-sync-points/participant_main.py:48-161 | every action of three participants and server keeps the invariant on counters, queues and table |
| `RendezvousTheorems.NoLostWakeUp` | examples/pyjevsim-sync-points/_federate_common.py:132-277 | in every reachable state a wake-up that was issued and is waited for is in the queue, nothing a loop needs is discarded, the end is announced to nobody who still has a tick to emit, and no tick is queued behind that announcement |
| `RendezvousTheorems.SingleRegistration` | examples/pyjevsim-sync-points/_federate_common.py:103-119 | each label is registered at most once, even when the server forgets it |
| `RendezvousTheorems.StartBarrier` | examples/pyjevsim-sync-points/participant_main.py:63-83 | nobody emits a tick before all have voted on the start |
| `RendezvousTheorems.EndBarrier` | examples/pyjevsim-sync-points/participant_main.py:149-161 | nobody passes the end before all have drained every peer tick |
| `RendezvousTheorems.DeadlockFree` | examples/pyjevsim-sync-points/participant_main.py:91-173 | every reachable state is finished or has a step that somebody can take, except when a tick number outgrows four bytes, which takes 2^32 ticks |
| `RendezvousTheorems.EveryRunEnds` | examples/pyjevsim-sync-points/_federate_common.py:188-277 | no run has more than 75 + 12 `running_ticks` actions |
| `RendezvousTheorems.FunctionalResult` | examples/pyjevsim-sync-points/runner.py:338-380 | a state that cannot go on is finished if and only if there are fewer than 2^32 ticks, and then passes the runner's check: labels in order, ticks 1..n sent, two of each heard with each peer's order kept, none during a rendezvous |
| `ParticipantDriver.Driver.WaitForEvent` | examples/pyjevsim-sync-points/_federate_common.py:132-163 | the loop ends at the first match, hands every earlier tick on in order, drops the rest, and is so many single pops |
| `ParticipantDriver.Driver.DrainQueue` | examples/pyjevsim-sync-points/_federate_common.py:206-220 | the drain takes the whole queue and records its ticks in order |
| `ParticipantDriver.Driver.DrainPeerTicks` | examples/pyjevsim-sync-points/_federate_common.py:238-277 | catching up takes ticks in order and never more than expected |
| `ParticipantDriver.LoopIsRun` | examples/pyjevsim-sync-points/_federate_common.py:147-163 | a driver loop over `n` events is a legal run of `n` pops that touches nobody else |
| `Startup.ElectLeader` | examples/go-timed/startup.go:34-39 | the loop finds the least handle |
| `Startup.WaitForMembers` | examples/go-timed/startup.go:94-118 | the first membership list that is not too short decides: all there, or too many |
| `Startup.AwaitSynchronization` | examples/go-timed/startup.go:45-92 | the event loop completes exactly at a clean synchronization and fails exactly at a halt, a failed registration or failed participants, having acknowledged every announcement before |
| `Startup.WaitForStartup` | examples/go-timed/startup.go:23-69 | the whole wait: refused below one, immediate for one; otherwise it registers exactly if its handle is the least of the complete list, and returns without error exactly at a completing event |
| `StartupTheorems.StepKeeps` | examples/go-timed/startup.go:23-118 | every action of N federates and server keeps the invariant |
| `StartupTheorems.TurnIs` | examples/go-timed/startup.go:71-92 | in every state a turn of the event loop returns exactly at a clean synchronization, fails exactly at a halt, a failed registration, failed participants or a refused acknowledgement, and acknowledges announcements only |
| `StartupTheorems.PollIs` | examples/go-timed/startup.go:30-44 | in every state a poll fails on too many members, goes on with too few, and leads to a registration exactly for the least handle |
| `StartupTheorems.HaltIsTold` | examples/go-timed/startup.go:88-91 | a halt reaches every member, behind what it has still to read |
| `StartupTheorems.Agreement` | examples/go-timed/startup.go:30-44 | all who leave the membership wait saw the same members; only the least handle registers, and once |
| `StartupTheorems.Barrier` | examples/go-timed/startup.go:45-69 | nobody returns before all N have passed the membership wait and all N acknowledgements count |
| `StartupTheorems.NobodyFails` | examples/go-timed/startup.go:71-92 | without a halt nobody fails |
| `StartupTheorems.DeadlockFree` | examples/go-timed/startup.go:47-68 | an unhalted run that cannot go on has brought everybody through |
| `StartupTheorems.EveryRunEnds` | examples/go-timed/startup.go:94-118 | however often anybody polls in vain, a run has at most 6 N + 2 productive steps, and one more for each unrelated event |
| `Relay.Generator.OutputHandler` | examples/pyjevsim-relay-cross-process/generator.py:40-46 | numbers are recorded before they are encoded, up to the limit |
| `Relay.Buffer.OutputHandler` | examples/pyjevsim-relay-cross-process/buffer.py:58-69 | the head goes out on every N-th tick only |
| `Relay.Buffer.InternalTransition` | examples/pyjevsim-relay-cross-process/buffer.py:71-80 | exactly the emitted head moves to the forwarded list |
| `Relay.Buffer.ExternalTransition` | examples/pyjevsim-relay-cross-process/buffer.py:82-102 | an arrival is queued, or dropped when the queue is full |
| `Relay.NewBuffer` | examples/pyjevsim-relay-cross-process/buffer.py:43-53 | capacity or period below one is refused |
| `Relay.Processor.ExternalTransition` | examples/pyjevsim-relay-cross-process/processor.py:41-56 | every payload is recorded in order |
| `Relay.Drain` | examples/pyjevsim-relay-cross-process/_federate_common.py:169-209 | the drain delivers every interaction in order and ignores the rest |
| `Relay.Emit` | examples/pyjevsim-relay-cross-process/_federate_common.py:212-249 | one output, then the internal transition |
| `RelayTheorems.NumbersSend` | examples/pyjevsim-relay-cross-process/buffer.py:67-69 | a sent number arrives as the same number |
| `RelayTheorems.BufferNeverOverflows` | examples/pyjevsim-relay-cross-process/buffer.py:67-69 | in no reachable state has the buffer a number that does not fit the payload |
| `RelayTheorems.StepBufferPop` | examples/pyjevsim-relay-cross-process/_federate_common.py:243-249 | the value popped is the value sent |
| `RelayTheorems.Conservation` | examples/pyjevsim-relay-cross-process/buffer.py:58-102 | in every reachable state published is an order-preserving interleaving of forwarded, queued and dropped, then what travels; forwarded is what was received, then what travels |
| `RelayTheorems.Pacing` | examples/pyjevsim-relay-cross-process/buffer.py:58-80 | queue within capacity, forwarded within ticks over period, and the resulting lower bound on drops |
| `RelayTheorems.Accounting` | examples/pyjevsim-relay-cross-process/buffer.py:58-102 | exact counts in every reachable state: one number published per turn up to the limit, one drop per arrival at a full queue, one number served per N-th tick that finds one |
| `RelayTheorems.DropsNeedAFullQueue` | examples/pyjevsim-relay-cross-process/buffer.py:99-102 | the first `capacity` numbers are never dropped, so that a drop takes more arrivals than there are places |
| `RelayTheorems.HeadGoesOut` | examples/pyjevsim-relay-cross-process/buffer.py:58-80 | on every N-th tick that finds one, the head goes to the processor and from the queue to the forwarded list |
| `RelayTheorems.DrainIsRun` | examples/pyjevsim-relay-cross-process/_federate_common.py:169-210 | draining `n` events is a legal run of `n` receptions |
| `RelayTheorems.VerifyIs` | examples/pyjevsim-relay-cross-process/runner.py:527-600 | a positive verdict on any report means exactly the conservation laws; a number both left over and listed elsewhere is not noticed |
| `RelayTheorems.VerdictIsExact` | examples/pyjevsim-relay-cross-process/runner.py:527-600 | for a run that published everything, the verdict is positive if and only if nothing is left on the way |
| `HandleCaches.DecimalInjective` | cppsdk/src/RtiAmbassador.cpp:563-573 | decimal keys tell handles apart |
| `HandleCaches.HandleAnswer` | cppsdk/src/RtiAmbassador.cpp:487-513 | a handle lookup answers as the server, cached or not, and keeps the caches in agreement |
| `HandleCaches.NameAnswer` | cppsdk/src/RtiAmbassador.cpp:515-597 | a name lookup fails when the server's would and otherwise gives a name of that handle; forward and reverse entries stay inverse |
| `HandleCaches.HandleRemembered` | cppsdk/src/RtiAmbassador.cpp:487-513 | a handle found once is found again without the server, and its name with it |
| `HandleCaches.NameRemembered` | cppsdk/src/RtiAmbassador.cpp:515-539 | so is a name |
| `HandleCaches.NamesAgreeExactlyWhenSingle` | cppsdk/src/RtiAmbassador.cpp:508-539 | name answers equal the server's after every run of lookups if and only if no handle has two names |
| `HandleCaches.AliasExample` | cppsdk/src/RtiAmbassador.cpp:508-539 | a lookup by a local name after which the handle is named otherwise than by the server |
| `Ambassador.RunValid` | cppsdk/src/RtiAmbassador.cpp:333-483 | in every run a running stream implies membership, membership a connection, popped then queued is what was read, and caches agree with the current federation |
| `Ambassador.LookupsAgree` | cppsdk/src/RtiAmbassador.cpp:487-711 | after any run of connect, join, resign, rejoin and disconnect all four kinds of lookups answer as the current federation's directory |
| `Ambassador.LookupsRemembered` | cppsdk/src/RtiAmbassador.cpp:487-711 | all four kinds ask the server once: any later server, or none, gets the same answer out of the client |
| `Ambassador.ConnectingWorks` | cppsdk/src/RtiAmbassador.cpp:333-353 | connecting is refused exactly to a connected client or for a bad address, and changes nothing but the connection |
| `Ambassador.JoiningWorks` | cppsdk/src/RtiAmbassador.cpp:419-449 | after any run: who can join, and that a member has a running stream from which nothing was read |
| `Ambassador.ResigningWorks` | cppsdk/src/RtiAmbassador.cpp:451-483 | after any run: only a member can resign; if the server agrees it is outside, connected, and can join again |
| `Ambassador.DisconnectedIsFresh` | cppsdk/src/RtiAmbassador.cpp:355-375 | after any run, a disconnected client is refused everything but connecting, which succeeds |
| `Ambassador.GateIs` | cppsdk/src/RtiAmbassador.cpp:2774-2782 | the callback gate is where the last enable or disable left it, and moves nothing else |
| `Ambassador.PumpingReads` | cppsdk/src/RtiAmbassador.cpp:2342-2387 | while the stream runs, everything that arrives is read, popped then queued, in order and once |
| `Ambassador.RefusedResignation` | cppsdk/src/RtiAmbassador.cpp:451-475 | after any run and a resignation that is refused, the member reads no event in any later run for as long as it stays a member |
| `Ambassador.ResignationCanBeRefused` | cppsdk/src/RtiAmbassador.cpp:419-475 | connect, join and a refused resignation lead there in any federation, and joining again is refused |
| `Ambassador.RTIambassador.ConnectTo` | cppsdk/src/RtiAmbassador.cpp:333-353 | connecting twice is refused |
| `Ambassador.RTIambassador.DisconnectNow` | cppsdk/src/RtiAmbassador.cpp:355-375 | disconnecting stops the stream and empties caches and membership |
| `Ambassador.RTIambassador.JoinFederationExecution` | cppsdk/src/RtiAmbassador.cpp:419-449 | joining needs a connection and no membership, and starts the stream |
| `Ambassador.RTIambassador.ResignFederationExecution` | cppsdk/src/RtiAmbassador.cpp:451-483 | the stream stops before the server is asked; caches go only if it agrees |
| `Ambassador.RTIambassador.LookUpHandle` | cppsdk/src/RtiAmbassador.cpp:487-682 | the handle services refine the cache function for their kind |
| `Ambassador.RTIambassador.LookUpName` | cppsdk/src/RtiAmbassador.cpp:515-711 | the name services refine the cache function for their kind |
| `Ambassador.RTIambassador.DispatchOneEvent` | cppsdk/src/RtiAmbassador.cpp:2434-2441 | pops exactly the front event, if any |
| `Ambassador.RTIambassador.EvokeCallback` | cppsdk/src/RtiAmbassador.cpp:2734-2772 | for every interleaving with the reader: a run of arrivals and dispatches; at most one event, none while disabled, true exactly when one was popped and the queue is then not empty, order and count kept |
| `Ambassador.RTIambassador.TickCallback` | cppsdk/src/RtiAmbassador.cpp:2388-2430 | for every interleaving with the reader: a run of arrivals and dispatches; true exactly when something was popped, always if something was queued, none while disabled, order and count kept |
| `SplitMix.ShiftDivides` | benchmark/common/analyze.py:35-37 | the shift to the right by `k` divides by 2^k |
| `SplitMix.ScrambleInverse` | benchmark/common/analyze.py:35-37 | a xor-shift by 22 bits or more is undone by two shifted copies, both ways |
| `SplitMix.MixBijective` | benchmark/common/analyze.py:32-37 | the output mix is a bijection on 64-bit words, with the inverse given |
| `SplitMix.DrawIs` | benchmark/common/analyze.py:32-37 | one draw with the published constants, shifts as divisions |
| `SplitMix.DrawsDistinct` | benchmark/common/analyze.py:29-37 | any 2^64 consecutive draws from any state are pairwise distinct |
| `Sampler.LimitIsLargestMultiple` | benchmark/common/analyze.py:42-43 | the limit is the largest multiple of the length not above 2^64 |
| `Sampler.RejectionsBounded` | benchmark/common/analyze.py:44-47 | at most 2^64 mod length draws in a row are rejected |
| `Sampler.SplitMix64.NextU64` | benchmark/common/analyze.py:32-37 | one step of the walk and the mixed word |
| `Sampler.SplitMix64.Index` | benchmark/common/analyze.py:39-47 | an error exactly below one; otherwise the loop ends within (2^64 mod length) + 1 draws with the first accepted draw modulo length |
| `Sampler.Unbiased` | benchmark/common/analyze.py:42-47 | every index has exactly limit / length accepted draws |
| `Sampler.StatesUnbiased` | benchmark/common/analyze.py:29-47 | over all 2^64 generator states every index is the immediate answer equally often |
| `Sampler.OversizedNeverAnswers` | benchmark/common/analyze.py:42-47 | beyond 2^64 no draw is ever accepted |
| `OrderStatistics.SortedIs` | benchmark/common/analyze.py:57-57 | sorting gives a sorted permutation |
| `OrderStatistics.OrderStatisticsMonotone` | benchmark/common/analyze.py:57-64 | pointwise domination implies domination of every order statistic |
| `OrderStatistics.QuantileWithin` | benchmark/common/analyze.py:50-64 | a quantile exists exactly for a non-empty sample and a probability, and lies inside the sample |
| `OrderStatistics.QuantileIs` | benchmark/common/analyze.py:58-64 | at a fraction between two of the n - 1 steps the quantile is that fraction between the two order statistics |
| `OrderStatistics.MedianIs` | benchmark/common/analyze.py:50-64 | the median is the middle value, or the mean of the two |
| `OrderStatistics.ExtremesAre` | benchmark/common/analyze.py:50-64 | probabilities zero and one give least and greatest value |
| `OrderStatistics.QuantileMonotone` | benchmark/common/analyze.py:58-64 | quantiles grow with the probability |
| `OrderStatistics.QuantileDominates` | benchmark/common/analyze.py:57-64 | quantiles grow with the sample |
| `OrderStatistics.QuantileShifted` | benchmark/common/analyze.py:57-64 | adding a constant to the sample adds it to the quantile |
| `Bootstrap.Resample` | benchmark/common/analyze.py:72-73 | the sample is the one that the generator's picks choose, and the generator moves on accordingly |
| `Bootstrap.PercentileIntervalSound` | benchmark/common/analyze.py:76-80 | the 95 % interval exists exactly for some estimates, is ordered, inside them, grows with them and commutes with shifts |
| `Bootstrap.PercentileIntervalIs` | benchmark/common/analyze.py:76-80 | its ends lie one fortieth of the way in from either end of the sorted estimates |
| `Bootstrap.Reproducible` | benchmark/common/analyze.py:100-104 | seed, sample size and number of resamples determine every draw |
| `Bootstrap.SummarizeWith` | benchmark/common/analyze.py:87-108 | for any sound interval and measures: fails exactly for an empty sample or no resamples; otherwise each statistic is the function of data and generated draws |
| `Bootstrap.Summarize` | benchmark/common/analyze.py:87-108 | median, p95 and p99 for every sample and seed: median below p95 below p99 in the estimate and in both ends, and all nine numbers inside the data |
| `Bootstrap.SummaryCoherent` | benchmark/common/analyze.py:87-108 | the same for any draws whatsoever |
| `Bootstrap.SummaryWithin` | benchmark/common/analyze.py:83-108 | for any sound interval and any measure inside its sample: estimate and interval stay inside the data, low not above high, for every generator run |
| `Bootstrap.SummariesOrdered` | benchmark/common/analyze.py:93-108 | for any sound interval: a measure that is never lower has a higher estimate and both ends higher, from the same draws |
| `Bootstrap.PercentilesAre` | benchmark/common/analyze.py:93-97 | percentiles stay inside their sample, commute with shifts, and are ordered by probability |
| `PairedComparison.CompareWith` | benchmark/common/analyze.py:166-240 | for any sound interval and measure: fails exactly for an empty stratum or no resamples; otherwise both statistics are functions of records and generated rounds |
| `PairedComparison.Compare` | benchmark/common/analyze.py:166-240 | the median difference and the order-adjusted one for every seed, with both intervals inside the observed differences |
| `PairedComparison.RoundsReproducible` | benchmark/common/analyze.py:185-192 | seed, sizes of the strata and number of resamples determine every round |
| `PairedComparison.ComparisonWithin` | benchmark/common/analyze.py:224-240 | for any sound interval and any measure inside its sample, both statistics stay inside the observed differences |
| `PairedComparison.EveryoneReproduces` | benchmark/common/analyze.py:188-199 | the pooled strata are the records: a round that draws every pair once reproduces both estimates |
| `PairedComparison.OrderEffectCancels` | benchmark/common/analyze.py:150-155 | an effect of the running order cancels from the adjusted difference and its whole interval; a real difference shows in full |
| `PairedComparison.ReportedOrderEffectCancels` | benchmark/common/analyze.py:150-236 | so it does from what is reported: two sets of records that differ by such an effect, analysed with one seed |
| `Scheduler.Reference` | examples/multilanguage-queue/run.py:33-47 | for any integer services: succeeds if and only if all are positive and the last finish is within 3 n + 3, and then gives the schedule of the recurrence |
| `Scheduler.ShortServicesFit` | examples/multilanguage-queue/run.py:160-165 | services between one and three always fit the horizon |
| `Scheduler.Server.Accept` | examples/multilanguage-queue/workstation/model.go:26-34 | out-of-order and empty jobs are refused; otherwise service is reserved from the later of arrival and availability |
| `Scheduler.Reserve` | examples/multilanguage-queue/go_workstation/main.go:80-92 | reserving on arrival gives the schedule of the recurrence |
| `Scheduler.Compare` | examples/multilanguage-queue/run.py:114-120 | the first check passes: the two unlike computations agree in every field of every job |
| `Scheduler.DeparturesMatch` | examples/multilanguage-queue/run.py:118-123 | completion messages that come once each and in timestamp order are the departures of the reference, in the order of the jobs |
| `Scheduler.WorkloadBounds` | examples/multilanguage-queue/run.py:36-44 | no job finishes before an earlier arrival plus all the work from there on |
| `Scheduler.WorkloadAttained` | examples/multilanguage-queue/run.py:36-44 | each finishes exactly then for the job that began the busy period |
| `GoTestStream.LifecycleIs` | scripts/ieee2010_quality_gate.py:273-278 | a test's projection is run (pause cont)* pass exactly when it can begin so and ends in pass |
| `GoTestStream.AllowedIs` | scripts/ieee2010_quality_gate.py:273-278 | the transition table allows a move exactly when it continues the lifecycle |
| `GoTestStream.Consume` | scripts/ieee2010_quality_gate.py:244-280 | from a clean prefix a line is complained about exactly when the prefix with it leaves the language |
| `GoTestStream.ParseGoTest` | scripts/ieee2010_quality_gate.py:237-288 | passes exactly the language: exit code zero, every line proper, one package start before and one pass after all moves, whole lifecycles, required tests present; then observed equals passed |
| `Crossover.ShuffleBalanced` | benchmark/callback-reporting/crossover.py:23-26 | whatever the choice and the shuffle, the two sequences differ by at most one per phase |
| `Crossover.MakeSchedule` | benchmark/callback-reporting/crossover.py:17-31 | blocks numbered in order with distinct seeds, warm-up first; refused exactly for bad counts |
| `CrossoverRun.RunCrossover` | benchmark/callback-reporting/crossover.py:34-74 | writes the four trials of every block in order, and stops exactly if a trial fails or differs from its block |
| `CrossoverRun.IdenticalIsTrial` | benchmark/callback-reporting/crossover.py:88-96 | a row matches a block exactly when a run writes it for that block, to the last field |
| `CrossoverRun.AcceptedAreTrials` | benchmark/callback-reporting/crossover.py:84-98 | every accepted row is a trial of the schedule |
| `CrossoverRun.RunIsAccepted` | benchmark/callback-reporting/crossover.py:34-101 | what a whole run writes is accepted |
| `Crossover.ExpectedSize` | benchmark/callback-reporting/crossover.py:81-83 | four keys per block exactly when no block number repeats |
| `Crossover.Accept` | benchmark/callback-reporting/crossover.py:81-101 | accepts exactly rows that match the schedule one by one with distinct keys and equal evidence per block, and groups them |
| `CrossoverAnalysis.Bijection` | benchmark/callback-reporting/crossover.py:81-98 | accepted rows and scheduled trials correspond one to one |
| `CrossoverAnalysis.BlockOfFour` | benchmark/callback-reporting/crossover.py:84-106 | every scheduled block has exactly one row for each of its four positions |
| `CrossoverAnalysis.BlockMeanIs` | benchmark/callback-reporting/crossover.py:122-126 | a block mean is the mean of the profile's two positions, in whatever order the rows come |
| `CrossoverAnalysis.CancelsExactlyWhenSymmetric` | benchmark/callback-reporting/crossover.py:122-128 | whatever was measured, an additive effect of the position leaves the difference of block means alone if and only if it is as large on the outer two positions as on the inner two |
| `CrossoverAnalysis.OrderAndDriftCancel` | benchmark/callback-reporting/crossover.py:122-128 | whatever was measured, pair-position effects and linear drift cancel from the difference of block means, and what the candidate gains moves it by exactly that |
| `CrossoverAnalysis.UndisturbedDifference` | benchmark/callback-reporting/crossover.py:122-128 | in a block without any other influence the difference of the means is that of the two profiles |
| `CrossoverAnalysis.SpeedupWithin` | benchmark/callback-reporting/crossover.py:125-131 | the overall speedup lies between the extreme block ratios |
| `CrossoverAnalysis.SumIs` | benchmark/callback-reporting/crossover.py:129-129 | summing is additive and gives single values back |
| `CrossoverAnalysis.DrawKeepsStrata` | benchmark/callback-reporting/crossover.py:145-149 | a draw keeps the size of either stratum, an empty one included |
| `CrossoverAnalysis.ReplicateWithin` | benchmark/callback-reporting/crossover.py:148-150 | every bootstrap replicate lies between the extreme block ratios |
| `CrossoverAnalysis.IndicesInRange` | benchmark/callback-reporting/crossover.py:152-155 | both percentile positions are in range and in order for every positive number of samples |
| `CrossoverAnalysis.IndicesAreRanks` | benchmark/callback-reporting/crossover.py:152-155 | they are the nearest ranks of 2.5 and 97.5 percent |
| `CrossoverAnalysis.SpeedupInterval` | benchmark/callback-reporting/crossover.py:145-155 | the interval is the two order statistics of the replicates, ordered and between the extreme block ratios |
| `CrossoverAnalysis.MeasuredAtTheEnd` | benchmark/callback-reporting/crossover.py:103-103 | the measured blocks of a schedule as it is made are all those after the warm-up |
| `CrossoverAnalysis.Analyze` | benchmark/callback-reporting/crossover.py:77-155 | from rows to report: succeeds exactly for accepted rows, two measured blocks and a positive sample count; speedup and interval are then those of the measured block means and lie between the extreme block ratios |

## Left out

- Time management in the Float64 representation: its successor is the next representable number and its sums round.
- Scheduled saves, internal deletion deadlines, message retraction, receive-order delivery, stalls, halts and roll-back of failed transports in time management.
- Alternative LBTS and grant strategies; the model has the default ones.
- The order in which one evaluation of pending grants visits federates: the model allows any order, and an evaluation that stops early.
- Invocation receipts, late joins and resignations in the server's synchronization manager, and its persistence.
- Process start, files, time-outs and log output of all runners; `wait_for_start` gates.
- RPC wrappers and field copying of the C++ ambassador; object-instance lookups, which are not cached.
- Changes to a federation's directory while a federate is joined, and a federation destroyed and created again under one name.
- JSON, XML and URL parsing; a line of test output enters the model decoded.
- IEEE rounding in statistics, the order-adjusted ratio with its square root, and the ratios of the paired comparison, which repeat the treatment of differences.
- Per-order and per-position means, the ratio of second to first, standard deviations and callback totals of the crossover summary.
- Sampler.SplitMix64.Index: asks for a length of at most 2^64, because the loop does not end beyond it.
- SyncPoints.Achieve: the server also refuses a vote while the voter's own announcement is still on its way; both protocols vote only after reading the announcement, so nothing turns on it.
- Startup.WaitForStartup: takes the membership lists and the events of one stream as given; who sends them is in the transition system.
- TimeTheorems.Causality: the order of deliveries does not cover flush requests, which may be followed by earlier timestamps by design.
- Scheduler.Compare: only the check of the job fields; published numbers and grants are what the server delivers.
- PairedComparison.Compare: differences only, not ratios.
- CrossoverAnalysis.Analyze: without the demand for a positive callback count, which belongs to the totals left out.
- Manifest and schema validators, regular-expression scanners, the sensor and smoke examples: long lists of single checks or easy members.
