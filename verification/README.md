# Verification of the bitprim-network peer-to-peer core

bitprim-network connects a Bitcoin node to its peers by chains of callbacks that run on
several threads. This project models the parts of it whose correctness depends on how those
callbacks interleave, and the host address pool, and proves what they are for:

- the version handshake (`Events`, `Handshake`, `TwoParty`, `VersionProtocol`): it completes
  at most once however `set_event` calls race, loses no completion, and two endpoints over
  ordered links agree on the negotiated version in every interleaving;
- connections and their slots (`Outbound`, `Network`, `Connector`, `BatchConnect`,
  `ManualSession`, `SeedSession`, and `BatchRefinement`, `HandshakeRefinement` and
  `NetworkRefinement`, which tie the machines to each other): outbound slots are conserved, registration calls its
  handlers exactly once, no channel is lost or leaked, retries are bounded;
- the host pool (`HostPool`, `PoolOperations`, `Hosts`): a ring updated in place refines a
  bounded sequence, batch insertion keeps what it accepts, saving and loading is a round trip;
- the channel (`ReadCycle`, `MessageGap`, `Ping`, `SeedProtocol`): what is read and handed on,
  what a stop still lets through, no message gap after the handshake, ping discipline, and the
  completion code of seeding.

## How it is modelled

A protocol is a state machine: a total step function `Next` over a datatype of events and
`Run` over any sequence of events. Where threads matter (the event slot, the handshake, the
seed protocol, registration, the read cycle, the pong callback) a step is a single load, store, test or
invocation, so any number of callbacks may be under way and any of them may move next. Main
results speak of `Run` from the initial state over every event sequence. An event that cannot
happen in a state leaves it unchanged.

Where the source has an object whose methods update fields (`protocol_events` with
`protocol_timer`, the version, seed and ping protocols, `proxy`, `connector`, `p2p`, `hosts`)
there is a class whose methods are the callbacks or operations. Each method of the version and
seed protocols is proved to be a run of the machine from the state before it, and to keep the
machine's invariant; a callback may be called only when it is due. Methods of the others are
proved equal to steps of the machine, or for `p2p` and `hosts` to a specification on sequences.
The pool is a class over an array.

Library parts outside the repository are modelled by what their uses rely on:

- `synchronize` passes its result code through, fires at most once, and counts as the
  termination mode says (`Synchronize`);
- a subscription on a stopped subscriber is called back at once with the stop code;
- a pending collection refuses everything once stopped;
- `circular_buffer` drops its oldest entry when full;
- a cancelled deadline timer may or may not still call back.

Library constants (protocol levels, service bits, `max_address`), heading parsing, checksums,
address validity, authority text and shuffling are parameters. Random draws are arbitrary
values of their range. Service masks are sets of bits. Integers are unbounded except where the
source saturates (`ceiling_add` at 64 bits in the batch loop, `floor_subtract` in the manual
retries).

## What the code does not do

Some properties a reader might expect are false of the code. Each has a run from the initial
state that shows it and a theorem, over every run or every state, that says exactly when it holds.

- The pool's documentation says duplicates are discarded (include/bitcoin/network/hosts.hpp:38),
  but loading does not check: a file that names a host twice, or a load after a failed save,
  leaves duplicates (`DoubleLineDuplicates`, `FailedStopDuplicates`, `StartUniqueIff`).
- A manual connection's callback is lost when its first cycle connects a channel whose
  registration then fails (`CallbackDropped`, `CallbackLostIff`).
- A read or dispatch can follow a stop, because the stop flag is tested before and not together
  with the act it guards: at most one, and exactly when the stop falls between the two
  (`ReadAfterStop`, `StopSilencesIff`).
- A stop of a channel is not always final, because starting the channel clears it: it is final,
  whatever follows, exactly when the session can no longer come to start the channel
  (`StopForgotten`, `StopFinalIff`).
- A ping can be sent on a live channel after a wrong pong, because the pending flag is cleared
  before the nonces are compared: exactly when a heartbeat falls between the two (`HastyPing`,
  `PingDisciplineIff`). One ping can also go to the channel once it has stopped (`LatePing`,
  `LatePingIff`).
- The inner event handler of a protocol can see two stop codes: exactly when a second call with a
  stop code loads the handler before the first clears it (`TwoStopsSeen`, `StopsSeen`). The
  completion still runs once.

## Model

| member | source | states |
|---|---|---|
| `Synchronize.UndecidedJoin` | src/protocols/protocol_version_31402.cpp:78-79 | a join that no call has decided has not fired and has counted every call |
| `Synchronize.DecidedJoin` | src/protocols/protocol_version_31402.cpp:78-79 | a join fires once, with the code of the deciding call, whatever follows |
| `Synchronize.FiresAtMostOnce` | src/connector.cpp:154-156 | over any calls a join fires exactly when it goes from open to cleared, so at most once |
| `Synchronize.FirstSuccessJoin` | src/sessions/session_batch.cpp:49-50 | n calls on a first-success join fire once, with success iff some call succeeded |
| `Synchronize.CountJoin` | src/sessions/session_seed.cpp:127-128 | a counting join fires once n calls were made, whatever their codes |
| `Events.StepInv` | src/protocols/protocol_events.cpp:91-104 | every single load, clear or invocation of any `set_event` call keeps: one completion at most, success only after enough successes, no error lost |
| `Events.StepStable` | src/protocols/protocol_events.cpp:91-104 | a completion once made is never repeated or replaced |
| `Events.SuccessNeedsAll` | src/protocols/protocol_events.cpp:91-104 | completion with success needs as many successful calls as the join asks for |
| `Events.QuietCompletes` | src/protocols/protocol_events.cpp:91-104 | with no call under way the completion has run, once, iff some call carried an error or enough succeeded: no interleaving loses it |
| `Events.QuietSucceeds` | src/protocols/protocol_events.cpp:91-104 | with no error among the calls the one completion is success |
| `Events.TwoStopsSeen` | src/protocols/protocol_events.cpp:91-104 | a run of two racing stops in which the event handler sees both and the completion handler one |
| `Events.StopsSeen` | src/protocols/protocol_events.cpp:91-104 | in every interleaving, with no call under way, the stops seen number exactly the stop-coded calls that loaded the handler before its first clear, none if it was never cleared |
| `Events.LoadedFrozen` | src/protocols/protocol_events.cpp:94-103 | after the first clear no further stop-coded call can load the handler, over any continuation |
| `Events.SetEventAlone` | src/protocols/protocol_events.cpp:91-104 | the fine-grained steps run without interruption are `set_event` as one operation |
| `Events.EventSlot.constructor` | src/protocols/protocol_events.cpp:35-39 | a protocol begins without a handler |
| `Events.EventSlot.Start` | src/protocols/protocol_timer.cpp:46-73 | start fills the slot; the timer runs unless the channel has stopped |
| `Events.EventSlot.Expire` | src/protocols/protocol_timer.cpp:67-90 | the timer fires once and is not rearmed |
| `Events.EventSlot.IsStopped` | src/protocols/protocol_events.cpp:50-55 | stopped iff the slot is empty or the code is one of the two stop codes |
| `Events.EventSlot.JoinHandler` | src/protocols/protocol_version_31402.cpp:78-79 | the counter behind the handler is the join of the model |
| `Events.EventSlot.HandleNotify` | src/protocols/protocol_timer.cpp:55-61 | only a channel stop stops the timer; every code goes on to the join |
| `Events.EventSlot.RaiseEvent` | src/protocols/protocol_events.cpp:91-104 | the method is `set_event` of the model |
| `Handshake.NextInv` | src/protocols/protocol_version_31402.cpp:74-237 | every step of every callback keeps the handshake invariant: who was accepted, what is raised, what the slot tallies |
| `Handshake.CompletesOnce` | src/protocols/protocol_version_31402.cpp:74-237 | in every run completion happens at most once, with success only after exactly one accepted version and one verack, with peer and negotiated version set from it |
| `Handshake.CompletionIsFinal` | src/protocols/protocol_timer.cpp:75-90 | a late timer, stop, reject or message never completes again nor changes the completion |
| `Handshake.QuietCompletes` | src/protocols/protocol_version_31402.cpp:74-237 | with every callback at rest the handshake has completed, once, iff something it waits for happened; on a stopped channel always |
| `Handshake.NegotiatedBounds` | src/protocols/protocol_version_31402.cpp:138-217 | for every session's constructor arguments success implies level minimum <= protocol minimum <= negotiated <= protocol maximum <= level maximum, and the peer's services required and not forbidden |
| `Handshake.RejectionMeaning` | src/protocols/protocol_version_70002.cpp:88-114 | a rejected peer is never sufficient, and at BIP 61 level a peer is sufficient iff it is not rejected and offers no forbidden service |
| `Handshake.RejectionNeverSucceeds` | src/protocols/protocol_version_70002.cpp:88-114 | in every run against any peer, an endpoint that has sent a rejection never completes with success |
| `TwoParty.PairNextInv` | src/protocols/protocol_version_31402.cpp:74-237 | every step of either endpoint, delivery or timer keeps the joint invariant of the two endpoints and their links |
| `TwoParty.Agreement` | src/protocols/protocol_version_31402.cpp:74-237 | in every interleaving, once either endpoint succeeds each accepted exactly the other's version and both negotiated the lesser own version |
| `TwoParty.RejectionExcludesSuccess` | src/protocols/protocol_version_70002.cpp:88-160 | between two endpoints of this protocol, a rejection sent by either means that neither ever succeeds |
| `TwoParty.UndisturbedSucceeds` | src/protocols/protocol_version_31402.cpp:116-237 | two compatible endpoints, undisturbed and at rest with all messages delivered, have both succeeded |
| `VersionProtocol.VersionProtocol.constructor` | src/protocols/protocol_version_31402.cpp:44-69 | a new handshake: no handler, the configured maximum as negotiated version |
| `VersionProtocol.VersionProtocol.HandlerCalledOnce` | src/protocols/protocol_version_31402.cpp:74-87 | at any time the session's handler has been called at most once, with success only after one accepted version and one verack |
| `VersionProtocol.VersionProtocol.Start` | src/protocols/protocol_version_31402.cpp:74-87 | start is a run of the machine that opens the slot under a join of two and sends our version; on a stopped channel it includes the four callbacks made at once |
| `VersionProtocol.VersionProtocol.Receive` | src/message_subscriber.cpp:115-151 | a message is handed to the handler waiting for its type exactly when one waits and the channel runs; it is then no longer waiting |
| `VersionProtocol.VersionProtocol.StopChannel` | src/proxy.cpp:308-328 | a stop makes a call due of every handler still waiting |
| `VersionProtocol.VersionProtocol.Expire` | src/protocols/protocol_timer.cpp:75-90 | an armed timer fires once |
| `VersionProtocol.VersionProtocol.SufficientPeer` | src/protocols/protocol_version_70002.cpp:88-114 | the answer and the rejections sent are those of the specification |
| `VersionProtocol.VersionProtocol.HandleReceiveVersion` | src/protocols/protocol_version_31402.cpp:116-188 | the callback, once due, is a run of the machine's steps of it and keeps the invariant |
| `VersionProtocol.VersionProtocol.ReceiveVersion` | src/protocols/protocol_version_31402.cpp:116-188 | each exit of the callback raises its own code, and only the accepting one sets peer and negotiated version and sends a verack, after any rejections |
| `VersionProtocol.VersionProtocol.Vet` | src/protocols/protocol_version_31402.cpp:138-187 | settings, rejections, sufficiency and adoption in that order, with one event raised at the end |
| `VersionProtocol.VersionAlone` | src/protocols/protocol_version_31402.cpp:116-188 | the machine's micro-steps of the version callback, uninterrupted, have that outcome |
| `VersionProtocol.VersionProtocol.HandleReceiveVerack` | src/protocols/protocol_version_31402.cpp:219-237 | the callback, once due, is a run of the machine's steps of it and keeps the invariant |
| `VersionProtocol.VersionProtocol.HandleReceiveReject` | src/protocols/protocol_version_70002.cpp:116-160 | the callback, once due, is such a run, and stays subscribed iff it raised nothing on a live protocol |
| `VersionProtocol.VersionProtocol.HandleTimer` | src/protocols/protocol_timer.cpp:75-90 | the callback of a timer that fired is such a run: a timeout on a live protocol, on a stopped one nothing |
| `VersionProtocol.VersionProtocol.HandleStopped` | src/protocols/protocol_events.cpp:75-86 | the stop notice, once due, is such a run and raises the channel stop code whatever its own code |
| `Outbound.SlotConservation` | src/sessions/session_outbound.cpp:64-109 | in every run until the session stops the slots in batch, delay, registration or open are exactly those started, never above the configured number, and no undecided batch is left with nobody to report |
| `Outbound.SlotsNeverGrowAfterStop` | src/sessions/session_outbound.cpp:82-92 | after the session stops the slots never grow |
| `Outbound.OpenBounded` | src/sessions/session.cpp:256-282 | the session's own channels among the open connections never exceed the configured number |
| `Outbound.RegistrationExactlyOnce` | src/sessions/session.cpp:181-282 | per channel the start and stop handlers run at most once, and exactly once when the handshake is over and a stop made since the channel was started is relayed, on every path; a channel whose stop was handled is in no collection |
| `Outbound.StopFinalIff` | src/proxy.cpp:91-100 | of a stopped channel, in any state: it stays stopped over every continuation iff it is past its start, or its registration is over or bound to fail |
| `Outbound.StopForgotten` | src/sessions/session_outbound.cpp:199-207 | a run in which the network stops a pended channel and the session then starts it running |
| `HandshakeRefinement.CompletionReachesSession` | src/sessions/session.cpp:206-247 | in every interleaving of the session with a channel's handshake, the step that calls the completion handler is the only such, finds the channel waiting, and passes its code to the registration |
| `HandshakeRefinement.HandshakeInv` | src/sessions/session.cpp:206-247 | every step of the handshake keeps: its channel waits exactly until it completes |
| `Outbound.NoUntrackedWindow` | src/sessions/session_outbound.cpp:193-215 | from pend to delivered stop a channel is in the handshake or the close collection at every micro-step, has left the first when its start handler ran, and open authorities are pairwise distinct |
| `Outbound.NextConserved` | src/sessions/session_outbound.cpp:82-187 | every step keeps the slot count, and never raises it once stopped |
| `Outbound.NextTracked` | src/sessions/session.cpp:249-282 | every step keeps the collections equal to what the registrations say |
| `Outbound.NextChannelsOk` | src/sessions/session.cpp:181-282 | every step keeps each channel's handlers in exactly one place: not yet due, due, or called |
| `Outbound.StartSlots` | src/sessions/session_outbound.cpp:64-80 | the start loop opens exactly the configured number of slots |
| `Outbound.ConnectBatch` | src/sessions/session_batch.cpp:47-127 | the batch loop makes every attempt, leaves in flight those that have not failed at once, and decides the batch inside the loop iff all have; on a stopped session all have |
| `Network.P2p.constructor` | src/p2p.cpp:68-80 | a new network has no pending or open channel |
| `Network.PendUnpend` | src/p2p.cpp:450-458 | unpending a channel undoes its pending and leaves the others as they were |
| `NetworkRefinement.AdvancePends` | src/sessions/session_outbound.cpp:193-215 | a registration step changes the network's handshake collection by exactly `pend` or `unpend` of that channel, or not at all |
| `NetworkRefinement.AdvanceStores` | src/sessions/session.cpp:249-282 | a registration step changes the open connections by exactly `store`, whose code it passes on, or `remove` of that channel, or not at all |
| `NetworkRefinement.InUseIsConnects` | src/p2p.cpp:478-486 | an authority is in use to the session iff the network is connected to it |
| `NetworkRefinement.NetworkDistinct` | src/p2p.cpp:488-503 | in every run the network's open connections have pairwise distinct authorities |
| `Network.P2p.UnpendChannel` | src/p2p.cpp:455-458 | unpending removes that channel and nothing else |
| `Network.P2p.Pending` | src/p2p.cpp:460-468 | true iff some channel in handshake has that nonce |
| `Network.P2p.Connected` | src/p2p.cpp:478-486 | true iff some open channel has that authority |
| `Network.P2p.StoreChannel` | src/p2p.cpp:488-503 | storing refuses a connected authority and keeps authorities pairwise distinct |
| `Network.P2p.RemoveChannel` | src/p2p.cpp:505-508 | the channel is gone, exactly one entry fewer if it was there |
| `Network.WithoutDistinct` | src/p2p.cpp:505-508 | removal keeps authorities distinct and takes out exactly one entry if present |
| `Connector.ReportsOnce` | src/connector.cpp:97-193 | every path reports at most once, exactly once when settled, and success only from a finished connect |
| `Connector.ReportIsFinal` | src/connector.cpp:174-193 | the loser of the race changes nothing |
| `Connector.NextInv` | src/connector.cpp:54-193 | every step of resolve, connect, timer and stop keeps one report or one on its way |
| `Connector.Connector.constructor` | src/connector.cpp:39-50 | a new connector has made no report |
| `Connector.Connector.Stop` | src/connector.cpp:54-80 | stopping cancels the timer and reports nothing itself |
| `Connector.Connector.Connect` | src/connector.cpp:97-124 | connect on a stopped connector queues the one report, otherwise resolves |
| `Connector.Connector.HandleResolve` | src/connector.cpp:126-172 | a stop or failed resolution queues the one report, otherwise timer and connect race |
| `Connector.Connector.HandleConnect` | src/connector.cpp:174-187 | the connect side calls the join with its code |
| `Connector.Connector.HandleTimer` | src/connector.cpp:189-193 | the timer side calls the join with an error |
| `BatchConnect.NextInv` | src/sessions/session_batch.cpp:56-127 | every step of every attempt keeps each attempt's calls of the join to at most one |
| `BatchConnect.BatchResult` | src/sessions/session_batch.cpp:47-127 | a batch hands on at most one result; with all attempts settled exactly one, a channel iff some attempt connected |
| `BatchRefinement.StepRefines` | src/sessions/session_batch.cpp:56-127 | each step of a batch's attempts, on a running or stopped session, is at most one step of the session's count of it, and keeps the session's slots |
| `BatchRefinement.BatchKeepsSlot` | src/sessions/session_batch.cpp:47-127 | in every interleaving of a batch's attempts with whatever else the session does, stopping included, the slots are conserved, the session's count of the batch is right, and with all attempts settled the batch is decided |
| `ManualSession.CallbackOnce` | src/sessions/session_manual.cpp:73-196 | across all reconnections the caller's callback runs at most once; a limited cycle stays within its limit |
| `ManualSession.CallbackLostIff` | src/sessions/session_manual.cpp:109-169 | once the first cycle is over the callback was never called iff that cycle connected a channel whose registration failed, was called with success iff it succeeded, and with an error otherwise |
| `ManualSession.CallbackDropped` | src/sessions/session_manual.cpp:147-159 | a run in which the callback is lost for good |
| `ManualSession.ExactlyLimitAttempts` | src/sessions/session_manual.cpp:87-145 | in every run without a connection or session stop the attempts are the failures and perhaps one under way; with limit L > 0 the cycle ends exactly on the L-th failure and calls back once with that error; with no limit it never ends |
| `ManualSession.NextInv` | src/sessions/session_manual.cpp:73-196 | every step keeps the callback in exactly one place and the attempts made and left at the limit |
| `SeedSession.SeedingJoin` | src/sessions/session_seed.cpp:123-198 | the start handler has run, once, iff every seed has reported, whatever way each ended |
| `SeedSession.SeedingResult` | src/sessions/session_seed.cpp:223-231 | the call is made by the last report, with success iff the pool is not empty at that step |
| `SeedSession.NextInv` | src/sessions/session_seed.cpp:135-198 | every step keeps the join's calls equal in number to the seeds that reported, and the handler's calls to the join's |
| `SeedSession.StartSeeding` | src/sessions/session_seed.cpp:123-155 | the loop starts every seed; on a stopped session all report inside it and the handler has run |
| `HostPool.PushIsLastN` | include/bitcoin/network/hosts.hpp:64 | pushing onto the newest entries of a history gives the newest entries of the longer history |
| `HostPool.ExaminedUnique` | src/hosts.cpp:337-338 | the loop counter that just passed the end is the number of examined indices |
| `HostPool.ExaminedBounds` | src/hosts.cpp:322-338 | accept is at least 1; the examined indices number at least min(accept, usable) and min(gap, usable), at most min(usable, 2 accept - 1) and the capacity |
| `HostPool.StrideBounds` | src/hosts.cpp:334-338 | a stride of usable / accept examines between accept and 2 accept - 1 indices |
| `HostPool.InsertBatchSurvival` | src/hosts.cpp:322-356 | for every pool, list and draw the result is the newest `capacity` of old then accepted; accepted entries are valid, from the list, pairwise distinct and all still there; uniqueness is kept |
| `HostPool.AdmitAllFresh` | src/hosts.cpp:337-356 | a sample of valid, distinct, unknown hosts is accepted whole |
| `HostPool.LoadSaved` | src/hosts.cpp:143-206 | loading what was saved gives, in order, the entries with a port, reduced to ip and port |
| `HostPool.KeptIdempotent` | src/hosts.cpp:143-206 | what survives one save and load survives the next |
| `HostPool.KeptHas` | src/hosts.cpp:143-206 | a host survives iff it was there and has a port |
| `PoolOperations.StopStartRoundTrip` | src/hosts.cpp:123-219 | a successful stop then start restores exactly those entries in order, and further cycles change nothing |
| `PoolOperations.StoreRemoveMeaning` | src/hosts.cpp:221-300 | remove takes out that host only and succeeds iff it was there; store makes a valid host findable and evicts at most the oldest |
| `PoolOperations.ApplyKeepsUnique` | src/hosts.cpp:123-366 | every operation but a save on a bad stream keeps uniqueness, bound and the file free of duplicates: stores, remove, loads and saves that succeed, that fail, or that find the file unopened |
| `PoolOperations.EveryRunUnique` | src/hosts.cpp:123-366 | from a new pool over a file without duplicates every run without a save on a bad stream stays within capacity and free of duplicates |
| `PoolOperations.StartUniqueIff` | src/hosts.cpp:149-157 | after a load the pool has no duplicates iff what remains of its entries and what is kept of the file have none and share none |
| `PoolOperations.FailedStopDuplicates` | src/hosts.cpp:196-206 | from a new pool, a run of load, failed save and load that leaves duplicates |
| `PoolOperations.DoubleLineDuplicates` | src/hosts.cpp:149-157 | from a new pool, one load of a file that names a host twice leaves duplicates |
| `Hosts.Hosts.constructor` | src/hosts.cpp:36-44 | a new pool is empty, stopped, of the lesser capacity |
| `Hosts.Hosts.PushBack` | include/bitcoin/network/hosts.hpp:64 | the ring refines the bounded sequence |
| `Hosts.Hosts.Erase` | src/hosts.cpp:240-245 | shifting in place removes exactly that entry and keeps the order |
| `Hosts.Hosts.Find` | src/hosts.cpp:46-55 | the first entry with that ip and port, or the end |
| `Hosts.Hosts.Count` | src/hosts.cpp:57-65 | the number of entries |
| `Hosts.Hosts.FetchOne` | src/hosts.cpp:67-88 | the drawn entry, or the error of a disabled, stopped or empty pool |
| `Hosts.Hosts.FetchMany` | src/hosts.cpp:90-120 | a permutation of the oldest share of the entries, or that error |
| `Hosts.Hosts.Start` | src/hosts.cpp:123-171 | the load loop in place is the load of the specification, with its error codes |
| `Hosts.Hosts.Stop` | src/hosts.cpp:174-219 | the save loop writes every entry in order and clears, or fails and keeps |
| `Hosts.Hosts.Remove` | src/hosts.cpp:221-254 | removal in place, with the three error cases |
| `Hosts.Hosts.StoreOne` | src/hosts.cpp:256-300 | store in place, invalid and duplicate hosts included |
| `Hosts.Hosts.Pace` | src/hosts.cpp:322-334 | usable count and stride, without division by zero |
| `Hosts.Hosts.Consider` | src/hosts.cpp:338-355 | one turn of the batch loop extends what was admitted by exactly that host's admission |
| `Hosts.Hosts.Admitting` | src/hosts.cpp:337-356 | the batch loop ends and admits exactly the sampled hosts, in order |
| `Hosts.Hosts.StoreMany` | src/hosts.cpp:302-366 | batch store in place is the batch insert of the specification, with its error cases |
| `ReadCycle.NextInv` | src/proxy.cpp:91-258 | every micro-step, with stops from any thread between, keeps the trace legal and its last read matched to the state |
| `ReadCycle.LegalMeaning` | src/proxy.cpp:120-258 | in a legal trace at most one read is outstanding and heading and payload reads alternate |
| `ReadCycle.ReadCycleSafety` | src/proxy.cpp:91-258 | in every run the trace is legal: one read at most, alternation, every message handed on with a valid heading of this network, within the size limit, of the size announced, and a matching checksum if validated; at most one act after a stop |
| `ReadCycle.StopSilencesIff` | src/proxy.cpp:120-219 | a stop ends all reading and dispatching, whatever follows short of a new start, iff no act is between its passed stop test and itself |
| `ReadCycle.StopOvertaken` | src/proxy.cpp:120-128 | otherwise one more act does follow |
| `ReadCycle.ReadAfterStop` | src/proxy.cpp:120-128 | a run in which a heading read is issued after the stop |
| `ReadCycle.Channel.constructor` | src/proxy.cpp:49-66 | a new channel is stopped |
| `ReadCycle.Channel.Start` | src/proxy.cpp:91-107 | a running channel refuses to start; otherwise it is opened, whatever stopped it before, and the start handler runs before the first read |
| `ReadCycle.Channel.Halt` | src/proxy.cpp:308-328 | stopping sets the flag and leaves an outstanding read outstanding |
| `ReadCycle.Channel.AskHeading` | src/proxy.cpp:120-128 | one heading read is issued unless stopped |
| `ReadCycle.Channel.AskPayload` | src/proxy.cpp:176-187 | one payload read is issued for that heading unless stopped |
| `ReadCycle.Channel.HandleReadHeading` | src/proxy.cpp:130-174 | the callback is the machine from heading completion to its rest |
| `ReadCycle.Channel.HandleReadPayload` | src/proxy.cpp:189-219 | the callback is the machine from payload completion to the dispatch |
| `ReadCycle.Channel.AfterDispatch` | src/proxy.cpp:219-258 | a load error or trailing bytes stop the channel, otherwise the next heading is read |
| `MessageGap.NoMessageGap` | src/message_subscriber.cpp:115-151 | with the dispatch table of the source no run has a heading read outstanding on a live channel after a successful handshake before every following protocol has subscribed |
| `MessageGap.GapFreeIff` | src/message_subscriber.cpp:144-146 | no run has such a gap iff both version and verack are handled on the reading thread |
| `MessageGap.RelayedGap` | include/bitcoin/network/message_subscriber.hpp:111-146 | relaying either of the two gives a run with a gap |
| `MessageGap.NextInv` | src/sessions/session.cpp:233-275 | every step keeps the registration chain on the reading thread and its subscriptions up to date |
| `Ping.OnePongOwed` | src/protocols/protocol_ping_60001.cpp:47-135 | on a live channel a ping is pending iff its pong subscription is outstanding or its pong's callback has yet to clear the flag, and never two of these; at most one ping after the channel stopped |
| `Ping.PingDisciplineIff` | src/protocols/protocol_ping_60001.cpp:47-135 | a run sends each ping on the live channel only after a matching first pong to the one before iff no heartbeat sends between the clear and the compare of a wrong pong |
| `Ping.HastyPing` | src/protocols/protocol_ping_60001.cpp:124-133 | a run that sends a ping on the live channel between the two |
| `Ping.HeartbeatMeaning` | src/protocols/protocol_ping_60001.cpp:47-73 | a heartbeat on a live channel stops it iff the last ping is unanswered or its answer has yet to clear the flag, and otherwise pings |
| `Ping.PongMeaning` | src/protocols/protocol_ping_60001.cpp:109-135 | a pong whose callback is not interrupted keeps a live channel up iff no answer was owed or it carries the owed nonce |
| `Ping.LatePing` | src/protocols/protocol_ping_60001.cpp:109-135 | a run in which a ping goes to a channel already stopped by a wrong pong |
| `Ping.LatePingIff` | src/protocols/protocol_ping_60001.cpp:47-73 | a late ping is sent iff the protocol has not heard of the stop, sent none since, and no ping is unanswered or its answer yet to clear the flag |
| `Ping.PingProtocol.constructor` | src/protocols/protocol_ping_60001.cpp:38-44 | a new protocol has no ping pending |
| `Ping.PingProtocol.SendPing` | src/protocols/protocol_ping_60001.cpp:47-73 | the callback is the machine's heartbeat |
| `Ping.PingProtocol.Receive` | src/message_subscriber.cpp:115-151 | a pong on a live channel goes to the one subscription waiting, which is then gone |
| `Ping.PingProtocol.HandleReceivePong` | src/protocols/protocol_ping_60001.cpp:109-135 | the callback is the machine's clear and compare, also when the channel has stopped meanwhile |
| `Ping.PingProtocol.HandleReceivePing` | src/protocols/protocol_ping_60001.cpp:90-107 | a ping on a live channel is answered with its nonce |
| `SeedProtocol.NextInv` | src/protocols/protocol_seed_31402.cpp:48-154 | every micro-step keeps at most two successes among the events raised |
| `SeedProtocol.CompletesWithError` | src/protocols/protocol_seed_31402.cpp:48-154 | in every run at most two success events occur, so the three-way join completes at most once and only with an error; the channel is stopped at most once, with the code of the completion, so never with success |
| `SeedProtocol.QuietCompletes` | src/protocols/protocol_seed_31402.cpp:48-154 | at rest the protocol has completed and stopped its channel iff it was refused or some event carried an error |
| `SeedProtocol.TurnSettles` | src/protocols/protocol_seed_31402.cpp:93-154 | a callback's micro-steps, uninterrupted, are its body and one whole event |
| `SeedProtocol.SeedProtocol.constructor` | src/protocols/protocol_seed_31402.cpp:37-43 | a new protocol has no handler |
| `SeedProtocol.SeedProtocol.CompletesWithErrorOnce` | src/protocols/protocol_seed_31402.cpp:48-91 | at any time the completions number at most one and none is with success |
| `SeedProtocol.SeedProtocol.Start` | src/protocols/protocol_seed_31402.cpp:48-84 | start is a run of the machine with the callbacks it makes itself, and keeps the invariant |
| `SeedProtocol.SeedProtocol.Complete` | src/protocols/protocol_seed_31402.cpp:65-105 | a send or store that is awaited completes once, and its callback is then due |
| `SeedProtocol.SeedProtocol.Receive` | src/message_subscriber.cpp:115-151 | an address message is handed over exactly when its handler waits and the channel runs |
| `SeedProtocol.SeedProtocol.StopChannel` | src/proxy.cpp:308-328 | a stop makes a call due of the handlers still subscribed |
| `SeedProtocol.SeedProtocol.StopAfterCompletion` | src/protocols/protocol_seed_31402.cpp:86-91 | after the completion the channel is stopped with its code, which is an error |
| `SeedProtocol.SeedProtocol.Expire` | src/protocols/protocol_timer.cpp:75-90 | an armed timer fires once |
| `SeedProtocol.SeedProtocol.HandleSendAddress` | src/protocols/protocol_seed_31402.cpp:108-115 | the callback, once due, is a run of the machine's steps of it and keeps the invariant; a failed send counts as sent |
| `SeedProtocol.SeedProtocol.HandleSendGetAddress` | src/protocols/protocol_seed_31402.cpp:117-133 | the callback, once due, is a run of the machine's steps of it and keeps the invariant |
| `SeedProtocol.SeedProtocol.HandleReceiveAddress` | src/protocols/protocol_seed_31402.cpp:93-106 | the callback, once due, is a run of the machine's steps of it and keeps the invariant; addresses go to the pool iff the protocol is live |
| `SeedProtocol.SeedProtocol.HandleStoreAddresses` | src/protocols/protocol_seed_31402.cpp:135-154 | the callback, once due, is a run of the machine's steps of it and keeps the invariant; a successful store ends seeding with the stop code |
| `SeedProtocol.SeedProtocol.HandleTimer` | src/protocols/protocol_timer.cpp:75-90 | the callback, once due, is a run of the machine's steps of it and keeps the invariant |
| `SeedProtocol.SeedProtocol.HandleStopped` | src/protocols/protocol_events.cpp:75-86 | the callback, once due, is a run of the machine's steps of it and keeps the invariant |

## Left out

- `session`, `session_batch`, `session_outbound`, `session_manual` and `session_seed` are modelled on values: their callbacks are step functions over one state, and only their loops are methods. The shared collections they update are also given as the class `Network.P2p`. Aliasing between objects is not captured.
- `message_subscriber` is modelled by its dispatch table and by what is subscribed; delivery to individual subscribers is part of each protocol's machine.
- `MessageGap` takes the handshake as its two joined messages; its own races are in `Handshake`.
- Ping.PingDisciplineIff: takes the subscription and the send of a heartbeat as one step, as do `Ping.OnePongOwed` and `Ping.LatePingIff`. A pong that arrives between the two (src/protocols/protocol_ping_60001.cpp:71-72), before its ping is sent, is not modelled.
- ReadCycle.Channel.Start: does not model a second start while the reading thread of the first is still under way, which would be a second read cycle; a session starts each channel once.
- `p2p::stop` closing all collections: channels it stops appear as channels that stop.
- Sockets, the resolver, thread pools, mutexes, file streams and logging. A locked section is one step.
- Sending: `proxy::do_send` and write failures appear only as the result codes of send callbacks.
- The inbound session, the acceptor, blacklists, the connection count, and the detection of connections to self.
- The address and reject protocols, and the expiration and inactivity timers of `channel`; each has one-step handlers.
- The early exits of the outbound, manual and seed sessions' start functions.
- `settings`, user agent, build configuration and error message text.
