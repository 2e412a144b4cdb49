# Verified models of the recovery, delivery and gateway cores

This project models, in Dafny, the parts of the trading gateway whose correctness rests on ordering, counting or
agreement between structures, and proves what they promise for every run or every input.

| files | what they model |
|---|---|
| `BybitDispatcher.dfy`, `BybitRuns.dfy`, `BybitClient.dfy` | the callback dispatcher of the Bybit private WebSocket, its runs, and the client's reconnect bookkeeping that drives it |
| `BybitAlternation.dfy`, `BybitRepeats.dfy` | when two Recovered callbacks have a Started between them, and a client run in which they have none |
| `BybitProgress.dfy`, `BybitReconnect.dfy` | what the Bybit dispatcher and client answer to each call, and that a recovery taking its steps in turn completes |
| `BitgetDispatcher.dfy`, `BitgetRuns.dfy`, `BitgetAnnouncements.dfy` | the Bitget data dispatcher with its drain barrier, the lifecycle queue beside it, and the runs of both with the client |
| `BitgetAlternation.dfy`, `BitgetSuppression.dfy` | the lifecycle history of those runs: when a launch queues a Started, when two Recovered hooks have a Started hook between them, and a run in which they have none |
| `BitgetProgress.dfy` | the same for the Bitget client with its dispatchers |
| `PausableDispatcher.dfy`, `PausableProgress.dfy` | the pausable, bounded dispatcher with revisions, and what it answers and gets done |
| `ClosableStream.dfy` | the emit and close protocol of the event stream |
| `RateCoordinator.dfy`, `RateRuns.dfy`, `RateTransport.dfy` | the rate coordinator, its runs, and the charges the HTTP transport makes |
| `TopicHub.dfy`, `TopicDelivery.dfy` | topic lifetime, linger timers and retained replay in the hub; who is attached and what each emission reaches |
| `OrderBook.dfy`, `BookPositions.dfy` | the local order book pump, and what its books mean by positions in the inputs |
| `Catalog.dfy`, `CatalogPublication.dfy` | the instrument catalog's indexes, lookup and publication |
| `CursorPages.dfy` | cursor pagination of the Bitget private REST client |
| `DerivativeFacts.dfy` | masked patches of derivative facts |
| `Options.dfy`, `Texts.dfy`, `Folds.dfy` | the optional value, the text helpers and the repeated steps they share |

How the concurrent parts are modelled. Each section of code that holds a lock is one atomic step: a function on a
value of type `State` (or the like), and a method of a class that is proved to compute that function. What a goroutine
has captured between two such sections is explicit state. A run is an arbitrary sequence of steps from the initial
state, where a step that is not enabled changes nothing, so a theorem about every sequence of steps is a theorem about
every interleaving. Callbacks append to a trace when they begin and when they return, and the theorems are about
positions in that trace. The modules named Progress, Reconnect, Delivery and Positions say what is done, where the others
say what is never done: each answer is told from the calls and the history, and a run that is left to take its steps in
turn gets to its end. `dafny verify dfyconfig.toml` checks everything.

Results that are not what a reader might expect:

- In the Bybit dispatcher two Recovered callbacks can run with no Started between them; `BybitRepeats.RecoveredsMayRepeat`
  is a run of the client. Between a Recovered and the next one a Started runs exactly when the return of the first closed
  the gap or a beginGap took effect while the first was in flight (`BybitAlternation.RecoveredsApartIff`).
- In the Bitget client a launch can queue no Started, so that a gap is recovered without one;
  `BitgetSuppression.StartedMayBeSuppressed` is a run. A launch queues none exactly when the lifecycle queue has stopped,
  or the lifecycle gap is open and either no Recovered callback is in flight or a Started is queued already
  (`BitgetAlternation.LaunchQueuesIff`). Between a Recovered hook and the next one a Started hook runs exactly when the
  return of the first callback closed the lifecycle gap or a launch happened while a Recovered callback was in flight
  (`BitgetAlternation.RecoveredHooksApartIff`).
- The pausable dispatcher keeps the order of admission in every run exactly when callers have one ingress thread and one
  Resume at a time (`PausableDispatcher.InOrderIff`); with several of either, and one of the other, a run that breaks it
  is given (`PausableDispatcher.TwoIngressesReorder`, `PausableDispatcher.TwoResumesReorder`).
- The order-history window check subtracts 64-bit integers, so a window whose span is at least 2^63 milliseconds is
  accepted (`CursorPages.WindowExact`).
- The truncation flag of a bounded read is raised without a record beyond the limit exactly when the list ends at the
  limit and the venue still offers a cursor there (`CursorPages.HonestRead`); `CursorPages.FlagWithoutMore` is such a
  venue.
- The funding fields share one clock and the open-interest fields share another, so the order of patches shows there
  even when clocks are distinct (`DerivativeFacts.FundingOrderMatters`, `DerivativeFacts.InterestOrderMatters`). For any
  patches with any clocks, ties included, the result is the same in every order exactly when, field by field, the
  patches with the greatest clock that bring the field agree on it, or none of them brings it and every other taken
  patch that does brings the value held (`DerivativeFacts.FundingOrderFreeIff`, `DerivativeFacts.InterestOrderFreeIff`,
  `DerivativeFacts.FactOrderFreeIff`).

Assumptions shared with the code's callers: the clock given to the rate coordinator does not go back; a data callback
reaches the Bybit dispatcher with a connection that is not nil, as its only caller guarantees; a price has one decimal
text.

## Model

| member | source | states |
|---|---|---|
| `BybitDispatcher.Dispatcher.constructor` | sdk/bybit/private_ws_dispatch.go:46-53 | A new dispatcher is empty, open and has the queue limit. |
| `BybitDispatcher.Dispatcher.ActivateConnection` | sdk/bybit/private_ws_dispatch.go:55-73 | The whole new state for every generation, connection and recovering flag, stopped dispatchers included. |
| `BybitDispatcher.Dispatcher.EnqueueDataCallback` | sdk/bybit/private_ws_dispatch.go:75-112 | Which data is ignored, refused, queued or buffered for the replacement, the new state, and the result. |
| `BybitDispatcher.Dispatcher.OpenGap` | sdk/bybit/private_ws_dispatch.go:114-137 | The new state of a gap: replacement dropped, queued Recovered removed, at most one Started added. |
| `BybitDispatcher.Dispatcher.DiscardReplacement` | sdk/bybit/private_ws_dispatch.go:139-152 | What discarding changes, and that it changes nothing for another generation or connection. |
| `BybitDispatcher.Dispatcher.EnqueueRecoveredCallback` | sdk/bybit/private_ws_dispatch.go:154-173 | The new state, and the result in every error case. |
| `BybitDispatcher.Dispatcher.StopAll` | sdk/bybit/private_ws_dispatch.go:175-195 | The state after stop. |
| `BybitDispatcher.Dispatcher.TakeNext` | sdk/bybit/private_ws_dispatch.go:200-220 | The first section of the run loop: what is taken off, and that a stale Recovered is skipped. |
| `BybitDispatcher.Dispatcher.FinishCallback` | sdk/bybit/private_ws_dispatch.go:226-237 | The second section of the run loop: when the gap closes and the replacement joins the queue. |
| `BybitDispatcher.Dispatcher.DropReplacementLocked` | sdk/bybit/private_ws_dispatch.go:249-256 | The replacement is dropped and the counter reduced, clamped at zero. |
| `BybitDispatcher.Dispatcher.RemoveQueuedRecoveredLocked` | sdk/bybit/private_ws_dispatch.go:258-270 | The in-place filter keeps exactly the other callbacks, in order. |
| `BybitDispatcher.Dispatcher.HasQueuedKindLocked` | sdk/bybit/private_ws_dispatch.go:272-279 | True exactly when a callback of the kind is queued. |
| `BybitRuns.CallbackOrder` | sdk/bybit/private_ws_dispatch.go:55-256 | In every run with rising gap generations: callbacks do not overlap; no data runs between a Started and the Recovered that closes its gap; two Starteds have a Recovered between them; a Recovered runs only if a Started has run since the last closing; data runs at most once, in arrival order, and only if accepted outside a gap or in a gap closed for its own connection; a generation closes once. |
| `BybitRuns.OnlyRecoveredConnectionRuns` | sdk/bybit/private_ws_dispatch.go:75-112 | Buffered data that runs belongs to the connection whose Recovered closed its gap, and runs after that closing; data of any other replacement never runs. |
| `BybitRuns.Bounded` | sdk/bybit/private_ws_dispatch.go:84-112 | In every reachable state the pending counter is queued data plus replacement, so the clamp never fires; at most one Started and one Recovered are queued; queue and replacement stay within 1024. |
| `BybitRuns.NothingLost` | sdk/bybit/private_ws_dispatch.go:197-256 | Every accepted data callback has run, is held, or was dropped, exactly one of these; only buffered data is dropped before stop. |
| `BybitRuns.InvHolds` | sdk/bybit/private_ws_dispatch.go:55-240 | The invariant behind the theorems holds in every reachable state. |
| `BybitRuns.AcceptOnce` | sdk/bybit/private_ws_dispatch.go:75-112 | No data callback is accepted twice. |
| `BybitRuns.RecoveredsApartOnceClosed` | sdk/bybit/private_ws_dispatch.go:226-237 | After a Recovered whose return closed the gap, a Started runs before the next Recovered. |
| `BybitAlternation.RecoveredsApartIff` | sdk/bybit/private_ws_dispatch.go:114-137 | In every run, between a Recovered and the next one a Started begins if and only if the return of the first closed the gap or a beginGap took effect while the first was in flight. |
| `BybitAlternation.EveryRun` | sdk/bybit/private_ws_dispatch.go:55-240 | The invariant behind it: while nothing is due the gap is open with no Started queued, and a Started that is due is queued. |
| `BybitProgress.ArrivalAnswered` | sdk/bybit/private_ws_dispatch.go:75-112 | In every run data is accepted if and only if the dispatcher is not stopped, its connection is the one attached by the calls, fewer than limit - 2 data (at least 1) are pending, and the open gap waits for it; it is then recorded with the next serial and the open generation, and held in the queue outside a gap and behind the replacement's data in one. |
| `BybitProgress.ActivationAnswered` | sdk/bybit/private_ws_dispatch.go:55-73 | In every run, activating a connection for the open gap makes the gap wait for it, dropping what another had buffered and its Recovered. |
| `BybitProgress.DiscardAnswered` | sdk/bybit/private_ws_dispatch.go:139-152 | In every run, discarding the awaited connection drops what it buffered and its Recovered and frees the slots; discarding another leaves queue and buffer alone. |
| `BybitProgress.RecoveredAnswered` | sdk/bybit/private_ws_dispatch.go:154-173 | In every run a Recovered is queued if and only if its generation is the open gap's and its connection is attached and awaited. |
| `BybitProgress.QueueRuns` | sdk/bybit/private_ws_dispatch.go:197-240 | From every reachable state outside a gap, as many turns of the loop as the queue is long run exactly the queued data, in order, and leave nothing pending. |
| `BybitProgress.AcceptedDataRuns` | sdk/bybit/private_ws_dispatch.go:107-110 | In every run, data that arrives outside a gap from the attached connection with a slot free begins after as many turns as the queue is long. |
| `BybitProgress.RecoveryCompletes` | sdk/bybit/private_ws_dispatch.go:55-240 | From every reachable state at rest, a gap whose replacement is activated, delivers k data and recovers leaves exactly this history: what was queued, Started, k acceptances, a closing Recovered, the k data in order. |
| `BybitProgress.EveryRun` | sdk/bybit/private_ws_dispatch.go:55-195 | The calls and the history tell whether the dispatcher is stopped, which gap is open and which connection is attached. |
| `BybitReconnect.LossAnswered` | sdk/bybit/private_ws.go:513-551 | In every run, losing a connection starts a recovery if and only if it was current, the loser entitled, and the client neither closed nor recovering; losing the current one during a recovery asks for a discard. |
| `BybitReconnect.CloseAnswered` | sdk/bybit/private_ws.go:291-312 | In every run, Close detaches the connection, ends the recovery, wakes its waiters once and asks for a stop. |
| `BybitReconnect.ClientRecoveryCompletes` | sdk/bybit/private_ws.go:513-756 | From every reachable state of the client at rest, a loss followed by the recovery's steps runs what was queued, Started, Recovered and the up to 1022 data delivered meanwhile, in order, and leaves the client connected with nothing pending. |
| `BybitRepeats.ClientRecoveredsApartIff` | sdk/bybit/private_ws.go:513-756 | The same equivalence for every run of the client with its dispatcher. |
| `BybitRepeats.RecoveredsMayRepeat` | sdk/bybit/private_ws.go:582-620 | A run of the client in which a Recovered follows a Recovered with no Started between, though a new gap began between them. |
| `BybitClient.PrivateClient.constructor` | sdk/bybit/private_ws.go:76-87 | A new client is disconnected and not reconnecting. |
| `BybitClient.PrivateClient.StartReconnectLocked` | sdk/bybit/private_ws.go:105-113 | A recovery starts unless closed or already reconnecting, with the next generation and a wait channel. |
| `BybitClient.PrivateClient.FinishReconnectLocked` | sdk/bybit/private_ws.go:115-124 | Which wait channel is closed, and the state after. |
| `BybitClient.PrivateClient.HandleConnectionLoss` | sdk/bybit/private_ws.go:513-551 | Loss of the current, authenticated connection starts a recovery; loss during one asks for a discard; other losses change nothing. |
| `BybitClient.PrivateClient.DetachSubscriptionConnection` | sdk/bybit/private_ws.go:582-620 | The same for a failed subscribe, entitled by its argument. |
| `BybitClient.PrivateClient.Close` | sdk/bybit/private_ws.go:291-312 | Close ends a recovery, closes exactly its wait channel and leaves no connection. |
| `BybitClient.ClientRecoversInOrder` | sdk/bybit/private_ws.go:706-756 | In every interleaving at most one recovery is outstanding, the wait channel exists exactly while reconnecting, each wait channel is closed exactly once, and beginGap receives 1, 2, 3, ... in order. |
| `BybitClient.ClientDrivesDispatcher` | sdk/bybit/private_ws.go:513-620 | Every run of the client is a run of the dispatcher that meets the rising-generation condition. |
| `BybitClient.ClientCallbackOrder` | sdk/bybit/private_ws.go:513-756 | Client and dispatcher together: the callback order and the conservation of data hold with no assumption left. |
| `BitgetDispatcher.DataDispatcher.constructor` | sdk/bitget/private_ws.go:89-96 | A new data dispatcher is empty and unblocked. |
| `BitgetDispatcher.DataDispatcher.EnqueueMessage` | sdk/bitget/private_ws.go:101-130 | Which messages are ignored, refused, queued or buffered. |
| `BitgetDispatcher.DataDispatcher.OpenGap` | sdk/bitget/private_ws.go:132-150 | The new state and the barrier: already drained when idle, else the one shared barrier. |
| `BitgetDispatcher.DataDispatcher.ResetBuffer` | sdk/bitget/private_ws.go:152-158 | The buffer of the current gap, and no other, is emptied. |
| `BitgetDispatcher.DataDispatcher.CloseGap` | sdk/bitget/private_ws.go:160-173 | Only the current generation unblocks, and the buffer joins the queue in order. |
| `BitgetDispatcher.DataDispatcher.Drop` | sdk/bitget/private_ws.go:175-181 | Messages of the key leave queue and buffer. |
| `BitgetDispatcher.DataDispatcher.CloseDrainLocked` | sdk/bitget/private_ws.go:183-189 | The barrier is closed exactly when nothing is queued or in flight. |
| `BitgetDispatcher.DataDispatcher.FilterKey` | sdk/bitget/private_ws.go:191-203 | The filter loop keeps exactly the other keys, in order. |
| `BitgetDispatcher.DataDispatcher.Stop` | sdk/bitget/private_ws.go:205-215 | The state after stop. |
| `BitgetDispatcher.DataDispatcher.TakeNext` | sdk/bitget/private_ws.go:227-245 | What the run loop takes, and when it closes the barrier. |
| `BitgetDispatcher.DataDispatcher.FinishHandler` | sdk/bitget/private_ws.go:249-252 | The state after a handler returned. |
| `BitgetDispatcher.LifecycleQueue.constructor` | sdk/bitget/private_ws.go:282-286 | A new lifecycle queue is empty with the gap closed. |
| `BitgetDispatcher.LifecycleQueue.HasQueued` | sdk/bitget/private_ws.go:307-313 | True exactly when a callback of the kind is queued. |
| `BitgetDispatcher.LifecycleQueue.PushStarted` | sdk/bitget/private_ws.go:288-325 | Queued Recovereds are removed, and a Started is added exactly when none was removed and the gap needs one. |
| `BitgetDispatcher.LifecycleQueue.PushRecovered` | sdk/bitget/private_ws.go:327-343 | A Recovered is appended unless stopped. |
| `BitgetDispatcher.LifecycleQueue.Stop` | sdk/bitget/private_ws.go:345-356 | The state after stop. |
| `BitgetDispatcher.LifecycleQueue.TakeNext` | sdk/bitget/private_ws.go:368-385 | What the run loop takes and marks in flight. |
| `BitgetDispatcher.LifecycleQueue.FinishCallback` | sdk/bitget/private_ws.go:391-405 | The gap closes exactly when an applied Recovered returned and no Started is queued. |
| `BitgetRuns.StartedHookAfterDrain` | sdk/bitget/private_ws.go:1180-1200 | While a Started hook runs, every message queued before its gap has finished or been dropped by key (or by Close), and nothing is queued or being handled. |
| `BitgetRuns.HandlerOrder` | sdk/bitget/private_ws.go:1441-1468 | In every run no handler begins between a Started hook and a release, which follows a Recovered hook of that gap or a later one; a message buffered under a gap is handled only after the Recovered hook of that generation returned; messages are handled at most once and in arrival order. |
| `BitgetRuns.RecoveriesInStep` | sdk/bitget/private_ws.go:551-571 | At most one recovery is outstanding, and the dispatcher's generation is the client's. |
| `BitgetRuns.InvHolds` | sdk/bitget/private_ws.go:101-408 | The joint invariant of client, data dispatcher and lifecycle queue holds in every reachable state. |
| `BitgetAnnouncements.EveryRun` | sdk/bitget/private_ws.go:1415-1471 | In every run each queued Recovered has a Started ahead of it, waiting, or announced since the last release, and Recovereds come in rising generations. |
| `BitgetAlternation.LaunchQueuesIff` | sdk/bitget/private_ws.go:288-325 | In every run a launch queues no Started if and only if the queue has stopped, or the lifecycle gap is open and no Recovered callback is in flight without a Started queued behind it. |
| `BitgetAlternation.RecoveredHooksApartIff` | sdk/bitget/private_ws.go:365-408 | In every run, between a Recovered hook and the next one a Started hook begins if and only if the return of the first callback closed the lifecycle gap or a launch happened while a Recovered callback was in flight. |
| `BitgetAlternation.HookReturnsBetween` | sdk/bitget/private_ws.go:365-408 | Between two Recovered hooks a callback returns. |
| `BitgetAlternation.RecoveredIsAnnounced` | sdk/bitget/private_ws.go:1441-1468 | In every run a Recovered hook begins only if a Started hook has begun since the last release. |
| `BitgetAlternation.EveryHistory` | sdk/bitget/private_ws.go:288-408 | The invariant behind these: the history tells the lifecycle queue, which holds at most one Started and one Recovered, and every mark obeys its law. |
| `BitgetSuppression.StartedMayBeSuppressed` | sdk/bitget/private_ws.go:551-560 | A run in which the second gap is recovered without a Started hook of its own, with its history. |
| `BitgetProgress.ArrivalAnswered` | sdk/bitget/private_ws.go:101-130 | In every run a message is left out only if the dispatcher is stopped or its place, the buffer during a gap and the queue otherwise, holds 1024; else it is put there last and recorded. |
| `BitgetProgress.DropAnswered` | sdk/bitget/private_ws.go:175-203 | In every run, dropping a topic removes exactly its messages from queue and buffer. |
| `BitgetProgress.LossAnswered` | sdk/bitget/private_ws.go:551-571 | In every run, losing a connection starts a recovery and a gap of the next generation if and only if it was current, the loser entitled, and the client neither closed nor recovering. |
| `BitgetProgress.LossEmptiesBuffer` | sdk/bitget/private_ws.go:152-158 | In every run, losing the connection again during a recovery empties the buffer of the gap. |
| `BitgetProgress.StoppedIsEmpty` | sdk/bitget/private_ws.go:205-215 | In every run a stopped data dispatcher holds nothing. |
| `BitgetProgress.QueueRuns` | sdk/bitget/private_ws.go:224-255 | From every reachable state that is not stopped, as many turns of the loop as the queue is long begin exactly the queued handlers, in order. |
| `BitgetProgress.RecoveryCompletes` | sdk/bitget/private_ws.go:1415-1471 | From every reachable state at rest, a loss followed by the recovery's steps handles what was queued, runs the Started hook, the Recovered hook, releases the gap and handles the k messages buffered meanwhile, in order. |
| `BitgetProgress.EveryRun` | sdk/bitget/private_ws.go:101-215 | The acts and the history tell whether the data dispatcher is stopped and whether it is blocked. |
| `PausableDispatcher.Dispatcher.constructor` | internal/wsdispatch/ws.go:40-45 | A new dispatcher is unpaused and empty, at its first revision. |
| `PausableDispatcher.Dispatcher.PauseDelivery` | internal/wsdispatch/ws.go:47-51 | The state after Pause. |
| `PausableDispatcher.Dispatcher.ResetLifecycle` | internal/wsdispatch/ws.go:56-66 | The state after Reset: a new revision and an empty buffer. |
| `PausableDispatcher.Dispatcher.AdmitCallback` | internal/wsdispatch/ws.go:114-142 | Whether the callback is live, buffered, rejected or overflows, and the revision it captured. |
| `PausableDispatcher.Dispatcher.TakeBuffer` | internal/wsdispatch/ws.go:68-77 | What Resume takes, and at which revision. |
| `PausableDispatcher.Dispatcher.TakeMore` | internal/wsdispatch/ws.go:90-102 | One turn of the drain loop: more work of the same revision, or the end of the pause. |
| `PausableDispatcher.DeliveryIsFenced` | internal/wsdispatch/ws.go:56-155 | In every interleaving a callback begins only at the revision that admitted it, with no Reset and no overflow between its admission and its beginning, and at most once; overflow means paused with an empty buffer; after an overflow nothing begins until a Reset. |
| `PausableDispatcher.EveryRun` | internal/wsdispatch/ws.go:56-155 | The invariants behind it, for any number of threads. |
| `PausableDispatcher.DeliveryInOrder` | internal/wsdispatch/ws.go:68-155 | With one ingress thread and one Resume at a time, callbacks begin in the order of their admission. |
| `PausableDispatcher.TwoIngressesReorder` | internal/wsdispatch/ws.go:114-155 | With several ingress threads, a run in which callbacks begin out of order, even with one Resume at a time. |
| `PausableDispatcher.TwoResumesReorder` | internal/wsdispatch/ws.go:68-104 | With several Resumes at a time, a run in which callbacks begin out of order, even with one ingress thread. |
| `PausableDispatcher.InOrderIff` | internal/wsdispatch/ws.go:68-155 | For every buffer limit, all runs begin callbacks in the order of their admission if and only if callers have one ingress thread and one Resume at a time. |
| `PausableProgress.DispatchAnswered` | internal/wsdispatch/ws.go:114-142 | In every run a Dispatch is delivered by its own thread when not paused; when paused it is buffered last while there is room, overflows when there is none, and is rejected after an overflow. |
| `PausableProgress.PauseAnswered` | internal/wsdispatch/ws.go:47-51 | In every run, Pause pauses and changes nothing else. |
| `PausableProgress.ResetAnswered` | internal/wsdispatch/ws.go:56-66 | In every run, Reset ends pause and overflow, discards the buffer and makes every delivery in progress stale. |
| `PausableProgress.ResumeEndsPause` | internal/wsdispatch/ws.go:68-104 | From every reachable state that is paused, not overflowed and has no call in progress, one Resume taking its steps alone begins its hook and exactly the buffered callbacks in order, and ends unpaused with an empty buffer; the next Dispatch is live. |
| `PausableProgress.DrainFinishes` | internal/wsdispatch/ws.go:79-104 | The same from every reachable state in which a Resume of the current revision is the only call, for what it has taken and what was buffered since. |
| `ClosableStream.EventStream.constructor` | internal/wsstream/wsstream.go:22-28 | A new stream is open and empty. |
| `ClosableStream.EventStream.Register` | internal/wsstream/wsstream.go:35-41 | An Emit registers unless closing, and is then refused. |
| `ClosableStream.EventStream.SendCase` | internal/wsstream/wsstream.go:44-49 | The send case of Emit, and that it never meets a closed channel. |
| `ClosableStream.EventStream.Unregister` | internal/wsstream/wsstream.go:42-51 | The state when an Emit returns. |
| `ClosableStream.EventStream.BeginClosing` | internal/wsstream/wsstream.go:57-62 | The first section of Close. |
| `ClosableStream.EventStream.FinishClosing` | internal/wsstream/wsstream.go:63-66 | The one Close that entered closes the channel, once no Emit is registered and for the first time. |
| `ClosableStream.ReadToClose` | internal/wsstream/wsstream.go:35-66 | For any number of Emit and Close calls no send and no second close meets the closed channel; a consumer that read to the close received exactly the events whose Emit returned true, once each in sending order; an Emit that started after closing returned false. |
| `ClosableStream.EveryRun` | internal/wsstream/wsstream.go:35-66 | The invariants behind it. |
| `ClosableStream.FalseOnlyClosing` | internal/wsstream/wsstream.go:35-51 | In every run an Emit has returned false, or is about to, only if the stream is closing. |
| `ClosableStream.EmitDelivers` | internal/wsstream/wsstream.go:35-51 | In every run a new Emit on a stream that is not closing sends its event last and returns true when there is room, or hands it to a reader. |
| `ClosableStream.ClosingReleases` | internal/wsstream/wsstream.go:44-51 | In every run of a closing stream a registered Emit can return false without sending, and a new one does. |
| `ClosableStream.CloseCloses` | internal/wsstream/wsstream.go:57-66 | In every run Close makes the stream closing, and closes the channel once no Emit is in flight. |
| `ClosableStream.ReaderTakesOldest` | internal/wsstream/wsstream.go:30-30 | In every run a reader takes the oldest event. |
| `RateCoordinator.Coordinator.constructor` | gateway/ratelimit/coordinator.go:55-60 | A new coordinator has no windows. |
| `RateCoordinator.Coordinator.ConfigureKey` | gateway/ratelimit/coordinator.go:62-76 | Which configurations are accepted, and that a second quota for a key is refused. |
| `RateCoordinator.Coordinator.Survey` | gateway/ratelimit/coordinator.go:112-129 | The first loop of TryAcquire: validity of the charges, lazy resets and the longest wait. |
| `RateCoordinator.Coordinator.SpendAll` | gateway/ratelimit/coordinator.go:133-135 | The second loop: every charge is added to its window. |
| `RateCoordinator.Coordinator.TryAcquire` | gateway/ratelimit/coordinator.go:100-137 | The outcome and the new windows for every list of charges, cancelled contexts included. |
| `RateCoordinator.Coordinator.BlockKey` | gateway/ratelimit/coordinator.go:138-144 | A block time only moves forward, and only on a known key. |
| `RateRuns.RefusalIsFree` | gateway/ratelimit/coordinator.go:78-90 | A refused or invalid call leaves what every key reports as used unchanged, now and at every later instant. |
| `RateRuns.BlockedIsRefused` | gateway/ratelimit/coordinator.go:115-132 | Nothing is admitted on a key before its block time. |
| `RateRuns.WaitIsExact` | gateway/ratelimit/coordinator.go:112-132 | With no other charge or block, the same charges are refused at every earlier instant, with the wait to the same deadline, and admitted from that deadline on. |
| `RateRuns.RetriesKeepDeadline` | gateway/ratelimit/coordinator.go:100-137 | Any number of early retries leaves the deadline where it was. |
| `RateRuns.AdmittedCostBounded` | gateway/ratelimit/coordinator.go:100-137 | For every run and key, at most Limit is admitted in one window and at most twice Limit in any closed interval of length Interval. |
| `RateRuns.InvHolds` | gateway/ratelimit/coordinator.go:62-144 | The invariant behind the bounds holds in every run. |
| `RateRuns.BlockHolds` | gateway/ratelimit/coordinator.go:138-144 | After a block, every later admission on the key is at or after its end, whatever else runs. |
| `RateRuns.ShareIsKept` | gateway/ratelimit/coordinator.go:117-135 | If all other traffic leaves a share in reserve, charges without a reserve are within quota while they total at most that share in the window. |
| `RateRuns.AcquireAnswered` | gateway/ratelimit/coordinator.go:100-137 | In every run a call is invalid if and only if it has no charge or one out of order, and a valid one is admitted if and only if no key is blocked and, on every key, what was admitted in the current window leaves room for the cost above the reserve. |
| `RateRuns.BlockTold` | gateway/ratelimit/coordinator.go:138-144 | In every run a key's block time is the latest instant it was blocked until since it was configured. |
| `RateRuns.UsedTold` | gateway/ratelimit/coordinator.go:78-90 | In every run what a key reports as used is what was admitted on it in the window current at that instant. |
| `RateTransport.Transport.constructor` | gateway/ratelimit/transport.go:27-32 | The transport uses the coordinator it is given. |
| `RateTransport.Transport.Gate` | gateway/ratelimit/transport.go:34-85 | RoundTrip up to sending: the two budgets, the reserve, and the outcome for every policy. |
| `RateTransport.TransportLeavesShare` | gateway/ratelimit/transport.go:50-56 | A request charges its venue its own cost once and its endpoint one; a request that is not a cancel leaves at least a fifth of the venue's limit in reserve, and a cancel none. |
| `RateTransport.VenueQuotaFixed` | gateway/ratelimit/transport.go:57-59 | A venue's quota never changes once configured. |
| `RateTransport.CancelKeepsHeadroom` | gateway/ratelimit/transport.go:50-59 | Whatever other requests ran, a cancel is within venue quota while the costs of the requests admitted in the window whose action is cancel, this one included, total at most limit/5; only the block time can delay it. |
| `RateTransport.CancelIsAdmitted` | gateway/ratelimit/transport.go:50-85 | Such a cancel is admitted when venue and endpoint are not blocked and the endpoint has room. |
| `RateTransport.RequestAnswered` | gateway/ratelimit/transport.go:34-85 | In every run, with both budgets configured, a request is admitted if and only if neither is blocked, the requests admitted in the venue's window leave room for its cost, above a fifth of the limit unless it is a cancel, and the endpoint has room for one more. |
| `RateTransport.GrantsCounted` | gateway/ratelimit/transport.go:55-81 | In every run the coordinator's log and the record of admitted requests agree on what each venue window was charged, by all and by cancels. |
| `RateTransport.VenueBudgetAccepted` | gateway/ratelimit/transport.go:57-59 | In every run the venue budget of a known venue can be configured. |
| `RateTransport.EndpointsApart` | gateway/ratelimit/transport.go:44-49 | Two requests of one venue share an endpoint budget only if principals and endpoints are both the same, given one of them is. |
| `TopicHub.HubObject.constructor` | gateway/hub/hub.go:67-71 | A new hub has no topics. |
| `TopicHub.HubObject.OpenTopic` | gateway/hub/hub.go:79-85 | A new topic for the key, with nothing attached or retained. |
| `TopicHub.HubObject.SendRetained` | gateway/hub/hub.go:91-93 | The replay loop sends the retained payloads in order. |
| `TopicHub.HubObject.SubscribeSink` | gateway/hub/hub.go:73-94 | The new state of Subscribe: linger stopped, sink attached, retained values replayed. |
| `TopicHub.HubObject.JoinTopic` | gateway/hub/hub.go:86-93 | Joining a topic stops its linger timer, attaches the sink and replays what is retained. |
| `TopicHub.HubObject.UnsubscribeSink` | gateway/hub/hub.go:97-116 | The sink is detached, and the last one to leave arms a linger timer. |
| `TopicHub.HubObject.LingerElapsed` | gateway/hub/hub.go:108-115 | The linger callback cancels the topic only if it is still current and empty. |
| `TopicHub.HubObject.CloseOne` | gateway/hub/hub.go:123-129 | One turn of the loop in Close. |
| `TopicHub.HubObject.CloseAll` | gateway/hub/hub.go:119-130 | Close cancels every topic in the map and stops its timer, in whatever order the map is walked. |
| `TopicHub.HubObject.EmitMessage` | gateway/hub/hub.go:140-160 | Which emissions are retained and which sinks receive them; a cancelled topic sends nothing. |
| `TopicHub.TopicLifetime` | gateway/hub/hub.go:73-130 | In every run each key has at most one uncancelled topic; every topic in the map is uncancelled and has a sink or a linger callback still to run; a cancelled topic never sends again. |
| `TopicHub.OnlyCloseCancelsAttached` | gateway/hub/hub.go:97-130 | In every run no step but Close cancels a topic with an attached sink, late timers included. |
| `TopicHub.SinksAreCurrent` | gateway/hub/hub.go:140-160 | For sinks whose sends succeed and channels that their topic always retains, every attached sink's latest payload is the retained one whenever it joined; `order` lists the retained channels once each. |
| `TopicHub.InvHolds` | gateway/hub/hub.go:73-160 | The invariant behind these holds in every run. |
| `TopicDelivery.AttachedIff` | gateway/hub/hub.go:73-117 | In every run the sinks attached to a key's topic are exactly those whose last call for it was a Subscribe on an open hub. |
| `TopicDelivery.EmissionReaches` | gateway/hub/hub.go:140-160 | In every run an emission, retained or not, becomes the latest payload of its channel for exactly the attached sinks whose send succeeds; for every other sink, topic and channel the latest stays. |
| `TopicDelivery.CancelledIsSilent` | gateway/hub/hub.go:147-150 | In every run an emission on a cancelled topic changes nothing. |
| `TopicDelivery.RetainedTold` | gateway/hub/hub.go:151-156 | In every run a topic retains for each channel exactly the payload last emitted on it with retain. |
| `TopicDelivery.JoinerIsReplayed` | gateway/hub/hub.go:90-93 | In every run of an open hub a joiner is replayed the last retained payload of every channel, except where its send fails, and nobody else is sent anything. |
| `TopicDelivery.JoinStopsLinger` | gateway/hub/hub.go:86-89 | In every run of an open hub, subscribing stops the topic's linger timer. |
| `TopicDelivery.LingerCloses` | gateway/hub/hub.go:108-115 | In every run a topic nobody is attached to has a timer whose callback, if it runs next, cancels and removes it and no other. |
| `TopicDelivery.AttachedOutlivesTimers` | gateway/hub/hub.go:108-115 | In every run no timer callback touches a topic with an attached sink. |
| `TopicDelivery.CloseEndsAll` | gateway/hub/hub.go:119-130 | In every run with a Close, no topic is left, every one is cancelled, and nothing is attached. |
| `OrderBook.PatchSide` | gateway/market/feeds.go:233-242 | The map afterwards holds, for each price, its last report in the list unless that deletes it, and else what it held. |
| `OrderBook.ReplaceSide` | gateway/market/feeds.go:227-231 | The map holds exactly the levels that stand in the list. |
| `OrderBook.TopLevels` | gateway/market/feeds.go:244-263 | The min(50, n) best levels, strictly sorted; every omitted level is worse than every shown one. |
| `OrderBook.SortLevels` | gateway/market/feeds.go:249-254 | Sorted by the comparison, and a permutation. |
| `OrderBook.Flush` | gateway/market/feeds.go:167-175 | A book is emitted exactly when started and dirty, and it shows the reference. |
| `OrderBook.PumpBook` | gateway/market/feeds.go:159-225 | For every sequence of inputs, books are emitted at exactly the moments the reference names, each is the best 50 levels of the reference of its moment with its time, and while the flag is clean the last book is the current one; the pump ends at the first input that ends it, with that reason. |
| `OrderBook.ShownIsUnique` | gateway/market/feeds.go:244-263 | Only one book shows what the reference holds. |
| `OrderBook.TickCatchesUp` | gateway/market/feeds.go:177-221 | After a tick of a started book, and after every snapshot or full event, the last book is current. |
| `OrderBook.ExitMeans` | gateway/market/feeds.go:177-204 | Why and at which input the pump ends: cancellation, the end of the events, or an error or closing status from a channel not yet ended. |
| `BookPositions.BookMeans` | gateway/market/feeds.go:227-263 | A book shows bids strictly falling and asks strictly rising in price, at most 50 each; every one is the last report of its price in event.bids, or event.asks, since the last snapshot or full event and does not delete it; a standing bid left out is below all 50 shown, a standing ask above; the time is that of the last event taken in. |
| `BookPositions.EveryBookMeans` | gateway/market/feeds.go:159-225 | Every book the pump emits means that at its moment. |
| `BookPositions.MomentsAre` | gateway/market/feeds.go:167-221 | Books are emitted, each once, exactly at snapshots and full events, and after the first of these at other events that are not deltas and at ticks with a delta since the last tick or such event. |
| `Catalog.BuildIndexes` | exchange/catalog.go:365-395 | It fails with the first fault in the list, and otherwise the three indexes agree with a scan. |
| `Catalog.BuildableIff` | exchange/catalog.go:365-395 | A list is accepted exactly when every instrument fits the scope and no kind repeats a text. |
| `Catalog.BuildableMeans` | exchange/catalog.go:365-395 | The same spelled out: valid, trimmed texts, the scope's venue, product and settlement, and no symbol, native symbol or native id shared. |
| `Catalog.IndexesMean` | exchange/catalog.go:365-395 | The three indexes hold exactly the symbols, native symbols and native ids, each at its instrument. |
| `Catalog.LookupScans` | exchange/catalog.go:429-465 | One branch of the lookup agrees with a scan for texts under all three kinds. |
| `Catalog.ResolveIndex` | exchange/catalog.go:409-466 | It finds instrument i exactly when one kind is asked for, i has that text, and no other instrument has it under any kind; each error exactly when it applies. |
| `Catalog.AnswersMeans` | exchange/catalog.go:409-466 | A query with one text is answered by the instrument whose symbol, native symbol or native id, as asked, is the trimmed text, if no other instrument has it as any of the three. |
| `CatalogPublication.MemoryCatalog.constructor` | exchange/catalog.go:130-138 | A new catalog is empty. |
| `CatalogPublication.MemoryCatalog.RememberError` | exchange/catalog.go:292-296 | Only the error of the scope changes. |
| `CatalogPublication.MemoryCatalog.Publish` | exchange/catalog.go:264-290 | It refuses exactly a wrong scope or a faulty list, and then changes nothing; else it commits the indexed snapshot with the next generation. |
| `CatalogPublication.MemoryCatalog.PublishAndSave` | exchange/catalog.go:251-261 | It refuses exactly what Publish refuses and then changes nothing; else it commits once, and the scope's error is that of a failed save or none. |
| `CatalogPublication.MemoryCatalog.LoadFresh` | exchange/catalog.go:232-261 | The part after the store: what is stored, returned and remembered in every case. |
| `CatalogPublication.MemoryCatalog.LoadAndPublish` | exchange/catalog.go:224-262 | When a load succeeds; that a failed load leaves every stored snapshot unchanged and returns the last good one, or none if it was the stored snapshot that was refused; that a successful one commits exactly what it returns; and which error each scope then remembers. |
| `CatalogPublication.MemoryCatalog.Resolve` | exchange/catalog.go:175-185 | On a stored snapshot it returns the instrument a scan of the published list names, and an error exactly when there is none. |
| `CatalogPublication.EveryRun` | exchange/catalog.go:264-296 | In every interleaving of loads, commits are numbered without gaps across all scopes, each is indexed like a scan, and each scope shows its last one. |
| `CatalogPublication.GenerationsRise` | exchange/catalog.go:281-287 | From any moment to any later one a scope changes only to a generation above all earlier ones of every scope. |
| `CatalogPublication.ScopesDiffer` | exchange/catalog.go:281-287 | No two scopes ever show the same generation. |
| `CatalogPublication.FailuresInvisible` | exchange/catalog.go:292-306 | Leaving the failed loads out of any interleaving gives the same stored snapshots. |
| `CursorPages.ReadBounded` | sdk/bitget/private_rest.go:226-264 | Against any venue: at most 1000 requests, no cursor asked twice, each request for no more than is still needed, and the outcome its last answer calls for. |
| `CursorPages.GetOrderHistoryBounded` | sdk/bitget/private_rest.go:203-265 | A limit that is no positive number, then a bad window, is the error; otherwise a bounded read of that many records, 100 by default. |
| `CursorPages.GetFillsBounded` | sdk/bitget/private_rest.go:318-378 | A limit that is no positive number is the error; otherwise a bounded read of that many records, 100 by default. |
| `CursorPages.GetOpenOrders` | sdk/bitget/private_rest.go:136-173 | The same for open orders, which fail rather than truncate beyond 1000 records. |
| `CursorPages.ReadIsDetermined` | sdk/bitget/private_rest.go:226-264 | The venue, the start and the limit determine every request and the outcome. |
| `CursorPages.OpenOrdersDetermined` | sdk/bitget/private_rest.go:136-173 | The venue determines every request for open orders and the outcome. |
| `CursorPages.AnyVenue` | sdk/bitget/private_rest.go:226-264 | Against any venue at most 1000 requests, each for at most 100 records and no more than is still needed, as many distinct cursors as requests, never more records than the limit, and each failure exactly when the last answer calls for it. |
| `CursorPages.HonestRead` | sdk/bitget/private_rest.go:203-265 | From an honest venue: exactly the first min(limit, n) records; the flag exactly when records remain, or the list ends at the limit with a cursor still offered; the only failure is the page bound, with limit and list both large. |
| `CursorPages.FullPagesSucceed` | sdk/bitget/private_rest.go:318-378 | A venue that fills its pages never makes a read of up to 99900 records fail. |
| `CursorPages.FlagWithoutMore` | sdk/bitget/private_rest.go:243-245 | An honest venue, with the transcript of a read whose flag is raised though no record is beyond the limit. |
| `CursorPages.EveryListHasAVenue` | sdk/bitget/private_rest.go:226-264 | Every list has an honest venue that is prompt and fills its pages. |
| `CursorPages.HonestOpenOrders` | sdk/bitget/private_rest.go:136-173 | All open orders or a failure; against a prompt venue success exactly when there are at most 1000. |
| `CursorPages.WindowExact` | sdk/bitget/private_rest.go:286-306 | A window is accepted exactly when it spans at most 30 days or at least 2^63 milliseconds. |
| `CursorPages.WindowTexts` | sdk/bitget/private_rest.go:286-297 | A missing end accepts the window; a text that is no time rejects it when both ends are given. |
| `DerivativeFacts.ClocksNeverGoBack` | exchange/market_data.go:238-277 | Between any two moments of a fold no group's clock goes back. |
| `DerivativeFacts.PatchTwice` | exchange/market_data.go:238-273 | A patch applied again right after itself changes nothing. |
| `DerivativeFacts.LastGreatestWins` | exchange/market_data.go:258-263 | The final mark and index are those of the last patch with the greatest clock, or unchanged when none was eligible. |
| `DerivativeFacts.MarkAndIndexOrderFree` | exchange/market_data.go:258-263 | Patches with distinct clocks give the same mark and index in every order. |
| `DerivativeFacts.PricesOrderFreeIff` | exchange/market_data.go:258-263 | Any patches give the same mark in every order if and only if the taken patches with the greatest mark clock agree on it; the same for the index. |
| `DerivativeFacts.FundingOrderFreeIff` | exchange/market_data.go:245-257 | Any patches with any clocks give the same funding in every order if and only if, field by field, those with the greatest clock that bring the field agree on it, or none of them brings it and every other taken patch that does brings the value held. |
| `DerivativeFacts.FundingHiddenIff` | exchange/market_data.go:245-257 | When one taken patch has the greatest clock: if and only if every funding field of every other taken patch is also in that patch or brings the value held. |
| `DerivativeFacts.InterestOrderFreeIff` | exchange/market_data.go:264-271 | The equivalence for open interest and its notional, for any patches with any clocks. |
| `DerivativeFacts.InterestHiddenIff` | exchange/market_data.go:264-271 | The equivalence for open interest when one taken patch has the greatest clock. |
| `DerivativeFacts.FactOrderFreeIff` | exchange/market_data.go:238-273 | Any patches give the same whole fact in every order if and only if identity, mark, index, funding and open interest are each settled in that sense. |
| `DerivativeFacts.FundingOrderMatters` | exchange/market_data.go:245-257 | Two patches with distinct clocks whose order shows in the funding fields. |
| `DerivativeFacts.InterestOrderMatters` | exchange/market_data.go:264-271 | Two patches with distinct clocks whose order shows in the notional. |
| `DerivativeFacts.UniformInterestOrderFree` | exchange/market_data.go:264-271 | When every patch that touches open interest carries the same of its two fields, any order gives the same open interest and notional. |
| `DerivativeFacts.UniformFundingOrderFree` | exchange/market_data.go:245-257 | When every patch that touches funding carries the same funding fields, any order gives the same funding. |

## Left out

- The Gate dispatcher and its client: the dispatcher is the same as Bybit's, line for line, so one model stands for both.
- Sockets, authentication, ping loops, deadlines, JSON and proxies in every client; they appear only as steps that may happen at any time.
- Fairness: wake-up channels, timers and back-off. Every timer and every goroutine step may happen at any time or never, so what gets done is stated for runs that take the steps in turn.
- 64-bit wrap-around of generations, revisions and counters, and overflow of durations in the rate coordinator.
- Pointer identity of connections, channels and topics is modelled by numbers; closures are numbered in the order they were made.
- The channel select inside Emit is one step that either sends or gives up; a consumer is a step that takes the oldest event.
- PausableDispatcher.DeliveryInOrder: stated for one ingress thread and one Resume at a time, because the order is lost otherwise (PausableDispatcher.InOrderIff).
- BitgetRuns.StartedHookAfterDrain: names messages dropped by Close beside those dropped by key, because Close empties the queue.
- Instrument validation apart from the indexed texts (rules, encodings, metadata, known venues) is one flag of an instrument; the revision hash of a snapshot is not modelled.
- In the order book the library sort is an insertion sort, and prices and quantities are exact reals.
- Table lookups of the transport (weights per request, Retry-After) and what happens after a request is sent.
- Identity fields of a derivative fact are one text; patch validation is not modelled.
- Position and balance merging, the account store, the gateway's own catalog and the HTTP handlers are not part of this model.
