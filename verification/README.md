# Polytrader in Dafny

This project models the stateful cores of Polytrader, an event-sourced trading platform for prediction
markets, and proves what they promise over every input, run or reachable state.

| file | part of the system |
|---|---|
| `OrderModel`, `EventLog`, `OrderStore` | order state machine, in-memory event store and bus, order projection with its two indexes and histories |
| `OmsCore`, `OmsRuns`, `Messages` | the OMS handlers, cut at every `await`, runs of calls handled one at a time, and what each call sends |
| `ReplayEqualsLive`, `FillAccounting`, `OrderHistory` | rebuilding the store from the log of a run, fill accounting, and orders as functions of their histories |
| `Reconstruction`, `BootRestore` | boot-time collection of the log, and exactly when boot restores the live store |
| `ShortRuns`, `TwoOrderRuns`, `RouterRuns` | short runs that meet each exception to the general results |
| `Router`, `RouterLog`, `Ops`, `Interleaving` | execution gate and router, what its events do to a rebuild, execution control and breaker, and all of them running concurrently |
| `Races`, `ClientIndex` | exactly which interleaved steps break the accounts of fills, and the agreement of client index and idempotency map |
| `SinkBreaker`, `EventSink`, `SinkBoot` | the event sink's circuit breaker, buffer, retrying batch writer and put-back; booting from what it persisted |
| `Pagination`, `Reconcile`, `Throttle` | keyset pagination, reconciliation feeding the breaker, the sliding-window throttle |
| `MarketViews`, `Patterns`, `Discovery`, `Indicators` | bounded tick histories, slugs, the market search, the indicator stack over the reals |

Conventions: identifiers and opaque texts are numbers compared for equality, 0 being the empty (falsy)
string; amounts, prices and clocks are reals; event ids and timestamps drawn while handling a call are
parameters (`Stamp`). Objects the program updates in place are classes whose methods are tied to functions
on values; the theorems are lemmas about those functions. A handler that raises returns `ok == false` or
`None`; everything it did before raising stays done. In the interleaved model each handler is cut at every
`await`, and steps of other tasks, of the router and of the operator may come in between.

What the proofs brought out about the code:

- Rejects, fills and cancels publish before the store applies them. `PublishesThenRaises` is the exact guard:
  a log can be replayed if and only if no call of the run met it.
- Re-acking an order under a new venue id retires the old id live but not on replay. From equal stores exactly
  such a call makes the venue indexes differ, so live and rebuilt store are equal at every moment of a run if
  and only if it has no such call and none that publishes and raises; orders, client index and histories agree
  throughout. Later acks may make the indexes equal again.
- The OMS does not listen to what the router publishes. A log that rebuilds the live store stops doing so with
  every venue answer but a passing error, and can no longer be replayed at all if and only if the answer is an
  immediate fill at a valid price, a placement of an order that the log no longer has as SUBMITTED or ACKED, or a
  reject of one that it has as ACKED, PARTIALLY_FILLED, FILLED or CANCELLED. The same holds of rejects at the gates.
- `create_order` keeps a copy of the order across its awaits, so a partial fill handled while the creation or
  the submit command is being published is wiped out of the stored order, although it stays in the history;
  and two fills that pass the size check together overfill the order. In every interleaving the accounts are
  exact at all moments if and only if no step does either. State-machine safety holds in every interleaving.
- When two creations of one key overlap, the one recorded for idempotency need not be the one the client index
  finds; they agree at all moments if and only if no creation is recorded after another one of its key began.
- Boot-time collection restores log order if and only if the log has its order events by timestamp and
  simultaneous ones in the order of their types. The store needs less: on a clock that does not run backwards,
  boot restores the live store of a run (without re-ack under a new venue id) if and only if no call published
  and then raised and the simultaneous events of each single order were logged in the order of their types. A
  fill logged ahead of an ack at one instant is rebuilt after it, and the order then comes out PARTIALLY_FILLED
  instead of ACKED. Booting from what the event sink persisted comes to the same, although the sink mixes topics.
- The venue index says what a scan of the orders would say at every moment of a run if and only if no ack that
  goes through gives an order the venue id of another one; after such an ack a lookup finds the later order only.
- An ACKED order has something filled if and only if a fill was applied before its first ack.
- The sink's put-back can exceed the configured buffer maximum, up to one batch more: the limit holds at all
  moments of a run if and only if no last failing attempt puts back a batch that no longer fits.
- The throttle is keyed by client order id, so distinct orders are never held back; over all keys the rate is
  bounded by the number of distinct keys times the limit, and that bound is reached.
- A market found ahead of the current window is never served from the discovery cache while that window
  lasts, and the last search loop probes only windows that were probed before.
- With fewer candles than `window - 1` the fair-price anchor is longer than the candle list, against its
  documentation; and before the anchor's warm-up a z-score changes with the price origin.

## Model

| member | source | states |
|---|---|---|
| OrderModel.TerminalIffNoExit | polytrader/oms/fsm.py:103-115 | A state is terminal exactly when no edge of the transition graph leaves it. |
| OrderModel.PathIsShort | polytrader/oms/fsm.py:56-72 | Every path of the transition graph has at most five edges, each raising the rank. |
| OrderModel.ReachesRanks | polytrader/oms/fsm.py:56-85 | Reachable means equal or of higher rank; from a terminal state only itself is reachable. |
| EventLog.AppendKeepsLog | polytrader/events/store.py:91-104 | Appending is idempotent by event id, keeps ids unique and the id set exact, and only ever extends the log. |
| EventLog.MemoryEventStore.Append | polytrader/events/store.py:91-104 | The object's log becomes the log with the event appended unless its id is known. |
| EventLog.MemoryEventStore.ReadStream | polytrader/events/store.py:106-136 | Returns exactly the events of the asked kind, period and correlation id, in append order; zero bounds and empty ids ask for nothing. |
| EventLog.SelectedIff | polytrader/events/store.py:106-136 | Membership in what a reader gets, condition by condition. |
| EventLog.KindIff | polytrader/events/store.py:120-136 | Each event type is a kind of its own. |
| EventLog.MemoryEventStore.Replay | polytrader/events/store.py:138-159 | Returns the events of the asked kind and period, stably sorted by timestamp. |
| EventLog.SortSorts | polytrader/events/store.py:156-159 | The chronological sort is ordered and a permutation of its input. |
| EventLog.SortFilter | polytrader/events/store.py:156-159 | The sort is stable: selecting events before or after it comes to the same. |
| EventLog.SortKeepsTies | polytrader/events/store.py:156-159 | Simultaneous events keep their order. |
| EventLog.EventBus.Subscribe | polytrader/events/bus.py:47-58 | A new empty queue is added last among the topic's queues; nothing else changes. |
| EventLog.EventBus.Publish | polytrader/events/bus.py:60-87 | An event is first appended to the log, then every message is put at the end of each of the topic's queues. |
| EventLog.PublishBroadcasts | polytrader/events/bus.py:84-87 | Per-topic FIFO broadcast: each queue of the topic ends with the message, all other queues are untouched, and only events reach the log. |
| OrderStore.WeightedAverage | polytrader/oms/store.py:476-485 | The new average times the new size is the old average times the old size plus price times size. |
| OrderStore.SubmittedOutcome | polytrader/oms/store.py:427-437 | A submission takes an order up to SUBMITTED, or is refused past it. |
| OrderStore.AckOutcome | polytrader/oms/store.py:439-450 | An ack makes a SUBMITTED or ACKED order ACKED under its venue id, and is refused in any other state. |
| OrderStore.RejectOutcome | polytrader/oms/store.py:452-467 | A reject makes an order up to SUBMITTED REJECTED with its reason, leaves a rejected one alone, and is refused otherwise. |
| OrderStore.FillOutcome | polytrader/oms/store.py:469-504 | A fill adds its size and averages the price; a full one makes an open order FILLED and is refused unless the order is open or filled; a partial one shows in the state of an ACKED order only. |
| OrderStore.CancelOutcome | polytrader/oms/store.py:506-512 | A cancel makes an order that is PENDING_SUBMIT, ACKED, PARTIALLY_FILLED or cancelled already CANCELLED, and is refused in any other state. |
| OrderStore.OrderAfterKeeps | polytrader/oms/store.py:427-512 | No event changes an order's id, client id or intent, and fills never make its filled size negative. |
| OrderStore.OrderAfterReaches | polytrader/oms/store.py:427-512 | Whatever an event makes of an order, its state moves along a path of the transition graph. |
| OrderStore.InMemoryOrderStore.CreateOrder | polytrader/oms/store.py:209-251 | Stores the order under both ids, publishes its creation event, and records the event in its history. |
| OrderStore.InMemoryOrderStore.GetOrder | polytrader/oms/store.py:253-262 | The order stored under the id, if any. |
| OrderStore.InMemoryOrderStore.GetOrderByClientId | polytrader/oms/store.py:264-276 | The order the client index names, an empty order id counting as absent. |
| OrderStore.InMemoryOrderStore.GetOrderByVenueId | polytrader/oms/store.py:278-290 | The order the venue index names, an empty order id counting as absent. |
| OrderStore.LookupsIff | polytrader/oms/store.py:253-290 | What the two indexed lookups find; an entry with an empty order id is none. |
| OrderStore.InMemoryOrderStore.GetOrderHistory | polytrader/oms/store.py:308-318 | A chronological permutation of the order's recorded events in which simultaneous ones keep their order. |
| OrderStore.InMemoryOrderStore.UpdateOrder | polytrader/oms/store.py:320-362 | Raises and changes nothing for an unknown order or a forbidden state change; otherwise installs the order and moves its client and venue index entries. |
| OrderStore.UpdateMoves | polytrader/oms/store.py:320-362 | What is refused and what becomes of every entry of both indexes: entries of former ids go, entries of new ids name the order, all others stay. |
| OrderStore.InMemoryOrderStore.HandleOrderCreated | polytrader/oms/store.py:404-425 | Inserts the order unless it is known, and records the event. |
| OrderStore.InMemoryOrderStore.HandleOrderSubmitted | polytrader/oms/store.py:427-437 | Applies the event as replay does, or raises and changes nothing. |
| OrderStore.InMemoryOrderStore.HandleOrderAck | polytrader/oms/store.py:439-450 | Applies the event as replay does, adding the venue id without dropping an older one, or raises and changes nothing. |
| OrderStore.InMemoryOrderStore.HandleOrderRejected | polytrader/oms/store.py:452-467 | Walks the order to REJECTED through the states in between; when it raises nothing has been stored. |
| OrderStore.InMemoryOrderStore.HandleFill | polytrader/oms/store.py:469-504 | Adds the fill, averages the price, moves ACKED to PARTIALLY_FILLED and a complete order to FILLED, or raises and changes nothing. |
| OrderStore.InMemoryOrderStore.HandleOrderCanceled | polytrader/oms/store.py:506-512 | Applies the event as replay does, or raises and changes nothing. |
| OrderStore.InMemoryOrderStore.RebuildFromEvents | polytrader/oms/store.py:364-402 | Ends with the store that replaying all events from empty gives; if an event raises, with what the events before it gave. |
| OrderStore.UnknownPassedOver | polytrader/oms/store.py:404-450 | Events of unknown orders are passed over, a creation adds the order to store, client index and histories, and a second creation is only recorded. |
| OrderStore.ReplayConcat | polytrader/oms/store.py:389-402 | Replaying two logs one after the other is replaying their concatenation. |
| OrderStore.ReplayIgnoresOtherEvents | polytrader/oms/store.py:389-402 | Events that are not about orders do not affect a replay. |
| OmsCore.IdempotencyStore.RecordOrder | polytrader/oms/idempotency.py:104-122 | Records the mapping, or raises exactly when the key belongs to another order. |
| OmsCore.OMSCore.CreateOrder | polytrader/oms/core.py:275-386 | Run to its end, leaves store, idempotency map, log and queues as the segments between its awaits do; returns the order registered under the intent's key or its own copy of the new order. |
| OmsCore.OMSCore.RequestSubmission | polytrader/oms/core.py:316-340 | The part of the creation up to the submit command. |
| OmsCore.OMSCore.MarkSubmitted | polytrader/oms/core.py:342-361 | The part of the creation after the submit command, working on its own copy of the order. |
| OmsCore.OMSCore.HandleVenueAck | polytrader/oms/core.py:388-463 | Agrees with the segment semantics: updates the store, publishes, then handles the event. |
| OmsCore.OMSCore.HandleVenueReject | polytrader/oms/core.py:465-543 | Agrees with the segment semantics: publishes, then lets the store handle the event. |
| OmsCore.OMSCore.HandleFill | polytrader/oms/core.py:545-669 | Agrees with the segment semantics, refusing overfills and invalid fills before publishing. |
| OmsCore.OMSCore.HandleCancel | polytrader/oms/core.py:671-783 | Agrees with the segment semantics: request, command and cancel event, then the store. |
| OmsCore.OMSCore.FindOrder | polytrader/oms/core.py:794-798 | Looks an order up by client id, then by venue id, empty ids being ignored. |
| OmsCore.OMSCore.HandleCanonicalAck | polytrader/oms/core.py:785-817 | Forwards to the ack handler of the order found, or does nothing. |
| OmsCore.OMSCore.HandleCanonicalReject | polytrader/oms/core.py:819-848 | Forwards to the reject handler of the order found, or does nothing. |
| OmsCore.OMSCore.HandleCanonicalFill | polytrader/oms/core.py:850-890 | Forwards to the fill handler of the order found, or does nothing. |
| OmsCore.OMSCore.HandleCanonicalCancel | polytrader/oms/core.py:892-925 | Forwards to the cancel handler of the order found, or does nothing. |
| OmsRuns.CreateEffect | polytrader/oms/core.py:299-361 | A known client id changes nothing; a new one ends SUBMITTED with exactly two events logged. The branch for a known id without an order is never taken. |
| OmsRuns.AckTwice | polytrader/oms/core.py:416-449 | Acking by update and again by event is acking once, but for the retired venue id. |
| OmsRuns.AckEffect | polytrader/oms/core.py:388-463 | An ack raises before publishing and changes nothing, or does what its event does, also retiring the order's former venue id. |
| OmsRuns.RejectEffect | polytrader/oms/core.py:465-543 | Raises untouched for an unknown order; otherwise publishes and then does what the event does, or raises with the event logged. |
| OmsRuns.FillEffect | polytrader/oms/core.py:545-669 | Raises untouched for an unknown order, an overfill or an invalid fill; otherwise publishes and then does what the event does, or raises with the event logged. |
| OmsRuns.CancelEffect | polytrader/oms/core.py:671-783 | Raises untouched for an unknown or terminal order; otherwise logs request and cancel, and then does what the cancel does or raises. |
| OmsRuns.HandleDirect | polytrader/oms/core.py:785-925 | A user-stream message does exactly what the venue handler it leads to does, or nothing. |
| Messages.HandleSends | polytrader/oms/core.py:275-925 | What each call, returning or raising, puts on each topic: all messages of a creation and of a cancel, commands included, one event for an ack, reject or fill that passes its checks, and nothing else. |
| Messages.CancelCommandSent | polytrader/oms/core.py:749-756 | Each cancel of an order that is not closed puts one cancel command with its ids and reason on every queue of that topic, even if it then raises; no other call does. |
| OmsRuns.HandleEffect | polytrader/oms/core.py:275-925 | Up to the venue index a call does nothing to the store, adds one submitted order, or does what one event does that does not overfill. |
| OmsRuns.HandleKeepsLinked | polytrader/oms/core.py:275-783 | Every call, raising or not, keeps the indexes linked and only extends the log. |
| OmsRuns.RunKeepsLinked | polytrader/oms/store.py:235-276 | In every run the idempotency map equals the client index, and that index is a bijection with the stored orders. |
| OmsRuns.VenueLookupIsScan | polytrader/oms/store.py:278-290 | With an exact venue index, a lookup finds an order if and only if a scan for that venue id finds it. |
| OmsRuns.ClientLookupIsScan | polytrader/oms/store.py:264-276 | A lookup by client id finds an order if and only if a scan of the orders does. |
| OmsRuns.LocatesOrder | polytrader/oms/core.py:794-798 | A user-stream message is about the order with its client id; if it names none that is stored, about the order with its venue id; and else about none. |
| OmsRuns.MessageBecomes | polytrader/oms/core.py:785-925 | A user-stream message becomes the venue call for the order it refers to, with the same payload, or none. |
| OmsRuns.KnownKeyReturns | polytrader/oms/core.py:299-316 | A creation returns at once exactly when its key is recorded for a stored order; otherwise the new order is stored. |
| OmsRuns.HandleVenueIndex | polytrader/oms/store.py:343-362 | A call keeps the venue index exact if and only if it does not give an order another order's venue id. |
| OmsRuns.RunVenueIndexIff | polytrader/oms/store.py:343-362 | In every run the venue index is exact at every moment if and only if no ack that goes through gives an order the venue id of another one. |
| OmsRuns.RunVenueIndex | polytrader/oms/store.py:343-362 | So with venue ids distinct across orders it is exact at the end of every run, re-acks included. |
| ReplayEqualsLive.WhenRefused | polytrader/oms/store.py:452-512 | Exactly which order states make the store refuse a reject, fill or cancel event. |
| ReplayEqualsLive.AckedVenuesIff | polytrader/oms/store.py:446-449 | Live and replayed venue index agree after an ack exactly when no indexed id was retired. |
| ReplayEqualsLive.HandleMirrors | polytrader/oms/core.py:275-925 | A call that publishes and then raises makes the log unreplayable; any other keeps live and rebuilt store alike, and equal if and only if it is no re-ack under a new venue id. |
| ReplayEqualsLive.ReplayableIff | polytrader/oms/store.py:364-402 | For every run, the log can be replayed if and only if no call published and then raised; then orders, client index and histories are as live. |
| ReplayEqualsLive.ReplayIsLive | polytrader/oms/store.py:364-512 | For every run without such a call and without a re-ack under a new venue id, the rebuilt store equals the live one. |
| ReplayEqualsLive.ReplayIsLiveIff | polytrader/oms/store.py:364-512 | In every run rebuilt and live store are equal at every moment if and only if no call publishes and then raises and none re-acks under a new venue id. |
| ReplayEqualsLive.RouterFillBreaksReplay | polytrader/execution/router.py:318-354 | The router's full-size fill is refused by a replay exactly unless the order is open or filled; with the ack that follows it the log cannot be replayed in any case. |
| FillAccounting.AverageBetween | polytrader/oms/store.py:476-485 | The average price lies between the least and the greatest fill price. |
| FillAccounting.HandleAccounted | polytrader/oms/core.py:545-669 | Every call keeps every order's account of its fills exact. |
| FillAccounting.FillsAccounted | polytrader/oms/store.py:469-504 | In every run filled size is the sum of applied fills, average times filled the sum of price times size, never above the order size, FILLED exactly at it, and PARTIALLY_FILLED strictly between. |
| FillAccounting.FillBeforeAck | polytrader/oms/store.py:495-501 | A partial fill of a submitted order counts and leaves the state alone; the ack then leaves it ACKED with that much filled. |
| FillAccounting.AckedAndFilledIff | polytrader/oms/store.py:439-504 | In every run an ACKED order has something filled if and only if its history has a fill before its first ack. |
| OrderHistory.OrdersAreTold | polytrader/oms/store.py:404-512 | In every run every field of an order is read off its history: identity and intent from the creation it begins with, state from which events it holds and in what order, venue id from the last ack, reject reason from the first reject, and the account of fills. |
| OrderHistory.ClosedIff | polytrader/oms/store.py:452-512 | In every run an order is CANCELLED exactly when its history has a cancel, and REJECTED exactly when it has a reject. |
| OrderHistory.AckReturns | polytrader/oms/core.py:388-463 | An ack returns exactly for a SUBMITTED or ACKED order, which it makes ACKED under the id; otherwise the store stays as it was. |
| OrderHistory.RejectReturns | polytrader/oms/core.py:465-543 | A reject returns exactly for an order not past SUBMITTED or rejected already, which it makes REJECTED; otherwise the store stays as it was. |
| OrderHistory.FillReturns | polytrader/oms/core.py:545-669 | A fill returns exactly when it is valid, does not overfill and does not complete an order that is not open; it adds its size; otherwise the store stays as it was. |
| OrderHistory.CancelReturns | polytrader/oms/core.py:671-783 | A cancel returns exactly for an order that is ACKED, PARTIALLY_FILLED or PENDING_SUBMIT, which it makes CANCELLED; otherwise the store stays as it was. |
| OrderHistory.TrackedAfter | polytrader/oms/core.py:275-783 | A submission is timed from the creation until a reject or cancel of the order begins or a fill closes it. |
| OrderHistory.CreationStopped | polytrader/oms/core.py:342-361 | A reject or cancel that begins while the submit command is being published makes the creation raise after it has made the order SUBMITTED, with no submission logged. |
| Reconstruction.StateReconstructionService.ReconstructOms | polytrader/ops/replay.py:68-135 | Rebuilds from the events collected type by type and sorted; with none it leaves the store as it was, and when one raises it holds what the events before it gave. |
| Reconstruction.CollectedIsPermutation | polytrader/ops/replay.py:94-113 | Collecting type by type yields exactly the order events of the log. |
| Reconstruction.GatheredByType | polytrader/ops/replay.py:94-118 | Whatever the log, the rebuild is given its order events by timestamp, simultaneous ones in the order of their types, and those of one type in stable order. |
| Reconstruction.TypeOrderedUnique | polytrader/ops/replay.py:94-118 | An arrangement by timestamp and type is determined by the events of each type. |
| Reconstruction.GatheredIsLogOrder | polytrader/ops/replay.py:94-118 | The rebuild is given the log's order events in log order if and only if the log has them by timestamp and type. |
| Reconstruction.EarlierTypeIff | polytrader/ops/replay.py:24-32 | The types in their order: creation, submission, ack, reject, fill, cancel. |
| Reconstruction.SimultaneousEventsReordered | polytrader/ops/replay.py:94-118 | After any log in order, of two simultaneous events the one of the earlier type comes out first even if logged last. |
| Reconstruction.ProjectionReplay | polytrader/oms/store.py:389-402 | What a replay makes of an order is what replaying that order's events alone makes of it. |
| Reconstruction.ReplayableOrderByOrder | polytrader/oms/store.py:389-402 | A log can be replayed if and only if each order's events can be replayed alone. |
| Reconstruction.InterleavingIrrelevant | polytrader/oms/store.py:389-402 | Two logs with the same events per order and client ids not shared across orders rebuild the same orders, client index and histories, and the same venue index if venue ids are not shared either; if one can be replayed, so can the other. |
| BootRestore.GatheredOrder | polytrader/ops/replay.py:94-118 | Boot puts the events of an order in the order in which it would put them alone. |
| BootRestore.GatheredOrderIff | polytrader/ops/replay.py:94-118 | It replays the events of an order in log order if and only if the log has them by timestamp and type. |
| BootRestore.ReplayRecords | polytrader/oms/store.py:389-425 | A replay records for an order the last part of its events, and all of them if they start with its creation. |
| BootRestore.ReplayVenues | polytrader/oms/store.py:446-449 | If every order's events start with its creation, a replay files a venue id under the order last acked under it. |
| BootRestore.HandleLogs | polytrader/oms/core.py:275-925 | A call logs no order event and leaves the store alone, or creates an order with two events, or logs one event of a known order and applies it unless the store refuses it, which is when it publishes and raises. |
| BootRestore.FullyRecordedIff | polytrader/oms/core.py:275-925 | In every run each live history holds all that was logged for its order if and only if no call published and then raised. |
| BootRestore.BootsOrdersIff | polytrader/ops/replay.py:68-135 | For every run without publish-then-raise, on any clock, boot restores orders, client index and histories if and only if the log has the events of each order by timestamp and type. |
| BootRestore.BootsOrdersOnClockIff | polytrader/ops/replay.py:68-135 | On a clock that does not run backwards it does so if and only if, besides, no call published and then raised. |
| BootRestore.BootRestoresLiveIff | polytrader/ops/replay.py:68-135 | For every run without publish-then-raise and without re-ack under a new id, on any clock, boot rebuilds the live store if and only if the log has each order's events by timestamp and type and the last ack under each venue id, by logging and by timestamp, is of the same order. |
| BootRestore.BootRestoresDistinctIff | polytrader/ops/replay.py:68-135 | With venue ids distinct across orders only the events of each order matter. |
| BootRestore.BootRestoresOnClockIff | polytrader/ops/replay.py:68-135 | On a clock that does not run backwards, boot rebuilds the live store of a run without re-ack under a new id if and only if no call published and then raised and each order's simultaneous events were logged in the order of their types. |
| BootRestore.BootRestoresLive | polytrader/ops/replay.py:68-135 | In particular it does when the whole log is by timestamp and type, as on a strictly advancing clock. |
| Interleaving.UpdateAdvances | polytrader/oms/store.py:332-344 | However stale the caller's copy, update_order only moves states along the graph. |
| Interleaving.NextAdvances | polytrader/oms/core.py:275-783 | Every step of every interleaving moves every stored state along the graph. |
| Interleaving.StatesFollowGraph | polytrader/oms/fsm.py:145-172 | Between any two moments of any interleaving an order's state has followed a path of the graph; it never leaves a terminal state. |
| Interleaving.AtMostFiveChanges | polytrader/oms/fsm.py:56-72 | In every interleaving an order changes state at most five times. |
| Interleaving.SubmittedOnce | polytrader/execution/router.py:279-283 | In every interleaving the venue is asked at most once per order id and per client id, in the order the commands were published. |
| Interleaving.AdmittedThroughGate | polytrader/execution/router.py:164-222 | A command is let through only if it was taken while execution was enabled and its strategy active. |
| Interleaving.SentOnlyThroughGate | polytrader/execution/router.py:164-283 | Whatever reaches the venue was taken from the queue while execution was enabled. |
| Interleaving.TakeAdmitsIff | polytrader/execution/router.py:164-222 | The idle router takes the oldest command and lets it through exactly when execution is enabled, the kill switch is off, and its strategy is active or the mode is paper. |
| Interleaving.TacticsSendIff | polytrader/execution/router.py:236-283 | What was let through is sent exactly when the tactics do not hold it back. |
| Interleaving.OthersSendNothing | polytrader/execution/router.py:279-283 | No other step sends anything to the venue. |
| Interleaving.RouterTurn | polytrader/execution/router.py:100-140 | One turn of the router: it publishes what a submit command calls for, sends it exactly when gates and tactics allow, and is ready for the next command. |
| Races.ResumeAccountedIff | polytrader/oms/core.py:309-361 | From exact accounts, resuming a handler leaves them exact if and only if it neither installs a copy over an order with fills nor applies a fill that no longer fits an open order. |
| Races.StartAccounted | polytrader/oms/core.py:275-783 | The first segment of every handler keeps exact accounts exact. |
| Races.AccountsExactIff | polytrader/oms/core.py:275-783 | In every interleaving the accounts of all orders are exact at every moment if and only if no step wipes out fills or overfills. |
| Races.FillLostToCreation | polytrader/oms/core.py:316-334 | A partial fill handled while the creation is being published is wiped out of the stored order, though not of its history. |
| Races.FillLostToStaleCopy | polytrader/oms/core.py:342-346 | So is one handled while the submit command is being published. |
| Races.TwoFillsOverfill | polytrader/oms/core.py:590-633 | Two fills that pass the size check before either is applied overfill the order. |
| Races.RunIsInterleaving | polytrader/oms/core.py:275-783 | A run of calls one at a time is one of the interleavings. |
| ClientIndex.NextAgreesIff | polytrader/oms/core.py:301-327 | From agreement a step keeps idempotency map and client index in agreement if and only if it does not record an overtaken creation. |
| ClientIndex.AgreementIff | polytrader/oms/store.py:235-238 | In every interleaving they agree at every moment if and only if no creation is recorded after another one of its key has begun. |
| ClientIndex.OvertakenReached | polytrader/oms/core.py:301-327 | Two overlapping creations of one key: the first is recorded and goes on, a lookup by client id finds the second, which raises. |
| ShortRuns.CancelUnacked | polytrader/oms/core.py:764-766 | Create and cancel: a run from the empty system that publishes and raises, after which the log cannot be replayed. |
| ShortRuns.ReAcked | polytrader/oms/store.py:353-362 | Create and ack twice under different ids: a run after which rebuilt and live store differ. |
| ShortRuns.AckedWithFill | polytrader/oms/store.py:495-501 | Create, partial fill, ack: a run that ends with an ACKED order that has something filled. |
| ShortRuns.BootDiverges | polytrader/ops/replay.py:94-118 | The same run with fill and ack at one instant: the order is ACKED live and PARTIALLY_FILLED after boot. |
| TwoOrderRuns.CreatedAtOnce | polytrader/ops/replay.py:94-118 | An order created at the instant at which another was submitted: the log is not by timestamp and type, and boot rebuilds the live store. |
| TwoOrderRuns.SharedVenueId | polytrader/oms/store.py:353-362 | Two orders acked under one venue id: both carry it, and a lookup by it finds the second. |
| RouterRuns.AnswerPartsIff | polytrader/oms/core.py:128-134 | Wherever the log rebuilds the live store, a venue answer leaves the store alone and keeps it so if and only if it is a passing error. |
| RouterRuns.PlacedReached | polytrader/execution/router.py:341-354 | From the start of the system: after a plain placement the order is SUBMITTED live and ACKED in the log. |
| RouterRuns.ImmediateFillReached | polytrader/execution/router.py:318-354 | From the start of the system: until an immediate fill the log rebuilds the live store, and afterwards it cannot be replayed. |
| RouterRuns.PlacedAfterFillReached | polytrader/execution/router.py:279-354 | The same with a plain placement, when ack and partial fill were reported by the user stream while the venue was being asked. |
| ShortRuns.DamagesReached | polytrader/oms/core.py:316-346 | Interleavings from the empty system whose last step wipes out a fill, for both awaits of the creation. |
| ShortRuns.OverfillReached | polytrader/oms/core.py:590-633 | An interleaving from the empty system whose last step overfills an order. |
| Ops.EnabledWhen | polytrader/ops/control.py:84-182 | Over any sequence of operator actions, how the two flags come out. |
| Ops.EnabledIff | polytrader/ops/control.py:84-182 | Execution is enabled exactly when it was switched on after the last disabling action and the last kill switch action, if any, was a deactivation. |
| Ops.ExecutionControl.Enable | polytrader/ops/control.py:84-88 | Sets the enabled flag, leaving the kill switch alone. |
| Ops.ExecutionControl.EnableWithPermit | polytrader/ops/control.py:90-123 | Sets the enabled flag and announces it on the bus, if there is one. |
| Ops.ExecutionControl.Disable | polytrader/ops/control.py:125-129 | Clears the enabled flag, leaving the kill switch alone. |
| Ops.ExecutionControl.SetKillSwitch | polytrader/ops/control.py:131-172 | Sets the kill switch, disables execution when it is activated, and announces the change on the bus, if there is one. |
| Ops.CircuitBreaker.Check | polytrader/ops/control.py:217-323 | Trips exactly when untriggered and a threshold is reached, disabling execution and publishing the event it returns; otherwise changes nothing. |
| Ops.CircuitBreaker.Reset | polytrader/ops/control.py:325-349 | Re-arms the breaker, publishes the event it returns and leaves execution as it is. |
| Reconcile.CompareOrders | polytrader/oms/reconcile.py:124-268 | Returns the phantom, orphan and mismatch events of the two lists, in this order. |
| Reconcile.OneEventPerEntry | polytrader/oms/reconcile.py:138-268 | Each OMS entry yields at most one phantom or mismatch event: every event comes exactly as often as there are entries whose one event it is. |
| Reconcile.EventsPerOrder | polytrader/oms/reconcile.py:138-268 | An order id comes in at most as many of these events as the OMS lists it. |
| Reconcile.DifferencesExact | polytrader/oms/reconcile.py:160-205 | With multiplicity, phantoms are exactly the claimed ids the venue does not list, orphans exactly the listed ids no order claims. |
| Reconcile.MatchingIff | polytrader/oms/reconcile.py:124-160 | An order is matched with the last entry the venue lists under its id. |
| Reconcile.FillsDisagreeIff | polytrader/oms/reconcile.py:207-268 | A fill is missed when the venue lists the order as filled and the OMS has it otherwise, and unexpected when the venue lists it as open and the OMS has fills. |
| Reconcile.ComparedIff | polytrader/oms/reconcile.py:138-268 | Exactly which events the result holds, with kind, ids and severity of each. |
| Reconcile.TripsIff | polytrader/ops/control.py:217-282 | For any thresholds and any two lists, exactly when the result trips an untriggered breaker, in numbers of orders and venue entries. |
| Reconcile.TripsWithoutErrors | polytrader/ops/control.py:186-282 | With default thresholds and no error required: three phantoms, three orphans or one mismatch. |
| Reconcile.ReportedCounts | polytrader/ops/control.py:236-300 | The counts that a tripping breaker reports. |
| Reconcile.TripsOnMissedFill | polytrader/ops/control.py:236-282 | An untriggered breaker with default thresholds trips on the result exactly when some unfilled OMS order is matched to a filled venue order. |
| Router.ExecutionRouter.HandleSubmitCommand | polytrader/execution/router.py:146-405 | Calls the adapter once for a command that passes gates and tactics and not at all otherwise, and publishes the events of the case. |
| Router.ExecutionRouter.ConcludeSubmission | polytrader/execution/router.py:289-405 | After the adapter call publishes response, fill and ack, or error and reject, as the outcome demands. |
| RouterLog.AnswerReplayableIff | polytrader/execution/router.py:289-390 | Whatever state the log has the order in, exactly which venue answers make the log impossible to replay; otherwise the order comes out as answered, no other order changes, and only a passing error leaves the rebuilt store as it was. |
| RouterLog.RoutedReplayableIff | polytrader/execution/router.py:146-390 | The same for a whole submit command, rejects at the gates and throttled commands included. |
| RouterLog.RoutedPosts | polytrader/execution/router.py:146-405 | For every submit command, what each topic gains, in order, and which events the log gains. |
| SinkBreaker.SimpleCircuitBreaker.RecordSuccess | polytrader/events/sink.py:97-107 | Forgets the failures and closes a half-open breaker. |
| SinkBreaker.SimpleCircuitBreaker.RecordFailure | polytrader/events/sink.py:109-125 | Counts the failure and opens the breaker at the threshold or from half-open. |
| SinkBreaker.SimpleCircuitBreaker.IsOpen | polytrader/events/sink.py:127-144 | Whether the breaker is open, moving it to half-open once the cooldown is over. |
| SinkBreaker.SimpleCircuitBreaker.AllowRequest | polytrader/events/sink.py:146-154 | Allows exactly while the breaker is not open. |
| SinkBreaker.AllowsIff | polytrader/events/sink.py:127-154 | Requests are let through exactly while there have been fewer failures than the threshold since the last success, or once a cooldown has passed since the last failure. |
| SinkBreaker.ProbeDecides | polytrader/events/sink.py:97-144 | After a cooldown the next outcome closes the breaker or opens it again at once. |
| SinkBreaker.FailTracks | polytrader/events/sink.py:109-125 | Recording a failure keeps the breaker in step with the failures since the last success. |
| SinkBreaker.FailureRate | polytrader/events/sink.py:97-154 | Without a success in between, a period sees at most the threshold plus one failure per full cooldown. |
| EventSink.NextInOrder | polytrader/events/sink.py:312-425 | Every arrival, flush and append, failing or not, keeps store and waiting events in arrival order. |
| EventSink.PersistedInOrderOnce | polytrader/events/sink.py:312-425 | Whatever arrives and however appends fail, even after storing, what is persisted is a duplicate-free subsequence of the arrivals. |
| EventSink.RunConserves | polytrader/events/sink.py:312-371 | Every arrived event is delivered, in flight, buffered or dropped by overflow, exactly once; delivered events are in the store. |
| EventSink.NothingLostSilently | polytrader/events/sink.py:312-425 | An arrived event is persisted, waiting or counted as dropped. |
| EventSink.RunBounded | polytrader/events/sink.py:318-371 | Buffered plus in-flight events never exceed the buffer limit plus one batch; during a write the buffer alone respects its limit. |
| EventSink.ExceedsIff | polytrader/events/sink.py:318-371 | From a buffer within its maximum a step leads beyond it if and only if a last failing attempt puts back a batch that no longer fits. |
| EventSink.WithinLimitIff | polytrader/events/sink.py:318-371 | In a run the buffer is within its maximum at every moment if and only if no step does that. |
| EventSink.PutBackExceedsLimit | polytrader/events/sink.py:366-371 | Such a step occurs: a run after which the buffer holds more than its maximum. |
| EventSink.FailingFlushRate | polytrader/events/sink.py:353-371 | In every run a closed breaker has counted exactly the failures since the last success, and failing flushes obey the rate bound. |
| EventSink.FlushStartsIff | polytrader/events/sink.py:344-371 | In every run a flush of a nonempty buffer starts a write if and only if failures are below the threshold or a cooldown has passed, and then takes the oldest events that fit into a batch. |
| EventSink.CleanAttemptDelivers | polytrader/events/sink.py:373-425 | An attempt without a database error delivers the whole batch, forgets the failures and closes the breaker. |
| EventSink.ErrorsPutBack | polytrader/events/sink.py:366-425 | An error starts the batch over; the fifth puts it back in front of the buffer and counts as one failure. |
| EventSink.RecoversAfterCooldown | polytrader/events/sink.py:127-425 | Whatever failed before, once a cooldown has passed and the database answers, the next flush persists the oldest waiting events and closes the breaker. |
| SinkBoot.ArriveByType | polytrader/events/sink.py:253-310 | However publications, consumption of the topic queues and the sink's work interleave, the order events of each type arrive in the order in which they were published. |
| SinkBoot.PersistedAll | polytrader/events/sink.py:312-425 | With nothing waiting and nothing dropped, exactly what arrived is persisted, in order. |
| SinkBoot.PersistedBoots | polytrader/ops/replay.py:94-118 | Then boot is given the same events from the sink's store as from a log of all that was published. |
| SinkBoot.PersistedBootRestoresIff | polytrader/ops/replay.py:68-135 | So the exact condition for boot to rebuild the live store also holds for a boot from what the sink persisted. |
| EventSink.EventSink.AddToBuffer | polytrader/events/sink.py:312-328 | Appends the event, first dropping the oldest when the buffer is full. |
| EventSink.EventSink.FlushBatch | polytrader/events/sink.py:344-371 | A flush is the flush step followed by append steps until the batch is delivered or put back. |
| EventSink.EventSink.WriteBatchWithRetry | polytrader/events/sink.py:373-425 | Writes the batch from its start on each attempt, at most the configured number of times. |
| Pagination.InsertKeepsUnique | polytrader/db/repository.py:44-110 | Inserting is idempotent, keeps ids unique and never removes a row. |
| Pagination.EventRepository.CreateEvent | polytrader/db/repository.py:44-110 | The table gains the row unless its id is present. |
| Pagination.EventRepository.ReadPage | polytrader/db/repository.py:163-348 | A page holds the greatest matching rows below the cursor in descending order, and names a cursor exactly when rows are left. |
| Pagination.PageReads | polytrader/db/repository.py:163-348 | A page column by column: size between one and 500 as asked, rows of the type, strategy, period and mode asked for, below the cursor, newest first and greater ids first; a next cursor names the last row of a full page. |
| Pagination.PagesDescend | polytrader/db/repository.py:183-219 | Across pages, with rows inserted between fetches, rows strictly descend, so none comes twice. |
| Pagination.PagesCover | polytrader/db/repository.py:183-219 | A walk that reaches its last page has returned every matching row present at its start. |
| Pagination.ExactlyOnce | polytrader/db/repository.py:183-348 | Each of those rows is returned at exactly one position, for any limits and insertions. |
| Pagination.WalkEnds | polytrader/db/repository.py:183-219 | On a fixed table the walk ends after at most one page per matching row and one more. |
| Pagination.WalkIsExact | polytrader/db/repository.py:241-277 | On a fixed table a complete walk returns exactly the matching rows. |
| Pagination.WalkReturnsWanted | polytrader/db/repository.py:163-348 | On a fixed table a complete walk returns exactly the rows with the columns asked for. |
| Throttle.ExecutionThrottle.CheckOrderThrottle | polytrader/execution/throttle.py:40-61 | Decides as a throttle that never forgets an acceptance would; other keys and the cancel side are untouched. |
| Throttle.ExecutionThrottle.CheckCancelThrottle | polytrader/execution/throttle.py:63-84 | Decides as a throttle that never forgets an acceptance would; other keys and the order side are untouched. |
| Throttle.ExecutionThrottle.Reset | polytrader/execution/throttle.py:86-89 | Both sides start over with empty histories. |
| Throttle.PruneDecidesAs | polytrader/execution/throttle.py:51-61 | Dropping stamps older than a second never changes a later decision. |
| Throttle.SlidingLimit | polytrader/execution/throttle.py:49-61 | With a monotone clock no half-open second holds more accepted calls of a key than the limit rounded up. |
| Throttle.RefusedIff | polytrader/execution/throttle.py:49-61 | A call is refused exactly when as many accepted calls of its key as the limit rounded up are less than a second old. |
| Throttle.LaterPasses | polytrader/execution/throttle.py:49-61 | Under a positive limit a call passes once the accepted calls of its key are a second old. |
| Throttle.BurstAccepted | polytrader/execution/throttle.py:54-61 | The bound is tight: of a burst at one instant exactly that many calls pass. |
| Throttle.LimitIsPerKey | polytrader/execution/throttle.py:47-56 | Calls with pairwise different keys all pass as soon as the limit is positive. |
| Throttle.TotalLimit | polytrader/execution/throttle.py:47-61 | Over all keys together no half-open second holds more accepted calls than the number of distinct keys times the limit rounded up. |
| Throttle.TotalReached | polytrader/execution/throttle.py:47-61 | That bound is reached for any number of keys. |
| MarketViews.StampedMapsToPattern | polytrader/store.py:65-78 | A slug made of a pattern, a dash and a number maps to the pattern. |
| MarketViews.OnlyStampedMapAway | polytrader/store.py:65-78 | A slug that does not map to itself is such a slug. |
| MarketViews.PushNewest | polytrader/store.py:97-104 | Appending to a full bounded deque keeps the newest elements of the whole stream. |
| MarketViews.AddKeepsBounded | polytrader/store.py:97-104 | Adding a tick keeps every key's deque the newest `window` ticks of that key. |
| MarketViews.MemoryMarketDataStore.Add | polytrader/store.py:97-104 | The slug view takes the tick in, staying the bounded view of its stream. |
| MarketViews.MemoryMarketDataStore.History | polytrader/store.py:120-131 | The newest `window` ticks of that slug and outcome. |
| MarketViews.MemoryMarketDataStore.Latest | polytrader/store.py:106-118 | The newest tick of that slug and outcome, or none. |
| MarketViews.NewestTickIff | polytrader/store.py:106-118 | The newest tick of a key is the last of the stream that has it. |
| MarketViews.MemoryMarketDataStore.GetAllMarkets | polytrader/store.py:133-139 | Exactly the slug and outcome pairs that some tick had. |
| MarketViews.PatternKeyedMarketDataStore.Add | polytrader/store.py:154-156 | The pattern view takes the tick in, staying the bounded view of its stream. |
| MarketViews.PatternKeyedMarketDataStore.History | polytrader/store.py:163-165 | The newest `window` ticks of the slug's pattern and outcome. |
| MarketViews.PatternKeyedMarketDataStore.Latest | polytrader/store.py:158-161 | The newest tick of the slug's pattern and outcome, or none. |
| MarketViews.PatternKeyedMarketDataStore.GetAllMarkets | polytrader/store.py:167-168 | Exactly the pattern and outcome pairs that some tick had. |
| MarketViews.DualViewMarketDataStore.Add | polytrader/store.py:197-199 | Both views take in the same stream. |
| MarketViews.DualViewMarketDataStore.HistoryOf | polytrader/store.py:204-235 | The history of the view chosen for the strategy, on the common stream. |
| MarketViews.ViewsAgree | polytrader/store.py:97-208 | The pattern history restricted to one slug is a suffix of that slug's own history. |
| MarketViews.ViewsCoincide | polytrader/store.py:97-208 | It is all of it exactly when the dropped part holds no tick of the slug, or the kept part holds `window` of them. |
| Patterns.DecimalRoundTrip | polytrader/market_discovery/patterns.py:76-94 | A timestamp written in decimal reads back as itself. |
| Patterns.SlugDeterminesWindow | polytrader/market_discovery/patterns.py:76-94 | Slugs of different windows of a pattern differ. |
| Patterns.WindowsShareHistory | polytrader/store.py:65-78 | Every window of a pattern is filed under the pattern in the warm-start view. |
| Discovery.MarketDiscoveryService.GetFromCache | polytrader/market_discovery/service.py:1462-1509 | Serves a fresh entry of the current or previous window and deletes any other. |
| Discovery.ServedIff | polytrader/market_discovery/service.py:1462-1509 | A cached market is served exactly before its expiry and while the number in its slug is the start of the current or the previous window. |
| Discovery.MarketDiscoveryService.SearchBackward | polytrader/market_discovery/service.py:396-481 | The nearest active one of the three windows back, errors skipped. |
| Discovery.MarketDiscoveryService.Judge | polytrader/market_discovery/service.py:564-616 | The dates a future market is judged by, and whether it is running now or still to start. |
| Discovery.MarketDiscoveryService.SearchForward | polytrader/market_discovery/service.py:483-832 | Refines its specification: first running market within the priority windows, else earliest-starting running one, else the soonest to start, ties to the nearest. |
| Discovery.MarketDiscoveryService.SearchPast | polytrader/market_discovery/service.py:973-1060 | Probes only the current window and, on a window boundary, the previous one. |
| Discovery.MarketDiscoveryService.Search | polytrader/market_discovery/service.py:225-1103 | The five phases in order, with at most 5 + ahead + min(2, behind) windows checked. |
| Discovery.MarketDiscoveryService.GetCurrentMarket | polytrader/market_discovery/service.py:84-1103 | Answers from the cache or searches, and caches what it finds for thirty seconds. |
| Discovery.ForwardChoiceUnique | polytrader/market_discovery/service.py:501-832 | The forward specification admits only one choice. |
| Discovery.FarMarketsNeverRun | polytrader/market_discovery/service.py:597-616 | For windows of twelve minutes or more, metadata cannot make a market beyond the priority windows run now. |
| Discovery.MiddleCaseUnreachable | polytrader/market_discovery/service.py:597-832 | For such windows the forward phase has only its first and last case. |
| Discovery.MiddleCaseReached | polytrader/market_discovery/service.py:836-895 | With every shorter window the middle case does occur. |
| Discovery.FarMarketsRunIff | polytrader/market_discovery/service.py:597-616 | So a market beyond the priority windows can be running now exactly with windows shorter than twelve minutes. |
| Discovery.GivesUpIff | polytrader/market_discovery/service.py:276-1103 | A search answers nothing exactly when the current window failed fatally or every offset from -3 to `ahead` was of no use and so were the repeated probes. |
| Discovery.AnswerUnique | polytrader/market_discovery/service.py:225-1103 | The specification of the whole search admits only one answer. |
| Discovery.NearAnswer | polytrader/market_discovery/service.py:225-481 | What is answered for markets near now: the previous window, the current one or its fatal error, and the nearest of offsets -1, -2 and -3. |
| Discovery.OffersIff | polytrader/market_discovery/service.py:564-616 | When a market ahead counts as running now and when as still to start, in terms of its metadata and a distance of 7200 seconds. |
| Discovery.FirstRunningAnswers | polytrader/market_discovery/service.py:483-700 | With nothing near, the first running one of the ten windows ahead is answered. |
| Discovery.ForemostAnswers | polytrader/market_discovery/service.py:700-895 | With none of these, the running market that starts first, and else the one that will start first, ties to the nearest. |
| Discovery.LastLoopAnswers | polytrader/market_discovery/service.py:973-1060 | With nothing of use ahead either, the current window once more, and on a window boundary the previous one. |
| Discovery.UselessIff | polytrader/market_discovery/service.py:564-832 | Of no use ahead is a market that is not active or whose metadata says that it has ended. |
| Discovery.LastLoopIsDead | polytrader/market_discovery/service.py:973-1060 | If the exchange answers alike throughout a search, the last loop finds nothing. |
| Discovery.CachedAgainIff | polytrader/market_discovery/service.py:1462-1519 | Within the same window a cached market is served again exactly while younger than thirty seconds and of offset 0 or -1. |
| Indicators.RollingMean | polytrader/indicators/rolling.py:11-40 | One mean per full window, in order; raises for a window below one. |
| Indicators.Ema | polytrader/indicators/rolling.py:43-71 | The recursive average at every index; raises for a window below one. |
| Indicators.TrueRangeList | polytrader/indicators/atr.py:53-59 | The true range of every candle. |
| Indicators.Atr | polytrader/indicators/atr.py:11-71 | Zero during warm-up, then Wilder's average at every index; raises for a window below one or unequal lengths. |
| Indicators.FairPriceAnchor | polytrader/indicators/primitives.py:36-69 | Zero during warm-up, then the mean typical price; as long as the candles exactly when there are none or at least `window - 1` of them. |
| Indicators.TrendStrengthEmaGap | polytrader/indicators/primitives.py:72-122 | The gap of the two averages over volatility, zero where volatility is not positive; raises for bad periods or unequal lengths. |
| Indicators.TrueRangeIsSpan | polytrader/indicators/atr.py:53-59 | With low not above high, the true range is the span of the candle joined with the previous close. |
| Indicators.TrueRangeLargest | polytrader/indicators/atr.py:53-59 | The true range is the largest of the candle's span and the distances of high and low from the previous close. |
| Indicators.EmaEquation | polytrader/indicators/rolling.py:67-71 | The exponential average starts at the first value; each further value weighs 2 against window - 1. |
| Indicators.AtrEquation | polytrader/indicators/atr.py:60-71 | Zero, then the mean of the first ranges, then the new range weighs 1 against window - 1. |
| Indicators.AnchorEquation | polytrader/indicators/primitives.py:36-69 | Zero, then the mean of high, low and close over the window that ends at the candle. |
| Indicators.DeviationEquation | polytrader/indicators/primitives.py:31-33 | The z-score times the volatility is the distance of the value above the anchor, and zero without volatility. |
| Indicators.TrendEquation | polytrader/indicators/primitives.py:112-122 | Trend strength times volatility is the distance between the two averages, and zero without volatility. |
| Indicators.EmaWithin | polytrader/indicators/rolling.py:67-71 | An exponential average stays within any bounds of the values seen so far. |
| Indicators.EmaAffine | polytrader/indicators/rolling.py:67-71 | The exponential average commutes with a change of unit and origin. |
| Indicators.AtrScales | polytrader/indicators/atr.py:53-71 | Wilder's average scales with the unit and ignores the origin, warm-up included. |
| Indicators.AnchorAffine | polytrader/indicators/primitives.py:65-69 | A warmed-up anchor commutes with a change of unit and origin. |
| Indicators.DeviationInvariantIff | polytrader/indicators/primitives.py:31-33 | The z-score is unchanged exactly when the anchor is warmed up, the volatility is not positive, or the origin stays. |
| Indicators.DeviationInvariant | polytrader/indicators/primitives.py:31-69 | From the warm-ups on the z-score does not depend on unit and origin. |
| Indicators.TrendInvariant | polytrader/indicators/primitives.py:112-122 | Trend strength over this volatility depends on them at no index. |

## Left out

- Rounding of floats: amounts, prices and clocks are exact reals.
- `created_at` and `updated_at` of orders, latency measurements, metrics and logging.
- SHA-256 keys, UUIDs and base64 cursors: a client id, a fresh event id and a (timestamp, id) pair stand for them; an undecodable cursor is the missing cursor.
- SQL sessions and the PostgreSQL tick store: the events table is a set of rows with filter, sort and take.
- `EventSink.stop` cancels a batch in flight without putting it back, so nothing above extends over it.
- `BufferedTickWriter`, which discards a failed batch, and `CompositeMarketDataStore`.
- The sink breaker's counter of half-open probes, which nothing reads; a batch size below zero; and a maximum buffer size of zero, with which buffering an event raises.
- EventSink.EventSink.FlushBatch: the object flushes without arrivals in between; the interleaving of arrivals with a write is the step relation `Next`, over which the theorems are stated.
- EventLog.EventBus.Publish: a bus without a store and a store that fails to append are not modelled.
- The list of open orders and the unordered listing of all orders.
- Router.ExecutionRouter.HandleSubmitCommand: the tactics are a decision handed in, and cancel commands are not modelled.
- Interleaving: the router's awaits between two events it publishes after the adapter call are one step. Nothing delivers what it publishes to the OMS, which subscribes to approved proposals and to the venue's four user streams only (`polytrader/oms/core.py:128-134`); that is why live and logged states part after an answer.
- Rebuilding from the log of handlers that overlap on one order: the log then has their events in the order of publication, the store in that of application, and the two results are compared for calls handled one at a time only.
- The event sink's store is read back in insertion order within one timestamp, whereas the database breaks such ties by the time of insertion.
- Reconstruction of positions at boot; the position manager is not part of this model.
- Fetching both order lists for reconciliation, and publishing its events.
- Reasons and counts inside kill-switch, permit and breaker events are not part of the log, which knows such an event by its id, time and correlation id only.
- MarketViews.StampedMapsToPattern: digits are the ten ASCII digits, whereas the regular expression also accepts other Unicode digits.
- MarketViews.OnlyStampedMapAway: likewise of the ten ASCII digits only.
- Parsing of pattern text in discovery: a pattern carries the interval its parsing yields, or none; slugs are represented by their start timestamps.
- Discovery.MarketDiscoveryService.GetCurrentMarket: one reading of the clock serves the whole call, and the market metadata is an optional pair of dates per slug.
- `get_next_market` and the derivation of a market's state from its metadata.
- Candle building from ticks, and the strategies that use the indicators.
