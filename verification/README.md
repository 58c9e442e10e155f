# A verified model of the aggregator proxy

The aggregator proxy puts one simplified reservation state machine in front of an NSI Connection
Service v2 aggregator. It keeps reservations in memory, answers REST requests at once, and finishes them
in background tasks that wait, with timeouts, for SOAP callbacks that arrive in any order or not at all.
This project models that behaviour in Dafny and proves what it guarantees: for every interleaving of
requests, callbacks, timeouts, failures and refreshes, for every operation history, and for every
exception tree. Where a plausible guarantee is false, a lemma gives a run or an input that breaks it,
and another says exactly when it holds.

`dafny verify dfyconfig.toml` checks everything.

## How it is laid out

| files | what they hold |
|---|---|
| `Messages`, `StateMapping`, `HistoryProofs`, `StatusMeaning` | typed messages; the mapping of NSI states and operation histories to one status, what that status depends on, and what each status and each stored record means in the aggregator's terms |
| `StoreModel`, `Store`, `Refresh`, `RefreshProofs` | the store as a value and as mutable objects proved against it; refreshing it from the aggregator |
| `Protocol`, `ProtocolInvariant`, `ProtocolSteps` | the asynchronous protocol as a state machine and its inductive invariant |
| `ProtocolTheorems`, `ProtocolProgress`, `DataPlaneOverlap`, `RevokedWaits`, `TerminateSafety`, `ErrorConsistency`, `StatusWrites`, `ProtocolRuns`, `LabelledRuns` | what holds of every run |
| `HandlerVerdicts`, `TaskReactions` | what every request, message, timeout and answer leads to, in statuses, messages and record fields alone |
| `DataPlaneWait`, `CallbackDelivery` | the two loops: the data-plane wait on a timed trace, and the delivery of a callback |
| `AggregatorCycle`, `StoredCycle`, `IdempotentReserve`, `FreshNames` | the proxy composed with an aggregator |
| `Xml`, `Namespaces`, `Tags`, `ExceptionTrees`, `ExceptionParsing`, `MessageParsing`, `Decimals`, `Documents`, `Envelopes`, `EnvelopeProofs`, `MessageRoundTrip` | element trees: reading messages, building them in place, and round trips |

## The protocol as modelled

All code of the proxy runs on one asyncio thread, so a step is what happens between two awaits: a
handler or task running on, the callback endpoint dispatching one message, a wait giving up. An
`Operation` is one request together with the background task it starts; `Phase` is the await it is
suspended at. A future is a number with a state (pending, done, cancelled). The `history` records
deliveries, adopted callback URLs, the posts of `reserveCommit`, revoked waits and final writes, so that
whole-run properties can be stated.

Assumed of the environment, in `Protocol.Enabled` and nowhere else:

- correlation ids are fresh (they are uuids), and the aggregator never gives two reserves the same
  connection id, nor one it has already listed to a reserve posted later;
- a refresh of a known connection is answered for that connection;
- delivering a callback does not raise out of `_send_callback`, and tasks run until they return.

Nothing is assumed about messages: any message may arrive under any id at any time, any number of
times. A wait may time out although its message has arrived but has not been handled yet. Code that
handles a message may raise (`Fault`), before it has had any effect or between two of them, and so may
the code that handles the answer to a reserveCommit.

The composed models state at their own `Can` and `Possible` what they assume of the aggregator: its data
plane rises only in Provisioned, it acknowledges a request before it confirms it, and Terminated and
PassedEndTime are absorbing there.

Other parameters: ISO 8601 parsing is any partial function from strings to instants; `int()` and the
reading of a recursive query's reservations are parameters of `MessageParsing.Parse`; failure reasons
are structured values (`Reason`) instead of formatted strings. Clocks are integers, except in
`DataPlaneWait`, where loop time is real and the timer ideal.

## Where the code falls short of the tidy version

- The README of the repository (README.md:101) promises that every reservation converges to a stable
  state. It does exactly if its base status is stable, or is ACTIVATING or DEACTIVATING and the latest
  confirmation of that provision or release has a readable time; RESERVING never converges by itself
  (`HistoryProofs.ConvergesIff`). README.md:99 calls the release side symmetric; it
  consults neither the schedule nor the data-plane history (`HistoryProofs.DeactivatingFailsExactly`).
- Two data-plane waits on one connection can overlap. The timeout of one then cancels the other's future.
  If the other task wakes before its own timer fires, it ends with no final status and no callback; if its
  timer fires first, it reports as usual (`RevokedWaits.RevokedWaitFate`). That is the only way a task can
  end unreported (`RevokedWaits.UnreportedIffRevokedThenWoken`), and such a run exists
  (`RevokedWaits.AbortIsReachable`).
- An error event found by a refresh while a provision or release is being accepted stays behind the new
  ACTIVATING or DEACTIVATING status (`ErrorConsistency.DisturbedAcceptanceMisleads`).
- Terminating a connection does not always silence its reserve. The RESERVED and FAILED arms do not look
  at the in-flight flag, so a reserve that is still running may write over the terminate later; and no arm
  knows of a reserve that still awaits the HTTP response which will name the connection. After a restart
  there is no such reserve, and the terminate does silence it (`TerminateSafety.TerminateSilencesReserveIff`).
- TERMINATED is not absorbing in the store: a refresh, the acceptance of another request and the final
  write of a task that is not a terminate take it back (`TerminateSafety.TerminatedStaysIff`).
- A provision or release that is answered 409 has adopted the new callback URL already; only a terminate
  has not (`TerminateSafety.ConflictAdoption`).
- A terminate that goes unanswered stores TERMINATED although the aggregator may still hold the connection
  live. If a POST has just refreshed that connection, it finds nothing to reuse and reserves a second time,
  without any overlap of POSTs (`IdempotentReserve.UnansweredTerminateReservesTwice`).
- A read of a reservation between the acceptance of a request and its confirmation takes the stored status
  back to the one from before the request (`StoredCycle.StoredGoesRoundIff`).
- Two POSTs undecided under one globalReservationId can both reserve (`IdempotentReserve.OverlapReservesTwice`,
  `IdempotentReserve.StaysOneLiveIff`).
- A history with several events in one instant can make a provision in progress read as a dropped data
  plane (`AggregatorCycle.DerivedTellsWhatHappenedIff`).
- The shortcut of refresh-all keeps the status of a terminal connection but not the text of its error
  (`RefreshProofs.ShortcutLosesOnlyErrors`).
- A SOAP fault built with an empty text reads back with a placeholder (`EnvelopeProofs.SoapFaultReadsBack`),
  and an exception variable without type and value is dropped on reading (`MessageRoundTrip.ExceptionReadsBackIff`).

## Model

| member | source | states |
|---|---|---|
| `ProtocolTheorems.OneOutcomePerTask` | aggregator_proxy/routers/reservations.py:610-706 | in every run, whatever replies, timeouts, failed sends and internal exceptions occur, a task that has settled made exactly one final write, to a status allowed for its kind, with one callback that carries it to the URL last adopted; a task without one is still running, was refused, or is a revoked data-plane wait |
| `ProtocolTheorems.DataPlaneSuccessIsEarned` | aggregator_proxy/routers/reservations.py:922-947 | a provision ends ACTIVATED or FAILED, a release RESERVED or FAILED; ACTIVATED only after ProvisionConfirmed under the task's own correlation id and then a report that its connection's data plane is up, RESERVED only after ReleaseConfirmed and then a report that it is down, and all the wait heard in between are reports of the other state, no error event |
| `ProtocolTheorems.ReserveSuccessIsEarned` | aggregator_proxy/routers/reservations.py:634-699 | RESERVED only after ReserveConfirmed, the post of reserveCommit, its successful answer and ReserveCommitConfirmed under the commit's id, before the write |
| `ProtocolTheorems.DeliveryReachesItsWaiter` | aggregator_proxy/routers/nsi_callback.py:83-88 | a callback settles undone futures only, only those under its id or, for a notification, its connection; always the waiter of its id, and for a notification always the undone waiter of its connection; it touches no reservation |
| `ProtocolTheorems.EntriesAreUndone` | aggregator_proxy/reservation_store.py:115-121 | in every reachable state no pending entry leads to a done future, so set_result never meets one |
| `ProtocolTheorems.DuplicateReplyIsInert` | aggregator_proxy/reservation_store.py:115-121 | after a reply under an id, however many steps later, a second one settles nothing and changes no reservation and no task |
| `ProtocolTheorems.LateReplyIsInert` | aggregator_proxy/routers/reservations.py:637-640 | a reply that comes only after its wait has timed out, however much later, settles nothing and changes no reservation and no task |
| `ProtocolSteps.NextKeeps` | aggregator_proxy/routers/reservations.py:610-1217 | every step keeps the protocol's invariant, and only adds to histories and registrations; a future leaves pending at most once |
| `ProtocolSteps.RunsKeep` | aggregator_proxy/routers/reservations.py:610-1217 | the same over every run |
| `ProtocolProgress.OwnStepAdvances` | aggregator_proxy/routers/reservations.py:848-872 | each step of a task brings it closer to its end or consumes one more delivered message |
| `ProtocolProgress.TasksAreBounded` | aggregator_proxy/routers/reservations.py:848-872 | in every run a task takes at most six steps of its own plus one for each message delivered |
| `ProtocolProgress.TasksCanAlwaysLeave` | aggregator_proxy/routers/reservations.py:634-639 | a task that has not ended can always take a step towards its end, whatever the aggregator does |
| `ProtocolProgress.EndedForGood` | aggregator_proxy/routers/reservations.py:696-706 | an ended task is never changed again by any continuation of the run |
| `DataPlaneOverlap.WithoutOverlapNobodyAborts` | aggregator_proxy/routers/reservations.py:857-863 | if data-plane waits never overlap on a connection, every task that ends has reported exactly once |
| `DataPlaneOverlap.TimeoutRevokesOnlyOverlaps` | aggregator_proxy/routers/reservations.py:860-863 | a timeout that hits another operation's future hits one that waits on the same connection, and cancels it |
| `DataPlaneOverlap.TimeoutSparesTheRest` | aggregator_proxy/routers/reservations.py:860-863 | a timeout changes the future of another operation iff that future is the undone one filed under the connection |
| `RevokedWaits.RevokedWaitFate` | aggregator_proxy/routers/reservations.py:860-863 | after a timeout has revoked another operation's wait, in every continuation that operation is aborted, with no final status and no callback and for ever, iff its first own step is its wake-up; if that is its own timeout, it is never aborted; both steps are possible |
| `RevokedWaits.UnreportedIffRevokedThenWoken` | aggregator_proxy/routers/reservations.py:857-863 | over every run, a task ends without having reported iff another operation's timeout revoked its data-plane wait and it woke before its own timer fired; any other that ends has reported exactly once |
| `RevokedWaits.AbortIsReachable` | aggregator_proxy/routers/reservations.py:857-863 | a run from the empty proxy exists that ends with such a task |
| `DataPlaneOverlap.OverlapIsReachable` | aggregator_proxy/reservation_store.py:134-138 | a run from the empty proxy exists in which a provision's wait and a release's wait overlap on one connection |
| `TerminateSafety.FlagMeansRunningReserve` | aggregator_proxy/reservation_store.py:89-99 | at every suspension point a connection is in flight iff its reserve task, which is unique, has not ended |
| `TerminateSafety.UnacceptedReserveMayWrite` | aggregator_proxy/routers/reservations.py:839-843 | a reserve whose HTTP response is outstanding and may still name the connection can create and write it: such a continuation exists |
| `TerminateSafety.SilencedIff` | aggregator_proxy/routers/reservations.py:626-632 | from every state: no reserve task writes the connection in any continuation iff its acceptance was processed and its task has made its final write, or the aggregator has listed it and no reserve is left that it could be given to |
| `TerminateSafety.NeverGivenIsSilent` | aggregator_proxy/routers/reservations.py:1263-1266 | a proxy with no such reserve, as after a restart, never writes a listed connection on a reserve's behalf |
| `TerminateSafety.RunningReserveMayWrite` | aggregator_proxy/routers/reservations.py:636-640 | an accepted reserve that has not made its final write still can: such a continuation exists from every state |
| `TerminateSafety.TerminateSilencesReserveIff` | aggregator_proxy/routers/reservations.py:1253-1279 | for a terminate that is sent in any reachable state: no reserve task ever writes the connection again iff its acceptance was processed and, unless the RESERVING or still-terminating arm let it through, the task had made its final write; or no acceptance was processed and no reserve posted before the connection was listed awaits its HTTP response |
| `TerminateSafety.TerminatedStaysIff` | aggregator_proxy/routers/reservations.py:277-1311 | TERMINATED survives a step iff it is not a refresh that is not told of Terminated or PassedEndTime, the acceptance of another request, or the final write of a task that is not a terminate |
| `TerminateSafety.TerminatedThroughoutIff` | aggregator_proxy/routers/reservations.py:277-1311 | over every run it holds throughout iff no step of the run is one of these |
| `ErrorConsistency.StepKeepsErrorsFitIff` | aggregator_proxy/routers/reservations.py:1025-1029 | a step keeps "a stored error means FAILED or TERMINATED" iff it is not the acceptance of a provision or release over a stored error |
| `ErrorConsistency.ErrorsFitThroughoutIff` | aggregator_proxy/routers/reservations.py:978-1029 | over every run: that holds in every state iff no error is written between a handler's refresh and its acceptance |
| `ErrorConsistency.DisturbedAcceptanceMisleads` | aggregator_proxy/routers/reservations.py:1025-1029 | a refresh with an error event in between leaves the error behind ACTIVATING or DEACTIVATING |
| `StatusWrites.StatusChangesAreExplained` | aggregator_proxy/routers/reservations.py:277-1311 | every step writes at most one reservation; its status becomes the derived one by a refresh, the transient one of the request's kind by an acceptance, the reported one by a task's final write, and stays as it was otherwise |
| `HandlerVerdicts.VerdictMeans` | aggregator_proxy/routers/reservations.py:984-1000 | each handler sends, redelivers, waits for the running task or answers 409 on exactly the statuses listed for it, a terminate also by the in-flight flag and the aggregator's lifecycle |
| `HandlerVerdicts.RequestIsSentIff` | aggregator_proxy/routers/reservations.py:1253-1284 | a step sends a provision iff the refresh stores RESERVED, a release iff ACTIVATED, a terminate iff RESERVED or FAILED or, with no reserve in flight, RESERVING or a lifecycle of Terminating; nothing else is sent; the callback URL is adopted but for a terminate answered 409 |
| `HandlerVerdicts.ReadsAndReuses` | aggregator_proxy/routers/reservations.py:752-759 | a read writes what the refresh finds and a reused reservation gets the new callback URL, and nothing else changes |
| `TaskReactions.ReserveReacts` | aggregator_proxy/routers/reservations.py:642-661 | a confirmed reserve takes bandwidth, end points, service type and version from the confirmation and posts its commit under a new future; a failed, timed out or unexpected answer ends it FAILED with its own reason, in the record and in the callback to the URL then held |
| `TaskReactions.CommitReacts` | aggregator_proxy/routers/reservations.py:685-699 | a confirmed commit ends RESERVED without an error, any other answer FAILED with its reason |
| `TaskReactions.ConfirmationReacts` | aggregator_proxy/routers/reservations.py:930-936 | exactly the confirmation of its kind makes a provision or release wait for the data plane, and nothing is written yet; any other message fails it |
| `TaskReactions.DataPlaneReacts` | aggregator_proxy/routers/reservations.py:865-871 | a data plane reported up ends a provision ACTIVATED, one reported down a release RESERVED, both without an error; an error event fails both with the root causes of its exception, or its originator; anything else starts the next turn, with a new future, while time is left |
| `TaskReactions.TerminateReacts` | aggregator_proxy/routers/reservations.py:1207-1212 | whatever a terminate hears it ends TERMINATED and leaves the error as it was |
| `TaskReactions.FaultReacts` | aggregator_proxy/routers/reservations.py:702-704 | an exception while a message is handled ends a terminate TERMINATED and any other task FAILED with an internal error |
| `TaskReactions.FaultAfterConfirmation` | aggregator_proxy/routers/reservations.py:649-661 | after a ReserveConfirmed the criteria may have been written by then, and the commit's entry filed for good |
| `TaskReactions.CancelledReacts` | aggregator_proxy/routers/reservations.py:857-859 | a cancelled future ends its task with no write and no callback |
| `TaskReactions.ReplyTimeoutReacts` | aggregator_proxy/routers/reservations.py:636-640 | without a reply in time a terminate ends TERMINATED, any other task FAILED; only the awaited future is cancelled and its entry stays filed |
| `TaskReactions.DataPlaneTimeoutReacts` | aggregator_proxy/routers/reservations.py:860-863 | a data-plane wait that runs out writes nothing yet; exactly the undone ones among its own future and the one filed under its connection are cancelled, and that entry is gone |
| `TaskReactions.CommitAnswerReacts` | aggregator_proxy/routers/reservations.py:664-680 | a commit that was not sent fails the reserve and takes back its entry, and only that |
| `TaskReactions.NotificationsReact` | aggregator_proxy/routers/reservations.py:875-897 | after that wait the first error event with the greatest notification id gives the reason, and without any the silence of the data plane, up or down |
| `TaskReactions.ResponseReacts` | aggregator_proxy/routers/reservations.py:1006-1029 | an accepted request stores the transient status of its kind, or the new reservation under the aggregator's id and in flight, and starts to wait; a refused one takes back its entry; an unreadable response leaves it filed; neither writes a reservation |
| `TaskReactions.PostingDrafts` | aggregator_proxy/routers/reservations.py:793-838 | a reserve's record has the request's own values, version 1 and no error, and its future is filed before it is sent |
| `TaskReactions.CallbackEnds` | aggregator_proxy/routers/reservations.py:705-706 | after its callback a task is finished, and a reserve no longer in flight |
| `DataPlaneWait.AwaitDataPlaneChange` | aggregator_proxy/routers/reservations.py:848-872 | returns the first error event or target state before the deadline, None iff there is none, waits no longer than the budget, and leaves no entry of its own |
| `DataPlaneWait.AwaitTurn` | aggregator_proxy/routers/reservations.py:857-866 | one turn yields the next notification iff it comes within what is left of the budget, and leaves the entries as they were either way |
| `DataPlaneWait.FirstSettlingExists` | aggregator_proxy/routers/reservations.py:848-872 | if any notification settles before the deadline there is a first one |
| `CallbackDelivery.SendCallback` | aggregator_proxy/routers/reservations.py:146-169 | the number of POSTs is the count of leading 409 answers plus one, capped at 12, each with the snapshot taken at the start; delivered iff the last was answered 2xx |
| `Store.StoredReservation.RecordSeenErrorEvents` | aggregator_proxy/routers/reservations.py:251-274 | announces exactly the ids not seen before and remembers every reported one |
| `Store.ReservationStore.UpdateFromQuery` | aggregator_proxy/routers/reservations.py:277-316 | the mutable store after a refresh is the specified one: the same object in place if known, a new one otherwise, no other entry touched |
| `Store.ReservationStore.Create` | aggregator_proxy/reservation_store.py:60-62 | files the object itself under its connection id and changes no other entry |
| `Store.ReservationStore.UpdateStatus` | aggregator_proxy/reservation_store.py:72-74 | writes the status of one known reservation, or fails on an unknown one and changes nothing |
| `Store.ReservationStore.UpdateCriteria` | aggregator_proxy/reservation_store.py:76-87 | replaces the criteria of one known reservation by the confirmed ones, or fails on an unknown one and changes nothing |
| `Store.ReservationStore.AdoptThrough` | aggregator_proxy/routers/reservations.py:983 | a callback URL written through a held reference reaches the store iff the store still holds that object |
| `Store.ReservationStore.RegisterPending` | aggregator_proxy/reservation_store.py:105-113 | a new undone future under the id; every earlier one stays |
| `Store.ReservationStore.ResolvePending` | aggregator_proxy/reservation_store.py:115-121 | settles the waiting future, removes the entry, and answers whether an undone future was waiting |
| `Store.ReservationStore.CancelPending` | aggregator_proxy/reservation_store.py:123-127 | removes the entry and cancels its future if undone |
| `Store.ReservationStore.RegisterPendingByConnection` | aggregator_proxy/reservation_store.py:134-138 | a new undone future takes the connection's entry over |
| `Store.ReservationStore.ResolvePendingByConnection` | aggregator_proxy/reservation_store.py:140-146 | as by correlation id, for a connection |
| `Store.ReservationStore.CancelPendingByConnection` | aggregator_proxy/reservation_store.py:148-152 | cancels whatever undone future is filed under the connection |
| `Store.ReservationStore.NsiCallback` | aggregator_proxy/routers/nsi_callback.py:83-88 | the undone futures filed under the callback's id and, for a notification, under its connection become done with the message, all others stay; both entries are gone; it answers whether one was settled; no reservation is touched; and this is the protocol's delivery step |
| `Store.ReservationStore.Settle` | aggregator_proxy/routers/reservations.py:626-632 | status, error and payload are written and snapshot in one block |
| `HistoryProofs.ActivatingFailsExactly` | aggregator_proxy/state_mapping.py:118-133 | a stuck activation is FAILED iff an active change at or after the provision exists or the clock is past max(provision, start) + timeout, and then for good, with the same reason |
| `HistoryProofs.ActivatingConvergesIffAnchored` | aggregator_proxy/state_mapping.py:118-133 | from some moment on it is always FAILED iff the latest provisionConfirmed has a readable time; otherwise never |
| `HistoryProofs.DeactivatingFailsExactly` | aggregator_proxy/state_mapping.py:135-144 | a stuck release is FAILED iff its readable time plus the timeout has passed, whatever the changes and the schedule say |
| `HistoryProofs.ConvergesIff` | aggregator_proxy/state_mapping.py:97-147 | whatever the base status: from some moment on the derived status is stable for good iff the base is stable, or it is ACTIVATING or DEACTIVATING and the latest confirmation of the provision or release has a readable time |
| `HistoryProofs.LatestOperationTimeMeaning` | aggregator_proxy/state_mapping.py:80-86 | the lookup yields the instant of any result of the operation that no other supersedes, ties included |
| `HistoryProofs.DerivationIgnoresIrrelevantHistory` | aggregator_proxy/state_mapping.py:97-147 | histories whose results supersede each other and whose changes differ only in stale ones derive the same status |
| `HistoryProofs.DerivationReadsSets` | aggregator_proxy/state_mapping.py:97-147 | the derived status is invariant under reordering and repeating results and changes |
| `HistoryProofs.DerivationIgnoresNoise` | aggregator_proxy/state_mapping.py:80-94 | nor does adding a foreign or superseded result, or a change older than the latest provision, anywhere |
| `StatusMeaning.StatusMeans` | aggregator_proxy/state_mapping.py:39-55 | the exact condition of each status in the aggregator's state names, independent of the order of tests |
| `StatusMeaning.LatestByIdThenTimestamp` | aggregator_proxy/state_mapping.py:80-86 | the lookup yields the instant of the result with the greatest id and, among equal ids, the last timestamp in dictionary order |
| `StatusMeaning.ResolutionStores` | aggregator_proxy/routers/reservations.py:403-421 | the status a full resolution stores, from the answers alone: a provision confirmed at t is FAILED iff the data plane was reported up at or after t or the clock is past max(t, start) + timeout, a release iff it is past t + timeout, and every other status is the mapped one |
| `StatusMeaning.ResolutionStoresError` | aggregator_proxy/routers/reservations.py:236-248 | the error it stores: the newest error event's root causes or originator, else the derived failure's, else what was there if the states report a failure, else none |
| `StatusMeaning.ShortcutStores` | aggregator_proxy/routers/reservations.py:560 | the shortcut stores the mapped status |
| `StatusMeaning.ShortcutStoresError` | aggregator_proxy/routers/reservations.py:560 | and keeps an error only under FAILED |
| `StatusMeaning.RefreshStoresCriteria` | aggregator_proxy/routers/reservations.py:286-300 | a refresh stores bandwidth, end points, service type and version as queried, version 1 for none or zero, iff bandwidth and both end points are known; otherwise the criteria stay |
| `StatusMeaning.RefreshCreates` | aggregator_proxy/routers/reservations.py:304-313 | an unknown reservation takes identity and requester from the aggregator, and no callback URL |
| `RefreshProofs.ShortcutIsExact` | aggregator_proxy/routers/reservations.py:552-560 | skipping the queries yields the status of the full resolution for every possible history iff the states are terminal |
| `RefreshProofs.ShortcutLosesOnlyErrors` | aggregator_proxy/routers/reservations.py:552-572 | what the shortcut leaves in the store differs at most in the error and the seen ids, and when exactly not at all |
| `RefreshProofs.GatherOrderIrrelevant` | aggregator_proxy/routers/reservations.py:564-572 | any order of the gathered resolutions of distinct connections ends in the same store |
| `RefreshProofs.RestartIndependence` | aggregator_proxy/routers/reservations.py:395-421 | after a refresh the status of every listed connection is the same from any two prior stores |
| `RefreshProofs.RefreshIsIdempotent` | aggregator_proxy/routers/reservations.py:277-316 | repeating the same refresh changes nothing further |
| `RefreshProofs.RefreshKeepsIdentity` | aggregator_proxy/routers/reservations.py:297-302 | a refresh never changes id, global id, description, requester or callback URL, and forgets neither criteria nor seen ids |
| `RefreshProofs.NewestEventIsNewest` | aggregator_proxy/routers/reservations.py:229-233 | the error text is that of an event with the greatest notification id |
| `RefreshProofs.AnnouncedExactlyOnce` | aggregator_proxy/routers/reservations.py:251-274 | over any sequence of refreshes an id is announced exactly in the first one that reports it, unless known before |
| `RefreshProofs.SeenIsUnion` | aggregator_proxy/routers/reservations.py:272-274 | the seen ids are the union of all reported ones |
| `AggregatorCycle.StatusGoesRound` | aggregator_proxy/state_mapping.py:39-55 | with an aggregator whose data plane rises only in Provisioned and falls only in Released, the mapped status of a committed reservation moves only round RESERVED, ACTIVATING, ACTIVATED, DEACTIVATING |
| `StoredCycle.StoredGoesRoundIff` | aggregator_proxy/routers/reservations.py:978-1029 | the stored status, over joint runs of proxy and aggregator without an unsolicited drop, goes round the same cycle iff no task gives up and nothing refreshes the reservation between a request's acceptance and its confirmation |
| `AggregatorCycle.DerivedTellsWhatHappenedIff` | aggregator_proxy/state_mapping.py:97-147 | on every run, with any number of events in one instant: the status that a full resolution derives tells a drop, a late activation and a late release from what is still in progress, iff the connection is not ACTIVATING, was up since its provision, or every rise before that provision carries an earlier instant |
| `AggregatorCycle.SharedInstantMisleads` | aggregator_proxy/state_mapping.py:89-94 | a run exists on which it does not: released and provisioned again within one instant, a provision in progress reads as a dropped data plane |
| `IdempotentReserve.AtMostOneLive` | aggregator_proxy/routers/reservations.py:752-776 | if no POST begins while another under its id is undecided, and no terminate task writes a still live connection between its refresh by a POST and that POST's decision, at most one reservation that is not terminated exists per globalReservationId at every moment |
| `IdempotentReserve.OverlapReservesTwice` | aggregator_proxy/routers/reservations.py:752-804 | from any state with two undecided POSTs under one id, a continuation leaves two live reservations under it |
| `IdempotentReserve.StaysOneLiveIff` | aggregator_proxy/routers/reservations.py:577-607 | from any state with at most one live reservation per id: it stays so in all such continuations iff under each id at most one POST is undecided and it will find what is live |
| `IdempotentReserve.StepKeepsOrderIff` | aggregator_proxy/routers/reservations.py:577-607 | from such a state exactly the steps that obey both conditions lead to such a state |
| `IdempotentReserve.UnansweredTerminateReservesTwice` | aggregator_proxy/routers/reservations.py:1193-1205 | a terminate task that stores TERMINATED for a live connection a POST has refreshed makes a second live reservation possible, with no overlapping POSTs |
| `IdempotentReserve.LiveMeansReuse` | aggregator_proxy/routers/reservations.py:606-607 | while a reservation that was live at the lookup lives on, and no terminate task marks a live connection between refresh and decision, the POST sends no reserve, whatever overlaps it |
| `IdempotentReserve.PostSteps` | aggregator_proxy/routers/reservations.py:598-607 | a POST lists exactly its id's connections, stores each as TERMINATED iff it was over, and reserves iff all of them are then stored as TERMINATED |
| `ExceptionParsing.ParsesIffComplete` | aggregator_proxy/nsi_soap/parser.py:246-264 | reading an exception tree fails iff some node lacks nsaId, errorId or text |
| `ExceptionParsing.RootCausesAreLeaves` | aggregator_proxy/nsi_soap/parser.py:246-264 | reading and then flattening yields exactly the nodes without childException, in document order, at least one |
| `MessageParsing.CausesAreLeavesOfTheMessage` | aggregator_proxy/nsi_soap/parser.py:287-383 | the same for whatever message carries the exception: failures, error events and faults |
| `MessageParsing.FailureReadableIff` | aggregator_proxy/nsi_soap/parser.py:319-345 | a reserveFailed or reserveCommitFailed is readable iff it names its connection and its exception is complete in every node |
| `MessageParsing.FaultReadableIff` | aggregator_proxy/nsi_soap/parser.py:236-243 | a Fault is readable iff the first serviceException anywhere in its detail, if any, is complete in every node |
| `MessageParsing.CorrelationIdReadableIff` | aggregator_proxy/nsi_soap/parser.py:646-658 | a correlation id is found iff some nsiHeader, anywhere and in any namespace, directly holds one that is not empty, and it is such a one |
| `MessageParsing.ReadsDefaults` | aggregator_proxy/nsi_soap/parser.py:267-312 | a data plane is active iff its text is exactly "true", and a confirmation without a version reads as version 1 |
| `MessageRoundTrip.ExceptionReadsBackIff` | aggregator_proxy/nsi_soap/parser.py:246-264 | an exception tree written out in full reads back, whole and in order, iff no variable anywhere in it is blank |
| `MessageRoundTrip.MessageReadsBackIff` | aggregator_proxy/nsi_soap/parser.py:287-383 | the parser inverts the sender: any message written in the shape the tests show reads back exactly, iff it has no blank variable and no empty fault text |
| `Xml.FirstTagged` | aggregator_proxy/nsi_soap/parser.py:239 | the search in any namespace finds an element with the local name iff there is one |
| `Envelopes.BuildEnvelope` | aggregator_proxy/nsi_soap/builder.py:48-62 | the tree grown in place is the specified envelope with an empty body |
| `Envelopes.BuildAcknowledgment` | aggregator_proxy/nsi_soap/builder.py:65-69 | the acknowledgment tree |
| `Envelopes.BuildSoapFault` | aggregator_proxy/nsi_soap/builder.py:72-82 | the fault tree |
| `Envelopes.BuildConnectionIdOperation` | aggregator_proxy/nsi_soap/builder.py:132-168 | the request with its connectionId, or none, in the body |
| `Envelopes.BuildQuerySummarySync` | aggregator_proxy/nsi_soap/builder.py:171-185 | the filters present, connectionId first |
| `Envelopes.BuildQueryNotificationSync` | aggregator_proxy/nsi_soap/builder.py:193-200 | the request for a connection's whole notification history |
| `Envelopes.AddEro` | aggregator_proxy/nsi_soap/builder.py:122-128 | the loop appends one orderedSTP for each STP, in order, numbered by its index, and touches nothing else |
| `Envelopes.BuildReserve` | aggregator_proxy/nsi_soap/builder.py:89-129 | the reserve request, optional parts only if asked for |
| `Documents.InsideNew` | aggregator_proxy/nsi_soap/builder.py:126-128 | growing an element that is already in the tree is appending the grown element |
| `EnvelopeProofs.CorrelationIdReadsBack` | aggregator_proxy/nsi_soap/parser.py:646-658 | a non-empty correlation id reads back whatever the body holds; with a body that carries none, iff it is not empty |
| `EnvelopeProofs.BuiltBodiesAreSilent` | aggregator_proxy/nsi_soap/builder.py:65-205 | no body that is built carries a correlation id of its own, whatever its texts say |
| `EnvelopeProofs.AcknowledgmentEchoesCallback` | aggregator_proxy/routers/nsi_callback.py:97-102 | the answer to any readable callback parses as an acknowledgment and reads back with that callback's correlation id |
| `EnvelopeProofs.SoapFaultReadsBack` | aggregator_proxy/nsi_soap/builder.py:72-82 | a built fault parses to its text iff the text is not empty |
| `EnvelopeProofs.EroReadsBack` | aggregator_proxy/nsi_soap/builder.py:122-128 | an ERO is present iff one with an STP was asked for, and its entries, read by their order attributes in any order, are the list asked for |
| `EnvelopeProofs.EndPointsReadBack` | aggregator_proxy/nsi_soap/builder.py:116-121 | capacity and both STPs read back as asked for |
| `EnvelopeProofs.HeaderReadsBack` | aggregator_proxy/nsi_soap/builder.py:48-62 | protocol version, correlation id, both NSAs and the optional replyTo read back from the header of every message, and its body follows |
| `EnvelopeProofs.RequestReadsBack` | aggregator_proxy/nsi_soap/builder.py:101-121 | a reserve reads back with its ids, description, service type, start and end, under version 1, bidirectional on a symmetric path, in the provider protocol |
| `Decimals.DecimalReadsBack` | aggregator_proxy/nsi_soap/builder.py:117-127 | an integer written in decimal reads back |

## Left out

- HTTP, TLS, routing, authentication, MCP and settings: I/O; a send is a nondeterministic success or failure.
- The uPA provider endpoints and the Helm chart: not part of this protocol.
- Pydantic validation of requests and of `update_criteria`: a raise of the latter is covered by `Fault`.
- Formatting of reasons and log text: reasons are structured values; the list of root causes is kept.
- Path segments and queryRecursive: children of a queried reservation are not modelled.
- Redelivery after a repeated request in a settled state: no task and no status write belongs to it; `SendCallback` covers the delivery.
- Process shutdown and cancellation of tasks from outside.
- GET endpoints: only the refresh they perform is a step (`Look`).
- MessageReadsBackIff: leaves queryRecursiveConfirmed out, because its reservations are read by a parameter.
- Parse: numbers and the reservations of queryRecursiveConfirmed are read by parameters, because both are library or other code; comments and processing instructions in a body are not modelled.
- Parsers of the synchronous query answers: their typed results are inputs of the refresh.
- Byte-level XML: serialisation, encodings, namespace prefixes, text after a child element (tails).
- Document: an element is a path into one tree, so moving or removing elements, which the builders never do, cannot be expressed.
- TerminateSilencesReserveIff: a connection counts as listed when the refresh that names it is processed, not when the aggregator made the list, so a reserve posted in between still counts as one it could be given to.
- AtMostOneLive: assumes that the aggregator has decided on a reserve before the POST that sent it returns, because a reserve still in transit is the overlap that `OverlapReservesTwice` shows.
- AwaitDataPlaneChange: the timer is ideal and the entry is renewed before the next notification; a notification that arrives between two turns is lost in the code as well, and the protocol's own steps cover that.
- StatusGoesRound: one request is outstanding at a time, because two interleaved ones are the overlap treated above.
