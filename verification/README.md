# AgentPulse in Dafny

AgentPulse connects coding agents (Providers) to the devices of the people who supervise them
(Channels). A Provider publishes numbered events about a session; a reducer folds them into the
session's state; the Bridge validates them, fans them out to subscribers, catches late subscribers
up page by page, and carries answers back. The native Channel queues frames for one client, the
runtime host owns the adapters' lifecycle, and the relay pairs a client with a waiting host and
pumps their bytes.

This project models the core of that stack and proves what it is for, over all inputs, all
interleavings and all reachable states:

- the reducer's state is exactly what a trace specification says of the event stream, so is the set
  of events it accepts next, its window is an exact cache of the history, and retention and retries
  do not affect meaning;
- for a client that passes its cursor back, everything it is ever handed, put together, is the
  history: no gap, repeat or reordering between pages or between catch-up and live delivery; folding
  it gives the server's state;
- an interaction is announced as interactive exactly when some answer would be accepted, and an
  answer is forwarded exactly when it settles an open request, and is then accepted, once;
- every operation is served when it can be and otherwise names the reason, and errors that would mean
  a corrupted registry cannot occur;
- the native Channel and the Bridge agree on subscriptions in every run, except after one step, whose
  exact condition, lasting effect and a run reaching it are given; its frame stream is continuous
  across pages and live frames;
- revoked handles stay dead, re-entry is reported exactly when it happens, and the host's state tells
  the truth about its adapters;
- a waiting relay registration is claimed at most once, by a client proven under the registered key;
- the tunnel is a bounded FIFO both ways;
- decimal and transfer-object decoding accept exactly what encoding produces.

## How it is organised

| files | content |
|---|---|
| `Core`, `Order`, `Interaction`, `Routing` | domain values, ascending enumeration, validating constructors, response checking, capability routing |
| `Aggregate`, `History`, `Acceptance` | the reducer as functions and as the object updated in place; what its state means, and which event it accepts next, in terms of the applied events |
| `Bridge`, `BridgeService` | the Bridge operations as functions, and as an object with in-place tables and loops proved equal to them |
| `BridgeFacts`, `BridgeRuns`, `BridgeGuarantees`, `BridgeAnswers` | each operation's shape, runs of operations and their invariant, the end-to-end guarantees, and every operation's full answer from the history |
| `Native`, `NativeRuns`, `NativeGuarantees`, `NativeAnswers` | the shared delivery state, its interleaving with the Bridge, the guarantees, and what each request is answered |
| `NativeLeak`, `NativeOverflow` | the subscription an overflow leaves behind, and a concrete run with the reconnection after it |
| `Ingress`, `Lifecycle` | permits, locks and host steps taken by many threads; the host object with start, stop and retry |
| `Relay`, `Tunnel` | the waiting table and every interleaving of hosts and clients; the byte pump |
| `Decimal`, `Wire` | canonical decimal text; transfer objects of interactions, plans, progress and capability lists |

Adapters are foreign code: a Bridge operation takes the verdicts of the Channel Ports as a function
and returns the handoffs it made, in order. Identifiers are opaque and ordered, timestamps are
integers, sequences and revisions are bounded by 64 bits, and a `BTreeMap` is a map enumerated in
ascending key order. In proofs over runs, `hide` keeps the definitions a proof does not need out of
its way; nothing is assumed.

Where the code and its intent differ, the model follows the code. Completing a subscription whose
final page fits but whose two closing frames do not leaves the Bridge with a subscription that the
connection never records and that disconnecting does not remove
(`agentpulse-channels/native/src/runtime.rs:820-822` and `946-953`).
`NativeGuarantees.AgreementNeedsRoom` gives the exact condition; `NativeLeak.LeakHidesHistory` says what
the client of the next connection then misses.

## Model

| member | source | states |
|---|---|---|
| `Interaction.FindDuplicate` | agentpulse-core/src/interaction.rs:200-225 | the loop over a fresh hash set finds the first identifier that repeats an earlier one |
| `Interaction.NoDuplicateIffUnique` | agentpulse-core/src/interaction.rs:320-339 | no duplicate is reported exactly when identifiers are pairwise distinct, and a reported one occurs twice |
| `Interaction.ConstructorsAreExact` | agentpulse-core/src/interaction.rs:200-225 | approval, choice and form constructors accept exactly the constructible payloads |
| `Interaction.FormFieldIsExact` | agentpulse-core/src/interaction.rs:407-437 | a form field is accepted exactly when its options are distinct and some answer exists |
| `Interaction.ResponsesAreExact` | agentpulse-core/src/interaction.rs:914-931 | selections and form responses are accepted exactly when nonempty and without repetition |
| `Interaction.ValidationIsExact` | agentpulse-core/src/interaction.rs:734-831 | a response passes exactly when it answers that request, in time, with offered options of the right kind, and every form field answered |
| `Interaction.RejectionsByName` | agentpulse-core/src/interaction.rs:734-831 | which mismatch, lateness, kind or choice each rejection reports, in the order of the checks |
| `Interaction.SelectionErrors` | agentpulse-core/src/interaction.rs:786-793 | a selection fails with its first option that is not offered |
| `Interaction.ConstructorErrors` | agentpulse-core/src/interaction.rs:320-339 | an empty collection is reported first, then an identifier that really repeats |
| `Interaction.ProgressErrors` | agentpulse-core/src/progress.rs:16-27 | a zero total is reported first, then more done than there is; anything else is accepted |
| `Routing.InteractiveIffSatisfiable` | agentpulse-core/src/routing.rs:117-190 | for every constructible request, Interactive is announced exactly when some constructible response from that Channel passes |
| `Routing.RouteByName` | agentpulse-core/src/routing.rs:117-147 | Interactive, ReadOnly and each error exactly, with every kind of request and the capabilities it needs at both ends written out |
| `Routing.ResponseByName` | agentpulse-core/src/routing.rs:167-190 | a response is accepted exactly when it is correlated, its kind is answerable by name, and it answers in time |
| `Routing.CommandByName` | agentpulse-core/src/command.rs:106-150 | a command is accepted exactly when it is correlated and both ends have the capabilities named for it |
| `Routing.EventByName` | agentpulse-core/src/event.rs:178-193 | an event is valid exactly when its session is the Provider's own and the Provider has the capability named for its kind |
| `Routing.EventRouteByName` | agentpulse-core/src/routing.rs:149-164 | a valid event is shown for observation only, except a request, which is shown with its own route |
| `Routing.ReadOnlyRejectsEverything` | agentpulse-core/src/routing.rs:117-190 | when the route is not Interactive every response is rejected |
| `Routing.RoutesIgnoreSnapshotDetails` | agentpulse-core/src/routing.rs:100-164 | validation and routing of an event depend only on the session's identity and Provider |
| `Aggregates.SessionAggregate.FromInitialEvent` | agentpulse-core/src/aggregate.rs:288-320 | a new aggregate only from a first SessionStarted event, with the window the configuration allows |
| `Aggregates.SessionAggregate.ReplayStream` | agentpulse-core/src/aggregate.rs:331-345 | the replay loop returns the fold of the stream, or the first error |
| `Aggregates.SessionAggregate.Apply` | agentpulse-core/src/aggregate.rs:348-434 | the in-place update is the specified step, and an error leaves every field as it was |
| `Aggregates.SessionAggregate.Observe` | agentpulse-core/src/aggregate.rs:353-430 | the payload match: each branch's new state or error |
| `Aggregates.SessionAggregate.ValidateCursor` | agentpulse-core/src/aggregate.rs:561-599 | retry, next event, or the exact cursor error |
| `Aggregates.SessionAggregate.ApplyToolActivity` | agentpulse-core/src/aggregate.rs:625-652 | starting an active call or finishing an inactive one fails without change |
| `Aggregates.SessionAggregate.RecordEvent` | agentpulse-core/src/aggregate.rs:654-667 | the trimmed deque is the old window plus the event, cut at the capacity |
| `History.Identity` | agentpulse-core/src/aggregate.rs:348-434 | all events of a history are the session's, numbered from one, started once, and its identity never changes |
| `History.SessionSummary` | agentpulse-core/src/aggregate.rs:601-607 | the revision is the first one plus the number of state, connection and end events; `updated_at` is the maximum over those events |
| `History.NewestWins` | agentpulse-core/src/aggregate.rs:353-430 | state, connection, plan, progress and outcome come from the newest event that sets them; an end sets Completed, Failed or Cancelled as the run ended |
| `History.PlanRevisionsIncrease` | agentpulse-core/src/aggregate.rs:608-623 | plan revisions strictly increase along a history |
| `History.ProgressRevisionsIncrease` | agentpulse-core/src/aggregate.rs:608-623 | progress revisions strictly increase along a history |
| `History.PendingIsOpen` | agentpulse-core/src/aggregate.rs:390-430 | a request is pending exactly when it was asked with no later response, closure or end |
| `History.ActiveIsRunning` | agentpulse-core/src/aggregate.rs:625-652 | a tool call is active exactly when it started with no later finish or end |
| `History.WindowIsSuffix` | agentpulse-core/src/aggregate.rs:654-667 | the window is the whole history, or its last `capacity` events |
| `History.PageIsSlice` | agentpulse-core/src/aggregate.rs:531-559 | a page exists exactly for covered cursors and is then the slice of the history after the cursor, cut at the limit |
| `History.CatchUpIsCeiling` | agentpulse-core/src/aggregate.rs:531-559 | without new events catch-up takes exactly the ceiling of missing events over page size, and at least one request |
| `History.RetriesAreInvisible` | agentpulse-core/src/aggregate.rs:331-345 | immediate repetitions never change a replay's result or error |
| `History.RetentionIsInvisible` | agentpulse-core/src/aggregate.rs:331-345 | two configurations fed the same stream fail alike or reach the same projection |
| `History.WindowRebuildsAggregate` | agentpulse-core/src/aggregate.rs:516-523 | under complete retention an aggregate's own window replays to that aggregate |
| `Acceptance.AcceptanceIsExact` | agentpulse-core/src/aggregate.rs:348-434 | an event is applied exactly when it is the session's next one and the stream so far admits it: the revision can advance, the tool runs or does not, the plan or progress is newer, the request is open or not, the answer fits it |
| `Acceptance.CursorAnswers` | agentpulse-core/src/aggregate.rs:561-599 | from the history: a retry only of the last event itself, and when a foreign session, a stale sequence, a conflict or a gap is answered, without change |
| `Acceptance.RejectionIsExplained` | agentpulse-core/src/aggregate.rs:353-430 | the next event is rejected exactly when the stream does not admit it, and the error names the reason in the stream's terms |
| `Acceptance.StreamStarts` | agentpulse-core/src/aggregate.rs:288-320 | a stream starts exactly with a SessionStarted event under sequence one |
| `Acceptance.PlanIsNewest` | agentpulse-core/src/aggregate.rs:608-623 | a plan revision is newer than the stored one exactly when it is newer than all earlier ones |
| `Acceptance.ProgressIsNewest` | agentpulse-core/src/aggregate.rs:608-623 | likewise for progress |
| `BridgeService.Service.SyncSession` | agentpulse-bridge/src/bridge.rs:895-1024 | the imperative operation changes the tables, answers and hands over exactly as specified |
| `BridgeService.Service.Subscribe` | agentpulse-bridge/src/bridge.rs:1041-1121 | likewise |
| `BridgeService.Service.Unsubscribe` | agentpulse-bridge/src/bridge.rs:1124-1155 | removes one subscription and, when it was the last, the session's entry; says whether there was one |
| `BridgeService.Service.UnsubscribeChannel` | agentpulse-bridge/src/bridge.rs:1158-1178 | removes every subscription of one Channel, no other, and counts them |
| `BridgeService.RetainOthers` | agentpulse-bridge/src/bridge.rs:1164-1177 | the `retain` sweep with its counter |
| `BridgeService.Service.HandleProviderEvent` | agentpulse-bridge/src/bridge.rs:1181-1284 | all routes are planned before anything changes, then one aggregate moves and every subscriber is attempted |
| `BridgeService.DeliverAll` | agentpulse-bridge/src/bridge.rs:1230-1283 | one attempt per planned subscriber, whatever the others answered |
| `BridgeFacts.ChooseShape` | agentpulse-bridge/src/bridge.rs:932-952 | the chosen page is a history slice; under complete retention it always exists and is reset exactly when the cursor is ahead |
| `BridgeRuns.RunKeepsInv` | agentpulse-bridge/src/bridge.rs:895-1284 | after every run each session is the fold of its history and belongs to a registered Provider, every stored event passed validation, and subscriptions name registered Channels and live sessions |
| `BridgeGuarantees.RegistryErrorsAreUnreachable` | agentpulse-bridge/src/bridge.rs:953-979 | `BaselineRoute`, `ChannelNotFound` on publication and `ProviderNotFound` on actions for live sessions never occur |
| `BridgeGuarantees.ReplayedRouteIsLive` | agentpulse-bridge/src/bridge.rs:953-979 | an event replayed at any later point of a run gets the route it got live; Provider and descriptors are fixed |
| `BridgeGuarantees.PageAnswersRequest` | agentpulse-bridge/src/bridge.rs:932-998 | a page is the history after the requested cursor, or from the start when marked as a reset; final, with the current session, exactly when it reaches the head; under complete retention a reset exactly when the cursor is ahead |
| `BridgeAnswers.PageRequestsAreAnswered` | agentpulse-bridge/src/bridge.rs:895-1024 | every page request from the history alone: the three argument errors in order and exactly when due, the head for a subscriber, history no longer held, or exactly one page whose start, end, reset, events and finality are given, with the answer and the subscription following the Channel's verdict |
| `BridgeAnswers.CatchUpGoesLive` | agentpulse-bridge/src/bridge.rs:895-1024 | with nothing new, a client that passes back what it is told is unsubscribed before and subscribed at the head after exactly that many requests |
| `BridgeAnswers.RequestsIsCeiling` | agentpulse-bridge/src/bridge.rs:932-952 | that number is the ceiling of the missing events over the page size, and at least one |
| `BridgeAnswers.SubscriptionsAreAnswered` | agentpulse-bridge/src/bridge.rs:1041-1121 | every plain subscription: each error, the head for a subscriber, or the baseline handed over with session, sequence and open requests, and the reported sequence and count |
| `BridgeAnswers.UnsubscriptionsAreAnswered` | agentpulse-bridge/src/bridge.rs:1124-1155 | each error, whether there was a subscription, and that only it is gone |
| `BridgeAnswers.ChannelUnsubscriptionsAreAnswered` | agentpulse-bridge/src/bridge.rs:1158-1178 | the number of the Channel's subscriptions, and that exactly those are gone |
| `BridgeAnswers.PublicationsAreAnswered` | agentpulse-bridge/src/bridge.rs:1181-1284 | every publication: each error in order, exactly when due and without change; applied exactly when the Provider may publish it and the stream admits it next; a retry only of the last event |
| `BridgeAnswers.ResponsesAreAnswered` | agentpulse-bridge/src/bridge.rs:1287-1331 | every response: which error comes when, from the history |
| `BridgeAnswers.CommandsAreAnswered` | agentpulse-bridge/src/bridge.rs:1334-1368 | every command: which error comes when, with its needs by name |
| `BridgeGuarantees.CatchUpJoinsLive` | agentpulse-bridge/src/bridge.rs:895-1024 | after any run, for a client that asks every page at the cursor it was last told, all events handed over since it started, was told to start over or subscribed afresh are exactly the history from there to its cursor, and while subscribed its cursor is the head |
| `BridgeGuarantees.NeverStartsOver` | agentpulse-bridge/src/bridge.rs:932-952 | under complete retention such a client starting from zero is never handed a reset |
| `BridgeGuarantees.EverythingOnceInOrder` | agentpulse-bridge/src/bridge.rs:895-1024 | the plain concatenation of all events it accepted over the whole run is the history up to its cursor, and the whole history while subscribed |
| `BridgeGuarantees.SubscribersSeeTheSession` | agentpulse-bridge/src/bridge.rs:1204-1283 | after every step of every run, whatever cursors it asks with, a SESSION_VIEW subscriber that accepted its handoffs holds exactly the current session |
| `BridgeGuarantees.ReplayRebuildsServerState` | agentpulse-bridge/src/bridge.rs:966-998 | a subscribed client that asked from zero and passed its cursor back rebuilds the Bridge's aggregate by replaying everything it was handed |
| `BridgeGuarantees.ResetClientRebuildsServerState` | agentpulse-bridge/src/bridge.rs:932-998 | one that started elsewhere and was told to start over does so from what it was handed since |
| `BridgeGuarantees.FinalBaselineMatchesReplay` | agentpulse-bridge/src/bridge.rs:966-998 | the final baseline holds the replayed session, its sequence and exactly its open interactions, ascending, each interactive exactly when it is answerable by name |
| `BridgeGuarantees.EverySubscriberIsReported` | agentpulse-bridge/src/bridge.rs:1230-1283 | each applied event reports every subscriber once, in ascending order: Delivered exactly when it took the event with its own route and any view it was due, otherwise the handoff it refused |
| `BridgeGuarantees.ForwardedAnswerIsAccepted` | agentpulse-bridge/src/bridge.rs:1287-1331 | an answer the Bridge forwards is accepted when published next, and is then no longer pending |
| `BridgeGuarantees.AnswerForwardedIff` | agentpulse-bridge/src/bridge.rs:1287-1331 | a response is forwarded exactly when its Channel is subscribed and named in it, the Provider takes it, and it answers in time a request open in the history and interactive for that Channel |
| `BridgeGuarantees.CommandForwardedIff` | agentpulse-bridge/src/bridge.rs:1334-1368 | a command is forwarded exactly when its Channel is subscribed and named in it, both ends have the capabilities named for it, and the Provider takes it |
| `Native.DeliveryState.QueuedLength` | agentpulse-channels/native/src/state.rs:43-52 | counts queued, parked and trailing frames |
| `Native.DeliveryState.Push` | agentpulse-channels/native/src/state.rs:54-64 | appends one frame, or marks the connection for abort when full |
| `Native.DeliveryState.PushBatch` | agentpulse-channels/native/src/state.rs:66-76 | appends all frames or none |
| `Native.DeliveryState.Connect` | agentpulse-channels/native/src/runtime.rs:548-562 | a new connection starts with nothing queued, discovered, subscribed or pending, and with the resumed cursors |
| `Native.DeliveryState.DeliverLive` | agentpulse-channels/native/src/port.rs:27-96 | a live frame is queued, parked behind its synchronisation, or refused with the exact reason |
| `Native.DeliveryState.DeliverSession` | agentpulse-channels/native/src/port.rs:183-251 | the page's frames are built in order and parked all at once, or refused |
| `Native.DeliveryState.Begin` | agentpulse-channels/native/src/runtime.rs:704-759 | the first critical section of a subscription |
| `Native.DeliveryState.Complete` | agentpulse-channels/native/src/runtime.rs:798-834 | the last critical section of a subscription |
| `NativeAnswers.QueueingIsExact` | agentpulse-channels/native/src/state.rs:43-76 | frames are queued in order exactly when all fit with everything queued, parked and trailing; otherwise none is and the connection is marked |
| `NativeAnswers.SubscribeRequestsAreAnswered` | agentpulse-channels/native/src/runtime.rs:704-767 | rejected exactly for an undiscovered session, while another is pending or without a stored cursor; answered at once when subscribed; otherwise pending |
| `NativeAnswers.LiveMessagesAreAnswered` | agentpulse-channels/native/src/port.rs:27-96 | each refusal exactly when due, otherwise one frame more is held |
| `NativeAnswers.BaselinesAreAnswered` | agentpulse-channels/native/src/port.rs:120-181 | a baseline is parked whole for the pending session, or refused with the exact reason |
| `NativeAnswers.EachSubscriberIsHandedItsOwn` | agentpulse-bridge/src/bridge.rs:1250-1276 | in one publication a subscriber is handed its event and, only if it took that and is due one, the new session; nobody else is handed anything |
| `NativeAnswers.SyncCallsAreAnswered` | agentpulse-channels/native/src/runtime.rs:770-784 | the call for a pending session hands over the page after the stored cursor and succeeds exactly when that page fits |
| `NativeAnswers.RoomySubscriptionsComplete` | agentpulse-channels/native/src/runtime.rs:704-835 | with room for the page and two frames a pending subscription completes, with the cursor at the page's end and subscribed exactly at the head |
| `NativeGuarantees.LiveGrowth` | agentpulse-channels/native/src/port.rs:27-96 | inside one publication the accepted frames are appended in order, and a refusal marks the connection for abort |
| `NativeGuarantees.SyncBatchIsWellFormed` | agentpulse-channels/native/src/runtime.rs:761-834 | a completed page is result, exactly the announced events, on the final page the session and the announced interactions, completion, then all raced frames in order; it fails exactly when two frames do not fit |
| `NativeGuarantees.AgreementNeedsRoom` | agentpulse-channels/native/src/runtime.rs:820-834 | completing keeps Bridge and connection in agreement exactly unless a final page's batch does not fit |
| `NativeGuarantees.MoveKeepsInv` | agentpulse-channels/native/src/runtime.rs:704-961 | every other move of the worker, the Port, Providers and other Channels keeps agreement, batch shape and continuity |
| `NativeGuarantees.FinishCursors` | agentpulse-channels/native/src/runtime.rs:823-829 | completing a page moves the stored cursor of its session to the page's end, and no other cursor |
| `NativeGuarantees.PageExtendsReading` | agentpulse-channels/native/src/runtime.rs:761-834 | every page starts at the client's own cursor or is marked as a reset, so it continues what the client read of the session, and raced frames continue the page |
| `NativeGuarantees.SubscriptionsAgreeAndStreamsContinue` | agentpulse-channels/native/src/runtime.rs:704-961 | in every run without a final-page overflow the subscriptions agree and the client's cursors are the stored ones; all events since a subscription's first page are the history from its resume cursor to the stored cursor between pages, and to the head once subscribed |
| `NativeLeak.OverflowLeaks` | agentpulse-channels/native/src/runtime.rs:820-822 | the overflow leaves a Bridge subscription that the connection does not know of and will not remove |
| `NativeLeak.LeakPersists` | agentpulse-channels/native/src/runtime.rs:946-961 | neither the disconnect nor a new connection nor anything on it removes the leftover, until the client unsubscribes from that session or asks for it again |
| `NativeLeak.LeakHidesHistory` | agentpulse-channels/native/src/runtime.rs:761-834 | asking again is answered as subscribed at the head with two frames, no event and no session; the stored cursor jumps to the head, so for every cursor below it the events in between are missing |
| `Native.DeliveryState.Announce` | agentpulse-channels/native/src/runtime.rs:688-699 | a discovery is queued whole or not at all, and replaces the discovered sessions only then |
| `NativeAnswers.DiscoveryListsEverything` | agentpulse-channels/native/src/runtime.rs:657-687 | a discovery is its counts, every Provider once and every session once, ascending, and a completion |
| `NativeAnswers.DiscoveriesAreAnswered` | agentpulse-channels/native/src/runtime.rs:688-699 | the discovered sessions change exactly when the whole discovery fits |
| `NativeOverflow.OverflowIsReachable` | agentpulse-channels/native/src/runtime.rs:761-834 | a run of connecting, discovering and subscribing with room for four frames that reaches the overflow |
| `NativeOverflow.ReconnectionMissesEverything` | agentpulse-channels/native/src/runtime.rs:761-834 | the same client reconnects, asks from the start, is told it is subscribed at sequence two, and is sent neither of the two events |
| `Ingress.RunIsSafe` | agentpulse-bridge/src/runtime.rs:1155-1237 | over all interleavings locks, stacks, permits and adapter states stay consistent |
| `Ingress.RevokedStaysDead` | agentpulse-bridge/src/runtime.rs:1200-1217 | once revoked, a permit is never active again and no call is ever inside it |
| `Ingress.ActivePermitsBelongToLiveAdapters` | agentpulse-bridge/src/runtime.rs:1381-1422 | an active permit's adapter is running or still inside its `start` |
| `Ingress.ReentryIffHolding` | agentpulse-bridge/src/runtime.rs:1155-1175 | `access` reports re-entry exactly when the calling thread already holds the Bridge |
| `Ingress.OperationsExclude` | agentpulse-bridge/src/runtime.rs:665-687 | at most one call is inside the Bridge, under a permit that is active and held by its thread |
| `Ingress.FreeCallsOperate` | agentpulse-bridge/src/runtime.rs:665-687 | a call through an active handle that finds its locks free reaches the Bridge and leaves everything as it was |
| `Ingress.DeadCallsEnd` | agentpulse-bridge/src/runtime.rs:1209-1212 | one through a revoked handle ends at the permit with nothing taken |
| `Ingress.OutcomesByName` | agentpulse-bridge/src/runtime.rs:1381-1416 | what a callback's success or failure makes of the adapter, and a finished stop of the host |
| `Ingress.HostStateIsTruthful` | agentpulse-bridge/src/runtime.rs:1002-1088 | between host calls, Stopped and StopFailed describe the adapters exactly, whatever other threads do |
| `Lifecycle.RuntimeHost.RegisterProviderAdapter` | agentpulse-bridge/src/runtime.rs:905-920 | registration only while stopped and only of a new endpoint |
| `Lifecycle.RuntimeHost.RegisterChannelAdapter` | agentpulse-bridge/src/runtime.rs:923-938 | registration only while stopped and only of a new endpoint, remembering the subscription scope |
| `Lifecycle.RuntimeHost.Start` | agentpulse-bridge/src/runtime.rs:1002-1039 | starts every adapter in registration order and reports each |
| `Lifecycle.RuntimeHost.Stop` | agentpulse-bridge/src/runtime.rs:1041-1088 | clears source-generation subscriptions, then stops unfinished adapters in reverse order |
| `Lifecycle.RuntimeHost.ClearSubscriptions` | agentpulse-bridge/src/runtime.rs:1104-1120 | unsubscribes exactly the source-generation Channels unless Bridge access is refused |
| `Lifecycle.StartEffect` | agentpulse-bridge/src/runtime.rs:1381-1399 | each adapter in turn runs, and is reported so, exactly when its callback succeeded, and the next finds the Bridge that callback left |
| `Lifecycle.StartAnswers` | agentpulse-bridge/src/runtime.rs:1002-1038 | refused exactly while started or in need of cleanup; otherwise the host is started and the answer is success exactly when every callback succeeded |
| `Lifecycle.StopAnswers` | agentpulse-bridge/src/runtime.rs:1044-1089 | when a stop has nothing to do, is refused, ends Stopped or ends StopFailed |
| `Lifecycle.RegistrationAnswers` | agentpulse-bridge/src/runtime.rs:905-938 | registration succeeds exactly while stopped and for a new endpoint, and adds one stopped adapter |
| `Lifecycle.StopRetriesUnfinishedOnly` | agentpulse-bridge/src/runtime.rs:1041-1088 | every stop calls exactly the unfinished adapters, last first, leaves those whose callback failed, never more than before, and completes exactly when none is left |
| `Lifecycle.HostStateOverRuns` | agentpulse-bridge/src/runtime.rs:1002-1088 | over whole runs Stopped means all stopped, and StopFailed means all stopped or failed with at least one failed |
| `Lifecycle.StopClearsGenerations` | agentpulse-bridge/src/runtime.rs:1104-1120 | after any run a stop leaves no source-generation subscription and every persistent one |
| `Relay.WaitingTable.Overlaps` | agentpulse-relay/src/server.rs:472-481 | true exactly when some candidate route is already waiting |
| `Relay.WaitingTable.AddHost` | agentpulse-relay/src/server.rs:280-315 | registers unless the table is full or a route is taken |
| `Relay.WaitingTable.Find` | agentpulse-relay/src/server.rs:411-440 | yields the one host waiting under the route, with its key, or the exact failure |
| `Relay.WaitingTable.Claim` | agentpulse-relay/src/server.rs:451-464 | removes the entry exactly when it is still there |
| `Relay.RunIsSafe` | agentpulse-relay/src/server.rs:278-464 | over all interleavings of hosts and clients the table, the workers and the counters stay consistent |
| `Relay.RendezvousStaysBounded` | agentpulse-relay/src/server.rs:280-315 | waiting routes are disjoint, at most 17 hosts wait, and the connection counter is the number of live worker threads, within the limit |
| `Relay.ClaimedAtMostOnce` | agentpulse-relay/src/server.rs:401-464 | whoever claimed a registration stays the only one, for ever |
| `Relay.PeersAreProven` | agentpulse-relay/src/server.rs:401-464 | a host's peer asked for a route that host registered and was proven under that route's key |
| `Relay.SendNeverBlocks` | agentpulse-relay/src/server.rs:458-464 | the winner's send finds the one-place channel empty |
| `Relay.RegistrationsAreAnswered` | agentpulse-relay/src/server.rs:286-315 | refused exactly with seventeen waiting or a route taken; otherwise the host waits |
| `Relay.ProvenClientsAreMatched` | agentpulse-relay/src/server.rs:401-464 | a client proven under a waiting host's key, and not overtaken, becomes that host's peer |
| `Relay.UnprovenClientsAreRejected` | agentpulse-relay/src/server.rs:432-441 | one that is not proven is rejected and the host goes on waiting |
| `Relay.GuardRemovesOwnEntry` | agentpulse-relay/src/server.rs:165-174 | dropping a guard removes at most its own entry |
| `Tunnel.ReadInto` | agentpulse-relay/src/tunnel.rs:34-60 | a read takes exactly the least of what is ready, the room, one chunk and the stream; closed or broken exactly when due; the FIFO is kept |
| `Tunnel.WriteOut` | agentpulse-relay/src/tunnel.rs:61-103 | a write moves exactly what is taken of the buffer; broken exactly on failure or a zero write; a stall is recorded exactly while a waiting side blocks |
| `Tunnel.TurnEnds` | agentpulse-relay/src/tunnel.rs:32-103 | which exit each iteration forces, in the order of its calls |
| `Tunnel.TurnMoves` | agentpulse-relay/src/tunnel.rs:33-103 | how many bytes an iteration moves each way, and when it counts as progress |
| `Tunnel.TurnDrains` | agentpulse-relay/src/tunnel.rs:60-103 | a side that takes everything leaves all that was read of its direction written |
| `Tunnel.ClockByName` | agentpulse-relay/src/tunnel.rs:104-120 | when an iteration ends in an idle or a stall timeout, and when the pump goes on |
| `Tunnel.Pump` | agentpulse-relay/src/tunnel.rs:15-127 | the loop is those iterations until one ends it; on every exit written plus buffer is what was read, buffers stay within 64 KiB, output is a prefix of input, counters saturate; an idle exit means nothing moved for its limit, a stalled exit that one direction had bytes waiting and wrote none for its limit |
| `Decimal.ParseDigits` | agentpulse-protocol/src/v2/scalar.rs:55-56 | the checked digit loop is Rust's lenient parse |
| `Decimal.DecodeDecimalIsExact` | agentpulse-protocol/src/v2/scalar.rs:20-61 | decoding accepts exactly the printed form of each value and returns that value |
| `Decimal.ReadersAgree` | agentpulse-channels/native/src/protocol.rs:1216-1260 | the cursor and sequence readers agree with it on every text, except that they refuse zero |
| `Decimal.ParseSessionCursors` | agentpulse-channels/native/src/protocol.rs:1216-1238 | accepts exactly well-formed lists without a repeated session, and returns exactly their cursors |
| `Wire.RequestIsExact` | agentpulse-protocol/src/v2/convert.rs:471-639 | a request object decodes to a value exactly when it is that value's encoding and the constructors could build it |
| `Wire.RequestFields` | agentpulse-protocol/src/v2/convert.rs:471-547 | each field of a request's transfer object is the request's field of that name |
| `Wire.ApprovalErrors` | agentpulse-protocol/src/v2/convert.rs:576-594 | an approval needs options or a reason why there are none, never both |
| `Wire.ResponseIsExact` | agentpulse-protocol/src/v2/convert.rs:761-863 | likewise for responses |
| `Wire.ResponseFields` | agentpulse-protocol/src/v2/convert.rs:761-824 | likewise field by field |
| `Wire.PlanIsExact` | agentpulse-protocol/src/v2/convert.rs:391-430 | likewise for plans |
| `Wire.PlanFields` | agentpulse-protocol/src/v2/convert.rs:391-421 | likewise field by field |
| `Wire.ProgressIsExact` | agentpulse-protocol/src/v2/convert.rs:432-469 | likewise for progress |
| `Wire.ProgressFields` | agentpulse-protocol/src/v2/convert.rs:432-460 | likewise field by field |
| `Wire.DecodeCapabilities` | agentpulse-protocol/src/v2/convert.rs:1101-1126 | accepts exactly lists without repetition, and returns exactly the listed capabilities |
| `Wire.CapabilityCodecsRoundTrip` | agentpulse-protocol/src/v2/convert.rs:1053-1214 | decoding an encoding gives the set back; re-encoding a decoded list is the same list in the fixed order |

## Left out

- Sockets, TLS, WebSocket framing, file storage, process control, discovery on the local network and the command line: I/O without a provable core.
- HMAC, SHA-256, base64 and random ids: proof checking is an uninterpreted predicate, connection ids are fresh values, and the relay's host authentication is not part of this model.
- Time: deadlines, pings and idle timeouts of the native worker, the relay and the host are steps that may happen at any moment.
- Adapter code: Channel Port verdicts, Provider verdicts and source callbacks are parameters; a callback that panics is not modelled.
- Sharing: `BridgeService.Service` holds session aggregates as values, so it does not capture that the source updates each one in place inside the map; `Aggregates.SessionAggregate` does.
- `NativeGuarantees.SubscriptionsAgreeAndStreamsContinue`: covers runs in which the Channel's ingress permit is active, and claims continuity only while no frame was refused, because the drain loop does not look at the abort mark again (`agentpulse-channels/native/src/runtime.rs:346-358`).
- `NativeGuarantees.MoveKeepsInv`: has no move for a subscription or unsubscription of the native channel made on the host itself (`agentpulse-bridge/src/runtime.rs:974-997`), which changes the Bridge behind the connection's back without any overflow.
- `NativeGuarantees.LiveGrowth`: the event and the view of one publication are one step here, while the source takes the delivery lock once for each, so a frame queued by the worker may come between them there.
- `Native.DeliveryState.DeliverLive`: a frame whose encoding fails is not modelled; a frame stands for its text.
- `Ingress.RunIsSafe`: says nothing about deadlock; a callback that re-enters through a permit its own thread holds waits for ever in the source and has no next step in the model.
- `Ingress.ActivePermitsBelongToLiveAdapters`: counts the moment between a failed start callback and the revocation of its permit as inside `start`.
- `Tunnel.Pump`: reads the clock once per iteration, and does not promise that everything is delivered, because the source leaves buffered bytes behind when either side closes (`agentpulse-relay/src/tunnel.rs:37` and `50`).
- `Wire.RequestIsExact`: identifier, timestamp and JSON text codecs are taken as given inverses; commands, messages, sessions and whole events are plain field copies and would only add easy members.
- Pairing, the credential store, the relay supervisor, endpoint name validation, error texts, plain accessors and Provider internals are not part of this model.
