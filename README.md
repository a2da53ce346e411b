# Signaling session manager (backend of im_world), modelled in Dafny

The backend of im_world relays WebRTC negotiation between a browser and a
Kurento media server. Each socket connection sends `data` messages whose
`event` is `offer`, `stop` or `icecandidate`; the server keeps three
module-level variables — the memoised Kurento client, `candidatesQueue`
(candidates that arrive before the connection has a session) and `sessions`
(the pipeline and WebRTC endpoint of each negotiated connection) — and calls
into the engine.

This project models that state machine (`backend/src/index.ts`):

- `Signaling` (signaling.dfy): ids, opaque engine handles, candidates, wire
  events, the settled outcomes of engine calls, and the effect log. The log
  records the connection attempt (`Connect`), `addIceCandidate`
  (`AddCandidate(endpoint, c)`), `processOffer` (`ProcessOffer(endpoint,
  sdp)`), `release` (`Release(handle)`) and every event sent to a socket
  (`Emit(socket, event)`). The other engine calls leave no entry (see
  "Left out").
- `SessionMachine` (machine.dfy): each handler as a pure transition over a
  `State` record (client, queues, sessions, log). An asynchronous engine
  result is an input (`Outcomes`): whether the engine was reachable, whether
  the pipeline and endpoint were created, what `processOffer` and
  `gatherCandidates` answered, and whether the wire candidate converted.
  `Start` returns the invocations of `start`'s callback; the dispatcher turns
  each into at most one emitted event, with JavaScript truthiness (an empty
  error or answer sends nothing).
- `SignalingServer` (server.dfy): class `Server` with the three variables as
  fields, updated in place as the source does (including the `shift` loop
  that drains a queue). Each method is proved to perform exactly the
  `SessionMachine` transition.
- `SessionProperties` (properties.dfy): lemmas that relate several steps.
  They cover candidate order across the queued/live boundary, which handles
  are released, stop's idempotence, the offer-then-stop lifecycle, isolation
  between connections, an invariant over any run, and memoisation of the
  engine client.

The model follows the code as written, including these behaviours of the
code:

- The socket `disconnect` handler only logs (index.ts:36-38). It does not
  stop the session, so a disconnected client's pipeline, endpoint and queue
  stay allocated (`SessionMachine.OnSocketEvent`).
- `stop` releases the pipeline before the endpoint (index.ts:160-166),
  although the endpoint lives inside the pipeline.
- A second offer on a connection that has a session overwrites the entry
  without releasing the old pair (index.ts:134; lemma
  `RepeatedOfferLeaksOldSession`).
- A failing `gatherCandidates` releases nothing and invokes the callback a
  second time. After a successful offer the client then gets both an answer
  and an error while the session stays registered (index.ts:138-142; lemma
  `GatherFailureAfterAnswer`).
- Draining leaves an empty queue entry in the table instead of deleting it
  (index.ts:111-118).
- A candidate the engine library cannot convert throws before any table is
  touched, and nothing is sent back to the client (index.ts:174).
- `start` drains the queue when the endpoint is created (index.ts:111-118)
  but registers the session only when `processOffer` answers (index.ts:134).
  A candidate arriving between the two finds no session and is queued. After
  the answer nothing drains that queue again, and later candidates go
  straight to the endpoint ahead of it (lemma `StrandedCandidateWindow`).
  The browser trickles candidates right after sending its offer, so this
  window is the normal case, not a corner case.
- `getKurentoClient` memoises only a successful connection and is not
  single-flight. Two calls before the first connection settles would each
  connect. The sequential model cannot show this overlap.

## Model

| member | source | states |
|---|---|---|
| Signaling.Deliveries | backend/src/index.ts:111-118 | handing a queue to an endpoint makes one `addIceCandidate` per candidate, the i-th call carrying the i-th candidate |
| Signaling.ReplyEvent | backend/src/index.ts:42-54 | a callback invocation sends an `error` event iff its error is non-empty, an `answer` event iff it is an answer and the answer is non-empty, otherwise nothing |
| Signaling.Emits | backend/src/index.ts:42-54 | the events for a list of callback invocations all go to the originating socket, at most one per invocation; when every invocation is truthy the k-th event is exactly the one `ReplyEvent` gives for the k-th invocation; when none is, nothing is sent |
| Signaling.EmitsConcat | backend/src/index.ts:42-54 | the events of consecutive callback invocations are those of each invocation in turn, so events are sent in invocation order |
| SessionMachine.AcquireClient | backend/src/index.ts:78-95 | a memoised client is returned with nothing changed; otherwise exactly one connection attempt is made; success memoises and returns the client; failure leaves the client unset and reports "Could not find media server at address" |
| SessionMachine.Drain | backend/src/index.ts:111-118 | all queued candidates of the id are delivered to the endpoint in receipt order; the id's queue is then empty but its entry is kept if it existed; no other queue, session or the client changes |
| SessionMachine.Start | backend/src/index.ts:97-156 | a session is registered only when `processOffer` answers; unreachable engine: one attempt, error "Could not find media server at address", nothing else; pipeline failure releases nothing; endpoint failure releases the pipeline; once the endpoint exists the queue is drained FIFO before the offer is processed, an offer error releases the pipeline and reports the engine's description; a gather error adds a second callback invocation; other ids are untouched |
| SessionMachine.Stop | backend/src/index.ts:158-171 | with a session: releases pipeline then endpoint and deletes both the session and the queue entry of that id only; without one: changes nothing, an existing queue included |
| SessionMachine.OnIceCandidate | backend/src/index.ts:173-186 | with a session the candidate goes to that session's endpoint and the queue table is unchanged; without one it is appended to the id's queue, created empty if absent; a candidate that fails conversion changes nothing; other ids' queues and all sessions are unchanged |
| SessionMachine.OnData | backend/src/index.ts:39-68 | routes `offer`, `stop`, `icecandidate` to their handlers and emits start's callback results; any other kind emits exactly one `error` "Invalid Message" and leaves sessions and queues unchanged; no kind touches another id's entries; the log only grows |
| SessionMachine.OnSocketEvent | backend/src/index.ts:36-70 | a `disconnect` changes nothing at all (the session is not stopped); a `data` message is handled by the dispatcher |
| SignalingServer.Server.constructor | backend/src/index.ts:23-28 | the server starts with no client, empty queue and session tables, and no effects |
| SignalingServer.Server.GetKurentoClient | backend/src/index.ts:78-95 | updates the memoised client in place and returns exactly what `AcquireClient` gives |
| SignalingServer.Server.DrainQueue | backend/src/index.ts:111-118 | the `shift` loop performs exactly `Drain`: FIFO delivery, emptied entry left in the table |
| SignalingServer.Server.Start | backend/src/index.ts:97-156 | the callback chain updates the tables in place and returns exactly the state and callback invocations of `SessionMachine.Start` |
| SignalingServer.Server.Stop | backend/src/index.ts:158-171 | performs exactly `SessionMachine.Stop` in place |
| SignalingServer.Server.OnIceCandidate | backend/src/index.ts:173-186 | performs exactly `SessionMachine.OnIceCandidate` in place |
| SignalingServer.Server.OnSocketEvent | backend/src/index.ts:36-70 | performs exactly `SessionMachine.OnSocketEvent` in place |
| SessionProperties.EarlyCandidatesQueued | backend/src/index.ts:180-185 | any run of candidates before a session exists ends up, in receipt order, at the end of the id's queue; nothing reaches the engine and no other queue changes |
| SessionProperties.LiveCandidatesForwarded | backend/src/index.ts:176-179 | any run of candidates while a session exists reaches its endpoint in receipt order, and the queue table is unchanged |
| SessionProperties.CandidatesDeliveredInReceiptOrder | backend/src/index.ts:111-136 | candidates received before the offer reach the new endpoint in receipt order before the offer is processed; after an answered offer later candidates follow in receipt order; the queue ends empty |
| SessionProperties.OfferWithEngineDown | backend/src/index.ts:41-54 | an `offer` while the engine is unreachable makes one connection attempt and sends exactly one `error` event "Could not find media server at address"; sessions, queues and the client are unchanged |
| SessionProperties.StartReleases | backend/src/index.ts:128-153 | start releases the pipeline exactly when it was created but no session resulted (endpoint or offer failure), and releases nothing else |
| SessionProperties.NegotiationReleases | backend/src/index.ts:111-136 | once the endpoint exists, draining the queue and processing the offer release nothing; an offer error releases the pipeline |
| SessionProperties.StopReleases | backend/src/index.ts:158-170 | stop releases the session's pipeline and then its endpoint, and nothing when there is no session |
| SessionProperties.StopIdempotent | backend/src/index.ts:158-171 | stopping twice has the effect of stopping once |
| SessionProperties.OfferThenStop | backend/src/index.ts:128-185 | a successful offer then stop on a fresh connection releases pipeline and endpoint once each, restores the session table, removes the queue, and a later candidate starts a fresh queue |
| SessionProperties.RepeatedOfferLeaksOldSession | backend/src/index.ts:134 | a second successful offer replaces the session entry and releases nothing, so the old pair is dropped unreleased |
| SessionProperties.GatherFailureAfterAnswer | backend/src/index.ts:128-142 | a gather failure after an answered offer sends the answer and then an error, while the session stays registered |
| SessionProperties.EventKeepsNoStranded | backend/src/index.ts:111-185 | when each event, `start` included, settles before the next, no event leaves a candidate waiting in the queue of a connection that has a session |
| SessionProperties.RunKeepsNoStranded | backend/src/index.ts:39-68 | the same holds after any sequence of fully settled events |
| SessionProperties.StrandedCandidateWindow | backend/src/index.ts:111-134 | a candidate arriving between the drain and the answer of `start` is queued, stays queued once the session exists, and is overtaken by the next candidate, which goes straight to the endpoint |
| SessionProperties.EventIsolation | backend/src/index.ts:39-68 | an event for one connection leaves every other connection's session and queue as they were |
| SessionProperties.RunIsolation | backend/src/index.ts:39-68 | events for other connections never change a connection's session or queue |
| SessionProperties.ClientMemoised | backend/src/index.ts:81-87 | once a client is memoised, later calls return it without a connection attempt, whatever the engine would answer |
| SessionProperties.FailedConnectRetried | backend/src/index.ts:84-93 | a failed attempt memoises nothing, so the next call attempts again |
| SessionProperties.StartNoReconnect | backend/src/index.ts:103-107 | with a memoised client, start makes no connection attempt and keeps the client |
| SessionProperties.OfferNoReconnect | backend/src/index.ts:41-54 | with a memoised client, an `offer` message and the events it emits make no connection attempt |
| SessionProperties.EventNoReconnect | backend/src/index.ts:39-68 | with a memoised client, no event makes a connection attempt or changes the client |
| SessionProperties.RunNoReconnect | backend/src/index.ts:78-95 | after any sequence of events a memoised client is kept and no new connection has been attempted |

## Left out

- HTTP server, CORS, socket.io construction, `server.listen`, the `/` route and dotenv loading (index.ts:9-25, 73-76): process bootstrap and I/O.
- Console logging (index.ts:33, 37, 63, 90-91, 161, 165): no effect on state.
- The Kurento engine itself (`kurento(url)`, `create`, `processOffer`, `gatherCandidates`, `addIceCandidate`, `release`): foreign calls, modelled as opaque handles, outcome inputs and logged effects. A `release` is assumed to succeed.
- `create("MediaPipeline")` (index.ts:107), `create("WebRtcEndpoint")` (index.ts:109), `gatherCandidates` (index.ts:138) and the `on("OnIceCandidate")` registration (index.ts:121) leave no entry in the effect log. Only their outcomes enter the model, as inputs.
- `webRTCEndpoint.connect` (index.ts:120): not logged; the model assumes its callback runs. The source ignores its error argument anyway.
- The outbound `OnIceCandidate` listener (index.ts:121-127): it is driven by the engine, so outbound `icecandidate` events are not modelled.
- Candidate conversion with `getComplexType` (index.ts:122, 174): its result is an input; a throw is modelled as "nothing changes". What an uncaught throw does to the process is not modelled.
- The `candidate !== undefined` test (index.ts:114): queued values are always candidates here, so the test always passes.
- Failure reasons of `kurento(...)`, `create` and engine errors are strings; a non-string reason object is not modelled.
- Interleaving of callbacks across and within connections: `Run` settles each inbound event completely before the next. An event arriving while an offer is still negotiating is therefore outside `Run`; `StrandedCandidateWindow` shows its main consequence, a candidate stranded in the queue. The overlap of concurrent connection attempts is not modelled.
- SessionMachine.Start: fixes the order of the `processOffer` and `gatherCandidates` callbacks (offer first), because both are asynchronous and either may settle first.
- frontend/src/components/VideoStream.tsx, frontend/src/components/SideBar.tsx, frontend/src/App.tsx: browser UI and media capture, not part of this model.
