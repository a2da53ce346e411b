/** The signaling backend's handlers (backend/src/index.ts) as pure transitions
    over its module-level state: the memoised engine client, the table of early
    candidates, the table of sessions, plus the log of effects so far. The class
    in SignalingServer performs each transition in place and is proved equal to
    the function given here. */
module SessionMachine {

  import opened Base
  import opened Signaling

  /** The message `getKurentoClient` reports when the engine cannot be reached. */
  const EngineUnreachable := "Could not find media server at address"
  /** The message sent back for an unrecognised event kind. */
  const InvalidMessage := "Invalid Message"

  datatype State = State(
    client: Option<Handle>,                 // kurentoClient
    queues: map<Id, seq<Candidate>>,        // candidatesQueue
    sessions: map<Id, Session>,             // sessions
    log: seq<Effect>)

  function Initial(): State { State(None, map[], map[], []) }

  /** The queue of `id`; an absent entry reads as empty. */
  function QueueOf(queues: map<Id, seq<Candidate>>, id: Id): seq<Candidate>
  {
    if id in queues then queues[id] else []
  }

  /** A connection attempt is logged exactly when no client is memoised. */
  function Attempt(s: State): seq<Effect>
  {
    if s.client.None? then [Connect] else []
  }

  /** getKurentoClient (index.ts:78-95): reuse the memoised client, otherwise
      try to connect; only a successful attempt is memoised. */
  function AcquireClient(s: State, connect: Connection): (r: (State, Result<Handle>))
    ensures r.0.queues == s.queues && r.0.sessions == s.sessions
    ensures r.0.log == s.log + Attempt(s)
    ensures s.client.Some? ==> r.0 == s && r.1 == Success(s.client.value)
    ensures r.1.Success? ==> r.0.client == Some(r.1.value)
    ensures r.1.Failure? <==> s.client.None? && connect.Unreachable?
    ensures r.1.Failure? ==> r.0.client.None? && r.1.error == EngineUnreachable
    ensures s.client.None? && connect.Reachable? ==> r.1 == Success(connect.client)
  {
    if s.client.Some? then (s, Success(s.client.value))
    else
      var attempted := s.(log := s.log + [Connect]);
      match connect
      case Reachable(client) => (attempted.(client := Some(client)), Success(client))
      case Unreachable => (attempted, Failure(EngineUnreachable))
  }

  /** The drain loop of `start` (index.ts:111-118): every queued candidate of
      `id` goes to `endpoint` in receipt order. As written, the emptied entry
      stays in the table instead of being deleted. */
  function Drain(s: State, id: Id, endpoint: Handle): (t: State)
    ensures QueueOf(t.queues, id) == []
    ensures id in t.queues <==> id in s.queues
    ensures t.queues - {id} == s.queues - {id}
    ensures t.log == s.log + Deliveries(endpoint, QueueOf(s.queues, id))
    ensures t.client == s.client && t.sessions == s.sessions
  {
    if id in s.queues then
      s.(queues := s.queues[id := []], log := s.log + Deliveries(endpoint, s.queues[id]))
    else s
  }

  /** The engine was reachable for this call. */
  predicate Reached(s: State, o: Outcomes)
  {
    s.client.Some? || o.connect.Reachable?
  }

  /** Pipeline and endpoint were both created. */
  predicate EndpointReady(s: State, o: Outcomes)
  {
    Reached(s, o) && o.pipeline.Created? && o.endpoint.Created?
  }

  /** processOffer produced an answer: the only path that registers a session. */
  predicate Negotiated(s: State, o: Outcomes)
  {
    EndpointReady(s, o) && o.offer.Answered?
  }

  /** start (index.ts:97-156), with every callback settled by `o`. Returns the
      new state and the invocations of `start`'s callback in order. Quirks kept
      as written: a second offer for an id that has a session overwrites it
      without releasing the old pair (index.ts:134); a failing
      gatherCandidates releases nothing and invokes the callback a second time
      (index.ts:138-142). */
  function Start(s: State, id: Id, sdpOffer: string, o: Outcomes): (r: (State, seq<Reply>))
    ensures var t := r.0;
      && t.client == (if Reached(s, o) && s.client.None? then Some(o.connect.client) else s.client)
      && t.sessions == (if Negotiated(s, o) then s.sessions[id := Session(o.pipeline.handle, o.endpoint.handle)]
                        else s.sessions)
      && t.queues - {id} == s.queues - {id}
      && (id in t.queues <==> id in s.queues)
      && QueueOf(t.queues, id) == (if EndpointReady(s, o) then [] else QueueOf(s.queues, id))
    ensures !Reached(s, o) ==> r.0.log == s.log + [Connect] && r.1 == [ErrorReply(EngineUnreachable)]
    ensures Reached(s, o) && o.pipeline.CreateFailed? ==>
      r.0.log == s.log + Attempt(s) && r.1 == [ErrorReply(o.pipeline.reason)]
    ensures Reached(s, o) && o.pipeline.Created? && o.endpoint.CreateFailed? ==>
      r.0.log == s.log + Attempt(s) + [Release(o.pipeline.handle)] && r.1 == [ErrorReply(o.endpoint.reason)]
    ensures EndpointReady(s, o) ==>
      && r.0.log == s.log + Attempt(s)
                    + Deliveries(o.endpoint.handle, QueueOf(s.queues, id))
                    + [ProcessOffer(o.endpoint.handle, sdpOffer)]
                    + (if o.offer.OfferError? then [Release(o.pipeline.handle)] else [])
      && r.1 == [if o.offer.Answered? then AnswerReply(o.offer.sdpAnswer) else ErrorReply(o.offer.description)]
                + (if o.gather.GatherError? then [ErrorReply(o.gather.description)] else [])
  {
    var (s1, client) := AcquireClient(s, o.connect);
    if client.Failure? then (s1, [ErrorReply(client.error)])
    else match o.pipeline
      case CreateFailed(reason) => (s1, [ErrorReply(reason)])
      case Created(pipeline) =>
        match o.endpoint
        case CreateFailed(reason) => (s1.(log := s1.log + [Release(pipeline)]), [ErrorReply(reason)])
        case Created(endpoint) =>
          var s2 := Drain(s1, id, endpoint);
          var s3 := s2.(log := s2.log + [ProcessOffer(endpoint, sdpOffer)]);
          (OfferSettled(s3, id, Session(pipeline, endpoint), o.offer), [OfferReply(o.offer)] + GatherReplies(o.gather))
  }

  /** The processOffer callback (index.ts:128-136): register the session on an
      answer, release the pipeline on an error. */
  function OfferSettled(s: State, id: Id, session: Session, offer: OfferResult): State
  {
    match offer
    case OfferError(_) => s.(log := s.log + [Release(session.pipeline)])
    case Answered(_) => s.(sessions := s.sessions[id := session])
  }

  /** What the processOffer callback passes to start's callback. */
  function OfferReply(offer: OfferResult): Reply
  {
    match offer
    case OfferError(description) => ErrorReply(description)
    case Answered(sdpAnswer) => AnswerReply(sdpAnswer)
  }

  /** What the gatherCandidates callback passes to start's callback (index.ts:138-142). */
  function GatherReplies(gather: GatherResult): seq<Reply>
  {
    match gather
    case Gathered => []
    case GatherError(description) => [ErrorReply(description)]
  }

  /** stop (index.ts:158-171). As written it releases the pipeline BEFORE the
      endpoint, and does nothing at all (the queue survives) when `id` has no
      session. */
  function Stop(s: State, id: Id): (t: State)
    ensures t.client == s.client
    ensures id !in t.sessions && t.sessions == s.sessions - {id}
    ensures id in s.sessions ==>
      && id !in t.queues && t.queues == s.queues - {id}
      && t.log == s.log + [Release(s.sessions[id].pipeline), Release(s.sessions[id].endpoint)]
    ensures id !in s.sessions ==> t == s
  {
    if id in s.sessions then
      var session := s.sessions[id];
      s.(sessions := s.sessions - {id},
         queues := s.queues - {id},
         log := s.log + [Release(session.pipeline), Release(session.endpoint)])
    else s
  }

  /** onIceCandidate (index.ts:173-186): forward to the session's endpoint if
      there is one, else append to the id's queue, creating it if absent. A
      candidate the engine library cannot convert throws before any table is
      touched. */
  function OnIceCandidate(s: State, id: Id, parsed: Option<Candidate>): (t: State)
    ensures t.client == s.client && t.sessions == s.sessions
    ensures t.queues - {id} == s.queues - {id}
    ensures parsed.None? ==> t == s
    ensures parsed.Some? && id in s.sessions ==>
      t.queues == s.queues && t.log == s.log + [AddCandidate(s.sessions[id].endpoint, parsed.value)]
    ensures parsed.Some? && id !in s.sessions ==>
      id in t.queues && t.queues[id] == QueueOf(s.queues, id) + [parsed.value] && t.log == s.log
  {
    match parsed
    case None => s
    case Some(candidate) =>
      if id in s.sessions then
        s.(log := s.log + [AddCandidate(s.sessions[id].endpoint, candidate)])
      else
        s.(queues := s.queues[id := QueueOf(s.queues, id) + [candidate]])
  }

  /** The `data` handler's switch (index.ts:39-68). */
  function OnData(s: State, id: Id, m: Message, o: Outcomes): (t: State)
    ensures t.sessions - {id} == s.sessions - {id}
    ensures t.queues - {id} == s.queues - {id}
    ensures |s.log| <= |t.log| && t.log[..|s.log|] == s.log
    ensures m.event == "offer" ==>
      var (started, replies) := Start(s, id, m.sdpOffer, o); t == started.(log := started.log + Emits(id, replies))
    ensures m.event == "stop" ==> t == Stop(s, id)
    ensures m.event == "icecandidate" ==> t == OnIceCandidate(s, id, o.parsed)
    ensures m.event !in {"offer", "stop", "icecandidate"} ==>
      t == s.(log := s.log + [Emit(id, ErrorEvent(InvalidMessage))])
  {
    if m.event == "offer" then
      var (started, replies) := Start(s, id, m.sdpOffer, o);
      started.(log := started.log + Emits(id, replies))
    else if m.event == "stop" then Stop(s, id)
    else if m.event == "icecandidate" then OnIceCandidate(s, id, o.parsed)
    else s.(log := s.log + [Emit(id, ErrorEvent(InvalidMessage))])
  }

  /** Everything a socket can deliver. The `disconnect` handler (index.ts:36-38)
      only logs to the console: as written it does NOT stop the session, so the
      connection's pipeline, endpoint and queue outlive it. */
  function OnSocketEvent(s: State, id: Id, e: SocketEvent, o: Outcomes): (t: State)
    ensures e.Disconnect? ==> t == s
    ensures e.Data? ==> t == OnData(s, id, e.message, o)
  {
    match e
    case Data(m) => OnData(s, id, m, o)
    case Disconnect => s
  }

  /** One settled inbound event for connection `id`. */
  datatype Step = Step(id: Id, event: SocketEvent, outcomes: Outcomes)

  /** A sequential run of events, each settled before the next begins. */
  function Run(s: State, steps: seq<Step>): State
    decreases |steps|
  {
    if steps == [] then s
    else Run(OnSocketEvent(s, steps[0].id, steps[0].event, steps[0].outcomes), steps[1..])
  }
}
