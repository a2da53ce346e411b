/** Properties of the signaling backend that relate several handler calls:
    candidate order across the queued/live boundary, which resources are
    released, idempotence of stop, memoisation of the engine client, and what
    a run of events does to connections it does not address. */
module SessionProperties {

  import opened Base
  import opened Signaling
  import opened SessionMachine

  /** Candidates `cs` arriving one after another on connection `id`, each
      converted successfully. */
  function ReceiveAll(s: State, id: Id, cs: seq<Candidate>): State
    decreases |cs|
  {
    if cs == [] then s else ReceiveAll(OnIceCandidate(s, id, Some(cs[0])), id, cs[1..])
  }

  /** Before a session exists, candidates pile up at the end of the id's queue
      in receipt order, and nothing is sent to the engine. */
  lemma {:induction false} EarlyCandidatesQueued(s: State, id: Id, cs: seq<Candidate>)
    requires id !in s.sessions
    ensures var t := ReceiveAll(s, id, cs);
      && t.client == s.client && t.sessions == s.sessions && t.log == s.log
      && t.queues - {id} == s.queues - {id}
      && QueueOf(t.queues, id) == QueueOf(s.queues, id) + cs
      && (id in t.queues <==> id in s.queues || cs != [])
    decreases |cs|
  {
    if cs == [] {
      assert QueueOf(s.queues, id) + cs == QueueOf(s.queues, id);
    } else {
      var s1 := OnIceCandidate(s, id, Some(cs[0]));
      EarlyCandidatesQueued(s1, id, cs[1..]);
      assert QueueOf(s1.queues, id) == QueueOf(s.queues, id) + [cs[0]];
      assert QueueOf(s.queues, id) + [cs[0]] + cs[1..] == QueueOf(s.queues, id) + cs;
    }
  }

  /** Once a session exists, candidates go straight to its endpoint in receipt
      order and the queue table is left alone. */
  lemma {:induction false} LiveCandidatesForwarded(s: State, id: Id, cs: seq<Candidate>)
    requires id in s.sessions
    ensures var t := ReceiveAll(s, id, cs);
      && t.client == s.client && t.sessions == s.sessions && t.queues == s.queues
      && t.log == s.log + Deliveries(s.sessions[id].endpoint, cs)
    decreases |cs|
  {
    if cs != [] {
      var endpoint := s.sessions[id].endpoint;
      var s1 := OnIceCandidate(s, id, Some(cs[0]));
      assert s1.sessions == s.sessions && s1.log == s.log + [AddCandidate(endpoint, cs[0])];
      LiveCandidatesForwarded(s1, id, cs[1..]);
      assert Deliveries(endpoint, cs) == [AddCandidate(endpoint, cs[0])] + Deliveries(endpoint, cs[1..]);
    }
  }

  /** Candidates received before the offer reach the new endpoint in receipt
      order, before the offer is processed; once the offer is answered, later
      candidates follow them in receipt order too. */
  lemma CandidatesDeliveredInReceiptOrder(
    s: State, id: Id, early: seq<Candidate>, sdpOffer: string, o: Outcomes, live: seq<Candidate>)
    requires id !in s.sessions
    requires EndpointReady(s, o)
    ensures var started := Start(ReceiveAll(s, id, early), id, sdpOffer, o).0;
      && QueueOf(started.queues, id) == []
      && started.log == s.log + Attempt(s)
                        + Deliveries(o.endpoint.handle, QueueOf(s.queues, id) + early)
                        + [ProcessOffer(o.endpoint.handle, sdpOffer)]
                        + (if o.offer.OfferError? then [Release(o.pipeline.handle)] else [])
      && (o.offer.Answered? ==>
            ReceiveAll(started, id, live).log == started.log + Deliveries(o.endpoint.handle, live))
  {
    EarlyCandidatesQueued(s, id, early);
    var started := Start(ReceiveAll(s, id, early), id, sdpOffer, o).0;
    if o.offer.Answered? {
      LiveCandidatesForwarded(started, id, live);
    }
  }

  /** Which handles one `start` releases: the pipeline exactly when it was
      created but no session came of it (endpoint creation or processOffer
      failed); nothing otherwise. The endpoint is never released by start. */
  lemma StartReleases(s: State, id: Id, sdpOffer: string, o: Outcomes)
    ensures Released(Start(s, id, sdpOffer, o).0.log) == Released(s.log) +
      if Reached(s, o) && o.pipeline.Created? && !(o.endpoint.Created? && o.offer.Answered?)
      then [o.pipeline.handle] else []
  {
    var t := Start(s, id, sdpOffer, o).0;
    var attempted := s.log + Attempt(s);
    AttemptReleasesNothing(s);
    if !Reached(s, o) || o.pipeline.CreateFailed? {
      assert t.log == attempted;
    } else if o.endpoint.CreateFailed? {
      var pipelineOnly := [Release(o.pipeline.handle)];
      assert Released(pipelineOnly) == [o.pipeline.handle] + Released([]);
      assert t.log == attempted + pipelineOnly;
      ReleasedConcat(attempted, pipelineOnly);
    } else {
      NegotiationReleases(s, id, sdpOffer, o);
    }
  }

  /** A connection attempt releases nothing. */
  lemma AttemptReleasesNothing(s: State)
    ensures Released(s.log + Attempt(s)) == Released(s.log)
  {
    ReleasedConcat(s.log, Attempt(s));
    if s.client.None? {
      assert Released([Connect]) == [] + Released([]);
    }
  }

  /** The part of StartReleases after the endpoint exists: delivering queued
      candidates and processing the offer release nothing, an offer error
      releases the pipeline. */
  lemma NegotiationReleases(s: State, id: Id, sdpOffer: string, o: Outcomes)
    requires EndpointReady(s, o)
    ensures Released(Start(s, id, sdpOffer, o).0.log) == Released(s.log) +
      if o.offer.OfferError? then [o.pipeline.handle] else []
  {
    AttemptReleasesNothing(s);
    var endpoint := o.endpoint.handle;
    var deliveries := Deliveries(endpoint, QueueOf(s.queues, id));
    var processing := [ProcessOffer(endpoint, sdpOffer)];
    var delivered := s.log + Attempt(s) + deliveries;
    var processed := delivered + processing;
    var tail: seq<Effect> := if o.offer.OfferError? then [Release(o.pipeline.handle)] else [];
    assert Start(s, id, sdpOffer, o).0.log == processed + tail;
    DeliveriesReleaseNothing(endpoint, QueueOf(s.queues, id));
    ReleasedConcat(s.log + Attempt(s), deliveries);
    ReleasedConcat(delivered, processing);
    assert Released(processing) == [] + Released([]);
    ReleasedConcat(processed, tail);
    assert Released(tail) == if o.offer.OfferError? then [o.pipeline.handle] else [];
  }

  /** stop releases the session's pipeline and then its endpoint, and nothing
      when there is no session. */
  lemma StopReleases(s: State, id: Id)
    ensures Released(Stop(s, id).log) == Released(s.log) +
      if id in s.sessions then [s.sessions[id].pipeline, s.sessions[id].endpoint] else []
  {
    if id in s.sessions {
      var pair := [Release(s.sessions[id].pipeline), Release(s.sessions[id].endpoint)];
      assert Stop(s, id).log == s.log + pair;
      ReleasedConcat(s.log, pair);
      assert Released(pair) == [pair[0].handle] + Released(pair[1..]);
      assert Released(pair[1..]) == [pair[1].handle] + Released(pair[1..][1..]);
    }
  }

  /** Calling stop twice has the effect of calling it once. */
  lemma StopIdempotent(s: State, id: Id)
    ensures Stop(Stop(s, id), id) == Stop(s, id)
  {
  }

  /** A whole lifecycle on a fresh connection: a successful offer, then stop.
      Pipeline and endpoint are released once each, in that order; both tables
      are back to what they were except that the connection's queue is gone,
      and a later candidate is buffered in a fresh queue. */
  lemma OfferThenStop(s: State, id: Id, sdpOffer: string, o: Outcomes, c: Candidate)
    requires id !in s.sessions
    requires Negotiated(s, o)
    ensures var t := Stop(Start(s, id, sdpOffer, o).0, id);
      && t.sessions == s.sessions
      && t.queues == s.queues - {id}
      && Released(t.log) == Released(s.log) + [o.pipeline.handle, o.endpoint.handle]
      && OnIceCandidate(t, id, Some(c)).queues[id] == [c]
  {
    var started := Start(s, id, sdpOffer, o).0;
    var session := Session(o.pipeline.handle, o.endpoint.handle);
    assert started.sessions == s.sessions[id := session];
    StartReleases(s, id, sdpOffer, o);
    assert Released(started.log) == Released(s.log);
    StopReleases(started, id);
    var t := Stop(started, id);
    assert t.sessions == s.sessions[id := session] - {id};
    assert t.queues == started.queues - {id};
    assert started.queues - {id} == s.queues - {id};
    assert QueueOf(t.queues, id) == [];
  }

  /** As written, an offer for a connection that already has a session
      replaces the entry and releases nothing, so the earlier pipeline and
      endpoint are no longer reachable from the table and never released. */
  lemma RepeatedOfferLeaksOldSession(s: State, id: Id, sdpOffer: string, o: Outcomes)
    requires id in s.sessions
    requires Negotiated(s, o)
    requires o.pipeline.handle != s.sessions[id].pipeline
    ensures var t := Start(s, id, sdpOffer, o).0;
      && t.sessions[id] == Session(o.pipeline.handle, o.endpoint.handle)
      && t.sessions[id] != s.sessions[id]
      && Released(t.log) == Released(s.log)
  {
    StartReleases(s, id, sdpOffer, o);
  }

  /** As written, a failing gatherCandidates after an answered offer sends the
      client both the answer and an error, while the session stays registered. */
  lemma GatherFailureAfterAnswer(s: State, id: Id, m: Message, o: Outcomes)
    requires m.event == "offer"
    requires Negotiated(s, o) && o.offer.sdpAnswer != ""
    requires o.gather.GatherError? && o.gather.description != ""
    ensures var t := OnData(s, id, m, o);
      && id in t.sessions
      && |t.log| >= 2
      && t.log[|t.log| - 2..] == [Emit(id, AnswerEvent(o.offer.sdpAnswer)), Emit(id, ErrorEvent(o.gather.description))]
  {
    var (started, replies) := Start(s, id, m.sdpOffer, o);
    var emitted := Emits(id, replies);
    assert replies == [AnswerReply(o.offer.sdpAnswer), ErrorReply(o.gather.description)];
    assert emitted == [Emit(id, AnswerEvent(o.offer.sdpAnswer))] + Emits(id, replies[1..]);
    assert replies[1..][1..] == [];
  }

  /** An `offer` while the engine cannot be reached: one connection attempt,
      then a single `error` event carrying "Could not find media server at
      address"; no session is registered and no queue changes. */
  lemma OfferWithEngineDown(s: State, id: Id, m: Message, o: Outcomes)
    requires m.event == "offer"
    requires s.client.None? && o.connect.Unreachable?
    ensures var t := OnData(s, id, m, o);
      && t.log == s.log + [Connect, Emit(id, ErrorEvent(EngineUnreachable))]
      && t.sessions == s.sessions && t.queues == s.queues && t.client == None
  {
    var (started, replies) := Start(s, id, m.sdpOffer, o);
    assert replies == [ErrorReply(EngineUnreachable)];
    assert Emits(id, replies) == [Emit(id, ErrorEvent(EngineUnreachable))];
    assert started.queues == s.queues;
  }

  /** No candidate waits in the queue of a connection that has a session.
      This holds when every `start` settles before the next event of its
      connection (as `Run` assumes); see StrandedCandidateWindow for what the
      code does when it does not. */
  ghost predicate NoStrandedCandidates(s: State)
  {
    forall id :: id in s.sessions ==> QueueOf(s.queues, id) == []
  }

  lemma EventKeepsNoStranded(s: State, id: Id, e: SocketEvent, o: Outcomes)
    requires NoStrandedCandidates(s)
    ensures NoStrandedCandidates(OnSocketEvent(s, id, e, o))
  {
    var t := OnSocketEvent(s, id, e, o);
    forall other | other in t.sessions ensures QueueOf(t.queues, other) == [] {
      if other != id {
        EventIsolation(s, id, e, o, other);
      }
    }
  }

  /** As written, `start` drains the queue (index.ts:111-118) and registers
      the session only when processOffer answers (index.ts:134). A candidate
      arriving in between finds no session and is queued; after the answer it
      stays in the queue for good, and later candidates go straight to the
      endpoint, overtaking it. This is the same sequence of steps `Start` takes,
      with an `icecandidate` event placed between the drain and the answer. */
  lemma StrandedCandidateWindow(
    s: State, id: Id, pipeline: Handle, endpoint: Handle, sdpOffer: string, answer: string,
    early: Candidate, later: Candidate)
    requires id !in s.sessions
    ensures var drained := Drain(s, id, endpoint);
      var processing := drained.(log := drained.log + [ProcessOffer(endpoint, sdpOffer)]);
      var interleaved := OnIceCandidate(processing, id, Some(early));
      var t := OfferSettled(interleaved, id, Session(pipeline, endpoint), Answered(answer));
      && id in t.sessions
      && QueueOf(t.queues, id) == [early]
      && !NoStrandedCandidates(t)
      && OnIceCandidate(t, id, Some(later)).log == t.log + [AddCandidate(endpoint, later)]
      && QueueOf(OnIceCandidate(t, id, Some(later)).queues, id) == [early]
  {
    var drained := Drain(s, id, endpoint);
    var processing := drained.(log := drained.log + [ProcessOffer(endpoint, sdpOffer)]);
    var interleaved := OnIceCandidate(processing, id, Some(early));
    assert QueueOf(interleaved.queues, id) == [] + [early];
  }

  lemma {:induction false} RunKeepsNoStranded(s: State, steps: seq<Step>)
    requires NoStrandedCandidates(s)
    ensures NoStrandedCandidates(Run(s, steps))
    decreases |steps|
  {
    if steps != [] {
      EventKeepsNoStranded(s, steps[0].id, steps[0].event, steps[0].outcomes);
      RunKeepsNoStranded(OnSocketEvent(s, steps[0].id, steps[0].event, steps[0].outcomes), steps[1..]);
    }
  }

  /** An event for `id` leaves the session and queue of every other connection as they were. */
  lemma EventIsolation(s: State, id: Id, e: SocketEvent, o: Outcomes, other: Id)
    requires other != id
    ensures var t := OnSocketEvent(s, id, e, o);
      && (other in t.sessions <==> other in s.sessions)
      && (other in s.sessions ==> t.sessions[other] == s.sessions[other])
      && (other in t.queues <==> other in s.queues)
      && QueueOf(t.queues, other) == QueueOf(s.queues, other)
  {
    var t := OnSocketEvent(s, id, e, o);
    assert t.sessions - {id} == s.sessions - {id} && t.queues - {id} == s.queues - {id};
    assert other in t.sessions <==> other in t.sessions - {id};
    assert other in s.sessions <==> other in s.sessions - {id};
    assert other in t.queues <==> other in t.queues - {id};
    assert other in s.queues <==> other in s.queues - {id};
    if other in s.sessions {
      assert t.sessions[other] == (t.sessions - {id})[other];
    }
    if other in s.queues {
      assert t.queues[other] == (t.queues - {id})[other];
    }
  }

  /** Events for other connections never touch a connection's session or queue. */
  lemma {:induction false} RunIsolation(s: State, steps: seq<Step>, id: Id)
    requires forall k :: 0 <= k < |steps| ==> steps[k].id != id
    ensures var t := Run(s, steps);
      && (id in t.sessions <==> id in s.sessions)
      && (id in s.sessions ==> t.sessions[id] == s.sessions[id])
      && (id in t.queues <==> id in s.queues)
      && QueueOf(t.queues, id) == QueueOf(s.queues, id)
    decreases |steps|
  {
    if steps != [] {
      var s1 := OnSocketEvent(s, steps[0].id, steps[0].event, steps[0].outcomes);
      EventIsolation(s, steps[0].id, steps[0].event, steps[0].outcomes, id);
      RunIsolation(s1, steps[1..], id);
    }
  }

  /** Once the engine client is memoised, getKurentoClient returns it whatever
      a new connection attempt would have done, and changes nothing. */
  lemma ClientMemoised(s: State, first: Connection, later: Connection)
    requires AcquireClient(s, first).1.Success?
    ensures var (t, client) := AcquireClient(s, first);
      AcquireClient(t, later) == (t, client)
  {
  }

  /** A failed connection attempt memoises nothing: the next call tries again. */
  lemma FailedConnectRetried(s: State, first: Connection, later: Connection)
    requires AcquireClient(s, first).1.Failure?
    ensures var t := AcquireClient(s, first).0;
      AcquireClient(t, later).0.log == t.log + [Connect]
  {
  }

  /** With a memoised client, start keeps it and makes no connection attempt. */
  lemma StartNoReconnect(s: State, id: Id, sdpOffer: string, o: Outcomes)
    requires s.client.Some?
    ensures var t := Start(s, id, sdpOffer, o).0;
      t.client == s.client && Attempts(t.log) == Attempts(s.log)
  {
    var t := Start(s, id, sdpOffer, o).0;
    assert s.log + Attempt(s) == s.log;
    if EndpointReady(s, o) {
      var endpoint := o.endpoint.handle;
      var deliveries := Deliveries(endpoint, QueueOf(s.queues, id));
      var rest := [ProcessOffer(endpoint, sdpOffer)]
                  + (if o.offer.OfferError? then [Release(o.pipeline.handle)] else []);
      assert Connect !in deliveries by {
        forall k | 0 <= k < |deliveries| ensures deliveries[k] != Connect { }
      }
      assert Connect !in rest;
      assert t.log == s.log + deliveries + rest;
      AttemptsConcat(s.log, deliveries);
      AttemptsConcat(s.log + deliveries, rest);
    } else if Reached(s, o) && o.pipeline.Created? {
      AttemptsConcat(s.log, [Release(o.pipeline.handle)]);
    }
  }

  /** With a memoised client, an `offer` message (start plus the emitted
      callback results) makes no connection attempt and keeps the client. */
  lemma OfferNoReconnect(s: State, id: Id, m: Message, o: Outcomes)
    requires s.client.Some? && m.event == "offer"
    ensures var t := OnData(s, id, m, o);
      t.client == s.client && Attempts(t.log) == Attempts(s.log)
  {
    var (started, replies) := Start(s, id, m.sdpOffer, o);
    StartNoReconnect(s, id, m.sdpOffer, o);
    var emitted := Emits(id, replies);
    assert Connect !in emitted by {
      forall k | 0 <= k < |emitted| ensures emitted[k] != Connect { assert emitted[k].Emit?; }
    }
    AttemptsConcat(started.log, emitted);
  }

  /** One event with a memoised client keeps the client and makes no new
      connection attempt. */
  lemma EventNoReconnect(s: State, id: Id, e: SocketEvent, o: Outcomes)
    requires s.client.Some?
    ensures var t := OnSocketEvent(s, id, e, o);
      t.client == s.client && Attempts(t.log) == Attempts(s.log)
  {
    if e.Data? {
      var m := e.message;
      if m.event == "offer" {
        OfferNoReconnect(s, id, m, o);
      } else if m.event == "stop" {
        if id in s.sessions {
          AttemptsConcat(s.log, [Release(s.sessions[id].pipeline), Release(s.sessions[id].endpoint)]);
        }
      } else if m.event == "icecandidate" {
        if o.parsed.Some? && id in s.sessions {
          AttemptsConcat(s.log, [AddCandidate(s.sessions[id].endpoint, o.parsed.value)]);
        }
      } else {
        AttemptsConcat(s.log, [Emit(id, ErrorEvent(InvalidMessage))]);
      }
    }
  }

  /** Over any run, a memoised client is kept and no connection is attempted again. */
  lemma {:induction false} RunNoReconnect(s: State, steps: seq<Step>)
    requires s.client.Some?
    ensures var t := Run(s, steps);
      t.client == s.client && Attempts(t.log) == Attempts(s.log)
    decreases |steps|
  {
    if steps != [] {
      var s1 := OnSocketEvent(s, steps[0].id, steps[0].event, steps[0].outcomes);
      EventNoReconnect(s, steps[0].id, steps[0].event, steps[0].outcomes);
      RunNoReconnect(s1, steps[1..]);
    }
  }
}
