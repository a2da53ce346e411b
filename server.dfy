/** The signaling backend as written in backend/src/index.ts: three
    module-level variables updated in place by the socket handlers. Each
    method is proved to perform exactly the transition SessionMachine gives
    for it; the effect log stands for the engine calls and socket emits. */
module SignalingServer {

  import opened Base
  import opened Signaling
  import M = SessionMachine

  class Server {
    var kurentoClient: Option<Handle>
    var candidatesQueue: map<Id, seq<Candidate>>
    var sessions: map<Id, Session>
    var log: seq<Effect>

    /** The server's state as a value. */
    function Snapshot(): M.State
      reads this
    {
      M.State(kurentoClient, candidatesQueue, sessions, log)
    }

    constructor ()
      ensures Snapshot() == M.Initial()
    {
      kurentoClient := None;
      candidatesQueue := map[];
      sessions := map[];
      log := [];
    }

    /** getKurentoClient (index.ts:78-95). */
    method GetKurentoClient(connect: Connection) returns (client: Result<Handle>)
      modifies this
      ensures (Snapshot(), client) == M.AcquireClient(old(Snapshot()), connect)
    {
      if kurentoClient.Some? {
        return Success(kurentoClient.value);
      }
      log := log + [Connect];
      match connect {
        case Reachable(c) =>
          kurentoClient := Some(c);
          client := Success(c);
        case Unreachable =>
          client := Failure(M.EngineUnreachable);
      }
    }

    /** The drain loop of start (index.ts:111-118): shift one candidate at a
        time off the id's queue and hand it to the endpoint. */
    method DrainQueue(id: Id, endpoint: Handle)
      modifies this
      ensures Snapshot() == M.Drain(old(Snapshot()), id, endpoint)
    {
      if id in candidatesQueue {
        ghost var queued := candidatesQueue[id];
        ghost var delivered: seq<Candidate> := [];
        while candidatesQueue[id] != []
          invariant id in candidatesQueue
          invariant candidatesQueue == old(candidatesQueue)[id := candidatesQueue[id]]
          invariant queued == delivered + candidatesQueue[id]
          invariant log == old(log) + Deliveries(endpoint, delivered)
          invariant kurentoClient == old(kurentoClient) && sessions == old(sessions)
          decreases |candidatesQueue[id]|
        {
          // candidatesQueue[id].shift(); a queued value is never undefined
          var candidate := candidatesQueue[id][0];
          var rest := candidatesQueue[id][1..];
          assert queued == (delivered + [candidate]) + rest;
          candidatesQueue := candidatesQueue[id := rest];
          DeliveriesConcat(endpoint, delivered, [candidate]);
          log := log + [AddCandidate(endpoint, candidate)];
          delivered := delivered + [candidate];
        }
        assert delivered == queued;
      }
    }

    /** start (index.ts:97-156): returns the invocations of its callback. */
    method Start(id: Id, sdpOffer: string, o: Outcomes) returns (replies: seq<Reply>)
      modifies this
      ensures (Snapshot(), replies) == M.Start(old(Snapshot()), id, sdpOffer, o)
    {
      var client := GetKurentoClient(o.connect);
      if client.Failure? {
        return [ErrorReply(client.error)];
      }
      match o.pipeline {
        case CreateFailed(reason) =>
          replies := [ErrorReply(reason)];
        case Created(pipeline) =>
          match o.endpoint {
            case CreateFailed(reason) =>
              log := log + [Release(pipeline)];
              replies := [ErrorReply(reason)];
            case Created(endpoint) =>
              DrainQueue(id, endpoint);
              ghost var s3 := Snapshot().(log := log + [ProcessOffer(endpoint, sdpOffer)]);
              log := log + [ProcessOffer(endpoint, sdpOffer)];
              match o.offer {
                case OfferError(description) =>
                  log := log + [Release(pipeline)];
                  replies := [ErrorReply(description)];
                case Answered(sdpAnswer) =>
                  sessions := sessions[id := Session(pipeline, endpoint)];
                  replies := [AnswerReply(sdpAnswer)];
              }
              assert Snapshot() == M.OfferSettled(s3, id, Session(pipeline, endpoint), o.offer);
              if o.gather.GatherError? {
                replies := replies + [ErrorReply(o.gather.description)];
              }
              assert replies == [M.OfferReply(o.offer)] + M.GatherReplies(o.gather);
          }
      }
    }

    /** stop (index.ts:158-171). */
    method Stop(id: Id)
      modifies this
      ensures Snapshot() == M.Stop(old(Snapshot()), id)
    {
      if id in sessions {
        var pipeline := sessions[id].pipeline;
        log := log + [Release(pipeline)];
        var endpoint := sessions[id].endpoint;
        log := log + [Release(endpoint)];
        sessions := sessions - {id};
        candidatesQueue := candidatesQueue - {id};
      }
    }

    /** onIceCandidate (index.ts:173-186). */
    method OnIceCandidate(id: Id, parsed: Option<Candidate>)
      modifies this
      ensures Snapshot() == M.OnIceCandidate(old(Snapshot()), id, parsed)
    {
      if parsed.None? {
        return;
      }
      var candidate := parsed.value;
      if id in sessions {
        log := log + [AddCandidate(sessions[id].endpoint, candidate)];
      } else {
        if id !in candidatesQueue {
          candidatesQueue := candidatesQueue[id := []];
        }
        candidatesQueue := candidatesQueue[id := candidatesQueue[id] + [candidate]];
      }
    }

    /** The socket's `data` and `disconnect` handlers (index.ts:36-70). */
    method OnSocketEvent(id: Id, e: SocketEvent, o: Outcomes)
      modifies this
      ensures Snapshot() == M.OnSocketEvent(old(Snapshot()), id, e, o)
    {
      match e {
        case Disconnect =>
          // only logs "socket connection closed"; stop is not called
        case Data(m) =>
          if m.event == "offer" {
            var replies := Start(id, m.sdpOffer, o);
            log := log + Emits(id, replies);
          } else if m.event == "stop" {
            Stop(id);
          } else if m.event == "icecandidate" {
            OnIceCandidate(id, o.parsed);
          } else {
            log := log + [Emit(id, ErrorEvent(M.InvalidMessage))];
          }
      }
    }
  }
}
