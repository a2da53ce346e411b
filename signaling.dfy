/** Values exchanged between the signaling backend, its clients and the media
    engine: connection ids, opaque engine handles, candidates, wire events and
    the effect log that records every call into the engine and every event
    sent back to a client (backend/src/index.ts). */
module Signaling {

  import opened Base

  /** Connection identity: the socket id assigned by the transport. */
  type Id = string

  /** An opaque handle to an engine object (client, pipeline or endpoint). */
  datatype Handle = Handle(ref: nat)

  /** A connectivity (ICE) candidate, already converted by the engine library. */
  datatype Candidate = Candidate(descriptor: string)

  /** The resources a negotiated connection owns. */
  datatype Session = Session(pipeline: Handle, endpoint: Handle)

  /** Inbound `data` message: the `event` field selects the handler. The raw
      `candidate` is only handed to the engine library for conversion; the
      result of that conversion is `Outcomes.parsed`. */
  datatype Message = Message(event: string, sdpOffer: string, candidate: string)

  /** What a socket delivers to the server. */
  datatype SocketEvent = Data(message: Message) | Disconnect

  /** Outbound `data` events. */
  datatype OutEvent =
    | ErrorEvent(message: string)
    | AnswerEvent(answer: string)

  /** Observable effects, in the order they happen. */
  datatype Effect =
    | Connect                                        // kurento(url): one connection attempt
    | AddCandidate(endpoint: Handle, candidate: Candidate)
    | ProcessOffer(endpoint: Handle, sdpOffer: string)
    | Release(handle: Handle)
    | Emit(to: Id, event: OutEvent)

  // Settled results of the asynchronous engine calls a handler makes.
  datatype Connection = Reachable(client: Handle) | Unreachable
  datatype Creation = Created(handle: Handle) | CreateFailed(reason: string)
  datatype OfferResult = Answered(sdpAnswer: string) | OfferError(description: string)
  datatype GatherResult = Gathered | GatherError(description: string)

  /** Every engine outcome one inbound event may depend on. Only the fields the
      handler actually reaches are consulted: `connect` only when no client is
      memoised, `endpoint` only after the pipeline exists, and so on. `parsed` is
      the result of converting the wire candidate (None: the conversion throws). */
  datatype Outcomes = Outcomes(
    connect: Connection,
    pipeline: Creation,
    endpoint: Creation,
    offer: OfferResult,
    gather: GatherResult,
    parsed: Option<Candidate>)

  /** One invocation of `start`'s callback: `callback(error)` or `callback(null, answer)`. */
  datatype Reply = ErrorReply(error: string) | AnswerReply(answer: string)

  /** Delivering `cs` to `endpoint`, one `addIceCandidate` per candidate. */
  function Deliveries(endpoint: Handle, cs: seq<Candidate>): (r: seq<Effect>)
    ensures |r| == |cs|
    ensures forall i {:trigger r[i]} :: 0 <= i < |cs| ==> r[i] == AddCandidate(endpoint, cs[i])
  {
    if cs == [] then [] else [AddCandidate(endpoint, cs[0])] + Deliveries(endpoint, cs[1..])
  }

  /** The handles released in `effects`, in release order. */
  function Released(effects: seq<Effect>): (r: seq<Handle>)
    ensures |r| <= |effects|
  {
    if effects == [] then []
    else (if effects[0].Release? then [effects[0].handle] else []) + Released(effects[1..])
  }

  lemma {:induction false} ReleasedConcat(a: seq<Effect>, b: seq<Effect>)
    ensures Released(a + b) == Released(a) + Released(b)
  {
    if a == [] {
      assert a + b == b;
    } else {
      assert (a + b)[0] == a[0];
      assert (a + b)[1..] == a[1..] + b;
      ReleasedConcat(a[1..], b);
    }
  }

  /** The number of engine connection attempts in `effects`. */
  function Attempts(effects: seq<Effect>): (n: nat)
    ensures n <= |effects|
    ensures n == 0 <==> Connect !in effects
  {
    if effects == [] then 0
    else (if effects[0].Connect? then 1 else 0) + Attempts(effects[1..])
  }

  lemma {:induction false} AttemptsConcat(a: seq<Effect>, b: seq<Effect>)
    ensures Attempts(a + b) == Attempts(a) + Attempts(b)
  {
    if a == [] {
      assert a + b == b;
    } else {
      assert (a + b)[0] == a[0];
      assert (a + b)[1..] == a[1..] + b;
      AttemptsConcat(a[1..], b);
    }
  }

  /** Delivering candidates never releases anything. */
  lemma {:induction false} DeliveriesReleaseNothing(endpoint: Handle, cs: seq<Candidate>)
    ensures Released(Deliveries(endpoint, cs)) == []
  {
    if cs != [] {
      var d := Deliveries(endpoint, cs);
      assert d[1..] == Deliveries(endpoint, cs[1..]);
      DeliveriesReleaseNothing(endpoint, cs[1..]);
    }
  }

  /** Delivering two batches one after the other is delivering their concatenation. */
  lemma DeliveriesConcat(endpoint: Handle, a: seq<Candidate>, b: seq<Candidate>)
    ensures Deliveries(endpoint, a + b) == Deliveries(endpoint, a) + Deliveries(endpoint, b)
  {
  }

  /** The event a callback invocation sends to the client. The dispatcher tests
      `if (error) … else if (sdpAnswer) …`, so an empty (falsy) error or answer
      sends nothing. */
  function ReplyEvent(r: Reply): (e: Option<OutEvent>)
    ensures e.Some? <==> (r.ErrorReply? && r.error != "") || (r.AnswerReply? && r.answer != "")
    ensures e.Some? && r.ErrorReply? ==> e.value == ErrorEvent(r.error)
    ensures e.Some? && r.AnswerReply? ==> e.value == AnswerEvent(r.answer)
  {
    match r
    case ErrorReply(error) => if error != "" then Some(ErrorEvent(error)) else None
    case AnswerReply(answer) => if answer != "" then Some(AnswerEvent(answer)) else None
  }

  /** The events sent to `to` for the callback invocations `rs`, in order. */
  function Emits(to: Id, rs: seq<Reply>): (effects: seq<Effect>)
    ensures |effects| <= |rs|
    ensures forall k :: 0 <= k < |effects| ==> effects[k].Emit? && effects[k].to == to
    ensures (forall k :: 0 <= k < |rs| ==> ReplyEvent(rs[k]).Some?) ==>
      && |effects| == |rs|
      && forall k {:trigger effects[k]} :: 0 <= k < |rs| ==> effects[k] == Emit(to, ReplyEvent(rs[k]).value)
    ensures (forall k :: 0 <= k < |rs| ==> ReplyEvent(rs[k]).None?) ==> effects == []
  {
    if rs == [] then []
    else
      (match ReplyEvent(rs[0]) case Some(ev) => [Emit(to, ev)] case None => [])
      + Emits(to, rs[1..])
  }

  /** The events of consecutive callback invocations are those of each
      invocation in turn: emission order is invocation order. */
  lemma {:induction false} EmitsConcat(to: Id, a: seq<Reply>, b: seq<Reply>)
    ensures Emits(to, a + b) == Emits(to, a) + Emits(to, b)
  {
    if a == [] {
      assert a + b == b;
    } else {
      assert (a + b)[0] == a[0];
      assert (a + b)[1..] == a[1..] + b;
      EmitsConcat(to, a[1..], b);
    }
  }
}
