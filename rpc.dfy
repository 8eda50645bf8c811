/**
  The face-recognition RPC over the broker (`callRPC`).

  A call picks a fresh request id, subscribes to the reply topic
  "/3ml/rpc/recognizeFaces/response/" + id, publishes a request carrying the
  same id on "/3ml/rpc/recognizeFaces/request", and waits for whichever
  comes first: the reply, or a 5 second timer. Timers and channels are not
  modelled: the call is a pure classification of the first event the caller
  observes.
*/
module Rpc {
  import opened Common

  const RequestTopic: string := "/3ml/rpc/recognizeFaces/request"
  const ReplyPrefix: string := "/3ml/rpc/recognizeFaces/response/"
  const TimeoutMillis: nat := 5000
  const TimeoutError: string := "timeout"

  /** The per-request reply topic. */
  function ReplyTopic(requestId: string): string
  {
    ReplyPrefix + requestId
  }

  /** The request id a reply topic belongs to, if it is a reply topic. */
  function RequestIdOfReplyTopic(topic: string): Option<string>
  {
    if HasPrefix(topic, ReplyPrefix) then Some(topic[|ReplyPrefix|..]) else None
  }

  /** A topic is the reply topic of `requestId` exactly when it names that id. */
  lemma ReplyTopicExact(topic: string, requestId: string)
    ensures RequestIdOfReplyTopic(topic) == Some(requestId) <==> topic == ReplyTopic(requestId)
  {
    var r := ReplyTopic(requestId);
    assert r[..|ReplyPrefix|] == ReplyPrefix;
    assert r[|ReplyPrefix|..] == requestId;
    if HasPrefix(topic, ReplyPrefix) {
      assert topic == topic[..|ReplyPrefix|] + topic[|ReplyPrefix|..];
    }
  }

  /** Distinct request ids never share a reply topic. */
  lemma ReplyTopicsDistinct(a: string, b: string)
    requires a != b
    ensures ReplyTopic(a) != ReplyTopic(b)
  {
    ReplyTopicExact(ReplyTopic(a), a);
    ReplyTopicExact(ReplyTopic(a), b);
  }

  /** A recognised face; its rectangle and descriptor are not modelled. */
  datatype RecognizedFace = RecognizedFace(faceLabel: string, category: int)

  /** `RecognizedResponse`: the faces, and the decode error if decoding failed. */
  datatype RecognizedResponse = RecognizedResponse(faces: seq<RecognizedFace>, error: Option<string>)

  /** `RecognizeRequest`: what is published on the request topic. */
  datatype RecognizeRequest = RecognizeRequest(requestId: string, payload: string)

  /**
    The first thing the waiting caller observes: reply bytes that arrived
    before the deadline, already put through the JSON decoder, or the
    deadline itself.
  */
  datatype ReplyEvent =
    | ReplyBeforeDeadline(decoded: Result<seq<RecognizedFace>, string>)
    | Deadline

  /**
    Which event wins, given when (in milliseconds after the request was
    published) the reply arrives, if ever.
  */
  function FirstEvent(replyAfterMillis: Option<nat>, decoded: Result<seq<RecognizedFace>, string>): (e: ReplyEvent)
    ensures e.Deadline? <==> replyAfterMillis.None? || replyAfterMillis.value >= TimeoutMillis
    ensures e.ReplyBeforeDeadline? ==> e.decoded == decoded
  {
    if replyAfterMillis.Some? && replyAfterMillis.value < TimeoutMillis then ReplyBeforeDeadline(decoded) else Deadline
  }

  /** What the call returns: a response or an error, one of the two set. */
  datatype CallResult = CallResult(response: Option<RecognizedResponse>, err: Option<string>)

  /**
    The three outcomes of a call: a decoded reply; a reply that failed to
    decode, returned as a response whose `Error` is set with a nil error;
    and the timeout, returned as a nil response with error "timeout".
  */
  function Outcome(e: ReplyEvent): (r: CallResult)
    ensures r.response.Some? <==> r.err.None?
    ensures r.err.Some? <==> e.Deadline?
    ensures r.err.Some? ==> r.err.value == TimeoutError
    ensures r.response.Some? && r.response.value.error.Some? <==> e.ReplyBeforeDeadline? && e.decoded.Err?
    ensures e.ReplyBeforeDeadline? && e.decoded.Ok? ==> r.response == Some(RecognizedResponse(e.decoded.value, None))
    ensures e.ReplyBeforeDeadline? && e.decoded.Err? ==> r.response.value.faces == []
  {
    match e
    case Deadline => CallResult(None, Some(TimeoutError))
    case ReplyBeforeDeadline(Ok(faces)) => CallResult(Some(RecognizedResponse(faces, None)), None)
    case ReplyBeforeDeadline(Err(msg)) => CallResult(Some(RecognizedResponse([], Some(msg))), None)
  }

  /**
    Which broker client the call runs on: a client of its own that is
    disconnected when the call returns, or the gateway's shared client.
  */
  datatype ClientMode = PerCallClient | SharedClient

  /** Everything one call does on the broker, and what it returns. */
  datatype RpcCall = RpcCall(
    subscribed: string,            // the reply topic subscribed before publishing
    published: string,             // the topic the request is published on
    request: RecognizeRequest,     // the request payload
    stillSubscribed: Option<string>, // a reply subscription left behind on return
    result: CallResult)

  /** One call of `callRPC` with request id `requestId` on image `image`. */
  function CallRpc(mode: ClientMode, requestId: string, image: string, e: ReplyEvent): (c: RpcCall)
    ensures RequestIdOfReplyTopic(c.subscribed) == Some(c.request.requestId)
    ensures c.request == RecognizeRequest(requestId, image)
    ensures c.published == RequestTopic
    ensures c.stillSubscribed.Some? <==> mode.SharedClient?
    ensures c.result == Outcome(e)
  {
    ReplyTopicExact(ReplyTopic(requestId), requestId);
    RpcCall(
      ReplyTopic(requestId),
      RequestTopic,
      RecognizeRequest(requestId, image),
      if mode.SharedClient? then Some(ReplyTopic(requestId)) else None,
      Outcome(e))
  }

  /**
    Correlation isolation: the reply topic of a call names that call's
    request id and no other, so two calls with distinct ids never see each
    other's replies.
  */
  lemma CallsDoNotShareReplies(mode: ClientMode, idA: string, idB: string, imgA: string, imgB: string, eA: ReplyEvent, eB: ReplyEvent)
    requires idA != idB
    ensures CallRpc(mode, idA, imgA, eA).subscribed != CallRpc(mode, idB, imgB, eB).subscribed
    ensures RequestIdOfReplyTopic(CallRpc(mode, idA, imgA, eA).subscribed) != Some(idB)
  {
    ReplyTopicsDistinct(idA, idB);
    ReplyTopicExact(ReplyTopic(idA), idB);
  }
}
