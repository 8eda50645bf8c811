/**
  The retry rule of GET /device/:deviceId/recognizeFaces?timeout=N.

  Each round reads the device's current frame, base64-encodes it, and calls
  the recognition RPC. An RPC error ends the request with 500. Otherwise, if
  `timeout` is missing or not an integer, the first result is returned even
  when it holds no face; if it is an integer, an empty result is retried as
  long as the whole seconds elapsed since the request began are below it.
  Wall-clock time is abstract: each round carries the elapsed whole seconds
  observed after its RPC returned.
*/
module Recognize {
  import opened Common
  import opened Rpc

  // ---------------------------------------------------------------------
  // strconv.Atoi
  // ---------------------------------------------------------------------

  predicate IsDigit(c: char)
  {
    '0' <= c <= '9'
  }

  predicate AllDigits(s: string)
  {
    forall i :: 0 <= i < |s| ==> IsDigit(s[i])
  }

  /** The value of a string of decimal digits. */
  function DigitsValue(s: string): nat
    requires AllDigits(s)
  {
    if s == [] then 0 else DigitsValue(s[..|s| - 1]) * 10 + (s[|s| - 1] as int - '0' as int)
  }

  const MinInt64: int := -0x8000_0000_0000_0000
  const MaxInt64: int := 0x7fff_ffff_ffff_ffff

  /**
    `strconv.Atoi` on a 64-bit platform: an optional sign, then one or more
    decimal digits, and a value that fits in 64 bits; anything else is an
    error.
  */
  function Atoi(s: string): (r: Option<int>)
    ensures r.Some? ==> MinInt64 <= r.value <= MaxInt64
  {
    var signed := |s| > 0 && (s[0] == '+' || s[0] == '-');
    var digits := if signed then s[1..] else s;
    if digits == [] || !AllDigits(digits) then None
    else
      var v: int := if signed && s[0] == '-' then 0 - DigitsValue(digits) as int else DigitsValue(digits);
      if MinInt64 <= v <= MaxInt64 then Some(v) else None
  }

  /** The decimal rendering of a natural number (an independent reference). */
  function Decimal(n: nat): (s: string)
    ensures AllDigits(s) && s != []
  {
    var d := [(('0' as int) + n % 10) as char];
    if n < 10 then d else Decimal(n / 10) + d
  }

  lemma {:induction false} DecimalValue(n: nat)
    ensures DigitsValue(Decimal(n)) == n
  {
    var s := Decimal(n);
    if n >= 10 {
      DecimalValue(n / 10);
      assert s[..|s| - 1] == Decimal(n / 10);
    }
  }

  /** Atoi reads back every non-negative 64-bit value written in decimal. */
  lemma AtoiDecimal(n: nat)
    requires n <= MaxInt64
    ensures Atoi(Decimal(n)) == Some(n)
  {
    DecimalValue(n);
  }

  /** A missing query parameter reads as "", which Atoi rejects. */
  lemma AtoiRejectsMalformed()
    ensures Atoi("") == None && Atoi("+") == None && Atoi("-") == None && Atoi("5s") == None
  {
    assert !AllDigits("5s") by { assert !IsDigit("5s"[1]); }
  }

  // ---------------------------------------------------------------------
  // One round and the loop
  // ---------------------------------------------------------------------

  /** One round: the image sent, the RPC's first event, the elapsed seconds. */
  datatype Round = Round(image: string, event: ReplyEvent, elapsed: nat)

  /** The HTTP reply: 500 with the error text, or 200 with image and faces. */
  datatype HttpReply =
    | ServerError(error: string)
    | Recognized(image: string, faces: seq<RecognizedFace>)
  {
    function Status(): int
    {
      if ServerError? then 500 else 200
    }
  }

  datatype Decision = Respond(reply: HttpReply) | Retry

  /** What the handler does after one round. */
  function Decide(timeoutQuery: string, r: Round): (d: Decision)
    ensures d.Respond? && d.reply.Recognized? ==> d.reply.image == r.image
  {
    var res := Outcome(r.event);
    if res.err.Some? then Respond(ServerError(res.err.value))
    else
      var faces := res.response.value.faces;
      match Atoi(timeoutQuery)
      case None => Respond(Recognized(r.image, faces))
      case Some(timeout) =>
        if |faces| == 0 && r.elapsed < timeout then Retry else Respond(Recognized(r.image, faces))
  }

  /** An RPC error ends the request with 500 and the error text. */
  lemma RpcErrorIs500(timeoutQuery: string, r: Round)
    requires r.event.Deadline?
    ensures Decide(timeoutQuery, r) == Respond(ServerError(TimeoutError))
    ensures Decide(timeoutQuery, r).reply.Status() == 500
  {
  }

  /**
    The handler retries exactly when the RPC answered with no face, the
    timeout parameter is an integer, and fewer whole seconds than that have
    elapsed; in every other case it answers, with the round's own image.
  */
  lemma RetryExactly(timeoutQuery: string, r: Round)
    ensures Decide(timeoutQuery, r).Retry? <==>
      && r.event.ReplyBeforeDeadline?
      && Outcome(r.event).response.value.faces == []
      && Atoi(timeoutQuery).Some?
      && r.elapsed < Atoi(timeoutQuery).value
    ensures Decide(timeoutQuery, r).Respond? && Decide(timeoutQuery, r).reply.Recognized? ==>
      && Decide(timeoutQuery, r).reply.image == r.image
      && Decide(timeoutQuery, r).reply.faces == Outcome(r.event).response.value.faces
  {
  }

  /** Without an integer timeout the first result is returned, even with no face. */
  lemma NoTimeoutAnswersFirstRound(timeoutQuery: string, r: Round)
    requires Atoi(timeoutQuery).None? && r.event.ReplyBeforeDeadline?
    ensures Decide(timeoutQuery, r) == Respond(Recognized(r.image, Outcome(r.event).response.value.faces))
  {
  }

  /**
    A reply that failed to decode is not reported as an error, whatever the
    timeout parameter: the handler sees an empty face list, so it retries
    exactly when an empty reply would, and otherwise answers 200 with no
    faces; without a timeout it answers at once.
  */
  lemma DecodeFailureLooksEmpty(timeoutQuery: string, r: Round, msg: string)
    requires r.event == ReplyBeforeDeadline(Err(msg))
    ensures Decide(timeoutQuery, r).Respond? ==>
      && Decide(timeoutQuery, r) == Respond(Recognized(r.image, []))
      && Decide(timeoutQuery, r).reply.Status() == 200
    ensures Decide(timeoutQuery, r) == Retry <==>
      Atoi(timeoutQuery).Some? && r.elapsed < Atoi(timeoutQuery).value
    ensures Decide(timeoutQuery, r) == Decide(timeoutQuery, r.(event := ReplyBeforeDeadline(Ok([]))))
    ensures Decide("", r) == Respond(Recognized(r.image, []))
  {
  }

  /** The state of the handler after the rounds observed so far. */
  datatype Handler = Answered(reply: HttpReply, rounds: nat) | StillRetrying

  /**
    The handler's loop over the rounds the environment provides: it answers
    at the first round whose decision is not Retry, or is still retrying
    when the rounds run out.
  */
  method RecognizeFaces(timeoutQuery: string, rounds: seq<Round>) returns (h: Handler)
    ensures h.Answered? ==>
      && 0 < h.rounds <= |rounds|
      && Decide(timeoutQuery, rounds[h.rounds - 1]) == Respond(h.reply)
      && forall j :: 0 <= j < h.rounds - 1 ==> Decide(timeoutQuery, rounds[j]) == Retry
    ensures h.StillRetrying? ==> forall j :: 0 <= j < |rounds| ==> Decide(timeoutQuery, rounds[j]) == Retry
  {
    var i := 0;
    while i < |rounds|
      invariant 0 <= i <= |rounds|
      invariant forall j :: 0 <= j < i ==> Decide(timeoutQuery, rounds[j]) == Retry
    {
      var round := rounds[i];
      var res := Outcome(round.event);
      i := i + 1;
      if res.err.Some? {
        return Answered(ServerError(res.err.value), i);
      }
      var faces := res.response.value.faces;
      var timeout := Atoi(timeoutQuery);
      if timeout.None? {
        return Answered(Recognized(round.image, faces), i);
      }
      if |faces| == 0 {
        if round.elapsed < timeout.value {
          continue;
        }
        return Answered(Recognized(round.image, faces), i);
      }
      return Answered(Recognized(round.image, faces), i);
    }
    return StillRetrying;
  }

  /**
    With an integer timeout, the handler never retries past it: if some
    round has reached `timeout` elapsed seconds, the handler has answered by
    that round.
  */
  lemma AnswersByTimeout(timeoutQuery: string, rounds: seq<Round>, k: nat)
    requires Atoi(timeoutQuery).Some? && k < |rounds|
    requires rounds[k].elapsed >= Atoi(timeoutQuery).value
    ensures Decide(timeoutQuery, rounds[k]).Respond?
  {
  }
}
