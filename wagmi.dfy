/**
 * The request handler of the target service (`POST /wagmi`).
 *
 * The handler reads a JSON body with two optional fields `a` and `b` and
 * answers with exactly one of three responses: a liveness ping, the sum of
 * the two operands, or a 400 "Invalid input" error. JSON values are
 * abstracted to what the handler can observe of them: a number (the value
 * `as_f64` yields) or anything else. An absent field and a field set to
 * `null` both deserialize to `None`. Numbers are exact reals here; the
 * service computes in f64.
 */
module Wagmi {

  datatype Option<T> = None | Some(value: T)

  /** A present JSON value: a number, or any other kind (string, bool, array, object). */
  datatype JsonValue = Number(x: real) | NonNumeric

  /** The deserialized request body. */
  datatype WagmiRequest = WagmiRequest(a: Option<JsonValue>, b: Option<JsonValue>)

  /** The three response bodies the handler can produce. */
  datatype Response =
    | Ping(message: string, timestamp: string, lang: string)
    | Add(result: real, a: real, b: real, status: string)
    | Error(error: string)

  const PingMessage: string := "wagmi"
  const Lang: string := "Rust"
  const SuccessStatus: string := "success"
  const InvalidInput: string := "Invalid input"

  /** `Value::as_f64`: some number for a JSON number, nothing for any other value. */
  function AsNumber(v: JsonValue): (r: Option<real>)
    ensures r.Some? <==> v.Number?
    ensures v.Number? ==> r.value == v.x
  {
    match v
    case Number(x) => Some(x)
    case NonNumeric => None
  }

  /** The HTTP status code sent with a response. */
  function StatusOf(resp: Response): (code: int)
    ensures code == 200 || code == 400
    ensures code == 400 <==> resp.Error?
  {
    if resp.Error? then 400 else 200
  }

  /** Both operands are absent (or null): the request is a ping. */
  predicate IsPing(req: WagmiRequest) {
    req.a.None? && req.b.None?
  }

  /** Both operands are numbers, neither negative, and their sum at most 100. */
  predicate IsValidAddition(req: WagmiRequest) {
    && req.a.Some? && req.a.value.Number?
    && req.b.Some? && req.b.value.Number?
    && 0.0 <= req.a.value.x && 0.0 <= req.b.value.x
    && req.a.value.x + req.b.value.x <= 100.0
  }

  /**
   * `wagmi_handler`. The clock reading used in a ping is passed in as
   * `now`, the RFC 3339 text the service would obtain from the clock.
   */
  function Handle(req: WagmiRequest, now: string): (resp: Response)
    ensures resp.Ping? <==> IsPing(req)
    ensures resp.Add? <==> IsValidAddition(req)
    ensures resp.Error? <==> !IsPing(req) && !IsValidAddition(req)
    ensures resp.Ping? ==> resp.message == PingMessage && resp.lang == Lang && resp.timestamp == now
    ensures resp.Add? ==>
      && Some(resp.a) == AsNumber(req.a.value)
      && Some(resp.b) == AsNumber(req.b.value)
      && resp.result == resp.a + resp.b
      && 0.0 <= resp.result <= 100.0
      && resp.status == SuccessStatus
    ensures resp.Error? ==> resp.error == InvalidInput
  {
    if req.a.None? && req.b.None? then
      Ping(PingMessage, now, Lang)
    else if req.a.Some? && req.b.Some? then
      match (AsNumber(req.a.value), AsNumber(req.b.value))
      case (Some(a), Some(b)) =>
        if a >= 0.0 && b >= 0.0 && a + b <= 100.0 then Add(a + b, a, b, SuccessStatus)
        else Error(InvalidInput)
      case _ => Error(InvalidInput)
    else
      Error(InvalidInput)
  }

  /** A ping does not depend on anything but the absence of both operands. */
  lemma PingWhateverElse(now: string)
    ensures Handle(WagmiRequest(None, None), now) == Ping("wagmi", now, "Rust")
    ensures StatusOf(Handle(WagmiRequest(None, None), now)) == 200
  {
  }

  /** A valid addition answers 200 with the exact sum and echoes both operands. */
  lemma ValidAdditionAnswersSum(a: real, b: real, now: string)
    requires 0.0 <= a && 0.0 <= b && a + b <= 100.0
    ensures Handle(WagmiRequest(Some(Number(a)), Some(Number(b))), now) == Add(a + b, a, b, "success")
    ensures StatusOf(Handle(WagmiRequest(Some(Number(a)), Some(Number(b))), now)) == 200
  {
  }

  /** The bound is inclusive: a sum of exactly 100 is accepted, anything above is refused. */
  lemma SumBoundary(a: real, b: real, now: string)
    requires 0.0 <= a && 0.0 <= b
    ensures a + b == 100.0 ==> Handle(WagmiRequest(Some(Number(a)), Some(Number(b))), now).Add?
    ensures a + b > 100.0 ==> Handle(WagmiRequest(Some(Number(a)), Some(Number(b))), now) == Error("Invalid input")
  {
  }

  /** A negative operand is refused, whatever the other one is. */
  lemma NegativeRejected(req: WagmiRequest, now: string)
    requires (req.a.Some? && req.a.value.Number? && req.a.value.x < 0.0)
          || (req.b.Some? && req.b.value.Number? && req.b.value.x < 0.0)
    ensures Handle(req, now) == Error("Invalid input")
    ensures StatusOf(Handle(req, now)) == 400
  {
  }

  /** Exactly one operand present, or a present operand that is not a number, is refused. */
  lemma MalformedRejected(req: WagmiRequest, now: string)
    requires (req.a.Some? != req.b.Some?)
          || (req.a.Some? && req.a.value.NonNumeric?)
          || (req.b.Some? && req.b.value.NonNumeric?)
    ensures Handle(req, now) == Error("Invalid input")
    ensures StatusOf(Handle(req, now)) == 400
  {
  }

  /**
   * Classification is total and exclusive, and depends on the operands
   * only: the clock reading changes nothing but a ping's timestamp.
   */
  lemma ClassificationIsTotalAndExclusive(req: WagmiRequest, now: string, later: string)
    ensures !(IsPing(req) && IsValidAddition(req))
    ensures !IsPing(req) ==> Handle(req, now) == Handle(req, later)
    ensures IsPing(req) ==> Handle(req, later) == Ping("wagmi", later, "Rust")
  {
  }

  /**
   * Sample bodies: the one the load tester sends, `{"a": 5, "b": 10}`, is
   * answered with 15; a sum over 100, a negative operand and a missing
   * operand are refused.
   */
  lemma SampleBodies(now: string)
    ensures Handle(WagmiRequest(Some(Number(5.0)), Some(Number(10.0))), now) == Add(15.0, 5.0, 10.0, "success")
    ensures Handle(WagmiRequest(Some(Number(60.0)), Some(Number(50.0))), now) == Error("Invalid input")
    ensures Handle(WagmiRequest(Some(Number(-1.0)), Some(Number(5.0))), now) == Error("Invalid input")
    ensures Handle(WagmiRequest(Some(Number(5.0)), None), now) == Error("Invalid input")
  {
  }
}
