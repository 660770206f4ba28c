/**
 * The three requests of the sign-up page, from the reply to the settled
 * result that their `onSuccess`/`onError` callbacks receive.  Each request
 * POSTs JSON, reads the JSON body and, when the status is not 2xx, throws an
 * `Error` whose text is the body's `message` or a fixed fallback.  The
 * network itself is outside the model: a request is an `Exchange`, either a
 * reply or a thrown transport or parse error.
 */
module Requests {
  import opened Wrappers

  /** A reply: whether its status was 2xx, and the `message` field of its body. */
  datatype Response = Response(ok: bool, message: Option<string>)

  /** What one request produced: a reply, or the text of an error thrown
      before a body could be read (a failed `fetch`, a body that is not JSON). */
  datatype Exchange = Replied(response: Response) | Threw(error: string)

  /** A settled request: the body's `message` field, or the error text. */
  type Settled = Result<Option<string>, string>

  /** Error texts used when a failing reply carries no message. */
  const VerifyEmailFailure: string := "오류가 발생했습니다."
  const ValidateCodeFailure: string := "Invalid or expired token."
  const RegisterFailure: string := "Registration failed"

  /** Notices used when a successful reply carries no message. */
  const VerifyEmailNotice: string := "Verification code sent to email."
  const ValidateCodeNotice: string := "Email verified successfully!"
  const RegisterNotice: string := "Registration successful!"

  /** JavaScript's `message || fallback`: an absent and an empty message are
      both falsy and give way to the fallback. */
  function OrElse(message: Option<string>, fallback: string): (text: string)
    ensures message.Some? && message.value != "" ==> text == message.value
    ensures text == fallback || message == Some(text)
    ensures text == fallback <== message.None? || message == Some("")
    ensures fallback != "" ==> text != ""
  {
    match message
    case Some(m) => if m != "" then m else fallback
    case None => fallback
  }

  /** The common shape of the three `mutationFn`s: a 2xx reply passes its
      `message` on to `onSuccess`; any other reply is an error carrying the
      server's text or the fallback; a thrown error passes through. */
  function Settle(exchange: Exchange, fallback: string): (r: Settled)
    ensures exchange.Replied? ==> (r.Ok? <==> exchange.response.ok)
    ensures r.Ok? ==> exchange.Replied? && r.value == exchange.response.message
    ensures r.Err? && exchange.Replied? ==> r.error == OrElse(exchange.response.message, fallback)
    ensures exchange.Threw? ==> r == Err(exchange.error)
  {
    match exchange
    case Threw(e) => Err(e)
    case Replied(response) =>
      if response.ok then Ok(response.message)
      else Err(OrElse(response.message, fallback))
  }

  /** `sendVerification`'s request to /api/auth/verify-email.  A refusing
      reply is never settled with an empty error text. */
  function VerifyEmailReply(exchange: Exchange): (r: Settled)
    ensures exchange.Replied? && !exchange.response.ok ==> r.Err? && r.error != ""
    ensures exchange.Replied? && !exchange.response.ok ==>
      r.error == OrElse(exchange.response.message, VerifyEmailFailure)
    ensures r.Ok? <==> exchange.Replied? && exchange.response.ok
    ensures r.Ok? ==> exchange.Replied? && r.value == exchange.response.message
    ensures exchange.Threw? ==> r == Err(exchange.error)
  {
    Settle(exchange, VerifyEmailFailure)
  }

  /** `validateCode`'s request to /api/auth/validate-code. */
  function ValidateCodeReply(exchange: Exchange): (r: Settled)
    ensures exchange.Replied? && !exchange.response.ok ==> r.Err? && r.error != ""
    ensures exchange.Replied? && !exchange.response.ok ==>
      r.error == OrElse(exchange.response.message, ValidateCodeFailure)
    ensures r.Ok? <==> exchange.Replied? && exchange.response.ok
    ensures r.Ok? ==> exchange.Replied? && r.value == exchange.response.message
    ensures exchange.Threw? ==> r == Err(exchange.error)
  {
    Settle(exchange, ValidateCodeFailure)
  }

  /** `registerUser`'s request to /api/auth/register. */
  function RegisterReply(exchange: Exchange): (r: Settled)
    ensures exchange.Replied? && !exchange.response.ok ==> r.Err? && r.error != ""
    ensures exchange.Replied? && !exchange.response.ok ==>
      r.error == OrElse(exchange.response.message, RegisterFailure)
    ensures r.Ok? <==> exchange.Replied? && exchange.response.ok
    ensures r.Ok? ==> exchange.Replied? && r.value == exchange.response.message
    ensures exchange.Threw? ==> r == Err(exchange.error)
  {
    Settle(exchange, RegisterFailure)
  }
}
