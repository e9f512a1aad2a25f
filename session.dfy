/** `getLoginStatus`: whether the request carries a token that verifies. */
module Session {
  import opened JsValues

  /** What `jwt.verify` does with a token: throw, or return a decoded payload that is truthy or not. */
  datatype Verification = Throws | Decoded(truthy: bool)

  /** The exception `jwt.verify` throws, which the async wrapper hands to the error middleware. */
  datatype TokenError = InvalidToken

  /** `getLoginStatus` as the handler is written: a token that fails verification makes it throw. */
  function LoginStatusAsWritten(cookie: Option<string>, verify: string -> Verification): (r: Result<bool, TokenError>)
    ensures !Truthy(cookie) ==> r == Ok(false)
    ensures r == Ok(true) <==> Truthy(cookie) && verify(cookie.value) == Decoded(true)
    ensures r.Err? <==> Truthy(cookie) && verify(cookie.value).Throws?
  {
    if !Truthy(cookie) then Ok(false)
    else match verify(cookie.value)
      case Throws => Err(InvalidToken)
      case Decoded(truthy) => Ok(truthy)
  }

  /** A cookie holding a token that does not verify gets an error, not the answer `false`. */
  lemma AsWrittenThrowsOnBadToken()
    ensures LoginStatusAsWritten(Some("not-a-jwt"), _ => Throws) == Err(InvalidToken)
  {
  }

  /** `getLoginStatus` answering `false` for a token that does not verify, as its final branch intends. */
  function LoginStatus(cookie: Option<string>, verify: string -> Verification): (loggedIn: bool)
    ensures loggedIn <==> Truthy(cookie) && verify(cookie.value) == Decoded(true)
  {
    Truthy(cookie) && match verify(cookie.value)
      case Throws => false
      case Decoded(truthy) => truthy
  }

  /** The corrected handler agrees with the written one wherever that one answers, and answers everywhere. */
  lemma LoginStatusRefinesAsWritten(cookie: Option<string>, verify: string -> Verification)
    ensures LoginStatusAsWritten(cookie, verify).Ok? ==> LoginStatusAsWritten(cookie, verify).value == LoginStatus(cookie, verify)
    ensures LoginStatusAsWritten(cookie, verify).Err? ==> !LoginStatus(cookie, verify)
  {
  }
}
