/** The Express middleware that admits a request only with a verifiable
    bearer token. Every failure, whether raised by the middleware itself
    or by the token verifier, reaches `next` as the same error. */
module AuthMiddleware {
  import opened Types
  import opened Strings

  /** HTTP 401, the value of `HTTP_STATUS_CODES.UNAUTHORIZED`. */
  const UNAUTHORIZED: int := 401

  datatype CustomError = CustomError(message: string, statusCode: int)

  const AuthenticationFailed := CustomError("Authentication failed", UNAUTHORIZED)

  /** What `jwt.verify` does with the token it is given (possibly
      `undefined`): it returns a payload, truthy or not, or it throws. */
  datatype Verification = Decoded(truthy: bool) | Threw

  /** What the `try` block can throw: the middleware's own error, or
      whatever the verifier raised. */
  datatype Thrown = Raised(error: CustomError) | VerifierError

  /** One call of `next`: `None` is `next()`, `Some(e)` is `next(e)`. */
  type NextCall = Option<CustomError>

  /** The outcome of the `try` block: it reached `next()` or it threw. */
  predicate Admitted(header: Option<string>, verify: Option<string> -> Verification)
    ensures Admitted(header, verify) ==> Truthy(header)
  {
    && Truthy(header)
    && verify(TokenField(header.value)) == Decoded(true)
  }

  /** The calls the middleware makes to `next`, in order. `nextThrows` says
      whether the call `next()` itself throws back into the middleware, which
      sends control into the `catch` block after the first call. (Express's
      router normally catches a synchronous throw of the next handler itself,
      so `next()` returns normally and this path is not taken.) */
  function Authenticate(header: Option<string>, verify: Option<string> -> Verification,
                        nextThrows: bool): (calls: seq<NextCall>)
    ensures |calls| >= 1
    // next() is called, first, exactly when the token verified to a truthy payload
    ensures calls[0] == None <==> Admitted(header, verify)
    // every error handed to next is the same one
    ensures forall i :: 0 <= i < |calls| && calls[i].Some? ==> calls[i] == Some(AuthenticationFailed)
    // on each path where next() does not throw, next is called exactly once
    ensures !nextThrows ==> |calls| == 1
    ensures !Admitted(header, verify) ==> calls == [Some(AuthenticationFailed)]
    // a next() that throws is followed by the catch block's next(error)
    ensures Admitted(header, verify) && nextThrows ==> calls == [None, Some(AuthenticationFailed)]
  {
    var tried := Try(header, verify);
    if tried.None? then
      // next() was reached
      if nextThrows then [None, Some(AuthenticationFailed)] else [None]
    else
      // catch (error): whatever was thrown is replaced
      [Some(AuthenticationFailed)]
  }

  /** The `try` block up to `next()`: `None` when it reaches `next()`,
      otherwise the error it throws. */
  function Try(header: Option<string>, verify: Option<string> -> Verification): (thrown: Option<Thrown>)
    ensures thrown.None? <==> Admitted(header, verify)
    ensures thrown == Some(VerifierError) <==>
              Truthy(header) && verify(TokenField(header.value)).Threw?
  {
    if !Truthy(header) then Some(Raised(AuthenticationFailed))
    else
      var token := TokenField(header.value);
      match verify(token)
      case Threw => Some(VerifierError)
      case Decoded(truthy) => if !truthy then Some(Raised(AuthenticationFailed)) else None
  }

  /** A well-formed `Bearer <token>` header is admitted exactly when the
      verifier accepts the token. */
  lemma BearerAdmitted(token: string, verify: Option<string> -> Verification)
    requires ' ' !in token
    ensures Admitted(Some("Bearer " + token), verify) <==> verify(Some(token)) == Decoded(true)
  {
    BearerRoundTrip(token);
  }
}
