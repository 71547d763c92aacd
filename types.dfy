/** Values shared by every resolver: the optional value, the GraphQL error
    taxonomy, and the request-scoped identity of the caller. */
module Types {

  datatype Option<+T> = None | Some(value: T)

  /** The machine-readable `extensions.code` of a GraphQL error; an error
      a resolver does not classify itself reaches the client as
      `INTERNAL_SERVER_ERROR`. */
  datatype ErrorCode = NotAuthorized | NotFound | BadRequest | InternalServerError

  /** A GraphQL error: the message shown to the client and its code. */
  datatype GqlError = GqlError(message: string, code: ErrorCode)

  /** What a resolver hands back to the GraphQL executor: a value, or an
      error (rendered as a null field plus an entry in `errors`). */
  datatype Result<+T> = Ok(value: T) | Fail(error: GqlError)

  type UserId = string

  /** The request context every resolver receives (`UserIdWithToken`). */
  datatype Identity = Identity(id: UserId, token: string, isAdmin: bool)

  /** The identity of a caller without valid credentials. */
  const Anonymous := Identity("", "", false)

  /** JavaScript truthiness of an optional string: `undefined` and "" are falsy. */
  predicate Truthy(s: Option<string>)
    ensures s == None || s == Some("") ==> !Truthy(s)
    ensures Truthy(s) ==> s.Some? && |s.value| > 0
  {
    s.Some? && s.value != ""
  }

  /** JavaScript truthiness of the token string: only "" is falsy. */
  predicate HasToken(ctx: Identity)
    ensures ctx == Anonymous ==> !HasToken(ctx)
  {
    ctx.token != ""
  }

  /** The admin paths demand `token && isAdmin`. */
  predicate IsAdmin(ctx: Identity)
    ensures IsAdmin(ctx) ==> HasToken(ctx)
    ensures ctx == Anonymous ==> !IsAdmin(ctx)
  {
    HasToken(ctx) && ctx.isAdmin
  }
}
