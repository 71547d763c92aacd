/** The user resolvers: thin proxies to the upstream identity service.
    Each one checks the caller's token where it needs one, builds one HTTP
    request, and translates the upstream response. The upstream service is
    the injected `upstream` function from request to response. */
module UserResolver {
  import opened Types
  import opened Strings
  import opened IdentityExtraction

  /** An upstream body, passed through as the service sent it. */
  type Json = string

  datatype Verb = Get | Post | Put | Delete

  datatype Header = Header(name: string, value: string)

  datatype Request = Request(verb: Verb, url: string, headers: seq<Header>, body: Option<Json>)

  /** The parts of a `fetch` response the resolvers look at. */
  datatype Response = Response(ok: bool, statusText: string, body: Json)

  /** A resolver call: the requests it sent upstream, and its result. */
  datatype Call = Call(sent: seq<Request>, result: Result<Json>)

  const ContentType := Header("Content-Type", "application/json")

  const Unauthorized := GqlError("Unauthorized", NotAuthorized)

  /** The `Authorization` header that acts upstream as the caller. */
  function Bearer(token: string): (h: Header)
    ensures h.name == "Authorization"
    ensures h.value == "Bearer " + token
    ensures |h.value| == 7 + |token| && h.value[..7] == "Bearer " && h.value[7..] == token
  {
    Header("Authorization", "Bearer " + token)
  }

  /** The `res.ok` branch shared by every resolver. */
  function Translate(res: Response): (r: Result<Json>)
    ensures r.Ok? <==> res.ok
    ensures res.ok ==> r.value == res.body
    ensures !res.ok ==> r.error == GqlError(res.statusText, NotFound)
  {
    if !res.ok then Fail(GqlError(res.statusText, NotFound)) else Ok(res.body)
  }

  /** Sends `req` once and translates the answer. */
  function Send(req: Request, upstream: Request -> Response): (c: Call)
    ensures c.sent == [req]
    ensures c.result.Ok? <==> upstream(req).ok
    ensures c.result.Ok? ==> c.result.value == upstream(req).body
    ensures c.result.Fail? ==> c.result.error == GqlError(upstream(req).statusText, NotFound)
  {
    Call([req], Translate(upstream(req)))
  }

  // Request shapes

  function UsersRequest(authUrl: string): (req: Request)
    ensures req.verb == Get && req.url == authUrl + "/users"
    ensures req.headers == [] && req.body == None
  {
    Request(Get, authUrl + "/users", [], None)
  }

  function UserByIdRequest(authUrl: string, id: string): (req: Request)
    ensures req.verb == Get && req.url == authUrl + "/users/" + id
    ensures req.headers == [] && req.body == None
  {
    Request(Get, authUrl + "/users/" + id, [], None)
  }

  function RegisterRequest(authUrl: string, user: Json): (req: Request)
    ensures req.verb == Post && req.url == authUrl + "/users"
    ensures req.headers == [ContentType] && req.body == Some(user)
  {
    Request(Post, authUrl + "/users", [ContentType], Some(user))
  }

  function LoginRequest(authUrl: string, credentials: Json): (req: Request)
    ensures req.verb == Post && req.url == authUrl + "/auth/login"
    ensures req.headers == [ContentType] && req.body == Some(credentials)
  {
    Request(Post, authUrl + "/auth/login", [ContentType], Some(credentials))
  }

  function UpdateUserRequest(authUrl: string, user: Json, token: string): (req: Request)
    ensures req.verb == Put && req.url == authUrl + "/users"
    ensures req.headers == [ContentType, Bearer(token)] && req.body == Some(user)
  {
    Request(Put, authUrl + "/users", [ContentType, Bearer(token)], Some(user))
  }

  function DeleteUserRequest(authUrl: string, token: string): (req: Request)
    ensures req.verb == Delete && req.url == authUrl + "/users"
    ensures req.headers == [ContentType, Bearer(token)] && req.body == None
  {
    Request(Delete, authUrl + "/users", [ContentType, Bearer(token)], None)
  }

  // Resolvers. The read queries, `register` and `login` take the context
  // like every resolver does, and ignore it.

  function Users(authUrl: string, ctx: Identity, upstream: Request -> Response): (c: Call)
    ensures c == Send(UsersRequest(authUrl), upstream)
  {
    Send(UsersRequest(authUrl), upstream)
  }

  function UserById(authUrl: string, id: string, ctx: Identity, upstream: Request -> Response): (c: Call)
    ensures c == Send(UserByIdRequest(authUrl, id), upstream)
  {
    Send(UserByIdRequest(authUrl, id), upstream)
  }

  function Register(authUrl: string, user: Json, ctx: Identity, upstream: Request -> Response): (c: Call)
    ensures c == Send(RegisterRequest(authUrl, user), upstream)
  {
    Send(RegisterRequest(authUrl, user), upstream)
  }

  function Login(authUrl: string, credentials: Json, ctx: Identity, upstream: Request -> Response): (c: Call)
    ensures c == Send(LoginRequest(authUrl, credentials), upstream)
  {
    Send(LoginRequest(authUrl, credentials), upstream)
  }

  function UpdateUser(authUrl: string, user: Json, ctx: Identity, upstream: Request -> Response): (c: Call)
    ensures !HasToken(ctx) ==> c == Call([], Fail(Unauthorized))
    ensures HasToken(ctx) ==> c == Send(UpdateUserRequest(authUrl, user, ctx.token), upstream)
  {
    if !HasToken(ctx) then Call([], Fail(Unauthorized))
    else Send(UpdateUserRequest(authUrl, user, ctx.token), upstream)
  }

  function DeleteUser(authUrl: string, ctx: Identity, upstream: Request -> Response): (c: Call)
    ensures !HasToken(ctx) ==> c == Call([], Fail(Unauthorized))
    ensures HasToken(ctx) ==> c == Send(DeleteUserRequest(authUrl, ctx.token), upstream)
  {
    if !HasToken(ctx) then Call([], Fail(Unauthorized))
    else Send(DeleteUserRequest(authUrl, ctx.token), upstream)
  }

  /** `users`, `userById`, `register` and `login` do not depend on who calls. */
  lemma PublicResolversIgnoreIdentity(authUrl: string, id: string, body: Json,
                                      a: Identity, b: Identity, upstream: Request -> Response)
    ensures Users(authUrl, a, upstream) == Users(authUrl, b, upstream)
    ensures UserById(authUrl, id, a, upstream) == UserById(authUrl, id, b, upstream)
    ensures Register(authUrl, body, a, upstream) == Register(authUrl, body, b, upstream)
    ensures Login(authUrl, body, a, upstream) == Login(authUrl, body, b, upstream)
  {
  }

  /** The token the gateway forwards upstream is the one the caller sent:
      extracting `split(' ')[1]` from the `Authorization` header of the
      `updateUser` or `deleteUser` request gives back the raw token taken
      from the inbound header. */
  lemma ForwardedToken(header: Option<string>, verify: string -> Option<Identity>,
                       authUrl: string, user: Json, upstream: Request -> Response)
    requires HasToken(Authenticate(header, verify))
    ensures var ctx := Authenticate(header, verify);
            && UpdateUser(authUrl, user, ctx, upstream).sent[0].headers[1] == Bearer(ctx.token)
            && DeleteUser(authUrl, ctx, upstream).sent[0].headers[1] == Bearer(ctx.token)
            && TokenField(Bearer(ctx.token).value) == RawToken(header)
  {
    var ctx := Authenticate(header, verify);
    BearerRoundTrip(ctx.token);
  }
}
