/** The context builder of the GraphQL server: it turns the optional
    `Authorization` header into the caller's identity, falling back to the
    anonymous identity instead of failing the request. JWT signature
    checking is the injected `verify`, which yields the decoded claims or
    nothing. */
module IdentityExtraction {
  import opened Types
  import opened Strings

  /** The raw token the header carries: its second space-separated field,
      when the header and that field are both non-empty. */
  function RawToken(header: Option<string>): (t: Option<string>)
    ensures t.Some? ==> header.Some? && t == TokenField(header.value)
    ensures t.Some? ==> t.value != "" && ' ' !in t.value
    ensures t.Some? <==> Truthy(header) && Truthy(TokenField(header.value))
  {
    if !Truthy(header) then None
    else
      var field := TokenField(header.value);
      if !Truthy(field) then None else field
  }

  /** The identity for a request whose `Authorization` header is `header`. */
  function Authenticate(header: Option<string>, verify: string -> Option<Identity>): (r: Identity)
    // no header (or an empty one): anonymous
    ensures !Truthy(header) ==> r == Anonymous
    // a header whose second field is missing or empty: anonymous
    ensures Truthy(header) && !Truthy(TokenField(header.value)) ==> r == Anonymous
    // a token the verifier does not accept: anonymous
    ensures RawToken(header).Some? && verify(RawToken(header).value).None? ==> r == Anonymous
    // verified claims, with the token replaced by the raw one
    ensures RawToken(header).Some? && verify(RawToken(header).value).Some? ==>
              r.id == verify(RawToken(header).value).value.id &&
              r.isAdmin == verify(RawToken(header).value).value.isAdmin &&
              Some(r.token) == RawToken(header)
    // the identity carries a token exactly when one was extracted and verified
    ensures HasToken(r) <==> RawToken(header).Some? && verify(RawToken(header).value).Some?
  {
    if !Truthy(header) then Anonymous
    else
      var token := TokenField(header.value);
      if !Truthy(token) then Anonymous
      else
        var loggedInUser := verify(token.value);
        if loggedInUser.None? then Anonymous
        else loggedInUser.value.(token := token.value)
  }

  /** A well-formed `Bearer <token>` header with a token the verifier accepts
      gives exactly the verified claims carrying that token. */
  lemma BearerHeader(token: string, verify: string -> Option<Identity>)
    requires token != "" && ' ' !in token
    requires verify(token).Some?
    ensures Authenticate(Some("Bearer " + token), verify) == verify(token).value.(token := token)
  {
    BearerRoundTrip(token);
  }

  /** Two spaces after the scheme leave the second field empty: anonymous,
      whatever follows and whatever the verifier would say. */
  lemma DoubleSpaceIsAnonymous(token: string, verify: string -> Option<Identity>)
    ensures Authenticate(Some("Bearer  " + token), verify) == Anonymous
  {
    assert "Bearer  " + token == "Bearer" + " " + "" + (" " + token);
    TokenFieldOf("Bearer", "", " " + token);
  }

  /** A bare scheme without a space has no second field: anonymous. */
  lemma SchemeOnlyIsAnonymous(verify: string -> Option<Identity>)
    ensures Authenticate(Some("Bearer"), verify) == Anonymous
  {
    assert ' ' !in "Bearer";
  }
}
