/**
 * `parseAuthToken`: reads an optional bearer token from the `Authorization`
 * header and records the verified user, or `null`, on the request. It never
 * rejects a request: every path records `req.auth` and then calls `next`.
 */
module AuthMiddleware {
  import opened Wrappers
  import opened Text
  import opened JsValues

  const BearerPrefix: string := "Bearer "

  /** The value stored in `req.auth`: `null`, or `{userId}` from the token's `sub` claim. */
  datatype AuthInfo = Anonymous | Authenticated(userId: JsValue)

  /**
   * What the middleware hands to `next`. There is no rejecting variant: the
   * request is always passed on, with `req.auth` set.
   */
  datatype Forwarded = Next(auth: AuthInfo)

  /**
   * `authHeader.split(' ')[1]` for a header that starts with "Bearer ": the
   * text after the prefix up to the next single space or the end of the
   * header, so it is empty when a second space follows at once.
   */
  function BearerToken(header: string): (token: string)
    requires StartsWith(header, BearerPrefix)
    ensures StartsWith(header[|BearerPrefix|..], token)
    ensures ' ' !in token
    ensures |token| == |header| - |BearerPrefix| || header[|BearerPrefix| + |token|] == ' '
  {
    SplitBearer(header);
    SplitFirstPiece(header[|BearerPrefix|..], ' ');
    Split(header, ' ')[1]
  }

  lemma SplitBearer(header: string)
    requires StartsWith(header, BearerPrefix)
    ensures |Split(header, ' ')| >= 2
    ensures Split(header, ' ')[1] == Split(header[|BearerPrefix|..], ' ')[0]
  {
    var after := header[|BearerPrefix|..];
    assert header == "Bearer" + (" " + after);
    SplitPiece("Bearer", " " + after, ' ');
    assert (" " + after)[1..] == after;
  }

  /** "Bearer a b" yields "a"; "Bearer " and "Bearer  x" yield the empty token. */
  lemma TokenExamples()
    ensures BearerToken("Bearer a b") == "a"
    ensures BearerToken("Bearer ") == ""
    ensures BearerToken("Bearer  x") == ""
  {
    assert "Bearer a b"[7..] == "a b";
    assert "Bearer  x"[7..] == " x";
  }

  /**
   * The middleware. `header` is `req.headers.authorization`; `verify` is
   * `jwt.verify` with the configured public key, `None` when it throws.
   * Reading `sub` from a `null` payload throws too and lands in the same
   * catch, so the request is then forwarded anonymously.
   */
  function ParseAuthToken(header: Option<string>, verify: string -> Option<JsValue>): (r: Forwarded)
    ensures header.None? || !StartsWith(header.value, BearerPrefix) ==> r.auth == Anonymous
    ensures r.auth.Authenticated? <==>
      && header.Some? && StartsWith(header.value, BearerPrefix)
      && BearerToken(header.value) != ""
      && verify(BearerToken(header.value)).Some?
      && !verify(BearerToken(header.value)).value.JNull?
      && !verify(BearerToken(header.value)).value.JUndefined?
    ensures r.auth.Authenticated? ==> r.auth.userId == Get(verify(BearerToken(header.value)).value, "sub")
  {
    if header.None? || header.value == "" || !StartsWith(header.value, BearerPrefix) then Next(Anonymous)
    else
      var token := BearerToken(header.value);
      if token == "" then Next(Anonymous)
      else
        match verify(token)
        case None => Next(Anonymous)
        case Some(decoded) =>
          if decoded.JNull? || decoded.JUndefined? then Next(Anonymous)
          else Next(Authenticated(Get(decoded, "sub")))
  }

  /** A header whose token is empty is anonymous whatever the verifier would say. */
  lemma EmptyTokenIsAnonymous(rest: string, verify: string -> Option<JsValue>)
    requires |rest| == 0 || rest[0] == ' '
    ensures ParseAuthToken(Some(BearerPrefix + rest), verify).auth == Anonymous
  {
    var header := BearerPrefix + rest;
    assert StartsWith(header, BearerPrefix);
    assert header[|BearerPrefix|..] == rest;
  }
}
