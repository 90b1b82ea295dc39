/**
 * Where the backend finds the session token of a request: the `session_token`
 * cookie first, then an `Authorization: Bearer` header (the scheme of section 2.1
 * of RFC 6750). `get_current_user` and `logout` resolve the token the same way.
 */
module Bearer {
  import opened Common
  import opened Strings

  /** The scheme prefix, matched case-sensitively and including its space. */
  const BearerPrefix: string := "Bearer "

  /** What a request carries that can identify a session. */
  datatype Credentials = Credentials(cookie: Option<string>, authorization: Option<string>)

  /** The header value a client builds for `token`: `Bearer ${token}`. */
  function BearerHeader(token: string): (h: string)
    ensures StartsWith(h, BearerPrefix) && h[|BearerPrefix|..] == token
  {
    BearerPrefix + token
  }

  /**
   * The token a request presents, or `None` when it presents none. A non-empty
   * cookie wins and the header is then never read; otherwise a header starting
   * with "Bearer " yields the header with EVERY "Bearer " removed (Python
   * `str.replace`), and an empty outcome counts as no token.
   */
  function ResolveToken(c: Credentials): (r: Option<string>)
    ensures r.Some? ==> r.value != ""
    ensures Truthy(c.cookie) ==> r == c.cookie
    ensures !Truthy(c.cookie) && r.Some? ==>
      c.authorization.Some? && StartsWith(c.authorization.value, BearerPrefix)
      && r.value == RemoveAll(c.authorization.value, BearerPrefix)
    ensures (!Truthy(c.cookie) && c.authorization.Some? && StartsWith(c.authorization.value, BearerPrefix)
             && RemoveAll(c.authorization.value, BearerPrefix) != "") ==> r.Some?
  {
    if Truthy(c.cookie) then c.cookie
    else if c.authorization.Some? && StartsWith(c.authorization.value, BearerPrefix) then
      var token := RemoveAll(c.authorization.value, BearerPrefix);
      if token != "" then Some(token) else None
    else None
  }

  /**
   * A header a client builds from `token` hands the backend exactly that token
   * if and only if the token is non-empty and holds no "Bearer " of its own.
   */
  lemma HeaderRoundTrip(token: string, cookie: Option<string>)
    requires !Truthy(cookie)
    ensures ResolveToken(Credentials(cookie, Some(BearerHeader(token)))) == Some(token)
        <==> token != "" && !Occurs(token, BearerPrefix)
  {
    RemoveAllPrefix(BearerPrefix, token);
    RemoveAllIdentity(token, BearerPrefix);
  }

  /**
   * Every occurrence is removed, not only the leading one: a token that itself
   * begins with "Bearer " reaches the session lookup without it.
   */
  lemma NestedPrefixRemoved(token: string)
    requires token != "" && !Occurs(token, BearerPrefix)
    ensures ResolveToken(Credentials(None, Some(BearerHeader(BearerHeader(token))))) == Some(token)
  {
    RemoveAllPrefix(BearerPrefix, BearerPrefix + token);
    assert BearerHeader(BearerHeader(token)) == BearerPrefix + (BearerPrefix + token);
    RemoveAllPrefix(BearerPrefix, token);
    RemoveAllAbsent(token, BearerPrefix);
  }
}
