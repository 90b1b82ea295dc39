/**
 * The client's auth session manager: the `user`, `sessionToken` and `loading`
 * state, the `'session_token'` key of the device's key-value storage, and the
 * requests sent to the backend. Each handler is one sequential step; what
 * the network or the system browser answers is a parameter.
 */
module AuthClient {
  import opened Common
  import opened Bearer
  import opened SessionUrl
  import Backend

  /** The storage key holding the session token. */
  const TokenKey: string := "session_token"

  /**
   * What `user` holds. `checkExistingSession` stores the `/api/auth/me`
   * answer, a `users` row with `user_id`; `exchangeSession` stores the
   * session-exchange body less its token, which carries the identity
   * service's `id` and no `user_id`.
   */
  datatype ClientUser =
    | Account(row: Backend.User)
    | Profile(id: string, email: string, name: string, picture: Option<string>)

  /** A request the manager sends to the backend, with its Authorization header. */
  datatype Request =
    | GetMe(authorization: string)          // GET /api/auth/me
    | PostSession(sessionId: string)        // POST /api/auth/session
    | PostLogout(authorization: string)     // POST /api/auth/logout


  /** What the native auth browser session resolved to, or that it threw. */
  datatype BrowserResult = Success(url: string) | Cancel | Dismiss | Opened | Locked | BrowserThrew

  /** The error a handler throws to its caller. */
  datatype AuthError = RequestFailed | BrowserFailed

  /** The stored token, as `AsyncStorage.getItem` reads it. */
  function StoredToken(storage: map<string, string>): (t: Option<string>)
    ensures t.Some? <==> TokenKey in storage
    ensures t.Some? ==> t.value == storage[TokenKey]
  {
    if TokenKey in storage then Some(storage[TokenKey]) else None
  }

  /**
   * `const { session_token, ...userData } = response.data`: the exchange body
   * splits into a profile and the token, and the two together are the body.
   */
  function WithoutToken(d: Backend.SessionData): (u: ClientUser)
    ensures u.Profile?
    ensures Backend.SessionData(u.id, u.email, u.name, u.picture, d.sessionToken) == d
  {
    Profile(d.id, d.email, d.name, d.picture)
  }

  /** `user?.user_id`: only the `/api/auth/me` shape has one. */
  function UserIdOf(u: Option<ClientUser>): (r: Option<string>)
    ensures r.Some? <==> u.Some? && u.value.Account?
    ensures r.Some? ==> r.value == u.value.row.userId
  {
    if u.Some? && u.value.Account? then Some(u.value.row.userId) else None
  }

  class AuthSession {
    var user: Option<ClientUser>
    var sessionToken: Option<string>
    var loading: bool
    var storage: map<string, string>
    var requests: seq<Request>

    /** Whenever a user is held, some session token is held too. */
    ghost predicate Valid()
      reads this
    {
      user.Some? ==> sessionToken.Some?
    }

    /** The provider's initial state, over whatever the storage already holds. */
    constructor (stored: map<string, string>)
      ensures Valid()
      ensures user == None && sessionToken == None && loading && storage == stored && requests == []
    {
      user, sessionToken, loading, storage, requests := None, None, true, stored, [];
    }

    /**
     * `checkExistingSession`, run once at start. A stored non-empty token is
     * taken into `sessionToken` and verified with the backend (`me` is its
     * answer, `None` when the request failed). Success sets `user`; failure
     * removes the stored token and leaves `user`, and `sessionToken` keeps the
     * rejected token. Without a stored token nothing but `loading` changes,
     * and `loading` ends false on every path.
     */
    method CheckExistingSession(me: Option<Backend.User>)
      requires Valid()
      modifies this
      ensures Valid() && !loading
      ensures var stored := StoredToken(old(storage));
        && (!Truthy(stored) ==>
              user == old(user) && sessionToken == old(sessionToken) && storage == old(storage) && requests == old(requests))
        && (Truthy(stored) ==>
              && sessionToken == stored
              && requests == old(requests) + [GetMe(BearerHeader(stored.value))]
              && (me.Some? ==> user == Some(Account(me.value)) && UserIdOf(user) == Some(me.value.userId) && storage == old(storage))
              && (me.None? ==> user == old(user) && storage == old(storage) - {TokenKey} && StoredToken(storage) == None))
    {
      var token := StoredToken(storage);
      if Truthy(token) {
        sessionToken := token;
        requests := requests + [GetMe(BearerHeader(token.value))];
        if me.Some? {
          user := Some(Account(me.value));
        } else {
          storage := storage - {TokenKey};
        }
      }
      loading := false;
    }

    /**
     * `exchangeSession`: posts the one-time id; on success the token is
     * stored and held and `user` is the rest of the response; on failure the
     * error is rethrown and nothing but the request log changes.
     */
    method ExchangeSession(sessionId: string, response: Option<Backend.SessionData>) returns (r: Outcome<AuthError>)
      requires Valid()
      modifies this
      ensures Valid() && loading == old(loading)
      ensures requests == old(requests) + [PostSession(sessionId)]
      ensures response.None? ==>
        r == Fail(RequestFailed) && user == old(user) && sessionToken == old(sessionToken) && storage == old(storage)
      ensures response.Some? ==>
        && r == Pass
        && storage == old(storage)[TokenKey := response.value.sessionToken]
        && sessionToken == Some(response.value.sessionToken)
        && user == Some(WithoutToken(response.value)) && UserIdOf(user) == None
        && StoredToken(storage) == Some(response.value.sessionToken)
    {
      requests := requests + [PostSession(sessionId)];
      if response.None? {
        return Fail(RequestFailed);
      }
      var token := response.value.sessionToken;
      storage := storage[TokenKey := token];
      sessionToken := Some(token);
      user := Some(WithoutToken(response.value));
      r := Pass;
    }

    /**
     * The deep-link handler (and the cold-start URL): exchanges the session
     * id the URL carries, if any. Nothing remembers ids already exchanged, so
     * the same URL delivered twice posts twice.
     */
    method HandleUrl(url: string, response: Option<Backend.SessionData>) returns (r: Outcome<AuthError>)
      requires Valid()
      modifies this
      ensures Valid() && loading == old(loading)
      ensures ExtractSessionId(url).None? ==>
        r == Pass && user == old(user) && sessionToken == old(sessionToken)
        && storage == old(storage) && requests == old(requests)
      ensures ExtractSessionId(url).Some? ==>
        requests == old(requests) + [PostSession(ExtractSessionId(url).value)]
        && (response.None? ==>
              r == Fail(RequestFailed) && user == old(user) && sessionToken == old(sessionToken) && storage == old(storage))
        && (response.Some? ==>
              r == Pass && storage == old(storage)[TokenKey := response.value.sessionToken]
              && sessionToken == Some(response.value.sessionToken) && user == Some(WithoutToken(response.value)))
    {
      var sessionId := ExtractSessionId(url);
      r := Pass;
      if sessionId.Some? {
        r := ExchangeSession(sessionId.value, response);
      }
    }

    /**
     * `login` on a native host: only a `success` result whose URL carries a
     * session id leads to an exchange, whose failure is rethrown; cancel,
     * dismiss and the other results change nothing and raise nothing.
     */
    method LoginNative(result: BrowserResult, response: Option<Backend.SessionData>) returns (r: Outcome<AuthError>)
      requires Valid()
      modifies this
      ensures Valid() && loading == old(loading)
      ensures result.BrowserThrew? ==>
        r == Fail(BrowserFailed) && user == old(user) && sessionToken == old(sessionToken)
        && storage == old(storage) && requests == old(requests)
      ensures !result.BrowserThrew? && !(result.Success? && ExtractSessionId(result.url).Some?) ==>
        r == Pass && user == old(user) && sessionToken == old(sessionToken)
        && storage == old(storage) && requests == old(requests)
      ensures result.Success? && ExtractSessionId(result.url).Some? ==>
        requests == old(requests) + [PostSession(ExtractSessionId(result.url).value)]
        && (response.None? ==>
              r == Fail(RequestFailed) && user == old(user) && sessionToken == old(sessionToken) && storage == old(storage))
        && (response.Some? ==>
              r == Pass && storage == old(storage)[TokenKey := response.value.sessionToken]
              && sessionToken == Some(response.value.sessionToken) && user == Some(WithoutToken(response.value)))
    {
      if result.BrowserThrew? {
        return Fail(BrowserFailed);
      }
      r := Pass;
      if result.Success? && result.url != "" {
        var sessionId := ExtractSessionId(result.url);
        if sessionId.Some? {
          r := ExchangeSession(sessionId.value, response);
        }
      }
    }

    /**
     * `logout`: tells the backend only when a non-empty token is held (a
     * failure there is caught and logged, so its outcome changes nothing),
     * then always removes the stored token and clears `sessionToken` and
     * `user`.
     */
    method Logout()
      requires Valid()
      modifies this
      ensures Valid()
      ensures requests == old(requests) +
        if Truthy(old(sessionToken)) then [PostLogout(BearerHeader(old(sessionToken).value))] else []
      ensures storage == old(storage) - {TokenKey} && StoredToken(storage) == None
      ensures sessionToken == None && user == None && loading == old(loading)
    {
      if Truthy(sessionToken) {
        requests := requests + [PostLogout(BearerHeader(sessionToken.value))];
      }
      storage := storage - {TokenKey};
      sessionToken := None;
      user := None;
    }
  }
}
