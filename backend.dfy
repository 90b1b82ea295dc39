/**
 * The backend's session and ownership rules: resolving the caller from the
 * `users` and `user_sessions` tables, the session exchange and logout
 * endpoints, and the owner-scoped trip, vehicle and expense endpoints. Tables
 * are maps from their unique key to the rest of the row; time is a count of
 * seconds.
 */
module Backend {
  import opened Common
  import opened Strings
  import opened Bearer
  import opened TripUpdates

  /** `timedelta(days=7)`, the lifetime of a new session. */
  const SessionLifetime: int := 7 * 24 * 60 * 60

  /** A `users` row keyed by `user_id` (`created_at` is not modelled). */
  datatype UserRow = UserRow(email: string, name: string, picture: Option<string>)

  /** The authenticated caller, as `get_current_user` returns it. */
  datatype User = User(userId: string, email: string, name: string, picture: Option<string>)

  /** A `user_sessions` row keyed by its UNIQUE `session_token`. */
  datatype SessionRow = SessionRow(userId: string, expiresAt: int)

  /** A `vehicles` row keyed by `vehicle_id` (make, model, year, percentage not modelled). */
  datatype VehicleRow = VehicleRow(userId: string, name: string)

  /** An `expenses` row keyed by `expense_id` (amount, category, date, notes, receipt not modelled). */
  datatype ExpenseRow = ExpenseRow(userId: string, vehicleId: Option<string>)

  /** The body the upstream identity service returns for a one-time `session_id`. */
  datatype SessionData = SessionData(id: string, email: string, name: string, picture: Option<string>, sessionToken: string)

  /** What the upstream session-data call gave: a failure of any kind, or a body. */
  datatype Upstream = UpstreamFailed | UpstreamOk(data: SessionData)

  /** The body of `POST /api/trips`. */
  datatype TripCreate = TripCreate(
    vehicleId: Option<string>,
    startTime: int,
    endTime: Option<int>,
    distance: real,
    startLocation: Option<string>,
    endLocation: Option<string>,
    purpose: Option<string>,
    isBusiness: bool,
    isAutomatic: bool)

  const NotAuthenticated := HttpError(401, "Not authenticated")
  /** An error the handler does not catch: FastAPI answers 500. */
  const InternalError := HttpError(500, "Internal Server Error")

  /** The UNIQUE constraint on `users.email`. */
  predicate UniqueEmails(users: map<string, UserRow>)
  {
    forall a, b :: a in users && b in users && users[a].email == users[b].email ==> a == b
  }

  /** A nullable `vehicle_id` column satisfies its foreign key. */
  predicate VehicleRef(vehicleId: Option<string>, vehicles: map<string, VehicleRow>)
  {
    vehicleId.None? || vehicleId.value in vehicles
  }

  /** `SELECT user_id FROM users WHERE email = $1`. */
  function EmailOwner(users: map<string, UserRow>, email: string): (r: Option<string>)
    requires UniqueEmails(users)
    ensures r.Some? ==> r.value in users && users[r.value].email == email
    ensures r.None? ==> forall uid :: uid in users ==> users[uid].email != email
  {
    if exists uid :: uid in users && users[uid].email == email then
      var uid :| uid in users && users[uid].email == email;
      Some(uid)
    else
      None
  }

  /**
   * `get_current_user`: no user without a token, without a session row for it,
   * or once the row's expiry lies strictly before `now`; a session expiring
   * exactly at `now` is still accepted.
   */
  function CurrentUser(users: map<string, UserRow>, sessions: map<string, SessionRow>, cred: Credentials, now: int): (r: Option<User>)
    ensures ResolveToken(cred).None? ==> r.None?
    ensures ResolveToken(cred).Some? && ResolveToken(cred).value !in sessions ==> r.None?
    ensures (ResolveToken(cred).Some? && ResolveToken(cred).value in sessions
             && sessions[ResolveToken(cred).value].expiresAt < now) ==> r.None?
    ensures (ResolveToken(cred).Some? && ResolveToken(cred).value in sessions
             && now <= sessions[ResolveToken(cred).value].expiresAt
             && sessions[ResolveToken(cred).value].userId in users) ==> r.Some?
    ensures r.Some? ==>
      && ResolveToken(cred).Some? && ResolveToken(cred).value in sessions
      && sessions[ResolveToken(cred).value].userId in users
      && var s := sessions[ResolveToken(cred).value];
         var row := users[s.userId];
         r.value == User(s.userId, row.email, row.name, row.picture)
  {
    match ResolveToken(cred)
    case None => None
    case Some(token) =>
      if token !in sessions then None
      else
        var session := sessions[token];
        if session.expiresAt < now then None
        else if session.userId !in users then None
        else
          var row := users[session.userId];
          Some(User(session.userId, row.email, row.name, row.picture))
  }

  /** `require_auth`: a 401 exactly when there is no current user, else that user. */
  function RequireAuth(users: map<string, UserRow>, sessions: map<string, SessionRow>, cred: Credentials, now: int): (r: Result<User, HttpError>)
    ensures r.Err? <==> CurrentUser(users, sessions, cred, now).None?
    ensures r.Err? ==> r.error == NotAuthenticated
    ensures r.Ok? ==> CurrentUser(users, sessions, cred, now) == Some(r.value) && r.value.userId in users
  {
    match CurrentUser(users, sessions, cred, now)
    case None => Err(NotAuthenticated)
    case Some(user) => Ok(user)
  }

  /**
   * A session row written at `issued` by the exchange lets its token in, as a
   * cookie, at every moment up to and including `issued + SessionLifetime`,
   * and at none after. As a Bearer header the same holds for a token that
   * does not contain "Bearer ", which the header resolution would strip.
   */
  lemma SessionWindow(users: map<string, UserRow>, sessions: map<string, SessionRow>, token: string, uid: string, issued: int, t: int)
    requires token != "" && token in sessions && sessions[token] == SessionRow(uid, issued + SessionLifetime)
    requires uid in users
    ensures CurrentUser(users, sessions, Credentials(Some(token), None), t).Some? <==> t <= issued + SessionLifetime
    ensures !Occurs(token, BearerPrefix) ==>
      (CurrentUser(users, sessions, Credentials(None, Some(BearerHeader(token))), t).Some? <==> t <= issued + SessionLifetime)
  {
    HeaderRoundTrip(token, None);
  }

  /** A caller accepted at `now` was accepted at every earlier moment. */
  lemma AcceptedEarlier(users: map<string, UserRow>, sessions: map<string, SessionRow>, cred: Credentials, now: int, earlier: int)
    requires earlier <= now && CurrentUser(users, sessions, cred, now).Some?
    ensures CurrentUser(users, sessions, cred, earlier) == CurrentUser(users, sessions, cred, now)
  {
  }

  /** `trips` with every reference to `vehicleId` set to null (ON DELETE SET NULL). */
  function DetachTrips(trips: map<string, TripRow>, vehicleId: string): (r: map<string, TripRow>)
    ensures r.Keys == trips.Keys
    ensures forall k :: k in r ==> r[k].vehicleId != Some(vehicleId) && r[k] == trips[k].(vehicleId := r[k].vehicleId)
    ensures forall k :: k in r && trips[k].vehicleId == Some(vehicleId) ==> r[k].vehicleId == None
    ensures forall k :: k in r && trips[k].vehicleId != Some(vehicleId) ==> r[k] == trips[k]
  {
    map k | k in trips :: if trips[k].vehicleId == Some(vehicleId) then trips[k].(vehicleId := None) else trips[k]
  }

  /** `expenses` with every reference to `vehicleId` set to null (ON DELETE SET NULL). */
  function DetachExpenses(expenses: map<string, ExpenseRow>, vehicleId: string): (r: map<string, ExpenseRow>)
    ensures r.Keys == expenses.Keys
    ensures forall k :: k in r ==> r[k].vehicleId != Some(vehicleId) && r[k] == expenses[k].(vehicleId := r[k].vehicleId)
    ensures forall k :: k in r && expenses[k].vehicleId == Some(vehicleId) ==> r[k].vehicleId == None
    ensures forall k :: k in r && expenses[k].vehicleId != Some(vehicleId) ==> r[k] == expenses[k]
  {
    map k | k in expenses :: if expenses[k].vehicleId == Some(vehicleId) then expenses[k].(vehicleId := None) else expenses[k]
  }

  /** Nulling the references to a deleted vehicle keeps every foreign key satisfied. */
  lemma DetachKeepsReferences(users: map<string, UserRow>, vehicles: map<string, VehicleRow>,
                              trips: map<string, TripRow>, expenses: map<string, ExpenseRow>, vehicleId: string)
    requires forall k :: k in trips ==> trips[k].userId in users && VehicleRef(trips[k].vehicleId, vehicles)
    requires forall k :: k in expenses ==> expenses[k].userId in users && VehicleRef(expenses[k].vehicleId, vehicles)
    ensures var ts := DetachTrips(trips, vehicleId);
      forall k :: k in ts ==> ts[k].userId in users && VehicleRef(ts[k].vehicleId, vehicles - {vehicleId})
    ensures var es := DetachExpenses(expenses, vehicleId);
      forall k :: k in es ==> es[k].userId in users && VehicleRef(es[k].vehicleId, vehicles - {vehicleId})
  {
  }

  /** The database: one map per table the core reads or writes. */
  class Database {
    var users: map<string, UserRow>
    var sessions: map<string, SessionRow>
    var vehicles: map<string, VehicleRow>
    var trips: map<string, TripRow>
    var expenses: map<string, ExpenseRow>

    /** The UNIQUE and REFERENCES constraints of the schema. */
    ghost predicate Valid()
      reads this
    {
      && UniqueEmails(users)
      && (forall t :: t in sessions ==> sessions[t].userId in users)
      && (forall v :: v in vehicles ==> vehicles[v].userId in users)
      && (forall k :: k in trips ==> trips[k].userId in users && VehicleRef(trips[k].vehicleId, vehicles))
      && (forall k :: k in expenses ==> expenses[k].userId in users && VehicleRef(expenses[k].vehicleId, vehicles))
    }

    constructor ()
      ensures Valid()
      ensures users == map[] && sessions == map[] && vehicles == map[] && trips == map[] && expenses == map[]
    {
      users, sessions, vehicles, trips, expenses := map[], map[], map[], map[], map[];
    }

    /**
     * `POST /api/auth/session`. A missing or empty `session_id` and a failed
     * upstream call are 400s that touch no table. Otherwise the user with the
     * upstream email is reused, or one row is added under the fresh id, and
     * one session row for that user expiring a week from `now` is added. A
     * token already in `user_sessions` breaks its UNIQUE constraint: a 500,
     * after the user row (if new) was already written.
     */
    method ExchangeSession(sessionId: Option<string>, upstream: Upstream, freshUserId: string, now: int)
      returns (r: Result<SessionData, HttpError>)
      requires Valid() && freshUserId !in users
      modifies this
      ensures Valid()
      ensures vehicles == old(vehicles) && trips == old(trips) && expenses == old(expenses)
      ensures !Truthy(sessionId) ==>
        r == Err(HttpError(400, "session_id required")) && users == old(users) && sessions == old(sessions)
      ensures Truthy(sessionId) && upstream.UpstreamFailed? ==>
        r == Err(HttpError(400, "Invalid session_id")) && users == old(users) && sessions == old(sessions)
      ensures Truthy(sessionId) && upstream.UpstreamOk? ==>
        var d := upstream.data;
        var owner := EmailOwner(old(users), d.email);
        var uid := if owner.Some? then owner.value else freshUserId;
        && users == (if owner.Some? then old(users) else old(users)[freshUserId := UserRow(d.email, d.name, d.picture)])
        && (d.sessionToken !in old(sessions) ==>
              sessions == old(sessions)[d.sessionToken := SessionRow(uid, now + SessionLifetime)] && r == Ok(d))
        && (d.sessionToken in old(sessions) ==> sessions == old(sessions) && r == Err(InternalError))
    {
      if !Truthy(sessionId) {
        return Err(HttpError(400, "session_id required"));
      }
      if upstream.UpstreamFailed? {
        return Err(HttpError(400, "Invalid session_id"));
      }
      var data := upstream.data;
      var userId := freshUserId;
      var existing := EmailOwner(users, data.email);
      if existing.Some? {
        userId := existing.value;
      } else {
        users := users[userId := UserRow(data.email, data.name, data.picture)];
      }
      if data.sessionToken in sessions {
        return Err(InternalError);
      }
      sessions := sessions[data.sessionToken := SessionRow(userId, now + SessionLifetime)];
      r := Ok(data);
    }

    /**
     * `POST /api/auth/logout`: deletes the session row of the resolved token,
     * if any, leaves every other row, and always answers "Logged out".
     */
    method Logout(cred: Credentials) returns (message: string)
      requires Valid()
      modifies this
      ensures Valid()
      ensures message == "Logged out"
      ensures sessions == if ResolveToken(cred).Some? then old(sessions) - {ResolveToken(cred).value} else old(sessions)
      ensures users == old(users) && vehicles == old(vehicles) && trips == old(trips) && expenses == old(expenses)
    {
      var token := ResolveToken(cred);
      if token.Some? {
        sessions := sessions - {token.value};
      }
      message := "Logged out";
    }

    /**
     * `POST /api/trips`: inserts the body under a fresh id, owned by the
     * caller; a `vehicle_id` naming no vehicle breaks its foreign key.
     */
    method CreateTrip(cred: Credentials, now: int, body: TripCreate, freshTripId: string)
      returns (r: Result<TripRow, HttpError>)
      requires Valid() && freshTripId !in trips
      modifies this
      ensures Valid()
      ensures users == old(users) && sessions == old(sessions) && vehicles == old(vehicles) && expenses == old(expenses)
      ensures var auth := RequireAuth(old(users), old(sessions), cred, now);
        && (auth.Err? ==> r == Err(NotAuthenticated) && trips == old(trips))
        && (auth.Ok? && !VehicleRef(body.vehicleId, old(vehicles)) ==> r == Err(InternalError) && trips == old(trips))
        && (auth.Ok? && VehicleRef(body.vehicleId, old(vehicles)) ==>
              var row := TripRow(auth.value.userId, body.vehicleId, body.startTime, body.endTime, body.distance,
                                 body.startLocation, body.endLocation, body.purpose, body.isBusiness, body.isAutomatic);
              r == Ok(row) && trips == old(trips)[freshTripId := row])
    {
      var auth := RequireAuth(users, sessions, cred, now);
      if auth.Err? {
        return Err(auth.error);
      }
      if !VehicleRef(body.vehicleId, vehicles) {
        return Err(InternalError);
      }
      var row := TripRow(auth.value.userId, body.vehicleId, body.startTime, body.endTime, body.distance,
                         body.startLocation, body.endLocation, body.purpose, body.isBusiness, body.isAutomatic);
      trips := trips[freshTripId := row];
      r := Ok(row);
    }

    /**
     * `PUT /api/trips/{trip_id}`: 401 without a caller, 400 when no field is
     * non-null, 404 when the caller owns no such trip, 500 when the new
     * `vehicle_id` names no vehicle; otherwise the row becomes the typed
     * update of itself and is returned. Only that row can change.
     */
    method UpdateTrip(cred: Credentials, now: int, tripId: string, u: TripUpdate)
      returns (r: Result<TripRow, HttpError>)
      requires Valid()
      modifies this
      ensures Valid()
      ensures users == old(users) && sessions == old(sessions) && vehicles == old(vehicles) && expenses == old(expenses)
      ensures var auth := RequireAuth(old(users), old(sessions), cred, now);
        && (auth.Err? ==> r == Err(NotAuthenticated) && trips == old(trips))
        && (auth.Ok? && Provided(u) == [] ==> r == Err(HttpError(400, "No fields to update")) && trips == old(trips))
        && (auth.Ok? && Provided(u) != [] && !(tripId in old(trips) && old(trips)[tripId].userId == auth.value.userId) ==>
              r == Err(HttpError(404, "Trip not found")) && trips == old(trips))
        && ((auth.Ok? && Provided(u) != [] && tripId in old(trips) && old(trips)[tripId].userId == auth.value.userId
             && !VehicleRef(u.vehicleId, old(vehicles))) ==> r == Err(InternalError) && trips == old(trips))
        && ((auth.Ok? && Provided(u) != [] && tripId in old(trips) && old(trips)[tripId].userId == auth.value.userId
             && VehicleRef(u.vehicleId, old(vehicles))) ==>
              var row := ApplyUpdate(old(trips)[tripId], u);
              r == Ok(row) && trips == old(trips)[tripId := row])
    {
      var auth := RequireAuth(users, sessions, cred, now);
      if auth.Err? {
        return Err(auth.error);
      }
      var built := BuildUpdateQuery(u, tripId, auth.value.userId);
      if built.Err? {
        return Err(built.error);
      }
      var q := built.value;
      // WHERE trip_id = $k+1 AND user_id = $k+2
      var owned := tripId in trips && trips[tripId].userId == auth.value.userId;
      if !owned {
        return Err(HttpError(404, "Trip not found"));
      }
      if !VehicleRef(u.vehicleId, vehicles) {
        return Err(InternalError);
      }
      var row := Execute(trips[tripId], q.assignments, q.values);
      ExecuteMeansApply(trips[tripId], q, u, tripId, auth.value.userId);
      trips := trips[tripId := row];
      r := Ok(row);
    }

    /** `DELETE /api/trips/{trip_id}`: removes the caller's trip, or 404 and nothing changes. */
    method DeleteTrip(cred: Credentials, now: int, tripId: string) returns (r: Result<string, HttpError>)
      requires Valid()
      modifies this
      ensures Valid()
      ensures users == old(users) && sessions == old(sessions) && vehicles == old(vehicles) && expenses == old(expenses)
      ensures var auth := RequireAuth(old(users), old(sessions), cred, now);
        && (auth.Err? ==> r == Err(NotAuthenticated) && trips == old(trips))
        && (auth.Ok? && !(tripId in old(trips) && old(trips)[tripId].userId == auth.value.userId) ==>
              r == Err(HttpError(404, "Trip not found")) && trips == old(trips))
        && (auth.Ok? && tripId in old(trips) && old(trips)[tripId].userId == auth.value.userId ==>
              r == Ok("Trip deleted") && trips == old(trips) - {tripId})
    {
      var auth := RequireAuth(users, sessions, cred, now);
      if auth.Err? {
        return Err(auth.error);
      }
      if !(tripId in trips && trips[tripId].userId == auth.value.userId) {
        return Err(HttpError(404, "Trip not found"));
      }
      trips := trips - {tripId};
      r := Ok("Trip deleted");
    }

    /** `DELETE /api/expenses/{expense_id}`: removes the caller's expense, or 404 and nothing changes. */
    method DeleteExpense(cred: Credentials, now: int, expenseId: string) returns (r: Result<string, HttpError>)
      requires Valid()
      modifies this
      ensures Valid()
      ensures users == old(users) && sessions == old(sessions) && vehicles == old(vehicles) && trips == old(trips)
      ensures var auth := RequireAuth(old(users), old(sessions), cred, now);
        && (auth.Err? ==> r == Err(NotAuthenticated) && expenses == old(expenses))
        && (auth.Ok? && !(expenseId in old(expenses) && old(expenses)[expenseId].userId == auth.value.userId) ==>
              r == Err(HttpError(404, "Expense not found")) && expenses == old(expenses))
        && (auth.Ok? && expenseId in old(expenses) && old(expenses)[expenseId].userId == auth.value.userId ==>
              r == Ok("Expense deleted") && expenses == old(expenses) - {expenseId})
    {
      var auth := RequireAuth(users, sessions, cred, now);
      if auth.Err? {
        return Err(auth.error);
      }
      if !(expenseId in expenses && expenses[expenseId].userId == auth.value.userId) {
        return Err(HttpError(404, "Expense not found"));
      }
      expenses := expenses - {expenseId};
      r := Ok("Expense deleted");
    }

    /**
     * `DELETE /api/vehicles/{vehicle_id}`: removes the caller's vehicle and
     * nulls every trip's and expense's reference to it, or 404 and nothing
     * changes.
     */
    method DeleteVehicle(cred: Credentials, now: int, vehicleId: string) returns (r: Result<string, HttpError>)
      requires Valid()
      modifies this
      ensures Valid()
      ensures users == old(users) && sessions == old(sessions)
      ensures var auth := RequireAuth(old(users), old(sessions), cred, now);
        && (auth.Err? ==>
              r == Err(NotAuthenticated) && vehicles == old(vehicles) && trips == old(trips) && expenses == old(expenses))
        && (auth.Ok? && !(vehicleId in old(vehicles) && old(vehicles)[vehicleId].userId == auth.value.userId) ==>
              r == Err(HttpError(404, "Vehicle not found"))
              && vehicles == old(vehicles) && trips == old(trips) && expenses == old(expenses))
        && (auth.Ok? && vehicleId in old(vehicles) && old(vehicles)[vehicleId].userId == auth.value.userId ==>
              r == Ok("Vehicle deleted") && vehicles == old(vehicles) - {vehicleId}
              && trips == DetachTrips(old(trips), vehicleId) && expenses == DetachExpenses(old(expenses), vehicleId))
    {
      var auth := RequireAuth(users, sessions, cred, now);
      if auth.Err? {
        return Err(auth.error);
      }
      if !(vehicleId in vehicles && vehicles[vehicleId].userId == auth.value.userId) {
        return Err(HttpError(404, "Vehicle not found"));
      }
      DetachKeepsReferences(users, vehicles, trips, expenses, vehicleId);
      vehicles := vehicles - {vehicleId};
      trips := DetachTrips(trips, vehicleId);
      expenses := DetachExpenses(expenses, vehicleId);
      r := Ok("Vehicle deleted");
    }
  }
}
