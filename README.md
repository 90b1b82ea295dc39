# Ledger mileage tracker: session, ownership and trip-tracking rules in Dafny

This project models the stateful core of a mileage- and expense-tracking app for drivers.
It covers three pieces.

- **Backend session and ownership rules** (`backend/server.py`). The caller is resolved from
  a `session_token` cookie or an `Authorization: Bearer` header (section 2.1 of RFC 6750).
  The session exchange reuses or inserts the user by email and adds a seven-day session. Logout deletes
  the caller's session row. `update_trip` builds its SET clause in a loop. The update and
  delete endpoints only update or delete rows the caller owns and answer 404 otherwise;
  deleting a vehicle also nulls every trip's and expense's reference to it, whoever owns them. The `users`,
  `user_sessions`, `vehicles`, `trips` and `expenses` tables are maps held by the class
  `Backend.Database`.
- **Client auth session manager** (`frontend/contexts/AuthContext.tsx`). `extractSessionId`
  scans a callback URL. The class `AuthClient.AuthSession` holds `user`, `sessionToken`,
  `loading`, the device storage and a log of requests sent to the backend.
- **Client trip-tracking manager** (`frontend/contexts/LocationContext.tsx`). The class
  `Tracking.Tracker` holds `hasPermission`, `isTracking`, `currentTrip` and the system's
  registration of the background location task. It also logs every system and backend call
  in order.

The network, the system, the upstream identity service, the clock and uuid generation are
not modelled as code. Their answers are parameters: `now` is an `int` count of seconds,
and fresh ids are arguments that must not be in their table yet.

Files: `common.dfy` (Option, Result, Outcome, HttpError), `strings.dfy` (Python
`startswith` and `replace`), `bearer.dfy`, `trip_update.dfy`, `backend.dfy`,
`session_url.dfy`, `auth_client.dfy`, `tracking.dfy`.

The model follows the code as written:
- Session ids are not deduplicated: `HandleUrl` posts every time the same URL arrives.
- `StartTracking` never looks at `isTracking`, so each successful call opens another server
  trip and drops the previous one.
- `sessionToken` keeps a stored token that failed verification.
- `user` has two shapes. After `checkExistingSession` it is the `users` row, which has `user_id`. After `exchangeSession` it is the exchange body without its token, which has `id` and no `user_id`, so `user?.user_id` is then undefined.
- Every stopped trip reports the fixed distance 5.0. Location updates are only logged.
- `StopTracking` does not retry the PUT.
- `login` does not refuse a second login that starts while one is in progress.
- The header token is the header with every `"Bearer "` removed, not just the leading one.
- Inserting a session token that already exists breaks the UNIQUE constraint on
  `user_sessions.session_token` (backend/server.py:183). The statements run without a
  transaction, so `ExchangeSession` answers 500 and keeps a user row it inserted just before.
- A `vehicle_id` that names no vehicle breaks its foreign key (500). Deleting a vehicle
  nulls the references to it (`ON DELETE SET NULL`, backend/server.py:208 and 226).
- Creating or updating a trip checks `vehicle_id` only against the foreign key, not against
  the caller's own vehicles. A trip can therefore reference another user's vehicle, and when
  that owner deletes the vehicle, the trip's `vehicle_id` becomes null.
- The exchange reuses an existing user row as it is; its name and picture are never updated
  from the identity service.

## Model

| member | source | states |
|---|---|---|
| `Strings.RemoveAll` | backend/server.py:245 | Python `str.replace(p, "")` drops every non-overlapping occurrence scanning from the left; the result is never longer |
| `Strings.RemoveAllAbsent` | backend/server.py:245 | a header remainder without "Bearer " comes back unchanged |
| `Strings.RemoveAllPresent` | backend/server.py:245 | a string containing "Bearer " gets strictly shorter |
| `Strings.RemoveAllIdentity` | backend/server.py:245 | `replace` leaves the string unchanged if and only if the pattern does not occur in it |
| `Strings.RemoveAllPrefix` | backend/server.py:244-245 | a leading "Bearer " is dropped and the scan resumes after it |
| `Bearer.BearerHeader` | frontend/contexts/AuthContext.tsx:85 | the client header `Bearer ${token}` starts with the scheme prefix and is followed by exactly the token |
| `Bearer.ResolveToken` | backend/server.py:241-248 | a non-empty cookie wins and the header is ignored; otherwise only a header starting with "Bearer " gives a token, namely the header with every "Bearer " removed; an empty outcome is no token |
| `Bearer.HeaderRoundTrip` | backend/server.py:351-355 | without a cookie, a client-built header gives the backend exactly the client's token if and only if the token is non-empty and contains no "Bearer " |
| `Bearer.NestedPrefixRemoved` | backend/server.py:245 | a token that itself starts with "Bearer " loses that prefix on its way to the session lookup |
| `TripUpdates.Fields` | backend/server.py:120-128 | the update's fields are exactly the eight `TripUpdate` columns, in declaration order |
| `TripUpdates.BuildUpdateQuery` | backend/server.py:449-463 | fails with 400 "No fields to update" exactly when no field is non-null; otherwise the i-th assignment sets the i-th non-null field from `$i+1`, the trip id is `$k+1`, the user id is `$k+2`, and there are k+2 values |
| `TripUpdates.ProvidedExactly` | backend/server.py:453-457 | the SET clause names a column with a value exactly when it is a `TripUpdate` field given that non-null value, so `is_automatic` never appears |
| `TripUpdates.ExecuteMeansApply` | backend/server.py:463-465 | running the built SET clause against a trip row gives the row with every provided field replaced and every other column kept |
| `Backend.EmailOwner` | backend/server.py:309-312 | finds the user whose email matches, or reports that no user has it |
| `Backend.CurrentUser` | backend/server.py:247-273 | no user without a token, without a session row, or when the row expires strictly before now; a session expiring exactly now is accepted and yields its user's row |
| `Backend.RequireAuth` | backend/server.py:275-279 | 401 "Not authenticated" exactly when there is no current user; otherwise that user |
| `Backend.SessionWindow` | backend/server.py:262 | a session written by the exchange at time `issued` admits its token as a cookie exactly up to and including `issued` plus seven days, and as a Bearer header likewise when the token contains no "Bearer " |
| `Backend.AcceptedEarlier` | backend/server.py:262 | a caller accepted at some moment was accepted with the same user at every earlier moment |
| `Backend.DetachTrips` | backend/server.py:208 | after a vehicle is deleted no trip references it: the trips that did now hold null, every other trip is unchanged, and no column but `vehicle_id` changes |
| `Backend.DetachExpenses` | backend/server.py:226 | the same for expenses: none references the deleted vehicle afterwards, and only `vehicle_id` ever changes |
| `Backend.Database.ExchangeSession` | backend/server.py:283-343 | a missing or empty id is a 400, and so is a failed upstream call, with no table changed; otherwise the user with that email is reused or exactly one user row is added, then exactly one session row for that user expiring at now plus seven days is added, or 500 if the token already exists; the schema constraints are kept |
| `Backend.Database.Logout` | backend/server.py:350-366 | deletes only the session row of the resolved token, if any, keeps every other row, and always answers "Logged out" |
| `Backend.Database.CreateTrip` | backend/server.py:413-432 | 401 without a caller and 500 for an unknown vehicle, both leaving the table alone; otherwise exactly one row, owned by the caller and carrying the body's flags, is added under the fresh id |
| `Backend.Database.UpdateTrip` | backend/server.py:445-470 | 401, then 400 with no non-null field, then 404 when the caller owns no such trip, then 500 for an unknown vehicle, each changing nothing; otherwise only that row changes, to the typed update of itself, and it is returned |
| `Backend.Database.DeleteTrip` | backend/server.py:473-482 | removes the caller's trip, or answers 404 "Trip not found" and changes nothing |
| `Backend.Database.DeleteExpense` | backend/server.py:517-526 | removes the caller's expense, or answers 404 "Expense not found" and changes nothing |
| `Backend.Database.DeleteVehicle` | backend/server.py:400-409 | removes the caller's vehicle and nulls the references to it, or answers 404 "Vehicle not found" and changes nothing |
| `SessionUrl.Run` | frontend/contexts/AuthContext.tsx:68 | the captured value is the longest prefix free of `&`, ended by `&` or by the end of the URL |
| `SessionUrl.FirstMatch` | frontend/contexts/AuthContext.tsx:72 | finds the leftmost index where the pattern matches, or reports that it matches nowhere |
| `SessionUrl.ExtractSessionId` | frontend/contexts/AuthContext.tsx:66-76 | a found id is non-empty and contains no `&` |
| `SessionUrl.FoundIffMatch` | frontend/contexts/AuthContext.tsx:68-75 | an id is found exactly when `#session_id=` or `?`/`&` followed by `session_id=` matches somewhere with a value; otherwise null |
| `SessionUrl.FragmentWins` | frontend/contexts/AuthContext.tsx:68-69 | the leftmost fragment match decides the id, whatever query match the URL also holds |
| `SessionUrl.QueryFallback` | frontend/contexts/AuthContext.tsx:72-73 | without a fragment match, the leftmost `?session_id=` or `&session_id=` decides the id |
| `AuthClient.StoredToken` | frontend/contexts/AuthContext.tsx:80 | reads the `'session_token'` storage key, absent when the key is missing |
| `AuthClient.WithoutToken` | frontend/contexts/AuthContext.tsx:103 | the exchange body splits into a profile holding `id`, `email`, `name` and `picture`, plus the token, and nothing is lost in the split |
| `AuthClient.UserIdOf` | frontend/contexts/AuthContext.tsx:103-107 | `user?.user_id`, which the settings screen reads, is defined only when `user` holds the `/api/auth/me` row, and is then that row's id; the exchanged profile set at these lines has none |
| `AuthClient.AuthSession.constructor` | frontend/contexts/AuthContext.tsx:29-31 | no user, no token, loading |
| `AuthClient.AuthSession.CheckExistingSession` | frontend/contexts/AuthContext.tsx:78-95 | with no stored token only `loading` changes; a stored token is held and verified; success sets `user` to the `/api/auth/me` row, which carries `user_id`; failure removes the storage key, so the next start reads no token, leaves `user`, and keeps the token in `sessionToken`; `loading` ends false on every path |
| `AuthClient.AuthSession.ExchangeSession` | frontend/contexts/AuthContext.tsx:97-112 | success stores and holds the returned token, so the next start reads it back, and sets `user` to the response minus its token; that shape has `id` but no `user_id`; failure is rethrown with no state or storage changed |
| `AuthClient.AuthSession.HandleUrl` | frontend/contexts/AuthContext.tsx:40-46 | a URL with a session id is exchanged every time it arrives; one without changes nothing |
| `AuthClient.AuthSession.LoginNative` | frontend/contexts/AuthContext.tsx:127-139 | a browser session that throws is rethrown with nothing changed; only a `success` result whose URL carries a session id leads to an exchange, whose failure is rethrown; cancel, dismiss and the other results change nothing and raise nothing |
| `AuthClient.AuthSession.Logout` | frontend/contexts/AuthContext.tsx:142-156 | the backend is called only when a non-empty token is held; afterwards the storage key is gone, so the next start reads no token, and `user` and `sessionToken` are null, whatever the call did |
| `Tracking.Authorization` | frontend/contexts/LocationContext.tsx:72 | the header carries the held token, or the text "null" when there is none |
| `Tracking.NullTokenSentAsText` | frontend/contexts/LocationContext.tsx:72 | a request made with no token reaches the backend's session lookup as the token "null" |
| `Tracking.StartBody` | frontend/contexts/LocationContext.tsx:62-70 | a tracked trip is opened with distance 0, business and automatic, at the current time and position |
| `Tracking.PromptCalls` | frontend/contexts/LocationContext.tsx:37-48 | the foreground prompt comes first, and the background prompt is shown exactly when foreground was granted |
| `Tracking.Tracker.constructor` | frontend/contexts/LocationContext.tsx:24-26 | not tracking, no trip, no permission |
| `Tracking.Tracker.CheckPermission` | frontend/contexts/LocationContext.tsx:32-35 | `hasPermission` becomes whether the foreground status is granted |
| `Tracking.Tracker.RequestPermission` | frontend/contexts/LocationContext.tsx:37-48 | a foreground refusal answers false and leaves `hasPermission`; otherwise the answer and `hasPermission` are whether background was granted |
| `Tracking.Tracker.StartTracking` | frontend/contexts/LocationContext.tsx:50-94 | a refused request throws "not granted" with no trip created; position and create failures are rethrown with the tracking state unchanged; otherwise a new trip is posted whatever `isTracking` is, and is held with `isTracking` set before updates start; a failure to start them is rethrown with that state kept |
| `Tracking.Tracker.StopTracking` | frontend/contexts/LocationContext.tsx:96-129 | the PUT is sent only with a trip held, always with distance 5.0; updates are stopped only if the task is registered; then `isTracking` and `currentTrip` are cleared; any failure is rethrown with both unchanged |

## Left out

- Dashboard statistics and the tax report (backend/server.py:529-615). These are floating-point products and rounding done over SQL aggregates.
- The subscription constant and the health and root endpoints. They are constants.
- The connection pool, lifespan, table creation and CORS setup. Only the constraints the handlers rely on are kept, as `Database.Valid`.
- `create_vehicle`, `create_expense` and the three list endpoints, including their `ORDER BY` and `LIMIT 100`. They insert or read rows and make no decision. `create_trip` is modelled because the tracker calls it.
- `get_me`: it only returns `RequireAuth`'s user.
- Request-body validation by the web framework (422 answers) and an upstream body missing a field (a `KeyError`, 500). Bodies are assumed well-formed.
- The upstream session-data HTTP call: its result is the `Upstream` parameter. Setting and deleting the cookie is HTTP output and is left out.
- `created_at` columns and the vehicle and expense columns no rule reads.
- Times are whole seconds; ISO-8601 formatting is not modelled. Distances and coordinates are `real`, not IEEE doubles.
- The `start_location`/`end_location` text `"${lat},${lon}"` is modelled as a `Position` value.
- `TripUpdates.BuildUpdateQuery`: builds the SET clause as a list of assignments, not as the SQL text joined with `", "`.
- The background location task (frontend/contexts/LocationContext.tsx:156-167). It only logs, and no path or distance is kept.
- The web branch of `login`, which sets `window.location`. This is platform navigation.
- Async interleaving of handlers and the deep-link listener's subscription. Each handler is one sequential step.
- Storage calls that throw (`getItem`, `setItem`, `removeItem`), and system calls that throw inside `requestPermission`, `checkPermission` and `isTaskRegisteredAsync`. These reads and writes always succeed in the model.
- Theme context and UI screens.
