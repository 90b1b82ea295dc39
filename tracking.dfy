/**
 * The client's trip-tracking manager: the permission gate and the start and
 * stop handlers over `hasPermission`, `isTracking`, `currentTrip`, and the
 * system's registration of the background location task. Every system and
 * backend call is recorded, in order, in `calls`; what each one answers is a
 * parameter.
 */
module Tracking {
  import opened Common
  import opened Bearer

  /** A location permission status as the system reports it. */
  datatype Permission = Granted | Denied | Undetermined

  /** A position fix. */
  datatype Position = Position(latitude: real, longitude: real)

  /** The body of the `POST /api/trips` that opens a tracked trip. */
  datatype TripStart = TripStart(startTime: int, distance: real, startLocation: Position, isBusiness: bool, isAutomatic: bool)

  /** The body of the `PUT /api/trips/{trip_id}` that closes it. */
  datatype TripEnd = TripEnd(endTime: int, endLocation: Position, distance: real)

  /** The trip the backend returned when it was created. */
  datatype ServerTrip = ServerTrip(tripId: string)

  /** A call to the system or the backend. */
  datatype Call =
    | GetForegroundPermission
    | RequestForegroundPermission
    | RequestBackgroundPermission
    | GetCurrentPosition
    | PostTrip(start: TripStart, authorization: string)
    | StartLocationUpdates(task: string)
    | IsTaskRegistered(task: string)
    | StopLocationUpdates(task: string)
    | PutTrip(tripId: string, end: TripEnd, authorization: string)

  /** The error a handler throws to its caller. */
  datatype TrackError = PermissionNotGranted | CallFailed

  const TaskName: string := "background-location-task"

  /** The distance every stopped trip reports: a fixed stand-in, not a measurement. */
  const StubDistance: real := 5.0

  /** `Bearer ${sessionToken}`: a null token is sent as the text "null". */
  function Authorization(token: Option<string>): (h: string)
    ensures token.Some? ==> h == BearerHeader(token.value)
    ensures token.None? ==> h == BearerHeader("null")
  {
    BearerHeader(if token.Some? then token.value else "null")
  }

  /**
   * A request made while no token is held reaches the backend as the token
   * "null", which then fails the session lookup unless such a session exists.
   */
  lemma NullTokenSentAsText()
    ensures ResolveToken(Credentials(None, Some(Authorization(None)))) == Some("null")
  {
    HeaderRoundTrip("null", None);
  }

  /** The body a tracked trip is opened with: zero distance, business, automatic. */
  function StartBody(now: int, at: Position): (b: TripStart)
    ensures b.distance == 0.0 && b.isBusiness && b.isAutomatic
    ensures b.startTime == now && b.startLocation == at
  {
    TripStart(now, 0.0, at, true, true)
  }

  /** The prompts `requestPermission` shows: background only after foreground was granted. */
  function PromptCalls(foreground: Permission): (cs: seq<Call>)
    ensures |cs| > 0 && cs[0] == RequestForegroundPermission
    ensures RequestBackgroundPermission in cs <==> foreground == Granted
  {
    [RequestForegroundPermission] + if foreground == Granted then [RequestBackgroundPermission] else []
  }

  class Tracker {
    var hasPermission: bool
    var isTracking: bool
    var currentTrip: Option<ServerTrip>
    /** Whether the system has the background location task registered. */
    var taskRegistered: bool
    var calls: seq<Call>

    /** The manager is tracking exactly when it holds a trip. */
    ghost predicate Valid()
      reads this
    {
      isTracking <==> currentTrip.Some?
    }

    /** The provider's initial state; the system may still hold a registration from an earlier run. */
    constructor (registered: bool)
      ensures Valid()
      ensures !hasPermission && !isTracking && currentTrip == None && taskRegistered == registered && calls == []
    {
      hasPermission, isTracking, currentTrip, taskRegistered, calls := false, false, None, registered, [];
    }

    /** `checkPermission`: `hasPermission` becomes whether the foreground status is granted. */
    method CheckPermission(foreground: Permission)
      requires Valid()
      modifies this
      ensures Valid()
      ensures hasPermission == (foreground == Granted)
      ensures calls == old(calls) + [GetForegroundPermission]
      ensures isTracking == old(isTracking) && currentTrip == old(currentTrip) && taskRegistered == old(taskRegistered)
    {
      calls := calls + [GetForegroundPermission];
      hasPermission := foreground == Granted;
    }

    /**
     * `requestPermission`: asks for foreground permission, and for background
     * permission only once foreground is granted. A foreground refusal answers
     * false and leaves `hasPermission`; otherwise the answer and the new
     * `hasPermission` are whether background was granted.
     */
    method RequestPermission(foreground: Permission, background: Permission) returns (granted: bool)
      requires Valid()
      modifies this
      ensures Valid()
      ensures calls == old(calls) + PromptCalls(foreground)
      ensures foreground != Granted ==> !granted && hasPermission == old(hasPermission)
      ensures foreground == Granted ==> granted == (background == Granted) && hasPermission == granted
      ensures isTracking == old(isTracking) && currentTrip == old(currentTrip) && taskRegistered == old(taskRegistered)
    {
      calls := calls + [RequestForegroundPermission];
      if foreground == Granted {
        calls := calls + [RequestBackgroundPermission];
        granted := background == Granted;
        hasPermission := granted;
        return;
      }
      granted := false;
    }

    /**
     * `startTracking`. Without permission it first requests it and throws
     * when that is refused. Then it reads the position and posts a new trip
     * (distance 0, business, automatic) whatever `isTracking` says, so every
     * successful call opens another server trip. A failure of either call is
     * rethrown with the tracking state untouched. Once the trip exists it is
     * held and `isTracking` is set, before background updates are started;
     * if starting them fails, the error is rethrown with that state kept.
     */
    method StartTracking(foreground: Permission, background: Permission, position: Option<Position>,
                         created: Option<ServerTrip>, updatesStarted: bool, now: int, token: Option<string>)
      returns (r: Outcome<TrackError>)
      requires Valid()
      modifies this
      ensures Valid()
      ensures hasPermission == (old(hasPermission) || (foreground == Granted && background == Granted))
      ensures var asked := old(calls) + (if old(hasPermission) then [] else PromptCalls(foreground));
        && (!hasPermission ==>
              && r == Fail(PermissionNotGranted) && calls == asked
              && isTracking == old(isTracking) && currentTrip == old(currentTrip) && taskRegistered == old(taskRegistered))
        && (hasPermission && position.None? ==>
              && r == Fail(CallFailed) && calls == asked + [GetCurrentPosition]
              && isTracking == old(isTracking) && currentTrip == old(currentTrip) && taskRegistered == old(taskRegistered))
        && (hasPermission && position.Some? ==>
              var posted := asked + [GetCurrentPosition, PostTrip(StartBody(now, position.value), Authorization(token))];
              && (created.None? ==>
                    && r == Fail(CallFailed) && calls == posted
                    && isTracking == old(isTracking) && currentTrip == old(currentTrip) && taskRegistered == old(taskRegistered))
              && (created.Some? ==>
                    && isTracking && currentTrip == created
                    && calls == posted + [StartLocationUpdates(TaskName)]
                    && (updatesStarted ==> r == Pass && taskRegistered)
                    && (!updatesStarted ==> r == Fail(CallFailed) && taskRegistered == old(taskRegistered))))
    {
      if !hasPermission {
        var granted := RequestPermission(foreground, background);
        if !granted {
          return Fail(PermissionNotGranted);
        }
      }
      calls := calls + [GetCurrentPosition];
      if position.None? {
        return Fail(CallFailed);
      }
      calls := calls + [PostTrip(StartBody(now, position.value), Authorization(token))];
      if created.None? {
        return Fail(CallFailed);
      }
      currentTrip := created;
      isTracking := true;
      calls := calls + [StartLocationUpdates(TaskName)];
      if !updatesStarted {
        return Fail(CallFailed);
      }
      taskRegistered := true;
      r := Pass;
    }

    /**
     * `stopTracking`. With a trip held it reads the position and puts the end
     * of the trip, always with the stub distance; then it stops location
     * updates only if the task is registered, and finally clears `isTracking`
     * and `currentTrip`. Any failure on the way is rethrown and leaves the
     * tracking state as it was.
     */
    method StopTracking(position: Option<Position>, putSucceeded: bool, stopSucceeded: bool, now: int, token: Option<string>)
      returns (r: Outcome<TrackError>)
      requires Valid()
      modifies this
      ensures Valid()
      ensures hasPermission == old(hasPermission)
      ensures old(currentTrip).Some? && position.None? ==>
        && r == Fail(CallFailed) && calls == old(calls) + [GetCurrentPosition]
        && isTracking == old(isTracking) && currentTrip == old(currentTrip) && taskRegistered == old(taskRegistered)
      ensures old(currentTrip).Some? && position.Some? ==>
        var put := PutTrip(old(currentTrip).value.tripId, TripEnd(now, position.value, StubDistance), Authorization(token));
        && (!putSucceeded ==>
              && r == Fail(CallFailed) && calls == old(calls) + [GetCurrentPosition, put]
              && isTracking == old(isTracking) && currentTrip == old(currentTrip) && taskRegistered == old(taskRegistered))
        && (putSucceeded ==> |calls| >= |old(calls)| + 2 && calls[..|old(calls)| + 2] == old(calls) + [GetCurrentPosition, put])
      ensures (old(currentTrip).None? || (position.Some? && putSucceeded)) ==>
        var ended := if old(currentTrip).Some? then 2 else 0;
        && |calls| >= |old(calls)| + ended
        && calls[..|old(calls)|] == old(calls)
        && calls[|old(calls)| + ended..] ==
             [IsTaskRegistered(TaskName)] + (if old(taskRegistered) then [StopLocationUpdates(TaskName)] else [])
        && (old(taskRegistered) && !stopSucceeded ==>
              && r == Fail(CallFailed)
              && isTracking == old(isTracking) && currentTrip == old(currentTrip) && taskRegistered)
        && ((!old(taskRegistered) || stopSucceeded) ==>
              r == Pass && !isTracking && currentTrip == None && !taskRegistered)
    {
      if currentTrip.Some? {
        calls := calls + [GetCurrentPosition];
        if position.None? {
          return Fail(CallFailed);
        }
        calls := calls + [PutTrip(currentTrip.value.tripId, TripEnd(now, position.value, StubDistance), Authorization(token))];
        if !putSucceeded {
          return Fail(CallFailed);
        }
      }
      calls := calls + [IsTaskRegistered(TaskName)];
      if taskRegistered {
        calls := calls + [StopLocationUpdates(TaskName)];
        if !stopSucceeded {
          return Fail(CallFailed);
        }
        taskRegistered := false;
      }
      isTracking := false;
      currentTrip := None;
      r := Pass;
    }
  }
}
