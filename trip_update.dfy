/**
 * `PUT /api/trips/{trip_id}`: the dynamic `UPDATE trips SET ...` query that
 * lists the non-null fields of a `TripUpdate` with numbered placeholders, and
 * what that query does to a trip row.
 */
module TripUpdates {
  import opened Common

  /** A row of the `trips` table, keyed elsewhere by its `trip_id`. */
  datatype TripRow = TripRow(
    userId: string,
    vehicleId: Option<string>,
    startTime: int,
    endTime: Option<int>,
    distance: real,
    startLocation: Option<string>,
    endLocation: Option<string>,
    purpose: Option<string>,
    isBusiness: bool,
    isAutomatic: bool)

  /** The request body of the update; `None` is a field left out or sent as null. */
  datatype TripUpdate = TripUpdate(
    vehicleId: Option<string>,
    startTime: Option<int>,
    endTime: Option<int>,
    distance: Option<real>,
    startLocation: Option<string>,
    endLocation: Option<string>,
    purpose: Option<string>,
    isBusiness: Option<bool>)

  /** A query parameter value. */
  datatype Value = Text(text: string) | Time(time: int) | Number(number: real) | Flag(flag: bool)

  /** The fields of `TripUpdate` in declaration order; `is_automatic` is not one of them. */
  const Columns: seq<string> :=
    ["vehicle_id", "start_time", "end_time", "distance",
     "start_location", "end_location", "purpose", "is_business"]

  function TextValue(o: Option<string>): Option<Value>
  {
    if o.Some? then Some(Text(o.value)) else None
  }

  function TimeValue(o: Option<int>): Option<Value>
  {
    if o.Some? then Some(Time(o.value)) else None
  }

  /** `trip_update.dict(exclude_unset=True).items()`, with unset fields shown as null. */
  function Fields(u: TripUpdate): (fs: seq<(string, Option<Value>)>)
    ensures |fs| == |Columns|
    ensures forall i :: 0 <= i < |fs| ==> fs[i].0 == Columns[i]
  {
    [("vehicle_id", TextValue(u.vehicleId)),
     ("start_time", TimeValue(u.startTime)),
     ("end_time", TimeValue(u.endTime)),
     ("distance", if u.distance.Some? then Some(Number(u.distance.value)) else None),
     ("start_location", TextValue(u.startLocation)),
     ("end_location", TextValue(u.endLocation)),
     ("purpose", TextValue(u.purpose)),
     ("is_business", if u.isBusiness.Some? then Some(Flag(u.isBusiness.value)) else None)]
  }

  /** The non-null entries of `fs`, in their order. */
  function Present(fs: seq<(string, Option<Value>)>): seq<(string, Value)>
  {
    if fs == [] then []
    else
      var last := fs[|fs| - 1];
      Present(fs[..|fs| - 1]) + if last.1.Some? then [(last.0, last.1.value)] else []
  }

  /** The fields the update provides with a non-null value, in declaration order. */
  function Provided(u: TripUpdate): seq<(string, Value)>
  {
    Present(Fields(u))
  }

  /** `column = $param` in the SET clause. */
  datatype Assignment = Assignment(column: string, param: nat)

  /**
   * `UPDATE trips SET <assignments> WHERE trip_id = $tripParam AND
   * user_id = $userParam RETURNING *`, with its positional `values`.
   */
  datatype UpdateQuery = UpdateQuery(assignments: seq<Assignment>, values: seq<Value>, tripParam: nat, userParam: nat)

  /**
   * `q` is the query built for `u`: with k provided fields, the i-th assignment
   * sets the i-th provided field from `$i+1`, `$k+1` holds the trip id and
   * `$k+2` the owner's user id.
   */
  predicate BuiltFrom(q: UpdateQuery, u: TripUpdate, tripId: string, userId: string)
  {
    var p := Provided(u);
    var k := |p|;
    && |q.assignments| == k
    && (forall i :: 0 <= i < k ==> q.assignments[i] == Assignment(p[i].0, i + 1))
    && |q.values| == k + 2
    && (forall i :: 0 <= i < k ==> q.values[i] == p[i].1)
    && q.values[k] == Text(tripId) && q.values[k + 1] == Text(userId)
    && q.tripParam == k + 1 && q.userParam == k + 2
  }

  /**
   * Builds the SET clause and parameter list with a running placeholder
   * counter; no non-null field is a 400.
   */
  method BuildUpdateQuery(u: TripUpdate, tripId: string, userId: string) returns (r: Result<UpdateQuery, HttpError>)
    ensures r.Err? <==> Provided(u) == []
    ensures r.Err? ==> r.error == HttpError(400, "No fields to update")
    ensures r.Ok? ==> BuiltFrom(r.value, u, tripId, userId)
  {
    var fields := Fields(u);
    var updates: seq<Assignment> := [];
    var values: seq<Value> := [];
    var paramCount: nat := 1;
    for i := 0 to |fields|
      invariant paramCount == |updates| + 1
      invariant |values| == |updates| == |Present(fields[..i])|
      invariant forall j :: 0 <= j < |updates| ==>
        updates[j] == Assignment(Present(fields[..i])[j].0, j + 1) && values[j] == Present(fields[..i])[j].1
    {
      assert fields[..i + 1][..i] == fields[..i];
      var (field, value) := fields[i];
      if value.Some? {
        updates := updates + [Assignment(field, paramCount)];
        values := values + [value.value];
        paramCount := paramCount + 1;
      }
    }
    assert fields[..|fields|] == fields;
    if updates == [] {
      return Err(HttpError(400, "No fields to update"));
    }
    values := values + [Text(tripId), Text(userId)];
    r := Ok(UpdateQuery(updates, values, paramCount, paramCount + 1));
  }

  /** The entries of `Present(fs)` are exactly the non-null entries of `fs`. */
  lemma {:induction false} PresentMembers(fs: seq<(string, Option<Value>)>, c: string, v: Value)
    ensures (c, v) in Present(fs) <==> exists j :: 0 <= j < |fs| && fs[j] == (c, Some(v))
  {
    if fs != [] {
      var init := fs[..|fs| - 1];
      PresentMembers(init, c, v);
      if exists j :: 0 <= j < |fs| && fs[j] == (c, Some(v)) {
        var j :| 0 <= j < |fs| && fs[j] == (c, Some(v));
        if j < |fs| - 1 {
          assert init[j] == fs[j];
        }
      }
      if exists j :: 0 <= j < |init| && init[j] == (c, Some(v)) {
        var j :| 0 <= j < |init| && init[j] == (c, Some(v));
        assert fs[j] == init[j];
      }
    }
  }

  /**
   * The SET clause names column `c` with value `v` exactly when `c` is a
   * `TripUpdate` field and the update gives it the non-null value `v`; so
   * `is_automatic` never appears.
   */
  lemma ProvidedExactly(u: TripUpdate, c: string, v: Value)
    ensures (c, v) in Provided(u) <==>
      exists j :: 0 <= j < |Columns| && Columns[j] == c && Fields(u)[j].1 == Some(v)
    ensures (c, v) in Provided(u) ==> c != "is_automatic"
  {
    PresentMembers(Fields(u), c, v);
  }

  /** What `SET column = v` does to a row; a column or type outside `TripUpdate` changes nothing. */
  function SetColumn(row: TripRow, column: string, v: Value): TripRow
  {
    if column == "vehicle_id" && v.Text? then row.(vehicleId := Some(v.text))
    else if column == "start_time" && v.Time? then row.(startTime := v.time)
    else if column == "end_time" && v.Time? then row.(endTime := Some(v.time))
    else if column == "distance" && v.Number? then row.(distance := v.number)
    else if column == "start_location" && v.Text? then row.(startLocation := Some(v.text))
    else if column == "end_location" && v.Text? then row.(endLocation := Some(v.text))
    else if column == "purpose" && v.Text? then row.(purpose := Some(v.text))
    else if column == "is_business" && v.Flag? then row.(isBusiness := v.flag)
    else row
  }

  /** The SET clause of `q` run against `row`, each placeholder bound to its value. */
  function Execute(row: TripRow, assignments: seq<Assignment>, values: seq<Value>): TripRow
  {
    if assignments == [] then row
    else
      var a := assignments[|assignments| - 1];
      var before := Execute(row, assignments[..|assignments| - 1], values);
      if 1 <= a.param <= |values| then SetColumn(before, a.column, values[a.param - 1]) else before
  }

  /** `SetColumn` applied in turn for each non-null entry of `fs`. */
  function SetPresent(row: TripRow, fs: seq<(string, Option<Value>)>): TripRow
  {
    if fs == [] then row
    else
      var last := fs[|fs| - 1];
      var before := SetPresent(row, fs[..|fs| - 1]);
      if last.1.Some? then SetColumn(before, last.0, last.1.value) else before
  }

  /** The row the update means: every provided field replaced, every other column kept. */
  function ApplyUpdate(row: TripRow, u: TripUpdate): TripRow
  {
    TripRow(
      row.userId,
      if u.vehicleId.Some? then u.vehicleId else row.vehicleId,
      if u.startTime.Some? then u.startTime.value else row.startTime,
      if u.endTime.Some? then u.endTime else row.endTime,
      if u.distance.Some? then u.distance.value else row.distance,
      if u.startLocation.Some? then u.startLocation else row.startLocation,
      if u.endLocation.Some? then u.endLocation else row.endLocation,
      if u.purpose.Some? then u.purpose else row.purpose,
      if u.isBusiness.Some? then u.isBusiness.value else row.isBusiness,
      row.isAutomatic)
  }

  /** The first n assignments of a built query set the first n provided fields. */
  lemma {:induction false} ExecutePrefix(row: TripRow, q: UpdateQuery, u: TripUpdate, tripId: string, userId: string, n: nat)
    requires BuiltFrom(q, u, tripId, userId) && n <= |q.assignments|
    ensures Execute(row, q.assignments[..n], q.values) == SetPresent(row, FieldsWithValues(Provided(u)[..n]))
  {
    var p := Provided(u);
    if n > 0 {
      ExecutePrefix(row, q, u, tripId, userId, n - 1);
      assert q.assignments[..n][..n - 1] == q.assignments[..n - 1];
      assert p[..n][..n - 1] == p[..n - 1];
      assert FieldsWithValues(p[..n])[..n - 1] == FieldsWithValues(p[..n - 1]);
    }
  }

  /** Pairs turned back into non-null fields. */
  function FieldsWithValues(ps: seq<(string, Value)>): (fs: seq<(string, Option<Value>)>)
    ensures |fs| == |ps| && forall i :: 0 <= i < |ps| ==> fs[i] == (ps[i].0, Some(ps[i].1))
  {
    seq(|ps|, i requires 0 <= i < |ps| => (ps[i].0, Some(ps[i].1)))
  }

  /** Dropping the null entries does not change what is set. */
  lemma {:induction false} SetPresentSkipsNull(row: TripRow, fs: seq<(string, Option<Value>)>)
    ensures SetPresent(row, FieldsWithValues(Present(fs))) == SetPresent(row, fs)
  {
    if fs != [] {
      var init := fs[..|fs| - 1];
      var last := fs[|fs| - 1];
      SetPresentSkipsNull(row, init);
      if last.1.Some? {
        var w := FieldsWithValues(Present(fs));
        assert w[..|w| - 1] == FieldsWithValues(Present(init));
      } else {
        assert Present(fs) == Present(init);
      }
    }
  }

  /** One more field: `SetPresent` over `fs[..k + 1]` sets `fs[k]` after `fs[..k]`. */
  lemma SetPresentStep(row: TripRow, fs: seq<(string, Option<Value>)>, k: nat)
    requires k < |fs|
    ensures SetPresent(row, fs[..k + 1]) ==
      if fs[k].1.Some? then SetColumn(SetPresent(row, fs[..k]), fs[k].0, fs[k].1.value) else SetPresent(row, fs[..k])
  {
    assert fs[..k + 1][..k] == fs[..k];
  }

  /** `ApplyUpdate` restricted to the first `n` fields in declaration order. */
  function ApplyFirst(row: TripRow, u: TripUpdate, n: nat): TripRow
  {
    TripRow(
      row.userId,
      if n > 0 && u.vehicleId.Some? then u.vehicleId else row.vehicleId,
      if n > 1 && u.startTime.Some? then u.startTime.value else row.startTime,
      if n > 2 && u.endTime.Some? then u.endTime else row.endTime,
      if n > 3 && u.distance.Some? then u.distance.value else row.distance,
      if n > 4 && u.startLocation.Some? then u.startLocation else row.startLocation,
      if n > 5 && u.endLocation.Some? then u.endLocation else row.endLocation,
      if n > 6 && u.purpose.Some? then u.purpose else row.purpose,
      if n > 7 && u.isBusiness.Some? then u.isBusiness.value else row.isBusiness,
      row.isAutomatic)
  }

  /** Setting the n-th field after the first n - 1 gives the first n. */
  lemma SetNext(row: TripRow, u: TripUpdate, n: nat)
    requires 0 < n <= |Columns|
    ensures (var f := Fields(u)[n - 1];
             if f.1.Some? then SetColumn(ApplyFirst(row, u, n - 1), f.0, f.1.value) else ApplyFirst(row, u, n - 1))
            == ApplyFirst(row, u, n)
  {
    if n == 1 {
    } else if n == 2 {
    } else if n == 3 {
    } else if n == 4 {
    } else if n == 5 {
    } else if n == 6 {
    } else if n == 7 {
    } else {
    }
  }

  /** The first n fields, set one by one in declaration order, give `ApplyFirst`. */
  lemma {:induction false} SetPresentFields(row: TripRow, u: TripUpdate, n: nat)
    requires n <= |Columns|
    ensures SetPresent(row, Fields(u)[..n]) == ApplyFirst(row, u, n)
  {
    if n == 0 {
      assert Fields(u)[..0] == [];
    } else {
      SetPresentFields(row, u, n - 1);
      SetPresentStep(row, Fields(u), n - 1);
      SetNext(row, u, n);
    }
  }

  /**
   * Running the SET clause built for `u` against a row gives exactly the
   * typed update of the request: the query means what the body asked for.
   */
  lemma ExecuteMeansApply(row: TripRow, q: UpdateQuery, u: TripUpdate, tripId: string, userId: string)
    requires BuiltFrom(q, u, tripId, userId)
    ensures Execute(row, q.assignments, q.values) == ApplyUpdate(row, u)
  {
    var p := Provided(u);
    ExecutePrefix(row, q, u, tripId, userId, |p|);
    assert q.assignments[..|p|] == q.assignments;
    assert p[..|p|] == p;
    SetPresentSkipsNull(row, Fields(u));
    SetPresentFields(row, u, |Columns|);
    assert Fields(u)[..|Columns|] == Fields(u);
  }
}
