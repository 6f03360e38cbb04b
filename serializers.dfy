/** The server's serializers: validation of the trip-creation payload and
    the JSON shapes trips, their route segments and their log sheets are
    exposed in. JSON objects are maps from key to value. */
module Serializers {
  import opened Wrappers

  datatype Json =
    | JNull
    | JBool(b: bool)
    | JNumber(n: real)
    | JString(s: string)
    | JArray(items: seq<Json>)
    | JObject(fields: map<string, Json>)

  const LocationError := "Location must have 'lat' and 'lng' fields"
  const MinCycleError := "Ensure this value is greater than or equal to 0."
  const MaxCycleError := "Ensure this value is less than or equal to 70."
  const NullError := "This field may not be null."

  /** The check the three `validate_*_location` methods share: a dict with
      both a 'lat' and a 'lng' key passes through unchanged. */
  function ValidateLocation(value: Json): (r: Result<Json, string>)
    ensures r.Success? <==> value.JObject? && "lat" in value.fields && "lng" in value.fields
    ensures r.Success? ==> r.value == value
    ensures r.Failure? ==> r.error == LocationError
  {
    if !value.JObject? || "lat" !in value.fields || "lng" !in value.fields then Failure(LocationError)
    else Success(value)
  }

  /** A `JSONField()` location as the serializer checks it: the field's own
      null check (`allow_null` is off) rejects `null` before the
      `validate_*_location` method is reached; any other value goes to that
      method. */
  function ValidateLocationField(value: Json): (r: Result<Json, string>)
    ensures value.JNull? ==> r == Failure(NullError)
    ensures !value.JNull? ==> r == ValidateLocation(value)
    ensures r.Success? <==> ValidateLocation(value).Success?
  {
    if value.JNull? then Failure(NullError) else ValidateLocation(value)
  }

  /** `IntegerField(min_value=0, max_value=70)` on an integer. */
  function ValidateCycleHours(hours: int): (r: Result<int, string>)
    ensures r.Success? <==> 0 <= hours <= 70
    ensures r.Success? ==> r.value == hours
    ensures hours < 0 ==> r == Failure(MinCycleError)
    ensures hours > 70 ==> r == Failure(MaxCycleError)
  {
    if hours < 0 then Failure(MinCycleError)
    else if hours > 70 then Failure(MaxCycleError)
    else Success(hours)
  }

  /** A validated trip-creation payload. */
  datatype TripCreateData = TripCreateData(currentLocation: Json, pickupLocation: Json, dropoffLocation: Json, currentCycleUsedHours: int)

  /** The four input fields of `TripCreateSerializer`. */
  datatype Field = CurrentLocation | PickupLocation | DropoffLocation | CurrentCycleUsedHours

  /** The key each field is read from and reported under. */
  function FieldName(f: Field): string
  {
    match f
    case CurrentLocation => "current_location"
    case PickupLocation => "pickup_location"
    case DropoffLocation => "dropoff_location"
    case CurrentCycleUsedHours => "current_cycle_used_hours"
  }

  /** The check of one field, with its message when it fails. */
  function CheckField(data: TripCreateData, f: Field): Option<string>
  {
    match f
    case CurrentLocation => ErrorOf(ValidateLocationField(data.currentLocation))
    case PickupLocation => ErrorOf(ValidateLocationField(data.pickupLocation))
    case DropoffLocation => ErrorOf(ValidateLocationField(data.dropoffLocation))
    case CurrentCycleUsedHours => ErrorOf(ValidateCycleHours(data.currentCycleUsedHours))
  }

  function ErrorOf<T>(r: Result<T, string>): (e: Option<string>)
    ensures e.Some? <==> r.Failure?
  {
    if r.Failure? then Some(r.error) else None
  }

  /** The per-field messages `TripCreateSerializer` collects: one entry per
      failing field. */
  function CreateErrors(data: TripCreateData): (errors: map<Field, string>)
    ensures forall f :: f in errors <==> CheckField(data, f).Some?
    ensures forall f :: f in errors ==> errors[f] == CheckField(data, f).value
  {
    map f: Field | CheckField(data, f).Some? :: CheckField(data, f).value
  }

  /** `TripCreateSerializer` validation: the payload is accepted unchanged
      when every field passes, and otherwise the errors name each failing
      field with its message. */
  function ValidateTripCreate(data: TripCreateData): (r: Result<TripCreateData, map<Field, string>>)
    ensures r.Success? <==>
      && ValidateLocation(data.currentLocation).Success?
      && ValidateLocation(data.pickupLocation).Success?
      && ValidateLocation(data.dropoffLocation).Success?
      && 0 <= data.currentCycleUsedHours <= 70
    ensures r.Success? ==> r.value == data
    ensures r.Failure? ==> r.error == CreateErrors(data)
    ensures data.currentLocation.JNull? ==> r.Failure? && r.error[CurrentLocation] == NullError
    ensures data.pickupLocation.JNull? ==> r.Failure? && r.error[PickupLocation] == NullError
    ensures data.dropoffLocation.JNull? ==> r.Failure? && r.error[DropoffLocation] == NullError
    ensures r.Failure? && CurrentLocation in r.error && !data.currentLocation.JNull? ==> r.error[CurrentLocation] == LocationError
  {
    if ValidateLocation(data.currentLocation).Success? && ValidateLocation(data.pickupLocation).Success?
       && ValidateLocation(data.dropoffLocation).Success? && ValidateCycleHours(data.currentCycleUsedHours).Success?
    then Success(data)
    else Failure(CreateErrors(data))
  }

  /** A rejected payload names at least one field, and names a location
      field exactly when that location lacks 'lat' or 'lng'. */
  lemma RejectedFieldsNamed(data: TripCreateData)
    requires ValidateTripCreate(data).Failure?
    ensures var e := ValidateTripCreate(data).error;
      && (CurrentLocation in e <==> ValidateLocation(data.currentLocation).Failure?)
      && (PickupLocation in e <==> ValidateLocation(data.pickupLocation).Failure?)
      && (DropoffLocation in e <==> ValidateLocation(data.dropoffLocation).Failure?)
      && (CurrentCycleUsedHours in e <==> !(0 <= data.currentCycleUsedHours <= 70))
      && exists f :: f in e
  {
    var e := ValidateTripCreate(data).error;
    if ValidateLocation(data.currentLocation).Failure? {
      assert CurrentLocation in e;
    } else if ValidateLocation(data.pickupLocation).Failure? {
      assert PickupLocation in e;
    } else if ValidateLocation(data.dropoffLocation).Failure? {
      assert DropoffLocation in e;
    } else {
      assert CurrentCycleUsedHours in e;
    }
  }

  /** The error keys are distinct. */
  lemma FieldNameInjective(f: Field, g: Field)
    requires FieldName(f) == FieldName(g)
    ensures f == g
  {
  }

  // ---------------------------------------------------------------------
  // Stored rows and their representations
  // ---------------------------------------------------------------------

  datatype SegmentRow = SegmentRow(kind: string, startLocation: Json, endLocation: Json, durationMinutes: Option<int>, distanceKm: Option<real>)

  datatype TripRow = TripRow(
    id: string,
    createdAt: string,
    currentLocation: Json,
    pickupLocation: Json,
    dropoffLocation: Json,
    currentCycleUsedHours: int,
    totalDistanceKm: Option<real>,
    estimatedDays: Option<int>,
    segments: seq<SegmentRow>)

  datatype LogSheetRow = LogSheetRow(dayNumber: int, graphPoints: Json, summary: Json)

  function IntJson(i: int): Json { JNumber(i as real) }

  function OptIntJson(i: Option<int>): Json { if i.Some? then IntJson(i.value) else JNull }

  function OptRealJson(x: Option<real>): Json { if x.Some? then JNumber(x.value) else JNull }

  /** `RouteSegmentSerializer`: the five listed fields. */
  function SegmentJson(row: SegmentRow): (r: Json)
    ensures r.JObject? && r.fields.Keys == {"type", "start_location", "end_location", "duration_minutes", "distance_km"}
    ensures r.fields["type"] == JString(row.kind)
  {
    JObject(map[
      "type" := JString(row.kind),
      "start_location" := row.startLocation,
      "end_location" := row.endLocation,
      "duration_minutes" := OptIntJson(row.durationMinutes),
      "distance_km" := OptRealJson(row.distanceKm)])
  }

  /** The nested `route`: one entry per segment, in stored order. */
  function RouteJson(segments: seq<SegmentRow>): (r: Json)
    ensures r.JArray? && |r.items| == |segments|
    ensures forall i :: 0 <= i < |segments| ==> r.items[i] == SegmentJson(segments[i])
  {
    JArray(seq(|segments|, i requires 0 <= i < |segments| => SegmentJson(segments[i])))
  }

  /** What `ModelSerializer.to_representation` gives for `TripSerializer`'s
      field list. */
  function TripBaseJson(row: TripRow): map<string, Json>
  {
    map[
      "id" := JString(row.id),
      "total_distance_km" := OptRealJson(row.totalDistanceKm),
      "estimated_days" := OptIntJson(row.estimatedDays),
      "route" := RouteJson(row.segments)]
  }

  /** `TripSerializer.to_representation`: the id renamed to `trip_id` as
      text, and the totals and route copied. */
  function TripJson(row: TripRow): (r: map<string, Json>)
    ensures r.Keys == {"trip_id", "total_distance_km", "estimated_days", "route"}
    ensures r["trip_id"] == JString(row.id)
    ensures r["total_distance_km"] == TripBaseJson(row)["total_distance_km"]
    ensures r["estimated_days"] == TripBaseJson(row)["estimated_days"]
    ensures r["route"] == TripBaseJson(row)["route"]
  {
    var data := TripBaseJson(row);
    map[
      "trip_id" := JString(data["id"].s),
      "total_distance_km" := data["total_distance_km"],
      "estimated_days" := data["estimated_days"],
      "route" := data["route"]]
  }

  /** What `ModelSerializer.to_representation` gives for
      `TripDetailSerializer`'s field list. */
  function TripDetailBaseJson(row: TripRow): (r: map<string, Json>)
    ensures "id" in r && r["id"] == JString(row.id) && "trip_id" !in r
  {
    map[
      "id" := JString(row.id),
      "created_at" := JString(row.createdAt),
      "current_location" := row.currentLocation,
      "pickup_location" := row.pickupLocation,
      "dropoff_location" := row.dropoffLocation,
      "current_cycle_used_hours" := IntJson(row.currentCycleUsedHours),
      "total_distance_km" := OptRealJson(row.totalDistanceKm),
      "estimated_days" := OptIntJson(row.estimatedDays),
      "route" := RouteJson(row.segments)]
  }

  /** `TripDetailSerializer.to_representation`: pops `id` from the base
      dict and stores its text under `trip_id`; every other key is kept. */
  method TripDetailJson(row: TripRow) returns (data: map<string, Json>)
    ensures data.Keys == TripDetailBaseJson(row).Keys - {"id"} + {"trip_id"}
    ensures data["trip_id"] == JString(row.id)
    ensures forall k :: k in data && k != "trip_id" ==> data[k] == TripDetailBaseJson(row)[k]
  {
    data := TripDetailBaseJson(row);
    var id := data["id"];
    data := data - {"id"};
    data := data["trip_id" := JString(id.s)];
  }

  /** `LogSheetSerializer`: `day` comes from the day number. */
  function LogSheetJson(row: LogSheetRow): (r: Json)
    ensures r.JObject? && r.fields.Keys == {"day", "graph_points", "summary"}
    ensures r.fields["day"] == IntJson(row.dayNumber)
    ensures r.fields["graph_points"] == row.graphPoints && r.fields["summary"] == row.summary
  {
    JObject(map["day" := IntJson(row.dayNumber), "graph_points" := row.graphPoints, "summary" := row.summary])
  }

  /** `TripLogsSerializer.to_representation`: the trip id as text and its
      sheets, in stored (day-number) order. */
  function TripLogsJson(tripId: string, logs: seq<LogSheetRow>): (r: map<string, Json>)
    ensures r.Keys == {"trip_id", "logs"}
    ensures r["trip_id"] == JString(tripId)
    ensures r["logs"].JArray? && |r["logs"].items| == |logs|
    ensures forall i :: 0 <= i < |logs| ==> r["logs"].items[i] == LogSheetJson(logs[i])
  {
    map["trip_id" := JString(tripId), "logs" := JArray(seq(|logs|, i requires 0 <= i < |logs| => LogSheetJson(logs[i])))]
  }
}
