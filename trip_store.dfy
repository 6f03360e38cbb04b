/** The client's trip store: the list of loaded trips, the selected trip's id,
    the selected trip's logs and the loading / error flags, with the actions
    that update them. Network calls are not made here: each request action
    takes the service's outcome as a parameter. */
module Store {
  import opened Wrappers
  import opened Records

  /** What a rejected service call throws: an `Error` object with a message,
      or any other value. */
  datatype Thrown = ErrorObject(message: string) | OtherValue

  /** `error instanceof Error ? error.message : fallback`. */
  function ErrorText(e: Thrown, fallback: string): (r: string)
    ensures e.ErrorObject? ==> r == e.message
    ensures e.OtherValue? ==> r == fallback
  {
    match e
    case ErrorObject(m) => m
    case OtherValue => fallback
  }

  /** `trips.findIndex(t => t.trip_id === id)`, with none for -1. */
  function FirstIndexOf(trips: seq<Trip>, id: string): (r: Option<nat>)
    ensures r.Some? ==> r.value < |trips| && trips[r.value].tripId == id
    ensures r.Some? ==> forall k :: 0 <= k < r.value ==> trips[k].tripId != id
    ensures r.None? <==> forall k :: 0 <= k < |trips| ==> trips[k].tripId != id
  {
    if |trips| == 0 then None
    else if trips[0].tripId == id then Some(0)
    else match FirstIndexOf(trips[1..], id)
      case None => None
      case Some(k) => Some(k + 1)
  }

  /** `trips.find(...)`: the first trip with that id. */
  function FindTrip(trips: seq<Trip>, id: string): (r: Option<Trip>)
    ensures r.Some? ==> r.value in trips && r.value.tripId == id
    ensures r.Some? ==> exists i :: 0 <= i < |trips| && trips[i] == r.value && forall k :: 0 <= k < i ==> trips[k].tripId != id
    ensures r.None? <==> forall k :: 0 <= k < |trips| ==> trips[k].tripId != id
  {
    match FirstIndexOf(trips, id)
    case None => None
    case Some(i) => Some(trips[i])
  }

  /** The trip list after a loaded trip is stored under the requested id:
      the first entry with that id is replaced, otherwise the trip is added
      at the end. */
  function Upsert(trips: seq<Trip>, requestedId: string, t: Trip): seq<Trip>
  {
    match FirstIndexOf(trips, requestedId)
    case Some(i) => trips[i := t]
    case None => trips + [t]
  }

  lemma UpsertReplacesFirstMatch(trips: seq<Trip>, requestedId: string, t: Trip, i: nat)
    requires i < |trips| && trips[i].tripId == requestedId
    requires forall k :: 0 <= k < i ==> trips[k].tripId != requestedId
    ensures |Upsert(trips, requestedId, t)| == |trips|
    ensures Upsert(trips, requestedId, t)[i] == t
    ensures forall k :: 0 <= k < |trips| && k != i ==> Upsert(trips, requestedId, t)[k] == trips[k]
  {
    assert FirstIndexOf(trips, requestedId) == Some(i);
  }

  lemma UpsertAppendsNew(trips: seq<Trip>, requestedId: string, t: Trip)
    requires forall k :: 0 <= k < |trips| ==> trips[k].tripId != requestedId
    ensures Upsert(trips, requestedId, t) == trips + [t]
  {
  }

  /** Storing a trip under its own id leaves exactly one way to find it:
      `FindTrip` returns it, or an earlier entry with the same id. After an
      upsert the trip can always be found by the requested id. */
  lemma UpsertThenFind(trips: seq<Trip>, t: Trip)
    ensures FindTrip(Upsert(trips, t.tripId, t), t.tripId) == Some(t)
  {
    var r := Upsert(trips, t.tripId, t);
    match FirstIndexOf(trips, t.tripId)
    case Some(i) =>
      assert r[i] == t;
      assert forall k :: 0 <= k < i ==> r[k] == trips[k];
      assert FirstIndexOf(r, t.tripId).Some?;
    case None =>
      assert r[|trips|] == t;
      assert forall k :: 0 <= k < |trips| ==> r[k] == trips[k];
  }

  class TripStore {
    var trips: seq<Trip>
    var currentTripId: Option<string>
    var currentTripLogs: Option<TripLogs>
    var loading: bool
    var error: Option<string>

    /** A fresh store: no trips, nothing selected, not loading, no error. */
    constructor()
      ensures trips == [] && currentTripId == None && currentTripLogs == None
      ensures !loading && error == None
    {
      trips := [];
      currentTripId := None;
      currentTripLogs := None;
      loading := false;
      error := None;
    }

    /** The `currentTrip` view: nothing when the id is unset or empty,
        otherwise the first trip with that id, if any. */
    function CurrentTrip(): (r: Option<Trip>)
      reads this
      ensures r.Some? ==> currentTripId.Some? && currentTripId.value != "" && r.value in trips && r.value.tripId == currentTripId.value
      ensures r.Some? ==> exists i :: 0 <= i < |trips| && trips[i] == r.value && forall k :: 0 <= k < i ==> trips[k].tripId != r.value.tripId
      ensures (currentTripId.Some? && currentTripId.value != "" && exists k :: 0 <= k < |trips| && trips[k].tripId == currentTripId.value) ==> r.Some?
    {
      if currentTripId.Some? && currentTripId.value != "" then FindTrip(trips, currentTripId.value) else None
    }

    method SetLoading(value: bool)
      modifies this
      ensures loading == value
      ensures trips == old(trips) && currentTripId == old(currentTripId) && currentTripLogs == old(currentTripLogs) && error == old(error)
    {
      loading := value;
    }

    method SetError(message: Option<string>)
      modifies this
      ensures error == message
      ensures trips == old(trips) && currentTripId == old(currentTripId) && currentTripLogs == old(currentTripLogs) && loading == old(loading)
    {
      error := message;
    }

    method ClearError()
      modifies this
      ensures error == None
      ensures trips == old(trips) && currentTripId == old(currentTripId) && currentTripLogs == old(currentTripLogs) && loading == old(loading)
    {
      error := None;
    }

    /** Selects a trip by id, or clears the selection for no trip. */
    method SetCurrentTrip(trip: Option<Trip>)
      modifies this
      ensures trip.Some? ==> currentTripId == Some(trip.value.tripId)
      ensures trip.None? ==> currentTripId == None
      ensures trips == old(trips) && currentTripLogs == old(currentTripLogs) && loading == old(loading) && error == old(error)
    {
      currentTripId := if trip.Some? then Some(trip.value.tripId) else None;
    }

    /** What every request does before its call: loading on, error cleared. */
    method BeginRequest()
      modifies this
      ensures loading && error == None
      ensures trips == old(trips) && currentTripId == old(currentTripId) && currentTripLogs == old(currentTripLogs)
    {
      loading := true;
      error := None;
    }

    /** `createTrip`: `created` is the outcome of the create call (the new
        trip's id) and `details` that of the details call made with that id. */
    method CreateTrip(created: Result<string, Thrown>, details: Result<Trip, Thrown>) returns (outcome: Result<Trip, Thrown>)
      modifies this
      ensures !loading && currentTripLogs == old(currentTripLogs)
      ensures created.Failure? ==> outcome == Failure(created.error)
      ensures created.Success? ==> outcome == details
      ensures outcome.Success? ==>
        && trips == old(trips) + [outcome.value]
        && currentTripId == Some(outcome.value.tripId)
        && error == None
      ensures outcome.Failure? ==>
        && trips == old(trips)
        && currentTripId == old(currentTripId)
        && error == Some(ErrorText(outcome.error, "Failed to create trip"))
    {
      BeginRequest();
      if created.Failure? {
        outcome := Failure(created.error);
      } else {
        outcome := details;
      }
      if outcome.Success? {
        var tripInstance := outcome.value;
        trips := trips + [tripInstance];
        currentTripId := Some(tripInstance.tripId);
      } else {
        error := Some(ErrorText(outcome.error, "Failed to create trip"));
      }
      loading := false;
    }

    /** `loadTripDetails(tripId)`: the loaded trip becomes current and is
        stored under the requested id. */
    method LoadTripDetails(tripId: string, fetched: Result<Trip, Thrown>)
      modifies this
      ensures !loading && currentTripLogs == old(currentTripLogs)
      ensures fetched.Success? ==>
        && trips == Upsert(old(trips), tripId, fetched.value)
        && currentTripId == Some(fetched.value.tripId)
        && error == None
      ensures fetched.Failure? ==>
        && trips == old(trips)
        && currentTripId == old(currentTripId)
        && error == Some(ErrorText(fetched.error, "Failed to load trip details"))
    {
      BeginRequest();
      if fetched.Success? {
        var tripInstance := fetched.value;
        currentTripId := Some(tripInstance.tripId);
        var existingIndex := FirstIndexOf(trips, tripId);
        if existingIndex.Some? {
          trips := trips[existingIndex.value := tripInstance];
        } else {
          trips := trips + [tripInstance];
        }
      } else {
        error := Some(ErrorText(fetched.error, "Failed to load trip details"));
      }
      loading := false;
    }

    /** `loadTripLogs`: the fetched logs replace the current ones. */
    method LoadTripLogs(fetched: Result<TripLogs, Thrown>)
      modifies this
      ensures !loading && trips == old(trips) && currentTripId == old(currentTripId)
      ensures fetched.Success? ==> currentTripLogs == Some(fetched.value) && error == None
      ensures fetched.Failure? ==>
        && currentTripLogs == old(currentTripLogs)
        && error == Some(ErrorText(fetched.error, "Failed to load trip logs"))
    {
      BeginRequest();
      if fetched.Success? {
        currentTripLogs := Some(fetched.value);
      } else {
        error := Some(ErrorText(fetched.error, "Failed to load trip logs"));
      }
      loading := false;
    }
  }

  /** After a successful create the store's current trip is the new trip,
      unless an earlier entry already carries the same id. */
  lemma CreatedTripIsFound(trips: seq<Trip>, t: Trip)
    requires forall k :: 0 <= k < |trips| ==> trips[k].tripId != t.tripId
    ensures FindTrip(trips + [t], t.tripId) == Some(t)
  {
    assert (trips + [t])[|trips|] == t;
  }
}
