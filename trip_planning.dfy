/** The server's trip planner: it turns a trip into an ordered list of route
    segments (drive chunks with refuel stops, pickup, dropoff, trailing rest
    or break) and walks that list with integer-minute counters to emit one
    duty-status log sheet per day under the 11-hour driving, 14-hour on-duty
    and 24-hour day limits, with a 30-minute break after 8 hours of
    continuous driving. */
module TripPlanning {
  import opened Wrappers
  import opened Text
  import opened Records

  const PickupDuration: int := 60
  const DropoffDuration: int := 60
  const FuelIntervalKm: real := 1609.0
  const AverageSpeedKmh: real := 100.0
  const MaxDrivingHours: real := 11.0

  /** A location dictionary as the server reads it: coordinates, and the
      optional `city` and `state` keys. */
  datatype Place = Place(lat: real, lng: real, city: Option<string>, state: Option<string>)

  /** A route segment as stored: an absent distance or duration is a null
      column. */
  datatype Segment = Segment(
    kind: SegmentKind,
    startLocation: Option<Place>,
    endLocation: Option<Place>,
    distanceKm: Option<real>,
    durationMinutes: Option<int>)

  /** The validated trip request the planner starts from. */
  datatype TripRequest = TripRequest(currentLocation: Place, pickupLocation: Place, dropoffLocation: Place, cycleUsedHours: int)

  // ---------------------------------------------------------------------
  // Route segments
  // ---------------------------------------------------------------------

  /** The point a fraction `ratio` of the way from `start` to `end`. */
  function Interpolate(start: Place, end: Place, ratio: real): (p: Place)
    ensures ratio == 0.0 ==> p.lat == start.lat && p.lng == start.lng
    ensures ratio == 1.0 ==> p.lat == end.lat && p.lng == end.lng
  {
    Place(start.lat + (end.lat - start.lat) * ratio, start.lng + (end.lng - start.lng) * ratio, None, None)
  }

  /** Python's `int(x)`: truncation toward zero. */
  function Trunc(x: real): (n: int)
    ensures x >= 0.0 ==> n >= 0 && n as real <= x < n as real + 1.0
    ensures x < 0.0 ==> n <= 0 && n as real - 1.0 < x <= n as real
  {
    if x >= 0.0 then x.Floor else -((-x).Floor)
  }

  function MinReal(a: real, b: real): real { if a <= b then a else b }

  /** How many chunks are at most left once `done` km are covered. */
  function ChunksMeasure(distanceKm: real, done: real): int
  {
    if done < distanceKm then (distanceKm - done).Floor + 1 else 0
  }

  lemma ChunksMeasureDecreases(distanceKm: real, done: real)
    requires 0.0 <= done < distanceKm
    ensures 0 <= ChunksMeasure(distanceKm, done + MinReal(distanceKm - done, FuelIntervalKm)) < ChunksMeasure(distanceKm, done)
  {
    var x := distanceKm - done;
    if x > FuelIntervalKm {
      assert (x - FuelIntervalKm).Floor == x.Floor - 1609;
    }
  }

  function RefuelStop(at: Place): Segment
  {
    Segment(RefuelSeg, Some(at), Some(at), None, Some(30))
  }

  /** The length of the next chunk once `done` km are covered. */
  function ChunkLength(distanceKm: real, done: real): real
  {
    MinReal(distanceKm - done, FuelIntervalKm)
  }

  /** The driving hours a chunk of `chunk` km takes: its share of the leg. */
  function ChunkHours(chunk: real, distanceKm: real, driveHours: real): real
    requires distanceKm != 0.0
  {
    chunk / distanceKm * driveHours
  }

  /** The drive segment for the chunk starting at `done`. */
  function ChunkDrive(start: Place, end: Place, distanceKm: real, driveHours: real, done: real): Segment
    requires 0.0 <= done < distanceKm
  {
    var chunk := ChunkLength(distanceKm, done);
    var hours := ChunkHours(chunk, distanceKm, driveHours);
    Segment(DriveSeg, Some(Interpolate(start, end, done / distanceKm)), Some(Interpolate(start, end, (done + chunk) / distanceKm)),
            Some(chunk), Some(Trunc(hours * 60.0)))
  }

  /** The refuel stop after the chunk starting at `done`, if one is due. */
  function ChunkRefuel(start: Place, end: Place, distanceKm: real, done: real): seq<Segment>
    requires 0.0 <= done < distanceKm
  {
    var chunk := ChunkLength(distanceKm, done);
    if done + chunk < distanceKm && chunk >= FuelIntervalKm then [RefuelStop(Interpolate(start, end, (done + chunk) / distanceKm))] else []
  }

  /** The drive chunks (and refuel stops) still to emit once `done` of
      `distanceKm` are covered: the loop of `_create_drive_segments`. */
  function DriveChunks(start: Place, end: Place, distanceKm: real, driveHours: real, done: real): seq<Segment>
    requires 0.0 <= done
    decreases ChunksMeasure(distanceKm, done)
  {
    if done < distanceKm then
      ChunksMeasureDecreases(distanceKm, done);
      [ChunkDrive(start, end, distanceKm, driveHours, done)] + ChunkRefuel(start, end, distanceKm, done)
        + DriveChunks(start, end, distanceKm, driveHours, done + ChunkLength(distanceKm, done))
    else []
  }

  /** The mandatory stop appended after a drive block. */
  function Trailer(end: Place, driveHours: real): seq<Segment>
  {
    if driveHours > MaxDrivingHours then [Segment(RestSeg, Some(end), Some(end), None, Some(10 * 60))]
    else if driveHours > 8.0 then [Segment(BreakSeg, Some(end), Some(end), None, Some(30))]
    else []
  }

  /** What `_create_drive_segments` returns. */
  function DriveSegments(start: Place, end: Place, distanceKm: real, driveHours: real): seq<Segment>
  {
    DriveChunks(start, end, distanceKm, driveHours, 0.0) + Trailer(end, driveHours)
  }

  /** One step of the chunk recursion. */
  lemma DriveChunksUnfold(start: Place, end: Place, distanceKm: real, driveHours: real, done: real)
    requires 0.0 <= done < distanceKm
    ensures DriveChunks(start, end, distanceKm, driveHours, done)
         == [ChunkDrive(start, end, distanceKm, driveHours, done)] + ChunkRefuel(start, end, distanceKm, done)
            + DriveChunks(start, end, distanceKm, driveHours, done + ChunkLength(distanceKm, done))
  {
    ChunksMeasureDecreases(distanceKm, done);
  }

  /** The body of the `while` loop of `_create_drive_segments`: the drive
      chunk starting at `currentDistance`, then the refuel stop if one is
      due. */
  method EmitChunk(start: Place, end: Place, distanceKm: real, driveHours: real, currentDistance: real)
    returns (emitted: seq<Segment>, nextDistance: real)
    requires 0.0 <= currentDistance < distanceKm
    ensures emitted == [ChunkDrive(start, end, distanceKm, driveHours, currentDistance)] + ChunkRefuel(start, end, distanceKm, currentDistance)
    ensures nextDistance == currentDistance + ChunkLength(distanceKm, currentDistance)
  {
    var remainingDistance := distanceKm - currentDistance;
    var segmentDistance := MinReal(remainingDistance, FuelIntervalKm);
    var segmentHours := ChunkHours(segmentDistance, distanceKm, driveHours);
    var progressStart := currentDistance / distanceKm;
    var progressEnd := (currentDistance + segmentDistance) / distanceKm;
    var segmentStart := Interpolate(start, end, progressStart);
    var segmentEnd := Interpolate(start, end, progressEnd);
    emitted := [Segment(DriveSeg, Some(segmentStart), Some(segmentEnd), Some(segmentDistance), Some(Trunc(segmentHours * 60.0)))];
    nextDistance := currentDistance + segmentDistance;
    if nextDistance < distanceKm && segmentDistance >= FuelIntervalKm {
      emitted := emitted + [RefuelStop(segmentEnd)];
    }
  }

  /** `_create_drive_segments`. */
  method CreateDriveSegments(start: Place, end: Place, distanceKm: real, driveHours: real) returns (segments: seq<Segment>)
    ensures segments == DriveSegments(start, end, distanceKm, driveHours)
  {
    segments := [];
    var currentDistance := 0.0;
    while currentDistance < distanceKm
      invariant 0.0 <= currentDistance
      invariant segments + DriveChunks(start, end, distanceKm, driveHours, currentDistance)
             == DriveChunks(start, end, distanceKm, driveHours, 0.0)
      decreases ChunksMeasure(distanceKm, currentDistance)
    {
      ghost var before := segments;
      ghost var done := currentDistance;
      var emitted;
      emitted, currentDistance := EmitChunk(start, end, distanceKm, driveHours, currentDistance);
      DriveChunksUnfold(start, end, distanceKm, driveHours, done);
      ChunksMeasureDecreases(distanceKm, done);
      segments := segments + emitted;
      assert before + DriveChunks(start, end, distanceKm, driveHours, done)
          == segments + DriveChunks(start, end, distanceKm, driveHours, currentDistance);
    }
    segments := segments + Trailer(end, driveHours);
  }

  /** The shape of a chunk list: empty, or one drive chunk of at most 1609 km,
      or a full 1609 km chunk, a 30-minute refuel stop and a non-empty rest. */
  ghost predicate Chunked(r: seq<Segment>)
    decreases |r|
  {
    if |r| == 0 then true
    else
      && r[0].kind == DriveSeg
      && r[0].distanceKm.Some? && 0.0 < r[0].distanceKm.value <= FuelIntervalKm
      && (|r| == 1 ||
          (&& r[0].distanceKm.value == FuelIntervalKm
           && |r| > 2 && r[1].kind == RefuelSeg && r[1].durationMinutes == Some(30)
           && Chunked(r[2..])))
  }

  /** Drive chunks are at most 1609 km, refuel stops come only after a full
      1609 km chunk with distance remaining, and there are none at all when
      nothing is left to drive. */
  lemma {:induction false} DriveChunksShape(start: Place, end: Place, distanceKm: real, driveHours: real, done: real)
    requires 0.0 <= done
    ensures Chunked(DriveChunks(start, end, distanceKm, driveHours, done))
    ensures DriveChunks(start, end, distanceKm, driveHours, done) == [] <==> distanceKm <= done
    decreases ChunksMeasure(distanceKm, done)
  {
    if done < distanceKm {
      var next := done + ChunkLength(distanceKm, done);
      ChunksMeasureDecreases(distanceKm, done);
      DriveChunksShape(start, end, distanceKm, driveHours, next);
      var r := DriveChunks(start, end, distanceKm, driveHours, done);
      var rest := DriveChunks(start, end, distanceKm, driveHours, next);
      var refuel := ChunkRefuel(start, end, distanceKm, done);
      assert r == [ChunkDrive(start, end, distanceKm, driveHours, done)] + refuel + rest;
      if |refuel| == 1 {
        assert r[2..] == rest;
      } else {
        assert rest == [];
      }
    }
  }

  /** Sum of the truthy `distance_km` values, as `plan_trip` totals them. */
  function TotalDistance(segments: seq<Segment>): real
  {
    if |segments| == 0 then 0.0
    else
      (match segments[0].distanceKm case Some(d) => d case None => 0.0) + TotalDistance(segments[1..])
  }

  lemma {:induction false} TotalDistanceAppend(a: seq<Segment>, b: seq<Segment>)
    ensures TotalDistance(a + b) == TotalDistance(a) + TotalDistance(b)
  {
    if |a| > 0 {
      assert (a + b)[1..] == a[1..] + b;
      TotalDistanceAppend(a[1..], b);
    } else {
      assert a + b == b;
    }
  }

  /** The chunks cover exactly the distance left to drive. */
  lemma {:induction false} DriveChunksCoverDistance(start: Place, end: Place, distanceKm: real, driveHours: real, done: real)
    requires 0.0 <= done
    ensures TotalDistance(DriveChunks(start, end, distanceKm, driveHours, done)) == if done < distanceKm then distanceKm - done else 0.0
    decreases ChunksMeasure(distanceKm, done)
  {
    if done < distanceKm {
      var next := done + ChunkLength(distanceKm, done);
      ChunksMeasureDecreases(distanceKm, done);
      DriveChunksCoverDistance(start, end, distanceKm, driveHours, next);
      var rest := DriveChunks(start, end, distanceKm, driveHours, next);
      var refuel := ChunkRefuel(start, end, distanceKm, done);
      var head := [ChunkDrive(start, end, distanceKm, driveHours, done)] + refuel;
      assert DriveChunks(start, end, distanceKm, driveHours, done) == head + rest;
      TotalDistanceAppend(head, rest);
      if |refuel| == 1 {
        assert head[1..][1..] == [];
      } else {
        assert head[1..] == [];
      }
    }
  }

  /** Every segment has a duration, and none is negative. */
  predicate DurationsNonnegative(segments: seq<Segment>)
  {
    forall i :: 0 <= i < |segments| ==> segments[i].durationMinutes.Some? && segments[i].durationMinutes.value >= 0
  }

  lemma DurationsNonnegativeAppend(a: seq<Segment>, b: seq<Segment>)
    requires DurationsNonnegative(a) && DurationsNonnegative(b)
    ensures DurationsNonnegative(a + b)
  {
    forall i | 0 <= i < |a + b| ensures (a + b)[i].durationMinutes.Some? && (a + b)[i].durationMinutes.value >= 0 {
      if i >= |a| { assert (a + b)[i] == b[i - |a|]; }
    }
  }

  lemma {:induction false} DriveChunksDurations(start: Place, end: Place, distanceKm: real, driveHours: real, done: real)
    requires 0.0 <= done && driveHours >= 0.0
    ensures DurationsNonnegative(DriveChunks(start, end, distanceKm, driveHours, done))
    decreases ChunksMeasure(distanceKm, done)
  {
    if done < distanceKm {
      var chunk := ChunkLength(distanceKm, done);
      var next := done + chunk;
      assert chunk / distanceKm >= 0.0;
      assert ChunkHours(chunk, distanceKm, driveHours) >= 0.0;
      ChunksMeasureDecreases(distanceKm, done);
      DriveChunksDurations(start, end, distanceKm, driveHours, next);
      var head := [ChunkDrive(start, end, distanceKm, driveHours, done)] + ChunkRefuel(start, end, distanceKm, done);
      assert DurationsNonnegative(head);
      DurationsNonnegativeAppend(head, DriveChunks(start, end, distanceKm, driveHours, next));
    }
  }

  function PickupStop(at: Place): Segment
  {
    Segment(PickupSeg, Some(at), Some(at), None, Some(PickupDuration))
  }

  function DropoffStop(at: Place): Segment
  {
    Segment(DropoffSeg, Some(at), Some(at), None, Some(DropoffDuration))
  }

  /** `_calculate_route_segments`, with the two great-circle distances
      supplied by the caller. */
  method CalculateRouteSegments(trip: TripRequest, pickupDistanceKm: real, dropoffDistanceKm: real) returns (segments: seq<Segment>)
    ensures segments == PlannedRoute(trip, pickupDistanceKm, dropoffDistanceKm)
  {
    segments := [];
    var pickupDriveHours := pickupDistanceKm / AverageSpeedKmh;
    var toPickup := CreateDriveSegments(trip.currentLocation, trip.pickupLocation, pickupDistanceKm, pickupDriveHours);
    segments := segments + toPickup;
    segments := segments + [PickupStop(trip.pickupLocation)];
    var dropoffDriveHours := dropoffDistanceKm / AverageSpeedKmh;
    var toDropoff := CreateDriveSegments(trip.pickupLocation, trip.dropoffLocation, dropoffDistanceKm, dropoffDriveHours);
    segments := segments + toDropoff;
    segments := segments + [DropoffStop(trip.dropoffLocation)];
  }

  function CountKind(segments: seq<Segment>, k: SegmentKind): nat
  {
    if |segments| == 0 then 0
    else (if segments[0].kind == k then 1 else 0) + CountKind(segments[1..], k)
  }

  lemma {:induction false} CountKindAppend(a: seq<Segment>, b: seq<Segment>, k: SegmentKind)
    ensures CountKind(a + b, k) == CountKind(a, k) + CountKind(b, k)
  {
    if |a| > 0 {
      assert (a + b)[1..] == a[1..] + b;
      CountKindAppend(a[1..], b, k);
    } else {
      assert a + b == b;
    }
  }

  lemma {:induction false} ChunkedHasNoStops(r: seq<Segment>)
    requires Chunked(r)
    ensures CountKind(r, PickupSeg) == 0 && CountKind(r, DropoffSeg) == 0
    decreases |r|
  {
    if |r| > 1 {
      ChunkedHasNoStops(r[2..]);
      assert r[1..][1..] == r[2..];
    }
  }

  lemma DriveSegmentsHaveNoStops(start: Place, end: Place, distanceKm: real, driveHours: real)
    ensures CountKind(DriveSegments(start, end, distanceKm, driveHours), PickupSeg) == 0
    ensures CountKind(DriveSegments(start, end, distanceKm, driveHours), DropoffSeg) == 0
  {
    var c := DriveChunks(start, end, distanceKm, driveHours, 0.0);
    var t := Trailer(end, driveHours);
    DriveChunksShape(start, end, distanceKm, driveHours, 0.0);
    ChunkedHasNoStops(c);
    CountKindAppend(c, t, PickupSeg);
    CountKindAppend(c, t, DropoffSeg);
  }

  /** A non-empty chunk list ends with a drive chunk: a refuel stop is
      never last. */
  lemma {:induction false} ChunkedEndsWithDrive(r: seq<Segment>)
    requires Chunked(r) && |r| > 0
    ensures r[|r| - 1].kind == DriveSeg
    decreases |r|
  {
    if |r| > 1 {
      ChunkedEndsWithDrive(r[2..]);
      assert r[2..][|r[2..]| - 1] == r[|r| - 1];
    }
  }

  /** What a drive block ends with: a 600-minute rest after more than 11
      hours of driving, else a 30-minute break after more than 8, else its
      last drive chunk; a block with nothing to drive and at most 8 hours is
      empty. */
  lemma DriveSegmentsTrailer(start: Place, end: Place, distanceKm: real, driveHours: real)
    ensures var r := DriveSegments(start, end, distanceKm, driveHours);
            && (driveHours > MaxDrivingHours ==>
                  |r| > 0 && r[|r| - 1] == Segment(RestSeg, Some(end), Some(end), None, Some(600)))
            && (8.0 < driveHours <= MaxDrivingHours ==>
                  |r| > 0 && r[|r| - 1] == Segment(BreakSeg, Some(end), Some(end), None, Some(30)))
            && (driveHours <= 8.0 && distanceKm > 0.0 ==> |r| > 0 && r[|r| - 1].kind == DriveSeg)
            && (driveHours <= 8.0 && distanceKm <= 0.0 ==> r == [])
  {
    var c := DriveChunks(start, end, distanceKm, driveHours, 0.0);
    DriveChunksShape(start, end, distanceKm, driveHours, 0.0);
    if driveHours <= 8.0 && distanceKm > 0.0 {
      ChunkedEndsWithDrive(c);
      assert DriveSegments(start, end, distanceKm, driveHours) == c;
    }
  }

  /** The route `_calculate_route_segments` builds for the two distances. */
  function PlannedRoute(trip: TripRequest, d1: real, d2: real): seq<Segment>
  {
    DriveSegments(trip.currentLocation, trip.pickupLocation, d1, d1 / AverageSpeedKmh)
    + [PickupStop(trip.pickupLocation)]
    + DriveSegments(trip.pickupLocation, trip.dropoffLocation, d2, d2 / AverageSpeedKmh)
    + [DropoffStop(trip.dropoffLocation)]
  }

  /** A planned route holds exactly one pickup, right after the drive block
      to the pickup, and exactly one dropoff, as its last segment. */
  lemma RouteStops(trip: TripRequest, d1: real, d2: real)
    ensures var r := PlannedRoute(trip, d1, d2);
            && r[|DriveSegments(trip.currentLocation, trip.pickupLocation, d1, d1 / AverageSpeedKmh)|].kind == PickupSeg
            && r[|r| - 1].kind == DropoffSeg
            && CountKind(r, PickupSeg) == 1
            && CountKind(r, DropoffSeg) == 1
  {
    var block1 := DriveSegments(trip.currentLocation, trip.pickupLocation, d1, d1 / AverageSpeedKmh);
    var block2 := DriveSegments(trip.pickupLocation, trip.dropoffLocation, d2, d2 / AverageSpeedKmh);
    var p, q := [PickupStop(trip.pickupLocation)], [DropoffStop(trip.dropoffLocation)];
    DriveSegmentsHaveNoStops(trip.currentLocation, trip.pickupLocation, d1, d1 / AverageSpeedKmh);
    DriveSegmentsHaveNoStops(trip.pickupLocation, trip.dropoffLocation, d2, d2 / AverageSpeedKmh);
    CountKindAppend(block1 + p + block2, q, PickupSeg);
    CountKindAppend(block1 + p, block2, PickupSeg);
    CountKindAppend(block1, p, PickupSeg);
    CountKindAppend(block1 + p + block2, q, DropoffSeg);
    CountKindAppend(block1 + p, block2, DropoffSeg);
    CountKindAppend(block1, p, DropoffSeg);
  }

  /** For non-negative distances every planned segment carries a
      non-negative duration. */
  lemma RouteDurations(trip: TripRequest, d1: real, d2: real)
    requires d1 >= 0.0 && d2 >= 0.0
    ensures DurationsNonnegative(PlannedRoute(trip, d1, d2))
  {
    var h1, h2 := d1 / AverageSpeedKmh, d2 / AverageSpeedKmh;
    var c1 := DriveChunks(trip.currentLocation, trip.pickupLocation, d1, h1, 0.0);
    var c2 := DriveChunks(trip.pickupLocation, trip.dropoffLocation, d2, h2, 0.0);
    var t1, t2 := Trailer(trip.pickupLocation, h1), Trailer(trip.dropoffLocation, h2);
    var p, q := [PickupStop(trip.pickupLocation)], [DropoffStop(trip.dropoffLocation)];
    DriveChunksDurations(trip.currentLocation, trip.pickupLocation, d1, h1, 0.0);
    DriveChunksDurations(trip.pickupLocation, trip.dropoffLocation, d2, h2, 0.0);
    DurationsNonnegativeAppend(c1, t1);
    DurationsNonnegativeAppend(c1 + t1, p);
    DurationsNonnegativeAppend(c1 + t1 + p, c2);
    DurationsNonnegativeAppend(c1 + t1 + p + c2, t2);
    DurationsNonnegativeAppend(c1 + t1 + p + c2 + t2, q);
    assert PlannedRoute(trip, d1, d2) == c1 + t1 + p + c2 + t2 + q;
  }

  /** The summed drive-block distance, which the trailer leaves unchanged. */
  lemma DriveSegmentsDistance(start: Place, end: Place, distanceKm: real, driveHours: real)
    requires distanceKm >= 0.0
    ensures TotalDistance(DriveSegments(start, end, distanceKm, driveHours)) == distanceKm
  {
    var c := DriveChunks(start, end, distanceKm, driveHours, 0.0);
    var t := Trailer(end, driveHours);
    DriveChunksCoverDistance(start, end, distanceKm, driveHours, 0.0);
    TotalDistanceAppend(c, t);
    assert |t| > 0 ==> t[1..] == [];
  }

  /** The drive chunks add up to the two distances: the `total_distance_km`
      that `plan_trip` stores. */
  lemma RouteDistance(trip: TripRequest, d1: real, d2: real)
    requires d1 >= 0.0 && d2 >= 0.0
    ensures TotalDistance(PlannedRoute(trip, d1, d2)) == d1 + d2
  {
    var b1 := DriveSegments(trip.currentLocation, trip.pickupLocation, d1, d1 / AverageSpeedKmh);
    var b2 := DriveSegments(trip.pickupLocation, trip.dropoffLocation, d2, d2 / AverageSpeedKmh);
    var p, q := [PickupStop(trip.pickupLocation)], [DropoffStop(trip.dropoffLocation)];
    DriveSegmentsDistance(trip.currentLocation, trip.pickupLocation, d1, d1 / AverageSpeedKmh);
    DriveSegmentsDistance(trip.pickupLocation, trip.dropoffLocation, d2, d2 / AverageSpeedKmh);
    TotalDistanceAppend(b1, p);
    TotalDistanceAppend(b1 + p, b2);
    TotalDistanceAppend(b1 + p + b2, q);
    assert p[1..] == [] && q[1..] == [];
  }
}
