/** The route panel's pure helpers: segment colours and symbols, the
    duration text, the drive-time and per-type folds over a trip's route,
    the drawn route lines and stop markers, and the collected map points
    that fix the map's centre and zoom. */
module RouteVisualization {
  import opened Wrappers
  import opened Text
  import opened Records

  // ---------------------------------------------------------------------
  // Type maps
  // ---------------------------------------------------------------------

  /** `getSegmentColor`: a fixed colour per known type, grey otherwise. */
  function SegmentColor(t: string): (c: string)
    ensures t !in KnownKindNames ==> c == "#6c757d"
  {
    match t
    case "drive" => "#28a745"
    case "pickup" => "#ffc107"
    case "dropoff" => "#dc3545"
    case "refuel" => "#17a2b8"
    case "rest" => "#6f42c1"
    case "break" => "#fd7e14"
    case _ => "#6c757d"
  }

  /** Known types get pairwise different colours, none of them the default. */
  lemma SegmentColorsDistinct(a: SegmentKind, b: SegmentKind)
    ensures SegmentColor(KindName(a)) != "#6c757d"
    ensures a != b ==> SegmentColor(KindName(a)) != SegmentColor(KindName(b))
  {
  }

  /** `getSegmentSymbol`: a fixed symbol per known type, a pin otherwise. */
  function SegmentSymbol(t: string): (s: string)
    ensures t !in KnownKindNames ==> s == "\U{1F4CC}"
  {
    match t
    case "drive" => "\U{1F69B}"
    case "pickup" => "\U{1F4E6}"
    case "dropoff" => "\U{1F4CD}"
    case "refuel" => "\U{26FD}"
    case "rest" => "\U{1F4A4}"
    case "break" => "\U{2615}"
    case _ => "\U{1F4CC}"
  }

  lemma SegmentSymbolsDistinct(a: SegmentKind, b: SegmentKind)
    ensures SegmentSymbol(KindName(a)) != "\U{1F4CC}"
    ensures a != b ==> SegmentSymbol(KindName(a)) != SegmentSymbol(KindName(b))
  {
  }

  // ---------------------------------------------------------------------
  // Durations
  // ---------------------------------------------------------------------

  /** `formatDuration`: "N/A" for a missing or zero duration, otherwise
      "{h}h {r}m" or "{r}m". */
  function FormatDuration(minutes: Option<int>): (r: string)
    ensures minutes.None? || minutes.value == 0 ==> r == "N/A"
    ensures minutes.Some? && minutes.value != 0 ==> r == DurationText(minutes.value)
  {
    if minutes.None? || minutes.value == 0 then "N/A" else DurationText(minutes.value)
  }

  /** A positive duration can be read back from its text, and no duration
      text reads like "N/A". */
  lemma FormatDurationReadsBack(m: int)
    requires m > 0
    ensures ParseDurationText(FormatDuration(Some(m))) == Some(m)
    ensures FormatDuration(Some(m)) != "N/A"
  {
    DurationTextRoundTrip(m);
    assert ParseDurationText("N/A") == None;
  }

  /** A segment's type as the panel sees it. */
  function TypeOf(s: RouteSegment): string { KindName(s.kind) }

  // ---------------------------------------------------------------------
  // Folds over the route
  // ---------------------------------------------------------------------

  /** The duration a segment adds to the drive total: a drive's truthy
      duration, else nothing. */
  function DriveContribution(s: RouteSegment): int
  {
    if TypeOf(s) == "drive" && s.durationMinutes.Some? && s.durationMinutes.value != 0 then s.durationMinutes.value else 0
  }

  /** The `reduce` of `totalDriveTime`, left to right. */
  function DriveTimeFold(segments: seq<RouteSegment>): int
    decreases |segments|
  {
    if |segments| == 0 then 0
    else DriveTimeFold(segments[..|segments| - 1]) + DriveContribution(segments[|segments| - 1])
  }

  /** `totalDriveTime`: no route counts as 0. */
  function TotalDriveTime(route: Option<seq<RouteSegment>>): int
  {
    if route.None? then 0 else DriveTimeFold(route.value)
  }

  /** The truthy durations of the drive segments, in route order. */
  function DriveDurations(segments: seq<RouteSegment>): (r: seq<int>)
    ensures forall i :: 0 <= i < |r| ==> r[i] != 0
  {
    if |segments| == 0 then []
    else (if DriveContribution(segments[0]) != 0 then [DriveContribution(segments[0])] else []) + DriveDurations(segments[1..])
  }

  function Sum(xs: seq<int>): int
  {
    if |xs| == 0 then 0 else xs[0] + Sum(xs[1..])
  }

  lemma {:induction false} SumAppend(a: seq<int>, b: seq<int>)
    ensures Sum(a + b) == Sum(a) + Sum(b)
  {
    if |a| == 0 {
      assert a + b == b;
    } else {
      assert (a + b)[1..] == a[1..] + b;
      SumAppend(a[1..], b);
    }
  }

  lemma {:induction false} DriveDurationsAppend(a: seq<RouteSegment>, b: seq<RouteSegment>)
    ensures DriveDurations(a + b) == DriveDurations(a) + DriveDurations(b)
  {
    if |a| == 0 {
      assert a + b == b;
    } else {
      assert (a + b)[1..] == a[1..] + b;
      DriveDurationsAppend(a[1..], b);
    }
  }

  /** The total is the sum of the truthy drive durations. */
  lemma {:induction false} DriveTimeIsSum(segments: seq<RouteSegment>)
    ensures DriveTimeFold(segments) == Sum(DriveDurations(segments))
    decreases |segments|
  {
    if |segments| > 0 {
      var init, last := segments[..|segments| - 1], segments[|segments| - 1];
      assert segments == init + [last];
      DriveTimeIsSum(init);
      DriveDurationsAppend(init, [last]);
      assert [last][1..] == [];
      SumAppend(DriveDurations(init), DriveDurations([last]));
    }
  }

  /** Non-drive segments and segments without a duration add nothing: the
      total over a route made of them is 0. */
  lemma {:induction false} NoDrivesNoTime(segments: seq<RouteSegment>)
    requires forall i :: 0 <= i < |segments| ==> segments[i].kind != DriveSeg || segments[i].durationMinutes.None?
    ensures DriveTimeFold(segments) == 0
    decreases |segments|
  {
    if |segments| > 0 {
      NoDrivesNoTime(segments[..|segments| - 1]);
    }
  }

  /** With non-negative durations the total is non-negative and never below
      any single drive's duration. */
  lemma {:induction false} DriveTimeBounds(segments: seq<RouteSegment>, i: nat)
    requires forall k :: 0 <= k < |segments| && segments[k].durationMinutes.Some? ==> segments[k].durationMinutes.value >= 0
    requires i < |segments|
    ensures 0 <= DriveContribution(segments[i]) <= DriveTimeFold(segments)
    decreases |segments|
  {
    if i < |segments| - 1 {
      DriveTimeBounds(segments[..|segments| - 1], i);
    } else if |segments| > 1 {
      DriveTimeNonnegative(segments[..|segments| - 1]);
    }
  }

  lemma {:induction false} DriveTimeNonnegative(segments: seq<RouteSegment>)
    requires forall k :: 0 <= k < |segments| && segments[k].durationMinutes.Some? ==> segments[k].durationMinutes.value >= 0
    ensures DriveTimeFold(segments) >= 0
    decreases |segments|
  {
    if |segments| > 0 {
      DriveTimeNonnegative(segments[..|segments| - 1]);
    }
  }

  /** How many segments have type `t`. */
  function Occurrences(segments: seq<RouteSegment>, t: string): nat
    decreases |segments|
  {
    if |segments| == 0 then 0
    else Occurrences(segments[..|segments| - 1], t) + (if TypeOf(segments[|segments| - 1]) == t then 1 else 0)
  }

  /** The `reduce` of `segmentCounts`: `acc[type] = (acc[type] || 0) + 1`. */
  function CountsFold(segments: seq<RouteSegment>): map<string, nat>
    decreases |segments|
  {
    if |segments| == 0 then map[]
    else
      var acc := CountsFold(segments[..|segments| - 1]);
      var t := TypeOf(segments[|segments| - 1]);
      acc[t := (if t in acc then acc[t] else 0) + 1]
  }

  /** `segmentCounts`: no route gives no keys. */
  function SegmentCounts(route: Option<seq<RouteSegment>>): map<string, nat>
  {
    if route.None? then map[] else CountsFold(route.value)
  }

  /** Only types that occur get a key, and each key holds its type's count. */
  lemma {:induction false} CountsAreOccurrences(segments: seq<RouteSegment>)
    ensures forall t :: t in CountsFold(segments) <==> Occurrences(segments, t) > 0
    ensures forall t :: t in CountsFold(segments) ==> CountsFold(segments)[t] == Occurrences(segments, t)
    decreases |segments|
  {
    if |segments| > 0 {
      CountsAreOccurrences(segments[..|segments| - 1]);
    }
  }

  /** A type occurs exactly when some segment carries it. */
  lemma {:induction false} OccursIff(segments: seq<RouteSegment>, t: string)
    ensures Occurrences(segments, t) > 0 <==> exists i :: 0 <= i < |segments| && TypeOf(segments[i]) == t
    decreases |segments|
  {
    if |segments| > 0 {
      var init := segments[..|segments| - 1];
      OccursIff(init, t);
      if Occurrences(init, t) > 0 {
        var i :| 0 <= i < |init| && TypeOf(init[i]) == t;
        assert segments[i] == init[i];
      }
      if exists i :: 0 <= i < |segments| && TypeOf(segments[i]) == t {
        var i :| 0 <= i < |segments| && TypeOf(segments[i]) == t;
        if i < |init| {
          assert init[i] == segments[i];
        }
      }
    }
  }

  /** The counts of the six types, read with `|| 0`, summed. */
  function Tally(counts: map<string, nat>, kinds: seq<SegmentKind>): nat
  {
    if |kinds| == 0 then 0
    else (if KindName(kinds[0]) in counts then counts[KindName(kinds[0])] else 0) + Tally(counts, kinds[1..])
  }

  function OccurrenceTally(segments: seq<RouteSegment>, kinds: seq<SegmentKind>): nat
  {
    if |kinds| == 0 then 0 else Occurrences(segments, KindName(kinds[0])) + OccurrenceTally(segments, kinds[1..])
  }

  /** How many entries of `kinds` equal `k`. */
  function Hits(k: SegmentKind, kinds: seq<SegmentKind>): nat
  {
    if |kinds| == 0 then 0 else (if kinds[0] == k then 1 else 0) + Hits(k, kinds[1..])
  }

  lemma {:induction false} OccurrenceTallyStep(init: seq<RouteSegment>, last: RouteSegment, kinds: seq<SegmentKind>)
    ensures OccurrenceTally(init + [last], kinds) == OccurrenceTally(init, kinds) + Hits(last.kind, kinds)
    decreases |kinds|
  {
    var segments := init + [last];
    assert segments[..|segments| - 1] == init;
    if |kinds| > 0 {
      OccurrenceTallyStep(init, last, kinds[1..]);
      if KindName(kinds[0]) == KindName(last.kind) {
        KindNameInjective(kinds[0], last.kind);
      }
    }
  }

  lemma KindNameInjective(a: SegmentKind, b: SegmentKind)
    requires KindName(a) == KindName(b)
    ensures a == b
  {
  }

  lemma EveryKindListedOnce(k: SegmentKind)
    ensures Hits(k, AllKinds) == 1
  {
    assert AllKinds[1..][1..][1..][1..][1..][1..] == [];
  }

  lemma {:induction false} OccurrencesCoverRoute(segments: seq<RouteSegment>)
    ensures OccurrenceTally(segments, AllKinds) == |segments|
    decreases |segments|
  {
    if |segments| == 0 {
      EmptyRouteTally(segments, AllKinds);
    } else {
      var init, last := segments[..|segments| - 1], segments[|segments| - 1];
      assert segments == init + [last];
      OccurrencesCoverRoute(init);
      OccurrenceTallyStep(init, last, AllKinds);
      EveryKindListedOnce(last.kind);
    }
  }

  lemma {:induction false} EmptyRouteTally(segments: seq<RouteSegment>, kinds: seq<SegmentKind>)
    requires |segments| == 0
    ensures OccurrenceTally(segments, kinds) == 0
    decreases |kinds|
  {
    if |kinds| > 0 {
      EmptyRouteTally(segments, kinds[1..]);
    }
  }

  lemma {:induction false} TallyIsOccurrenceTally(segments: seq<RouteSegment>, kinds: seq<SegmentKind>)
    ensures Tally(CountsFold(segments), kinds) == OccurrenceTally(segments, kinds)
    decreases |kinds|
  {
    if |kinds| > 0 {
      CountsAreOccurrences(segments);
      TallyIsOccurrenceTally(segments, kinds[1..]);
    }
  }

  /** The counts of the six types add up to the route's length. */
  lemma CountsSumToLength(segments: seq<RouteSegment>)
    ensures Tally(CountsFold(segments), AllKinds) == |segments|
  {
    TallyIsOccurrenceTally(segments, AllKinds);
    OccurrencesCoverRoute(segments);
  }

  // ---------------------------------------------------------------------
  // Route lines and markers
  // ---------------------------------------------------------------------

  /** A drive segment with both endpoints is drawn as a line. */
  predicate DrawsLine(s: RouteSegment)
  {
    TypeOf(s) == "drive" && s.startLocation.Some? && s.endLocation.Some?
  }

  /** The `filter` of `routeLines`, in route order. */
  function LineLegs(segments: seq<RouteSegment>): (r: seq<RouteSegment>)
    ensures forall i :: 0 <= i < |r| ==> DrawsLine(r[i])
    ensures |r| <= |segments|
  {
    if |segments| == 0 then []
    else (if DrawsLine(segments[0]) then [segments[0]] else []) + LineLegs(segments[1..])
  }

  lemma {:induction false} LineLegsAppend(a: seq<RouteSegment>, b: seq<RouteSegment>)
    ensures LineLegs(a + b) == LineLegs(a) + LineLegs(b)
  {
    if |a| == 0 {
      assert a + b == b;
    } else {
      assert (a + b)[1..] == a[1..] + b;
      LineLegsAppend(a[1..], b);
    }
  }

  /** One leg per drawable segment: how many segments draw a line. */
  function LineCount(segments: seq<RouteSegment>): nat
  {
    if |segments| == 0 then 0 else (if DrawsLine(segments[0]) then 1 else 0) + LineCount(segments[1..])
  }

  lemma {:induction false} LineLegsCount(segments: seq<RouteSegment>)
    ensures |LineLegs(segments)| == LineCount(segments)
  {
    if |segments| > 0 {
      LineLegsCount(segments[1..]);
    }
  }

  /** A drawable segment is kept, anything else dropped. */
  lemma LineLegsSingle(s: RouteSegment)
    ensures LineLegs([s]) == if DrawsLine(s) then [s] else []
  {
    assert [s][1..] == [];
  }

  datatype RouteLine = RouteLine(from: Location, to: Location, color: string, key: string)

  /** `routeLines`: each kept leg drawn in the drive colour and keyed by its
      position among the kept legs. */
  function RouteLines(route: Option<seq<RouteSegment>>): (r: seq<RouteLine>)
    ensures route.None? ==> r == []
    ensures route.Some? ==> |r| == |LineLegs(route.value)|
    ensures route.Some? ==> forall i :: 0 <= i < |r| ==>
      && r[i].from == LineLegs(route.value)[i].startLocation.value
      && r[i].to == LineLegs(route.value)[i].endLocation.value
      && r[i].color == "#28a745"
      && r[i].key == "route-" + NatToString(i)
  {
    if route.None? then []
    else
      var legs := LineLegs(route.value);
      seq(|legs|, i requires 0 <= i < |legs| =>
        RouteLine(legs[i].startLocation.value, legs[i].endLocation.value, SegmentColor(TypeOf(legs[i])), "route-" + NatToString(i)))
  }

  /** The line keys are pairwise distinct. */
  lemma RouteLineKeysDistinct(route: Option<seq<RouteSegment>>, i: nat, j: nat)
    requires i < |RouteLines(route)| && j < |RouteLines(route)| && i != j
    ensures RouteLines(route)[i].key != RouteLines(route)[j].key
  {
    var a, b := NatToString(i), NatToString(j);
    if a == b {
      NatToStringRoundTrip(i);
      NatToStringRoundTrip(j);
    } else {
      assert ("route-" + a)[6..] == a && ("route-" + b)[6..] == b;
    }
  }

  /** A stop marker is drawn for a non-drive segment with a start location. */
  predicate ShowsMarker(s: RouteSegment)
  {
    s.startLocation.Some? && TypeOf(s) != "drive"
  }

  /** The indices of the segments that get a marker, among the first `n`. */
  function MarkerIndices(segments: seq<RouteSegment>, n: nat): (r: seq<nat>)
    requires n <= |segments|
    ensures forall k :: 0 <= k < |r| ==> r[k] < n && ShowsMarker(segments[r[k]])
    ensures forall k, l :: 0 <= k < l < |r| ==> r[k] < r[l]
    ensures forall i :: 0 <= i < n && ShowsMarker(segments[i]) ==> i in r
  {
    if n == 0 then [] else MarkerIndices(segments, n - 1) + (if ShowsMarker(segments[n - 1]) then [n - 1] else [])
  }

  /** The route's markers: exactly the segments `ShowsMarker` admits, in
      route order. */
  function SegmentMarkers(route: Option<seq<RouteSegment>>): (r: seq<nat>)
    ensures route.None? ==> r == []
    ensures route.Some? ==> forall i :: i in r <==> 0 <= i < |route.value| && ShowsMarker(route.value[i])
  {
    if route.None? then [] else MarkerIndices(route.value, |route.value|)
  }

  // ---------------------------------------------------------------------
  // Map points, centre and zoom
  // ---------------------------------------------------------------------

  function Present(l: Option<Location>): seq<Location>
  {
    if l.Some? then [l.value] else []
  }

  /** The endpoints the route segments add, segment by segment. */
  function SegmentPoints(segments: seq<RouteSegment>): seq<Location>
    decreases |segments|
  {
    if |segments| == 0 then []
    else
      var s := segments[|segments| - 1];
      SegmentPoints(segments[..|segments| - 1]) + Present(s.startLocation) + Present(s.endLocation)
  }

  /** The points `allLocations` collects: the trip's three locations in
      order, then every segment's start and end, skipping missing ones. */
  function TripPoints(trip: Trip): seq<Location>
  {
    Present(trip.currentLocation) + Present(trip.pickupLocation) + Present(trip.dropoffLocation)
    + (if trip.route.Some? then SegmentPoints(trip.route.value) else [])
  }

  lemma SegmentPointsSnoc(route: seq<RouteSegment>, i: nat)
    requires i < |route|
    ensures SegmentPoints(route[..i + 1]) == SegmentPoints(route[..i]) + Present(route[i].startLocation) + Present(route[i].endLocation)
  {
    assert route[..i + 1][..i] == route[..i];
  }

  /** The `push` calls for the trip's own three locations. */
  method CollectTripLocations(trip: Trip) returns (allLocations: seq<Location>)
    ensures allLocations == Present(trip.currentLocation) + Present(trip.pickupLocation) + Present(trip.dropoffLocation)
  {
    allLocations := [];
    if trip.currentLocation.Some? {
      allLocations := allLocations + [trip.currentLocation.value];
    }
    if trip.pickupLocation.Some? {
      allLocations := allLocations + [trip.pickupLocation.value];
    }
    if trip.dropoffLocation.Some? {
      allLocations := allLocations + [trip.dropoffLocation.value];
    }
  }

  /** The `forEach` over the route, pushing each segment's present endpoints. */
  method CollectSegmentLocations(route: seq<RouteSegment>, start: seq<Location>) returns (allLocations: seq<Location>)
    ensures allLocations == start + SegmentPoints(route)
  {
    allLocations := start;
    for i := 0 to |route|
      invariant allLocations == start + SegmentPoints(route[..i])
    {
      var segment := route[i];
      SegmentPointsSnoc(route, i);
      if segment.startLocation.Some? {
        allLocations := allLocations + [segment.startLocation.value];
      }
      if segment.endLocation.Some? {
        allLocations := allLocations + [segment.endLocation.value];
      }
    }
    assert route[..|route|] == route;
  }

  /** `allLocations`, as the component builds it. */
  method CollectLocations(trip: Trip) returns (allLocations: seq<Location>)
    ensures allLocations == TripPoints(trip)
  {
    allLocations := CollectTripLocations(trip);
    if trip.route.Some? {
      allLocations := CollectSegmentLocations(trip.route.value, allLocations);
    }
  }

  const DefaultCenter := Location(39.8283, -98.5795)

  /** The map centre: the first collected point, else the default. */
  function MapCenter(points: seq<Location>): (c: Location)
    ensures |points| > 0 ==> c == points[0]
    ensures |points| == 0 ==> c == DefaultCenter
  {
    if |points| > 0 then points[0] else DefaultCenter
  }

  /** The zoom: 6 when more than one point was collected, else 4. */
  function MapZoom(points: seq<Location>): (z: int)
    ensures z == 6 <==> |points| > 1
    ensures z == 4 <==> |points| <= 1
  {
    if |points| > 1 then 6 else 4
  }

  /** The map bounds: all points once there is more than one, else none. */
  function MapBounds(points: seq<Location>): (b: Option<seq<Location>>)
    ensures b.Some? <==> |points| > 1
    ensures b.Some? ==> b.value == points
  {
    if |points| > 1 then Some(points) else None
  }

  /** The centre is the trip's current location when there is one, then the
      pickup, then the drop-off. */
  lemma CenterFollowsTripLocations(trip: Trip)
    ensures trip.currentLocation.Some? ==> MapCenter(TripPoints(trip)) == trip.currentLocation.value
    ensures trip.currentLocation.None? && trip.pickupLocation.Some? ==> MapCenter(TripPoints(trip)) == trip.pickupLocation.value
    ensures trip.currentLocation.None? && trip.pickupLocation.None? && trip.dropoffLocation.Some? ==>
      MapCenter(TripPoints(trip)) == trip.dropoffLocation.value
  {
  }

  /** Two of the trip's own locations are enough for the wide zoom. */
  lemma TwoTripLocationsZoomIn(trip: Trip)
    requires trip.currentLocation.Some? && trip.dropoffLocation.Some?
    ensures MapZoom(TripPoints(trip)) == 6
  {
  }
}
