/** The trip details panel: its unguarded duration text, the segment card
    colours, the shortened trip id and the lines a segment card shows. */
module TripDetails {
  import opened Wrappers
  import opened Text
  import opened Records
  import RouteVisualization

  /** `formatDuration` without a guard: every number is rendered. */
  function FormatDuration(minutes: int): string
  {
    DurationText(minutes)
  }

  /** Every non-negative duration, zero included, can be read back. */
  lemma FormatDurationReadsBack(minutes: int)
    requires minutes >= 0
    ensures ParseDurationText(FormatDuration(minutes)) == Some(minutes)
  {
    DurationTextRoundTrip(minutes);
  }

  /** For a non-zero duration the panel and the route panel print the same
      text; for zero the panel prints "0m" where the route panel prints
      "N/A". */
  lemma AgreesWithRoutePanel(m: int)
    ensures m != 0 ==> FormatDuration(m) == RouteVisualization.FormatDuration(Some(m))
    ensures FormatDuration(0) == "0m" && RouteVisualization.FormatDuration(Some(0)) == "N/A"
  {
    assert JsRem(0, 60) == 0;
    assert NatToString(0) == "0";
  }

  /** The card's left border: the route panel's colour map. */
  function BorderColor(t: string): (c: string)
    ensures t !in KnownKindNames ==> c == "#6c757d"
  {
    match t
    case "drive" => "#28a745"
    case "pickup" => "#ffc107"
    case "dropoff" => "#dc3545"
    case "refuel" => "#17a2b8"
    case "rest" => "#6f42c1"
    case "break" => "#fd7e14"
    case _ => "#6c757d"
  }

  /** The border map and the route panel's marker colours agree on every
      type. */
  lemma BorderMatchesSegmentColor(t: string)
    ensures BorderColor(t) == RouteVisualization.SegmentColor(t)
  {
  }

  /** The card's background: a light tint per known type, near-white
      otherwise. */
  function BackgroundColor(t: string): (c: string)
    ensures t !in KnownKindNames ==> c == "#f8f9fa"
  {
    match t
    case "drive" => "#d4edda"
    case "pickup" => "#fff3cd"
    case "dropoff" => "#f8d7da"
    case "refuel" => "#d1ecf1"
    case "rest" => "#e2d9f3"
    case "break" => "#ffeaa7"
    case _ => "#f8f9fa"
  }

  /** Known types get pairwise different backgrounds, none the default, and
      no background repeats a border colour. */
  lemma BackgroundsDistinct(a: SegmentKind, b: SegmentKind)
    ensures BackgroundColor(KindName(a)) != "#f8f9fa"
    ensures a != b ==> BackgroundColor(KindName(a)) != BackgroundColor(KindName(b))
    ensures BackgroundColor(KindName(a)) != BorderColor(KindName(b))
  {
  }

  /** `trip_id.slice(0, 8)` followed by "...". */
  function ShortTripId(id: string): (r: string)
    ensures |id| >= 8 ==> |r| == 11 && r[..8] == id[..8]
    ensures |id| < 8 ==> |r| == |id| + 3 && r[..|id|] == id
    ensures r[|r| - 3..] == "..."
  {
    (if |id| >= 8 then id[..8] else id) + "..."
  }

  /** One detail line of a segment card. A distance or duration of 0 is
      falsy, so its `&&` guard yields the number 0 itself, which React
      renders as a bare "0" in place of the line. */
  datatype CardLine =
    | FromLine(from: Location)
    | ToLine(to: Location)
    | DistanceLine(km: real)
    | DurationLine(text: string)
    | ZeroDistance
    | ZeroDuration

  function FromLines(s: RouteSegment): seq<CardLine>
  {
    if s.startLocation.Some? then [FromLine(s.startLocation.value)] else []
  }

  function ToLines(s: RouteSegment): seq<CardLine>
  {
    if s.endLocation.Some? then [ToLine(s.endLocation.value)] else []
  }

  function DistanceLines(s: RouteSegment): seq<CardLine>
  {
    if s.distanceKm.None? then []
    else if s.distanceKm.value == 0.0 then [ZeroDistance]
    else [DistanceLine(s.distanceKm.value)]
  }

  function DurationLines(s: RouteSegment): seq<CardLine>
  {
    if s.durationMinutes.None? then []
    else if s.durationMinutes.value == 0 then [ZeroDuration]
    else [DurationLine(FormatDuration(s.durationMinutes.value))]
  }

  /** The card's lines, in order: From, To, Distance, Duration. */
  function CardLines(s: RouteSegment): seq<CardLine>
  {
    FromLines(s) + ToLines(s) + DistanceLines(s) + DurationLines(s)
  }

  /** Whether a card shows something at the given rank (0 From, 1 To,
      2 Distance, 3 Duration): the labelled line or, for a 0, the bare
      "0". */
  predicate Shows(s: RouteSegment, rank: nat)
  {
    match rank
    case 0 => s.startLocation.Some?
    case 1 => s.endLocation.Some?
    case 2 => s.distanceKm.Some?
    case _ => s.durationMinutes.Some?
  }

  function LinesOfRank(s: RouteSegment, rank: nat): seq<CardLine>
  {
    match rank
    case 0 => FromLines(s)
    case 1 => ToLines(s)
    case 2 => DistanceLines(s)
    case _ => DurationLines(s)
  }

  lemma LinesOfRankShape(s: RouteSegment, rank: nat)
    requires rank < 4
    ensures |LinesOfRank(s, rank)| <= 1
    ensures |LinesOfRank(s, rank)| == 1 <==> Shows(s, rank)
    ensures forall l :: l in LinesOfRank(s, rank) ==> LineRank(l) == rank
  {
  }

  /** Something appears at each rank exactly when its field is present. */
  lemma CardShowsLine(s: RouteSegment, rank: nat)
    requires rank < 4
    ensures (exists l :: l in CardLines(s) && LineRank(l) == rank) <==> Shows(s, rank)
  {
    var lines := CardLines(s);
    forall r | r < 4 {
      LinesOfRankShape(s, r);
    }
    assert lines == LinesOfRank(s, 0) + LinesOfRank(s, 1) + LinesOfRank(s, 2) + LinesOfRank(s, 3);
    if Shows(s, rank) {
      assert LinesOfRank(s, rank)[0] in lines;
    }
  }

  /** The labelled distance and duration lines appear exactly for a truthy
      value, and a present 0 shows as the bare "0" instead. */
  lemma CardNumberLines(s: RouteSegment)
    ensures forall km :: DistanceLine(km) in CardLines(s) <==> s.distanceKm == Some(km) && km != 0.0
    ensures ZeroDistance in CardLines(s) <==> s.distanceKm == Some(0.0)
    ensures (exists t :: DurationLine(t) in CardLines(s)) <==> s.durationMinutes.Some? && s.durationMinutes.value != 0
    ensures s.durationMinutes.Some? && s.durationMinutes.value != 0 ==> DurationLine(FormatDuration(s.durationMinutes.value)) in CardLines(s)
    ensures ZeroDuration in CardLines(s) <==> s.durationMinutes == Some(0)
  {
    assert CardLines(s) == FromLines(s) + ToLines(s) + DistanceLines(s) + DurationLines(s);
  }

  /** The lines come in the order From, To, Distance, Duration. */
  lemma CardLinesOrdered(s: RouteSegment)
    ensures var lines := CardLines(s);
      forall i, j :: 0 <= i < j < |lines| ==> LineRank(lines[i]) < LineRank(lines[j])
  {
  }

  /** The position of each kind of line on a card. */
  function LineRank(l: CardLine): nat
  {
    match l
    case FromLine(_) => 0
    case ToLine(_) => 1
    case DistanceLine(_) => 2
    case DurationLine(_) => 3
    case ZeroDistance => 2
    case ZeroDuration => 3
  }

  /** The cards section is shown only for a route with segments. */
  predicate ShowsRouteSection(trip: Trip)
  {
    trip.route.Some? && |trip.route.value| > 0
  }

  /** One card of the route section: the segment's type and its lines. */
  datatype SegmentCard = SegmentCard(kind: SegmentKind, lines: seq<CardLine>)

  /** The cards drawn, one per segment in route order; none when the
      section is not shown. */
  function RouteCards(trip: Trip): (r: seq<SegmentCard>)
    ensures |r| > 0 <==> ShowsRouteSection(trip)
    ensures ShowsRouteSection(trip) ==> |r| == |trip.route.value|
    ensures forall i :: 0 <= i < |r| ==> r[i] == SegmentCard(trip.route.value[i].kind, CardLines(trip.route.value[i]))
  {
    if ShowsRouteSection(trip) then
      seq(|trip.route.value|, i requires 0 <= i < |trip.route.value| => SegmentCard(trip.route.value[i].kind, CardLines(trip.route.value[i])))
    else []
  }
}
