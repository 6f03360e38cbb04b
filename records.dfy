/** The records the server stores and the client store holds: duty
    statuses, route-segment kinds, locations, trips and the per-day log
    sheets with their graph points. */
module Records {
  import opened Wrappers
  import opened Text

  /** The six duty statuses of a daily log, in the order the log-sheet rows
      list them. */
  datatype Status = OffDuty | Sleeper | Driving | OnDuty | Break | Rest

  function StatusName(s: Status): string
  {
    match s
    case OffDuty => "off-duty"
    case Sleeper => "sleeper"
    case Driving => "driving"
    case OnDuty => "on-duty"
    case Break => "break"
    case Rest => "rest"
  }

  /** Distinct statuses have distinct wire names. */
  lemma StatusNameInjective(a: Status, b: Status)
    requires StatusName(a) == StatusName(b)
    ensures a == b
  {
  }

  /** The six kinds of route segment. */
  datatype SegmentKind = DriveSeg | PickupSeg | DropoffSeg | RefuelSeg | RestSeg | BreakSeg

  function KindName(k: SegmentKind): string
  {
    match k
    case DriveSeg => "drive"
    case PickupSeg => "pickup"
    case DropoffSeg => "dropoff"
    case RefuelSeg => "refuel"
    case RestSeg => "rest"
    case BreakSeg => "break"
  }

  const AllKinds: seq<SegmentKind> := [DriveSeg, PickupSeg, DropoffSeg, RefuelSeg, RestSeg, BreakSeg]

  /** The names a segment's `type` field can take. */
  const KnownKindNames: set<string> := {"drive", "pickup", "dropoff", "refuel", "rest", "break"}

  /** One point of a day's duty-status graph: the status the driver entered
      at `time` ("HH:MM"). An absent `location` or `annotation` is a key the
      point's dictionary does not have. */
  datatype GraphPoint = GraphPoint(time: string, status: Status, location: Option<string>, annotation: Option<string>)

  /** A well-formed "HH:MM" time: two digits, a colon, two digits. */
  predicate WellFormedTime(t: string)
  {
    |t| == 5 && IsDigit(t[0]) && IsDigit(t[1]) && t[2] == ':' && IsDigit(t[3]) && IsDigit(t[4])
  }

  /** `parseInt(time.split(':')[0])` on a well-formed time. */
  function HourOf(t: string): (h: nat)
    requires WellFormedTime(t)
    ensures h < 100
  {
    DigitValue(t[0]) * 10 + DigitValue(t[1])
  }

  /** `parseInt(time.split(':')[1])` on a well-formed time. */
  function MinuteOf(t: string): (m: nat)
    requires WellFormedTime(t)
    ensures m < 100
  {
    DigitValue(t[3]) * 10 + DigitValue(t[4])
  }

  /** A clock time of the day: well formed, hour below 24, minute below 60. */
  predicate IsClockTime(t: string)
  {
    WellFormedTime(t) && HourOf(t) < 24 && MinuteOf(t) < 60
  }

  /** Client-side records (the store's models). */
  datatype Location = Location(lat: real, lng: real)

  datatype RouteSegment = RouteSegment(
    kind: SegmentKind,
    startLocation: Option<Location>,
    endLocation: Option<Location>,
    distanceKm: Option<real>,
    durationMinutes: Option<int>)

  datatype Trip = Trip(
    tripId: string,
    createdAt: Option<string>,
    currentLocation: Option<Location>,
    pickupLocation: Option<Location>,
    dropoffLocation: Option<Location>,
    cycleUsedHours: Option<int>,
    totalDistanceKm: real,
    estimatedDays: int,
    route: Option<seq<RouteSegment>>)

  datatype LogSummary = LogSummary(drivingHours: real, onDutyHours: real, restHours: real)

  datatype DayLog = DayLog(day: int, graphPoints: seq<GraphPoint>, summary: LogSummary)

  datatype TripLogs = TripLogs(tripId: string, logs: seq<DayLog>)
}
