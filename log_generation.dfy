/** The server's daily log generator: a state machine over integer minutes
    that walks the planned segments, inserts the 30-minute break after 8
    hours of continuous driving, rolls to a new day (after a 10-hour gap)
    before the 11-hour driving, 14-hour on-duty or 24-hour day limit would
    be passed, and records one list of duty-status checkpoints per day. */
module LogGeneration {
  import opened Wrappers
  import opened Text
  import opened Records
  import opened TripPlanning

  const DayMinutes: int := 1440
  const DrivingLimitMinutes: int := 660
  const OnDutyLimitMinutes: int := 840
  const BreakAfterMinutes: int := 480
  const BreakMinutes: int := 30
  const RestGapMinutes: int := 600

  /** A stored day sheet; the summary is kept in minutes (rest is what the
      day leaves after on-duty time). */
  datatype LogSheet = LogSheet(dayNumber: int, graphPoints: seq<GraphPoint>, drivingMinutes: int, onDutyMinutes: int)

  function RestMinutes(sheet: LogSheet): int
  {
    DayMinutes - sheet.onDutyMinutes
  }

  const DayOpening: GraphPoint := GraphPoint("00:00", OffDuty, None, None)

  /** The kinds that count against the 14-hour on-duty limit. */
  predicate IsOnDutyKind(k: SegmentKind)
  {
    k == DriveSeg || k == PickupSeg || k == DropoffSeg || k == RefuelSeg
  }

  /** `_needs_new_day`. */
  predicate NeedsNewDay(kind: SegmentKind, duration: int, dailyDriving: int, dailyOnDuty: int, currentTime: int, dayStart: int)
  {
    if kind == DriveSeg && dailyDriving + duration > DrivingLimitMinutes then true
    else if IsOnDutyKind(kind) && dailyOnDuty + duration > OnDutyLimitMinutes then true
    else if (currentTime - dayStart) + duration > DayMinutes then true
    else false
  }

  /** A fresh day (no driving, no on-duty time, clock at the day's start)
      takes any segment of at most 660 minutes without another rollover,
      while a segment longer than a whole day always asks for one. */
  lemma FreshDayFits(kind: SegmentKind, duration: int, t: int)
    ensures 0 <= duration <= DrivingLimitMinutes ==> !NeedsNewDay(kind, duration, 0, 0, t, t)
    ensures duration > DayMinutes ==> NeedsNewDay(kind, duration, 0, 0, t, t)
  {
  }

  /** Once a segment needs a new day, a longer one, more driving, more
      on-duty time or a later clock needs one too. */
  lemma NeedsNewDayMonotone(kind: SegmentKind, duration: int, dailyDriving: int, dailyOnDuty: int, currentTime: int, dayStart: int,
                            duration': int, dailyDriving': int, dailyOnDuty': int, currentTime': int)
    requires duration <= duration' && dailyDriving <= dailyDriving' && dailyOnDuty <= dailyOnDuty' && currentTime <= currentTime'
    requires NeedsNewDay(kind, duration, dailyDriving, dailyOnDuty, currentTime, dayStart)
    ensures NeedsNewDay(kind, duration', dailyDriving', dailyOnDuty', currentTime', dayStart)
  {
  }

  /** Rest and break segments can only trigger the 24-hour rule. */
  lemma RestAndBreakOnlyDayRule(kind: SegmentKind, duration: int, dailyDriving: int, dailyOnDuty: int, currentTime: int, dayStart: int)
    requires kind == RestSeg || kind == BreakSeg
    ensures NeedsNewDay(kind, duration, dailyDriving, dailyOnDuty, currentTime, dayStart) <==> (currentTime - dayStart) + duration > 1440
  {
  }

  /** The "HH:MM" text `_add_graph_point` writes for the minutes elapsed in
      the current day, taken modulo 1440. */
  function ClockText(currentTime: int, dayStart: int): (t: string)
    ensures IsClockTime(t)
    ensures HourOf(t) * 60 + MinuteOf(t) == (currentTime - dayStart) % DayMinutes
  {
    var inDay := (currentTime - dayStart) % DayMinutes;
    var t := Pad2(inDay / 60) + ":" + Pad2(inDay % 60);
    assert t[0] == DigitChar(inDay / 60 / 10) && t[1] == DigitChar(inDay / 60 % 10);
    assert t[3] == DigitChar(inDay % 60 / 10) && t[4] == DigitChar(inDay % 60 % 10);
    t
  }

  /** A Python-truthy optional string: present and non-empty. */
  function Truthy(s: Option<string>): Option<string>
  {
    if s.Some? && s.value != "" then s else None
  }

  /** No two consecutive points share a status. */
  predicate NoRepeats(points: seq<GraphPoint>)
  {
    forall i :: 0 < i < |points| ==> points[i - 1].status != points[i].status
  }

  predicate AllClockTimes(points: seq<GraphPoint>)
  {
    forall i :: 0 <= i < |points| ==> IsClockTime(points[i].time)
  }

  /** `_add_graph_point`: append one point unless the last one already has
      this status; `location` and `annotation` are kept only when truthy. */
  function AddGraphPoint(points: seq<GraphPoint>, currentTime: int, dayStart: int, status: Status,
                         location: Option<string>, annotation: Option<string>): (r: seq<GraphPoint>)
    ensures |r| == if |points| == 0 || points[|points| - 1].status != status then |points| + 1 else |points|
    ensures r[..|points|] == points
    ensures |r| > |points| ==> r[|points|] == GraphPoint(ClockText(currentTime, dayStart), status, Truthy(location), Truthy(annotation))
    ensures r[|r| - 1].status == status
  {
    if |points| == 0 || points[|points| - 1].status != status then
      points + [GraphPoint(ClockText(currentTime, dayStart), status, Truthy(location), Truthy(annotation))]
    else points
  }

  /** `_format_location`, with the `:.2f` coordinate text supplied by the
      caller. */
  function FormatLocation(location: Option<Place>, coordText: (real, real) -> string): (s: string)
    ensures location.None? ==> s == "UNKNOWN"
    ensures location.Some? && location.value.city.Some? && location.value.state.Some? ==>
              s == location.value.city.value + ", " + location.value.state.value
  {
    match location
    case None => "UNKNOWN"
    case Some(p) =>
      if p.city.Some? && p.state.Some? then p.city.value + ", " + p.state.value
      else coordText(p.lat, p.lng)
  }

  /** `segment.duration_minutes or 0`. */
  function DurationOf(segment: Segment): int
  {
    match segment.durationMinutes
    case Some(d) => d
    case None => 0
  }

  /** The generator's local variables. */
  datatype GenState = GenState(
    clock: int,
    dayStart: int,
    day: int,
    driving: int,
    onDuty: int,
    continuous: int,
    points: seq<GraphPoint>,
    sheets: seq<LogSheet>)

  const Initial: GenState := GenState(0, 0, 1, 0, 0, 0, [DayOpening], [])

  /** The mandatory break before a positive drive after 8 hours of
      continuous driving. */
  function BreakRule(st: GenState, segment: Segment): GenState
  {
    if segment.kind == DriveSeg && st.continuous >= BreakAfterMinutes && DurationOf(segment) > 0 then
      st.(points := AddGraphPoint(st.points, st.clock, st.dayStart, Break, None, None),
          clock := st.clock + BreakMinutes,
          continuous := 0)
    else st
  }

  /** The sheet `_create_log_sheet` stores when the current day ends. */
  function CloseDay(st: GenState): LogSheet
  {
    LogSheet(st.day, AddGraphPoint(st.points, st.clock, st.dayStart, OffDuty, None, None), st.driving, st.onDuty)
  }

  /** The day rollover before a segment that would break a limit. */
  function Rollover(st: GenState, segment: Segment): GenState
  {
    if NeedsNewDay(segment.kind, DurationOf(segment), st.driving, st.onDuty, st.clock, st.dayStart) then
      GenState(st.clock + RestGapMinutes, st.clock + RestGapMinutes, st.day + 1, 0, 0, 0, [DayOpening], st.sheets + [CloseDay(st)])
    else st
  }

  function OnDutyStop(st: GenState, segment: Segment, annotation: string, coordText: (real, real) -> string): GenState
  {
    st.(points := AddGraphPoint(st.points, st.clock, st.dayStart, OnDuty, Some(FormatLocation(segment.startLocation, coordText)), Some(annotation)),
        clock := st.clock + DurationOf(segment),
        onDuty := st.onDuty + DurationOf(segment),
        continuous := 0)
  }

  function LogRest(st: GenState, segment: Segment, coordText: (real, real) -> string): GenState
  {
    st.(points := AddGraphPoint(st.points, st.clock, st.dayStart, Rest, Some(FormatLocation(segment.startLocation, coordText)), Some("REST")),
        clock := st.clock + DurationOf(segment),
        continuous := 0)
  }

  function DriveAnnotation(from: string, to: string): string
  {
    "DRIVING " + from + " TO " + to
  }

  function LogDrive(st: GenState, segment: Segment, coordText: (real, real) -> string): GenState
  {
    var from := FormatLocation(segment.startLocation, coordText);
    var to := FormatLocation(segment.endLocation, coordText);
    st.(points := AddGraphPoint(st.points, st.clock, st.dayStart, Driving, Some(from), Some(DriveAnnotation(from, to))),
        clock := st.clock + DurationOf(segment),
        driving := st.driving + DurationOf(segment),
        onDuty := st.onDuty + DurationOf(segment),
        continuous := st.continuous + DurationOf(segment))
  }

  function LogBreak(st: GenState, segment: Segment, coordText: (real, real) -> string): GenState
  {
    st.(points := AddGraphPoint(st.points, st.clock, st.dayStart, Break, Some(FormatLocation(segment.startLocation, coordText)), Some("BREAK")),
        clock := st.clock + DurationOf(segment),
        continuous := 0)
  }

  /** `segment.type.upper()` for the three on-duty stops. */
  function StopAnnotation(kind: SegmentKind): string
  {
    if kind == PickupSeg then "PICKUP" else if kind == DropoffSeg then "DROPOFF" else "REFUEL"
  }

  /** Logging one segment, by kind. */
  function Process(st: GenState, segment: Segment, coordText: (real, real) -> string): GenState
  {
    match segment.kind
    case RestSeg => LogRest(st, segment, coordText)
    case DriveSeg => LogDrive(st, segment, coordText)
    case PickupSeg | DropoffSeg | RefuelSeg => OnDutyStop(st, segment, StopAnnotation(segment.kind), coordText)
    case BreakSeg => LogBreak(st, segment, coordText)
  }

  /** One iteration of the generator's loop. */
  function Step(st: GenState, segment: Segment, coordText: (real, real) -> string): GenState
  {
    Process(Rollover(BreakRule(st, segment), segment), segment, coordText)
  }

  /** The generator's state after the given segments. */
  function Run(segments: seq<Segment>, coordText: (real, real) -> string): GenState
    decreases |segments|
  {
    if |segments| == 0 then Initial
    else Step(Run(segments[..|segments| - 1], coordText), segments[|segments| - 1], coordText)
  }

  /** The fixed sheet for a trip without segments. */
  const EmptyTripSheet: LogSheet :=
    LogSheet(1, [GraphPoint("06:00", OffDuty, None, None), GraphPoint("08:00", OnDuty, None, None), GraphPoint("18:00", OffDuty, None, None)], 0, 600)

  /** All the sheets `_generate_log_sheets` stores, in order. */
  function LogSheetsFor(segments: seq<Segment>, coordText: (real, real) -> string): seq<LogSheet>
  {
    if |segments| == 0 then [EmptyTripSheet]
    else Run(segments, coordText).sheets + [CloseDay(Run(segments, coordText))]
  }

  // ---------------------------------------------------------------------
  // Invariants
  // ---------------------------------------------------------------------

  /** The open day's points: they start at 00:00 off-duty, never repeat a
      status and carry clock times. */
  predicate OpenDay(points: seq<GraphPoint>)
  {
    |points| > 0 && points[0] == DayOpening && NoRepeats(points) && AllClockTimes(points)
  }

  /** A closed day's points also end off-duty. */
  predicate ValidDay(points: seq<GraphPoint>)
  {
    OpenDay(points) && points[|points| - 1].status == OffDuty
  }

  predicate Numbered(sheets: seq<LogSheet>)
  {
    forall k :: 0 <= k < |sheets| ==> sheets[k].dayNumber == k + 1
  }

  predicate AllValidDays(sheets: seq<LogSheet>)
  {
    forall k :: 0 <= k < |sheets| ==> ValidDay(sheets[k].graphPoints)
  }

  predicate Inv(st: GenState)
  {
    st.day == |st.sheets| + 1 && Numbered(st.sheets) && AllValidDays(st.sheets) && OpenDay(st.points)
  }

  lemma AddKeepsOpenDay(points: seq<GraphPoint>, currentTime: int, dayStart: int, status: Status, location: Option<string>, annotation: Option<string>)
    requires OpenDay(points)
    ensures OpenDay(AddGraphPoint(points, currentTime, dayStart, status, location, annotation))
  {
    var r := AddGraphPoint(points, currentTime, dayStart, status, location, annotation);
    assert r[0] == r[..|points|][0];
    if |r| > |points| {
      assert r == points + [r[|points|]];
      assert IsClockTime(r[|points|].time);
    }
  }

  lemma CloseDayValid(st: GenState)
    requires OpenDay(st.points)
    ensures ValidDay(CloseDay(st).graphPoints) && CloseDay(st).dayNumber == st.day
  {
    AddKeepsOpenDay(st.points, st.clock, st.dayStart, OffDuty, None, None);
  }

  lemma BreakRuleKeepsInv(st: GenState, segment: Segment)
    requires Inv(st)
    ensures Inv(BreakRule(st, segment))
  {
    AddKeepsOpenDay(st.points, st.clock, st.dayStart, Break, None, None);
  }

  lemma RolloverKeepsInv(st: GenState, segment: Segment)
    requires Inv(st)
    ensures Inv(Rollover(st, segment))
  {
    CloseDayValid(st);
    assert OpenDay([DayOpening]) by { assert IsClockTime("00:00"); }
  }

  lemma ProcessKeepsInv(st: GenState, segment: Segment, coordText: (real, real) -> string)
    requires Inv(st)
    ensures Inv(Process(st, segment, coordText))
  {
    var loc := FormatLocation(segment.startLocation, coordText);
    var to := FormatLocation(segment.endLocation, coordText);
    var r := Process(st, segment, coordText);
    assert r.day == st.day && r.sheets == st.sheets;
    match segment.kind {
      case RestSeg => AddKeepsOpenDay(st.points, st.clock, st.dayStart, Rest, Some(loc), Some("REST"));
      case DriveSeg => AddKeepsOpenDay(st.points, st.clock, st.dayStart, Driving, Some(loc), Some(DriveAnnotation(loc, to)));
      case PickupSeg | DropoffSeg | RefuelSeg =>
        AddKeepsOpenDay(st.points, st.clock, st.dayStart, OnDuty, Some(loc), Some(StopAnnotation(segment.kind)));
      case BreakSeg => AddKeepsOpenDay(st.points, st.clock, st.dayStart, Break, Some(loc), Some("BREAK"));
    }
    SameDayKeepsInv(st, r);
  }

  lemma SameDayKeepsInv(st: GenState, r: GenState)
    requires Inv(st) && r.day == st.day && r.sheets == st.sheets && OpenDay(r.points)
    ensures Inv(r)
  {
  }

  lemma StepKeepsInv(st: GenState, segment: Segment, coordText: (real, real) -> string)
    requires Inv(st)
    ensures Inv(Step(st, segment, coordText))
  {
    BreakRuleKeepsInv(st, segment);
    RolloverKeepsInv(BreakRule(st, segment), segment);
    ProcessKeepsInv(Rollover(BreakRule(st, segment), segment), segment, coordText);
  }

  lemma {:induction false} RunKeepsInv(segments: seq<Segment>, coordText: (real, real) -> string)
    ensures Inv(Run(segments, coordText))
    decreases |segments|
  {
    if |segments| > 0 {
      RunKeepsInv(segments[..|segments| - 1], coordText);
      StepKeepsInv(Run(segments[..|segments| - 1], coordText), segments[|segments| - 1], coordText);
    } else {
      assert AllClockTimes([DayOpening]) by { assert IsClockTime("00:00"); }
    }
  }

  /** For a non-empty trip every sheet is numbered by its position from 1,
      starts at 00:00 off-duty, never repeats a status and ends off-duty;
      an empty trip gets the single fixed sheet. */
  lemma LogSheetsShape(segments: seq<Segment>, coordText: (real, real) -> string)
    ensures var sheets := LogSheetsFor(segments, coordText);
            && |sheets| >= 1
            && Numbered(sheets)
            && (|segments| == 0 ==> sheets == [EmptyTripSheet])
            && (|segments| > 0 ==> AllValidDays(sheets))
  {
    if |segments| > 0 {
      var st := Run(segments, coordText);
      RunKeepsInv(segments, coordText);
      CloseDayValid(st);
    }
  }

  /** Daily driving never exceeds daily on-duty time (for non-negative
      durations; a negative duration can make either counter negative). */
  predicate Balanced(st: GenState)
  {
    && 0 <= st.driving <= st.onDuty
    && forall k :: 0 <= k < |st.sheets| ==> 0 <= st.sheets[k].drivingMinutes <= st.sheets[k].onDutyMinutes
  }

  predicate AllDurationsAtLeast(segments: seq<Segment>, low: int)
  {
    forall i :: 0 <= i < |segments| ==> DurationOf(segments[i]) >= low
  }

  predicate AllDurationsAtMost(segments: seq<Segment>, high: int)
  {
    forall i :: 0 <= i < |segments| ==> DurationOf(segments[i]) <= high
  }

  lemma StepKeepsBalanced(st: GenState, segment: Segment, coordText: (real, real) -> string)
    requires Balanced(st) && DurationOf(segment) >= 0
    ensures Balanced(Step(st, segment, coordText))
  {
    var s1 := BreakRule(st, segment);
    assert Balanced(s1);
    assert Balanced(Rollover(s1, segment));
  }

  lemma {:induction false} RunBalanced(segments: seq<Segment>, coordText: (real, real) -> string)
    requires AllDurationsAtLeast(segments, 0)
    ensures Balanced(Run(segments, coordText))
    decreases |segments|
  {
    if |segments| > 0 {
      var init := segments[..|segments| - 1];
      assert AllDurationsAtLeast(init, 0) by {
        forall i | 0 <= i < |init| ensures DurationOf(init[i]) >= 0 { assert init[i] == segments[i]; }
      }
      RunBalanced(init, coordText);
      StepKeepsBalanced(Run(init, coordText), segments[|segments| - 1], coordText);
    }
  }

  /** The limits hold on the open day and on every closed day. */
  predicate WithinLimits(st: GenState)
  {
    && st.driving <= DrivingLimitMinutes && st.onDuty <= OnDutyLimitMinutes
    && forall k :: 0 <= k < |st.sheets| ==>
         st.sheets[k].drivingMinutes <= DrivingLimitMinutes && st.sheets[k].onDutyMinutes <= OnDutyLimitMinutes
  }

  lemma StepKeepsWithinLimits(st: GenState, segment: Segment, coordText: (real, real) -> string)
    requires WithinLimits(st) && DurationOf(segment) <= DrivingLimitMinutes
    ensures WithinLimits(Step(st, segment, coordText))
  {
    var s1 := BreakRule(st, segment);
    assert WithinLimits(s1);
    var s2 := Rollover(s1, segment);
    assert WithinLimits(s2);
  }

  lemma {:induction false} RunWithinLimits(segments: seq<Segment>, coordText: (real, real) -> string)
    requires AllDurationsAtMost(segments, DrivingLimitMinutes)
    ensures WithinLimits(Run(segments, coordText))
    decreases |segments|
  {
    if |segments| > 0 {
      var init := segments[..|segments| - 1];
      assert AllDurationsAtMost(init, DrivingLimitMinutes) by {
        forall i | 0 <= i < |init| ensures DurationOf(init[i]) <= DrivingLimitMinutes { assert init[i] == segments[i]; }
      }
      RunWithinLimits(init, coordText);
      StepKeepsWithinLimits(Run(init, coordText), segments[|segments| - 1], coordText);
    }
  }

  /** Every stored sheet respects the 11-hour driving and 14-hour on-duty
      limits, provided no single segment is longer than 660 minutes. */
  lemma LogSheetsWithinLimits(segments: seq<Segment>, coordText: (real, real) -> string)
    requires AllDurationsAtMost(segments, DrivingLimitMinutes)
    ensures var sheets := LogSheetsFor(segments, coordText);
            forall k :: 0 <= k < |sheets| ==> sheets[k].drivingMinutes <= 660 && sheets[k].onDutyMinutes <= 840
  {
    if |segments| > 0 {
      RunWithinLimits(segments, coordText);
    }
  }

  /** On every stored sheet driving time is at most on-duty time, provided
      no segment has a negative duration. */
  lemma LogSheetsBalanced(segments: seq<Segment>, coordText: (real, real) -> string)
    requires AllDurationsAtLeast(segments, 0)
    ensures var sheets := LogSheetsFor(segments, coordText);
            forall k :: 0 <= k < |sheets| ==> 0 <= sheets[k].drivingMinutes <= sheets[k].onDutyMinutes
  {
    if |segments| > 0 {
      RunBalanced(segments, coordText);
    }
  }

  /** A single segment longer than 660 minutes (such as a full 1609 km drive
      chunk, 965 minutes at 100 km/h) is logged whole on the day it starts,
      past the 11-hour limit: the rollover happens once and the segment is
      not split. */
  lemma LongDriveExceedsLimit(s: Place, e: Place, coordText: (real, real) -> string)
    ensures var sheets := LogSheetsFor([Segment(DriveSeg, Some(s), Some(e), Some(1609.0), Some(965))], coordText);
            |sheets| == 2 && sheets[0].drivingMinutes == 0 && sheets[1].drivingMinutes == 965
  {
    var seg := Segment(DriveSeg, Some(s), Some(e), Some(1609.0), Some(965));
    assert [seg][..0] == [];
    assert Run([seg], coordText) == Step(Initial, seg, coordText);
  }

  /** The status a segment of the given kind is logged under. */
  function SegmentStatus(kind: SegmentKind): Status
  {
    match kind
    case RestSeg => Rest
    case DriveSeg => Driving
    case PickupSeg | DropoffSeg | RefuelSeg => OnDuty
    case BreakSeg => Break
  }

  /** The effect of one loop iteration on the clock, the day, the counters
      and the day's points: a break adds 30 minutes and resets continuous
      driving, a rollover closes the day, adds the 600-minute gap, starts
      the new day at the new clock value with only the midnight off-duty
      point and resets the three counters, and the segment itself adds its
      duration, extends continuous driving when it is a drive and resets it
      otherwise, and ends the day's points on its own status. */
  lemma StepEffect(st: GenState, segment: Segment, coordText: (real, real) -> string)
    ensures var s1 := BreakRule(st, segment);
            var d := DurationOf(segment);
            var brk := segment.kind == DriveSeg && st.continuous >= 480 && d > 0;
            var roll := NeedsNewDay(segment.kind, d, s1.driving, s1.onDuty, s1.clock, s1.dayStart);
            var r := Step(st, segment, coordText);
            && s1.clock == st.clock + (if brk then 30 else 0)
            && (brk ==> s1.continuous == 0 && s1.points[|s1.points| - 1].status == Break)
            && (!brk ==> s1 == st)
            && r.clock == st.clock + (if brk then 30 else 0) + (if roll then 600 else 0) + d
            && r.continuous == (if segment.kind == DriveSeg then (if brk || roll then 0 else st.continuous) + d else 0)
            && |r.points| > 0 && r.points[|r.points| - 1].status == SegmentStatus(segment.kind)
            && (roll ==>
                  && r.day == st.day + 1
                  && r.dayStart == s1.clock + 600
                  && r.sheets == st.sheets + [CloseDay(s1)]
                  && r.driving == (if segment.kind == DriveSeg then d else 0)
                  && r.onDuty == (if IsOnDutyKind(segment.kind) then d else 0)
                  && r.points[0] == DayOpening && |r.points| <= 2)
            && (!roll ==> r.day == st.day && r.dayStart == st.dayStart && r.sheets == st.sheets
                          && r.points[..|s1.points|] == s1.points)
  {
    var s1 := BreakRule(st, segment);
    BreakRuleEffect(st, segment);
    RolloverEffect(s1, segment);
    ProcessEffect(Rollover(s1, segment), segment, coordText);
    ProcessPointsEffect(Rollover(s1, segment), segment, coordText);
  }

  lemma BreakRuleEffect(st: GenState, segment: Segment)
    ensures var s1 := BreakRule(st, segment);
            var brk := segment.kind == DriveSeg && st.continuous >= 480 && DurationOf(segment) > 0;
            && s1.clock == st.clock + (if brk then 30 else 0)
            && (brk ==> s1.continuous == 0 && s1.points[|s1.points| - 1].status == Break
                        && s1.points[..|st.points|] == st.points)
            && (!brk ==> s1 == st)
            && s1.day == st.day && s1.dayStart == st.dayStart && s1.sheets == st.sheets
            && s1.driving == st.driving && s1.onDuty == st.onDuty
  {
  }

  lemma RolloverEffect(s1: GenState, segment: Segment)
    ensures var roll := NeedsNewDay(segment.kind, DurationOf(segment), s1.driving, s1.onDuty, s1.clock, s1.dayStart);
            var s2 := Rollover(s1, segment);
            && s2.clock == s1.clock + (if roll then 600 else 0)
            && (roll ==> s2.day == s1.day + 1 && s2.dayStart == s1.clock + 600 && s2.sheets == s1.sheets + [CloseDay(s1)]
                         && s2.driving == 0 && s2.onDuty == 0 && s2.continuous == 0 && s2.points == [DayOpening])
            && (!roll ==> s2 == s1)
  {
  }

  lemma ProcessEffect(s2: GenState, segment: Segment, coordText: (real, real) -> string)
    ensures var d := DurationOf(segment);
            var r := Process(s2, segment, coordText);
            && r.clock == s2.clock + d
            && r.day == s2.day && r.dayStart == s2.dayStart && r.sheets == s2.sheets
            && r.driving == s2.driving + (if segment.kind == DriveSeg then d else 0)
            && r.onDuty == s2.onDuty + (if IsOnDutyKind(segment.kind) then d else 0)
            && r.continuous == (if segment.kind == DriveSeg then s2.continuous + d else 0)
  {
  }

  /** Logging a segment keeps the day's points and appends at most one,
      so that they end on the segment's status. */
  lemma ProcessPointsEffect(s2: GenState, segment: Segment, coordText: (real, real) -> string)
    ensures var r := Process(s2, segment, coordText);
            && r.points[..|s2.points|] == s2.points && |r.points| <= |s2.points| + 1
            && r.points[|r.points| - 1].status == SegmentStatus(segment.kind)
  {
  }

  // ---------------------------------------------------------------------
  // The generator
  // ---------------------------------------------------------------------

  lemma RunSnoc(segments: seq<Segment>, i: nat, coordText: (real, real) -> string)
    requires i < |segments|
    ensures Run(segments[..i + 1], coordText) == Step(Run(segments[..i], coordText), segments[i], coordText)
  {
    assert segments[..i + 1][..i] == segments[..i];
  }

  /** The first half of the loop body of `_generate_log_sheets`: the
      break rule, then the day rollover. */
  method BreakAndRollover(segment: Segment,
                          clock0: int, dayStart0: int, day0: int, driving0: int, onDuty0: int, continuous0: int,
                          points0: seq<GraphPoint>, sheets0: seq<LogSheet>)
    returns (currentTime: int, dayStart: int, dayNumber: int, dailyDriving: int, dailyOnDuty: int, continuousDriving: int,
             graphPoints: seq<GraphPoint>, sheets: seq<LogSheet>)
    ensures GenState(currentTime, dayStart, dayNumber, dailyDriving, dailyOnDuty, continuousDriving, graphPoints, sheets)
         == Rollover(BreakRule(GenState(clock0, dayStart0, day0, driving0, onDuty0, continuous0, points0, sheets0), segment), segment)
  {
    currentTime, dayStart, dayNumber := clock0, dayStart0, day0;
    dailyDriving, dailyOnDuty, continuousDriving := driving0, onDuty0, continuous0;
    graphPoints, sheets := points0, sheets0;
    var duration := DurationOf(segment);
    if segment.kind == DriveSeg && continuousDriving >= BreakAfterMinutes && duration > 0 {
      graphPoints := AddGraphPoint(graphPoints, currentTime, dayStart, Break, None, None);
      currentTime := currentTime + BreakMinutes;
      continuousDriving := 0;
    }
    if NeedsNewDay(segment.kind, duration, dailyDriving, dailyOnDuty, currentTime, dayStart) {
      graphPoints := AddGraphPoint(graphPoints, currentTime, dayStart, OffDuty, None, None);
      sheets := sheets + [LogSheet(dayNumber, graphPoints, dailyDriving, dailyOnDuty)];
      dayNumber := dayNumber + 1;
      currentTime := currentTime + RestGapMinutes;
      dayStart := currentTime;
      dailyDriving := 0;
      dailyOnDuty := 0;
      continuousDriving := 0;
      graphPoints := [DayOpening];
    }
  }

  /** The second half of the loop body: the segment's own point and
      counters, by kind. */
  method LogByKind(segment: Segment, coordText: (real, real) -> string,
                   clock0: int, dayStart: int, dayNumber: int, driving0: int, onDuty0: int, continuous0: int,
                   points0: seq<GraphPoint>, sheets: seq<LogSheet>)
    returns (currentTime: int, dailyDriving: int, dailyOnDuty: int, continuousDriving: int, graphPoints: seq<GraphPoint>)
    ensures GenState(currentTime, dayStart, dayNumber, dailyDriving, dailyOnDuty, continuousDriving, graphPoints, sheets)
         == Process(GenState(clock0, dayStart, dayNumber, driving0, onDuty0, continuous0, points0, sheets), segment, coordText)
  {
    currentTime, dailyDriving, dailyOnDuty, continuousDriving, graphPoints := clock0, driving0, onDuty0, continuous0, points0;
    var duration := DurationOf(segment);
    match segment.kind {
      case RestSeg =>
        var location := FormatLocation(segment.startLocation, coordText);
        graphPoints := AddGraphPoint(graphPoints, currentTime, dayStart, Rest, Some(location), Some("REST"));
        currentTime := currentTime + duration;
        continuousDriving := 0;
      case DriveSeg =>
        var startLocation := FormatLocation(segment.startLocation, coordText);
        var endLocation := FormatLocation(segment.endLocation, coordText);
        var annotation := DriveAnnotation(startLocation, endLocation);
        graphPoints := AddGraphPoint(graphPoints, currentTime, dayStart, Driving, Some(startLocation), Some(annotation));
        currentTime := currentTime + duration;
        dailyDriving := dailyDriving + duration;
        dailyOnDuty := dailyOnDuty + duration;
        continuousDriving := continuousDriving + duration;
      case PickupSeg | DropoffSeg | RefuelSeg =>
        var location := FormatLocation(segment.startLocation, coordText);
        var annotation := StopAnnotation(segment.kind);
        graphPoints := AddGraphPoint(graphPoints, currentTime, dayStart, OnDuty, Some(location), Some(annotation));
        currentTime := currentTime + duration;
        dailyOnDuty := dailyOnDuty + duration;
        continuousDriving := 0;
      case BreakSeg =>
        var location := FormatLocation(segment.startLocation, coordText);
        graphPoints := AddGraphPoint(graphPoints, currentTime, dayStart, Break, Some(location), Some("BREAK"));
        currentTime := currentTime + duration;
        continuousDriving := 0;
    }
  }

  /** `_generate_log_sheets`: the sheets it stores, in order. */
  method GenerateLogSheets(segments: seq<Segment>, coordText: (real, real) -> string) returns (sheets: seq<LogSheet>)
    ensures sheets == LogSheetsFor(segments, coordText)
    ensures |segments| == 0 ==> sheets == [EmptyTripSheet]
    ensures |sheets| >= 1 && Numbered(sheets)
    ensures |segments| > 0 ==> AllValidDays(sheets)
  {
    LogSheetsShape(segments, coordText);
    if |segments| == 0 {
      sheets := [EmptyTripSheet];
      return;
    }
    var currentTime := 0;
    var dayNumber := 1;
    var dayStart := 0;
    var dailyDriving := 0;
    var dailyOnDuty := 0;
    var continuousDriving := 0;
    var graphPoints := [DayOpening];
    sheets := [];
    for i := 0 to |segments|
      invariant GenState(currentTime, dayStart, dayNumber, dailyDriving, dailyOnDuty, continuousDriving, graphPoints, sheets)
             == Run(segments[..i], coordText)
    {
      RunSnoc(segments, i, coordText);
      var segment := segments[i];
      currentTime, dayStart, dayNumber, dailyDriving, dailyOnDuty, continuousDriving, graphPoints, sheets :=
        BreakAndRollover(segment, currentTime, dayStart, dayNumber, dailyDriving, dailyOnDuty, continuousDriving, graphPoints, sheets);
      currentTime, dailyDriving, dailyOnDuty, continuousDriving, graphPoints :=
        LogByKind(segment, coordText, currentTime, dayStart, dayNumber, dailyDriving, dailyOnDuty, continuousDriving, graphPoints, sheets);
    }
    assert segments[..|segments|] == segments;
    graphPoints := AddGraphPoint(graphPoints, currentTime, dayStart, OffDuty, None, None);
    sheets := sheets + [LogSheet(dayNumber, graphPoints, dailyDriving, dailyOnDuty)];
  }
}
