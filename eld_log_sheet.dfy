/** The client's timeline engine for one day's duty-status graph: the
    per-hour status grid, the fractional-hour intervals of one status, and
    the geometry each hour cell draws for them. */
module EldLogSheet {
  import opened Wrappers
  import opened Records

  /** Every checkpoint time is a well-formed "HH:MM". */
  predicate TimesWellFormed(points: seq<GraphPoint>)
  {
    forall i :: 0 <= i < |points| ==> WellFormedTime(points[i].time)
  }

  /** The number of consecutive pairs: `graphPoints.length - 1`, or none. */
  function PairCount(points: seq<GraphPoint>): nat
  {
    if |points| == 0 then 0 else |points| - 1
  }

  function HourAt(points: seq<GraphPoint>, i: nat): nat
    requires TimesWellFormed(points) && i < |points|
  {
    HourOf(points[i].time)
  }

  /** Pair `j` writes hour `h`: it starts at or before `h` and its next
      point's hour is after `h` (minutes play no part). */
  predicate Covers(points: seq<GraphPoint>, j: nat, h: int)
    requires TimesWellFormed(points) && j < PairCount(points)
  {
    HourAt(points, j) <= h < HourAt(points, j + 1)
  }

  /** The status hour `h` holds after the first `n` pairs were written. */
  function SlotAfter(points: seq<GraphPoint>, n: nat, h: int): Status
    requires TimesWellFormed(points) && n <= PairCount(points)
    decreases n
  {
    if n == 0 then OffDuty
    else if Covers(points, n - 1, h) then points[n - 1].status
    else SlotAfter(points, n - 1, h)
  }

  /** The 24-hour grid `generateTimeSlots` returns. */
  function Slots(points: seq<GraphPoint>): (r: seq<Status>)
    requires TimesWellFormed(points)
    ensures |r| == 24
  {
    seq(24, h => SlotAfter(points, PairCount(points), h))
  }

  /** `generateTimeSlots`: start all 24 hours off-duty and let each pair
      overwrite the whole hours it spans. */
  method GenerateTimeSlots(points: seq<GraphPoint>) returns (slots: seq<Status>)
    requires TimesWellFormed(points)
    ensures |slots| == 24
    ensures forall h :: 0 <= h < 24 ==> slots[h] == SlotAfter(points, PairCount(points), h)
  {
    var a := new Status[24](_ => OffDuty);
    var i := 0;
    while i < |points| - 1
      invariant 0 <= i <= PairCount(points)
      invariant forall h :: 0 <= h < 24 ==> a[h] == SlotAfter(points, i, h)
    {
      var current := points[i];
      var next := points[i + 1];
      var startHour := HourOf(current.time);
      var endHour := HourOf(next.time);
      var hour := startHour;
      while hour < endHour
        invariant startHour <= hour && (hour <= endHour || hour == startHour)
        invariant forall h :: 0 <= h < 24 ==> a[h] == if startHour <= h < hour then current.status else SlotAfter(points, i, h)
      {
        if 0 <= hour < 24 {
          a[hour] := current.status;
        }
        hour := hour + 1;
      }
      i := i + 1;
    }
    slots := a[..];
  }

  /** With fewer than two checkpoints every hour is off-duty. */
  lemma FewPointsAllOffDuty(points: seq<GraphPoint>)
    requires TimesWellFormed(points) && |points| < 2
    ensures forall h :: 0 <= h < 24 ==> Slots(points)[h] == OffDuty
  {
  }

  /** Last write wins: hour `h` holds the status of the last pair that
      covers it. */
  lemma {:induction false} SlotAfterLastCover(points: seq<GraphPoint>, n: nat, h: int, j: nat)
    requires TimesWellFormed(points) && n <= PairCount(points)
    requires j < n && Covers(points, j, h)
    requires forall k :: j < k < n ==> !Covers(points, k, h)
    ensures SlotAfter(points, n, h) == points[j].status
    decreases n
  {
    if n - 1 != j {
      SlotAfterLastCover(points, n - 1, h, j);
    }
  }

  lemma SlotIsLastCover(points: seq<GraphPoint>, h: int, j: nat)
    requires TimesWellFormed(points) && 0 <= h < 24
    requires j < PairCount(points) && Covers(points, j, h)
    requires forall k :: j < k < PairCount(points) ==> !Covers(points, k, h)
    ensures Slots(points)[h] == points[j].status
  {
    SlotAfterLastCover(points, PairCount(points), h, j);
  }

  /** An hour no pair covers stays off-duty. */
  lemma {:induction false} SlotAfterUncovered(points: seq<GraphPoint>, n: nat, h: int)
    requires TimesWellFormed(points) && n <= PairCount(points)
    requires forall k :: 0 <= k < n ==> !Covers(points, k, h)
    ensures SlotAfter(points, n, h) == OffDuty
    decreases n
  {
    if n > 0 {
      SlotAfterUncovered(points, n - 1, h);
    }
  }

  lemma SlotUncovered(points: seq<GraphPoint>, h: int)
    requires TimesWellFormed(points) && 0 <= h < 24
    requires forall k :: 0 <= k < PairCount(points) ==> !Covers(points, k, h)
    ensures Slots(points)[h] == OffDuty
  {
    SlotAfterUncovered(points, PairCount(points), h);
  }

  /** Every slot holds off-duty or the status of a point that starts a pair,
      so a status carried only by the last point is never written. */
  lemma {:induction false} SlotAfterFromPairs(points: seq<GraphPoint>, n: nat, h: int)
    requires TimesWellFormed(points) && n <= PairCount(points)
    ensures SlotAfter(points, n, h) == OffDuty || exists k :: 0 <= k < n && SlotAfter(points, n, h) == points[k].status
    decreases n
  {
    if n > 0 && !Covers(points, n - 1, h) {
      SlotAfterFromPairs(points, n - 1, h);
    }
  }

  lemma LastStatusNeverWritten(points: seq<GraphPoint>, s: Status)
    requires TimesWellFormed(points) && s != OffDuty
    requires forall k :: 0 <= k < PairCount(points) ==> points[k].status != s
    ensures forall h :: 0 <= h < 24 ==> Slots(points)[h] != s
  {
    forall h | 0 <= h < 24 ensures Slots(points)[h] != s {
      SlotAfterFromPairs(points, PairCount(points), h);
    }
  }

  /** Two checkpoint lists that agree on statuses and hours give the same
      grid, whatever their minutes. */
  predicate SameHours(p: seq<GraphPoint>, q: seq<GraphPoint>)
    requires TimesWellFormed(p) && TimesWellFormed(q)
  {
    |p| == |q| && forall i :: 0 <= i < |p| ==> p[i].status == q[i].status && HourAt(p, i) == HourAt(q, i)
  }

  lemma {:induction false} SlotAfterIgnoresMinutes(p: seq<GraphPoint>, q: seq<GraphPoint>, n: nat, h: int)
    requires TimesWellFormed(p) && TimesWellFormed(q) && SameHours(p, q) && n <= PairCount(p)
    ensures SlotAfter(p, n, h) == SlotAfter(q, n, h)
    decreases n
  {
    if n > 0 {
      SlotAfterIgnoresMinutes(p, q, n - 1, h);
    }
  }

  lemma SlotsIgnoreMinutes(p: seq<GraphPoint>, q: seq<GraphPoint>)
    requires TimesWellFormed(p) && TimesWellFormed(q) && SameHours(p, q)
    ensures Slots(p) == Slots(q)
  {
    forall h | 0 <= h < 24 ensures Slots(p)[h] == Slots(q)[h] {
      SlotAfterIgnoresMinutes(p, q, PairCount(p), h);
    }
  }

  // ---------------------------------------------------------------------
  // Status transitions
  // ---------------------------------------------------------------------

  /** One drawn interval: fractional hours and the copied labels. */
  datatype Transition = Transition(startHour: real, endHour: real, annotation: Option<string>, location: Option<string>)

  /** `hour + minute / 60` of a well-formed time. */
  function Position(t: string): (p: real)
    requires WellFormedTime(t)
    ensures HourOf(t) as real <= p < HourOf(t) as real + 2.0
  {
    HourOf(t) as real + MinuteOf(t) as real / 60.0
  }

  /** The interval pair `i` contributes. */
  function TransitionOf(points: seq<GraphPoint>, i: nat): Transition
    requires TimesWellFormed(points) && i < PairCount(points)
  {
    Transition(Position(points[i].time), Position(points[i + 1].time), points[i].annotation, points[i].location)
  }

  /** The intervals of `status` among the first `n` pairs. */
  function TransitionsUpTo(points: seq<GraphPoint>, n: nat, status: Status): seq<Transition>
    requires TimesWellFormed(points) && n <= PairCount(points)
    decreases n
  {
    if n == 0 then []
    else TransitionsUpTo(points, n - 1, status) + (if points[n - 1].status == status then [TransitionOf(points, n - 1)] else [])
  }

  /** `generateStatusTransitions`. */
  method GenerateStatusTransitions(points: seq<GraphPoint>, statusKey: Status) returns (transitions: seq<Transition>)
    requires TimesWellFormed(points)
    ensures transitions == TransitionsUpTo(points, PairCount(points), statusKey)
  {
    transitions := [];
    var i := 0;
    while i < |points| - 1
      invariant 0 <= i <= PairCount(points)
      invariant transitions == TransitionsUpTo(points, i, statusKey)
    {
      var current := points[i];
      var next := points[i + 1];
      if current.status == statusKey || next.status == statusKey {
        var startHour := HourOf(current.time);
        var startMinute := MinuteOf(current.time);
        var endHour := HourOf(next.time);
        var endMinute := MinuteOf(next.time);
        var startPosition := startHour as real + startMinute as real / 60.0;
        var endPosition := endHour as real + endMinute as real / 60.0;
        if current.status == statusKey {
          transitions := transitions + [Transition(startPosition, endPosition, current.annotation, current.location)];
        }
      }
      i := i + 1;
    }
  }

  /** The pairs, among the first `n`, whose first point has `status`. */
  function MatchIndices(points: seq<GraphPoint>, n: nat, status: Status): (r: seq<nat>)
    requires n <= PairCount(points)
    ensures forall k :: 0 <= k < |r| ==> r[k] < n && points[r[k]].status == status
    ensures forall k, l :: 0 <= k < l < |r| ==> r[k] < r[l]
    ensures forall i :: 0 <= i < n && points[i].status == status ==> i in r
    decreases n
  {
    if n == 0 then []
    else MatchIndices(points, n - 1, status) + (if points[n - 1].status == status then [n - 1] else [])
  }

  /** Exactly one interval per pair whose first point has the status, in
      input order, each spanning that pair's two times and carrying the first
      point's annotation and location. */
  lemma {:induction false} TransitionsFollowMatches(points: seq<GraphPoint>, n: nat, status: Status)
    requires TimesWellFormed(points) && n <= PairCount(points)
    ensures var t := TransitionsUpTo(points, n, status);
            var m := MatchIndices(points, n, status);
            |t| == |m| && forall k :: 0 <= k < |t| ==> t[k] == TransitionOf(points, m[k])
    decreases n
  {
    if n > 0 {
      TransitionsFollowMatches(points, n - 1, status);
    }
  }

  lemma TransitionsOfStatus(points: seq<GraphPoint>, status: Status)
    requires TimesWellFormed(points)
    ensures var t := TransitionsUpTo(points, PairCount(points), status);
            var m := MatchIndices(points, PairCount(points), status);
            && |t| == |m|
            && (forall k :: 0 <= k < |t| ==>
                  && m[k] < PairCount(points) && points[m[k]].status == status
                  && t[k].startHour == Position(points[m[k]].time)
                  && t[k].endHour == Position(points[m[k] + 1].time)
                  && t[k].annotation == points[m[k]].annotation
                  && t[k].location == points[m[k]].location)
            && (forall k, l :: 0 <= k < l < |m| ==> m[k] < m[l])
  {
    TransitionsFollowMatches(points, PairCount(points), status);
  }

  /** No first point has the status exactly when there is no interval. */
  lemma {:induction false} TransitionsEmptyIff(points: seq<GraphPoint>, n: nat, status: Status)
    requires TimesWellFormed(points) && n <= PairCount(points)
    ensures TransitionsUpTo(points, n, status) == [] <==> forall i :: 0 <= i < n ==> points[i].status != status
    decreases n
  {
    if n > 0 {
      TransitionsEmptyIff(points, n - 1, status);
    }
  }

  // ---------------------------------------------------------------------
  // Hour-cell geometry
  // ---------------------------------------------------------------------

  function MaxReal(a: real, b: real): real { if a >= b then a else b }
  function MinReal(a: real, b: real): real { if a <= b then a else b }
  function AbsReal(a: real): real { if a >= 0.0 then a else -a }

  /** The interval meets cell [hour, hour + 1). */
  predicate Overlaps(t: Transition, hour: int)
  {
    t.startHour < (hour + 1) as real && t.endHour > hour as real
  }

  function OverlapStart(t: Transition, hour: int): real
  {
    MaxReal(t.startHour, hour as real)
  }

  function OverlapEnd(t: Transition, hour: int): real
  {
    MinReal(t.endHour, (hour + 1) as real)
  }

  /** The drawn width, in percent of the cell. */
  function OverlapWidth(t: Transition, hour: int): (w: real)
    requires Overlaps(t, hour)
    ensures w <= 100.0
    ensures t.startHour < t.endHour ==> 0.0 < w
  {
    (OverlapEnd(t, hour) - OverlapStart(t, hour)) / 1.0 * 100.0
  }

  /** The drawn offset from the cell's left edge, in percent. */
  function OffsetLeft(t: Transition, hour: int): (o: real)
    requires Overlaps(t, hour)
    ensures 0.0 <= o < 100.0
  {
    (OverlapStart(t, hour) - hour as real) / 1.0 * 100.0
  }

  /** The annotation is drawn in this cell: it is non-empty, the cell holds
      the interval's start (within a tenth of an hour) and the slice drawn is
      wider than 20%. */
  predicate ShowAnnotation(t: Transition, hour: int)
    requires Overlaps(t, hour)
  {
    && t.annotation.Some? && t.annotation.value != ""
    && AbsReal(OverlapStart(t, hour) - t.startHour) < 0.1
    && OverlapWidth(t, hour) > 20.0
  }

  /** An interval draws its annotation in at most one hour cell. */
  lemma AnnotationInOneCell(t: Transition, h1: int, h2: int)
    requires Overlaps(t, h1) && ShowAnnotation(t, h1)
    requires Overlaps(t, h2) && ShowAnnotation(t, h2)
    ensures h1 == h2
  {
    assert t.startHour - 0.8 < h1 as real < t.startHour + 0.1;
    assert t.startHour - 0.8 < h2 as real < t.startHour + 0.1;
  }

  /** The displayed annotation: at most 15 characters, a longer one cut to
      its first 12 and "...". */
  function DisplayAnnotation(a: string): (r: string)
    ensures |r| <= 15
    ensures |a| <= 15 ==> r == a
    ensures |a| > 15 ==> |r| == 15 && r[..12] == a[..12] && r[12..] == "..."
  {
    if |a| > 15 then a[..12] + "..." else a
  }

  /** What one interval draws in one cell. */
  datatype Mark = Mark(widthPercent: real, leftPercent: real, rising: bool, caption: Option<string>, captionLeftPercent: real)

  function MarkOf(t: Transition, hour: int): Mark
    requires Overlaps(t, hour)
  {
    Mark(OverlapWidth(t, hour), OffsetLeft(t, hour), t.startHour < t.endHour,
         if ShowAnnotation(t, hour) then Some(DisplayAnnotation(t.annotation.value)) else None,
         OffsetLeft(t, hour) + 2.0)
  }

  /** The marks of a status row's cell, one entry per interval (`null` for
      an interval that misses the cell). */
  function CellMarks(transitions: seq<Transition>, hour: int): (r: seq<Option<Mark>>)
    ensures |r| == |transitions|
    ensures forall i :: 0 <= i < |r| ==> (r[i].Some? <==> Overlaps(transitions[i], hour))
  {
    seq(|transitions|, i requires 0 <= i < |transitions| =>
      if Overlaps(transitions[i], hour) then Some(MarkOf(transitions[i], hour)) else None)
  }

  /** Within one status row, any interval labels at most one cell. */
  lemma RowLabelsOnce(transitions: seq<Transition>, i: nat, h1: int, h2: int)
    requires i < |transitions|
    requires CellMarks(transitions, h1)[i].Some? && CellMarks(transitions, h1)[i].value.caption.Some?
    requires CellMarks(transitions, h2)[i].Some? && CellMarks(transitions, h2)[i].value.caption.Some?
    ensures h1 == h2
  {
    AnnotationInOneCell(transitions[i], h1, h2);
  }

  /** A cell is highlighted for the row whose status the grid holds there. */
  predicate CellActive(slots: seq<Status>, hour: nat, status: Status)
    requires hour < |slots|
  {
    slots[hour] == status
  }

  /** The six rows drawn, numbered 1 to 6. */
  datatype StatusRow = StatusRow(id: int, title: string, key: Status)

  const StatusRows: seq<StatusRow> := [
    StatusRow(1, "Off Duty", OffDuty),
    StatusRow(2, "Sleeper", Sleeper),
    StatusRow(3, "Driving", Driving),
    StatusRow(4, "On-Duty", OnDuty),
    StatusRow(5, "Break", Break),
    StatusRow(6, "Rest", Rest)
  ]

  /** Every status has exactly one row, and row `k` carries id `k + 1`. */
  lemma StatusRowsCoverEachStatusOnce(s: Status)
    ensures exists k :: 0 <= k < |StatusRows| && StatusRows[k].key == s
    ensures forall k, l :: 0 <= k < l < |StatusRows| ==> StatusRows[k].key != StatusRows[l].key
    ensures forall k :: 0 <= k < |StatusRows| ==> StatusRows[k].id == k + 1
  {
    match s
    case OffDuty => assert StatusRows[0].key == s;
    case Sleeper => assert StatusRows[1].key == s;
    case Driving => assert StatusRows[2].key == s;
    case OnDuty => assert StatusRows[3].key == s;
    case Break => assert StatusRows[4].key == s;
    case Rest => assert StatusRows[5].key == s;
  }

  /** In every hour's column exactly one of the six rows is highlighted. */
  lemma OneActiveRowPerHour(slots: seq<Status>, hour: nat)
    requires hour < |slots|
    ensures exists k :: 0 <= k < |StatusRows| && CellActive(slots, hour, StatusRows[k].key)
    ensures forall k, l :: 0 <= k < l < |StatusRows| && CellActive(slots, hour, StatusRows[k].key) ==> !CellActive(slots, hour, StatusRows[l].key)
  {
    StatusRowsCoverEachStatusOnce(slots[hour]);
  }

  /** A day that drives from 07:00, breaks at 09:30, drives again from
      09:45 and goes off duty at 18:00. */
  const SampleDay: seq<GraphPoint> := [
    GraphPoint("07:00", Driving, None, None),
    GraphPoint("09:30", Break, None, Some("fuel stop")),
    GraphPoint("09:45", Driving, None, None),
    GraphPoint("18:00", OffDuty, None, None)
  ]

  lemma SampleDayHours()
    ensures TimesWellFormed(SampleDay)
    ensures HourAt(SampleDay, 0) == 7 && HourAt(SampleDay, 1) == 9 && HourAt(SampleDay, 2) == 9 && HourAt(SampleDay, 3) == 18
    ensures Position(SampleDay[0].time) == 7.0 && Position(SampleDay[1].time) == 9.5
    ensures Position(SampleDay[2].time) == 9.75 && Position(SampleDay[3].time) == 18.0
  {
  }

  /** The grid of the sample day: hours 7 to 17 are driving, hour 9
      included, since the break's pair starts and ends in hour 9 and writes
      nothing; every other hour is off-duty. */
  lemma SampleDaySlots(h: int)
    requires 0 <= h < 24
    ensures TimesWellFormed(SampleDay)
    ensures Slots(SampleDay)[h] == if 7 <= h < 18 then Driving else OffDuty
  {
    SampleDayHours();
  }

  /** The sample day's intervals: driving [7, 9.5) and [9.75, 18), and one
      break [9.5, 9.75) carrying the annotation. */
  lemma SampleDayTransitions()
    ensures TimesWellFormed(SampleDay)
    ensures TransitionsUpTo(SampleDay, PairCount(SampleDay), Driving)
         == [Transition(7.0, 9.5, None, None), Transition(9.75, 18.0, None, None)]
    ensures TransitionsUpTo(SampleDay, PairCount(SampleDay), Break)
         == [Transition(9.5, 9.75, Some("fuel stop"), None)]
  {
    SampleDayHours();
  }
}
