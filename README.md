# Trip planner: duty-status log generation and the daily log timeline

This project is a Dafny model of the parts of the trip planner that carry real logic. It covers the following.

- **The server's planner and log generator** (`server/trip_planner/services.py`).
  - A trip becomes an ordered list of route segments: drive chunks of at most 1609 km, with a 30-minute refuel stop after each full chunk. Then comes a one-hour pickup, a second drive block and a one-hour dropoff. Each drive block ends with a 10-hour rest when it takes more than 11 hours, or a 30-minute break when it takes more than 8.
  - A state machine over integer minutes walks these segments. After 8 hours of continuous driving it inserts a 30-minute break. Before a segment that would pass the 11-hour driving, 14-hour on-duty or 24-hour day limit, it closes the day and adds a 10-hour gap. It records one list of duty-status checkpoints ("graph points") per day, and never appends two consecutive points with the same status.
- **The client's daily log sheet** (`client/src/components/ELDLogSheet.js`).
  - The 24-hour status grid (`generateTimeSlots`).
  - The per-status intervals (`generateStatusTransitions`).
  - The per-cell overlap geometry, the annotation rule and annotation truncation.
- **The smaller cores.**
  - The client trip store (`client/src/stores/TripStore.js`), modelled as a class whose methods update its fields.
  - The request validators and response reshaping of `server/trip_planner/serializers.py`.
  - The formatting and fold helpers of the route map, the simple route map and the trip details view.

Module layout, one module per source file:

- `TripPlanning` is the route side of `services.py`; `LogGeneration` is its log generator.
- `EldLogSheet`, `Store`, `Serializers`, `RouteVisualization`, `SimpleRouteMap` and `TripDetails` are one module each.
- Three shared modules:
  - `Wrappers` holds `Option` and `Result`.
  - `Text` holds decimal rendering, Python's `f"{n:02d}"`, JavaScript's `%`, and the duration text with a parser that inverts it.
  - `Records` holds the six duty statuses, the six segment kinds, `GraphPoint` and the client's records.

The server writes each graph point's time as "HH:MM" and the client reads it back with `parseInt`. Both sides use the same `Records.GraphPoint` and `Records.HourOf`/`Records.MinuteOf`.

Where the code is imperative, the model is imperative too:

- `_create_drive_segments`, `_calculate_route_segments` and `_generate_log_sheets` are methods with loops.
- `generateTimeSlots` fills a 24-entry `array` in nested loops, and `generateStatusTransitions` pushes in a loop.
- Each such method is proved equal to a specification function. The properties are proved as lemmas about that function.

Inputs the model takes as parameters:

- Great-circle distances, given as reals.
- The `:.2f` coordinate text (`coordText`) and JavaScript's number-to-text (`numText`).
- Every service call's outcome passed to the store, as a `Result`.

## Model

| member | source | states |
|---|---|---|
| Text.NatToStringRoundTrip | client/src/components/RouteVisualization.js:120 | the decimal text a template literal gives a non-negative integer reads back as that integer |
| Text.Pad2 | server/trip_planner/services.py:341-343 | `f"{n:02d}"` is two digits whose value is n |
| Text.JsRem | client/src/components/RouteVisualization.js:119 | JavaScript `%` is the remainder of division truncated toward zero: `a` equals `b` times the truncated quotient plus the result, which lies strictly between `-b` and `b`, agrees with the mathematical remainder on non-negative dividends and is never positive on negative ones |
| Text.DurationTextRoundTrip | client/src/components/RouteVisualization.js:118-120 | for every m >= 0 the "{h}h {r}m" / "{r}m" text parses back to m |
| Text.DurationTextInjective | client/src/components/RouteVisualization.js:118-120 | two different non-negative durations never render alike |
| Records.StatusNameInjective | server/trip_planner/models.py:45-52 | the six statuses have distinct wire names |
| Records.HourOf | client/src/components/ELDLogSheet.js:301 | the hour `parseInt` reads from a well-formed "HH:MM" is below 100 |
| TripPlanning.Trunc | server/trip_planner/services.py:129 | Python's `int(x)` truncates toward zero: within 1 of x, on x's side of zero |
| TripPlanning.Interpolate | server/trip_planner/services.py:177-181 | interpolating at ratio 0 gives the start point and at ratio 1 the end point |
| TripPlanning.EmitChunk | server/trip_planner/services.py:109-141 | one loop iteration emits the chunk's drive segment, then a refuel stop exactly when the chunk was a full 1609 km and distance remains; the distance advances by the chunk |
| TripPlanning.CreateDriveSegments | server/trip_planner/services.py:101-160 | the loop's output equals the chunk recursion followed by the trailing stop |
| TripPlanning.DriveChunksShape | server/trip_planner/services.py:107-141 | every drive chunk is at most 1609 km; a 30-minute refuel follows only a full chunk with more to drive; no chunks at all iff no distance is left |
| TripPlanning.DriveChunksCoverDistance | server/trip_planner/services.py:107-141 | the chunk distances sum to exactly the distance left to drive (0 when none is left) |
| TripPlanning.DriveChunksDurations | server/trip_planner/services.py:113-129 | for non-negative drive hours every chunk and refuel stop has a non-negative duration |
| TripPlanning.ChunkedEndsWithDrive | server/trip_planner/services.py:133-140 | a refuel stop is never the last chunk |
| TripPlanning.DriveSegmentsTrailer | server/trip_planner/services.py:143-158 | a block of more than 11 driving hours ends with a 600-minute rest, one of more than 8 with a 30-minute break, a shorter non-empty one with a drive chunk; one with nothing to drive and at most 8 hours is empty |
| TripPlanning.DriveSegmentsDistance | server/trip_planner/services.py:101-160 | a drive block's distances sum to its leg's distance |
| TripPlanning.DriveSegmentsHaveNoStops | server/trip_planner/services.py:101-160 | a drive block holds no pickup and no dropoff |
| TripPlanning.CalculateRouteSegments | server/trip_planner/services.py:43-99 | the method builds the planned route: drive block to pickup, pickup, drive block to dropoff, dropoff |
| TripPlanning.RouteStops | server/trip_planner/services.py:54-97 | the route has exactly one pickup, right after the first drive block, and exactly one dropoff, as its last segment |
| TripPlanning.RouteDurations | server/trip_planner/services.py:54-97 | for non-negative distances every planned segment has a non-negative duration |
| TripPlanning.RouteDistance | server/trip_planner/services.py:34 | the route's total distance, summed as `plan_trip` sums it, is the sum of the two leg distances |
| LogGeneration.FreshDayFits | server/trip_planner/services.py:318-336 | a freshly started day never asks for another rollover before a segment of at most 660 minutes, and always asks for one before a segment longer than 1440 minutes |
| LogGeneration.NeedsNewDayMonotone | server/trip_planner/services.py:318-336 | the rollover test is monotone: a longer segment, more driving or on-duty time, or a later clock keeps it true |
| LogGeneration.RestAndBreakOnlyDayRule | server/trip_planner/services.py:326-334 | rest and break segments can only trigger the 24-hour rule |
| LogGeneration.ClockText | server/trip_planner/services.py:340-343 | the time text is a valid clock time (hour < 24, minute < 60) for (clock - day start) mod 1440 |
| LogGeneration.AddGraphPoint | server/trip_planner/services.py:338-360 | exactly one point is appended iff the list is empty or its last status differs; the old points are kept; the new point has the clock text, the status, and location and annotation only when truthy |
| LogGeneration.FormatLocation | server/trip_planner/services.py:183-195 | no location gives "UNKNOWN"; a location with city and state gives "city, state" |
| LogGeneration.AddKeepsOpenDay | server/trip_planner/services.py:346 | appending keeps a day's points starting at 00:00 off-duty, free of repeated statuses and in clock-time form |
| LogGeneration.CloseDayValid | server/trip_planner/services.py:253-259 | a closed day also ends off-duty and carries the current day number |
| LogGeneration.StepKeepsInv | server/trip_planner/services.py:237-309 | one loop iteration keeps the generator invariant: day = stored sheets + 1, sheets numbered from 1, every stored day valid, open day well formed |
| LogGeneration.RunKeepsInv | server/trip_planner/services.py:223-309 | the invariant holds after any prefix of the segments |
| LogGeneration.LogSheetsShape | server/trip_planner/services.py:204-316 | an empty trip gets the single fixed day-1 sheet; otherwise the sheets are numbered 1, 2, 3, … and each starts at 00:00 off-duty, never repeats a status and ends off-duty |
| LogGeneration.StepEffect | server/trip_planner/services.py:237-309 | an iteration adds 30 minutes for a break (resetting continuous driving) and otherwise leaves the state alone before the rollover; a rollover closes the day, adds the 600-minute gap, starts the new day at the new clock with only the midnight off-duty point and resets the counters; then the segment adds its duration, continuous driving becomes the (possibly reset) count plus the drive's duration for a drive and 0 for any other kind, and the day's points keep the earlier ones and end on the segment's status |
| LogGeneration.BreakRuleEffect | server/trip_planner/services.py:240-248 | the break rule fires exactly for a positive drive after 480 continuous minutes, keeping the earlier points and ending them on a break, adding 30 minutes and resetting continuous driving while leaving day, sheets and the other counters alone; when it does not fire the state is unchanged |
| LogGeneration.RolloverEffect | server/trip_planner/services.py:250-272 | a rollover closes the day, advances the clock 600 minutes, starts the next numbered day there, zeroes driving, on-duty and continuous driving and restarts the points at the midnight off-duty point; otherwise nothing changes |
| LogGeneration.ProcessEffect | server/trip_planner/services.py:274-309 | logging a segment adds its duration to the clock, to driving for a drive and to on-duty for drive, pickup, dropoff and refuel; continuous driving grows by a drive's duration and is reset to 0 by rest, break, pickup, dropoff and refuel |
| LogGeneration.ProcessPointsEffect | server/trip_planner/services.py:274-309 | logging a segment keeps the day's points, appends at most one and leaves them ending on the status of the segment's kind |
| LogGeneration.StepKeepsBalanced | server/trip_planner/services.py:290-301 | with non-negative durations daily driving never exceeds daily on-duty time |
| LogGeneration.LogSheetsBalanced | server/trip_planner/services.py:290-301 | on every stored sheet 0 <= driving minutes <= on-duty minutes when no duration is negative |
| LogGeneration.StepKeepsWithinLimits | server/trip_planner/services.py:250-272 | one iteration keeps driving <= 660 and on-duty <= 840 when the segment is at most 660 minutes |
| LogGeneration.LogSheetsWithinLimits | server/trip_planner/services.py:250-272 | every stored sheet respects the 11-hour and 14-hour limits when no segment exceeds 660 minutes |
| LogGeneration.LongDriveExceedsLimit | server/trip_planner/services.py:250-289 | a single 965-minute drive chunk is logged whole on day 2, past the 11-hour limit |
| LogGeneration.BreakAndRollover | server/trip_planner/services.py:240-272 | the first half of the loop body computes the break rule followed by the rollover |
| LogGeneration.LogByKind | server/trip_planner/services.py:274-309 | the second half of the loop body logs the segment by its kind |
| LogGeneration.GenerateLogSheets | server/trip_planner/services.py:204-316 | the method's sheets equal `LogSheetsFor`; an empty trip gets the fixed sheet; sheets are numbered from 1 and every day is valid |
| EldLogSheet.Slots | client/src/components/ELDLogSheet.js:294-312 | the grid has 24 entries |
| EldLogSheet.GenerateTimeSlots | client/src/components/ELDLogSheet.js:294-312 | the nested loops yield 24 slots, each the status of the last pair covering that hour, or off-duty |
| EldLogSheet.FewPointsAllOffDuty | client/src/components/ELDLogSheet.js:295-297 | with fewer than two points every hour is off-duty |
| EldLogSheet.SlotIsLastCover | client/src/components/ELDLogSheet.js:297-309 | an hour covered by pair j and by no later pair holds point j's status (last write wins) |
| EldLogSheet.SlotUncovered | client/src/components/ELDLogSheet.js:295-309 | an hour no pair covers stays off-duty |
| EldLogSheet.SlotAfterFromPairs | client/src/components/ELDLogSheet.js:297-309 | every slot is off-duty or the status of some pair's first point |
| EldLogSheet.LastStatusNeverWritten | client/src/components/ELDLogSheet.js:297-304 | a status other than off-duty that only the last point has never appears in the grid |
| EldLogSheet.SlotsIgnoreMinutes | client/src/components/ELDLogSheet.js:301-304 | two days with the same statuses and hours give the same grid whatever their minutes |
| EldLogSheet.Position | client/src/components/ELDLogSheet.js:323-330 | the fractional position h + m/60 of a time lies in [h, h+2) |
| EldLogSheet.GenerateStatusTransitions | client/src/components/ELDLogSheet.js:314-343 | the loop's intervals equal `TransitionsUpTo` over every consecutive pair of points |
| EldLogSheet.MatchIndices | client/src/components/ELDLogSheet.js:317-332 | the matching pairs are exactly the pairs whose first point has the status, in increasing order |
| EldLogSheet.TransitionsOfStatus | client/src/components/ELDLogSheet.js:317-338 | one interval per pair whose first point has the status, in input order, from that point's position to the next point's, with that point's annotation and location |
| EldLogSheet.TransitionsEmptyIff | client/src/components/ELDLogSheet.js:317-338 | there is no interval iff no pair's first point has the status |
| EldLogSheet.OverlapWidth | client/src/components/ELDLogSheet.js:480-483 | an overlapping interval's width is at most 100, and positive when the interval ascends |
| EldLogSheet.OffsetLeft | client/src/components/ELDLogSheet.js:480-484 | the offset of an overlap lies in [0, 100) |
| EldLogSheet.AnnotationInOneCell | client/src/components/ELDLogSheet.js:486-489 | an interval shows its annotation in at most one hour cell |
| EldLogSheet.DisplayAnnotation | client/src/components/ELDLogSheet.js:506-508 | an annotation of at most 15 characters is unchanged; a longer one becomes its first 12 characters plus "...", 15 in all |
| EldLogSheet.CellMarks | client/src/components/ELDLogSheet.js:475-510 | a cell draws a mark for an interval exactly when the interval overlaps the cell |
| EldLogSheet.RowLabelsOnce | client/src/components/ELDLogSheet.js:487-508 | within a status row each interval's caption appears in at most one cell |
| EldLogSheet.StatusRowsCoverEachStatusOnce | client/src/components/ELDLogSheet.js:351-358 | the six rows are numbered 1 to 6 and list every status exactly once |
| EldLogSheet.OneActiveRowPerHour | client/src/components/ELDLogSheet.js:464-473 | in every hour's column exactly one of the six status rows has its cell highlighted |
| EldLogSheet.SampleDayHours | client/src/components/ELDLogSheet.js:301-330 | the sample day's hours are 7, 9, 9, 18 and its positions 7.0, 9.5, 9.75, 18.0 |
| EldLogSheet.SampleDaySlots | client/src/components/ELDLogSheet.js:294-312 | on the sample day hours 7 to 17 are driving, hour 9 included, and every other hour is off-duty |
| EldLogSheet.SampleDayTransitions | client/src/components/ELDLogSheet.js:314-343 | the sample day's driving intervals are [7, 9.5) and [9.75, 18); its one break interval is [9.5, 9.75) with annotation "fuel stop" |
| Store.ErrorText | client/src/stores/TripStore.js:96 | an `Error` yields its message and any other thrown value the fallback text |
| Store.FirstIndexOf | client/src/stores/TripStore.js:112 | the first index with the id, or none exactly when no trip has it |
| Store.FindTrip | client/src/stores/TripStore.js:63 | a trip found has the id and is the first trip in the list that has it (an earlier duplicate wins); none exactly when no trip has it |
| Store.UpsertReplacesFirstMatch | client/src/stores/TripStore.js:112-114 | when the id is present the first matching entry is replaced, the length is unchanged, and every other entry is kept |
| Store.UpsertAppendsNew | client/src/stores/TripStore.js:115-116 | when the id is absent the trip is appended |
| Store.UpsertThenFind | client/src/stores/TripStore.js:110-117 | a trip stored under its own id is the one found by that id |
| Store.CreatedTripIsFound | client/src/stores/TripStore.js:91-93 | a newly created trip with a fresh id is the one found by that id |
| Store.TripStore.constructor | client/src/stores/TripStore.js:53-60 | a new store has no trips, no selection, no logs, no error and is not loading |
| Store.TripStore.CurrentTrip | client/src/stores/TripStore.js:62-64 | a current trip exists only for a non-empty id and is the first trip in the list with that id; a non-empty id some trip has always finds one |
| Store.TripStore.SetLoading | client/src/stores/TripStore.js:67-69 | only `loading` changes |
| Store.TripStore.SetError | client/src/stores/TripStore.js:71-73 | only `error` changes |
| Store.TripStore.ClearError | client/src/stores/TripStore.js:75-77 | `error` becomes unset and nothing else changes |
| Store.TripStore.SetCurrentTrip | client/src/stores/TripStore.js:79-81 | the selection becomes the trip's id, or unset for no trip; nothing else changes |
| Store.TripStore.BeginRequest | client/src/stores/TripStore.js:84-85 | a request starts with loading on and the error cleared |
| Store.TripStore.CreateTrip | client/src/stores/TripStore.js:83-101 | success appends exactly the loaded trip and selects it; failure of either call sets the "Failed to create trip" error text and leaves trips and selection; loading ends false |
| Store.TripStore.LoadTripDetails | client/src/stores/TripStore.js:103-124 | success upserts the loaded trip under the requested id and selects its id; failure sets the "Failed to load trip details" error text; loading ends false |
| Store.TripStore.LoadTripLogs | client/src/stores/TripStore.js:126-139 | success replaces the current logs and leaves trips untouched; failure sets the "Failed to load trip logs" error text; loading ends false |
| Serializers.ValidateLocation | server/trip_planner/serializers.py:25-38 | a location is accepted, unchanged, iff it is a dictionary with 'lat' and 'lng'; otherwise the fixed error text |
| Serializers.ValidateLocationField | server/trip_planner/serializers.py:20-38 | a null location is rejected with "This field may not be null." by the field itself; any other value gets the location check, so acceptance is exactly the location check's |
| Serializers.ValidateCycleHours | server/trip_planner/serializers.py:23 | cycle hours are accepted iff in [0, 70], with the min and max error texts below and above |
| Serializers.CreateErrors | server/trip_planner/serializers.py:19-38 | the error map has a key exactly for each field that fails its check |
| Serializers.ValidateTripCreate | server/trip_planner/serializers.py:19-38 | the payload is accepted, unchanged, iff all three locations and the cycle hours pass; otherwise the per-field errors, a null location reported as "This field may not be null." and any other failing location with the lat/lng message |
| Serializers.RejectedFieldsNamed | server/trip_planner/serializers.py:19-38 | a rejected payload names at least one field, and names each field exactly when that field fails |
| Serializers.SegmentJson | server/trip_planner/serializers.py:5-8 | a segment has exactly the five listed keys |
| Serializers.RouteJson | server/trip_planner/serializers.py:42 | the route holds one representation per segment, in order |
| Serializers.TripJson | server/trip_planner/serializers.py:51-58 | the trip has exactly the keys trip_id (the id as text), total_distance_km, estimated_days and route |
| Serializers.TripDetailJson | server/trip_planner/serializers.py:73-76 | the detail drops 'id', adds 'trip_id' as the id's text, and keeps every other key unchanged |
| Serializers.LogSheetJson | server/trip_planner/serializers.py:11-16 | a sheet has exactly day (from day_number), graph_points and summary |
| Serializers.TripLogsJson | server/trip_planner/serializers.py:83-87 | the logs response has exactly trip_id and logs, one sheet per log in order |
| RouteVisualization.SegmentColorsDistinct | client/src/components/RouteVisualization.js:92-102 | the six kinds get six distinct colours, none the default |
| RouteVisualization.SegmentColor | client/src/components/RouteVisualization.js:92-102 | any other type gets the default colour |
| RouteVisualization.SegmentSymbolsDistinct | client/src/components/RouteVisualization.js:104-114 | the six kinds get six distinct symbols, none the default |
| RouteVisualization.SegmentSymbol | client/src/components/RouteVisualization.js:104-114 | any other type gets the default symbol |
| RouteVisualization.FormatDuration | client/src/components/RouteVisualization.js:116-121 | a missing or zero duration gives "N/A"; any other gives the duration text |
| RouteVisualization.FormatDurationReadsBack | client/src/components/RouteVisualization.js:116-121 | a positive duration's text is not "N/A" and reads back as that duration |
| RouteVisualization.DriveTimeIsSum | client/src/components/RouteVisualization.js:175-179 | the drive-time fold is the sum of the truthy durations of the drive segments |
| RouteVisualization.NoDrivesNoTime | client/src/components/RouteVisualization.js:175-179 | a route without a timed drive has total drive time 0 |
| RouteVisualization.DriveTimeBounds | client/src/components/RouteVisualization.js:175-179 | with non-negative durations each drive's duration is between 0 and the total |
| RouteVisualization.CountsAreOccurrences | client/src/components/RouteVisualization.js:181-184 | a type has a key iff it occurs, and its value is its number of occurrences |
| RouteVisualization.OccursIff | client/src/components/RouteVisualization.js:181-184 | a type's count is positive iff some segment has that type |
| RouteVisualization.CountsSumToLength | client/src/components/RouteVisualization.js:181-184 | the counts over the six kinds sum to the route length |
| RouteVisualization.LineLegs | client/src/components/RouteVisualization.js:163-164 | only drive segments with both endpoints draw a line |
| RouteVisualization.LineLegsAppend | client/src/components/RouteVisualization.js:163-164 | the filter keeps route order |
| RouteVisualization.RouteLines | client/src/components/RouteVisualization.js:163-172 | one line per kept leg, in order, from its start to its end, with the drive colour and key "route-i" |
| RouteVisualization.RouteLineKeysDistinct | client/src/components/RouteVisualization.js:171 | the line keys are pairwise distinct |
| RouteVisualization.SegmentMarkers | client/src/components/RouteVisualization.js:289-295 | markers are drawn exactly for the non-drive segments with a start location |
| RouteVisualization.CollectTripLocations | client/src/components/RouteVisualization.js:134-145 | the trip's present locations, in the order current, pickup, dropoff |
| RouteVisualization.CollectSegmentLocations | client/src/components/RouteVisualization.js:148-157 | each segment's present start and end are appended, in route order |
| RouteVisualization.CollectLocations | client/src/components/RouteVisualization.js:134-157 | the collected list is the trip's points followed by the segments' points |
| RouteVisualization.MapCenter | client/src/components/RouteVisualization.js:160 | the center is the first collected location, else (39.8283, -98.5795) |
| RouteVisualization.MapZoom | client/src/components/RouteVisualization.js:215 | zoom is 6 iff more than one location is collected, else 4 |
| RouteVisualization.MapBounds | client/src/components/RouteVisualization.js:217 | bounds are set, to the collected locations, iff more than one is collected |
| RouteVisualization.CenterFollowsTripLocations | client/src/components/RouteVisualization.js:134-160 | the center is the first present one of current, pickup and dropoff |
| RouteVisualization.TwoTripLocationsZoomIn | client/src/components/RouteVisualization.js:134-145 | a trip with current and dropoff locations is always zoomed in |
| SimpleRouteMap.CollectWaypoints | client/src/components/SimpleRouteMap.js:143-158 | the waypoints the loop collects equal `Waypoints` |
| SimpleRouteMap.WaypointsInOrder | client/src/components/SimpleRouteMap.js:143-158 | one waypoint per present location, in the order current, pickup, dropoff |
| SimpleRouteMap.BuildMapUrl | client/src/components/SimpleRouteMap.js:142-180 | the URL the method builds equals `MapUrl` |
| SimpleRouteMap.FewWaypointsUrl | client/src/components/SimpleRouteMap.js:160-167 | with fewer than two waypoints the URL is the q=…&z=10 form of the first present location, or the fixed default URL when there is none |
| SimpleRouteMap.ManyWaypointsUrl | client/src/components/SimpleRouteMap.js:169-179 | with two or more waypoints saddr is the first and daddr the last, and "&waypoints=" appears iff there is a middle one |
| SimpleRouteMap.UrlEndsWithEmbed | client/src/components/SimpleRouteMap.js:160-179 | every URL ends with "&output=embed" |
| TripDetails.FormatDurationReadsBack | client/src/components/TripDetails.js:110-114 | every non-negative duration's text reads back as that duration, 0 as "0m" |
| TripDetails.AgreesWithRoutePanel | client/src/components/TripDetails.js:110-114 | the details view and the route panel render every non-zero duration alike; for 0 they give "0m" and "N/A" |
| TripDetails.BorderMatchesSegmentColor | client/src/components/TripDetails.js:63-73 | the card border colour is the route panel's segment colour for every type |
| TripDetails.BorderColor | client/src/components/TripDetails.js:63-73 | any other type gets the default border colour |
| TripDetails.BackgroundColor | client/src/components/TripDetails.js:74-84 | any other type gets the default background |
| TripDetails.BackgroundsDistinct | client/src/components/TripDetails.js:74-84 | the six kinds get six distinct backgrounds, none the default and none equal to a border colour |
| TripDetails.ShortTripId | client/src/components/TripDetails.js:124 | the displayed id is its first 8 characters (all of a shorter id) followed by "..." |
| TripDetails.CardShowsLine | client/src/components/TripDetails.js:184-195 | a card shows something at From/To exactly when the location is present, and at distance/duration exactly when the value is present |
| TripDetails.CardNumberLines | client/src/components/TripDetails.js:190-195 | the labelled distance and duration lines appear exactly for a non-zero value, the duration with its formatted text; a value of 0 shows as the bare "0" instead |
| TripDetails.CardLinesOrdered | client/src/components/TripDetails.js:184-195 | the card's lines come in the order From, To, Distance, Duration |
| TripDetails.RouteCards | client/src/components/TripDetails.js:177-199 | there are cards exactly when the route is present and non-empty, one per segment in route order, each with the segment's type and its lines |

## Left out

- Great-circle distance (`_calculate_distance`) is not modelled, because it is floating-point trigonometry. The planner takes the two distances as parameters.
- Coordinate text is a parameter (`coordText`, `numText`), because Python's `:.2f` and JavaScript's number-to-string conversion are floating-point formats.
- Other float formatting is left out for the same reason. `toFixed` in the views, `formatHours`, and the rounding of summary hours in `_create_log_sheet` are not modelled. Sheets keep integer minutes, and rest is 1440 minus on-duty.
- `_estimate_trip_days` is left out (a float `ceil` of summed hours). `TripPlanning.RouteDistance` covers the distance total of `plan_trip`.
- The route planner uses exact reals where the source uses floats. `0.1 + 0.2`-style rounding is not captured.
- EldLogSheet.CellMarks: decides a caption (`ShowAnnotation`'s width above 20 and start within 0.1 of the interval's start) in exact reals, where JavaScript uses doubles. Two boundary families come out differently. An interval starting at hh:48 (hh from 2 to 7) has width `(hh+1 - hh.8) * 100`, which the doubles make slightly above 20 and so captioned, while the model's exact 20 gets no caption. An interval starting at hh:54 (hh 0 or 4 to 15) that runs past (hh+1):12 has its start within 0.1 of the next hour in doubles, so that cell is captioned, while the model's distance is exactly 0.1 and no cell gets a caption.
- Django and HTTP are not modelled: the ORM calls, `plan_trip`'s persistence, `views.py`, `urls.py` and the client API module. The `console.log` calls in the route panel's marker loop are left out as console output. Sheets are returned as a sequence, and the store receives each call's outcome as a `Result`.
- MobX `flow`/`yield` suspension and reactive notification are not modelled. Each store action runs as one atomic method, and a rejected call appears as a `Failure` outcome instead of a rethrown exception.
- Malformed "HH:MM" text (`parseInt` giving `NaN`) is excluded by the precondition `TimesWellFormed`. Every time the server writes satisfies it (`LogGeneration.ClockText`).
- The rotation string, the CSS percentages and the caption's extra 2% offset are carried only as the numbers a `Mark` holds. No DOM output is produced.
- Segment types and statuses are enumerations, so an unknown type string read from the database cannot reach the generator or the client folds. The colour and symbol maps take any string and keep their default branch.
- JSON keys are a map, so the key order of Python dictionaries is not modelled.
- The DRF `IntegerField` coercion of strings to integers is not modelled. The cycle hours arrive as an integer.
- Serializers.ValidateTripCreate: the payload always carries all four fields and the cycle hours are never null, so DRF's "This field is required." for a missing key and its null message for the hours are not modelled. Each failing field carries one message, where DRF reports a list of messages.
- SimpleRouteMap's `getSegmentColor` is the same switch as the route panel's, and the model does not restate it.
- SimpleRouteMap's `getSegmentIcon` returns mis-encoded glyph text, and the model does not restate it.
- SimpleRouteMap's `formatDuration`, `segmentCounts` and `totalDriveTime` are character-for-character the same as RouteVisualization's, and `SimpleRouteMap` uses those definitions.
- LogGeneration.LogSheetsWithinLimits: states the 11-hour and 14-hour limits only for segments of at most 660 minutes. The generator never splits a segment, so a longer segment is logged whole on one day (`LogGeneration.LongDriveExceedsLimit`).
- LogGeneration.LogSheetsBalanced: stated only for non-negative durations. A negative stored duration can make the counters negative.
- ClockText wraps with `% 1440`. A day whose segments fill exactly 1440 minutes therefore closes with an off-duty point at "00:00", and a day that a break pushes past 1440 wraps too. The model reproduces both.
- On the sample day (07:00 driving, 09:30 break "fuel stop", 09:45 driving, 18:00 off-duty), the grid marks hour 9 as driving, not break. The 07:00–09:30 pair covers hours 7–8 and the 09:45–18:00 pair covers 9–17, while the break pair covers no whole hour (`EldLogSheet.SampleDaySlots`).
- The detail lines of a TripDetails card are modelled as line values, not rendered text. A distance or duration of 0 is falsy, so its guard yields the number 0 and React draws a bare "0" where the line would be. The model gives that case its own line (`ZeroDistance`, `ZeroDuration`).
- EldLogSheet.DisplayAnnotation: measures and cuts the annotation in Unicode scalar values, while JavaScript's `length` and `substring` count UTF-16 code units. An annotation with characters outside the Basic Multilingual Plane is therefore cut at a different place, possibly inside a surrogate pair, and that case is not modelled.
