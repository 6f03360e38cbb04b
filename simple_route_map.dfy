/** The embedded map's address: the trip's known locations as waypoints of
    a maps URL. A coordinate's decimal text is the parameter `numText`
    (JavaScript's number-to-string). The panel's `formatDuration`,
    `segmentCounts` and `totalDriveTime` are the same code as the route
    panel's and are the ones in `RouteVisualization`. */
module SimpleRouteMap {
  import opened Wrappers
  import opened Records

  const MapsPrefix := "https://maps.google.com/maps?"
  const EmbedSuffix := "&output=embed"
  const DefaultMapUrl := "https://maps.google.com/maps?q=39.8283,-98.5795&z=4&output=embed"

  /** `${lat},${lng}`. */
  function WaypointText(l: Location, numText: real -> string): (w: string)
    ensures ',' in w
  {
    var w := numText(l.lat) + "," + numText(l.lng);
    assert w[|numText(l.lat)|] == ',';
    w
  }

  function Present(l: Option<Location>, numText: real -> string): seq<string>
  {
    if l.Some? then [WaypointText(l.value, numText)] else []
  }

  /** The waypoints: current, pickup, drop-off, each only when present. */
  function Waypoints(trip: Trip, numText: real -> string): (w: seq<string>)
    ensures |w| <= 3
  {
    Present(trip.currentLocation, numText) + Present(trip.pickupLocation, numText) + Present(trip.dropoffLocation, numText)
  }

  /** The first present location, as `a || b || c` picks it. */
  function FirstPresent(trip: Trip): Option<Location>
  {
    if trip.currentLocation.Some? then trip.currentLocation
    else if trip.pickupLocation.Some? then trip.pickupLocation
    else trip.dropoffLocation
  }

  /** `Array.prototype.join`. */
  function Join(xs: seq<string>, sep: string): string
  {
    if |xs| == 0 then "" else if |xs| == 1 then xs[0] else xs[0] + sep + Join(xs[1..], sep)
  }

  /** The URL `buildMapUrl` returns. */
  function MapUrl(trip: Trip, numText: real -> string): string
  {
    var w := Waypoints(trip, numText);
    if |w| < 2 then
      match FirstPresent(trip)
      case Some(l) => MapsPrefix + "q=" + numText(l.lat) + "," + numText(l.lng) + "&z=10" + EmbedSuffix
      case None => DefaultMapUrl
    else
      var middle := Join(w[1..|w| - 1], "|");
      MapsPrefix + "saddr=" + w[0] + "&daddr=" + w[|w| - 1]
      + (if middle != "" then "&waypoints=" + middle else "") + EmbedSuffix
  }

  /** The `push` calls that collect the waypoints. */
  method CollectWaypoints(trip: Trip, numText: real -> string) returns (waypoints: seq<string>)
    ensures waypoints == Waypoints(trip, numText)
  {
    waypoints := [];
    if trip.currentLocation.Some? {
      waypoints := waypoints + [WaypointText(trip.currentLocation.value, numText)];
    }
    if trip.pickupLocation.Some? {
      waypoints := waypoints + [WaypointText(trip.pickupLocation.value, numText)];
    }
    if trip.dropoffLocation.Some? {
      waypoints := waypoints + [WaypointText(trip.dropoffLocation.value, numText)];
    }
  }

  /** `buildMapUrl`: collects the waypoints, then grows the URL. */
  method BuildMapUrl(trip: Trip, numText: real -> string) returns (url: string)
    ensures url == MapUrl(trip, numText)
  {
    var waypoints := CollectWaypoints(trip, numText);
    if |waypoints| < 2 {
      var location := FirstPresent(trip);
      if location.Some? {
        return MapsPrefix + "q=" + numText(location.value.lat) + "," + numText(location.value.lng) + "&z=10" + EmbedSuffix;
      }
      return DefaultMapUrl;
    }
    var origin := waypoints[0];
    var destination := waypoints[|waypoints| - 1];
    var waypointStr := Join(waypoints[1..|waypoints| - 1], "|");
    url := MapsPrefix + "saddr=" + origin + "&daddr=" + destination;
    if waypointStr != "" {
      url := url + "&waypoints=" + waypointStr;
    }
    url := url + EmbedSuffix;
  }

  function PresentCount(trip: Trip): nat
  {
    (if trip.currentLocation.Some? then 1 else 0) + (if trip.pickupLocation.Some? then 1 else 0)
    + (if trip.dropoffLocation.Some? then 1 else 0)
  }

  /** The present locations become waypoints in the order current, pickup,
      drop-off: one per present location, the first and last being the
      first and last present ones. */
  lemma WaypointsInOrder(trip: Trip, numText: real -> string)
    ensures |Waypoints(trip, numText)| == PresentCount(trip)
    ensures PresentCount(trip) > 0 ==> Waypoints(trip, numText)[0] == WaypointText(FirstPresent(trip).value, numText)
    ensures trip.dropoffLocation.Some? ==> Waypoints(trip, numText)[PresentCount(trip) - 1] == WaypointText(trip.dropoffLocation.value, numText)
    ensures PresentCount(trip) == 3 ==> Waypoints(trip, numText)[1] == WaypointText(trip.pickupLocation.value, numText)
  {
  }

  /** With at most one location the URL is the single-point form for it,
      or the fixed default when the trip has none. */
  lemma FewWaypointsUrl(trip: Trip, numText: real -> string)
    requires PresentCount(trip) < 2
    ensures FirstPresent(trip).None? ==> MapUrl(trip, numText) == DefaultMapUrl
    ensures FirstPresent(trip).Some? ==>
      var l := FirstPresent(trip).value;
      MapUrl(trip, numText) == MapsPrefix + "q=" + numText(l.lat) + "," + numText(l.lng) + "&z=10" + EmbedSuffix
  {
    WaypointsInOrder(trip, numText);
  }

  /** With two or more locations the first is the start, the last the
      destination, and a `waypoints` parameter appears exactly when there
      is a middle one (all three are present). */
  lemma ManyWaypointsUrl(trip: Trip, numText: real -> string)
    requires PresentCount(trip) >= 2
    ensures var w := Waypoints(trip, numText);
      MapUrl(trip, numText) ==
        MapsPrefix + "saddr=" + w[0] + "&daddr=" + w[|w| - 1]
        + (if |w| == 3 then "&waypoints=" + w[1] else "") + EmbedSuffix
  {
    WaypointsInOrder(trip, numText);
    var w := Waypoints(trip, numText);
    if |w| == 3 {
      assert w[1..|w| - 1] == [w[1]];
      assert ',' in w[1];
    } else {
      assert w[1..|w| - 1] == [];
    }
  }

  lemma EmbedSuffixEnds(u: string, v: string)
    ensures |u + v + EmbedSuffix| >= |EmbedSuffix| && (u + v + EmbedSuffix)[|u + v|..] == EmbedSuffix
  {
  }

  /** Every URL ends with the embed parameter. */
  lemma UrlEndsWithEmbed(trip: Trip, numText: real -> string)
    ensures var u := MapUrl(trip, numText);
      |u| >= |EmbedSuffix| && u[|u| - |EmbedSuffix|..] == EmbedSuffix
  {
    var u := MapUrl(trip, numText);
    var w := Waypoints(trip, numText);
    if |w| < 2 {
      if FirstPresent(trip).Some? {
        var l := FirstPresent(trip).value;
        EmbedSuffixEnds(MapsPrefix + "q=" + numText(l.lat) + "," + numText(l.lng), "&z=10");
      } else {
        assert DefaultMapUrl[|DefaultMapUrl| - |EmbedSuffix|..] == EmbedSuffix;
      }
    } else {
      var middle := Join(w[1..|w| - 1], "|");
      EmbedSuffixEnds(MapsPrefix + "saddr=" + w[0] + "&daddr=" + w[|w| - 1], if middle != "" then "&waypoints=" + middle else "");
    }
  }
}
