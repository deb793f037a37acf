/** The feed model every screen reads: the record types and closed
    enumerations, the hard-coded catalogs of Pune junctions, alerts,
    emergency vehicles, the AQI reading and the congestion forecast, and the
    three helpers `getAQIStatus`, `getAQILabel` and `formatTimeAgo`.

    Clock reads are inputs: a point in time is an integer count of
    milliseconds, `loadMs` is the instant the catalog module was evaluated
    (`Date.now()` and `new Date()` in the catalogs) and `nowMs` the instant a
    relative time is rendered. */
module MockData {
  import opened Text

  datatype Signal = Green | Yellow | Red

  datatype AlertType = Accident | Congestion | Aqi | Emergency | Event | RashDriving | StolenVehicle

  datatype Severity = Low | Medium | High | Critical

  datatype VehicleType = Ambulance | Fire | Police

  datatype VehicleStatus = Responding | EnRoute | OnScene | Returning

  datatype AqiStatus = Good | Moderate | Unhealthy | Hazardous

  datatype Coord = Coord(lat: real, lng: real)

  /** A monitored intersection; `congestionLevel` is a percentage. */
  datatype Junction = Junction(
    id: string, name: string, lat: real, lng: real, status: Signal,
    congestionLevel: int, avgSpeed: int, vehicleCount: int, waitTime: int)

  /** A notable event; `timestamp` is in milliseconds. */
  datatype Alert = Alert(
    id: string, kind: AlertType, severity: Severity, title: string,
    description: string, location: string, timestamp: int, isActive: bool)

  /** A unit answering a dispatch; `eta` is in minutes. */
  datatype EmergencyVehicle = EmergencyVehicle(
    id: string, kind: VehicleType, callSign: string, currentLocation: Coord,
    destination: Coord, status: VehicleStatus, eta: int, priority: int)

  /** An air-quality snapshot. `status` is stored beside `current`, not
      computed from it. */
  datatype AqiData = AqiData(
    current: int, pm25: int, pm10: int, no2: int, o3: int, co: real,
    status: AqiStatus, lastUpdated: int)

  datatype TrafficPrediction = TrafficPrediction(time: string, congestionLevel: int, confidence: int)

  /** The string literal the source uses for each enumeration value. */
  function SignalKey(s: Signal): string
  {
    match s
    case Green => "green"
    case Yellow => "yellow"
    case Red => "red"
  }

  function VehicleStatusKey(s: VehicleStatus): string
  {
    match s
    case Responding => "responding"
    case EnRoute => "en_route"
    case OnScene => "on_scene"
    case Returning => "returning"
  }

  function AqiStatusKey(s: AqiStatus): string
  {
    match s
    case Good => "good"
    case Moderate => "moderate"
    case Unhealthy => "unhealthy"
    case Hazardous => "hazardous"
  }

  // ---------------------------------------------------------------------
  // getAQIStatus and getAQILabel

  /** `getAQIStatus`: the first threshold the index does not exceed. */
  function GetAqiStatus(aqi: int): AqiStatus
  {
    if aqi <= 50 then Good
    else if aqi <= 100 then Moderate
    else if aqi <= 200 then Unhealthy
    else Hazardous
  }

  /** How severe a status is: good < moderate < unhealthy < hazardous. */
  function AqiRank(s: AqiStatus): nat
  {
    match s
    case Good => 0
    case Moderate => 1
    case Unhealthy => 2
    case Hazardous => 3
  }

  /** The four statuses cover consecutive index ranges. */
  lemma AqiStatusBuckets(aqi: int)
    ensures GetAqiStatus(aqi) == Good <==> aqi <= 50
    ensures GetAqiStatus(aqi) == Moderate <==> 51 <= aqi <= 100
    ensures GetAqiStatus(aqi) == Unhealthy <==> 101 <= aqi <= 200
    ensures GetAqiStatus(aqi) == Hazardous <==> 201 <= aqi
  {
  }

  /** Each threshold is inclusive: 50, 100 and 200 stay in the lower bucket
      and the next integer moves up one. */
  lemma AqiStatusBoundaries()
    ensures GetAqiStatus(0) == Good && GetAqiStatus(50) == Good
    ensures GetAqiStatus(51) == Moderate && GetAqiStatus(100) == Moderate
    ensures GetAqiStatus(101) == Unhealthy && GetAqiStatus(200) == Unhealthy
    ensures GetAqiStatus(201) == Hazardous
  {
  }

  /** A higher index never gets a less severe status. */
  lemma AqiStatusMonotone(a: int, b: int)
    requires a <= b
    ensures AqiRank(GetAqiStatus(a)) <= AqiRank(GetAqiStatus(b))
  {
  }

  /** `getAQILabel`: a four-entry lookup table with "Unknown" for any other
      key. */
  function GetAqiLabel(status: string): string
  {
    if status == "good" then "Good"
    else if status == "moderate" then "Moderate"
    else if status == "unhealthy" then "Unhealthy"
    else if status == "hazardous" then "Hazardous"
    else "Unknown"
  }

  /** The label of a status value is its capitalised name, and only the four
      status strings have a label other than "Unknown". */
  lemma AqiLabelTotal(status: string)
    ensures GetAqiLabel(AqiStatusKey(Good)) == "Good"
    ensures GetAqiLabel(AqiStatusKey(Moderate)) == "Moderate"
    ensures GetAqiLabel(AqiStatusKey(Unhealthy)) == "Unhealthy"
    ensures GetAqiLabel(AqiStatusKey(Hazardous)) == "Hazardous"
    ensures GetAqiLabel(status) != "Unknown" <==>
      status in {"good", "moderate", "unhealthy", "hazardous"}
  {
  }

  /** Labelling a computed status never falls back to "Unknown"; the index
      118 used across the dashboard is labelled "Unhealthy". */
  lemma AqiLabelOfComputedStatus(aqi: int)
    ensures GetAqiLabel(AqiStatusKey(GetAqiStatus(aqi))) != "Unknown"
    ensures GetAqiLabel(AqiStatusKey(GetAqiStatus(118))) == "Unhealthy"
  {
  }

  // ---------------------------------------------------------------------
  // formatTimeAgo

  /** Whole seconds from `timestampMs` to `nowMs`, rounded down as
      `Math.floor` does; Dafny's `/` by a positive divisor rounds toward
      negative infinity too. The result is negative when the timestamp lies
      after `nowMs`. */
  function ElapsedSeconds(timestampMs: int, nowMs: int): int
  {
    (nowMs - timestampMs) / 1000
  }

  /** `formatTimeAgo`: seconds below a minute, then minutes, hours and days,
      each obtained from the previous unit by a further floor division. */
  function FormatTimeAgo(timestampMs: int, nowMs: int): string
  {
    var seconds := ElapsedSeconds(timestampMs, nowMs);
    if seconds < 60 then ShowInt(seconds) + "s ago"
    else
      var minutes := seconds / 60;
      if minutes < 60 then ShowInt(minutes) + "m ago"
      else
        var hours := minutes / 60;
        if hours < 24 then ShowInt(hours) + "h ago"
        else ShowInt(hours / 24) + "d ago"
  }

  /** Reference reading of an elapsed time: the unit and the amount, each
      amount one division of the elapsed seconds. */
  datatype Ago = Ago(amount: int, unit: string)

  function AgoOf(seconds: int): Ago
  {
    if seconds < 60 then Ago(seconds, "s")
    else if seconds < 3600 then Ago(seconds / 60, "m")
    else if seconds < 86400 then Ago(seconds / 3600, "h")
    else Ago(seconds / 86400, "d")
  }

  /** The nested floors of `formatTimeAgo` compose to single divisions of
      the elapsed seconds, and each amount shown lies in its unit's range. */
  lemma FormatTimeAgoUnits(timestampMs: int, nowMs: int)
    ensures var a := AgoOf(ElapsedSeconds(timestampMs, nowMs));
      && FormatTimeAgo(timestampMs, nowMs) == ShowInt(a.amount) + a.unit + " ago"
      && (a.unit == "m" ==> 1 <= a.amount < 60)
      && (a.unit == "h" ==> 1 <= a.amount < 24)
      && (a.unit == "d" ==> 1 <= a.amount)
  {
    var s := ElapsedSeconds(timestampMs, nowMs);
    assert s / 60 / 60 == s / 3600;
    assert s / 60 / 60 / 24 == s / 86400;
  }

  /** The unit changes exactly at 60 s, 1 h and 1 day; the examples are
      elapsed times in milliseconds from a timestamp of 0. */
  lemma FormatTimeAgoBoundaries()
    ensures FormatTimeAgo(0, 59_000) == "59s ago"
    ensures FormatTimeAgo(0, 60_000) == "1m ago"
    ensures FormatTimeAgo(0, 3_599_000) == "59m ago"
    ensures FormatTimeAgo(0, 3_600_000) == "1h ago"
    ensures FormatTimeAgo(0, 86_399_000) == "23h ago"
    ensures FormatTimeAgo(0, 86_400_000) == "1d ago"
  {
  }

  /** Worked examples: 45 s, 125 s, 7245 s and 90000 s after the timestamp. */
  lemma FormatTimeAgoExamples()
    ensures FormatTimeAgo(0, 45_000) == "45s ago"
    ensures FormatTimeAgo(0, 125_000) == "2m ago"
    ensures FormatTimeAgo(0, 7_245_000) == "2h ago"
    ensures FormatTimeAgo(0, 90_000_000) == "1d ago"
  {
  }

  /** A timestamp after `nowMs` is not clamped: the seconds branch shows a
      negative count, even for a skew of one millisecond. */
  lemma FormatTimeAgoFuture(timestampMs: int, nowMs: int)
    requires nowMs < timestampMs
    ensures FormatTimeAgo(timestampMs, nowMs) == ShowInt(ElapsedSeconds(timestampMs, nowMs)) + "s ago"
    ensures FormatTimeAgo(timestampMs, nowMs)[0] == '-'
    ensures FormatTimeAgo(5_000, 0) == "-5s ago"
    ensures FormatTimeAgo(1, 0) == "-1s ago"
  {
  }

  // ---------------------------------------------------------------------
  // The catalogs

  const Junctions: seq<Junction> := [
    Junction("j1", "Swargate Bus Stand", 18.5018, 73.8636, Red, 92, 8, 645, 210),
    Junction("j2", "Hinjewadi IT Park", 18.5912, 73.7380, Red, 88, 12, 567, 180),
    Junction("j3", "Kharadi Bypass", 18.5535, 73.9406, Yellow, 65, 25, 342, 55),
    Junction("j4", "Shivajinagar ST Stand", 18.5308, 73.8475, Yellow, 72, 18, 423, 85),
    Junction("j5", "Katraj Chowk", 18.4575, 73.8675, Red, 85, 14, 498, 145),
    Junction("j6", "FC Road Junction", 18.5237, 73.8410, Yellow, 58, 22, 287, 48),
    Junction("j7", "Senapati Bapat Marg", 18.5362, 73.8297, Yellow, 62, 20, 312, 52),
    Junction("j8", "Sinhagad Road Chowk", 18.4898, 73.8247, Red, 78, 15, 412, 95),
    Junction("j9", "Pune-Nagar Road", 18.5707, 73.9700, Yellow, 55, 28, 245, 42),
    Junction("j10", "Hadapsar Junction", 18.5089, 73.9260, Yellow, 68, 22, 356, 65),
    Junction("j11", "Karve Road", 18.5074, 73.8077, Green, 35, 38, 178, 22),
    Junction("j12", "Paud Phata", 18.5150, 73.7936, Green, 42, 32, 198, 28),
    Junction("j13", "Bajirao Road", 18.5160, 73.8553, Yellow, 52, 25, 267, 38),
    Junction("j14", "Neelayam Chowk", 18.4856, 73.8512, Red, 82, 12, 445, 125),
    Junction("j15", "Wakad Bridge", 18.5950, 73.7650, Yellow, 60, 24, 298, 50),
    Junction("j16", "Nashik Phata", 18.6298, 73.7997, Yellow, 58, 26, 278, 45),
    Junction("j17", "Bund Garden Road", 18.5370, 73.8850, Green, 38, 35, 189, 25),
    Junction("j18", "Viman Nagar Chowk", 18.5679, 73.9143, Green, 32, 40, 156, 18)
  ]

  /** No two entries of `js` share an id. */
  predicate DistinctIds(js: seq<Junction>)
  {
    forall i, k :: 0 <= i < k < |js| ==> js[i].id != js[k].id
  }

  /** The ids of the junction catalog, in catalog order. */
  const JunctionIds: seq<string> := [
    "j1", "j2", "j3", "j4", "j5", "j6", "j7", "j8", "j9",
    "j10", "j11", "j12", "j13", "j14", "j15", "j16", "j17", "j18"
  ]

  /** Ids are distinct as soon as they agree position by position with a
      list of distinct strings. */
  lemma DistinctIdsFrom(js: seq<Junction>, ids: seq<string>)
    requires |ids| == |js|
    requires forall i :: 0 <= i < |js| ==> js[i].id == ids[i]
    requires forall i, k :: 0 <= i < k < |ids| ==> ids[i] != ids[k]
    ensures DistinctIds(js)
  {
  }

  /** The junction catalog has 18 entries with distinct ids, and every
      congestion level lies in 0..100. */
  lemma JunctionCatalogWellFormed()
    ensures |Junctions| == 18
    ensures DistinctIds(Junctions)
    ensures forall i :: 0 <= i < |Junctions| ==> 0 <= Junctions[i].congestionLevel <= 100
  {
    assert forall i :: 0 <= i < |Junctions| ==> Junctions[i].id == JunctionIds[i];
    assert forall i, k :: 0 <= i < k < |JunctionIds| ==> JunctionIds[i] != JunctionIds[k];
    DistinctIdsFrom(Junctions, JunctionIds);
  }

  /** One minute in milliseconds. */
  const MinuteMs := 60_000

  /** The alert catalog; each timestamp is a fixed number of minutes before
      the load instant. */
  const DescriptionA1: string := "4 vehicles involved near Chandni Chowk flyover. Traffic diverted via Bavdhan."
  const DescriptionA2: string := "Expected delay of 35 minutes. Use Metro or alternate routes via Sarasbaug."
  const DescriptionA3: string := "AQI at 165. Heavy vehicle restrictions in effect. Construction dust control activated."
  const DescriptionA4: string := "Ambulance en route to Sassoon Hospital. Green corridor via FC Road → JM Road."
  const DescriptionA5: string := "Multiple pandals procession towards Lakdi Pool. Traffic diversions planned."
  const DescriptionA6: string := "Vehicle MH-12-AB-4567 flagged for lane violations and overspeeding at 95 km/h."
  const DescriptionA7: string := "Vehicle MH-14-XY-9012 spotted on CCTV. Patrol units notified."
  const DescriptionA8: string := "Hinjewadi Phase 1-3 exits heavily congested. 45-min delay expected."

  function Alerts(loadMs: int): (r: seq<Alert>)
    ensures |r| == 8
    ensures forall i :: 0 <= i < |r| ==> r[i].isActive && r[i].timestamp < loadMs
  {
    [
      Alert("a1", Accident, High, "Multi-vehicle collision on NH-48",
        DescriptionA1,
        "Chandni Chowk, Kothrud", loadMs - 15 * MinuteMs, true),
      Alert("a2", Congestion, Critical, "Severe congestion at Swargate",
        DescriptionA2,
        "Swargate Bus Terminus", loadMs - 5 * MinuteMs, true),
      Alert("a3", Aqi, High, "AQI exceeds safe limit in Hadapsar",
        DescriptionA3,
        "Hadapsar Industrial Area", loadMs - 30 * MinuteMs, true),
      Alert("a4", Emergency, Critical, "Emergency corridor active",
        DescriptionA4,
        "Koregaon Park → Sassoon Hospital", loadMs - 2 * MinuteMs, true),
      Alert("a5", Event, Medium, "Ganesh Visarjan procession",
        DescriptionA5,
        "Deccan to Lakdi Pool", loadMs - 60 * MinuteMs, true),
      Alert("a6", RashDriving, Medium, "Rash driving detected on ORR",
        DescriptionA6,
        "Outer Ring Road, Wakad", loadMs - 8 * MinuteMs, true),
      Alert("a7", StolenVehicle, High, "Stolen vehicle spotted",
        DescriptionA7,
        "Hinjewadi Phase 2 Entry", loadMs - 12 * MinuteMs, true),
      Alert("a8", Congestion, High, "IT Park exit congestion",
        DescriptionA8,
        "Hinjewadi IT Park", loadMs - 3 * MinuteMs, true)
    ]
  }

  /** An alert stamped `m` whole minutes before `nowMs`, for `m` below an
      hour, reads "`m`m ago". */
  lemma MinutesAgo(nowMs: int, m: int)
    requires 1 <= m < 60
    ensures FormatTimeAgo(nowMs - m * MinuteMs, nowMs) == ShowInt(m) + "m ago"
  {
    assert (m * MinuteMs) / 1000 == m * 60;
  }

  /** Each catalog alert is stamped a fixed number of minutes before the
      load instant: 15, 5, 30, 2, 60, 8, 12 and 3. */
  lemma AlertTimestamps(loadMs: int)
    ensures Alerts(loadMs)[0].timestamp == loadMs - 15 * MinuteMs
    ensures Alerts(loadMs)[1].timestamp == loadMs - 5 * MinuteMs
    ensures Alerts(loadMs)[2].timestamp == loadMs - 30 * MinuteMs
    ensures Alerts(loadMs)[3].timestamp == loadMs - 2 * MinuteMs
    ensures Alerts(loadMs)[4].timestamp == loadMs - 60 * MinuteMs
    ensures Alerts(loadMs)[5].timestamp == loadMs - 8 * MinuteMs
    ensures Alerts(loadMs)[6].timestamp == loadMs - 12 * MinuteMs
    ensures Alerts(loadMs)[7].timestamp == loadMs - 3 * MinuteMs
  {
  }

  /** The catalog alerts' severities: high, critical, high, critical,
      medium, medium, high, high. */
  lemma AlertSeverities(loadMs: int)
    ensures Alerts(loadMs)[0].severity == High
    ensures Alerts(loadMs)[1].severity == Critical
    ensures Alerts(loadMs)[2].severity == High
    ensures Alerts(loadMs)[3].severity == Critical
    ensures Alerts(loadMs)[4].severity == Medium
    ensures Alerts(loadMs)[5].severity == Medium
    ensures Alerts(loadMs)[6].severity == High
    ensures Alerts(loadMs)[7].severity == High
  {
  }

  /** The catalog alerts' types, in catalog order. */
  lemma AlertKinds(loadMs: int)
    ensures Alerts(loadMs)[0].kind == Accident
    ensures Alerts(loadMs)[1].kind == Congestion
    ensures Alerts(loadMs)[2].kind == Aqi
    ensures Alerts(loadMs)[3].kind == Emergency
    ensures Alerts(loadMs)[4].kind == Event
    ensures Alerts(loadMs)[5].kind == RashDriving
    ensures Alerts(loadMs)[6].kind == StolenVehicle
    ensures Alerts(loadMs)[7].kind == Congestion
  {
  }

  /** Alerts stamped 15, 5, 30, 2, 60, 8, 12 and 3 minutes before `nowMs`
      are rendered "15m ago", "5m ago", "30m ago", "2m ago", "1h ago",
      "8m ago", "12m ago" and "3m ago". */
  lemma CatalogAges(nowMs: int, a: seq<Alert>)
    requires |a| == 8
    requires a[0].timestamp == nowMs - 15 * MinuteMs
    requires a[1].timestamp == nowMs - 5 * MinuteMs
    requires a[2].timestamp == nowMs - 30 * MinuteMs
    requires a[3].timestamp == nowMs - 2 * MinuteMs
    requires a[4].timestamp == nowMs - 60 * MinuteMs
    requires a[5].timestamp == nowMs - 8 * MinuteMs
    requires a[6].timestamp == nowMs - 12 * MinuteMs
    requires a[7].timestamp == nowMs - 3 * MinuteMs
    ensures FormatTimeAgo(a[0].timestamp, nowMs) == "15m ago"
    ensures FormatTimeAgo(a[1].timestamp, nowMs) == "5m ago"
    ensures FormatTimeAgo(a[2].timestamp, nowMs) == "30m ago"
    ensures FormatTimeAgo(a[3].timestamp, nowMs) == "2m ago"
    ensures FormatTimeAgo(a[4].timestamp, nowMs) == "1h ago"
    ensures FormatTimeAgo(a[5].timestamp, nowMs) == "8m ago"
    ensures FormatTimeAgo(a[6].timestamp, nowMs) == "12m ago"
    ensures FormatTimeAgo(a[7].timestamp, nowMs) == "3m ago"
  {
    MinutesAgo(nowMs, 15);
    MinutesAgo(nowMs, 5);
    MinutesAgo(nowMs, 30);
    MinutesAgo(nowMs, 2);
    MinutesAgo(nowMs, 8);
    MinutesAgo(nowMs, 12);
    MinutesAgo(nowMs, 3);
  }

  /** Rendered at the load instant, the catalog alerts read "15m ago",
      "5m ago", "30m ago", "2m ago", "1h ago", "8m ago", "12m ago" and
      "3m ago". */
  lemma AlertAgesAtLoad(loadMs: int)
    ensures FormatTimeAgo(Alerts(loadMs)[0].timestamp, loadMs) == "15m ago"
    ensures FormatTimeAgo(Alerts(loadMs)[1].timestamp, loadMs) == "5m ago"
    ensures FormatTimeAgo(Alerts(loadMs)[2].timestamp, loadMs) == "30m ago"
    ensures FormatTimeAgo(Alerts(loadMs)[3].timestamp, loadMs) == "2m ago"
    ensures FormatTimeAgo(Alerts(loadMs)[4].timestamp, loadMs) == "1h ago"
    ensures FormatTimeAgo(Alerts(loadMs)[5].timestamp, loadMs) == "8m ago"
    ensures FormatTimeAgo(Alerts(loadMs)[6].timestamp, loadMs) == "12m ago"
    ensures FormatTimeAgo(Alerts(loadMs)[7].timestamp, loadMs) == "3m ago"
  {
    AlertTimestamps(loadMs);
    CatalogAges(loadMs, Alerts(loadMs));
  }

  const EmergencyVehicles: seq<EmergencyVehicle> := [
    EmergencyVehicle("ev1", Ambulance, "PUNE-108-A", Coord(18.5370, 73.8850), Coord(18.5308, 73.8475), EnRoute, 6, 1),
    EmergencyVehicle("ev2", Fire, "PMC-FIRE-01", Coord(18.5089, 73.9260), Coord(18.5018, 73.8636), Responding, 14, 1),
    EmergencyVehicle("ev3", Police, "PCR-100", Coord(18.5912, 73.7380), Coord(18.5950, 73.7650), EnRoute, 8, 2),
    EmergencyVehicle("ev4", Ambulance, "PUNE-108-B", Coord(18.4575, 73.8675), Coord(18.5074, 73.8077), OnScene, 0, 1),
    EmergencyVehicle("ev5", Police, "TRAFFIC-PATROL-05", Coord(18.5535, 73.9406), Coord(18.5679, 73.9143), Returning, 5, 3)
  ]

  /** The AQI snapshot, last updated at the load instant. */
  function AqiReading(loadMs: int): AqiData
  {
    AqiData(118, 48, 86, 38, 28, 1.4, Moderate, loadMs)
  }

  /** The stored status disagrees with the index it sits beside: 118 is
      classified unhealthy, but the snapshot says moderate. */
  lemma StoredAqiStatusDisagrees(loadMs: int)
    ensures GetAqiStatus(AqiReading(loadMs).current) == Unhealthy
    ensures AqiReading(loadMs).status == Moderate
    ensures GetAqiStatus(AqiReading(loadMs).current) != AqiReading(loadMs).status
  {
  }

  const TrafficPredictions: seq<TrafficPrediction> := [
    TrafficPrediction("15 mins", 72, 95),
    TrafficPrediction("30 mins", 78, 91),
    TrafficPrediction("1 hour", 65, 84),
    TrafficPrediction("2 hours", 52, 76)
  ]
}
