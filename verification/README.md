# GatiSutra incident-and-status feed, modelled in Dafny

GatiSutra is a traffic-management dashboard for Pune. Every screen draws on
the same hard-coded catalogs: 18 signalised junctions, 8 traffic alerts,
5 emergency vehicles, one air-quality (AQI) reading and 4 congestion
forecasts. Each screen derives its views from these catalogs on every
render. This project models that feed and proves what the screens promise
about it:

- the catalog schema and its closed enumerations (signal, alert type and
  severity, vehicle type and status, AQI status) as datatypes, and the
  catalogs themselves as constants (`MockData`);
- the AQI classifier `getAQIStatus`, the label lookup `getAQILabel` with its
  "Unknown" fallback, and the relative-time text `formatTimeAgo`. The clock
  is a parameter (`nowMs`, and `loadMs` for the instant the catalogs were
  built);
- the derived views:
  - active alerts and the critical count (`AlertsPanel`);
  - public alerts and the stable top-5 congested junctions (`PublicView`);
  - active emergency vehicles with their status and ETA texts
    (`EmergencyPanel`, `Emergency`);
  - the rising-trend flags of the forecasts (`PredictionWidget`);
  - the junction cards and their count (`JunctionGrid`);
- every screen's colour buckets, each proved equal to one instance of the
  reference three-way bucket `Styles.LevelTone`, plus the AQI colour maps
  and pollutant thresholds (`AqiWidget`, `Pollution`);
- the screens' selection state, as classes whose methods are the click and
  switch handlers:
  - the selected vehicle on the Emergency page (`Emergency.VehicleSelection`);
  - auto mode and the selected junction on Traffic Control
    (`TrafficControl.ControlPanel`);
  - the toggling selection of the city map (`CityMap.MapSelection`).

Shared helpers:
- `Sequences` models `Array.prototype.filter` with membership,
  multiplicity, order and composition lemmas.
- `Text` covers decimal rendering in template literals with a read-back
  lemma, a one-character `String.prototype.replace`, and ASCII
  `toUpperCase`.
- `Styles` holds the colour roles.

`topCongested` sorts a spread copy of the catalog. It is modelled as a
function that returns a new sequence, so the catalog itself is never
changed. ECMA-262 requires `Array.prototype.sort` to be stable, so the
sort is modelled as a stable insertion sort by descending congestion. The
lemmas prove the three things the result depends on: it is a permutation,
it is sorted, and equal levels keep their catalog order.

Two facts about the code that the screens do not make obvious:

- `getAQIStatus(118)` is unhealthy, so the label of the catalog's index is
  "Unhealthy" (`MockData.AqiLabelOfComputedStatus`). The screens show
  "Moderate" because they label the stored status `'moderate'`, which
  disagrees with the index it sits beside
  (`MockData.StoredAqiStatusDisagrees`).
- `formatTimeAgo` does not clamp: a timestamp in the future renders as
  "-5s ago" (`MockData.FormatTimeAgoFuture`).

## Model

| member | source | states |
|---|---|---|
| `MockData.AqiStatusBuckets` | Downloads/gati-sutra-flow-main/src/lib/mockData.ts:322-327 | the classifier partitions the integers: at most 50 good, 51..100 moderate, 101..200 unhealthy, above 200 hazardous, each as an if-and-only-if |
| `MockData.AqiStatusBoundaries` | Downloads/gati-sutra-flow-main/src/lib/mockData.ts:322-327 | 0 and 50 are good, 51 and 100 moderate, 101 and 200 unhealthy, 201 hazardous |
| `MockData.AqiStatusMonotone` | Downloads/gati-sutra-flow-main/src/lib/mockData.ts:322-327 | a higher index never gets a less severe status |
| `MockData.AqiLabelTotal` | Downloads/gati-sutra-flow-main/src/lib/mockData.ts:329-337 | the four status keys map to Good, Moderate, Unhealthy and Hazardous, and every other string to "Unknown" |
| `MockData.AqiLabelOfComputedStatus` | Downloads/gati-sutra-flow-main/src/lib/mockData.ts:322-337 | the label of a computed status is never "Unknown"; for 118 it is "Unhealthy" |
| `MockData.FormatTimeAgoUnits` | Downloads/gati-sutra-flow-main/src/lib/mockData.ts:339-347 | the nested floors compose to single divisions: seconds below 60, minutes = s/60 below 3600, hours = s/3600 below 86400, else days = s/86400, each rendered with its unit |
| `MockData.FormatTimeAgoBoundaries` | Downloads/gati-sutra-flow-main/src/lib/mockData.ts:341-346 | 59 s, 60 s, 3599 s, 3600 s, 86399 s and 86400 s render as 59s, 1m, 59m, 1h, 23h and 1d ago |
| `MockData.FormatTimeAgoExamples` | Downloads/gati-sutra-flow-main/src/lib/mockData.ts:339-347 | 45 s, 125 s, 7245 s and 90000 s render as 45s, 2m, 2h and 1d ago |
| `MockData.FormatTimeAgoFuture` | Downloads/gati-sutra-flow-main/src/lib/mockData.ts:340-341 | a timestamp after now takes the seconds branch with a minus sign, e.g. "-5s ago"; nothing clamps it |
| `MockData.MinutesAgo` | Downloads/gati-sutra-flow-main/src/lib/mockData.ts:339-347 | a timestamp m whole minutes old, 1 <= m < 60, renders as "m ago" with m's digits |
| `MockData.JunctionCatalogWellFormed` | Downloads/gati-sutra-flow-main/src/lib/mockData.ts:67-121 | the catalog has 18 junctions with pairwise distinct ids and every congestion level in 0..100 |
| `MockData.Alerts` | Downloads/gati-sutra-flow-main/src/lib/mockData.ts:123-204 | the alert catalog built at load time has 8 alerts, all active, all stamped before the load instant |
| `MockData.AlertTimestamps` | Downloads/gati-sutra-flow-main/src/lib/mockData.ts:123-204 | the alerts are stamped 15, 5, 30, 2, 60, 8, 12 and 3 minutes before the load instant |
| `MockData.AlertSeverities` | Downloads/gati-sutra-flow-main/src/lib/mockData.ts:123-204 | the severities are high, critical, high, critical, medium, medium, high, high |
| `MockData.AlertKinds` | Downloads/gati-sutra-flow-main/src/lib/mockData.ts:123-204 | the types are accident, congestion, aqi, emergency, event, rash driving, stolen vehicle, congestion |
| `MockData.CatalogAges` | Downloads/gati-sutra-flow-main/src/lib/mockData.ts:339-347 | alerts stamped at those offsets render as 15m, 5m, 30m, 2m, 1h, 8m, 12m and 3m ago |
| `MockData.AlertAgesAtLoad` | Downloads/gati-sutra-flow-main/src/lib/mockData.ts:123-204 | rendered at the load instant, the catalog's alerts read 15m, 5m, 30m, 2m, 1h, 8m, 12m and 3m ago |
| `MockData.StoredAqiStatusDisagrees` | Downloads/gati-sutra-flow-main/src/lib/mockData.ts:260-268 | the reading's index 118 classifies as unhealthy while its stored status is moderate: the two disagree |
| `AlertsPanel.ActiveAlertsExact` | Downloads/gati-sutra-flow-main/src/components/dashboard/AlertsPanel.tsx:86 | an alert is listed iff it is in the catalog and active; each active alert keeps its multiplicity; catalog order is kept; filtering again changes nothing |
| `AlertsPanel.CriticalCountBounded` | Downloads/gati-sutra-flow-main/src/components/dashboard/AlertsPanel.tsx:87 | the critical count is the number of alerts that are both active and critical, and at most the number of active alerts |
| `AlertsPanel.CriticalBadgeShown` | Downloads/gati-sutra-flow-main/src/components/dashboard/AlertsPanel.tsx:94-98 | the "N Critical" badge is shown iff some active alert is critical, and its digits read back as the critical count |
| `AlertsPanel.ActiveBadgeCount` | Downloads/gati-sutra-flow-main/src/components/dashboard/AlertsPanel.tsx:100 | the "N Active" badge ends in " Active" and its digits read back as the number of active alerts |
| `AlertsPanel.SeverityStyles` | Downloads/gati-sutra-flow-main/src/components/dashboard/AlertsPanel.tsx:26-57 | the icon chain and the badge table give every severity the same style; low and critical are the untinted styles, critical alone the solid destructive one, and only critical cards get the destructive border; a more severe alert never gets a calmer colour |
| `AlertsPanel.CatalogCriticals` | Downloads/gati-sutra-flow-main/src/components/dashboard/AlertsPanel.tsx:87 | among eight alerts with the catalog's severities, the critical ones are the second and the fourth |
| `AlertsPanel.CatalogAlertsPanel` | Downloads/gati-sutra-flow-main/src/components/dashboard/AlertsPanel.tsx:86-100 | on the catalog all 8 alerts are active, 2 are critical, and the badges read "2 Critical" and "8 Active" |
| `PublicView.InsertByCongestion` | Downloads/gati-sutra-flow-main/src/pages/PublicView.tsx:10 | one insertion step of the stable sort adds exactly one element (its order and content lemmas follow) |
| `PublicView.SortByCongestion` | Downloads/gati-sutra-flow-main/src/pages/PublicView.tsx:10 | the sorted copy has the catalog's length (its order and content lemmas follow) |
| `PublicView.InsertPermutes` | Downloads/gati-sutra-flow-main/src/pages/PublicView.tsx:10 | an insertion step adds exactly the inserted junction to the multiset |
| `PublicView.SortPermutes` | Downloads/gati-sutra-flow-main/src/pages/PublicView.tsx:10 | the sorted copy is a permutation of the catalog |
| `PublicView.InsertSorted` | Downloads/gati-sutra-flow-main/src/pages/PublicView.tsx:10 | inserting into a list sorted by descending congestion keeps it sorted |
| `PublicView.SortSorted` | Downloads/gati-sutra-flow-main/src/pages/PublicView.tsx:10 | the sorted copy is non-increasing in congestion |
| `PublicView.InsertStable` | Downloads/gati-sutra-flow-main/src/pages/PublicView.tsx:10 | at every congestion level an insertion keeps the junctions of that level in their original order |
| `PublicView.SortStable` | Downloads/gati-sutra-flow-main/src/pages/PublicView.tsx:10 | the sort is stable: at every level the sorted copy lists that level's junctions in catalog order |
| `PublicView.SortMembers` | Downloads/gati-sutra-flow-main/src/pages/PublicView.tsx:10 | the sorted copy has exactly the catalog's junctions as members |
| `PublicView.InsertDistinct` | Downloads/gati-sutra-flow-main/src/pages/PublicView.tsx:10 | inserting a junction whose id is new keeps the ids distinct |
| `PublicView.SortDistinct` | Downloads/gati-sutra-flow-main/src/pages/PublicView.tsx:10 | distinct catalog ids stay distinct after sorting |
| `PublicView.TopCongestedShape` | Downloads/gati-sutra-flow-main/src/pages/PublicView.tsx:10 | the hotspot list holds min(5, n) junctions, most congested first, all taken from the catalog |
| `PublicView.TopCongestedLeftOut` | Downloads/gati-sutra-flow-main/src/pages/PublicView.tsx:10 | every junction left out is no more congested than the last one kept |
| `PublicView.TopCongestedStable` | Downloads/gati-sutra-flow-main/src/pages/PublicView.tsx:10 | ties keep catalog order: at every level the kept junctions are a prefix of that level's catalog junctions; kept ids are distinct |
| `PublicView.CatalogTopCongestedAt` | Downloads/gati-sutra-flow-main/src/pages/PublicView.tsx:10 | for any 18 junctions with the catalog's congestion levels, the hotspots are entries 1, 2, 5, 14 and 8 |
| `PublicView.CatalogHasLevels` | Downloads/gati-sutra-flow-main/src/lib/mockData.ts:67-121 | the junction catalog has those congestion levels |
| `PublicView.HotspotEntries` | Downloads/gati-sutra-flow-main/src/lib/mockData.ts:67-121 | those entries are j1 (92), j2 (88), j5 (85), j14 (82) and j8 (78) |
| `PublicView.CatalogTopCongested` | Downloads/gati-sutra-flow-main/src/pages/PublicView.tsx:10 | on the catalog the hotspot list is j1, j2, j5, j14, j8 |
| `PublicView.PublicAlertsExact` | Downloads/gati-sutra-flow-main/src/pages/PublicView.tsx:11 | an alert is public iff it is in the catalog, active and an accident, congestion or event; aqi, emergency, rash-driving and stolen-vehicle alerts never are; catalog order is kept; it equals the type filter applied to the panel's active alerts |
| `PublicView.CatalogPublic` | Downloads/gati-sutra-flow-main/src/pages/PublicView.tsx:11 | among eight active alerts with the catalog's types, the public ones are the first, second, fifth and eighth |
| `PublicView.CatalogPublicAlerts` | Downloads/gati-sutra-flow-main/src/pages/PublicView.tsx:11-66 | on the catalog the public alerts are a1, a2, a5, a8 and the tile counts 4 |
| `PublicView.AlertCardToneAgrees` | Downloads/gati-sutra-flow-main/src/pages/PublicView.tsx:153-158 | a public alert card is red exactly when the dashboard draws the alert's icon in the destructive colour (high or critical), amber otherwise |
| `PublicView.HotspotTonePartition` | Downloads/gati-sutra-flow-main/src/pages/PublicView.tsx:116-119 | the hotspot badge is success at most 60, warning 61..80, destructive above 80, and monotone in the level |
| `PublicView.RankBadge` | Downloads/gati-sutra-flow-main/src/pages/PublicView.tsx:101-107 | exactly one class applies to each rank circle: destructive for the first, warning for the second, muted from the third; the number reads back as index + 1 |
| `PublicView.PortalAqiTile` | Downloads/gati-sutra-flow-main/src/pages/PublicView.tsx:13-57 | the portal's AQI colour and caption equal the dashboard card's; on the catalog it shows "Moderate" in the warning colour |
| `AqiWidget.AqiTonesAgree` | Downloads/gati-sutra-flow-main/src/components/dashboard/AQIWidget.tsx:8-24 | the text and background chains give every status the same colour, and the colour's heat is the status's severity rank |
| `AqiWidget.RestrictionsOnlyWhenUnhealthy` | Downloads/gati-sutra-flow-main/src/components/dashboard/AQIWidget.tsx:52 | the restrictions line is shown only for an index that classifies unhealthy or worse, never for good or moderate |
| `AqiWidget.PollutantList` | Downloads/gati-sutra-flow-main/src/components/dashboard/AQIWidget.tsx:26-31 | the card lists exactly PM2.5, PM10, NO₂ and O₃ with their readings, in that order, and no CO |
| `AqiWidget.CatalogAqiWidget` | Downloads/gati-sutra-flow-main/src/components/dashboard/AQIWidget.tsx:47-52 | on the catalog the card says "Moderate" in the warning colour with no restrictions line, although the index itself labels "Unhealthy" |
| `Pollution.PageMatchesWidget` | Downloads/gati-sutra-flow-main/src/pages/Pollution.tsx:11-14 | the page's colour and label equal the dashboard card's, and the label depends on the stored status, not on the index |
| `Pollution.PollutantFlags` | Downloads/gati-sutra-flow-main/src/pages/Pollution.tsx:17-23 | five rows; PM2.5 is high iff above 50, PM10 iff above 100, NO₂, O₃ and CO never; the first four are the card's readings and the fifth is CO in ppm |
| `Pollution.AlertImpliesWarning` | Downloads/gati-sutra-flow-main/src/pages/Pollution.tsx:59-102 | the high-pollution alert implies the sensitive-groups warning; the warning shows alone exactly for 101..150; the alert shows exactly when the card's restrictions line does |
| `Pollution.ZoneTonePartition` | Downloads/gati-sutra-flow-main/src/pages/Pollution.tsx:171-181 | exactly one zone colour applies; success iff good, warning iff moderate, destructive iff unhealthy or hazardous; the bucket is the reference bucket at 51 and 101 |
| `Pollution.CatalogZones` | Downloads/gati-sutra-flow-main/src/pages/Pollution.tsx:34-41 | six zones; Hadapsar Industrial (142) and Katraj (105) are red and the rest amber; a zone is amber exactly when its caption says "Moderate" |
| `Pollution.CatalogPollution` | Downloads/gati-sutra-flow-main/src/pages/Pollution.tsx:59-144 | on the catalog the warning shows without the alert, no pollutant is high, and the label reads "Moderate" |
| `EmergencyPanel.ActiveVehiclesExact` | src/components/dashboard/EmergencyPanel.tsx:78-80 | a vehicle is listed iff it is in the catalog and responding or en route, as many times as it occurs there; on-scene and returning ones never are; order is kept; the list is non-empty iff one qualifies |
| `EmergencyPanel.StatusLabelsDistinct` | src/components/dashboard/EmergencyPanel.tsx:20-25 | every status has a non-empty label and no two statuses share one |
| `EmergencyPanel.EtaTextReadsBack` | src/components/dashboard/EmergencyPanel.tsx:63 | a non-positive ETA reads "Arrived"; a positive one reads its digits followed by " min", and the digits read back as the ETA |
| `EmergencyPanel.CardStates` | src/components/dashboard/EmergencyPanel.tsx:37-65 | a card is highlighted iff its vehicle is listed as active; the green-corridor line implies the highlight; a responding vehicle is highlighted without the corridor line |
| `EmergencyPanel.HeaderBadges` | src/components/dashboard/EmergencyPanel.tsx:92-99 | the active pill is shown iff some vehicle is active; the active count is at most the total; the total badge starts with the total's digits |
| `EmergencyPanel.CatalogActive` | src/components/dashboard/EmergencyPanel.tsx:78-80 | among five vehicles whose first three are active and last two are not, the active list is the first three |
| `EmergencyPanel.CatalogEmergencyPanel` | src/components/dashboard/EmergencyPanel.tsx:63-99 | on the catalog the active vehicles are ev1, ev2, ev3; the badges read "3 Active" and "5 Vehicles"; the ETAs read 6 min, 14 min, 8 min, Arrived and 5 min |
| `Emergency.CardActiveIffListed` | Downloads/gati-sutra-flow-main/gati-sutra-flow-main/src/pages/Emergency.tsx:94 | a card's active flag holds iff its vehicle is in the page's active list, which is the dashboard panel's list |
| `Emergency.SameFilter` | Downloads/gati-sutra-flow-main/gati-sutra-flow-main/src/pages/Emergency.tsx:34 | the page's active list equals the dashboard panel's for every vehicle list |
| `Emergency.StatusTexts` | Downloads/gati-sutra-flow-main/gati-sutra-flow-main/src/pages/Emergency.tsx:120 | replacing the first underscore gives "responding", "en route", "on scene" and "returning"; the text keeps its length and has no underscore left |
| `Text.ReplaceFirst` | Downloads/gati-sutra-flow-main/gati-sutra-flow-main/src/pages/Emergency.tsx:120 | only the first occurrence of the pattern is replaced, every other character is kept, and a string without it is unchanged |
| `Emergency.EtaTextAgrees` | Downloads/gati-sutra-flow-main/gati-sutra-flow-main/src/pages/Emergency.tsx:125 | the page's ETA text equals the panel's, and is "Arrived" exactly when the ETA is not positive |
| `Emergency.CorridorLineDiffers` | Downloads/gati-sutra-flow-main/gati-sutra-flow-main/src/pages/Emergency.tsx:129-134 | the page shows the corridor line for responding vehicles too, where the panel does not; for every other status the two agree |
| `Emergency.BadgeAndBanner` | Downloads/gati-sutra-flow-main/gati-sutra-flow-main/src/pages/Emergency.tsx:52-66 | the header badge and the corridor banner are shown together, exactly when some vehicle is active |
| `Emergency.AtMostOneRing` | Downloads/gati-sutra-flow-main/gati-sutra-flow-main/src/pages/Emergency.tsx:104 | with distinct ids at most one card carries the selection ring |
| `Emergency.CatalogVehicleIds` | Downloads/gati-sutra-flow-main/src/lib/mockData.ts:206-257 | the vehicle catalog's ids are distinct |
| `Emergency.VehicleSelection.constructor` | Downloads/gati-sutra-flow-main/gati-sutra-flow-main/src/pages/Emergency.tsx:33 | the selection starts at the first vehicle's id, or nothing for an empty list, and names a listed vehicle |
| `Emergency.VehicleSelection.Select` | Downloads/gati-sutra-flow-main/gati-sutra-flow-main/src/pages/Emergency.tsx:107 | a click selects the card's id and keeps the selection naming a listed vehicle |
| `Emergency.ClickTwice` | Downloads/gati-sutra-flow-main/gati-sutra-flow-main/src/pages/Emergency.tsx:104-107 | two clicks on a card leave it selected, and with distinct ids no other card is ringed |
| `JunctionGrid.DotClassNamesSignal` | src/components/dashboard/JunctionGrid.tsx:8-12 | each signal state's dot class is "traffic-light-" followed by the state's name, and distinct states get distinct classes |
| `JunctionGrid.CardTonesAgree` | src/components/dashboard/JunctionGrid.tsx:14-66 | the badge and the bar name the same bucket: success below 40, warning 40..69, destructive from 70, monotone in the level |
| `JunctionGrid.CardShowsLevel` | src/components/dashboard/JunctionGrid.tsx:33-57 | the badge text and the bar width are the same "N%" text, whose digits read back as the congestion level |
| `JunctionGrid.Cards` | src/components/dashboard/JunctionGrid.tsx:84-86 | one card per junction, in catalog order |
| `JunctionGrid.CountBadge` | src/components/dashboard/JunctionGrid.tsx:80 | the header badge ends in " Junctions" and its digits read back as the number of junctions |
| `JunctionGrid.GridOfEighteen` | src/components/dashboard/JunctionGrid.tsx:80-86 | eighteen junctions give eighteen cards under "18 Junctions" |
| `JunctionGrid.CatalogJunctionGrid` | src/components/dashboard/JunctionGrid.tsx:80-86 | on the catalog the grid shows 18 cards under "18 Junctions" |
| `TrafficControl.ControlsOnlyInManualMode` | Downloads/gati-sutra-flow-main/src/pages/TrafficControl.tsx:110-137 | manual controls show under a card iff it is selected and the auto-mode banner is hidden; controls and banner never show together |
| `TrafficControl.ControlsUnderOneCard` | Downloads/gati-sutra-flow-main/src/pages/TrafficControl.tsx:110 | with distinct ids at most one card shows the manual controls |
| `TrafficControl.OneLampLit` | Downloads/gati-sutra-flow-main/src/pages/TrafficControl.tsx:72-83 | of the three lamps exactly one glows, and it has the signal's colour |
| `TrafficControl.BadgeHasOneTone` | Downloads/gati-sutra-flow-main/src/pages/TrafficControl.tsx:58-63 | exactly one colour class applies to the signal badge: success for green, warning for yellow, destructive for red |
| `TrafficControl.BadgeTextGreen` | Downloads/gati-sutra-flow-main/src/pages/TrafficControl.tsx:65 | a green signal's badge reads "GREEN" |
| `TrafficControl.BadgeTextYellow` | Downloads/gati-sutra-flow-main/src/pages/TrafficControl.tsx:65 | a yellow signal's badge reads "YELLOW" |
| `TrafficControl.BadgeTextRed` | Downloads/gati-sutra-flow-main/src/pages/TrafficControl.tsx:65 | a red signal's badge reads "RED" |
| `TrafficControl.BadgeTextsDistinct` | Downloads/gati-sutra-flow-main/src/pages/TrafficControl.tsx:65 | distinct signal states get distinct badge texts |
| `TrafficControl.BarToneMatchesGrid` | Downloads/gati-sutra-flow-main/src/pages/TrafficControl.tsx:97-98 | the control card's bar uses the dashboard grid's buckets, below 40 and below 70 |
| `TrafficControl.ControlPanel.constructor` | Downloads/gati-sutra-flow-main/src/pages/TrafficControl.tsx:12-13 | the page opens in auto mode with nothing selected: the banner shows and no card shows controls |
| `TrafficControl.ControlPanel.SetAutoMode` | Downloads/gati-sutra-flow-main/src/pages/TrafficControl.tsx:33 | the switch sets auto mode and keeps the selection; on hides every card's controls, off shows them under exactly the selected card |
| `TrafficControl.ControlPanel.SelectJunction` | Downloads/gati-sutra-flow-main/src/pages/TrafficControl.tsx:54 | a click selects the card's id (no toggle) and keeps auto mode; the card's controls show iff auto mode is off |
| `TrafficControl.SelectThenManual` | Downloads/gati-sutra-flow-main/src/pages/TrafficControl.tsx:54-110 | selecting a card and then turning auto mode off shows that card's controls and hides the banner, from any state |
| `CityMap.ToggleFlips` | Downloads/gati-sutra-flow-main/src/components/dashboard/CityMap.tsx:127 | a click selects the marker iff it was not selected, and clears the selection iff it was |
| `CityMap.ToggleTwice` | Downloads/gati-sutra-flow-main/src/components/dashboard/CityMap.tsx:127 | two clicks on one marker restore the selection iff it was empty or that marker; from another marker's selection they leave nothing selected |
| `CityMap.MapSelection.constructor` | Downloads/gati-sutra-flow-main/src/components/dashboard/CityMap.tsx:10 | the map starts with nothing selected |
| `CityMap.MapSelection.Click` | Downloads/gati-sutra-flow-main/src/components/dashboard/CityMap.tsx:127 | a click toggles: the clicked marker becomes selected iff it was not |
| `CityMap.ClickTwice` | Downloads/gati-sutra-flow-main/src/components/dashboard/CityMap.tsx:127 | two clicks on one marker from an empty selection leave it empty |
| `CityMap.OnePinnedTooltip` | Downloads/gati-sutra-flow-main/src/components/dashboard/CityMap.tsx:117-143 | with distinct ids at most one tooltip is pinned open |
| `CityMap.TooltipToneBuckets` | Downloads/gati-sutra-flow-main/src/components/dashboard/CityMap.tsx:147-149 | the tooltip's congestion colour is success below 50, warning 50..74, destructive from 75, monotone in the level |
| `CityMap.MarkerLook` | Downloads/gati-sutra-flow-main/src/components/dashboard/CityMap.tsx:130-136 | a marker has exactly one colour, the one the control page's badge uses; only red markers pulse; only the selected marker is enlarged |
| `CityMap.CandidatesWindow` | Downloads/gati-sutra-flow-main/src/components/dashboard/CityMap.tsx:93 | at most three candidates follow junction i, and c is one iff i < c <= i + 3 and c is in the list |
| `CityMap.RoadsFromSound` | Downloads/gati-sutra-flow-main/src/components/dashboard/CityMap.tsx:91-93 | every candidate road from position `from` on runs forward by one to three places and stays inside the list |
| `CityMap.RoadsFromComplete` | Downloads/gati-sutra-flow-main/src/components/dashboard/CityMap.tsx:91-93 | every forward pair one to three places apart, starting at `from` or later, is a candidate road |
| `CityMap.RoadsExact` | Downloads/gati-sutra-flow-main/src/components/dashboard/CityMap.tsx:91-93 | (a, b) is a candidate road iff a < b <= a + 3 and b is in the list: forward only, at most three per junction, no self-pairs, none from the last junction |
| `PredictionWidget.TrendFlags` | Downloads/gati-sutra-flow-main/src/components/dashboard/PredictionWidget.tsx:26-27 | the first row's flag is never up, and every flag is down iff no later horizon is predicted busier than an earlier one |
| `PredictionWidget.FirstRowNeverRises` | Downloads/gati-sutra-flow-main/src/components/dashboard/PredictionWidget.tsx:27-50 | the first row never rises; a level equal to the previous one shows the falling arrow; the arrow is red iff the row rises |
| `PredictionWidget.NoRiseFrom` | Downloads/gati-sutra-flow-main/src/components/dashboard/PredictionWidget.tsx:27 | if no row rises, no later level is above an earlier one |
| `PredictionWidget.AllFallingIffNonIncreasing` | Downloads/gati-sutra-flow-main/src/components/dashboard/PredictionWidget.tsx:26-50 | every arrow points down iff the forecast levels never increase |
| `PredictionWidget.LevelColorBuckets` | Downloads/gati-sutra-flow-main/src/components/dashboard/PredictionWidget.tsx:28-33 | the level colour is success below 50, warning 50..74, destructive from 75, monotone in the level |
| `PredictionWidget.Rows` | Downloads/gati-sutra-flow-main/src/components/dashboard/PredictionWidget.tsx:26-58 | one row per forecast with its horizon, its trend flag and the reference bucket at 50 and 75 |
| `PredictionWidget.CatalogTrends` | Downloads/gati-sutra-flow-main/src/components/dashboard/PredictionWidget.tsx:27-33 | levels 72, 78, 65, 52 give the flags false, true, false, false and the colours warning, destructive, warning, warning |
| `PredictionWidget.CatalogPredictionWidget` | Downloads/gati-sutra-flow-main/src/components/dashboard/PredictionWidget.tsx:26-27 | on the catalog the only rising arrow is at "30 mins" |

## Left out

- Rendering and animation are not modelled: framer-motion props, icons, the exact Tailwind class strings, and the Emergency page's route drawing and hospital list. Each colour choice is modelled by the `Styles.Tone` it names.
- `CityMap`'s `getPosition` and the road-distance cut-off are not modelled, because they are floating-point geometry. `CityMap.Roads` is the integer index window of candidate roads, before any of them is hidden for being too long.
- Pollutant progress percentages and the AQI marker offset are not modelled, because they are floating-point arithmetic. Coordinates and the CO reading are carried as `real` and never computed with.
- The clock is not modelled. Every `Date.now()` becomes a parameter: `loadMs` for the instant the catalogs were built and `nowMs` for the render.
- `MockData.Alerts`, `MockData.AlertAgesAtLoad`: the source reads the clock once per alert and once more for the AQI reading's `new Date()`; the model takes all of these reads as the single instant `loadMs`, so it does not capture the few milliseconds that may pass between them.
- Locale formatting, `localStorage`, routing, navigation and the static screens (charts, events, settings, header, stats cards) are not modelled. They hold no logic beyond rendering constants.
- `trafficStats`, `hourlyTrafficData`, `weeklyTrends`, `congestionByZone` and `cityCenter` are not modelled. No modelled operation reads them.
- `MockData.GetAqiLabel` looks up exactly four keys and falls back to "Unknown". A key such as "constructor" would resolve to an inherited member of a JavaScript object; that is not modelled.
- `Text.ToUpper` models `toUpperCase` on ASCII letters only. The signal keys it is applied to are ASCII.
- The CSS `capitalize` on the Emergency page's status badge and the public alert badges is not modelled. It changes only how the text is drawn; `Emergency.StatusTexts` states the string itself.
- The Traffic Control page's manual signal buttons and duration slider are not modelled. They have no handlers and change no state.
- The long alert descriptions are kept as separate constants (`MockData.DescriptionA1` to `DescriptionA8`), so that proofs about the alert catalog stay small.
- The engine's sorting algorithm is not modelled. `PublicView.SortByCongestion` is a stable insertion sort; the comparator `b.congestionLevel - a.congestionLevel` on integers together with ECMA-262's stability requirement determines the result uniquely, and the lemmas state that result.
- `PublicView.InsertByCongestion`, `PublicView.SortByCongestion`: their own contracts state only the length. Order, permutation and stability are stated by the lemmas listed beside them.
- The Emergency page is assumed to read the same vehicle catalog as the dashboard panel (`MockData.EmergencyVehicles`).
