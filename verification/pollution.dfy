/** The pollution page: the city index with its colour and label, the
    pollutant breakdown with "High" flags, the alert and sensitive-groups
    thresholds, and the zone-wise tiles. */
module Pollution {
  import opened Styles
  import opened MockData
  import AqiWidget

  /** A pollutant row and whether it is flagged "High". */
  datatype PollutantRow = PollutantRow(reading: AqiWidget.Reading, high: bool)

  /** The colour of the index (`aqiColor`), from the stored status. */
  function PageAqiTone(status: AqiStatus): Tone
  {
    if status == Good then Success
    else if status == Moderate then Warning
    else if status == Unhealthy then Orange
    else Destructive
  }

  /** The label under the index, from the stored status. */
  function PageAqiLabel(d: AqiData): string
  {
    GetAqiLabel(AqiStatusKey(d.status))
  }

  /** The page and the dashboard card colour and label the index alike;
      neither looks at the index value, only at the stored status. */
  lemma PageMatchesWidget(d: AqiData, current: int)
    ensures PageAqiTone(d.status) == AqiWidget.AqiTextTone(d.status)
    ensures PageAqiLabel(d) == AqiWidget.AqiCaption(d)
    ensures PageAqiLabel(d.(current := current)) == PageAqiLabel(d)
  {
  }

  /** The five pollutant rows; PM2.5 is high above 50 and PM10 above 100,
      the other three are always normal. */
  function PollutantRows(d: AqiData): seq<PollutantRow>
  {
    [
      PollutantRow(AqiWidget.Reading("PM2.5", d.pm25 as real, 100, "µg/m³"), d.pm25 > 50),
      PollutantRow(AqiWidget.Reading("PM10", d.pm10 as real, 150, "µg/m³"), d.pm10 > 100),
      PollutantRow(AqiWidget.Reading("NO₂", d.no2 as real, 100, "ppb"), false),
      PollutantRow(AqiWidget.Reading("O₃", d.o3 as real, 100, "ppb"), false),
      PollutantRow(AqiWidget.Reading("CO", d.co, 5, "ppm"), false)
    ]
  }

  /** The flags: a row is high exactly when it is PM2.5 above 50 or PM10
      above 100; the first four rows are the dashboard card's list and the
      fifth is carbon monoxide. */
  lemma PollutantFlags(d: AqiData)
    ensures |PollutantRows(d)| == 5
    ensures forall i :: 0 <= i < 5 ==>
      (PollutantRows(d)[i].high <==> (i == 0 && d.pm25 > 50) || (i == 1 && d.pm10 > 100))
    ensures forall i :: 0 <= i < 4 ==> PollutantRows(d)[i].reading == AqiWidget.Pollutants(d)[i]
    ensures PollutantRows(d)[4].reading.name == "CO" && PollutantRows(d)[4].reading.value == d.co
  {
  }

  /** The "High Pollution Alert" badge, above 150. */
  function HighPollutionAlert(d: AqiData): bool
  {
    d.current > 150
  }

  /** The sensitive-groups warning, above 100. */
  function SensitiveWarning(d: AqiData): bool
  {
    d.current > 100
  }

  /** The alert implies the warning, but not the other way round; the alert
      is the dashboard card's restriction line. */
  lemma AlertImpliesWarning(d: AqiData)
    ensures HighPollutionAlert(d) ==> SensitiveWarning(d)
    ensures SensitiveWarning(d) && !HighPollutionAlert(d) <==> 100 < d.current <= 150
    ensures HighPollutionAlert(d) == AqiWidget.RestrictionsShown(d)
  {
  }

  /** The classes of a zone tile: `cn` keeps each tone whose condition
      holds. The tile border and the number's text use the same three
      conditions. */
  function ZoneTones(aqi: int): seq<Tone>
  {
    (if aqi <= 50 then [Success] else [])
    + (if aqi > 50 && aqi <= 100 then [Warning] else [])
    + (if aqi > 100 then [Destructive] else [])
  }

  /** Exactly one tone applies to every index, and it follows
      `getAQIStatus`: good is success, moderate is warning, and unhealthy
      and hazardous are both destructive. */
  lemma ZoneTonePartition(aqi: int)
    ensures |ZoneTones(aqi)| == 1
    ensures ZoneTones(aqi)[0] == Success <==> GetAqiStatus(aqi) == Good
    ensures ZoneTones(aqi)[0] == Warning <==> GetAqiStatus(aqi) == Moderate
    ensures ZoneTones(aqi)[0] == Destructive <==> GetAqiStatus(aqi) in {Unhealthy, Hazardous}
    ensures ZoneTones(aqi)[0] == LevelTone(aqi, 51, 101)
  {
  }

  /** A zone tile: the area, its index and the caption stored with it. */
  datatype Zone = Zone(area: string, aqi: int, status: string)

  const Zones: seq<Zone> := [
    Zone("Hinjewadi", 95, "Moderate"),
    Zone("Hadapsar Industrial", 142, "Unhealthy for Sensitive"),
    Zone("Koregaon Park", 78, "Moderate"),
    Zone("Shivajinagar", 88, "Moderate"),
    Zone("Katraj", 105, "Unhealthy for Sensitive"),
    Zone("Aundh", 65, "Moderate")
  ]

  /** On the zone catalog, Hadapsar Industrial (142) and Katraj (105) are
      red and the other four amber; the stored captions match the tile
      colours. */
  lemma CatalogZones()
    ensures |Zones| == 6
    ensures forall i :: 0 <= i < |Zones| ==>
      (ZoneTones(Zones[i].aqi) == [Destructive] <==> i == 1 || i == 4)
    ensures forall i :: 0 <= i < |Zones| ==>
      (ZoneTones(Zones[i].aqi) == [Warning] <==> Zones[i].status == "Moderate")
  {
    forall i | 0 <= i < |Zones|
      ensures ZoneTones(Zones[i].aqi) == [Warning] <==> Zones[i].status == "Moderate"
    {
      ZoneTonePartition(Zones[i].aqi);
      if i == 1 || i == 4 {
        assert |Zones[i].status| != |"Moderate"|;
      }
    }
  }

  /** On the catalog reading (118) the sensitive-groups warning shows, the
      alert does not, neither pollutant is flagged, and the label is
      "Moderate". */
  lemma CatalogPollution(loadMs: int)
    ensures SensitiveWarning(AqiReading(loadMs)) && !HighPollutionAlert(AqiReading(loadMs))
    ensures forall i :: 0 <= i < |PollutantRows(AqiReading(loadMs))| ==> !PollutantRows(AqiReading(loadMs))[i].high
    ensures PageAqiLabel(AqiReading(loadMs)) == "Moderate"
  {
  }
}
