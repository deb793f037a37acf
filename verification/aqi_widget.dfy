/** The dashboard's air-quality card: the index coloured by the stored
    status, its label, the heavy-vehicle restriction line and the list of
    pollutant readings. */
module AqiWidget {
  import opened Styles
  import opened MockData

  /** One pollutant bar: its label, value, the scale maximum and the unit. */
  datatype Reading = Reading(name: string, value: real, max: int, unit: string)

  /** The text colour (`aqiColor`): a chain of tests on the stored status. */
  function AqiTextTone(status: AqiStatus): Tone
  {
    if status == Good then Success
    else if status == Moderate then Warning
    else if status == Unhealthy then Orange
    else Destructive
  }

  /** The tile background (`aqiBgColor`): a second, separate chain. */
  function AqiBgTone(status: AqiStatus): Tone
  {
    if status == Good then Success
    else if status == Moderate then Warning
    else if status == Unhealthy then Orange
    else Destructive
  }

  /** Text and background always name the same colour, and the colour's
      alarm level is the status's severity rank, so distinct statuses get
      distinct colours and a worse status a hotter one. */
  lemma AqiTonesAgree(status: AqiStatus)
    ensures AqiTextTone(status) == AqiBgTone(status)
    ensures Heat(AqiTextTone(status)) == AqiRank(status)
  {
  }

  /** "Heavy vehicle restrictions active" is shown above 150. */
  function RestrictionsShown(d: AqiData): bool
  {
    d.current > 150
  }

  /** The restriction line only appears when the index itself classifies
      as unhealthy or hazardous; it never appears for a good or moderate
      index. */
  lemma RestrictionsOnlyWhenUnhealthy(d: AqiData)
    ensures RestrictionsShown(d) ==> AqiRank(GetAqiStatus(d.current)) >= 2
    ensures AqiRank(GetAqiStatus(d.current)) <= 1 ==> !RestrictionsShown(d)
  {
  }

  /** The caption under the index: the label of the stored status. */
  function AqiCaption(d: AqiData): string
  {
    GetAqiLabel(AqiStatusKey(d.status))
  }

  /** The pollutant list: PM2.5, PM10, NO₂ and O₃; carbon monoxide is not
      listed on this card. */
  function Pollutants(d: AqiData): seq<Reading>
  {
    [
      Reading("PM2.5", d.pm25 as real, 100, "µg/m³"),
      Reading("PM10", d.pm10 as real, 150, "µg/m³"),
      Reading("NO₂", d.no2 as real, 100, "ppb"),
      Reading("O₃", d.o3 as real, 100, "ppb")
    ]
  }

  /** The list has four rows in a fixed order, each carrying the reading's
      own value, and no row for CO. */
  lemma PollutantList(d: AqiData)
    ensures |Pollutants(d)| == 4
    ensures Pollutants(d)[0].name == "PM2.5" && Pollutants(d)[0].value == d.pm25 as real
    ensures Pollutants(d)[1].name == "PM10" && Pollutants(d)[1].value == d.pm10 as real
    ensures Pollutants(d)[2].name == "NO₂" && Pollutants(d)[2].value == d.no2 as real
    ensures Pollutants(d)[3].name == "O₃" && Pollutants(d)[3].value == d.o3 as real
    ensures forall i :: 0 <= i < |Pollutants(d)| ==> Pollutants(d)[i].name != "CO"
  {
  }

  /** On the catalog reading the card says "Moderate" in the warning colour
      with no restriction line, although the index 118 classifies as
      unhealthy. */
  lemma CatalogAqiWidget(loadMs: int)
    ensures AqiCaption(AqiReading(loadMs)) == "Moderate"
    ensures AqiTextTone(AqiReading(loadMs).status) == Warning
    ensures !RestrictionsShown(AqiReading(loadMs))
    ensures GetAqiLabel(AqiStatusKey(GetAqiStatus(AqiReading(loadMs).current))) == "Unhealthy"
  {
  }
}
