/** The dashboard's "Live Junction Status" grid: one card per junction with
    a signal dot, a congestion badge, the junction's counters and a
    congestion bar, under a header badge counting the junctions. */
module JunctionGrid {
  import opened MockData
  import opened Styles
  import opened Text

  /** The dot's class for a signal state: the `statusColors` lookup table,
      which has an entry for each of the three states. */
  function DotClass(s: Signal): string
  {
    match s
    case Green => "traffic-light-green"
    case Yellow => "traffic-light-yellow"
    case Red => "traffic-light-red"
  }

  /** Each entry is the state's own
      name after `traffic-light-`, and no two states share a dot class. */
  lemma DotClassNamesSignal(s: Signal, t: Signal)
    ensures DotClass(s) == "traffic-light-" + SignalKey(s)
    ensures DotClass(s) == DotClass(t) ==> s == t
  {
    assert DotClass(s)[14..] == SignalKey(s);
    assert DotClass(t)[14..] == SignalKey(t);
  }

  /** The badge's text colour (`congestionColor`). */
  function BadgeTone(level: int): Tone
  {
    if level < 40 then Success
    else if level < 70 then Warning
    else Destructive
  }

  /** The congestion bar's fill colour, written out separately on the card. */
  function BarTone(level: int): Tone
  {
    if level < 40 then Success
    else if level < 70 then Warning
    else Destructive
  }

  /** Badge and bar always show the same bucket: success below 40, warning
      from 40 to 69, destructive from 70 up, and a busier junction is never
      shown calmer. */
  lemma CardTonesAgree(level: int, other: int)
    ensures BadgeTone(level) == BarTone(level) == LevelTone(level, 40, 70)
    ensures BadgeTone(level) == Success <==> level < 40
    ensures BadgeTone(level) == Warning <==> 40 <= level < 70
    ensures BadgeTone(level) == Destructive <==> 70 <= level
    ensures level <= other ==> Heat(BadgeTone(level)) <= Heat(BadgeTone(other))
  {
    LevelTonePartition(level, 40, 70);
    if level <= other {
      LevelToneMonotone(level, other, 40, 70);
    }
  }

  /** What one card shows. */
  datatype Card = Card(
    dot: string, name: string,
    badge: string, badgeTone: Tone,
    vehicles: string, speed: string, wait: string,
    barWidth: string, barTone: Tone)

  /** The `JunctionCard` for one junction. */
  function CardOf(j: Junction): Card
  {
    Card(
      DotClass(j.status), j.name,
      ShowInt(j.congestionLevel) + "%", BadgeTone(j.congestionLevel),
      ShowInt(j.vehicleCount), ShowInt(j.avgSpeed) + " km/h", "Wait: " + ShowInt(j.waitTime) + "s",
      ShowInt(j.congestionLevel) + "%", BarTone(j.congestionLevel))
  }

  /** A card's badge and bar both carry the junction's level, which reads
      back from the badge's digits, and the bar's width is the same text. */
  lemma CardShowsLevel(j: Junction)
    requires j.congestionLevel >= 0
    ensures var c := CardOf(j);
      c.badge == c.barWidth &&
      c.badge[|c.badge| - 1] == '%' &&
      AllDigits(c.badge[..|c.badge| - 1]) &&
      DigitsValue(c.badge[..|c.badge| - 1]) == j.congestionLevel
  {
    var c := CardOf(j);
    assert c.badge[..|c.badge| - 1] == ShowNat(j.congestionLevel);
    ShowNatRoundTrip(j.congestionLevel);
  }

  /** `junctions.map(...)`: the cards, in the order of the list. */
  function Cards(js: seq<Junction>): (r: seq<Card>)
    ensures |r| == |js|
    ensures forall i :: 0 <= i < |js| ==> r[i] == CardOf(js[i])
  {
    if js == [] then [] else [CardOf(js[0])] + Cards(js[1..])
  }

  /** The header badge: `{junctions.length} Junctions`. */
  function CountBadge(js: seq<Junction>): (r: string)
    ensures |r| > 10 && r[|r| - 10..] == " Junctions"
    ensures AllDigits(r[..|r| - 10]) && DigitsValue(r[..|r| - 10]) == |js|
  {
    var digits := ShowNat(|js|);
    ShowNatRoundTrip(|js|);
    assert (digits + " Junctions")[..|digits|] == digits;
    digits + " Junctions"
  }

  /** A list of eighteen junctions gets eighteen cards under
      "18 Junctions". */
  lemma GridOfEighteen(js: seq<Junction>)
    requires |js| == 18
    ensures |Cards(js)| == 18
    ensures CountBadge(js) == "18 Junctions"
  {
    assert ShowNat(18) == "18";
  }

  /** On the catalog the grid shows 18 cards under "18 Junctions". */
  lemma CatalogJunctionGrid()
    ensures |Cards(Junctions)| == 18
    ensures CountBadge(Junctions) == "18 Junctions"
  {
    JunctionCatalogWellFormed();
    GridOfEighteen(Junctions);
  }
}
