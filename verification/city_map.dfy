/** The dashboard's city map: a marker per junction coloured by its signal,
    a tooltip with the junction's figures, road lines from each junction to
    the next few in the list, and a click that selects or deselects a
    marker. The map's selection lives in `MapSelection`. */
module CityMap {
  import opened Wrappers
  import opened MockData
  import opened Styles
  import opened Sequences
  import TrafficControl

  /** The selection after a click on the junction `id`: clicking the
      selected marker clears the selection, any other marker takes it. */
  function Toggle(selected: Option<string>, id: string): Option<string>
  {
    if selected == Some(id) then None else Some(id)
  }

  /** A click selects `id` exactly when it was not selected, and clears the
      selection exactly when it was. */
  lemma ToggleFlips(selected: Option<string>, id: string)
    ensures Toggle(selected, id) == Some(id) <==> selected != Some(id)
    ensures Toggle(selected, id) == None <==> selected == Some(id)
  {
  }

  /** Two clicks on the same marker restore the selection exactly when it
      was empty or already that marker; from another marker's selection
      they end with nothing selected. */
  lemma ToggleTwice(selected: Option<string>, id: string)
    ensures Toggle(Toggle(selected, id), id) == selected <==> selected == None || selected == Some(id)
    ensures selected.Some? && selected != Some(id) ==> Toggle(Toggle(selected, id), id) == None
  {
  }

  /** The map's `selectedJunction` state. */
  class MapSelection {
    var selected: Option<string>

    /** Nothing is selected when the map first renders. */
    constructor ()
      ensures selected == None
    {
      selected := None;
    }

    /** Whether `j`'s marker is the selected one. */
    function IsSelected(j: Junction): bool
      reads this
    {
      TooltipPinned(selected, j)
    }

    /** A click on `j`'s marker. */
    method Click(j: Junction)
      modifies this
      ensures selected == Toggle(old(selected), j.id)
      ensures IsSelected(j) <==> !old(IsSelected(j))
    {
      selected := if selected == Some(j.id) then None else Some(j.id);
    }
  }

  /** Clicking a marker twice from an empty selection empties it again. */
  method ClickTwice(m: MapSelection, j: Junction)
    requires m.selected == None
    modifies m
    ensures m.selected == None
  {
    m.Click(j);
    m.Click(j);
  }

  /** Whether `j`'s tooltip is pinned open (otherwise it shows on hover
      only). */
  function TooltipPinned(selected: Option<string>, j: Junction): bool
  {
    selected == Some(j.id)
  }

  /** With distinct ids at most one tooltip is pinned. */
  lemma OnePinnedTooltip(selected: Option<string>, js: seq<Junction>, i: int, k: int)
    requires DistinctIds(js)
    requires 0 <= i < |js| && 0 <= k < |js|
    requires TooltipPinned(selected, js[i]) && TooltipPinned(selected, js[k])
    ensures i == k
  {
  }

  /** The colour of the congestion figure in the tooltip. */
  function TooltipTone(level: int): Tone
  {
    if level < 50 then Success
    else if level < 75 then Warning
    else Destructive
  }

  /** The tooltip uses the buckets below 50, 50 to 74, and 75 up. */
  lemma TooltipToneBuckets(level: int, other: int)
    ensures TooltipTone(level) == LevelTone(level, 50, 75)
    ensures TooltipTone(level) == Success <==> level < 50
    ensures TooltipTone(level) == Warning <==> 50 <= level < 75
    ensures TooltipTone(level) == Destructive <==> 75 <= level
    ensures level <= other ==> Heat(TooltipTone(level)) <= Heat(TooltipTone(other))
  {
    LevelTonePartition(level, 50, 75);
    if level <= other {
      LevelToneMonotone(level, other, 50, 75);
    }
  }

  /** A marker's look: its colour classes, whether it pulses, and whether
      it is drawn larger with a ring. */
  datatype Marker = Marker(tones: seq<Tone>, pulsing: bool, enlarged: bool)

  /** The marker's `cn` classes for junction `j`. */
  function MarkerOf(j: Junction, isSelected: bool): Marker
  {
    Marker(
      (if j.status == Green then [Success] else []) +
      (if j.status == Yellow then [Warning] else []) +
      (if j.status == Red then [Destructive] else []),
      j.status == Red,
      isSelected)
  }

  /** A marker has exactly one colour, the same one the control page's
      badge uses for the signal; only red markers pulse, and only the
      selected marker is enlarged. */
  lemma MarkerLook(j: Junction, selected: Option<string>)
    ensures MarkerOf(j, TooltipPinned(selected, j)).tones == TrafficControl.BadgeTones(j.status)
    ensures MarkerOf(j, TooltipPinned(selected, j)).tones == [TrafficControl.SignalTone(j.status)]
    ensures MarkerOf(j, TooltipPinned(selected, j)).pulsing <==> j.status == Red
    ensures MarkerOf(j, TooltipPinned(selected, j)).enlarged <==> selected == Some(j.id)
  {
    TrafficControl.BadgeHasOneTone(j.status);
  }

  /** The integers `a`, `a + 1`, ..., `b - 1`. */
  function Range(a: nat, b: nat): (r: seq<nat>)
    ensures |r| == if a <= b then b - a else 0
    ensures forall k :: 0 <= k < |r| ==> r[k] == a + k
    decreases b - a
  {
    if a >= b then [] else [a] + Range(a + 1, b)
  }

  /** The list positions a road from junction `i` may lead to:
      `junctions.slice(i + 1)` with `filter((_, idx) => idx < 3)`, that is
      the next three junctions, or fewer near the end of the list. */
  function Candidates(n: nat, i: nat): seq<nat>
  {
    var rest := Range(i + 1, n);
    rest[..Min(3, |rest|)]
  }

  /** The candidates are the positions after `i`, at most three ahead and
      inside the list, and every such position is a candidate. */
  lemma CandidatesWindow(n: nat, i: nat, c: nat)
    ensures |Candidates(n, i)| <= 3
    ensures c in Candidates(n, i) <==> i < c <= i + 3 && c < n
  {
    var rest := Range(i + 1, n);
    if i < c <= i + 3 && c < n {
      assert rest[c - i - 1] == c;
      assert Candidates(n, i)[c - i - 1] == c;
    }
  }

  /** The road pairs `(i, c)` drawn from each position `i` from `from`
      onwards. The outer map runs over `junctions.slice(0, -1)`, so the
      last junction starts no road. */
  function RoadsFrom(n: nat, from: nat): seq<(nat, nat)>
    decreases n - from
  {
    if from + 1 >= n then []
    else
      var cs := Candidates(n, from);
      seq(|cs|, k requires 0 <= k < |cs| => (from, cs[k])) + RoadsFrom(n, from + 1)
  }

  /** Every candidate road line before the distance cut-off, for a list of
      `n` junctions. */
  function Roads(n: nat): seq<(nat, nat)>
  {
    RoadsFrom(n, 0)
  }

  lemma {:induction false} RoadsFromSound(n: nat, from: nat, p: (nat, nat))
    requires p in RoadsFrom(n, from)
    ensures from <= p.0 && p.0 < p.1 <= p.0 + 3 && p.1 < n
    decreases n - from
  {
    if from + 1 < n {
      var cs := Candidates(n, from);
      var here := seq(|cs|, k requires 0 <= k < |cs| => (from, cs[k]));
      if p in here {
        var k :| 0 <= k < |cs| && here[k] == p;
        CandidatesWindow(n, from, cs[k]);
      } else {
        RoadsFromSound(n, from + 1, p);
      }
    }
  }

  lemma {:induction false} RoadsFromComplete(n: nat, from: nat, a: nat, b: nat)
    requires from <= a < b <= a + 3 && b < n
    ensures (a, b) in RoadsFrom(n, from)
    decreases n - from
  {
    var cs := Candidates(n, from);
    var here := seq(|cs|, k requires 0 <= k < |cs| => (from, cs[k]));
    assert RoadsFrom(n, from) == here + RoadsFrom(n, from + 1);
    if a == from {
      CandidatesWindow(n, from, b);
      var k :| 0 <= k < |cs| && cs[k] == b;
      assert here[k] == (a, b);
    } else {
      RoadsFromComplete(n, from + 1, a, b);
    }
  }

  /** The candidate roads join each junction to the one, two and three
      places after it in the list, and to nothing else: no road loops back
      to its own junction and none leaves the list. */
  lemma RoadsExact(n: nat, a: nat, b: nat)
    ensures (a, b) in Roads(n) <==> a < b <= a + 3 && b < n
  {
    if (a, b) in Roads(n) {
      RoadsFromSound(n, 0, (a, b));
    }
    if a < b <= a + 3 && b < n {
      RoadsFromComplete(n, 0, a, b);
    }
  }
}
