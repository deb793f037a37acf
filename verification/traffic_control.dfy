/** The Traffic Control page: a card per junction with its signal badge, a
    three-lamp traffic light and a congestion bar; an "AI Auto Mode" switch;
    and manual signal controls that open under the selected card once auto
    mode is off. The page's two pieces of state live in `ControlPanel`. */
module TrafficControl {
  import opened Wrappers
  import opened MockData
  import opened Styles
  import opened Text
  import JunctionGrid

  /** The tone that stands for each signal state. */
  function SignalTone(s: Signal): Tone
  {
    match s
    case Green => Success
    case Yellow => Warning
    case Red => Destructive
  }

  /** Whether the manual controls are open under junction `j`'s card. */
  function ControlsShown(autoMode: bool, selected: Option<string>, j: Junction): bool
  {
    !autoMode && selected == Some(j.id)
  }

  /** Whether `j`'s card carries the selection ring. */
  function Ringed(selected: Option<string>, j: Junction): bool
  {
    selected == Some(j.id)
  }

  /** Whether the "AI Auto Mode Active" banner is shown. */
  function BannerShown(autoMode: bool): bool
  {
    autoMode
  }

  /** The controls open exactly under the ringed card, and only while the
      banner is hidden: the page never offers manual control and announces
      automatic control at once. */
  lemma ControlsOnlyInManualMode(autoMode: bool, selected: Option<string>, j: Junction)
    ensures ControlsShown(autoMode, selected, j) <==> Ringed(selected, j) && !BannerShown(autoMode)
    ensures !(ControlsShown(autoMode, selected, j) && BannerShown(autoMode))
  {
  }

  /** With distinct junction ids at most one card shows the controls. */
  lemma ControlsUnderOneCard(autoMode: bool, selected: Option<string>, js: seq<Junction>, i: int, k: int)
    requires DistinctIds(js)
    requires 0 <= i < |js| && 0 <= k < |js|
    requires ControlsShown(autoMode, selected, js[i]) && ControlsShown(autoMode, selected, js[k])
    ensures i == k
  {
  }

  /** One lamp of the traffic light: its colour and whether it glows (the
      solid, shadowed class) or is dimmed (the `/20` class). */
  datatype Lamp = Lamp(tone: Tone, lit: bool)

  /** The light's three lamps from top to bottom: red, yellow, green. */
  function Lamps(s: Signal): seq<Lamp>
  {
    [Lamp(Destructive, s == Red), Lamp(Warning, s == Yellow), Lamp(Success, s == Green)]
  }

  /** Exactly one lamp glows, and it has the signal's own colour. */
  lemma OneLampLit(s: Signal)
    ensures |Lamps(s)| == 3
    ensures exists i :: 0 <= i < 3 && Lamps(s)[i].lit && Lamps(s)[i].tone == SignalTone(s) &&
                        forall k :: 0 <= k < 3 && k != i ==> !Lamps(s)[k].lit
  {
    var i := match s case Red => 0 case Yellow => 1 case Green => 2;
    assert Lamps(s)[i].lit && Lamps(s)[i].tone == SignalTone(s);
  }

  /** The badge's classes: `cn` keeps each conditional class whose
      condition holds. */
  function BadgeTones(s: Signal): seq<Tone>
  {
    (if s == Green then [Success] else []) +
    (if s == Yellow then [Warning] else []) +
    (if s == Red then [Destructive] else [])
  }

  /** Exactly one colour class applies to the badge, the signal's own. */
  lemma BadgeHasOneTone(s: Signal)
    ensures BadgeTones(s) == [SignalTone(s)]
  {
  }

  /** The badge's text: the signal state in upper case. */
  function BadgeText(s: Signal): string
  {
    ToUpper(SignalKey(s))
  }

  lemma BadgeTextGreen()
    ensures BadgeText(Green) == "GREEN"
  {
  }

  lemma BadgeTextYellow()
    ensures BadgeText(Yellow) == "YELLOW"
  {
  }

  lemma BadgeTextRed()
    ensures BadgeText(Red) == "RED"
  {
  }

  /** The three states get the badge texts GREEN, YELLOW and RED, so the
      text tells the states apart. */
  lemma BadgeTextsDistinct(s: Signal, t: Signal)
    ensures BadgeText(s) == BadgeText(t) ==> s == t
  {
    BadgeTextGreen();
    BadgeTextYellow();
    BadgeTextRed();
  }

  /** The congestion bar's fill colour on a control card. */
  function BarTone(level: int): Tone
  {
    if level < 40 then Success
    else if level < 70 then Warning
    else Destructive
  }

  /** The control card's bar uses the same buckets as the dashboard's
      junction card. */
  lemma BarToneMatchesGrid(level: int)
    ensures BarTone(level) == JunctionGrid.BarTone(level) == LevelTone(level, 40, 70)
  {
    JunctionGrid.CardTonesAgree(level, level);
  }

  /** The page's state: the auto-mode switch and the selected junction. */
  class ControlPanel {
    var autoMode: bool
    var selectedJunction: Option<string>

    /** The page opens in auto mode with no junction selected, so no card
        shows manual controls and the banner is up. */
    constructor ()
      ensures autoMode && selectedJunction == None
      ensures BannerVisible()
      ensures forall j :: !ManualControlsVisible(j)
    {
      autoMode := true;
      selectedJunction := None;
    }

    /** Whether `j`'s card shows the manual controls. */
    function ManualControlsVisible(j: Junction): bool
      reads this
    {
      ControlsShown(autoMode, selectedJunction, j)
    }

    /** Whether the auto-mode banner is shown. */
    function BannerVisible(): bool
      reads this
    {
      BannerShown(autoMode)
    }

    /** The switch: `setAutoMode`. The selection survives, so turning auto
        mode off reopens the controls under a card selected earlier. */
    method SetAutoMode(on: bool)
      modifies this
      ensures autoMode == on && selectedJunction == old(selectedJunction)
      ensures on ==> forall j :: !ManualControlsVisible(j)
      ensures !on ==> forall j :: ManualControlsVisible(j) <==> Ringed(selectedJunction, j)
    {
      autoMode := on;
    }

    /** A click on a card: `setSelectedJunction(junction.id)`. The click
        selects rather than toggles, and leaves the switch alone. */
    method SelectJunction(j: Junction)
      modifies this
      ensures selectedJunction == Some(j.id) && autoMode == old(autoMode)
      ensures ManualControlsVisible(j) <==> !autoMode
    {
      selectedJunction := Some(j.id);
    }
  }

  /** Selecting a card and then switching auto mode off opens the controls
      under that card and hides the banner, whatever the state before. */
  method SelectThenManual(p: ControlPanel, j: Junction)
    modifies p
    ensures p.ManualControlsVisible(j) && !p.BannerVisible()
  {
    p.SelectJunction(j);
    p.SetAutoMode(false);
  }
}
