/** The dashboard's "AI Traffic Prediction" card: one row per forecast
    horizon with an up or down trend arrow, the predicted congestion in a
    bucket colour, and the forecast's confidence. */
module PredictionWidget {
  import opened MockData
  import opened Styles
  import opened Text

  /** Whether row `index` shows the rising arrow: it is not the first row
      and its level is strictly above the previous row's. */
  function IsIncreasing(ps: seq<TrafficPrediction>, index: int): bool
    requires 0 <= index < |ps|
  {
    index > 0 && ps[index].congestionLevel > ps[index - 1].congestionLevel
  }

  /** The rising/falling flag of every row, in order. The first row never
      rises, and every flag is down exactly when the forecast never
      predicts a later horizon busier than an earlier one. */
  function TrendFlags(ps: seq<TrafficPrediction>): (r: seq<bool>)
    ensures |r| == |ps|
    ensures forall i :: 0 <= i < |ps| ==> r[i] == IsIncreasing(ps, i)
    ensures |ps| > 0 ==> !r[0]
    ensures (forall i :: 0 <= i < |r| ==> !r[i]) <==> NonIncreasing(ps)
  {
    AllFallingIffNonIncreasing(ps);
    seq(|ps|, i requires 0 <= i < |ps| => IsIncreasing(ps, i))
  }

  /** The arrow's colour: a rise is drawn in destructive red, anything else
      as a falling arrow in success green. */
  function ArrowTone(rising: bool): Tone
  {
    if rising then Destructive else Success
  }

  /** The first row never rises, and a row whose level merely equals the
      previous one shows the falling arrow. */
  lemma FirstRowNeverRises(ps: seq<TrafficPrediction>, i: int)
    requires 0 <= i < |ps|
    ensures i == 0 ==> !IsIncreasing(ps, i)
    ensures i > 0 && ps[i].congestionLevel == ps[i - 1].congestionLevel ==> !IsIncreasing(ps, i)
    ensures IsIncreasing(ps, i) <==> ArrowTone(IsIncreasing(ps, i)) == Destructive
  {
  }

  /** The levels are at or above every later level. */
  predicate NonIncreasing(ps: seq<TrafficPrediction>)
  {
    forall i, k :: 0 <= i <= k < |ps| ==> ps[k].congestionLevel <= ps[i].congestionLevel
  }

  lemma {:induction false} NoRiseFrom(ps: seq<TrafficPrediction>, i: int, k: int)
    requires forall m :: 0 <= m < |ps| ==> !IsIncreasing(ps, m)
    requires 0 <= i <= k < |ps|
    ensures ps[k].congestionLevel <= ps[i].congestionLevel
    decreases k - i
  {
    if i < k {
      NoRiseFrom(ps, i, k - 1);
      assert !IsIncreasing(ps, k);
    }
  }

  /** Every arrow points down exactly when the forecast never rises again:
      no later horizon is predicted busier than an earlier one. */
  lemma AllFallingIffNonIncreasing(ps: seq<TrafficPrediction>)
    ensures (forall m :: 0 <= m < |ps| ==> !IsIncreasing(ps, m)) <==> NonIncreasing(ps)
  {
    if forall m :: 0 <= m < |ps| ==> !IsIncreasing(ps, m) {
      forall i, k | 0 <= i <= k < |ps|
        ensures ps[k].congestionLevel <= ps[i].congestionLevel
      {
        NoRiseFrom(ps, i, k);
      }
    }
    if NonIncreasing(ps) {
      forall m | 0 <= m < |ps|
        ensures !IsIncreasing(ps, m)
      {
        if m > 0 {
          assert ps[m].congestionLevel <= ps[m - 1].congestionLevel;
        }
      }
    }
  }

  /** The colour of a row's congestion figure. */
  function LevelColor(level: int): Tone
  {
    if level < 50 then Success
    else if level < 75 then Warning
    else Destructive
  }

  /** The figure uses the buckets below 50, 50 to 74, and 75 up. */
  lemma LevelColorBuckets(level: int, other: int)
    ensures LevelColor(level) == LevelTone(level, 50, 75)
    ensures LevelColor(level) == Success <==> level < 50
    ensures LevelColor(level) == Warning <==> 50 <= level < 75
    ensures LevelColor(level) == Destructive <==> 75 <= level
    ensures level <= other ==> Heat(LevelColor(level)) <= Heat(LevelColor(other))
  {
    LevelTonePartition(level, 50, 75);
    if level <= other {
      LevelToneMonotone(level, other, 50, 75);
    }
  }

  /** What one row shows. */
  datatype Row = Row(time: string, rising: bool, level: string, levelTone: Tone, confidence: string)

  /** The rows of the card, in forecast order. */
  function Rows(ps: seq<TrafficPrediction>): (r: seq<Row>)
    ensures |r| == |ps|
    ensures forall i :: 0 <= i < |ps| ==> r[i].time == ps[i].time && r[i].rising == IsIncreasing(ps, i)
    ensures forall i :: 0 <= i < |ps| ==> r[i].levelTone == LevelTone(ps[i].congestionLevel, 50, 75)
  {
    seq(|ps|, i requires 0 <= i < |ps| =>
      Row(ps[i].time, IsIncreasing(ps, i),
          ShowInt(ps[i].congestionLevel) + "%", LevelColor(ps[i].congestionLevel),
          ShowInt(ps[i].confidence) + "% confidence"))
  }

  /** The forecast levels 72, 78, 65, 52 rise only at the second horizon. */
  lemma CatalogTrends(ps: seq<TrafficPrediction>)
    requires |ps| == 4
    requires ps[0].congestionLevel == 72 && ps[1].congestionLevel == 78
    requires ps[2].congestionLevel == 65 && ps[3].congestionLevel == 52
    ensures TrendFlags(ps) == [false, true, false, false]
    ensures !NonIncreasing(ps)
    ensures Rows(ps)[0].levelTone == Warning && Rows(ps)[1].levelTone == Destructive
    ensures Rows(ps)[2].levelTone == Warning && Rows(ps)[3].levelTone == Warning
  {
    assert ps[1].congestionLevel > ps[0].congestionLevel;
  }

  /** On the catalog's four forecasts the card shows one rising arrow, at
      "30 mins". */
  lemma CatalogPredictionWidget()
    ensures TrendFlags(TrafficPredictions) == [false, true, false, false]
    ensures Rows(TrafficPredictions)[1].time == "30 mins"
  {
    CatalogTrends(TrafficPredictions);
  }
}
