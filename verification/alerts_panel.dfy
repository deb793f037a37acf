/** The dashboard's alert list: the active alerts in catalog order, the
    count of critical ones in a badge, and the severity styling of each
    card. */
module AlertsPanel {
  import opened Wrappers
  import opened Sequences
  import opened Text
  import opened Styles
  import opened MockData

  predicate IsActive(a: Alert) { a.isActive }

  predicate IsCritical(a: Alert) { a.severity == Critical }

  predicate IsActiveCritical(a: Alert) { a.isActive && a.severity == Critical }

  /** `activeAlerts`. */
  function ActiveAlerts(alerts: seq<Alert>): seq<Alert>
  {
    Filter(IsActive, alerts)
  }

  /** `criticalCount`: the critical alerts among the active ones. */
  function CriticalCount(alerts: seq<Alert>): nat
  {
    |Filter(IsCritical, ActiveAlerts(alerts))|
  }

  /** The active alerts are exactly the alerts flagged active, each with
      its multiplicity, in catalog order; filtering them again changes
      nothing. */
  lemma ActiveAlertsExact(alerts: seq<Alert>)
    ensures forall x :: x in ActiveAlerts(alerts) <==> x in alerts && x.isActive
    ensures forall x :: multiset(ActiveAlerts(alerts))[x] == if x.isActive then multiset(alerts)[x] else 0
    ensures IsSubsequence(ActiveAlerts(alerts), alerts)
    ensures ActiveAlerts(ActiveAlerts(alerts)) == ActiveAlerts(alerts)
  {
    forall x ensures x in ActiveAlerts(alerts) <==> x in alerts && x.isActive {
      FilterMembership(IsActive, alerts, x);
    }
    forall x ensures multiset(ActiveAlerts(alerts))[x] == if x.isActive then multiset(alerts)[x] else 0 {
      FilterMultiplicity(IsActive, alerts, x);
    }
    FilterIsSubsequence(IsActive, alerts);
    FilterIdempotent(IsActive, alerts);
  }

  /** The critical count is the number of alerts that are both active and
      critical, so it never exceeds the number of active alerts. */
  lemma CriticalCountBounded(alerts: seq<Alert>)
    ensures CriticalCount(alerts) == |Filter(IsActiveCritical, alerts)|
    ensures CriticalCount(alerts) <= |ActiveAlerts(alerts)|
  {
    FilterOfFilter(IsActive, IsCritical, IsActiveCritical, alerts);
  }

  /** The "N Critical" badge, rendered only while the count is positive. */
  function CriticalBadge(alerts: seq<Alert>): Option<string>
  {
    var n := CriticalCount(alerts);
    if n > 0 then Some(ShowNat(n) + " Critical") else None
  }

  /** The "N Active" badge. */
  function ActiveBadge(alerts: seq<Alert>): string
  {
    ShowNat(|ActiveAlerts(alerts)|) + " Active"
  }

  /** The critical badge is shown exactly when some active alert is
      critical, and the number in front of " Critical" reads back as the
      critical count. */
  lemma CriticalBadgeShown(alerts: seq<Alert>)
    ensures CriticalBadge(alerts).Some? <==>
      exists i :: 0 <= i < |alerts| && alerts[i].isActive && alerts[i].severity == Critical
    ensures CriticalBadge(alerts).Some? ==>
      var text := CriticalBadge(alerts).value;
      && |text| > 9 && text[|text| - 9..] == " Critical"
      && AllDigits(text[..|text| - 9]) && DigitsValue(text[..|text| - 9]) == CriticalCount(alerts)
  {
    CriticalCountBounded(alerts);
    FilterNonEmpty(IsActiveCritical, alerts);
    var n := CriticalCount(alerts);
    if n > 0 {
      var text := ShowNat(n) + " Critical";
      assert text[..|text| - 9] == ShowNat(n);
      ShowNatRoundTrip(n);
    }
  }

  /** The number in front of " Active" reads back as the number of active
      alerts. */
  lemma ActiveBadgeCount(alerts: seq<Alert>)
    ensures var text := ActiveBadge(alerts);
      && |text| > 7 && text[|text| - 7..] == " Active"
      && AllDigits(text[..|text| - 7]) && DigitsValue(text[..|text| - 7]) == |ActiveAlerts(alerts)|
  {
    var text := ActiveBadge(alerts);
    assert text[..|text| - 7] == ShowNat(|ActiveAlerts(alerts)|);
    ShowNatRoundTrip(|ActiveAlerts(alerts)|);
  }

  /** The icon tile's style: a chain of tests for critical, high and
      medium, with everything else muted. */
  function IconSwatch(s: Severity): Swatch
  {
    if s == Critical then Swatch(Destructive, true)
    else if s == High then Swatch(Destructive, false)
    else if s == Medium then Swatch(Warning, false)
    else Swatch(Muted, true)
  }

  /** The severity badge's style, looked up in the `severityColors` table. */
  function BadgeSwatch(s: Severity): Swatch
  {
    match s
    case Low => Swatch(Muted, true)
    case Medium => Swatch(Warning, false)
    case High => Swatch(Destructive, false)
    case Critical => Swatch(Destructive, true)
  }

  /** The card border: destructive for a critical alert, plain otherwise. */
  function CardHighlighted(a: Alert): bool
  {
    a.severity == Critical
  }

  function SeverityRank(s: Severity): nat
  {
    match s
    case Low => 0
    case Medium => 1
    case High => 2
    case Critical => 3
  }

  /** The icon chain and the badge table agree on every severity. Two
      styles are untinted: the muted one of a low alert and the solid
      destructive one, which only a critical alert gets, together with the
      highlighted border. A more severe alert never gets a less alarming
      tone. */
  lemma SeverityStyles(s: Severity, t: Severity, a: Alert)
    ensures IconSwatch(s) == BadgeSwatch(s)
    ensures IconSwatch(s).solid <==> s == Critical || s == Low
    ensures IconSwatch(s).solid && IconSwatch(s).tone != Muted <==> s == Critical
    ensures CardHighlighted(a) <==> IconSwatch(a.severity) == Swatch(Destructive, true)
    ensures SeverityRank(s) <= SeverityRank(t) ==> Heat(IconSwatch(s).tone) <= Heat(IconSwatch(t).tone)
  {
  }

  /** Among alerts with the catalog's severities (high, critical, high,
      critical, medium, medium, high, high) exactly the second and the fourth
      are critical. */
  lemma CatalogCriticals(a: seq<Alert>)
    requires |a| == 8
    requires a[0].severity == High && a[1].severity == Critical
    requires a[2].severity == High && a[3].severity == Critical
    requires a[4].severity == Medium && a[5].severity == Medium
    requires a[6].severity == High && a[7].severity == High
    ensures Filter(IsCritical, a) == [a[1], a[3]]
  {
    assert forall i :: 0 <= i < |a[4..]| ==> !IsCritical(a[4..][i]);
    FilterNonEmpty(IsCritical, a[4..]);
    assert a[3..][1..] == a[4..];
    assert Filter(IsCritical, a[3..]) == [a[3]] + Filter(IsCritical, a[4..]);
    assert a[2..][1..] == a[3..];
    assert Filter(IsCritical, a[2..]) == Filter(IsCritical, a[3..]);
    assert a[1..][1..] == a[2..];
    assert Filter(IsCritical, a[1..]) == [a[1]] + Filter(IsCritical, a[2..]);
  }

  /** On the catalog every alert is active, two of them are critical, and
      the header reads "2 Critical" and "8 Active". */
  lemma CatalogAlertsPanel(loadMs: int)
    ensures ActiveAlerts(Alerts(loadMs)) == Alerts(loadMs)
    ensures |ActiveAlerts(Alerts(loadMs))| == 8
    ensures CriticalCount(Alerts(loadMs)) == 2
    ensures CriticalBadge(Alerts(loadMs)) == Some("2 Critical")
    ensures ActiveBadge(Alerts(loadMs)) == "8 Active"
  {
    var a := Alerts(loadMs);
    FilterKeepsAll(IsActive, a);
    AlertSeverities(loadMs);
    CatalogCriticals(a);
    assert CriticalCount(a) == 2;
    assert ShowNat(2) + " Critical" == "2 Critical";
  }
}
