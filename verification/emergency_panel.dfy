/** The dashboard's emergency card: the vehicles still answering a call,
    each vehicle's status label and ETA, and the green-corridor line. */
module EmergencyPanel {
  import opened Wrappers
  import opened Sequences
  import opened Text
  import opened MockData

  /** Responding or en route: the statuses the card counts as active. */
  predicate IsResponding(v: EmergencyVehicle)
  {
    v.status == Responding || v.status == EnRoute
  }

  /** `activeVehicles`. */
  function ActiveVehicles(vs: seq<EmergencyVehicle>): seq<EmergencyVehicle>
  {
    Filter(IsResponding, vs)
  }

  /** The active vehicles are exactly the responding and en-route ones, each
      as often as it occurs in the list, in catalog order; vehicles on
      scene or returning are never among them. */
  lemma ActiveVehiclesExact(vs: seq<EmergencyVehicle>)
    ensures forall v :: v in ActiveVehicles(vs) <==> v in vs && (v.status == Responding || v.status == EnRoute)
    ensures forall v :: multiset(ActiveVehicles(vs))[v] == if IsResponding(v) then multiset(vs)[v] else 0
    ensures forall v :: v in ActiveVehicles(vs) ==> v.status != OnScene && v.status != Returning
    ensures IsSubsequence(ActiveVehicles(vs), vs)
    ensures |ActiveVehicles(vs)| > 0 <==> exists i :: 0 <= i < |vs| && IsResponding(vs[i])
  {
    forall v ensures v in ActiveVehicles(vs) <==> v in vs && (v.status == Responding || v.status == EnRoute) {
      FilterMembership(IsResponding, vs, v);
    }
    forall v ensures multiset(ActiveVehicles(vs))[v] == if IsResponding(v) then multiset(vs)[v] else 0 {
      FilterMultiplicity(IsResponding, vs, v);
    }
    FilterIsSubsequence(IsResponding, vs);
    FilterNonEmpty(IsResponding, vs);
  }

  /** `statusLabels`. */
  function StatusLabel(s: VehicleStatus): string
  {
    match s
    case Responding => "Responding"
    case EnRoute => "En Route"
    case OnScene => "On Scene"
    case Returning => "Returning"
  }

  /** Every status has a label and no two statuses share one. */
  lemma StatusLabelsDistinct(s: VehicleStatus, t: VehicleStatus)
    ensures |StatusLabel(s)| > 0
    ensures StatusLabel(s) == StatusLabel(t) ==> s == t
  {
  }

  /** The ETA line: "{eta} min" while the vehicle is on its way, "Arrived"
      once the ETA is zero (or negative). */
  function EtaText(eta: int): string
  {
    if eta > 0 then ShowInt(eta) + " min" else "Arrived"
  }

  /** A positive ETA is shown as its decimal digits followed by " min", and
      the digits read back as the ETA; otherwise the line says "Arrived". */
  lemma EtaTextReadsBack(eta: int)
    ensures eta <= 0 ==> EtaText(eta) == "Arrived"
    ensures eta > 0 ==>
      var text := EtaText(eta);
      && |text| > 4 && text[|text| - 4..] == " min"
      && AllDigits(text[..|text| - 4]) && DigitsValue(text[..|text| - 4]) == eta
  {
    if eta > 0 {
      var text := EtaText(eta);
      assert text[..|text| - 4] == ShowNat(eta);
      ShowNatRoundTrip(eta);
    }
  }

  /** The card border and the status badge are highlighted for an active
      vehicle. */
  function CardHighlighted(v: EmergencyVehicle): bool
  {
    v.status == EnRoute || v.status == Responding
  }

  /** "Green corridor active" is shown for a vehicle en route only. */
  function GreenCorridorShown(v: EmergencyVehicle): bool
  {
    v.status == EnRoute
  }

  /** The highlight marks exactly the vehicles listed as active; the
      corridor line needs the highlight, and a responding vehicle is
      highlighted without a corridor line. */
  lemma CardStates(vs: seq<EmergencyVehicle>, v: EmergencyVehicle)
    ensures v in vs ==> (CardHighlighted(v) <==> v in ActiveVehicles(vs))
    ensures GreenCorridorShown(v) ==> CardHighlighted(v)
    ensures v.status == Responding ==> CardHighlighted(v) && !GreenCorridorShown(v)
  {
    FilterMembership(IsResponding, vs, v);
  }

  /** The "N Active" pill, shown only while some vehicle is active. */
  function ActivePill(vs: seq<EmergencyVehicle>): Option<string>
  {
    var n := |ActiveVehicles(vs)|;
    if n > 0 then Some(ShowNat(n) + " Active") else None
  }

  /** The "N Vehicles" badge counts the whole list. */
  function TotalBadge(vs: seq<EmergencyVehicle>): string
  {
    ShowNat(|vs|) + " Vehicles"
  }

  /** The pill appears exactly when some vehicle is responding or en
      route, and its number never exceeds the total badge's. */
  lemma HeaderBadges(vs: seq<EmergencyVehicle>)
    ensures ActivePill(vs).Some? <==> exists i :: 0 <= i < |vs| && IsResponding(vs[i])
    ensures |ActiveVehicles(vs)| <= |vs|
    ensures DigitsValue(ShowNat(|vs|)) == |vs| && TotalBadge(vs)[..|ShowNat(|vs|)|] == ShowNat(|vs|)
  {
    ActiveVehiclesExact(vs);
    ShowNatRoundTrip(|vs|);
  }

  /** Among vehicles en route, responding, en route, on scene and
      returning, the active ones are the first three. */
  lemma CatalogActive(vs: seq<EmergencyVehicle>)
    requires |vs| == 5
    requires vs[0].status == EnRoute && vs[1].status == Responding && vs[2].status == EnRoute
    requires vs[3].status == OnScene && vs[4].status == Returning
    ensures ActiveVehicles(vs) == vs[..3]
  {
    var p := IsResponding;
    assert forall i :: 0 <= i < |vs[3..]| ==> !p(vs[3..][i]);
    FilterNonEmpty(p, vs[3..]);
    assert vs[2..][1..] == vs[3..];
    assert vs[1..][1..] == vs[2..];
    assert Filter(p, vs[2..]) == [vs[2]];
    assert Filter(p, vs[1..]) == [vs[1], vs[2]];
    assert Filter(p, vs) == [vs[0], vs[1], vs[2]];
  }

  /** On the catalog the active vehicles are ev1, ev2 and ev3; the header
      reads "3 Active" and "5 Vehicles"; the ETA lines read "6 min",
      "14 min", "8 min", "Arrived" and "5 min". */
  lemma CatalogEmergencyPanel()
    ensures ActiveVehicles(EmergencyVehicles) == EmergencyVehicles[..3]
    ensures EmergencyVehicles[0].id == "ev1" && EmergencyVehicles[1].id == "ev2" && EmergencyVehicles[2].id == "ev3"
    ensures ActivePill(EmergencyVehicles) == Some("3 Active")
    ensures TotalBadge(EmergencyVehicles) == "5 Vehicles"
    ensures EtaText(EmergencyVehicles[0].eta) == "6 min" && EtaText(EmergencyVehicles[1].eta) == "14 min"
    ensures EtaText(EmergencyVehicles[2].eta) == "8 min" && EtaText(EmergencyVehicles[3].eta) == "Arrived"
    ensures EtaText(EmergencyVehicles[4].eta) == "5 min"
  {
    CatalogActive(EmergencyVehicles);
    assert |ActiveVehicles(EmergencyVehicles)| == 3;
    assert ShowNat(3) + " Active" == "3 Active";
    assert ShowNat(5) + " Vehicles" == "5 Vehicles";
  }
}
