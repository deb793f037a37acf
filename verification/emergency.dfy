/** The emergency-response page: the active vehicles, each card's status
    text, ETA and corridor line, the header badge and banner, and the
    selected card, which the page keeps as state and changes on a click. */
module Emergency {
  import opened Wrappers
  import opened Sequences
  import opened Text
  import opened MockData
  import EmergencyPanel

  /** A card's `isActive`: responding or en route. */
  predicate IsActive(v: EmergencyVehicle)
  {
    v.status == Responding || v.status == EnRoute
  }

  /** The page's own `activeVehicles` filter. */
  function ActiveVehicles(vs: seq<EmergencyVehicle>): seq<EmergencyVehicle>
  {
    Filter(IsActive, vs)
  }

  /** A listed card is active exactly when its vehicle is in the active
      list, and the page's list is the dashboard card's list. */
  lemma CardActiveIffListed(vs: seq<EmergencyVehicle>, v: EmergencyVehicle)
    ensures v in vs ==> (IsActive(v) <==> v in ActiveVehicles(vs))
    ensures ActiveVehicles(vs) == EmergencyPanel.ActiveVehicles(vs)
  {
    FilterMembership(IsActive, vs, v);
    SameFilter(vs);
  }

  lemma {:induction false} SameFilter(vs: seq<EmergencyVehicle>)
    ensures ActiveVehicles(vs) == EmergencyPanel.ActiveVehicles(vs)
  {
    if vs != [] {
      SameFilter(vs[1..]);
    }
  }

  /** The badge text: `status.replace('_', ' ')`. */
  function StatusText(s: VehicleStatus): string
  {
    ReplaceFirst(VehicleStatusKey(s), '_', ' ')
  }

  /** The text a status badge shows. */
  function ShownStatus(s: VehicleStatus): string
  {
    match s
    case Responding => "responding"
    case EnRoute => "en route"
    case OnScene => "on scene"
    case Returning => "returning"
  }

  /** Only the underscore goes: "en route" and "on scene", with the other
      two keys unchanged; no underscore is left and the length is kept. */
  lemma StatusTexts(s: VehicleStatus)
    ensures StatusText(s) == ShownStatus(s)
    ensures |StatusText(s)| == |VehicleStatusKey(s)| && '_' !in StatusText(s)
  {
    match s
    case Responding => KeptKey("responding");
    case EnRoute => SpacedKey("en_route", 2, "en route");
    case OnScene => SpacedKey("on_scene", 2, "on scene");
    case Returning => KeptKey("returning");
  }

  lemma KeptKey(key: string)
    requires '_' !in key
    ensures ReplaceFirst(key, '_', ' ') == key
  {
  }

  lemma SpacedKey(key: string, i: nat, shown: string)
    requires i < |key| && key[i] == '_'
    requires forall k :: 0 <= k < |key| && k != i ==> key[k] != '_'
    requires shown == key[..i] + [' '] + key[i + 1..]
    ensures ReplaceFirst(key, '_', ' ') == shown && '_' !in shown
  {
    SpaceForUnderscore(key, i);
  }

  /** Replacing the only underscore, at position `i`, puts a space there. */
  lemma SpaceForUnderscore(key: string, i: nat)
    requires i < |key| && key[i] == '_'
    requires forall k :: 0 <= k < |key| && k != i ==> key[k] != '_'
    ensures ReplaceFirst(key, '_', ' ') == key[..i] + [' '] + key[i + 1..]
  {
    assert IndexOf(key, '_') == i;
  }

  /** The ETA line, written out again on this page. */
  function EtaText(eta: int): string
  {
    if eta > 0 then ShowInt(eta) + " min" else "Arrived"
  }

  /** The page and the dashboard card word every ETA alike. */
  lemma EtaTextAgrees(eta: int)
    ensures EtaText(eta) == EmergencyPanel.EtaText(eta)
    ensures eta > 0 <==> EtaText(eta) != "Arrived"
  {
    if eta > 0 {
      assert EtaText(eta)[|EtaText(eta)| - 1] == 'n';
    }
  }

  /** The "Green corridor active via FC Road" line: every active card shows
      it, responding as well as en route. */
  function CorridorLine(v: EmergencyVehicle): bool
  {
    IsActive(v)
  }

  /** Unlike the dashboard card, the page shows the corridor line for a
      responding vehicle; for every other status the two agree. */
  lemma CorridorLineDiffers(v: EmergencyVehicle)
    ensures v.status == Responding ==> CorridorLine(v) && !EmergencyPanel.GreenCorridorShown(v)
    ensures v.status != Responding ==> CorridorLine(v) == EmergencyPanel.GreenCorridorShown(v)
  {
  }

  /** The header badge "N Active Emergency". */
  function HeaderBadge(vs: seq<EmergencyVehicle>): Option<string>
  {
    var n := |ActiveVehicles(vs)|;
    if n > 0 then Some(ShowNat(n) + " Active Emergency") else None
  }

  /** The "Green Corridors Active in Pune" banner. */
  function CorridorBanner(vs: seq<EmergencyVehicle>): bool
  {
    |ActiveVehicles(vs)| > 0
  }

  /** The badge and the banner appear together, exactly when some vehicle
      is responding or en route. */
  lemma BadgeAndBanner(vs: seq<EmergencyVehicle>)
    ensures HeaderBadge(vs).Some? == CorridorBanner(vs)
    ensures CorridorBanner(vs) <==> exists i :: 0 <= i < |vs| && IsActive(vs[i])
  {
    FilterNonEmpty(IsActive, vs);
  }

  /** Whether the card for `v` carries the selection ring. */
  function Ringed(selected: Option<string>, v: EmergencyVehicle): bool
  {
    selected == Some(v.id)
  }

  predicate DistinctVehicleIds(vs: seq<EmergencyVehicle>)
  {
    forall i, k :: 0 <= i < k < |vs| ==> vs[i].id != vs[k].id
  }

  /** With distinct ids at most one card is ringed. */
  lemma AtMostOneRing(selected: Option<string>, vs: seq<EmergencyVehicle>, i: int, k: int)
    requires DistinctVehicleIds(vs)
    requires 0 <= i < |vs| && 0 <= k < |vs|
    requires Ringed(selected, vs[i]) && Ringed(selected, vs[k])
    ensures i == k
  {
  }

  /** The vehicle catalog's ids are distinct. */
  lemma CatalogVehicleIds()
    ensures DistinctVehicleIds(EmergencyVehicles)
  {
  }

  /** The page's `selectedVehicle` state. */
  class VehicleSelection {
    var selected: Option<string>

    /** `useState(emergencyVehicles[0]?.id)`: the first vehicle, or nothing
        for an empty list. */
    constructor (vs: seq<EmergencyVehicle>)
      ensures selected == if |vs| > 0 then Some(vs[0].id) else None
      ensures Names(vs)
    {
      selected := if |vs| > 0 then Some(vs[0].id) else None;
    }

    /** The selection is empty or names a listed vehicle. */
    predicate Names(vs: seq<EmergencyVehicle>)
      reads this
    {
      selected.None? || exists i :: 0 <= i < |vs| && vs[i].id == selected.value
    }

    /** Whether `v`'s card is ringed. */
    function IsSelected(v: EmergencyVehicle): bool
      reads this
    {
      Ringed(selected, v)
    }

    /** A click on `v`'s card: `setSelectedVehicle(vehicle.id)`. The click
        sets rather than toggles, so a second click on the same card keeps
        it selected; clicking a listed card keeps the selection naming a
        listed vehicle. */
    method Select(v: EmergencyVehicle, ghost vs: seq<EmergencyVehicle>)
      modifies this
      ensures selected == Some(v.id)
      ensures IsSelected(v)
      ensures v in vs ==> Names(vs)
    {
      selected := Some(v.id);
    }
  }

  /** Two clicks on the same card leave it selected, and with distinct ids
      no other card is ringed. */
  method ClickTwice(s: VehicleSelection, v: EmergencyVehicle, vs: seq<EmergencyVehicle>)
    requires DistinctVehicleIds(vs)
    modifies s
    ensures s.selected == Some(v.id)
    ensures forall i :: 0 <= i < |vs| && s.IsSelected(vs[i]) ==> vs[i].id == v.id
  {
    s.Select(v, vs);
    s.Select(v, vs);
  }
}
