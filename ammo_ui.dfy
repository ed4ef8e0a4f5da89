/** The ammo HUD's decision rules (AmmoUI.cs): which colour the magazine and
    reserve counters get, which reserve row belongs to the held weapon, and
    the cache of reserve counts the server pushes. */
module AmmoDisplay {
  import opened Wrappers
  import opened AmmoConfig
  import opened AmmoInventory
  import opened InventorySlots
  import opened Weapon
  import opened WeaponAssets

  /** The colours a counter can be drawn in. */
  datatype Tint = Normal | LowAmmo | NoAmmo | ActiveAmmo | Reloading

  /** The magazine counter's text: "RELOADING..." or "current / reserve". */
  datatype AmmoText = ReloadingText | Count(current: int, reserve: int)

  /** The weapon panel: hidden, or the weapon name, the asset whose icon is
      put up (none: the icon is left as it was), the counter text and its
      colour. */
  datatype WeaponPanel = Hidden | Shown(name: string, icon: Option<WeaponAsset>, text: AmmoText, tint: Tint)

  /** The colour of a count against its maximum, with "low" meaning at or
      below 30% of the maximum. */
  function Level(amount: int, max: int): (r: Tint)
    ensures r in {NoAmmo, LowAmmo, Normal}
    ensures r == NoAmmo <==> amount == 0
    ensures r == LowAmmo <==> amount != 0 && 10 * amount <= 3 * max
    ensures r == Normal <==> amount != 0 && 10 * amount > 3 * max
  {
    if amount == 0 then NoAmmo
    else if 10 * amount <= 3 * max then LowAmmo
    else Normal
  }

  /** The magazine counter's colour: reloading first, then the level. */
  function MagazineTint(current: int, capacity: int, reloading: bool): (r: Tint)
    ensures r == Reloading <==> reloading
    ensures !reloading ==> r == Level(current, capacity)
    ensures r != ActiveAmmo
  {
    if reloading then Reloading else Level(current, capacity)
  }

  /** A reserve row's colour: the held weapon's row is highlighted whatever
      its amount; other rows show their level. */
  function ReserveTint(amount: int, max: int, isActive: bool): (r: Tint)
    ensures r == ActiveAmmo <==> isActive
    ensures !isActive ==> r == Level(amount, max)
    ensures r != Reloading
  {
    if isActive then ActiveAmmo else Level(amount, max)
  }

  /** The reserve key a weapon name draws from; the SMG shares the pistol's. */
  function AmmoKeyForWeapon(weaponName: string): (r: string)
    ensures r in {"", "pistol", "rifle", "sniper", "shotgun"}
    ensures r == "pistol" <==> weaponName in {"Pistol", "SMG"}
    ensures r == "rifle" <==> weaponName == "Rifle"
    ensures r == "sniper" <==> weaponName == "Sniper"
    ensures r == "shotgun" <==> weaponName == "Shotgun"
  {
    match weaponName
    case "Pistol" => "pistol"
    case "SMG" => "pistol"
    case "Rifle" => "rifle"
    case "Sniper" => "sniper"
    case "Shotgun" => "shotgun"
    case _ => ""
  }

  /** GetCurrentWeaponAmmoType: the key of the held weapon's asset, or ""
      when nothing is held, it is not a weapon, or it has no asset. The key
      comes from the asset's own name, not the item's. */
  function GetCurrentWeaponAmmoType(catalogue: Catalogue, item: Option<InventoryItem>): (r: string)
    ensures r != "" ==> item.Some? && item.value.itemType == "Weapon"
    ensures r != "" ==>
      && GetWeaponData(catalogue, item.value.weaponName).Some?
      && r == AmmoKeyForWeapon(GetWeaponData(catalogue, item.value.weaponName).value.weaponName)
    ensures item.Some? && item.value.itemType == "Weapon" && GetWeaponData(catalogue, item.value.weaponName).Some? ==>
      r == AmmoKeyForWeapon(GetWeaponData(catalogue, item.value.weaponName).value.weaponName)
  {
    match item
    case None => ""
    case Some(it) =>
      if it.itemType != "Weapon" then ""
      else match GetWeaponData(catalogue, it.weaponName)
        case None => ""
        case Some(asset) => AmmoKeyForWeapon(asset.weaponName)
  }

  /** A reserve row: its key and the maximum its colour is measured against. */
  datatype ReserveRow = ReserveRow(key: string, max: int)

  /** The four reserve rows in display order. */
  const ReserveRows: seq<ReserveRow> :=
    [ReserveRow("pistol", 120), ReserveRow("rifle", 90), ReserveRow("sniper", 30), ReserveRow("shotgun", 24)]

  /** The ammo type each row shows. */
  const ReserveTypes: seq<AmmoType> := [PistolAmmo, RifleAmmo, SniperAmmo, ShotgunShells]

  /** The HUD's own maxima and keys are the ammo configuration's. */
  lemma ReserveRowsMatchConfig(i: int)
    requires 0 <= i < |ReserveRows|
    ensures ReserveTypes[i] != AmmoType.None
    ensures ReserveRows[i] == ReserveRow(SyncKey(ReserveTypes[i]), GetMaxAmmo(ReserveTypes[i]))
  {
  }

  /** The cached amount a row shows. */
  function RowAmount(counts: AmmoCounts, i: int): int
    requires 0 <= i < |ReserveRows|
  {
    [counts.pistol, counts.rifle, counts.sniper, counts.shotgun][i]
  }

  /** UpdateReserveAmmoDisplay: one colour per row, the row whose key is the
      held weapon's highlighted. */
  function ReserveDisplay(counts: AmmoCounts, activeKey: string): (r: seq<Tint>)
    ensures |r| == |ReserveRows|
    ensures forall i :: 0 <= i < |r| ==> r[i] == ReserveTint(RowAmount(counts, i), ReserveRows[i].max, ReserveRows[i].key == activeKey)
  {
    seq(|ReserveRows|, i requires 0 <= i < |ReserveRows| =>
      ReserveTint(RowAmount(counts, i), ReserveRows[i].max, ReserveRows[i].key == activeKey))
  }

  /** At most one reserve row is highlighted, and none when no weapon key is
      active. */
  lemma AtMostOneRowActive(counts: AmmoCounts, activeKey: string, i: int, j: int)
    requires 0 <= i < j < |ReserveRows|
    ensures !(ReserveDisplay(counts, activeKey)[i] == ActiveAmmo && ReserveDisplay(counts, activeKey)[j] == ActiveAmmo)
    ensures activeKey == "" ==> ReserveDisplay(counts, activeKey)[i] != ActiveAmmo
  {
  }

  /** UpdateCurrentWeaponDisplay: hidden unless a weapon is held; otherwise
      the controller's weapon name, the icon of the item's asset when it has
      one, and the counter with its colour. */
  function WeaponDisplay(catalogue: Catalogue, item: Option<InventoryItem>, m: Magazine): (r: WeaponPanel)
    ensures r == Hidden <==> item.None? || item.value.itemType != "Weapon"
    ensures r.Shown? ==> r.name == m.weaponName
    ensures r.Shown? ==> (r.text == ReloadingText <==> m.isReloading)
    ensures r.Shown? && !m.isReloading ==> r.text == Count(m.currentAmmo, m.reserveAmmo)
    ensures r.Shown? ==> r.tint == MagazineTint(m.currentAmmo, m.magazineCapacity, m.isReloading)
    ensures r.Shown? ==>
      var asset := GetWeaponData(catalogue, item.value.weaponName);
      r.icon == if asset.Some? && asset.value.hasIcon then asset else Option.None
  {
    match item
    case None => Hidden
    case Some(it) =>
      if it.itemType != "Weapon" then Hidden
      else
        var asset := GetWeaponData(catalogue, it.weaponName);
        var icon := if asset.Some? && asset.value.hasIcon then asset else Option.None;
        var text := if m.isReloading then ReloadingText else Count(m.currentAmmo, m.reserveAmmo);
        Shown(m.weaponName, icon, text, MagazineTint(m.currentAmmo, m.magazineCapacity, m.isReloading))
  }

  /** The MonoBehaviour's state: the reserve counts it caches. */
  class AmmoUI {
    var pistolAmmo: int
    var rifleAmmo: int
    var sniperAmmo: int
    var shotgunAmmo: int

    function Cached(): AmmoCounts
      reads this
    {
      AmmoCounts(pistolAmmo, rifleAmmo, sniperAmmo, shotgunAmmo)
    }

    constructor()
      ensures Cached() == AmmoCounts(0, 0, 0, 0)
    {
      pistolAmmo := 0;
      rifleAmmo := 0;
      sniperAmmo := 0;
      shotgunAmmo := 0;
    }

    /** The local player's AmmoManager was found: the cache starts from its
        counters. */
    method InitialiseFrom(inv: AmmoInventory.Inventory)
      modifies this
      ensures Cached() == AmmoCounts(GetAmmo(inv, PistolAmmo), GetAmmo(inv, RifleAmmo),
                                     GetAmmo(inv, SniperAmmo), GetAmmo(inv, ShotgunShells))
    {
      pistolAmmo := GetAmmo(inv, PistolAmmo);
      rifleAmmo := GetAmmo(inv, RifleAmmo);
      sniperAmmo := GetAmmo(inv, SniperAmmo);
      shotgunAmmo := GetAmmo(inv, ShotgunShells);
    }

    method UpdateAmmoFromServer(pistol: int, rifle: int, sniper: int, shotgun: int)
      modifies this
      ensures Cached() == AmmoCounts(pistol, rifle, sniper, shotgun)
    {
      pistolAmmo := pistol;
      rifleAmmo := rifle;
      sniperAmmo := sniper;
      shotgunAmmo := shotgun;
    }

    /** UpdateDisplay, given the held item and the weapon controller's
        fields: the weapon panel and the reserve rows' colours. */
    method UpdateDisplay(catalogue: Catalogue, item: Option<InventoryItem>, m: Magazine) returns (panel: WeaponPanel, reserve: seq<Tint>)
      ensures panel == WeaponDisplay(catalogue, item, m)
      ensures reserve == ReserveDisplay(Cached(), GetCurrentWeaponAmmoType(catalogue, item))
    {
      panel := WeaponDisplay(catalogue, item, m);
      reserve := ReserveDisplay(Cached(), GetCurrentWeaponAmmoType(catalogue, item));
    }
  }
}
