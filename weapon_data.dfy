/** Weapon assets (WeaponData.cs) as the HUD loads them by weapon name. */
module WeaponAssets {
  import opened Wrappers

  /** The fields of a weapon asset the HUD reads: its name and whether an
      icon is assigned. */
  datatype WeaponAsset = WeaponAsset(weaponName: string, hasIcon: bool)

  /** The weapon assets in the resources folder, by the name they are
      loaded under. */
  type Catalogue = map<string, WeaponAsset>

  /** Loading a weapon asset: none for an empty name, otherwise whatever
      the catalogue holds under that name. */
  function GetWeaponData(catalogue: Catalogue, weaponName: string): (r: Option<WeaponAsset>)
    ensures r.Some? <==> weaponName != "" && weaponName in catalogue
    ensures r.Some? ==> r.value == catalogue[weaponName]
  {
    if weaponName == "" || weaponName !in catalogue then None else Some(catalogue[weaponName])
  }
}
