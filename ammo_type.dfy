/** The ammunition types and their fixed configuration (AmmoType.cs). */
module AmmoConfig {

  /** `None` is the sentinel used by melee weapons. */
  datatype AmmoType = None | PistolAmmo | RifleAmmo | SniperAmmo | ShotgunShells

  const MaxPistolAmmo: int := 120
  const MaxRifleAmmo: int := 90
  const MaxSniperAmmo: int := 30
  const MaxShotgunShells: int := 24

  /** The four types that are counted in an inventory. */
  const RealAmmoTypes: set<AmmoType> := {PistolAmmo, RifleAmmo, SniperAmmo, ShotgunShells}

  lemma RealAmmoTypesAreAllButNone(t: AmmoType)
    ensures t in RealAmmoTypes <==> t != None
  {
  }

  /** The largest count an inventory may hold of a type; 0 for `None`. */
  function GetMaxAmmo(t: AmmoType): (r: int)
    ensures r == 0 <==> t == None
    ensures 0 <= r <= MaxPistolAmmo
  {
    match t
    case PistolAmmo => MaxPistolAmmo
    case RifleAmmo => MaxRifleAmmo
    case SniperAmmo => MaxSniperAmmo
    case ShotgunShells => MaxShotgunShells
    case None => 0
  }

  /** The configured maxima, type by type. */
  lemma MaxAmmoTable()
    ensures GetMaxAmmo(PistolAmmo) == 120
    ensures GetMaxAmmo(RifleAmmo) == 90
    ensures GetMaxAmmo(SniperAmmo) == 30
    ensures GetMaxAmmo(ShotgunShells) == 24
    ensures GetMaxAmmo(None) == 0
  {
  }

  /** The display name of a type; every type has its own. */
  function GetAmmoName(t: AmmoType): (r: string)
    ensures r == "None" <==> t == None
    ensures |r| > 0
  {
    match t
    case PistolAmmo => "Pistol Ammo"
    case RifleAmmo => "Rifle Ammo"
    case SniperAmmo => "Sniper Ammo"
    case ShotgunShells => "Shotgun Shells"
    case None => "None"
  }

  /** The display names, type by type. */
  lemma AmmoNameTable()
    ensures GetAmmoName(PistolAmmo) == "Pistol Ammo"
    ensures GetAmmoName(RifleAmmo) == "Rifle Ammo"
    ensures GetAmmoName(SniperAmmo) == "Sniper Ammo"
    ensures GetAmmoName(ShotgunShells) == "Shotgun Shells"
    ensures GetAmmoName(None) == "None"
  {
  }

  /** No two types share a display name. */
  lemma GetAmmoNameInjective(a: AmmoType, b: AmmoType)
    ensures GetAmmoName(a) == GetAmmoName(b) ==> a == b
  {
  }
}
