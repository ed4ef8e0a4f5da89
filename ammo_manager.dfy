/** The per-player ammunition counters (AmmoManager.cs): a dictionary from
    ammo type to count, changed by local use/add/set and by server syncs. */
module AmmoInventory {
  import opened AmmoConfig
  import opened UnityMath

  type Inventory = map<AmmoType, int>

  /** The counters hold exactly the four real types: Awake creates them and
      nothing ever adds `None` or removes a key. */
  ghost predicate Complete(inv: Inventory) {
    forall t :: t in inv <==> t != None
  }

  /** Every counter lies between 0 and its type's maximum. */
  ghost predicate Bounded(inv: Inventory) {
    forall t :: t in inv ==> 0 <= inv[t] <= GetMaxAmmo(t)
  }

  /** The four counts AmmoManager hands to the HUD when it notifies it. */
  datatype AmmoCounts = AmmoCounts(pistol: int, rifle: int, sniper: int, shotgun: int)

  /** The counters right after Awake. */
  function Initial(): (inv: Inventory)
    ensures Complete(inv) && Bounded(inv)
    ensures forall t :: t in inv ==> inv[t] == 0
  {
    map[PistolAmmo := 0, RifleAmmo := 0, SniperAmmo := 0, ShotgunShells := 0]
  }

  /** GetAmmo: -1 for `None`, the stored count for a real type, 0 for a type
      that has no entry. */
  function GetAmmo(inv: Inventory, t: AmmoType): (r: int)
    ensures t == None ==> r == -1
    ensures t != None && Complete(inv) ==> r == inv[t]
    ensures t != None && Bounded(inv) ==> 0 <= r <= GetMaxAmmo(t)
  {
    if t == None then -1
    else if t in inv then inv[t]
    else 0
  }

  /** HasAmmo: `None` never runs out; otherwise the count must reach `amount`. */
  predicate HasAmmo(inv: Inventory, t: AmmoType, amount: int): (b: bool)
    ensures t == None ==> b
    ensures t != None && Complete(inv) ==> (b <==> inv[t] >= amount)
  {
    t == None || GetAmmo(inv, t) >= amount
  }

  /** The counts passed to the HUD, read from the counters. */
  function Counts(inv: Inventory): (c: AmmoCounts)
    requires Complete(inv)
    ensures c.pistol == inv[PistolAmmo] && c.rifle == inv[RifleAmmo]
    ensures c.sniper == inv[SniperAmmo] && c.shotgun == inv[ShotgunShells]
  {
    AmmoCounts(GetAmmo(inv, PistolAmmo), GetAmmo(inv, RifleAmmo),
               GetAmmo(inv, SniperAmmo), GetAmmo(inv, ShotgunShells))
  }

  /** UseAmmo on the counters: whether it succeeded and the counters after. */
  function UseResult(inv: Inventory, t: AmmoType, amount: int): (r: (bool, Inventory))
    requires Complete(inv)
    ensures Complete(r.1)
    ensures t == None ==> r == (true, inv)
    ensures t != None ==> (r.0 <==> inv[t] >= amount)
    ensures !r.0 ==> r.1 == inv
    ensures r.0 && t != None ==>
      r.1[t] == inv[t] - amount && forall u :: u in inv && u != t ==> r.1[u] == inv[u]
    ensures Bounded(inv) && amount >= 0 ==> Bounded(r.1)
  {
    if t == None then (true, inv)
    else if !HasAmmo(inv, t, amount) then (false, inv)
    else (true, inv[t := inv[t] - amount])
  }

  /** AddAmmo on the counters: refused for `None` and for a full counter,
      otherwise the count grows by `amount` but never past the maximum. */
  function AddResult(inv: Inventory, t: AmmoType, amount: int): (r: (bool, Inventory))
    requires Complete(inv)
    ensures Complete(r.1)
    ensures r.0 <==> t != None && inv[t] < GetMaxAmmo(t)
    ensures !r.0 ==> r.1 == inv
    ensures r.0 ==> r.1[t] == Min(inv[t] + amount, GetMaxAmmo(t))
    ensures r.0 ==> forall u :: u in inv && u != t ==> r.1[u] == inv[u]
    ensures r.0 && amount >= 0 ==> inv[t] <= r.1[t] <= GetMaxAmmo(t)
    ensures Bounded(inv) && amount >= 0 ==> Bounded(r.1)
  {
    if t == None then (false, inv)
    else
      var current := GetAmmo(inv, t);
      var max := GetMaxAmmo(t);
      if current >= max then (false, inv)
      else (true, inv[t := Min(current + amount, max)])
  }

  /** The amount AddAmmo reports as actually added. */
  function ActualAdded(inv: Inventory, t: AmmoType, amount: int): (added: int)
    requires Complete(inv) && t != None && inv[t] < GetMaxAmmo(t)
    ensures amount >= 0 ==> 0 <= added <= amount
    ensures inv[t] + added == AddResult(inv, t, amount).1[t]
  {
    Min(GetAmmo(inv, t) + amount, GetMaxAmmo(t)) - GetAmmo(inv, t)
  }

  /** SetAmmo on the counters: the clamped amount for that type only. */
  function SetResult(inv: Inventory, t: AmmoType, amount: int): (r: Inventory)
    requires Complete(inv)
    ensures Complete(r)
    ensures t == None ==> r == inv
    ensures t != None ==> r[t] == Clamp(amount, 0, GetMaxAmmo(t)) && 0 <= r[t] <= GetMaxAmmo(t)
    ensures forall u :: u in inv && u != t ==> r[u] == inv[u]
    ensures Bounded(inv) ==> Bounded(r)
  {
    if t == None then inv
    else inv[t := Clamp(amount, 0, GetMaxAmmo(t))]
  }

  /** The key under which the server reports a type's count. */
  function SyncKey(t: AmmoType): (k: string)
    requires t != None
    ensures |k| > 0
  {
    match t
    case PistolAmmo => "pistol"
    case RifleAmmo => "rifle"
    case SniperAmmo => "sniper"
    case ShotgunShells => "shotgun"
  }

  /** Distinct types are reported under distinct keys. */
  lemma SyncKeyInjective(a: AmmoType, b: AmmoType)
    requires a != None && b != None
    ensures SyncKey(a) == SyncKey(b) ==> a == b
  {
  }

  /** SyncAmmoFromServer on the counters: every type whose key is present is
      overwritten, unclamped, with the server's value; the rest are kept. */
  function SyncResult(inv: Inventory, server: map<string, int>): (r: Inventory)
    requires Complete(inv)
    ensures Complete(r)
    ensures forall t :: t in RealAmmoTypes ==>
      r[t] == if SyncKey(t) in server then server[SyncKey(t)] else inv[t]
  {
    var p := if "pistol" in server then inv[PistolAmmo := server["pistol"]] else inv;
    var q := if "rifle" in server then p[RifleAmmo := server["rifle"]] else p;
    var s := if "sniper" in server then q[SniperAmmo := server["sniper"]] else q;
    if "shotgun" in server then s[ShotgunShells := server["shotgun"]] else s
  }

  /** The `changed` flag of SyncAmmoFromServer: some known key was present. */
  predicate SyncMatched(server: map<string, int>)
  {
    "pistol" in server || "rifle" in server || "sniper" in server || "shotgun" in server
  }

  /** A sync that matches no key leaves the counters as they were. */
  lemma SyncWithoutMatchKeeps(inv: Inventory, server: map<string, int>)
    requires Complete(inv)
    requires !SyncMatched(server)
    ensures SyncResult(inv, server) == inv
  {
  }

  /** Applying the same server report twice is the same as applying it once. */
  lemma SyncIdempotent(inv: Inventory, server: map<string, int>)
    requires Complete(inv)
    ensures SyncResult(SyncResult(inv, server), server) == SyncResult(inv, server)
  {
  }

  /** Using n > 0 rounds of a bounded counter and adding them back restores
      the counters: AddAmmo undoes a successful UseAmmo. */
  lemma AddUndoesUse(inv: Inventory, t: AmmoType, n: int)
    requires Complete(inv) && Bounded(inv)
    requires t != None && n > 0 && UseResult(inv, t, n).0
    ensures AddResult(UseResult(inv, t, n).1, t, n) == (true, inv)
  {
    var used := UseResult(inv, t, n).1;
    assert used[t] < GetMaxAmmo(t);
    assert used[t := Min(used[t] + n, GetMaxAmmo(t))] == inv;
  }

  class AmmoManager {
    var ammoInventory: Inventory
    const isLocal: bool
    /** Whether the scene has an AmmoUI for the notifications to reach. */
    const hudInScene: bool
    /** Every notification the HUD received, with the counts passed. */
    var notifications: seq<AmmoCounts>

    ghost predicate Valid()
      reads this
    {
      Complete(ammoInventory)
    }

    /** Awake zeroes the four counters; Start reads `isLocal` from the object
        name and, for the local player with a HUD in the scene, notifies it. */
    constructor (isLocal: bool, hudInScene: bool)
      ensures Valid() && Bounded(ammoInventory)
      ensures ammoInventory == Initial()
      ensures this.isLocal == isLocal && this.hudInScene == hudInScene
      ensures notifications == if isLocal && hudInScene then [AmmoCounts(0, 0, 0, 0)] else []
    {
      ammoInventory := Initial();
      this.isLocal := isLocal;
      this.hudInScene := hudInScene;
      notifications := if isLocal && hudInScene then [Counts(Initial())] else [];
    }

    /** The HUD, when there is one, receives the four current counts. */
    method NotifyAmmoChanged()
      requires Valid()
      modifies this`notifications
      ensures notifications == old(notifications) + if hudInScene then [Counts(ammoInventory)] else []
    {
      if hudInScene {
        notifications := notifications + [Counts(ammoInventory)];
      }
    }

    method UseAmmo(t: AmmoType, amount: int) returns (ok: bool)
      requires Valid()
      modifies this
      ensures Valid()
      ensures (ok, ammoInventory) == UseResult(old(ammoInventory), t, amount)
      ensures notifications == old(notifications) +
        (if ok && t != None && isLocal && hudInScene then [Counts(ammoInventory)] else [])
    {
      ghost var outcome := UseResult(ammoInventory, t, amount);
      if t == None {
        return true;
      }
      if !HasAmmo(ammoInventory, t, amount) {
        return false;
      }
      ammoInventory := ammoInventory[t := ammoInventory[t] - amount];
      assert ammoInventory == outcome.1;
      if isLocal {
        NotifyAmmoChanged();
      }
      ok := true;
    }

    method AddAmmo(t: AmmoType, amount: int) returns (ok: bool)
      requires Valid()
      modifies this
      ensures Valid()
      ensures (ok, ammoInventory) == AddResult(old(ammoInventory), t, amount)
      ensures notifications == old(notifications) +
        (if ok && isLocal && hudInScene then [Counts(ammoInventory)] else [])
    {
      if t == None {
        return false;
      }
      var current := GetAmmo(ammoInventory, t);
      var max := GetMaxAmmo(t);
      if current >= max {
        return false;
      }
      var newAmount := Min(current + amount, max);
      ammoInventory := ammoInventory[t := newAmount];
      if isLocal {
        NotifyAmmoChanged();
      }
      ok := true;
    }

    method SetAmmo(t: AmmoType, amount: int)
      requires Valid()
      modifies this
      ensures Valid()
      ensures ammoInventory == SetResult(old(ammoInventory), t, amount)
      ensures notifications == old(notifications) +
        (if t != None && isLocal && hudInScene then [Counts(ammoInventory)] else [])
    {
      if t == None {
        return;
      }
      var max := GetMaxAmmo(t);
      ammoInventory := ammoInventory[t := Clamp(amount, 0, max)];
      if isLocal {
        NotifyAmmoChanged();
      }
    }

    /** GetAllAmmo returns a copy of the dictionary. */
    method GetAllAmmo() returns (copy: Inventory)
      requires Valid()
      ensures copy == ammoInventory && Complete(copy)
    {
      copy := ammoInventory;
    }

    method SyncAmmoFromServer(server: map<string, int>)
      requires Valid()
      modifies this
      ensures Valid()
      ensures ammoInventory == SyncResult(old(ammoInventory), server)
      ensures notifications == old(notifications) +
        (if SyncMatched(server) && isLocal && hudInScene then [Counts(ammoInventory)] else [])
    {
      var changed := false;
      if "pistol" in server {
        ammoInventory := ammoInventory[PistolAmmo := server["pistol"]];
        changed := true;
      }
      if "rifle" in server {
        ammoInventory := ammoInventory[RifleAmmo := server["rifle"]];
        changed := true;
      }
      if "sniper" in server {
        ammoInventory := ammoInventory[SniperAmmo := server["sniper"]];
        changed := true;
      }
      if "shotgun" in server {
        ammoInventory := ammoInventory[ShotgunShells := server["shotgun"]];
        changed := true;
      }
      if changed && isLocal {
        NotifyAmmoChanged();
      }
    }
  }
}
