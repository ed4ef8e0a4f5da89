/** An ammo pickup lying in the world (AmmoPickup.cs): the local player
    touching it sends one pickup request, guarded by a one-shot latch. */
module Pickup {
  import opened Wrappers
  import opened AmmoConfig
  import opened AmmoInventory
  import opened Outbound

  /** The collider that entered the trigger: whether it is tagged "Player"
      and whether its object is this client's own player. */
  datatype Collider = Collider(isPlayer: bool, isLocalPlayer: bool)

  /** The server's name for an ammo type; anything that is not a real type
      falls back to "pistol". */
  function ConvertAmmoTypeToServerString(t: AmmoType): (r: string)
    ensures t != AmmoType.None ==> r == SyncKey(t)
    ensures t == AmmoType.None ==> r == "pistol"
    ensures r in {"pistol", "rifle", "sniper", "shotgun"}
  {
    match t
    case PistolAmmo => "pistol"
    case RifleAmmo => "rifle"
    case SniperAmmo => "sniper"
    case ShotgunShells => "shotgun"
    case None => "pistol"
  }

  /** The request this pickup sends, given the id of its NetworkIdentity. */
  function Request(id: string, ammoType: AmmoType, ammoAmount: int): Command {
    AmmoPickup(id, ConvertAmmoTypeToServerString(ammoType), ammoAmount)
  }

  /** OnTriggerEnter2D as a rule: the new latch and what is sent. Nothing
      happens once picked up, for a collider that is not a player, for a
      remote player, or without a network id; otherwise the latch is set
      and exactly one request is sent. */
  function Enter(pickedUp: bool, other: Collider, networkId: Option<string>, ammoType: AmmoType, ammoAmount: int): (r: (bool, seq<Command>))
    ensures pickedUp ==> r == (true, [])
    ensures !pickedUp && (!other.isPlayer || !other.isLocalPlayer || networkId.None?) ==> r == (false, [])
    ensures !pickedUp && other.isPlayer && other.isLocalPlayer && networkId.Some? ==>
      r == (true, [Request(networkId.value, ammoType, ammoAmount)])
    ensures r.1 != [] <==> !pickedUp && r.0
    ensures r.1 != [] ==> networkId.Some? && r.1 == [Request(networkId.value, ammoType, ammoAmount)]
  {
    if pickedUp then (true, [])
    else if !other.isPlayer then (false, [])
    else if !other.isLocalPlayer then (false, [])
    else match networkId
      case None => (false, [])
      case Some(id) => (true, [Request(id, ammoType, ammoAmount)])
  }

  /** A run of trigger entries, in order. */
  function EnterAll(pickedUp: bool, others: seq<Collider>, networkId: Option<string>, ammoType: AmmoType, ammoAmount: int): (r: (bool, seq<Command>))
    decreases |others|
  {
    if |others| == 0 then (pickedUp, [])
    else
      var (p1, sent1) := Enter(pickedUp, others[0], networkId, ammoType, ammoAmount);
      var (p2, sent2) := EnterAll(p1, others[1..], networkId, ammoType, ammoAmount);
      (p2, sent1 + sent2)
  }

  /** However many colliders enter, a pickup sends at most one request in
      its lifetime, and it has sent one exactly when the latch is set. */
  lemma {:induction false} AtMostOneRequest(pickedUp: bool, others: seq<Collider>, networkId: Option<string>, ammoType: AmmoType, ammoAmount: int)
    ensures var (p, sent) := EnterAll(pickedUp, others, networkId, ammoType, ammoAmount);
      && (pickedUp ==> p && sent == [])
      && (!pickedUp ==> |sent| <= 1 && (|sent| == 1 <==> p))
      && (sent != [] ==> networkId.Some? && sent == [Request(networkId.value, ammoType, ammoAmount)])
    decreases |others|
  {
    if |others| > 0 {
      var (p1, sent1) := Enter(pickedUp, others[0], networkId, ammoType, ammoAmount);
      AtMostOneRequest(p1, others[1..], networkId, ammoType, ammoAmount);
    }
  }

  /** The MonoBehaviour. `networkId` is the id of its NetworkIdentity, if
      it has one; `sent` is what it asked the server for. */
  class AmmoPickup {
    const ammoType: AmmoType
    const ammoAmount: int
    const networkId: Option<string>
    var hasBeenPickedUp: bool
    var sent: seq<Command>

    /** The latch is set exactly when the one request has gone out. */
    ghost predicate Valid()
      reads this
    {
      && (!hasBeenPickedUp ==> sent == [])
      && (hasBeenPickedUp ==> networkId.Some? && sent == [Request(networkId.value, ammoType, ammoAmount)])
    }

    constructor(ammoType: AmmoType, ammoAmount: int, networkId: Option<string>)
      ensures this.ammoType == ammoType && this.ammoAmount == ammoAmount && this.networkId == networkId
      ensures Valid() && !hasBeenPickedUp && sent == []
    {
      this.ammoType := ammoType;
      this.ammoAmount := ammoAmount;
      this.networkId := networkId;
      hasBeenPickedUp := false;
      sent := [];
    }

    method OnTriggerEnter2D(other: Collider)
      requires Valid()
      modifies this
      ensures Valid()
      ensures var (p, cmds) := Enter(old(hasBeenPickedUp), other, networkId, ammoType, ammoAmount);
        hasBeenPickedUp == p && sent == old(sent) + cmds
    {
      if hasBeenPickedUp {
        return;
      }
      if !other.isPlayer {
        return;
      }
      if !other.isLocalPlayer {
        return;
      }
      if networkId.None? {
        return;
      }
      hasBeenPickedUp := true;
      var serverAmmoType := ConvertAmmoTypeToServerString(ammoType);
      sent := sent + [AmmoPickup(networkId.value, serverAmmoType, ammoAmount)];
    }
  }
}
