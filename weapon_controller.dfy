/** Client-side weapon state (WeaponController.cs): five fields the server
    owns, an optimistic ammo prediction on firing, reload as a flag the
    server flips, and a remembered triple that edge-triggers HUD refreshes. */
module Weapon {
  import opened Wrappers
  import opened Geometry
  import opened Outbound
  import opened InventorySlots

  /** The server's weapon snapshot; the model keeps every field, though only
      five are read. The float fields are reals. */
  datatype WeaponState = WeaponState(
    weaponName: string,
    weaponType: string,
    ammoType: string,
    currentAmmo: int,
    magazineCapacity: int,
    reserveAmmo: int,
    isReloading: bool,
    reloadTimeRemaining: real,
    damage: real,
    fireRate: real)

  /** The five fields the controller mirrors. */
  datatype Magazine = Magazine(
    weaponName: string,
    currentAmmo: int,
    magazineCapacity: int,
    reserveAmmo: int,
    isReloading: bool)

  /** The values last shown: current ammo, reserve ammo, reloading. */
  datatype LastSeen = LastSeen(currentAmmo: int, reserveAmmo: int, isReloading: bool)

  /** The fire point's world position and its `up` direction. */
  datatype FirePoint = FirePoint(position: Vec3, up: Vec2)

  /** The inputs of one frame: left button pressed this frame, held, R
      pressed, and the name of the Player-tagged collider a melee raycast
      would hit (the raycast itself belongs to the engine). */
  datatype WeaponInput = WeaponInput(shootPressed: bool, shootHeld: bool, reloadPressed: bool, meleeHit: Option<string>)

  /** Damage of a melee punch. */
  const MeleeDamage: real := 15.0

  /** The part of a snapshot the controller stores. */
  function Snapshot(state: WeaponState): (m: Magazine)
    ensures m.weaponName == state.weaponName && m.currentAmmo == state.currentAmmo
    ensures m.magazineCapacity == state.magazineCapacity && m.reserveAmmo == state.reserveAmmo
    ensures m.isReloading == state.isReloading
  {
    Magazine(state.weaponName, state.currentAmmo, state.magazineCapacity, state.reserveAmmo, state.isReloading)
  }

  /** The values the change tracker compares against. */
  function Seen(m: Magazine): LastSeen {
    LastSeen(m.currentAmmo, m.reserveAmmo, m.isReloading)
  }

  /** The optimistic prediction of a shot: one round fewer when there is
      one and no reload is under way, otherwise no change. */
  function PredictShot(m: Magazine): (r: Magazine)
    ensures r == m.(currentAmmo := r.currentAmmo)
    ensures r.currentAmmo == m.currentAmmo - 1 <==> m.currentAmmo > 0 && !m.isReloading
    ensures r.currentAmmo != m.currentAmmo - 1 ==> r == m
    ensures r.currentAmmo >= 0 <==> m.currentAmmo >= 0
  {
    if m.currentAmmo > 0 && !m.isReloading then m.(currentAmmo := m.currentAmmo - 1) else m
  }

  /** UpdateWeaponState on a present snapshot: the five fields are taken
      as they come, and the flag reports whether any of them differed. */
  function ApplySnapshot(m: Magazine, state: WeaponState): (r: (Magazine, bool))
    ensures r.0 == Snapshot(state)
    ensures r.1 <==> m != Snapshot(state)
  {
    var changed :=
      m.weaponName != state.weaponName ||
      m.currentAmmo != state.currentAmmo ||
      m.magazineCapacity != state.magazineCapacity ||
      m.reserveAmmo != state.reserveAmmo ||
      m.isReloading != state.isReloading;
    (Snapshot(state), changed)
  }

  /** Applying the same snapshot twice reports a change at most once. */
  lemma ApplySnapshotTwice(m: Magazine, state: WeaponState)
    ensures var (m1, _) := ApplySnapshot(m, state);
      ApplySnapshot(m1, state) == (m1, false)
  {
  }

  /** Whatever was predicted, the snapshot wins: after a shot and a
      snapshot, the state is the snapshot's. */
  lemma SnapshotOverridesPrediction(m: Magazine, state: WeaponState)
    ensures ApplySnapshot(PredictShot(m), state).0 == Snapshot(state)
    ensures m.currentAmmo > 0 && !m.isReloading && state.currentAmmo == m.currentAmmo ==>
      ApplySnapshot(PredictShot(m), state).1
  {
  }

  /** While a reload is under way no shot is predicted. */
  lemma ReloadBlocksPrediction(m: Magazine)
    ensures PredictShot(m.(isReloading := true)) == m.(isReloading := true)
  {
  }

  /** CheckForUIUpdates: when any remembered value differs, all three are
      brought up to date and a refresh is triggered. */
  function Refresh(last: LastSeen, m: Magazine): (r: (LastSeen, bool))
    ensures r.0 == Seen(m)
    ensures r.1 <==> last != Seen(m)
  {
    if m.currentAmmo != last.currentAmmo || m.reserveAmmo != last.reserveAmmo || m.isReloading != last.isReloading
    then (Seen(m), true)
    else (last, false)
  }

  /** A second check with nothing changed in between triggers nothing. */
  lemma RefreshTwice(last: LastSeen, m: Magazine)
    ensures Refresh(Refresh(last, m).0, m) == (Seen(m), false)
  {
  }

  /** HandleWeaponInput: what one frame of input does to the magazine and
      what it sends. A Hand punches a hit player; a Weapon shoots while the
      button is pressed or held, then asks to reload on R. */
  function WeaponInputEffect(m: Magazine, firePoint: Option<FirePoint>, item: Option<InventoryItem>, input: WeaponInput): (r: (Magazine, seq<Command>))
    ensures r.0 == m.(currentAmmo := r.0.currentAmmo)
    ensures item.None? ==> r == (m, [])
    ensures r.0 != m ==>
      && item.Some? && item.value.itemType == "Weapon" && firePoint.Some?
      && (input.shootPressed || input.shootHeld) && r.0 == PredictShot(m)
    ensures item.Some? && item.value.itemType == "Hand" ==>
      r.0 == m && r.1 == (if input.shootPressed && input.meleeHit.Some? then [MeleeAttack(input.meleeHit.value, MeleeDamage)] else [])
    ensures item.Some? && item.value.itemType == "Weapon" ==>
      var fires := (input.shootPressed || input.shootHeld) && firePoint.Some?;
      && r.0 == (if fires then PredictShot(m) else m)
      && (fires <==> |r.1| > 0 && r.1[0].ShootRequest?)
      && (fires ==> r.1[0] == ShootRequest(firePoint.value.position, firePoint.value.up))
      && (ReloadRequest in r.1 <==> input.reloadPressed && !m.isReloading)
      && |r.1| == (if fires then 1 else 0) + (if input.reloadPressed && !m.isReloading then 1 else 0)
    ensures item.Some? && item.value.itemType != "Hand" && item.value.itemType != "Weapon" ==> r == (m, [])
    ensures ReloadRequest in r.1 ==> input.reloadPressed && !m.isReloading
    ensures |r.1| <= 2
  {
    match item
    case None => (m, [])
    case Some(it) =>
      if it.itemType == "Hand" then
        if input.shootPressed && input.meleeHit.Some? then (m, [MeleeAttack(input.meleeHit.value, MeleeDamage)]) else (m, [])
      else if it.itemType == "Weapon" then
        var (m1, shots) :=
          if (input.shootPressed || input.shootHeld) && firePoint.Some? then
            (PredictShot(m), [ShootRequest(firePoint.value.position, firePoint.value.up)])
          else (m, []);
        (m1, shots + if input.reloadPressed && !m1.isReloading then [ReloadRequest] else [])
      else (m, [])
  }

  /** The MonoBehaviour. `sent` is what it asked the server for. */
  class WeaponController {
    const isLocal: bool
    var currentAmmo: int
    var magazineCapacity: int
    var reserveAmmo: int
    var isReloading: bool
    var currentWeaponName: string
    var lastCurrentAmmo: int
    var lastReserveAmmo: int
    var lastReloadingState: bool
    var currentFirePoint: Option<FirePoint>
    var sent: seq<Command>

    function Current(): Magazine
      reads this
    {
      Magazine(currentWeaponName, currentAmmo, magazineCapacity, reserveAmmo, isReloading)
    }

    function Last(): LastSeen
      reads this
    {
      LastSeen(lastCurrentAmmo, lastReserveAmmo, lastReloadingState)
    }

    /** The field initialisers; Start decides `isLocal`. */
    constructor(isLocal: bool)
      ensures this.isLocal == isLocal
      ensures Current() == Magazine("", 0, 0, 0, false)
      ensures Last() == LastSeen(-1, -1, false)
      ensures currentFirePoint == None && sent == []
    {
      this.isLocal := isLocal;
      currentAmmo := 0;
      magazineCapacity := 0;
      reserveAmmo := 0;
      isReloading := false;
      currentWeaponName := "";
      lastCurrentAmmo := -1;
      lastReserveAmmo := -1;
      lastReloadingState := false;
      currentFirePoint := None;
      sent := [];
    }

    method RequestShoot()
      modifies this`currentAmmo, this`sent
      ensures currentFirePoint.None? ==> currentAmmo == old(currentAmmo) && sent == old(sent)
      ensures currentFirePoint.Some? ==>
        && Current() == PredictShot(old(Current()))
        && sent == old(sent) + [ShootRequest(currentFirePoint.value.position, currentFirePoint.value.up)]
    {
      if currentFirePoint.None? {
        return;
      }
      if currentAmmo > 0 && !isReloading {
        currentAmmo := currentAmmo - 1;
      }
      sent := sent + [ShootRequest(currentFirePoint.value.position, currentFirePoint.value.up)];
    }

    method RequestReload()
      modifies this`sent
      ensures sent == old(sent) + if isReloading then [] else [ReloadRequest]
    {
      if isReloading {
        return;
      }
      sent := sent + [ReloadRequest];
    }

    /** A snapshot from the server (absent: nothing happens). */
    method UpdateWeaponState(state: Option<WeaponState>) returns (changed: bool)
      modifies this`currentWeaponName, this`currentAmmo, this`magazineCapacity, this`reserveAmmo, this`isReloading
      ensures state.None? ==> !changed && Current() == old(Current())
      ensures state.Some? ==> (Current(), changed) == ApplySnapshot(old(Current()), state.value)
    {
      if state.None? {
        return false;
      }
      var s := state.value;
      changed :=
        currentWeaponName != s.weaponName ||
        currentAmmo != s.currentAmmo ||
        magazineCapacity != s.magazineCapacity ||
        reserveAmmo != s.reserveAmmo ||
        isReloading != s.isReloading;
      currentWeaponName := s.weaponName;
      currentAmmo := s.currentAmmo;
      magazineCapacity := s.magazineCapacity;
      reserveAmmo := s.reserveAmmo;
      isReloading := s.isReloading;
    }

    method OnReloadStarted(weaponName: string, reloadTime: real)
      modifies this`isReloading
      ensures Current() == old(Current()).(isReloading := true)
    {
      isReloading := true;
    }

    method OnReloadCompleted()
      modifies this`isReloading
      ensures Current() == old(Current()).(isReloading := false)
    {
      isReloading := false;
    }

    method SetFirePoint(firePoint: Option<FirePoint>)
      modifies this`currentFirePoint
      ensures currentFirePoint == firePoint
    {
      currentFirePoint := firePoint;
    }

    method CheckForUIUpdates() returns (triggered: bool)
      modifies this`lastCurrentAmmo, this`lastReserveAmmo, this`lastReloadingState
      ensures (Last(), triggered) == Refresh(old(Last()), Current())
    {
      triggered := false;
      if currentAmmo != lastCurrentAmmo || reserveAmmo != lastReserveAmmo || isReloading != lastReloadingState {
        lastCurrentAmmo := currentAmmo;
        lastReserveAmmo := reserveAmmo;
        lastReloadingState := isReloading;
        triggered := true;
      }
    }

    /** HandleWeaponInput, given the inventory's current item. */
    method HandleWeaponInput(item: Option<InventoryItem>, input: WeaponInput)
      modifies this`currentAmmo, this`sent
      ensures var (m, cmds) := WeaponInputEffect(old(Current()), currentFirePoint, item, input);
        Current() == m && sent == old(sent) + cmds
    {
      if item.None? {
        return;
      }
      if item.value.itemType == "Hand" {
        if input.shootPressed && input.meleeHit.Some? {
          sent := sent + [MeleeAttack(input.meleeHit.value, MeleeDamage)];
        }
      } else if item.value.itemType == "Weapon" {
        if input.shootPressed || input.shootHeld {
          RequestShoot();
        }
        ghost var afterShot := sent;
        if input.reloadPressed {
          RequestReload();
        }
        assert sent == afterShot + if input.reloadPressed && !isReloading then [ReloadRequest] else [];
      }
    }

    /** Update: input and the refresh check run only for the local player. */
    method Update(item: Option<InventoryItem>, input: WeaponInput) returns (triggered: bool)
      modifies this`currentAmmo, this`sent, this`lastCurrentAmmo, this`lastReserveAmmo, this`lastReloadingState
      ensures !isLocal ==> !triggered && Current() == old(Current()) && sent == old(sent) && Last() == old(Last())
      ensures isLocal ==>
        var (m, cmds) := WeaponInputEffect(old(Current()), currentFirePoint, item, input);
        && Current() == m && sent == old(sent) + cmds
        && (Last(), triggered) == Refresh(old(Last()), m)
    {
      if !isLocal {
        return false;
      }
      HandleWeaponInput(item, input);
      triggered := CheckForUIUpdates();
    }
  }

  /** A reload started by the server, then a shot before it completes:
      the shot is still requested but no round is predicted away. */
  method ReloadThenShoot(m: Magazine, firePoint: FirePoint) returns (before: int, after: int, sent: seq<Command>)
    requires m.currentAmmo > 0
    ensures before == after == m.currentAmmo
    ensures sent == [ShootRequest(firePoint.position, firePoint.up)]
  {
    var w := new WeaponController(true);
    var state := WeaponState(m.weaponName, "", "", m.currentAmmo, m.magazineCapacity, m.reserveAmmo, false, 0.0, 0.0, 0.0);
    var changed := w.UpdateWeaponState(Some(state));
    w.SetFirePoint(Some(firePoint));
    w.OnReloadStarted(m.weaponName, 2.0);
    before := w.currentAmmo;
    w.RequestShoot();
    after := w.currentAmmo;
    sent := w.sent;
  }

  /** The same Rifle snapshot twice: one change is reported, then none. */
  method RifleSnapshotTwice() returns (first: bool, second: bool)
    ensures first && !second
  {
    var w := new WeaponController(true);
    var state := WeaponState("Rifle", "", "", 30, 30, 60, false, 0.0, 0.0, 0.0);
    first := w.UpdateWeaponState(Some(state));
    second := w.UpdateWeaponState(Some(state));
  }
}
