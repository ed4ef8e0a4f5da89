/** The client's mirror of the server's world (NetworkClient.cs): a registry
    of players and server-spawned objects keyed by server id, changed by one
    handler per inbound message tag. */
module Networking {
  import opened Wrappers
  import opened Geometry
  import opened Health
  import opened ServerObjectCatalogue

  datatype EntityKind = PlayerObject | SpawnedObject(name: string)

  /** A GameObject held by the registry. `handle` is its identity: the
      number of objects instantiated before it. `facing` is the direction
      its rotation was last derived from. `health` is its PlayerHealth
      component, if its prefab has one. */
  datatype Entity = Entity(
    handle: nat,
    kind: EntityKind,
    position: Vec3,
    facing: Option<Vec2>,
    active: bool,
    health: Option<HealthComponent>)

  /** A player entry of an `initialState` or `spawn` message. */
  datatype PlayerInfo = PlayerInfo(id: string, position: Vec2)

  /** A bullet instantiated for a `shoot` message; it is never registered. */
  datatype Shot = Shot(position: Vec2, direction: Vec2)

  /** The inbound messages, one constructor per tag of the dispatch switch.
      `Unrecognised` carries any other tag. */
  datatype Message =
    | InitialState(sessionId: string, others: seq<PlayerInfo>)
    | Spawn(player: PlayerInfo)
    | UpdatePosition(sessionId: string, position: Vec2)
    | PlayerLeft(sessionId: string)
    | Aim(sessionId: string, direction: Vec2)
    | Shoot(position: Vec2, direction: Vec2)
    | HealthUpdate(sessionId: string, health: int, maxHealth: int)
    | PlayerKilled(sessionId: string)
    | ServerSpawn(name: string, id: string, position: Vec2, heading: Option<Vec2>)
    | ServerUnspawn(id: string)
    | BulletMove(id: string, position: Vec2)
    | Unrecognised(tag: string)

  /** The scene assets the client is configured with. */
  datatype Config = Config(playerPrefab: Prefab, spawnables: seq<ServerObjectData>)

  /** The client's state: the session id once known, the registry, the local
      player (by handle), the last position sent, the number of objects
      instantiated so far, and the unregistered bullets. */
  datatype ClientState = ClientState(
    clientId: Option<string>,
    serverObjects: map<string, Entity>,
    localPlayer: Option<nat>,
    lastSentPosition: Vec3,
    instantiated: nat,
    looseBullets: seq<Shot>)

  /** Every registered object and the local player were instantiated before
      the next handle, so a new instance never aliases a registered one. */
  ghost predicate WellFormed(s: ClientState) {
    && (forall k :: k in s.serverObjects ==> s.serverObjects[k].handle < s.instantiated)
    && (s.localPlayer.Some? ==> s.localPlayer.value < s.instantiated)
  }

  /** `r` is `s` except, perhaps, for the object registered under `id`. */
  ghost predicate OnlyEntityDiffers(s: ClientState, r: ClientState, id: string) {
    && r.serverObjects.Keys == s.serverObjects.Keys
    && (forall k :: k in s.serverObjects && k != id ==> r.serverObjects[k] == s.serverObjects[k])
    && r.(serverObjects := s.serverObjects) == s
  }

  /** The ids of a list of player entries. */
  function Ids(ps: seq<PlayerInfo>): (r: set<string>)
    ensures forall i :: 0 <= i < |ps| ==> ps[i].id in r
    ensures forall x :: x in r ==> exists i :: 0 <= i < |ps| && ps[i].id == x
    decreases |ps|
  {
    if |ps| == 0 then {}
    else
      var r := Ids(ps[..|ps| - 1]) + {ps[|ps| - 1].id};
      assert forall i :: 0 <= i < |ps| - 1 ==> ps[..|ps| - 1][i] == ps[i];
      r
  }

  /** A fresh instance of a prefab, with its PlayerHealth after Awake, that
      is, at the prefab's own serialised maximum. */
  function Instantiate(prefab: Prefab, handle: nat, kind: EntityKind): (e: Entity)
    ensures e.handle == handle && e.kind == kind && e.position == prefab.origin
    ensures e.active && e.facing == None
    ensures e.health.Some? <==> prefab.hasPlayerHealth
    ensures e.health.Some? ==>
      && e.health.value.maxHealth == prefab.maxHealth
      && e.health.value.currentHealth == e.health.value.maxHealth
      && (!e.health.value.IsDead() <==> prefab.maxHealth > 0)
  {
    Entity(handle, kind, prefab.origin, None, true,
           if prefab.hasPlayerHealth then Some(Awake(prefab.maxHealth)) else None)
  }

  /** The state a client starts from. */
  function InitialClient(): (s: ClientState)
    ensures WellFormed(s)
    ensures s.clientId == None && s.serverObjects == map[] && s.localPlayer == None
  {
    ClientState(None, map[], None, Vec3(0.0, 0.0, 0.0), 0, [])
  }

  /** SpawnPlayer: a registered id is left alone; otherwise a new player
      object is registered and, for the local player, remembered together
      with its position as the last position sent. */
  function AddPlayer(s: ClientState, cfg: Config, id: string, isLocal: bool): (r: ClientState)
    ensures WellFormed(s) ==> WellFormed(r)
    ensures id in s.serverObjects ==> r == s
    ensures id !in s.serverObjects ==>
      && r.serverObjects.Keys == s.serverObjects.Keys + {id}
      && (forall k :: k in s.serverObjects ==> r.serverObjects[k] == s.serverObjects[k])
      && r.serverObjects[id] == Instantiate(cfg.playerPrefab, s.instantiated, PlayerObject)
      && r.instantiated == s.instantiated + 1
    ensures id !in s.serverObjects && isLocal ==>
      r.localPlayer == Some(r.serverObjects[id].handle) && r.lastSentPosition == r.serverObjects[id].position
    ensures id in s.serverObjects || !isLocal ==>
      r.localPlayer == s.localPlayer && r.lastSentPosition == s.lastSentPosition
    ensures r.clientId == s.clientId && r.looseBullets == s.looseBullets
  {
    if id in s.serverObjects then s
    else
      var obj := Instantiate(cfg.playerPrefab, s.instantiated, PlayerObject);
      var s1 := s.(serverObjects := s.serverObjects[id := obj], instantiated := s.instantiated + 1);
      if isLocal then s1.(localPlayer := Some(obj.handle), lastSentPosition := obj.position)
      else s1
  }

  /** The position a `spawn` or `initialState` entry puts a player at. */
  function Placed(p: PlayerInfo): Vec3 {
    Vec3(p.position.x, p.position.y, 0.0)
  }

  /** HandleSpawn: SpawnPlayer for a remote player, then the registered
      object for that id (new or already there) is moved to the entry's
      position. */
  function OnSpawn(s: ClientState, cfg: Config, p: PlayerInfo): (r: ClientState)
    ensures WellFormed(s) ==> WellFormed(r)
  {
    var s1 := AddPlayer(s, cfg, p.id, false);
    s1.(serverObjects := s1.serverObjects[p.id := s1.serverObjects[p.id].(position := Placed(p))])
  }

  /** A spawn entry registers its id at the entry's position: an object
      already registered under it only moves, a new one is a player object;
      every other object, and everything outside the registry but the
      counter, stays as it was. */
  lemma OnSpawnEffect(s: ClientState, cfg: Config, p: PlayerInfo)
    ensures var r := OnSpawn(s, cfg, p);
      && r.serverObjects.Keys == s.serverObjects.Keys + {p.id}
      && r.serverObjects[p.id].position == Placed(p)
      && (p.id in s.serverObjects ==>
            && OnlyEntityDiffers(s, r, p.id)
            && r.serverObjects[p.id] == s.serverObjects[p.id].(position := Placed(p)))
      && (p.id !in s.serverObjects ==>
            && r.serverObjects[p.id].kind == PlayerObject
            && r.serverObjects[p.id].handle == s.instantiated)
      && (forall k :: k in s.serverObjects && k != p.id ==> r.serverObjects[k] == s.serverObjects[k])
      && r.clientId == s.clientId && r.localPlayer == s.localPlayer
      && r.lastSentPosition == s.lastSentPosition && r.looseBullets == s.looseBullets
      && r.instantiated >= s.instantiated
  {
  }

  /** The loop of HandleInitialState: OnSpawn for each entry in order. */
  function PlaceAll(s: ClientState, cfg: Config, ps: seq<PlayerInfo>): (r: ClientState)
    ensures WellFormed(s) ==> WellFormed(r)
    decreases |ps|
  {
    if |ps| == 0 then s
    else OnSpawn(PlaceAll(s, cfg, ps[..|ps| - 1]), cfg, ps[|ps| - 1])
  }

  /** The loop registers exactly the listed ids, changes at most the position
      of an object that was already registered, leaves unlisted objects
      alone, and touches nothing outside the registry but the counter. */
  lemma {:induction false} PlaceAllFrame(s: ClientState, cfg: Config, ps: seq<PlayerInfo>)
    ensures var r := PlaceAll(s, cfg, ps);
      && r.serverObjects.Keys == s.serverObjects.Keys + Ids(ps)
      && (forall k :: k in s.serverObjects ==>
            r.serverObjects[k] == s.serverObjects[k].(position := r.serverObjects[k].position))
      && (forall k :: k in s.serverObjects && k !in Ids(ps) ==> r.serverObjects[k] == s.serverObjects[k])
      && r.clientId == s.clientId && r.localPlayer == s.localPlayer
      && r.lastSentPosition == s.lastSentPosition && r.looseBullets == s.looseBullets
      && r.instantiated >= s.instantiated
    decreases |ps|
  {
    if |ps| > 0 {
      PlaceAllFrame(s, cfg, ps[..|ps| - 1]);
      OnSpawnEffect(PlaceAll(s, cfg, ps[..|ps| - 1]), cfg, ps[|ps| - 1]);
    }
  }

  /** Placing one more entry is one more OnSpawn. */
  lemma PlaceAllSnoc(s: ClientState, cfg: Config, ps: seq<PlayerInfo>, p: PlayerInfo)
    ensures PlaceAll(s, cfg, ps + [p]) == OnSpawn(PlaceAll(s, cfg, ps), cfg, p)
  {
    assert (ps + [p])[..|ps|] == ps;
  }

  /** A spawn entry for one id leaves every other registered object alone. */
  lemma OnSpawnKeepsOther(s: ClientState, cfg: Config, p: PlayerInfo, k: string)
    requires k in s.serverObjects && k != p.id
    ensures k in OnSpawn(s, cfg, p).serverObjects
    ensures OnSpawn(s, cfg, p).serverObjects[k] == s.serverObjects[k]
  {
    OnSpawnEffect(s, cfg, p);
  }

  /** After the loop, a player stands where the last entry with its id put it. */
  lemma {:induction false} PlaceAllLastEntryWins(s: ClientState, cfg: Config, ps: seq<PlayerInfo>, i: nat)
    requires i < |ps|
    requires forall j :: i < j < |ps| ==> ps[j].id != ps[i].id
    ensures ps[i].id in PlaceAll(s, cfg, ps).serverObjects
    ensures PlaceAll(s, cfg, ps).serverObjects[ps[i].id].position == Placed(ps[i])
  {
    var n := |ps| - 1;
    var prefix := ps[..n];
    var mid := PlaceAll(s, cfg, prefix);
    assert PlaceAll(s, cfg, ps) == OnSpawn(mid, cfg, ps[n]);
    OnSpawnEffect(mid, cfg, ps[n]);
    if i < n {
      forall j | i < j < |prefix|
        ensures prefix[j].id != prefix[i].id
      {
        assert prefix[j] == ps[j];
      }
      assert prefix[i] == ps[i];
      PlaceAllLastEntryWins(s, cfg, prefix, i);
      OnSpawnKeepsOther(mid, cfg, ps[n], ps[i].id);
    }
  }

  /** HandleInitialState: records the session id, spawns the local player,
      then places every other player. */
  function OnInitialState(s: ClientState, cfg: Config, sessionId: string, others: seq<PlayerInfo>): (r: ClientState)
    ensures WellFormed(s) ==> WellFormed(r)
    ensures r.clientId == Some(sessionId)
    ensures r.serverObjects.Keys == s.serverObjects.Keys + {sessionId} + Ids(others)
    ensures sessionId in r.serverObjects && forall p :: p in others ==> p.id in r.serverObjects
    ensures sessionId !in s.serverObjects ==>
      r.localPlayer == Some(r.serverObjects[sessionId].handle) && r.serverObjects[sessionId].kind == PlayerObject
    ensures sessionId in s.serverObjects ==>
      r.localPlayer == s.localPlayer && r.lastSentPosition == s.lastSentPosition
    ensures forall k :: k in s.serverObjects && k != sessionId && k !in Ids(others) ==>
      r.serverObjects[k] == s.serverObjects[k]
    ensures r.looseBullets == s.looseBullets
  {
    var s1 := AddPlayer(s.(clientId := Some(sessionId)), cfg, sessionId, true);
    PlaceAllFrame(s1, cfg, others);
    PlaceAll(s1, cfg, others)
  }

  /** HandlePositionUpdate: ignored for the client's own id and for unknown
      ids; otherwise only x and y of that object change. */
  function OnUpdatePosition(s: ClientState, id: string, pos: Vec2): (r: ClientState)
    ensures s.clientId == Some(id) || id !in s.serverObjects ==> r == s
    ensures OnlyEntityDiffers(s, r, id)
    ensures s.clientId != Some(id) && id in s.serverObjects ==>
      var e := s.serverObjects[id];
      r.serverObjects[id] == e.(position := Vec3(pos.x, pos.y, e.position.z))
    ensures WellFormed(s) ==> WellFormed(r)
  {
    if s.clientId == Some(id) || id !in s.serverObjects then s
    else
      var e := s.serverObjects[id];
      s.(serverObjects := s.serverObjects[id := e.(position := Vec3(pos.x, pos.y, e.position.z))])
  }

  /** HandlePlayerLeft: removes exactly that id if it is registered. */
  function OnPlayerLeft(s: ClientState, id: string): (r: ClientState)
    ensures id !in s.serverObjects ==> r == s
    ensures r.serverObjects.Keys == s.serverObjects.Keys - {id}
    ensures forall k :: k in r.serverObjects ==> r.serverObjects[k] == s.serverObjects[k]
    ensures r.(serverObjects := s.serverObjects) == s
    ensures WellFormed(s) ==> WellFormed(r)
  {
    if id in s.serverObjects then s.(serverObjects := s.serverObjects - {id}) else s
  }

  /** HandleAimUpdate: a registered object (the client's own included) turns
      to face the direction; unknown ids are ignored. */
  function OnAim(s: ClientState, id: string, dir: Vec2): (r: ClientState)
    ensures id !in s.serverObjects ==> r == s
    ensures OnlyEntityDiffers(s, r, id)
    ensures id in s.serverObjects ==> r.serverObjects[id] == s.serverObjects[id].(facing := Some(dir))
    ensures WellFormed(s) ==> WellFormed(r)
  {
    if id in s.serverObjects then
      s.(serverObjects := s.serverObjects[id := s.serverObjects[id].(facing := Some(dir))])
    else s
  }

  /** HandleShoot: a bullet is instantiated but not registered. */
  function OnShoot(s: ClientState, pos: Vec2, dir: Vec2): (r: ClientState)
    ensures r.serverObjects == s.serverObjects && r.looseBullets == s.looseBullets + [Shot(pos, dir)]
    ensures r.(looseBullets := s.looseBullets) == s
  {
    s.(looseBullets := s.looseBullets + [Shot(pos, dir)])
  }

  /** HandleHealthUpdate: for a registered object with a PlayerHealth, the
      new maximum is stored first and the health is then clamped against it;
      anything else is ignored. */
  function OnHealthUpdate(s: ClientState, id: string, health: int, maxHealth: int): (r: ClientState)
    ensures id !in s.serverObjects || s.serverObjects[id].health.None? ==> r == s
    ensures OnlyEntityDiffers(s, r, id)
    ensures id in s.serverObjects && s.serverObjects[id].health.Some? ==>
      var e := s.serverObjects[id];
      var hp := r.serverObjects[id].health;
      && r.serverObjects[id] == e.(health := hp)
      && hp.Some? && hp.value.maxHealth == maxHealth
      && (maxHealth >= 0 ==> 0 <= hp.value.currentHealth <= maxHealth)
      && (0 <= health <= maxHealth ==> hp.value.currentHealth == health)
      && (0 <= maxHealth < health ==> hp.value.currentHealth == maxHealth)
      && (health < 0 <= maxHealth ==> hp.value.currentHealth == 0)
      && (health <= 0 ==> hp.value.IsDead())
    ensures WellFormed(s) ==> WellFormed(r)
  {
    if id !in s.serverObjects then s
    else
      var e := s.serverObjects[id];
      match e.health
      case None => s
      case Some(hp) =>
        var hp' := hp.(maxHealth := maxHealth).SetHealth(health);
        s.(serverObjects := s.serverObjects[id := e.(health := Some(hp'))])
  }

  /** HandlePlayerKilled: a registered object with a PlayerHealth dies, which
      deactivates it and leaves its health as it was. */
  function OnPlayerKilled(s: ClientState, id: string): (r: ClientState)
    ensures id !in s.serverObjects || s.serverObjects[id].health.None? ==> r == s
    ensures OnlyEntityDiffers(s, r, id)
    ensures id in s.serverObjects && s.serverObjects[id].health.Some? ==>
      r.serverObjects[id] == s.serverObjects[id].(active := false)
    ensures WellFormed(s) ==> WellFormed(r)
  {
    if id in s.serverObjects && s.serverObjects[id].health.Some? then
      s.(serverObjects := s.serverObjects[id := s.serverObjects[id].(active := false)])
    else s
  }

  /** HandleServerSpawn. A registered id is a no-op. Otherwise the prefab is
      looked up by name: an ambiguous name throws from the lookup, a missing
      one throws when its prefab is read, a "Bullet" without a direction
      throws after its instance was created but before it is registered.
      Otherwise the instance is registered under the id. */
  function OnServerSpawn(s: ClientState, cfg: Config, name: string, id: string, pos: Vec2, direction: Option<Vec2>): (r: (ClientState, Outcome))
    ensures WellFormed(s) ==> WellFormed(r.0)
    ensures id in s.serverObjects ==> r == (s, Completed)
    ensures r.1.Threw? ==> r.0.serverObjects == s.serverObjects
    ensures r.1.Completed? ==> r.0.serverObjects.Keys == s.serverObjects.Keys + {id}
    ensures forall k :: k in s.serverObjects ==> r.0.serverObjects[k] == s.serverObjects[k]
    ensures id !in s.serverObjects ==>
      match GetObjectByName(cfg.spawnables, name)
      case Err(_) => r == (s, Threw(InvalidOperation))
      case Ok(None) => r == (s, Threw(NullReference))
      case Ok(Some(sod)) =>
        if name == "Bullet" && direction.None? then
          r == (s.(instantiated := s.instantiated + 1), Threw(NullReference))
        else
          && r.1 == Completed
          && r.0.serverObjects[id] == Instantiate(sod.prefab, s.instantiated, SpawnedObject(name)).(
               position := Vec3(pos.x, pos.y, 0.0),
               facing := if name == "Bullet" then direction else None)
          && r.0.serverObjects[id].kind == SpawnedObject(name)
          && r.0.serverObjects[id].handle == s.instantiated
          && r.0.serverObjects[id].position == Vec3(pos.x, pos.y, 0.0)
          && r.0.serverObjects[id].facing == (if name == "Bullet" then direction else None)
          && (r.0.serverObjects[id].health.Some? <==> sod.prefab.hasPlayerHealth)
          && r.0.instantiated == s.instantiated + 1
    ensures r.0.clientId == s.clientId && r.0.localPlayer == s.localPlayer
    ensures r.0.lastSentPosition == s.lastSentPosition && r.0.looseBullets == s.looseBullets
  {
    if id in s.serverObjects then (s, Completed)
    else
      match GetObjectByName(cfg.spawnables, name)
      case Err(fault) => (s, Threw(fault))
      case Ok(None) => (s, Threw(NullReference))
      case Ok(Some(sod)) =>
        var obj := Instantiate(sod.prefab, s.instantiated, SpawnedObject(name)).(position := Vec3(pos.x, pos.y, 0.0));
        var s1 := s.(instantiated := s.instantiated + 1);
        if name == "Bullet" then
          match direction
          case None => (s1, Threw(NullReference))
          case Some(d) => (s1.(serverObjects := s.serverObjects[id := obj.(facing := Some(d))]), Completed)
        else (s1.(serverObjects := s.serverObjects[id := obj]), Completed)
  }

  /** HandleServerUnspawn: the dictionary indexer throws for an unknown id;
      a registered id is destroyed and removed. */
  function OnServerUnspawn(s: ClientState, id: string): (r: (ClientState, Outcome))
    ensures id !in s.serverObjects ==> r == (s, Threw(KeyNotFound))
    ensures id in s.serverObjects ==> r.1 == Completed && r.0 == OnPlayerLeft(s, id)
    ensures id !in r.0.serverObjects
    ensures WellFormed(s) ==> WellFormed(r.0)
  {
    if id in s.serverObjects then (s.(serverObjects := s.serverObjects - {id}), Completed)
    else (s, Threw(KeyNotFound))
  }

  /** HandleBulletMove: any registered object is moved to (x, y, 0);
      unknown ids are ignored. */
  function OnBulletMove(s: ClientState, id: string, pos: Vec2): (r: ClientState)
    ensures id !in s.serverObjects ==> r == s
    ensures OnlyEntityDiffers(s, r, id)
    ensures id in s.serverObjects ==>
      r.serverObjects[id] == s.serverObjects[id].(position := Vec3(pos.x, pos.y, 0.0))
    ensures WellFormed(s) ==> WellFormed(r)
  {
    if id in s.serverObjects then
      s.(serverObjects := s.serverObjects[id := s.serverObjects[id].(position := Vec3(pos.x, pos.y, 0.0))])
    else s
  }

  /** The dispatch switch: each tag goes to its handler; an unrecognised tag
      falls through and changes nothing. Only serverSpawn and serverUnspawn
      can end in an exception. */
  function Receive(s: ClientState, cfg: Config, msg: Message): (r: (ClientState, Outcome))
    ensures WellFormed(s) ==> WellFormed(r.0)
    ensures msg.Unrecognised? ==> r == (s, Completed)
    ensures r.1.Threw? ==> msg.ServerSpawn? || msg.ServerUnspawn?
  {
    match msg
    case InitialState(sessionId, others) => (OnInitialState(s, cfg, sessionId, others), Completed)
    case Spawn(p) => (OnSpawn(s, cfg, p), Completed)
    case UpdatePosition(id, pos) => (OnUpdatePosition(s, id, pos), Completed)
    case PlayerLeft(id) => (OnPlayerLeft(s, id), Completed)
    case Aim(id, dir) => (OnAim(s, id, dir), Completed)
    case Shoot(pos, dir) => (OnShoot(s, pos, dir), Completed)
    case HealthUpdate(id, health, maxHealth) => (OnHealthUpdate(s, id, health, maxHealth), Completed)
    case PlayerKilled(id) => (OnPlayerKilled(s, id), Completed)
    case ServerSpawn(name, id, pos, dir) => OnServerSpawn(s, cfg, name, id, pos, dir)
    case ServerUnspawn(id) => OnServerUnspawn(s, id)
    case BulletMove(id, pos) => (OnBulletMove(s, id, pos), Completed)
    case Unrecognised(_) => (s, Completed)
  }

  /** The MonoBehaviour: its fields are the parts of a ClientState, and each
      handler leaves them as the matching function says. */
  class NetworkClient {
    const config: Config
    var clientId: Option<string>
    var serverObjects: map<string, Entity>
    var localPlayer: Option<nat>
    var lastSentPosition: Vec3
    var instantiated: nat
    var looseBullets: seq<Shot>

    function State(): ClientState
      reads this
    {
      ClientState(clientId, serverObjects, localPlayer, lastSentPosition, instantiated, looseBullets)
    }

    ghost predicate Valid()
      reads this
    {
      WellFormed(State())
    }

    constructor(config: Config)
      ensures this.config == config
      ensures Valid() && State() == InitialClient()
    {
      this.config := config;
      clientId := None;
      serverObjects := map[];
      localPlayer := None;
      lastSentPosition := Vec3(0.0, 0.0, 0.0);
      instantiated := 0;
      looseBullets := [];
    }

    /** Creates a player object unless the id is registered already. */
    method SpawnPlayer(id: string, isLocal: bool)
      requires Valid()
      modifies this
      ensures Valid() && State() == AddPlayer(old(State()), config, id, isLocal)
    {
      if id in serverObjects {
        return;
      }
      var obj := Instantiate(config.playerPrefab, instantiated, PlayerObject);
      instantiated := instantiated + 1;
      serverObjects := serverObjects[id := obj];
      if isLocal {
        localPlayer := Some(obj.handle);
        lastSentPosition := obj.position;
      }
    }

    method HandleInitialState(sessionId: string, others: seq<PlayerInfo>)
      requires Valid()
      modifies this
      ensures Valid() && State() == OnInitialState(old(State()), config, sessionId, others)
    {
      clientId := Some(sessionId);
      SpawnPlayer(sessionId, true);
      ghost var start := State();
      var i := 0;
      while i < |others|
        invariant 0 <= i <= |others|
        invariant Valid() && State() == PlaceAll(start, config, others[..i])
      {
        HandleSpawn(others[i]);
        PlaceAllSnoc(start, config, others[..i], others[i]);
        assert others[..i + 1] == others[..i] + [others[i]];
        i := i + 1;
      }
      assert others[..|others|] == others;
    }

    method HandleSpawn(p: PlayerInfo)
      requires Valid()
      modifies this
      ensures Valid() && State() == OnSpawn(old(State()), config, p)
    {
      SpawnPlayer(p.id, false);
      var obj := serverObjects[p.id];
      serverObjects := serverObjects[p.id := obj.(position := Placed(p))];
    }

    method HandlePositionUpdate(id: string, pos: Vec2)
      requires Valid()
      modifies this
      ensures Valid() && State() == OnUpdatePosition(old(State()), id, pos)
    {
      if clientId == Some(id) || id !in serverObjects {
        return;
      }
      var obj := serverObjects[id];
      serverObjects := serverObjects[id := obj.(position := Vec3(pos.x, pos.y, obj.position.z))];
    }

    method HandlePlayerLeft(id: string)
      requires Valid()
      modifies this
      ensures Valid() && State() == OnPlayerLeft(old(State()), id)
    {
      if id in serverObjects {
        serverObjects := serverObjects - {id};
      }
    }

    method HandleAimUpdate(id: string, dir: Vec2)
      requires Valid()
      modifies this
      ensures Valid() && State() == OnAim(old(State()), id, dir)
    {
      if id in serverObjects {
        serverObjects := serverObjects[id := serverObjects[id].(facing := Some(dir))];
      }
    }

    method HandleShoot(pos: Vec2, dir: Vec2)
      requires Valid()
      modifies this
      ensures Valid() && State() == OnShoot(old(State()), pos, dir)
    {
      looseBullets := looseBullets + [Shot(pos, dir)];
    }

    method HandleHealthUpdate(id: string, health: int, maxHealth: int)
      requires Valid()
      modifies this
      ensures Valid() && State() == OnHealthUpdate(old(State()), id, health, maxHealth)
    {
      if id in serverObjects {
        var obj := serverObjects[id];
        if obj.health.Some? {
          var hp := obj.health.value.(maxHealth := maxHealth);
          hp := hp.SetHealth(health);
          serverObjects := serverObjects[id := obj.(health := Some(hp))];
        }
      }
    }

    method HandlePlayerKilled(id: string)
      requires Valid()
      modifies this
      ensures Valid() && State() == OnPlayerKilled(old(State()), id)
    {
      if id in serverObjects && serverObjects[id].health.Some? {
        serverObjects := serverObjects[id := serverObjects[id].(active := false)];
      }
    }

    method HandleServerSpawn(name: string, id: string, pos: Vec2, direction: Option<Vec2>) returns (outcome: Outcome)
      requires Valid()
      modifies this
      ensures Valid() && (State(), outcome) == OnServerSpawn(old(State()), config, name, id, pos, direction)
    {
      if id in serverObjects {
        return Completed;
      }
      var found := GetObjectByName(config.spawnables, name);
      if found.Err? {
        return Threw(found.fault);
      }
      if found.value.None? {
        return Threw(NullReference);
      }
      var sod := found.value.value;
      var obj := Instantiate(sod.prefab, instantiated, SpawnedObject(name)).(position := Vec3(pos.x, pos.y, 0.0));
      instantiated := instantiated + 1;
      if name == "Bullet" {
        if direction.None? {
          return Threw(NullReference);
        }
        obj := obj.(facing := direction);
      }
      serverObjects := serverObjects[id := obj];
      return Completed;
    }

    method HandleServerUnspawn(id: string) returns (outcome: Outcome)
      requires Valid()
      modifies this
      ensures Valid() && (State(), outcome) == OnServerUnspawn(old(State()), id)
    {
      if id !in serverObjects {
        return Threw(KeyNotFound);
      }
      serverObjects := serverObjects - {id};
      return Completed;
    }

    method HandleBulletMove(id: string, pos: Vec2)
      requires Valid()
      modifies this
      ensures Valid() && State() == OnBulletMove(old(State()), id, pos)
    {
      if id in serverObjects {
        serverObjects := serverObjects[id := serverObjects[id].(position := Vec3(pos.x, pos.y, 0.0))];
      }
    }

    /** The switch on the message tag. */
    method HandleServerMessage(msg: Message) returns (outcome: Outcome)
      requires Valid()
      modifies this
      ensures Valid() && (State(), outcome) == Receive(old(State()), config, msg)
    {
      outcome := Completed;
      match msg {
        case InitialState(sessionId, others) => HandleInitialState(sessionId, others);
        case Spawn(p) => HandleSpawn(p);
        case UpdatePosition(id, pos) => HandlePositionUpdate(id, pos);
        case PlayerLeft(id) => HandlePlayerLeft(id);
        case Aim(id, dir) => HandleAimUpdate(id, dir);
        case Shoot(pos, dir) => HandleShoot(pos, dir);
        case HealthUpdate(id, health, maxHealth) => HandleHealthUpdate(id, health, maxHealth);
        case PlayerKilled(id) => HandlePlayerKilled(id);
        case ServerSpawn(name, id, pos, dir) => outcome := HandleServerSpawn(name, id, pos, dir);
        case ServerUnspawn(id) => outcome := HandleServerUnspawn(id);
        case BulletMove(id, pos) => HandleBulletMove(id, pos);
        case Unrecognised(_) =>
      }
    }
  }

  /** A session joins with one other player, who then leaves: both are
      registered, the other at its listed position, and leaving removes only
      that player. */
  method JoinThenLeave(cfg: Config) returns (joined: ClientState, left: ClientState)
    ensures joined.clientId == Some("A")
    ensures joined.serverObjects.Keys == {"A", "B"}
    ensures joined.localPlayer == Some(joined.serverObjects["A"].handle)
    ensures joined.serverObjects["B"].position == Vec3(1.0, 2.0, 0.0)
    ensures left.serverObjects.Keys == {"A"}
    ensures left.serverObjects["A"] == joined.serverObjects["A"]
  {
    var client := new NetworkClient(cfg);
    var others := [PlayerInfo("B", Vec2(1.0, 2.0))];
    client.HandleInitialState("A", others);
    PlaceAllLastEntryWins(AddPlayer(InitialClient().(clientId := Some("A")), cfg, "A", true), cfg, others, 0);
    assert Ids(others) == {"B"} by {
      assert others[0] in others;
    }
    joined := client.State();
    client.HandlePlayerLeft("B");
    left := client.State();
  }

  /** The same serverSpawn delivered twice leaves exactly one object under
      that id, and the repeat completes without effect. */
  method DuplicateServerSpawn(cfg: Config) returns (first: Outcome, second: Outcome, s: ClientState)
    requires CountNamed(cfg.spawnables, "Bullet") == 1
    ensures first == Completed && second == Completed
    ensures s.serverObjects.Keys == {"bx"}
    ensures s.serverObjects["bx"].kind == SpawnedObject("Bullet")
    ensures s.serverObjects["bx"].facing == Some(Vec2(0.0, 1.0))
  {
    var client := new NetworkClient(cfg);
    var msg := ServerSpawn("Bullet", "bx", Vec2(0.0, 0.0), Some(Vec2(0.0, 1.0)));
    first := client.HandleServerMessage(msg);
    second := client.HandleServerMessage(msg);
    s := client.State();
  }

  /** A health update below zero stores zero against the new maximum, so the
      player is dead. */
  method HealthUpdateBelowZero(cfg: Config) returns (hp: HealthComponent)
    requires cfg.playerPrefab.hasPlayerHealth
    ensures hp.maxHealth == 100 && hp.currentHealth == 0 && hp.IsDead()
  {
    var client := new NetworkClient(cfg);
    var outcome := client.HandleServerMessage(Spawn(PlayerInfo("B", Vec2(0.0, 0.0))));
    outcome := client.HandleServerMessage(HealthUpdate("B", -5, 100));
    hp := client.serverObjects["B"].health.value;
  }
}
