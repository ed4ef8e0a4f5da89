# DeadFall client core in Dafny

A Dafny model of the game-logic core of the DeadFall Unity client. The client is a thin mirror of
an authoritative server. It keeps a registry of networked objects keyed by server id, changed by one
handler per inbound message tag. It mirrors the server's weapon, ammunition and inventory state, with a
single optimistic prediction (one round fewer on firing). Input only ever produces requests to the
server. The HUD derives its colours and highlights from the mirrored state.

One module per source file:

| module | file | form |
|---|---|---|
| `Networking` | `network_client.dfy` | pure transition functions on a `ClientState` value plus the `NetworkClient` class whose handlers are proved equal to them |
| `ServerObjectCatalogue` | `server_objects.dfy` | the prefab catalogue and its `SingleOrDefault` lookup |
| `Health` | `player_health.dfy` | the health component as a value, and the `PlayerHealth` class |
| `AmmoConfig` | `ammo_type.dfy` | the ammo types and their fixed maxima and names |
| `AmmoInventory` | `ammo_manager.dfy` | the counter dictionary as a `map`, operations as functions, and the `AmmoManager` class |
| `Pickup` | `ammo_pickup.dfy` | the pickup's one-shot latch as a rule and as the `AmmoPickup` class |
| `InventorySlots` | `inventory_system.dfy` | the slot list, the input rules that send requests, and the `InventorySystem` class |
| `Weapon` | `weapon_controller.dfy` | the mirrored magazine, the shot prediction, the change tracker, and the `WeaponController` class |
| `WeaponAssets` | `weapon_data.dfy` | weapon assets as a catalogue looked up by name |
| `AmmoDisplay` | `ammo_ui.dfy` | the ammo HUD's colour and highlight rules, and the `AmmoUI` cache |
| `InventoryDisplay` | `inventory_ui.dfy` | the inventory bar's slot looks, and `InventoryUI.RefreshAllSlots` |
| `Wrappers`, `Geometry`, `UnityMath`, `Outbound` | `wrappers.dfy` | `Option`, `Result`, the .NET exceptions as `Fault`, vectors, `Mathf.Clamp`/`Mathf.Min` and C#'s `%` on `int`, and the outbound requests |

How the model represents the program:

- **Exceptions as outcomes.** A handler that can throw returns an `Outcome` (`Completed` or
  `Threw(fault)`) together with the state it leaves behind. The same goes for `Result` from a
  function. This covers:
  - a dictionary indexer on a missing key;
  - `SingleOrDefault` with two matches;
  - reading a null prefab;
  - an array index out of range;
  - `%` by zero.
- **Objects as values.** A GameObject is an `Entity` value stored in the registry map. Its identity is
  its `handle`, the number of registry objects instantiated before it (players and server-spawned
  objects; the bullets of a `shoot` are kept apart in `looseBullets` and take no handle).
  `WellFormed` says every registered handle is older than the next one, so a fresh instance never
  aliases a registered one.
- **Sends as events.** Each component has a `sent` log. Every request it would send through
  `NetworkClient.Instance` is appended to that log as an `Outbound.Command`.
- **Operations as functions.** Every class method is proved to leave its fields exactly as a pure
  function of the old fields says. The properties of the program are then proved about those
  functions.

Where the written specification of the client and the code disagree, the model follows the code:

- `UpdateWeaponState` stores the server's values unclamped. Nothing keeps `0 <= currentAmmo <=
  magazineCapacity` on the client.
- `PlayerHealth` has no shield. "Dead" is not stored; it is `currentHealth <= 0`.
- `serverUnspawn` for an unknown id is not a no-op: the dictionary indexer throws
  `KeyNotFoundException`.
- The dispatch switch has no case for a shoot rejection or a weapon-state push.
- `positionUpdate` for the client's own id is ignored. `aimUpdate` for it is applied.

## Model

| member | source | states |
|---|---|---|
| `UnityMath.Clamp` | Assets/Scripts/Player/PlayerHealth.cs:17 | the result lies in `[min, max]`, equals the value when inside it, is `min` below it and `max` above it |
| `UnityMath.Min` | Assets/Scripts/Ammo/AmmoManager.cs:84 | the result is one of the arguments and no larger than either |
| `UnityMath.CsRem` | Assets/Scripts/Inventory/InventorySystem.cs:60-70 | C#'s truncating remainder: it agrees with the mathematical one for non-negative operands, takes the dividend's sign, and is smaller in magnitude than the divisor |
| `AmmoConfig.RealAmmoTypesAreAllButNone` | Assets/Scripts/Ammo/AmmoType.cs:6-13 | the counted types are exactly the enum members other than `None` |
| `AmmoConfig.GetMaxAmmo` | Assets/Scripts/Ammo/AmmoType.cs:25-35 | the maximum is 0 exactly for `None`, and never exceeds the pistol's 120 |
| `AmmoConfig.MaxAmmoTable` | Assets/Scripts/Ammo/AmmoType.cs:20-23 | the maxima are 120, 90, 30 and 24, and 0 for `None` |
| `AmmoConfig.GetAmmoName` | Assets/Scripts/Ammo/AmmoType.cs:37-47 | every type has a non-empty name, and "None" is `None`'s alone |
| `AmmoConfig.AmmoNameTable` | Assets/Scripts/Ammo/AmmoType.cs:37-47 | the names are "Pistol Ammo", "Rifle Ammo", "Sniper Ammo", "Shotgun Shells", and "None" for `None` |
| `AmmoConfig.GetAmmoNameInjective` | Assets/Scripts/Ammo/AmmoType.cs:37-47 | no two types share a display name |
| `AmmoInventory.Initial` | Assets/Scripts/Ammo/AmmoManager.cs:10-17 | Awake leaves exactly the four real types, each at 0 |
| `AmmoInventory.GetAmmo` | Assets/Scripts/Ammo/AmmoManager.cs:39-47 | -1 for `None`; the stored count for a real type; within `[0, max]` for bounded counters |
| `AmmoInventory.HasAmmo` | Assets/Scripts/Ammo/AmmoManager.cs:49-53 | `None` always has ammo; a real type has it exactly when its count reaches the amount |
| `AmmoInventory.Counts` | Assets/Scripts/Ammo/AmmoManager.cs:113-134 | the four counts handed to the HUD are the four counters |
| `AmmoInventory.UseResult` | Assets/Scripts/Ammo/AmmoManager.cs:55-68 | `None` succeeds untouched; otherwise it succeeds exactly when enough is held, and then takes `amount` from that type only; failure changes nothing; bounds are kept for non-negative amounts |
| `AmmoInventory.AddResult` | Assets/Scripts/Ammo/AmmoManager.cs:70-95 | refused exactly for `None` or a full counter; otherwise that counter becomes `min(count + amount, max)` and the others are kept; bounds are kept |
| `AmmoInventory.ActualAdded` | Assets/Scripts/Ammo/AmmoManager.cs:83-84 | the reported amount is between 0 and the amount offered, and is exactly what the counter grew by |
| `AmmoInventory.SetResult` | Assets/Scripts/Ammo/AmmoManager.cs:97-111 | `None` changes nothing; a real type gets the amount clamped into `[0, max]`; other types are kept |
| `AmmoInventory.SyncKey` | Assets/Scripts/Ammo/AmmoManager.cs:146-168 | every real type has a non-empty server key |
| `AmmoInventory.SyncKeyInjective` | Assets/Scripts/Ammo/AmmoManager.cs:146-168 | distinct types are reported under distinct keys |
| `AmmoInventory.SyncResult` | Assets/Scripts/Ammo/AmmoManager.cs:142-171 | each type whose key is present takes the server's value unclamped; every other type is kept |
| `AmmoInventory.SyncWithoutMatchKeeps` | Assets/Scripts/Ammo/AmmoManager.cs:142-171 | a report with no known key leaves the counters unchanged |
| `AmmoInventory.SyncIdempotent` | Assets/Scripts/Ammo/AmmoManager.cs:142-171 | applying the same report twice equals applying it once |
| `AmmoInventory.AddUndoesUse` | Assets/Scripts/Ammo/AmmoManager.cs:55-95 | on bounded counters, adding back what a successful use took restores them exactly |
| `AmmoInventory.AmmoManager.constructor` | Assets/Scripts/Ammo/AmmoManager.cs:10-37 | the counters start at `Initial()`; the local player with a HUD notifies it once with all zeros |
| `AmmoInventory.AmmoManager.NotifyAmmoChanged` | Assets/Scripts/Ammo/AmmoManager.cs:113-134 | the HUD, if present, receives the current four counts |
| `AmmoInventory.AmmoManager.UseAmmo` | Assets/Scripts/Ammo/AmmoManager.cs:55-68 | result and counters are `UseResult`'s; the HUD is notified only after a real decrement on the local player |
| `AmmoInventory.AmmoManager.AddAmmo` | Assets/Scripts/Ammo/AmmoManager.cs:70-95 | result and counters are `AddResult`'s; notification only on success on the local player |
| `AmmoInventory.AmmoManager.SetAmmo` | Assets/Scripts/Ammo/AmmoManager.cs:97-111 | counters are `SetResult`'s; notification for a real type on the local player |
| `AmmoInventory.AmmoManager.GetAllAmmo` | Assets/Scripts/Ammo/AmmoManager.cs:136-139 | a copy holding exactly the four counters |
| `AmmoInventory.AmmoManager.SyncAmmoFromServer` | Assets/Scripts/Ammo/AmmoManager.cs:142-171 | counters are `SyncResult`'s; notification only when some known key was present, on the local player |
| `Health.HealthComponent.SetHealth` | Assets/Scripts/Player/PlayerHealth.cs:15-21 | the maximum is kept; health is clamped into `[0, max]`: kept when already inside, 0 below it, the maximum above it; dead exactly when the requested health or the maximum is not positive |
| `Health.Awake` | Assets/Scripts/Player/PlayerHealth.cs:10-13 | the component starts at full health, and is alive exactly when the maximum is positive |
| `Health.SetHealthIdempotent` | Assets/Scripts/Player/PlayerHealth.cs:15-21 | setting the same health twice equals setting it once |
| `Health.SetHealthKeepsRange` | Assets/Scripts/Player/PlayerHealth.cs:15-21 | whatever the previous value, health is in range after a set |
| `Health.PlayerHealth.constructor` | Assets/Scripts/Player/PlayerHealth.cs:10-13 | the component is at full health and its object active |
| `Health.PlayerHealth.SetHealth` | Assets/Scripts/Player/PlayerHealth.cs:15-21 | the fields become `SetHealth` of the old component |
| `Health.PlayerHealth.Die` | Assets/Scripts/Player/PlayerHealth.cs:23-29 | the object is deactivated and the health values are untouched |
| `ServerObjectCatalogue.CountNamedPositive` | Assets/Scriptable/ServerObjects.cs:11-14 | an entry with the name is counted |
| `ServerObjectCatalogue.GetObjectByName` | Assets/Scriptable/ServerObjects.cs:11-14 | `SingleOrDefault`: throws InvalidOperation exactly when two or more entries share the name, null exactly when none has it, otherwise the unique entry with that name |
| `ServerObjectCatalogue.GetObjectByNameFindsUnique` | Assets/Scriptable/ServerObjects.cs:13 | with a single entry of that name, the lookup returns that very entry |
| `Networking.Instantiate` | Assets/Scripts/Networking/NetworkClient.cs:374 | a fresh instance stands at the prefab's origin, active, facing nowhere, with a health component exactly when the prefab has one, at full health against the prefab's own maximum |
| `Networking.InitialClient` | Assets/Scripts/Networking/NetworkClient.cs:12-28 | no session id, no objects, no local player |
| `Networking.AddPlayer` | Assets/Scripts/Networking/NetworkClient.cs:370-386 | a registered id is left alone; otherwise exactly that id is added with a new player instance; the local player and last sent position are set only for the local one |
| `Networking.OnSpawn` | Assets/Scripts/Networking/NetworkClient.cs:151-162 | a spawn entry keeps the registry well formed: no registered handle is reused |
| `Networking.OnSpawnEffect` | Assets/Scripts/Networking/NetworkClient.cs:151-162 | the id is registered and stands at the entry's position; an existing object only moves; a new one is a player object; nothing else changes |
| `Networking.PlaceAll` | Assets/Scripts/Networking/NetworkClient.cs:137-147 | the loop keeps the registry well formed |
| `Networking.PlaceAllFrame` | Assets/Scripts/Networking/NetworkClient.cs:137-147 | the registry gains exactly the listed ids; pre-existing objects change at most their position; unlisted ones are untouched |
| `Networking.PlaceAllLastEntryWins` | Assets/Scripts/Networking/NetworkClient.cs:137-147 | each listed player ends at the position of the last entry carrying its id |
| `Networking.OnInitialState` | Assets/Scripts/Networking/NetworkClient.cs:129-148 | the session id is recorded; own id and every listed id are registered; a new own object becomes the local player; unlisted objects are untouched |
| `Networking.OnUpdatePosition` | Assets/Scripts/Networking/NetworkClient.cs:165-175 | ignored for the own id or an unknown id; otherwise only x and y of that object change |
| `Networking.OnPlayerLeft` | Assets/Scripts/Networking/NetworkClient.cs:179-188 | exactly that id is removed if present, and nothing else changes |
| `Networking.OnAim` | Assets/Scripts/Networking/NetworkClient.cs:190-200 | a registered object faces the new direction; unknown ids are ignored |
| `Networking.OnShoot` | Assets/Scripts/Networking/NetworkClient.cs:203-213 | one unregistered bullet is added; the registry is unchanged |
| `Networking.OnHealthUpdate` | Assets/Scripts/Networking/NetworkClient.cs:216-229 | only an object with a health component changes; the new maximum is stored and health clamped against it (kept inside, 0 below, the maximum above); a non-positive health leaves it dead |
| `Networking.OnPlayerKilled` | Assets/Scripts/Networking/NetworkClient.cs:231-248 | only an object with a health component is deactivated; nothing else changes |
| `Networking.OnServerSpawn` | Assets/Scripts/Networking/NetworkClient.cs:250-272 | a registered id is a no-op; an ambiguous name throws InvalidOperation and a missing one NullReference, both without change; a "Bullet" without direction throws after instantiating; otherwise exactly the id is added as a fresh, active, full-health instance of the named prefab at (x, y, 0), facing its direction only for a "Bullet" |
| `Networking.OnServerUnspawn` | Assets/Scripts/Networking/NetworkClient.cs:274-278 | an unknown id throws KeyNotFound without change; a known one is removed as for a leaving player |
| `Networking.OnBulletMove` | Assets/Scripts/Networking/NetworkClient.cs:280-289 | a registered object moves to (x, y, 0); unknown ids are ignored |
| `Networking.Receive` | Assets/Scripts/Networking/NetworkClient.cs:60-104 | every handler keeps the registry well formed; unknown tags change nothing; only serverSpawn and serverUnspawn can throw |
| `Networking.NetworkClient.constructor` | Assets/Scripts/Networking/NetworkClient.cs:12-28 | the client starts in `InitialClient()` |
| `Networking.NetworkClient.SpawnPlayer` | Assets/Scripts/Networking/NetworkClient.cs:370-386 | the fields become `AddPlayer` of the old state, and stay well formed |
| `Networking.NetworkClient.HandleInitialState` | Assets/Scripts/Networking/NetworkClient.cs:129-148 | the loop leaves the fields as `OnInitialState` says |
| `Networking.NetworkClient.HandleSpawn` | Assets/Scripts/Networking/NetworkClient.cs:151-162 | the fields become `OnSpawn` of the old state |
| `Networking.NetworkClient.HandlePositionUpdate` | Assets/Scripts/Networking/NetworkClient.cs:165-175 | the fields become `OnUpdatePosition` of the old state |
| `Networking.NetworkClient.HandlePlayerLeft` | Assets/Scripts/Networking/NetworkClient.cs:179-188 | the fields become `OnPlayerLeft` of the old state |
| `Networking.NetworkClient.HandleAimUpdate` | Assets/Scripts/Networking/NetworkClient.cs:190-200 | the fields become `OnAim` of the old state |
| `Networking.NetworkClient.HandleShoot` | Assets/Scripts/Networking/NetworkClient.cs:203-213 | the fields become `OnShoot` of the old state |
| `Networking.NetworkClient.HandleHealthUpdate` | Assets/Scripts/Networking/NetworkClient.cs:216-229 | the fields become `OnHealthUpdate` of the old state |
| `Networking.NetworkClient.HandlePlayerKilled` | Assets/Scripts/Networking/NetworkClient.cs:231-248 | the fields become `OnPlayerKilled` of the old state |
| `Networking.NetworkClient.HandleServerSpawn` | Assets/Scripts/Networking/NetworkClient.cs:250-272 | fields and outcome are `OnServerSpawn`'s |
| `Networking.NetworkClient.HandleServerUnspawn` | Assets/Scripts/Networking/NetworkClient.cs:274-278 | fields and outcome are `OnServerUnspawn`'s |
| `Networking.NetworkClient.HandleBulletMove` | Assets/Scripts/Networking/NetworkClient.cs:280-289 | the fields become `OnBulletMove` of the old state |
| `Networking.NetworkClient.HandleServerMessage` | Assets/Scripts/Networking/NetworkClient.cs:60-104 | fields and outcome are `Receive`'s |
| `Networking.JoinThenLeave` | Assets/Scripts/Networking/NetworkClient.cs:129-188 | joining with one other player registers both, the other at its position; its leaving removes only it |
| `Networking.DuplicateServerSpawn` | Assets/Scripts/Networking/NetworkClient.cs:250-272 | a repeated serverSpawn completes without effect and one bullet stays registered under the id |
| `Networking.HealthUpdateBelowZero` | Assets/Scripts/Networking/NetworkClient.cs:216-229 | a health update of -5 against 100 leaves 0 of 100, dead |
| `InventorySlots.SlotCount` | Assets/Scripts/Inventory/InventorySystem.cs:27-34 | the fill loops produce `maxSlots` slots, none when it is not positive |
| `InventorySlots.Refill` | Assets/Scripts/Inventory/InventorySystem.cs:117-135 | one slot per `maxSlots`: the server's items in order, padded with empty slots |
| `InventorySlots.ItemAt` | Assets/Scripts/Inventory/InventorySystem.cs:324-329 | nothing outside the list, otherwise the slot's item |
| `InventorySlots.SwitchRequest` | Assets/Scripts/Inventory/InventorySystem.cs:100-107 | one switch request exactly for an index inside the slots whose slot is occupied, nothing otherwise |
| `InventorySlots.ScrollTargetInRange` | Assets/Scripts/Inventory/InventorySystem.cs:60-70 | from a slot in range, up gives the previous slot and down the next, wrapping at both ends |
| `InventorySlots.ScrollRoundTrip` | Assets/Scripts/Inventory/InventorySystem.cs:60-70 | scrolling one way then the other returns to the starting slot |
| `InventorySlots.NumberKeyRequests` | Assets/Scripts/Inventory/InventorySystem.cs:51-57 | the number-key loop sends no more requests than it visits slots |
| `InventorySlots.NumberKeyRequestsExact` | Assets/Scripts/Inventory/InventorySystem.cs:51-57 | a switch request is sent for a slot exactly when its key is pressed and the slot may be switched to |
| `InventorySlots.NumberKeyRequestsOnePerSlot` | Assets/Scripts/Inventory/InventorySystem.cs:51-57 | no slot is asked for more than once in a frame |
| `InventorySlots.ScrollRequests` | Assets/Scripts/Inventory/InventorySystem.cs:60-70 | no scroll sends nothing; with no slots a scroll divides by zero; otherwise, from any current index, one request for the target slot `(current ± 1) % maxSlots` exactly when it can be switched to, and nothing when it is empty or out of range |
| `InventorySlots.ScrollFromIndexPastTheEnd` | Assets/Scripts/Inventory/InventorySystem.cs:66-69 | a server-set index past the end is not rejected: from index 7 of six slots, scrolling down asks for slot 2 |
| `InventorySlots.UseRequest` | Assets/Scripts/Inventory/InventorySystem.cs:73-80 | E sends a use request exactly for a Health or Shield item |
| `InventorySlots.ThrowRequest` | Assets/Scripts/Inventory/InventorySystem.cs:83-97 | G sends a throw exactly for a Grenade with some left |
| `InventorySlots.InputRequests` | Assets/Scripts/Inventory/InventorySystem.cs:48-98 | a frame of input throws exactly when it scrolls with no slots, and then with DivideByZero |
| `InventorySlots.InputRequestsAreGuarded` | Assets/Scripts/Inventory/InventorySystem.cs:48-98 | every request of a frame is a switch to a switchable slot, a use of the current Health/Shield item with E down, or a throw of the current Grenade with G down |
| `InventorySlots.InventorySystem.constructor` | Assets/Scripts/Inventory/InventorySystem.cs:27-34 | one empty slot per `maxSlots`, slot 0 current, nothing sent |
| `InventorySlots.InventorySystem.RequestSlotSwitch` | Assets/Scripts/Inventory/InventorySystem.cs:100-107 | sends exactly `SwitchRequest` |
| `InventorySlots.InventorySystem.UpdateInventoryFromServer` | Assets/Scripts/Inventory/InventorySystem.cs:110-114 | only the current index changes, to the server's |
| `InventorySlots.InventorySystem.SetFullInventory` | Assets/Scripts/Inventory/InventorySystem.cs:117-135 | the slots become `Refill` of the items and the index the server's; reading `items[currentIndex]` throws IndexOutOfRange after that when it is outside the items |
| `InventorySlots.InventorySystem.GetCurrentItem` | Assets/Scripts/Inventory/InventorySystem.cs:324-329 | the item under the current index, as `ItemAt` |
| `InventorySlots.InventorySystem.HandleNumberKeys` | Assets/Scripts/Inventory/InventorySystem.cs:51-57 | the loop sends exactly `NumberKeyRequests` |
| `InventorySlots.InventorySystem.HandleScroll` | Assets/Scripts/Inventory/InventorySystem.cs:60-70 | sends exactly `ScrollRequests`, or throws as it says |
| `InventorySlots.InventorySystem.HandleItemKeys` | Assets/Scripts/Inventory/InventorySystem.cs:73-97 | E and G send exactly the use and throw requests of the current item |
| `InventorySlots.InventorySystem.HandleInventoryInput` | Assets/Scripts/Inventory/InventorySystem.cs:48-98 | sends exactly `InputRequests`, or throws as it says, and changes nothing else |
| `InventorySlots.InventorySystem.Update` | Assets/Scripts/Inventory/InventorySystem.cs:41-46 | a remote inventory does nothing; the local one handles the frame's input |
| `WeaponAssets.GetWeaponData` | Assets/Scripts/UI/AmmoUI.cs:242-246 | an asset exactly for a non-empty name held in the catalogue, and then that asset |
| `Weapon.Snapshot` | Assets/Scripts/Weapon/WeaponController.cs:175-179 | the five mirrored fields are the snapshot's |
| `Weapon.PredictShot` | Assets/Scripts/Weapon/WeaponController.cs:137-142 | one round fewer exactly when there is one and no reload, otherwise nothing changes; ammo never goes negative |
| `Weapon.ApplySnapshot` | Assets/Scripts/Weapon/WeaponController.cs:164-186 | the mirror becomes the snapshot, and the flag says exactly whether it differed |
| `Weapon.ApplySnapshotTwice` | Assets/Scripts/Weapon/WeaponController.cs:164-186 | the same snapshot twice reports no change the second time |
| `Weapon.SnapshotOverridesPrediction` | Assets/Scripts/Weapon/WeaponController.cs:128-186 | after a predicted shot, the snapshot replaces the prediction, and a server count at the old value is reported as a change |
| `Weapon.ReloadBlocksPrediction` | Assets/Scripts/Weapon/WeaponController.cs:137-142 | no round is predicted away during a reload |
| `Weapon.Refresh` | Assets/Scripts/Weapon/WeaponController.cs:44-58 | the remembered triple becomes the current one, and a refresh fires exactly when it differed |
| `Weapon.RefreshTwice` | Assets/Scripts/Weapon/WeaponController.cs:44-58 | a second check with no change in between fires nothing |
| `Weapon.WeaponInputEffect` | Assets/Scripts/Weapon/WeaponController.cs:70-126 | no item or an unknown item type does nothing; a Hand sends one punch at a hit player; a Weapon with a fire point and the button pressed or held predicts a shot and sends one shot request from the fire point, and nothing else changes ammo; a reload is asked exactly for a Weapon with R down and no reload under way; at most two requests |
| `Weapon.WeaponController.constructor` | Assets/Scripts/Weapon/WeaponController.cs:18-27 | the field initialisers: empty magazine, remembered triple (-1, -1, false) |
| `Weapon.WeaponController.RequestShoot` | Assets/Scripts/Weapon/WeaponController.cs:128-149 | without a fire point nothing happens; otherwise the magazine becomes `PredictShot` of it and one shot request goes out |
| `Weapon.WeaponController.RequestReload` | Assets/Scripts/Weapon/WeaponController.cs:151-161 | a reload request goes out exactly when no reload is under way |
| `Weapon.WeaponController.UpdateWeaponState` | Assets/Scripts/Weapon/WeaponController.cs:164-186 | a null snapshot changes nothing; otherwise fields and flag are `ApplySnapshot`'s |
| `Weapon.WeaponController.OnReloadStarted` | Assets/Scripts/Weapon/WeaponController.cs:188-193 | only the reloading flag is set |
| `Weapon.WeaponController.OnReloadCompleted` | Assets/Scripts/Weapon/WeaponController.cs:195-200 | only the reloading flag is cleared |
| `Weapon.WeaponController.SetFirePoint` | Assets/Scripts/Weapon/WeaponController.cs:202-205 | the fire point is replaced |
| `Weapon.WeaponController.CheckForUIUpdates` | Assets/Scripts/Weapon/WeaponController.cs:44-58 | remembered triple and trigger are `Refresh`'s |
| `Weapon.WeaponController.HandleWeaponInput` | Assets/Scripts/Weapon/WeaponController.cs:70-126 | magazine and requests are `WeaponInputEffect`'s |
| `Weapon.WeaponController.Update` | Assets/Scripts/Weapon/WeaponController.cs:36-42 | a remote controller does nothing; the local one handles input, then the refresh check |
| `Weapon.ReloadThenShoot` | Assets/Scripts/Weapon/WeaponController.cs:128-149 | a shot during a reload is still requested but keeps the ammo count |
| `Weapon.RifleSnapshotTwice` | Assets/Scripts/Weapon/WeaponController.cs:164-186 | the same snapshot reports a change once, then none |
| `Pickup.ConvertAmmoTypeToServerString` | Assets/Scripts/Ammo/AmmoPickup.cs:98-108 | a real type maps to the server's sync key; anything else falls back to "pistol" |
| `Pickup.Enter` | Assets/Scripts/Ammo/AmmoPickup.cs:46-95 | nothing once picked up, for a non-player, a remote player or no network id; otherwise, for the local player with a network id, the latch is set and exactly one request with the pickup's id, type and amount goes out |
| `Pickup.AtMostOneRequest` | Assets/Scripts/Ammo/AmmoPickup.cs:46-95 | over any run of trigger entries a pickup sends at most one request, and has sent one exactly when its latch is set |
| `Pickup.AmmoPickup.constructor` | Assets/Scripts/Ammo/AmmoPickup.cs:23 | not picked up, nothing sent |
| `Pickup.AmmoPickup.OnTriggerEnter2D` | Assets/Scripts/Ammo/AmmoPickup.cs:46-95 | latch and requests are `Enter`'s, and the latch stays set exactly when the one request has gone out |
| `AmmoDisplay.Level` | Assets/Scripts/UI/AmmoUI.cs:196-210 | no ammo exactly at 0, low exactly at or below 30% of the maximum, normal above it |
| `AmmoDisplay.MagazineTint` | Assets/Scripts/UI/AmmoUI.cs:129-145 | reloading colour exactly while reloading, otherwise the level |
| `AmmoDisplay.ReserveTint` | Assets/Scripts/UI/AmmoUI.cs:186-213 | highlighted exactly for the held weapon's row, otherwise the level |
| `AmmoDisplay.AmmoKeyForWeapon` | Assets/Scripts/UI/AmmoUI.cs:226-239 | Pistol and SMG draw from pistol, Rifle, Sniper and Shotgun from their own key, anything else from none |
| `AmmoDisplay.GetCurrentWeaponAmmoType` | Assets/Scripts/UI/AmmoUI.cs:215-240 | a key only for a held Weapon with an asset, and then the key of the asset's own weapon name |
| `AmmoDisplay.ReserveRowsMatchConfig` | Assets/Scripts/UI/AmmoUI.cs:149-184 | the HUD's row keys and maxima are the ammo configuration's |
| `AmmoDisplay.ReserveDisplay` | Assets/Scripts/UI/AmmoUI.cs:149-184 | one colour per row, from the cached amount against the row's maximum |
| `AmmoDisplay.AtMostOneRowActive` | Assets/Scripts/UI/AmmoUI.cs:149-184 | at most one reserve row is highlighted, none without a weapon key |
| `AmmoDisplay.WeaponDisplay` | Assets/Scripts/UI/AmmoUI.cs:89-147 | hidden exactly when no Weapon is held; otherwise the controller's name, the asset's icon when it has one, "RELOADING..." exactly while reloading, else current / reserve, in the magazine colour |
| `AmmoDisplay.AmmoUI.constructor` | Assets/Scripts/UI/AmmoUI.cs:34-37 | the cached reserve counts start at 0 |
| `AmmoDisplay.AmmoUI.InitialiseFrom` | Assets/Scripts/UI/AmmoUI.cs:73-76 | the cache takes the local player's four counters |
| `AmmoDisplay.AmmoUI.UpdateAmmoFromServer` | Assets/Scripts/UI/AmmoUI.cs:249-264 | the cache takes the server's four counts |
| `AmmoDisplay.AmmoUI.UpdateDisplay` | Assets/Scripts/UI/AmmoUI.cs:83-87 | the panel and the reserve colours, from the held item, the controller and the cache |
| `InventoryDisplay.GetIconForItem` | Assets/Scripts/UI/InventoryUI.cs:102-130 | no icon exactly without an item; fixed icons for Hand, Health, Shield, Grenade; a Weapon shows its asset's icon when the asset exists and has one, and the default weapon icon otherwise; other types get the default weapon icon |
| `InventoryDisplay.BackgroundFor` | Assets/Scripts/UI/InventoryUI.cs:298-314 | selected wins over empty, empty over normal |
| `InventoryDisplay.Look` | Assets/Scripts/UI/InventoryUI.cs:237-296 | the icon is `GetIconForItem` of the slot's item, so none exactly without an item; an amount label exactly for a positive amount, and the background by selection and emptiness |
| `InventoryDisplay.SlotFor` | Assets/Scripts/UI/InventoryUI.cs:86-98 | a display is selected exactly at the current index and shows the item of the slot with its index, empty past the list |
| `InventoryDisplay.Refreshed` | Assets/Scripts/UI/InventoryUI.cs:86-98 | every display is refreshed from its own slot |
| `InventoryDisplay.OneSelected` | Assets/Scripts/UI/InventoryUI.cs:86-98 | after a refresh exactly one display is selected when the current slot has one, and none otherwise |
| `InventoryDisplay.InventoryUI.constructor` | Assets/Scripts/UI/InventoryUI.cs:53-75 | one blank display per slot object, no slot seen yet |
| `InventoryDisplay.InventoryUI.RefreshAllSlots` | Assets/Scripts/UI/InventoryUI.cs:77-99 | the loop leaves the displays as `Refreshed`, remembers the index, and reports whether it moved |

## Left out

- `AmmoInventory.UseResult`: C#'s 32-bit wrap-around of `ammoInventory[type] -= amount` is not modelled. Counts are unbounded integers, so a negative amount near `int.MinValue` does not wrap here.
- `AmmoInventory.AddResult`: the 32-bit wrap-around of `current + amount` is not modelled. In the source an amount near `int.MaxValue` wraps to a negative count that is then stored; here the counter is capped at the maximum.
- `AmmoInventory.ActualAdded`: for the same reason, the bound `0 <= added <= amount` holds only where `current + amount` fits in 32 bits in the source.
- `InventorySlots.ScrollRequests`: the 32-bit wrap-around of `currentSlotIndex + 1` and `currentSlotIndex - 1 + maxSlots` is not modelled. With a server-set index at `int.MaxValue` the source computes a negative slot and sends nothing, where the model asks for a real slot.
- The WebSocket, JSON parsing and serialisation are not modelled. Messages arrive as `Message` values, and outbound requests are `Command` events appended to a log.
- `NetworkClient.Start`, `Update`, `OnApplicationQuit` and the socket callbacks are left out. They are connection handling and a per-frame socket dispatch.
- `NetworkClient.SendLocalPosition`, `SendPositionNow`, `SendAim` and `SendShoot` are left out. They read the transform, the camera and timers, then serialise and send.
- Rotations are not computed. An object's `facing` keeps the direction vector its rotation is derived from with `Atan2`, not the angle.
- Positions are exact reals, because the client only copies coordinates it receives. Float rounding is not modelled.
- `AmmoDisplay.Level`: `amount <= max * 0.3f` is modelled as the exact `10 * amount <= 3 * max`. Float rounding at the boundary is not modelled.
- `InventorySystem.EquipSlot`, the `Spawn*` helpers and `UpdateFirePointReference` are left out. They are visuals: instantiating hand and weapon models, and finding the fire point. The fire point reaches `WeaponController` through `SetFirePoint`.
- `InventorySystem.GetCurrentSlotIndex` and `GetAllItems` are left out; they are plain getters. So are the `WeaponController` getters.
- The name-based checks are inputs, not computed:
  - "is this the local player" (object names containing the client id) is a boolean;
  - the melee raycast's hit is a field of `WeaponInput`;
  - `FindLocalPlayer`'s scene search is reduced to `AmmoUI.InitialiseFrom`.
- `TriggerAmmoUIUpdate` is a no-op in the source and is left out; the trigger itself is modelled.
- Null inspector references and null widgets are not modelled. This covers text fields, images and containers, which the UI code guards with null checks. Only the nulls the game logic depends on are modelled: a missing prefab, a missing direction, an empty slot, a missing asset.
- `AmmoPickup.Start`, `Update` (bobbing and rotation) and `OnDrawGizmos` are left out; they are visuals.
- `WeaponData` assets are a catalogue of weapon name and whether an icon is set. Sprite contents and the `WeaponType` enum are not used by the logic.
- `InventoryUI.Update` is left out. `RefreshAllSlots` is modelled against the inventory's slots and current index directly.
- `GetCurrentWeaponAmmoType` with a null inventory reference is left out. The model always passes the held item, and a null reference returns "" like no item.
