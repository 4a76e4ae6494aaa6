# EWPhoton player and speed pickup, modelled in Dafny

This project models two small state machines from the EWPhoton arena shooter, built on Unity and Photon PUN.

- **`PlayerManager`** handles one player:
  - its health and damage counters;
  - fire and ultra input, with a shot cooldown;
  - the overlap rules for bullets, obstacles, health packs and electric fields;
  - the element-type dispatch of the ultra ability;
  - replication of `IsFiring`, `Health` and `UsingUltra`.
- **`SpeedUpPickUp`** is a pickup with a 10-second lifetime that grants a speed buff when an element touches it.

Each behaviour is a class. Its handlers change its fields in place and append what they ask of the engine to an append-only log `effects`: network instantiate, network and local destroy, RPCs and leaving the room. Every handler takes these as parameters:

- ownership (`photonView.isMine`);
- `PhotonNetwork.connected`;
- the clock (`Time.time`);
- the input samples;
- or the serialisation stream.

Each handler is proved to follow a pure rule function over a value of its fields. The properties are proved about those rules and about runs of many events.

Files:

- `engine.dfy` (module `Engine`): colliders, effects, stream items, and the ordinal `String.Contains`.
- `player_rules.dfy` (module `PlayerRules`): the player's rules and their properties.
- `player_manager.dfy` (module `Players`): class `Session`, which holds the C# statics `LocalPlayerType`, `localWeaponPrefabName` and `LocalPlayerInstance`, and class `PlayerManager`.
- `speed_up_pickup.dfy` (module `Pickups`): the pickup's rules and class `SpeedUpPickUp`.

Health and time are exact `real`s.

Where the code's behaviour may surprise a reader, the model follows the code:

- Health has no lower clamp. A bullet at health 0.05 leaves it at -0.05 (`BulletDrivesHealthNegative`).
- Destroys are not deduplicated. Each overlap with the same health pack asks for its destruction again (`EnterDestroysCounted`, `DoublePackOverlap`).
- `OnTriggerStay2D` has no ownership check, so an observer's copy also loses health to a field (`ObserverStillTakesFieldDamage`).
- Stay damage and electric-field damage do not add to `DamageTaken`.
- A connected non-owner pickup never hides itself. Only a copy that is not connected reaches `HideSelf`.
- The ultra of any element type other than fire and electric does nothing. Only the weapon prefab falls back to the fire ball.
- `CmdShoot` has no zero-vector guard. It only runs when the frame's input is non-zero, and the model gives `CmdShoot` the same sample as `ProcessInputs`.
- `UsingUltra` is the frame's button-up sample. It is true in exactly the frames whose sample says released.

## Model

| member | source | states |
|---|---|---|
| Engine.Contains | Assets/Scripts/PlayerManager.cs:243 | ordinal substring test: true exactly when the key occurs at some position of the name |
| PlayerRules.WeaponPrefab | Assets/Scripts/PlayerManager.cs:96-115 | each of the electric, rancher, ice and stone types gets its own prefab, in both directions; every other type gets FireBall |
| PlayerRules.OwnerBulletKey | Assets/Scripts/PlayerManager.cs:95 | the owner's key is the player name followed by "_Bullet" |
| PlayerRules.FireBurst | Assets/Scripts/PlayerManager.cs:368-377 | n spawns of the weapon, the i-th rotated 30·i degrees and named by the bullet key |
| PlayerRules.UltraEffects | Assets/Scripts/PlayerManager.cs:366-400 | fire: exactly 12 weapon spawns at 0, 30, …, 330 degrees, all named by the key; electric: one ElectricField spawn then one AllBuffered SetElectricFieldParent RPC naming that spawn; any other type: nothing; never a primary shot |
| PlayerRules.EnterRule | Assets/Scripts/PlayerManager.cs:233-293 | non-owner: nothing changes and nothing is logged; foreign bullet: health −0.1, damage taken +0.1, one network destroy; own bullet: nothing; obstacle: −0.05 and +0.05 unless the electric ultra shields; health pack: min(health+0.5, 1), destroyed; foreign field: −0.05; other tags: nothing; damage taken never falls and rises exactly for a foreign bullet or an unshielded obstacle; health ≤ 1 stays ≤ 1 |
| PlayerRules.StayRule | Assets/Scripts/PlayerManager.cs:295-306 | acts only when now > timer, then re-arms the timer to now + timeBetweenShots for any collider; only a foreign field costs 0.01; no other field changes |
| PlayerRules.UpdateRule | Assets/Scripts/PlayerManager.cs:171-199 | connected non-owner: nothing; otherwise IsFiring is "input non-zero" and UsingUltra is the button-up sample; at most one shot, exactly when firing and nextShotTime ≤ now, which then becomes now + timeBetweenShots; LeaveRoom first while health ≤ 0; health and damage untouched; what the log holds is stated by UpdateLeavesOnlyWhenSpent, UpdateShotIsCmdShoot and UpdateUltraTail |
| PlayerRules.UpdateRuleSteps | Assets/Scripts/PlayerManager.cs:177-198 | an owner's log grown by the leave request, then the shot, then the ultra (indexed after both) is the old log followed by UpdateRule's effects, and its new fields are the input flags and the shot timer |
| PlayerRules.UpdateLeavesOnlyWhenSpent | Assets/Scripts/PlayerManager.cs:179-182 | LeaveRoom is in a frame's log exactly when the frame belongs to an owner (or an unconnected copy) whose health is ≤ 0 |
| PlayerRules.UpdateShotIsCmdShoot | Assets/Scripts/PlayerManager.cs:186-189 | every primary shot a frame logs is CmdShoot's spawn of the weapon prefab, aimed by the input and named by the bullet key, and a frame that counts a shot holds that spawn |
| PlayerRules.UpdateUltraTail | Assets/Scripts/PlayerManager.cs:192-196 | after the leave request and the shot, an owner's frame logs the ultra of its element type (indexed where it starts) on every frame whose release sample holds, with no cooldown, and nothing more otherwise |
| PlayerRules.ReadPlayerView | Assets/Scripts/PlayerManager.cs:428-433 | reads a bool, a float and a bool in that order into IsFiring, Health, UsingUltra and touches nothing else; fails exactly when an item is missing or of the wrong type, keeping the fields already read |
| PlayerRules.PlayerViewRoundTrip | Assets/Scripts/PlayerManager.cs:421-434 | reading what the owner wrote restores exactly its three fields and leaves the rest of the stream |
| PlayerRules.EntersKeepHealthBounded | Assets/Scripts/PlayerManager.cs:233-293 | over any run of enter events, health that starts ≤ 1 stays ≤ 1 and damage taken never falls |
| PlayerRules.EnterDestroysCounted | Assets/Scripts/PlayerManager.cs:265-272 | n overlaps with one health pack ask for n network destroys of it |
| PlayerRules.DoublePackOverlap | Assets/Scripts/PlayerManager.cs:265-280 | at health 0.9 two overlaps of one pack leave health exactly 1 and destroy the pack twice |
| PlayerRules.BulletDrivesHealthNegative | Assets/Scripts/PlayerManager.cs:243-251 | a foreign bullet at health 0.05 leaves health below 0 |
| PlayerRules.SuffixNameIsNotForeign | Assets/Scripts/PlayerManager.cs:243 | player "Bob" takes no damage from a bullet named by player "XBob"'s key |
| PlayerRules.OwnShotHarmless | Assets/Scripts/PlayerManager.cs:243-251 | a bullet carrying the name CmdShoot gives it changes nothing for its owner |
| PlayerRules.UpdateShotsHarmless | Assets/Scripts/PlayerManager.cs:186-189 | every primary shot an owner's Update logs carries the bullet key, so a later hit by it changes nothing for that owner, whatever its state then |
| PlayerRules.StaysBeforeTimerIgnored | Assets/Scripts/PlayerManager.cs:297 | any run of stay events no later than the timer changes nothing |
| PlayerRules.StaysActOncePerInterval | Assets/Scripts/PlayerManager.cs:295-306 | within one interval after an acting stay, a run of stays of any colliders has the effect of that first stay alone |
| PlayerRules.DamageTakenMonotone | Assets/Scripts/PlayerManager.cs:171-306 | over any run of frames, enters, stays and snapshot reads, damage taken never decreases and the effect log only grows |
| PlayerRules.ObserverIgnoresTicksAndEnters | Assets/Scripts/PlayerManager.cs:173-175 | on a connected observer, any run of frames and enters changes nothing and logs nothing |
| PlayerRules.ObserverStillTakesFieldDamage | Assets/Scripts/PlayerManager.cs:295-304 | an observer's stay in a foreign field costs 0.01 health |
| Players.Session.constructor | Assets/Scripts/PlayerManager.cs:34-35 | the statics start with the given element type, no weapon prefab and no local player |
| Players.PlayerManager.constructor | Assets/Scripts/PlayerManager.cs:31-79 | the field initialisers: health 1, timers 0, cooldown 1, key "MyBullet", empty log |
| Players.PlayerManager.Awake | Assets/Scripts/PlayerManager.cs:88-121 | on the owner: registers itself as the local player, key = name + "_Bullet", weapon = WeaponPrefab(type); otherwise nothing changes |
| Players.PlayerManager.Update | Assets/Scripts/PlayerManager.cs:171-199 | new fields and appended effects are those of UpdateRule |
| Players.PlayerManager.ProcessInputs | Assets/Scripts/PlayerManager.cs:317-332 | IsFiring is "input non-zero", UsingUltra is the button-up sample |
| Players.PlayerManager.CmdShoot | Assets/Scripts/PlayerManager.cs:334-355 | appends exactly one spawn of the local weapon, aimed by the input and named by the key |
| Players.PlayerManager.UseUltra | Assets/Scripts/PlayerManager.cs:357-401 | the loop appends exactly UltraEffects; for electric the RPC's argument indexes the ElectricField spawn in the log |
| Players.PlayerManager.OnTriggerEnter2D | Assets/Scripts/PlayerManager.cs:233-293 | new fields and appended effects are those of EnterRule |
| Players.PlayerManager.OnTriggerStay2D | Assets/Scripts/PlayerManager.cs:295-306 | new fields are those of StayRule; nothing is logged |
| Players.PlayerManager.SerializeView | Assets/Scripts/PlayerManager.cs:423-427 | appends IsFiring, Health, UsingUltra and changes nothing; the reader accepts it |
| Players.PlayerManager.DeserializeView | Assets/Scripts/PlayerManager.cs:428-433 | field-by-field update equal to ReadPlayerView |
| Pickups.UpdateRule | Assets/Scripts/SpeedUpPickUp.cs:19-32 | connected non-owner: nothing; before expiry: nothing; expired connected owner: network destroy then local destroy; expired and not connected: hidden, no destroy; a state change only happens off the network and never with a destroy |
| Pickups.TouchRule | Assets/Scripts/SpeedUpPickUp.cs:40-51 | effects exactly when an Element touches the owned, connected pickup: one AddSpeedWithTime RPC to All on the element's view, then the destroys |
| Pickups.ReadPickupView | Assets/Scripts/SpeedUpPickUp.cs:60-63 | reads one float into initiateTime and nothing else; fails on a missing or non-float item |
| Pickups.PickupViewRoundTrip | Assets/Scripts/SpeedUpPickUp.cs:55-64 | reading what the owner wrote restores initiateTime exactly |
| Pickups.UpdatesBeforeExpiryIdle | Assets/Scripts/SpeedUpPickUp.cs:24 | any run of Updates before initiateTime + LiveTime changes and logs nothing |
| Pickups.FirstExpiryAtLiveTime | Assets/Scripts/SpeedUpPickUp.cs:8-31 | after a start at t, Updates before t + 10 do nothing and the owner's Update at t + 10 destroys the pickup |
| Pickups.ObserverUpdatesIdle | Assets/Scripts/SpeedUpPickUp.cs:21-23 | a connected observer's Updates never change or log anything |
| Pickups.SpeedUpPickUp.constructor | Assets/Scripts/SpeedUpPickUp.cs:10 | initiateTime 0, drawn and colliding, empty log |
| Pickups.SpeedUpPickUp.Start | Assets/Scripts/SpeedUpPickUp.cs:13-16 | initiateTime = now: not expired now, expired LiveTime later |
| Pickups.SpeedUpPickUp.Update | Assets/Scripts/SpeedUpPickUp.cs:19-32 | new fields and appended effects are those of UpdateRule |
| Pickups.SpeedUpPickUp.HideSelf | Assets/Scripts/SpeedUpPickUp.cs:34-38 | renderer and collider disabled, start time kept |
| Pickups.SpeedUpPickUp.OnTriggerEnter2D | Assets/Scripts/SpeedUpPickUp.cs:40-51 | appends exactly TouchRule |
| Pickups.SpeedUpPickUp.SerializeView | Assets/Scripts/SpeedUpPickUp.cs:57-59 | appends initiateTime and changes nothing; the reader accepts it |
| Pickups.SpeedUpPickUp.DeserializeView | Assets/Scripts/SpeedUpPickUp.cs:60-63 | update equal to ReadPickupView |

## Left out

- `Start`'s camera follow, the UI and score prefabs with their `SendMessage` wiring, the scene-load callbacks and `DontDestroyOnLoad` (PlayerManager.cs:119-166, 202-227): all engine plumbing.
- Audio playback and `Debug.Log` calls: presentation only.
- Positions, aim angles, normalisation and impulses, including `BulletSpeed` (PlayerManager.cs:337-351, 360-376): trigonometry and floating point. A primary shot records only its input as `AimedBy(x, y)`. A burst projectile records its exact rotation.
- `SetElectricFieldParent` (PlayerManager.cs:403-410): it re-parents a transform on every peer. The model logs the call and its argument, not its result.
- Photon internals: transport, `PhotonNetwork.Instantiate`/`Destroy` and RPC delivery and buffering. These are entries in the effect log.
- Unity's deferred destroy: a destroyed object still takes the calls it is given in the model.
- `GameManager.LeaveRoom` is a logged effect. It is repeated every frame while health is at most 0, as in the code.
- The input managers: their samples are parameters.
- `showPlayerStatus` is empty. `DamageDealt` is a field that no handler writes.
- Float rounding of 0.1, 0.05, 0.01 and 0.5: all are exact reals.
- `Vector2.magnitude > 0` is modelled as "an axis is non-zero". Float underflow of a tiny vector's magnitude is not modelled.
- Null references: a null `LocalPlayerInstance`, `LocalPlayerType`, weapon prefab name, or a touching object without a `PhotonView`. These and the exceptions they raise are not modelled. The unset weapon prefab name is written "".
- `SpeedUpPickUp.LiveTime` is a public static field. It is modelled as the constant 10. The values of `Constant.SpeedUpPickUpSpeedUpDelta` and `Constant.SpeedUpEffectTime` are not part of this model; the RPC records their names.
- A stream read that throws is modelled as `ok == false` with nothing more read. The fields assigned before the failing item keep their new values.
- Ownership and connection are fixed parameters of every call. Ownership transfer is not modelled.
