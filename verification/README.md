# Shooter character: combat state machine and ammunition bookkeeping

This project models the combat core of `AShooterCharacter` in a third-person
shooter. The character has four combat states: Unoccupied,
FireTimerInProgress, Reloading and Equipping. The enum's `DefaultMAX` sentinel
is not a state and is left out of the `CombatState` datatype. The modelled
behaviour is:
- firing spends one round from the equipped weapon's magazine;
- an auto-fire timer ends the firing state, and it either shoots again while
  the trigger is held or starts a reload once the magazine is empty;
- reloading moves rounds from the character's ammo map into the magazine;
- swapping weapons drops the old weapon and equips the new one;
- a counter of overlapping pickup items decides whether the character traces
  for items each frame.

Layout:

- `shooter_types.dfy` (module `ShooterTypes`) holds the enums `CombatState`,
  `ItemState` and `AmmoType`, the `int8` and `int32` ranges, and `ToInt8`.
  `ToInt8` is the wrap-around of an assignment to an `int8`.
- `shooter_spec.dfy` (module `ShooterSpec`) holds the combat state as a value,
  `CombatView`. Each operation is a function on that value. The engine's
  timers and the reload animation's notify are `Event`s, and `Run` applies a
  sequence of them. The lemmas are about whole runs:
  - Rounds are conserved: the magazine plus the carried count of its type
    drops by exactly one per shot.
  - No run fires more shots than the rounds it started with.
  - No `int32` value overflows, given the invariant's bounds (see below).
- `weapon.dfy` (module `Weapons`) holds the class `Weapon`. It has the fields
  the character reads and writes: `ammo`, `magazineCapacity`, `ammoType` and
  `itemState`.
- `shooter_character.dfy` (module `Character`) holds the class
  `ShooterCharacter`, with the fields and methods of `AShooterCharacter`.
  Each method updates fields in the order `AShooterCharacter`'s method does.
  The combat methods (`FireWeapon`, `FireButtonPressed`, `FireButtonReleased`,
  `AutoFireReset`, `ReloadWeapon`, `ReloadButtonPressed`, `FinishReloading`,
  `FinishCrosshairBulletFire`) are proved to change `View()` exactly as their
  `ShooterSpec` functions do. Those that require `Valid()` also keep it. The
  other methods (constructor, `BeginPlay`, `StartCrosshairBulletFire`,
  `StartFireTimer`, `DropWeapon`, `EquipWeapon`, `SwapWeapon`,
  `InitializeAmmoMap`, `IncrementOverlappedItemCount`) state their new fields
  directly under field-level `modifies` frames.
- `HeldTriggerScenario` in `shooter_character.dfy` is a worked example, not a
  model of a source function: a held trigger empties a two-round magazine and
  the auto-fire timer then starts a reload that refills it.

The header and the implementation come from different revisions, and this
model follows the implementation. `EquipWeapon` takes one parameter, as in
`ShooterCharacter.cpp`, not two as in `ShooterCharacter.h`.

The model works with unbounded integers and states the source's widths
explicitly:
- `OverlappedItemCount` is an `int8`. When the sum passes 127 the stored count
  wraps to a negative value while tracing stays on (`ShooterSpec.OverlapWraps`).
- Weapon ammo, capacity and the ammo map's counts are `int32`. The invariant
  `Inv` asks for `0 <= Ammo <= MagazineCapacity <= 2^31 - 1` and for every
  carried count in `[0, 2^31 - 1]`. `RunAccounting` shows every event
  preserves it, so under it no `int32` value overflows
  (`ReloadTransferInt32`).

`ReloadTransfer` is stated on mathematical integers, not on `int32`. On those
integers, for every input, the carried count left after a reload is never
negative and the magazine never ends above capacity. A magazine over its
capacity gives its surplus back to the carried count. In the source that
subtraction, `CarriedAmmo -= MagEmptySpace` at
`Source/Shooter/ShooterCharacter.cpp:682`, is `int32` arithmetic. It overflows
when the surplus plus the carried count passes `2^31 - 1`
(`ReloadOverCapacityOverflows`), which is undefined behaviour in C++. The
invariant excludes that case.

## Model

| member | source | states |
|---|---|---|
| `ShooterTypes.ToInt8` | Source/Shooter/ShooterCharacter.h:307-308 | the value an `int8` field holds after an assignment: in [-128, 127], congruent to the assigned value modulo 256, and equal to it when it fits |
| `ShooterSpec.FireWeapon` | Source/Shooter/ShooterCharacter.cpp:180-199 | firing changes anything iff the state is Unoccupied and a weapon with ammo is equipped; then ammo drops by exactly one, the bullet-fire flag is set, the state becomes FireTimerInProgress; the ammo map and trigger flag never change |
| `ShooterSpec.ReloadWeapon` | Source/Shooter/ShooterCharacter.cpp:579-595 | only the combat state may change; it changes iff the state is Unoccupied and ammo of the weapon's type is carried, and then it becomes Reloading |
| `ShooterSpec.AutoFireReset` | Source/Shooter/ShooterCharacter.cpp:353-369 | with ammo and the trigger held, fires one more round into FireTimerInProgress; with ammo and the trigger released, only returns to Unoccupied; with an empty magazine, weapon untouched and the state becomes Reloading iff ammo is carried, otherwise Unoccupied; the ammo map is never changed |
| `ShooterSpec.ReloadTransfer` | Source/Shooter/ShooterCharacter.cpp:663-685 | moves exactly min(capacity - ammo, carried) rounds; moved plus left equals carried; the magazine never exceeds capacity; afterwards it is full or nothing is left; what is left is never negative |
| `ShooterSpec.FinishReloading` | Source/Shooter/ShooterCharacter.cpp:653-686 | always ends Unoccupied; without a weapon or without a map entry for its ammo type nothing else changes; otherwise only that entry and the magazine change, their sum is preserved, the magazine gains exactly the minimum of its empty space and the carried count, and it ends full or with the entry at zero |
| `ShooterSpec.ReloadTransferInt32` | Source/Shooter/ShooterCharacter.cpp:666-682 | with the magazine within capacity and a non-negative `int32` pool, the empty space, the rounds moved and the rounds left are all `int32` values |
| `ShooterSpec.ReloadOverCapacityOverflows` | Source/Shooter/ShooterCharacter.cpp:682 | with ammo 10, capacity 5 and a pool of 2^31 - 3, all `int32`, the pool left after the reload is above the `int32` range |
| `ShooterSpec.NegativePoolDrainsMagazine` | Source/Shooter/ShooterCharacter.cpp:669-676 | with a pool of -5 and an empty ten-round magazine, finishing a reload leaves the magazine at -5 and the pool at 0 |
| `ShooterSpec.OverlapUpdate` | Source/Shooter/ShooterCharacter.cpp:693-705 | tracing is on iff count + amount > 0; the stored count is an `int8`; while the sum does not pass 127 the count is max(0, count + amount) and tracing is on iff it is positive |
| `ShooterSpec.OverlapWraps` | Source/Shooter/ShooterCharacter.cpp:702 | when count + amount exceeds 127 the stored count is count + amount - 256, negative, while tracing is on |
| `ShooterSpec.StartsOnlyWhenUnoccupied` | Source/Shooter/ShooterCharacter.h:346-348 | an event that fires a shot or starts a reload found the character Unoccupied, unless it is the auto-fire timer, which sets Unoccupied first |
| `ShooterSpec.StepAccounting` | Source/Shooter/ShooterCharacter.cpp:320-369 | each event keeps the invariant and the weapon, leaves other ammo types alone, and uses up one round exactly when it shoots |
| `ShooterSpec.RunAccounting` | Source/Shooter/ShooterCharacter.cpp:180-199 | over any sequence of button presses, timers and reload notifies, the invariant holds (no `int32` overflow), the weapon and other ammo types are untouched, and the rounds available drop by exactly the number of shots fired |
| `ShooterSpec.ShotsBounded` | Source/Shooter/ShooterCharacter.cpp:514-519 | no sequence of events fires more shots than the rounds available at its start |
| `ShooterSpec.ReloadCycle` | Source/Shooter/ShooterCharacter.cpp:575-595 | a reload pressed while Unoccupied and carrying ammo, followed by its finishing notify, ends Unoccupied with no round lost and with the magazine full or the carried count zero |
| `Weapons.Weapon.DecrementAmmo` | Source/Shooter/Weapon.h:237 | one round leaves the magazine (assumed effect) |
| `Weapons.Weapon.ReloadAmmo` | Source/Shooter/Weapon.h:254 | `Amount` rounds enter the magazine (assumed effect) |
| `Weapons.Weapon.SetItemState` | Source/Shooter/Item.h:296 | the item state becomes the given one |
| `Character.ShooterCharacter.constructor` | Source/Shooter/ShooterCharacter.cpp:23-66 | starts Unoccupied with flags clear and starting ammo 85 (9mm) and 120 (AR), as the initializer list sets; unarmed, with an empty ammo map, no overlaps and no traced items, which the initializer list does not set and which hold because the engine zero-fills a new object |
| `Character.ShooterCharacter.BeginPlay` | Source/Shooter/ShooterCharacter.cpp:98-111 | the spawned weapon, if any, becomes the equipped one in state Equipped, and the ammo map becomes exactly the starting amounts |
| `Character.ShooterCharacter.WeaponHasAmmo` | Source/Shooter/ShooterCharacter.cpp:514-519 | agrees with `ShooterSpec.WeaponHasAmmo` on the current state: a weapon is equipped and its ammo is positive |
| `Character.ShooterCharacter.CarryingAmmo` | Source/Shooter/ShooterCharacter.cpp:596-608 | agrees with `ShooterSpec.CarryingAmmo`: a weapon is equipped, the map has its ammo type, and that count is positive |
| `Character.ShooterCharacter.StartCrosshairBulletFire` | Source/Shooter/ShooterCharacter.cpp:320-326 | sets the bullet-fire flag and nothing else |
| `Character.ShooterCharacter.FinishCrosshairBulletFire` | Source/Shooter/ShooterCharacter.cpp:328-331 | the crosshair timer clears the bullet-fire flag and nothing else |
| `Character.ShooterCharacter.StartFireTimer` | Source/Shooter/ShooterCharacter.cpp:344-351 | the state becomes FireTimerInProgress and nothing else changes |
| `Character.ShooterCharacter.FireWeapon` | Source/Shooter/ShooterCharacter.cpp:180-199 | acts as `ShooterSpec.FireWeapon`, touches only the state, the bullet-fire flag and the equipped weapon's ammo, and keeps the invariant |
| `Character.ShooterCharacter.FireButtonPressed` | Source/Shooter/ShooterCharacter.cpp:333-337 | marks the trigger held, then fires as `ShooterSpec.FireWeapon` |
| `Character.ShooterCharacter.FireButtonReleased` | Source/Shooter/ShooterCharacter.cpp:339-342 | only clears the trigger flag |
| `Character.ShooterCharacter.AutoFireReset` | Source/Shooter/ShooterCharacter.cpp:353-369 | acts as `ShooterSpec.AutoFireReset`, re-entering `FireWeapon` or `ReloadWeapon` as `AShooterCharacter::AutoFireReset` does |
| `Character.ShooterCharacter.ReloadWeapon` | Source/Shooter/ShooterCharacter.cpp:579-595 | acts as `ShooterSpec.ReloadWeapon`, touching only the combat state |
| `Character.ShooterCharacter.ReloadButtonPressed` | Source/Shooter/ShooterCharacter.cpp:575-578 | the reload button acts as `ShooterSpec.ReloadWeapon` |
| `Character.ShooterCharacter.FinishReloading` | Source/Shooter/ShooterCharacter.cpp:653-686 | acts as `ShooterSpec.FinishReloading`, touching only the state, the ammo map and the equipped weapon's ammo; every intermediate `int32` value is in range |
| `Character.ShooterCharacter.DropWeapon` | Source/Shooter/ShooterCharacter.cpp:460-470 | the equipped weapon, if any, is set Falling; nothing else changes |
| `Character.ShooterCharacter.EquipWeapon` | Source/Shooter/ShooterCharacter.cpp:472-488 | a non-null weapon becomes the equipped one and is set Equipped; a null one changes nothing |
| `Character.ShooterCharacter.SwapWeapon` | Source/Shooter/ShooterCharacter.cpp:501-507 | the previous weapon, unless it is the new one, is set Falling; a non-null new weapon is equipped and Equipped; a null one leaves the dropped weapon as the equipped reference; both trace-hit items are cleared; combat state and ammo are untouched |
| `Character.ShooterCharacter.InitializeAmmoMap` | Source/Shooter/ShooterCharacter.cpp:508-513 | the ammo map becomes exactly {9mm: starting 9mm ammo, AR: starting AR ammo}, whatever it held before |
| `Character.ShooterCharacter.IncrementOverlappedItemCount` | Source/Shooter/ShooterCharacter.cpp:693-705 | the count and the trace flag become `ShooterSpec.OverlapUpdate` of the old count and the amount |

## Left out

- Weapons.Weapon.DecrementAmmo: `Weapon.cpp` is not modelled; this member follows the declaration at Weapon.h:237, and its effect is assumed to be `Ammo := Ammo - 1`.
- Weapons.Weapon.ReloadAmmo: `Weapon.cpp` is not modelled; this member follows the declaration at Weapon.h:254, and its effect is assumed to be `Ammo := Ammo + Amount`.
- The weapon invariant `0 <= Ammo <= MagazineCapacity` is an assumption about how weapons are configured. The shown code never checks it, but every modelled operation preserves it.
- ShooterSpec.AmmoMapOk and Character.ShooterCharacter.Valid: require every carried count and both starting amounts to be in `[0, 2^31 - 1]`. The source declares them plain `int32`, and `Starting9mmAmmo` and `StartingARAmmo` are editable in the engine's editor (ShooterCharacter.h:336-344), so a negative amount is accepted and `InitializeAmmoMap` stores it. Non-negative starting amounts are a configuration assumption of this model. Without it, a reload moves a negative pool into the magazine and drains it (`NegativePoolDrainsMagazine`), and `ShotsBounded` no longer holds.
- `AmmoType.h` is not part of this model. `AmmoType` has the two values the implementation names, 9mm and AR.
- Engine timers become events (`AutoFireTimer`, `CrosshairShootTimer`) that the environment may deliver in any state. Their durations (`AutomaticFireRate`, `ShootTimeDuration`) are left out, and so is the fact that a re-armed timer replaces a pending one.
- The reload montage is left out. Its finishing notify calls `FinishReloading`, modelled as the event `ReloadAnimationDone`.
- `SpawnDefaultWeapon` is left out because it spawns an actor in the engine's world. `BeginPlay` takes the spawned weapon as a parameter instead.
- Socket attachment and detachment and `ThrowWeapon` physics in `EquipWeapon` and `DropWeapon` are left out. Only the item-state assignments remain.
- Fire sound, `SendBullet`, `GetBeamEndLocation`, `TraceUnderCrosshairs`, `TraceForItems` and the gunfire montage are left out. They are engine line traces, particles, sound, animation and widget visibility.
- `MoveForward`, `MoveRight`, `TurnAtRate`, `LookUpAtRate`, `Turn`, `LookUp`, `SetLookRates`, the aiming buttons, `CameraInterpZoom`, `CalculateCrosshairSpread`, `GetCrosshairSpreadMultiplier` and `GetCameraInterpLocation` are left out. They are float rates and interpolation fed to engine calls. `GetCameraInterpLocation` is defined in `ShooterCharacter.cpp` although `ShooterCharacter.h` comments it out.
- `Tick` and `SetupPlayerInputComponent` are left out because they are engine dispatch. The events they trigger are modelled directly.
- `SelectButtonPressed` and `GetPickupItem` are left out. They depend on `AItem::StartItemCurve` and a cast from `AItem` to `AWeapon`, whose bodies are not part of this model. `SwapWeapon` is modelled.
- The getters `GetCombatState`, `GetOverlappedItemCount` and `GetEquippedWeapon` are left out because they only return a field.
- The unused `bShouldFire` flag is left out.
- Character.ShooterCharacter.BeginPlay: the camera field-of-view setup (`CameraDefaultFOV` and `CameraCurrentFOV` from the follow camera, ShooterCharacter.cpp:101-105) is left out because it copies a float from an engine component.
- Functions declared only in the header are left out because their bodies are not part of this model: inventory slots, interp locations, crouch, `PickupAmmo`, sound timers, `GrabClip`/`ReleaseClip` and `FinishEquipping`. No modelled operation enters the Equipping state.
- `ShooterAnimInstance.cpp` and `EnemyController.cpp` are left out. They are per-frame rotator math and behaviour-tree wiring.
