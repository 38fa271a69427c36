/** The combat state machine and ammunition bookkeeping of the shooter character,
    stated on values. Each function here is the specification of the method of the
    same name on ShooterCharacter; the lemmas state what a whole run of events does. */
module ShooterSpec {
  import opened ShooterTypes

  /** What the character's combat logic sees of a weapon. */
  datatype Magazine = Magazine(ammo: int, magazineCapacity: int, ammoType: AmmoType)

  /** The part of the character's state that firing and reloading read and write. */
  datatype CombatView = CombatView(
    combatState: CombatState,
    weapon: Option<Magazine>,
    ammoMap: map<AmmoType, int>,
    fireButtonPressed: bool,
    firingBullet: bool)

  /** A weapon's rounds fit its magazine, and both are `int32` values. */
  ghost predicate MagazineOk(m: Magazine) {
    0 <= m.ammo <= m.magazineCapacity <= Int32Max
  }

  /** Every carried count is a non-negative `int32`. */
  ghost predicate AmmoMapOk(ammoMap: map<AmmoType, int>) {
    forall t :: t in ammoMap ==> 0 <= ammoMap[t] <= Int32Max
  }

  ghost predicate Inv(v: CombatView) {
    (v.weapon.Some? ==> MagazineOk(v.weapon.value)) && AmmoMapOk(v.ammoMap)
  }

  /** A weapon is equipped and its magazine is not empty. */
  predicate WeaponHasAmmo(v: CombatView) {
    v.weapon.Some? && v.weapon.value.ammo > 0
  }

  /** A weapon is equipped and the character carries some ammunition of its type. */
  predicate CarryingAmmo(v: CombatView) {
    v.weapon.Some? && v.weapon.value.ammoType in v.ammoMap && v.ammoMap[v.weapon.value.ammoType] > 0
  }

  /** Shooting: spend one round and enter FireTimerInProgress, but only from
      Unoccupied with a loaded weapon; otherwise nothing changes. */
  function FireWeapon(v: CombatView): (r: CombatView)
    ensures r != v <==> v.combatState == Unoccupied && WeaponHasAmmo(v)
    ensures r.ammoMap == v.ammoMap && r.fireButtonPressed == v.fireButtonPressed
    ensures r != v ==>
      && r.weapon == Some(v.weapon.value.(ammo := v.weapon.value.ammo - 1))
      && r.firingBullet
      && r.combatState == FireTimerInProgress
  {
    if v.weapon.None? then v
    else if v.combatState != Unoccupied then v
    else if WeaponHasAmmo(v) then
      var m := v.weapon.value;
      var shot := v.(weapon := Some(m.(ammo := m.ammo - 1)));
      shot.(firingBullet := true).(combatState := FireTimerInProgress)
    else v
  }

  /** Starting a reload: only from Unoccupied, and only when carrying ammunition
      for the equipped weapon. Only the combat state may change. */
  function ReloadWeapon(v: CombatView): (r: CombatView)
    ensures r == v.(combatState := r.combatState)
    ensures r.combatState != v.combatState <==> v.combatState == Unoccupied && CarryingAmmo(v)
    ensures r.combatState != v.combatState ==> r.combatState == Reloading
  {
    if v.combatState != Unoccupied then v
    else if v.weapon.None? then v
    else if CarryingAmmo(v) then v.(combatState := Reloading)
    else v
  }

  /** The auto-fire timer: back to Unoccupied, then shoot again while the trigger
      is held and the magazine has rounds, or try to reload when it is empty. */
  function AutoFireReset(v: CombatView): (r: CombatView)
    ensures r.ammoMap == v.ammoMap && r.fireButtonPressed == v.fireButtonPressed
    ensures WeaponHasAmmo(v) && v.fireButtonPressed ==>
      && r.weapon == Some(v.weapon.value.(ammo := v.weapon.value.ammo - 1))
      && r.firingBullet
      && r.combatState == FireTimerInProgress
    ensures WeaponHasAmmo(v) && !v.fireButtonPressed ==> r == v.(combatState := Unoccupied)
    ensures !WeaponHasAmmo(v) ==>
      && r.weapon == v.weapon
      && r.firingBullet == v.firingBullet
      && r.combatState == (if CarryingAmmo(v) then Reloading else Unoccupied)
  {
    var idle := v.(combatState := Unoccupied);
    if WeaponHasAmmo(idle) then
      if idle.fireButtonPressed then FireWeapon(idle) else idle
    else ReloadWeapon(idle)
  }

  /** The crosshair timer: the bullet-fire spread flag drops. */
  function FinishCrosshairBulletFire(v: CombatView): CombatView {
    v.(firingBullet := false)
  }

  /** Pressing the trigger marks it held and then tries to shoot. */
  function FireButtonPressed(v: CombatView): CombatView {
    FireWeapon(v.(fireButtonPressed := true))
  }

  function FireButtonReleased(v: CombatView): CombatView {
    v.(fireButtonPressed := false)
  }

  /** The two branches of a reload: with `capacity - ammo` empty slots and
      `carried` rounds in the pool, the result is (rounds moved into the
      magazine, rounds left in the pool). */
  function ReloadTransfer(ammo: int, capacity: int, carried: int): (r: (int, int))
    ensures r.0 + r.1 == carried
    ensures r.0 == (if capacity - ammo < carried then capacity - ammo else carried)
    ensures ammo + r.0 <= capacity
    ensures ammo + r.0 == capacity || r.1 == 0
    ensures r.1 >= 0
  {
    var magEmptySpace := capacity - ammo;
    if magEmptySpace > carried then (carried, 0)
    else (magEmptySpace, carried - magEmptySpace)
  }

  /** Within the invariant's bounds (a magazine within capacity, a non-negative
      `int32` carried count) every value the reload computes is an `int32`. */
  lemma ReloadTransferInt32(ammo: int, capacity: int, carried: int)
    requires 0 <= ammo <= capacity <= Int32Max && 0 <= carried <= Int32Max
    ensures IsInt32(capacity - ammo)
    ensures IsInt32(ReloadTransfer(ammo, capacity, carried).0)
    ensures IsInt32(ReloadTransfer(ammo, capacity, carried).1)
  {
  }

  /** Outside those bounds the `int32` subtraction of the pool can leave the
      range: a magazine five rounds over capacity with a pool near the maximum. */
  lemma ReloadOverCapacityOverflows()
    ensures IsInt32(10) && IsInt32(5) && IsInt32(Int32Max - 2)
    ensures !IsInt32(ReloadTransfer(10, 5, Int32Max - 2).1)
  {
  }

  /** Without the lower bound on carried counts, a reload drains the magazine:
      a pool of -5 is moved into an empty ten-round magazine. */
  lemma NegativePoolDrainsMagazine()
    ensures var v := CombatView(Reloading, Some(Magazine(0, 10, NineMm)), map[NineMm := -5], false, false);
      && FinishReloading(v).weapon == Some(Magazine(-5, 10, NineMm))
      && FinishReloading(v).ammoMap == map[NineMm := 0]
  {
  }

  /** The reload animation is done: always back to Unoccupied; then, if the
      ammo map has an entry for the weapon's ammunition, rounds move from that
      entry into the magazine. */
  function FinishReloading(v: CombatView): (r: CombatView)
    ensures r.combatState == Unoccupied
    ensures r.fireButtonPressed == v.fireButtonPressed && r.firingBullet == v.firingBullet
    ensures (v.weapon.None? || v.weapon.value.ammoType !in v.ammoMap) ==> r == v.(combatState := Unoccupied)
    ensures v.weapon.Some? ==>
      && r.weapon.Some?
      && r.weapon.value.ammoType == v.weapon.value.ammoType
      && r.weapon.value.magazineCapacity == v.weapon.value.magazineCapacity
    ensures v.weapon.Some? && v.weapon.value.ammoType in v.ammoMap ==>
      var t, m, m' := v.weapon.value.ammoType, v.weapon.value, r.weapon.value;
      && t in r.ammoMap
      && r.ammoMap == v.ammoMap[t := r.ammoMap[t]]
      && m'.ammo + r.ammoMap[t] == m.ammo + v.ammoMap[t]
      && m'.ammo - m.ammo == (if m.magazineCapacity - m.ammo < v.ammoMap[t] then m.magazineCapacity - m.ammo else v.ammoMap[t])
      && (m'.ammo == m.magazineCapacity || r.ammoMap[t] == 0)
      && m'.ammo <= m.magazineCapacity
      && r.ammoMap[t] >= 0
  {
    var idle := v.(combatState := Unoccupied);
    if idle.weapon.None? then idle
    else
      var m := idle.weapon.value;
      if m.ammoType in idle.ammoMap then
        var moved := ReloadTransfer(m.ammo, m.magazineCapacity, idle.ammoMap[m.ammoType]);
        idle.(weapon := Some(m.(ammo := m.ammo + moved.0)), ammoMap := idle.ammoMap[m.ammoType := moved.1])
      else idle
  }

  /** Overlap bookkeeping for an `int8` counter: a total at or below zero clamps
      to zero and stops tracing; otherwise the total is stored (with `int8`
      wrap-around) and tracing starts. */
  function OverlapUpdate(count: int, amount: int): (r: (int, bool))
    ensures IsInt8(r.0)
    ensures r.1 <==> count + amount > 0
    ensures count + amount <= Int8Max ==>
      && r.0 == (if count + amount < 0 then 0 else count + amount)
      && (r.1 <==> r.0 > 0)
  {
    if count + amount <= 0 then (0, false)
    else (ToInt8(count + amount), true)
  }

  /** Past 127 the stored count wraps to a negative value while tracing stays on. */
  lemma OverlapWraps(count: int, amount: int)
    requires IsInt8(count) && IsInt8(amount) && count + amount > Int8Max
    ensures OverlapUpdate(count, amount) == (count + amount - 0x100, true)
    ensures OverlapUpdate(count, amount).0 < 0
  {
  }

  /** What the engine and the player can do to the combat logic: the two
      buttons, the two timers, and the reload animation's finishing notify. */
  datatype Event =
    | PressFire
    | ReleaseFire
    | AutoFireTimer
    | CrosshairShootTimer
    | PressReload
    | ReloadAnimationDone

  function Step(v: CombatView, e: Event): CombatView {
    match e
    case PressFire => FireButtonPressed(v)
    case ReleaseFire => FireButtonReleased(v)
    case AutoFireTimer => AutoFireReset(v)
    case CrosshairShootTimer => FinishCrosshairBulletFire(v)
    case PressReload => ReloadWeapon(v)
    case ReloadAnimationDone => FinishReloading(v)
  }

  function Run(v: CombatView, es: seq<Event>): CombatView
    decreases |es|
  {
    if es == [] then v else Run(Step(v, es[0]), es[1..])
  }

  /** An independent account of when an event makes the character shoot. */
  predicate Fires(v: CombatView, e: Event) {
    match e
    case PressFire => v.combatState == Unoccupied && WeaponHasAmmo(v)
    case AutoFireTimer => WeaponHasAmmo(v) && v.fireButtonPressed
    case _ => false
  }

  function ShotsFired(v: CombatView, es: seq<Event>): nat
    decreases |es|
  {
    if es == [] then 0
    else (if Fires(v, es[0]) then 1 else 0) + ShotsFired(Step(v, es[0]), es[1..])
  }

  /** Rounds available to the equipped weapon: in the magazine plus carried. */
  function Rounds(v: CombatView): int {
    match v.weapon
    case None => 0
    case Some(m) => m.ammo + (if m.ammoType in v.ammoMap then v.ammoMap[m.ammoType] else 0)
  }

  /** `w` holds the same weapon as `v` and the same carried counts for every
      other ammunition type. */
  ghost predicate SameArsenal(v: CombatView, w: CombatView) {
    && w.weapon.Some? == v.weapon.Some?
    && (v.weapon.Some? ==>
         && w.weapon.value.ammoType == v.weapon.value.ammoType
         && w.weapon.value.magazineCapacity == v.weapon.value.magazineCapacity)
    && w.ammoMap.Keys == v.ammoMap.Keys
    && forall t :: t in v.ammoMap && (v.weapon.Some? ==> t != v.weapon.value.ammoType) ==> w.ammoMap[t] == v.ammoMap[t]
  }

  /** Shooting and reloading start only from Unoccupied; the one exception is
      the auto-fire timer, which makes the character Unoccupied first. */
  lemma StartsOnlyWhenUnoccupied(v: CombatView, e: Event)
    ensures Step(v, e).combatState == FireTimerInProgress && Step(v, e).weapon != v.weapon ==>
      v.combatState == Unoccupied || e == AutoFireTimer
    ensures Step(v, e).combatState == Reloading && v.combatState != Reloading ==>
      v.combatState == Unoccupied || e == AutoFireTimer
  {
  }

  /** One event keeps the invariant and the weapon, and uses up exactly one
      round when it shoots and none otherwise. */
  lemma StepAccounting(v: CombatView, e: Event)
    requires Inv(v)
    ensures Inv(Step(v, e))
    ensures SameArsenal(v, Step(v, e))
    ensures Rounds(Step(v, e)) == Rounds(v) - (if Fires(v, e) then 1 else 0)
  {
  }

  /** Over any run of events the invariant holds (so no `int32` value
      overflows), the weapon and the other ammunition types are untouched, and
      the rounds available drop by exactly the number of shots fired. */
  lemma {:induction false} RunAccounting(v: CombatView, es: seq<Event>)
    requires Inv(v)
    ensures Inv(Run(v, es))
    ensures SameArsenal(v, Run(v, es))
    ensures Rounds(Run(v, es)) == Rounds(v) - ShotsFired(v, es)
    decreases |es|
  {
    if es != [] {
      var w := Step(v, es[0]);
      StepAccounting(v, es[0]);
      RunAccounting(w, es[1..]);
    }
  }

  /** No run of events fires more shots than the rounds available at its start. */
  lemma ShotsBounded(v: CombatView, es: seq<Event>)
    requires Inv(v)
    ensures ShotsFired(v, es) <= Rounds(v)
  {
    RunAccounting(v, es);
  }

  /** A reload cycle started while idle and carrying ammunition ends idle with
      the magazine full or the pool empty, and no round lost or created. */
  lemma ReloadCycle(v: CombatView)
    requires Inv(v) && v.combatState == Unoccupied && CarryingAmmo(v)
    ensures var r := Run(v, [PressReload, ReloadAnimationDone]);
      && r.combatState == Unoccupied
      && Rounds(r) == Rounds(v)
      && (r.weapon.value.ammo == r.weapon.value.magazineCapacity || r.ammoMap[r.weapon.value.ammoType] == 0)
  {
  }
}
