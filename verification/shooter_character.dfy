/** AShooterCharacter's combat state, ammunition and item bookkeeping. Each method
    changes the fields AShooterCharacter's method of the same name changes, in the
    same order. The combat methods are proved to act on the combat view exactly as
    their ShooterSpec counterparts; the others state their new fields directly. */
module Character {
  import opened ShooterTypes
  import ShooterSpec
  import opened Weapons

  /** The weapon, as a frame: empty for null. */
  function FrameOf(w: Weapon?): set<Weapon> {
    if w == null then {} else {w}
  }

  class ShooterCharacter {
    var combatState: CombatState
    var equippedWeapon: Weapon?
    /** Carried rounds per ammunition type (`int32` counts). */
    var ammoMap: map<AmmoType, int>
    /** Number of pickup items overlapping the character (`int8`). */
    var overlappedItemCount: int
    var shouldTraceForItems: bool
    var fireButtonPressed: bool
    /** True for a short while after each shot; widens the crosshairs. */
    var firingBullet: bool
    /** The item under the crosshairs this frame and last frame (any actor, or null). */
    var traceHitItem: object?
    var traceHitItemLastFrame: object?
    var starting9mmAmmo: int
    var startingARAmmo: int

    /** The state the combat logic works on, as a value. */
    ghost function View(): ShooterSpec.CombatView
      reads this, equippedWeapon
    {
      ShooterSpec.CombatView(
        combatState,
        if equippedWeapon == null then None else Some(equippedWeapon.Magazine()),
        ammoMap,
        fireButtonPressed,
        firingBullet)
    }

    ghost predicate Valid()
      reads this, equippedWeapon
    {
      && ShooterSpec.Inv(View())
      && IsInt8(overlappedItemCount)
      && 0 <= starting9mmAmmo <= Int32Max
      && 0 <= startingARAmmo <= Int32Max
    }

    /** The default values the character is created with. The overlap count,
        the weapon and the traced items are zero only because the engine
        zero-fills a new object; the initializer list does not set them. */
    constructor ()
      ensures Valid()
      ensures combatState == Unoccupied && equippedWeapon == null && ammoMap == map[]
      ensures overlappedItemCount == 0 && !shouldTraceForItems
      ensures !fireButtonPressed && !firingBullet
      ensures traceHitItem == null && traceHitItemLastFrame == null
      ensures starting9mmAmmo == 85 && startingARAmmo == 120
    {
      combatState := Unoccupied;
      equippedWeapon := null;
      ammoMap := map[];
      overlappedItemCount := 0;
      shouldTraceForItems := false;
      fireButtonPressed := false;
      firingBullet := false;
      traceHitItem := null;
      traceHitItemLastFrame := null;
      starting9mmAmmo := 85;
      startingARAmmo := 120;
    }

    /** Game start: equip the spawned default weapon, if any, and fill the ammo map. */
    method BeginPlay(spawned: Weapon?)
      requires Valid() && (spawned != null ==> spawned.Valid())
      modifies this`equippedWeapon, this`ammoMap, FrameOf(spawned)`itemState
      ensures Valid()
      ensures spawned != null ==> equippedWeapon == spawned && spawned.itemState == Equipped
      ensures spawned == null ==> equippedWeapon == old(equippedWeapon)
      ensures ammoMap == map[NineMm := starting9mmAmmo, AssaultRifle := startingARAmmo]
    {
      EquipWeapon(spawned);
      InitializeAmmoMap();
    }

    predicate WeaponHasAmmo()
      reads this, equippedWeapon
      ensures WeaponHasAmmo() == ShooterSpec.WeaponHasAmmo(View())
    {
      if equippedWeapon == null then false
      else equippedWeapon.ammo > 0
    }

    predicate CarryingAmmo()
      reads this, equippedWeapon
      ensures CarryingAmmo() == ShooterSpec.CarryingAmmo(View())
    {
      if equippedWeapon == null then false
      else
        var ammoType := equippedWeapon.ammoType;
        if ammoType in ammoMap then ammoMap[ammoType] > 0
        else false
    }

    method StartCrosshairBulletFire()
      modifies this`firingBullet
      ensures firingBullet
    {
      firingBullet := true;
    }

    /** Called by the crosshair timer after a shot. */
    method FinishCrosshairBulletFire()
      modifies this`firingBullet
      ensures View() == ShooterSpec.FinishCrosshairBulletFire(old(View()))
    {
      firingBullet := false;
    }

    method StartFireTimer()
      modifies this`combatState
      ensures combatState == FireTimerInProgress
    {
      combatState := FireTimerInProgress;
    }

    method FireWeapon()
      requires Valid()
      modifies this`combatState, this`firingBullet, FrameOf(equippedWeapon)`ammo
      ensures Valid()
      ensures View() == ShooterSpec.FireWeapon(old(View()))
    {
      if equippedWeapon == null { return; }
      if combatState != Unoccupied { return; }
      if WeaponHasAmmo() {
        equippedWeapon.DecrementAmmo();
        StartCrosshairBulletFire();
        StartFireTimer();
      }
    }

    method FireButtonPressed()
      requires Valid()
      modifies this`fireButtonPressed, this`combatState, this`firingBullet, FrameOf(equippedWeapon)`ammo
      ensures Valid()
      ensures View() == ShooterSpec.FireButtonPressed(old(View()))
    {
      fireButtonPressed := true;
      FireWeapon();
    }

    method FireButtonReleased()
      modifies this`fireButtonPressed
      ensures View() == ShooterSpec.FireButtonReleased(old(View()))
    {
      fireButtonPressed := false;
    }

    /** Called by the auto-fire timer that a shot started. */
    method AutoFireReset()
      requires Valid()
      modifies this`combatState, this`firingBullet, FrameOf(equippedWeapon)`ammo
      ensures Valid()
      ensures View() == ShooterSpec.AutoFireReset(old(View()))
    {
      combatState := Unoccupied;
      if WeaponHasAmmo() {
        if fireButtonPressed {
          FireWeapon();
        }
      } else {
        ReloadWeapon();
      }
    }

    method ReloadWeapon()
      modifies this`combatState
      ensures View() == ShooterSpec.ReloadWeapon(old(View()))
    {
      if combatState != Unoccupied { return; }
      if equippedWeapon == null { return; }
      if CarryingAmmo() {
        combatState := Reloading;
      }
    }

    method ReloadButtonPressed()
      modifies this`combatState
      ensures View() == ShooterSpec.ReloadWeapon(old(View()))
    {
      ReloadWeapon();
    }

    /** Called by the reload animation when the new clip is in. */
    method FinishReloading()
      requires Valid()
      modifies this`combatState, this`ammoMap, FrameOf(equippedWeapon)`ammo
      ensures Valid()
      ensures View() == ShooterSpec.FinishReloading(old(View()))
    {
      combatState := Unoccupied;
      if equippedWeapon == null { return; }
      var ammoType := equippedWeapon.ammoType;
      if ammoType in ammoMap {
        var carriedAmmo := ammoMap[ammoType];
        var magEmptySpace := equippedWeapon.magazineCapacity - equippedWeapon.ammo;
        assert IsInt32(magEmptySpace);
        if magEmptySpace > carriedAmmo {
          equippedWeapon.ReloadAmmo(carriedAmmo);
          carriedAmmo := 0;
          ammoMap := ammoMap[ammoType := carriedAmmo];
        } else {
          equippedWeapon.ReloadAmmo(magEmptySpace);
          carriedAmmo := carriedAmmo - magEmptySpace;
          ammoMap := ammoMap[ammoType := carriedAmmo];
        }
      }
    }

    /** Let the equipped weapon, if any, fall to the ground. */
    method DropWeapon()
      modifies FrameOf(equippedWeapon)`itemState
      ensures equippedWeapon != null ==> equippedWeapon.itemState == Falling
    {
      if equippedWeapon != null {
        equippedWeapon.SetItemState(Falling);
      }
    }

    /** Take `weaponToEquip` in hand; a null weapon leaves everything as it was. */
    method EquipWeapon(weaponToEquip: Weapon?)
      requires Valid() && (weaponToEquip != null ==> weaponToEquip.Valid())
      modifies this`equippedWeapon, FrameOf(weaponToEquip)`itemState
      ensures Valid()
      ensures weaponToEquip != null ==> equippedWeapon == weaponToEquip && weaponToEquip.itemState == Equipped
      ensures weaponToEquip == null ==> equippedWeapon == old(equippedWeapon)
    {
      if weaponToEquip != null {
        equippedWeapon := weaponToEquip;
        equippedWeapon.SetItemState(Equipped);
      }
    }

    /** Drop the weapon in hand, equip `weaponToSwap`, and forget the traced items. */
    method SwapWeapon(weaponToSwap: Weapon?)
      requires Valid() && (weaponToSwap != null ==> weaponToSwap.Valid())
      modifies this`equippedWeapon, this`traceHitItem, this`traceHitItemLastFrame
      modifies FrameOf(equippedWeapon)`itemState, FrameOf(weaponToSwap)`itemState
      ensures Valid()
      ensures old(equippedWeapon) != null && old(equippedWeapon) != weaponToSwap ==>
        old(equippedWeapon).itemState == Falling
      ensures weaponToSwap != null ==> equippedWeapon == weaponToSwap && weaponToSwap.itemState == Equipped
      ensures weaponToSwap == null ==> equippedWeapon == old(equippedWeapon)
      ensures traceHitItem == null && traceHitItemLastFrame == null
    {
      DropWeapon();
      EquipWeapon(weaponToSwap);
      traceHitItem := null;
      traceHitItemLastFrame := null;
    }

    /** Put the starting ammunition of both types into the ammo map. */
    method InitializeAmmoMap()
      requires Valid()
      modifies this`ammoMap
      ensures Valid()
      ensures ammoMap == map[NineMm := starting9mmAmmo, AssaultRifle := startingARAmmo]
    {
      ammoMap := ammoMap[NineMm := starting9mmAmmo];
      ammoMap := ammoMap[AssaultRifle := startingARAmmo];
      forall t: AmmoType ensures t in ammoMap && t in {NineMm, AssaultRifle} {
        match t
        case NineMm =>
        case AssaultRifle =>
      }
      assert ammoMap.Keys == {NineMm, AssaultRifle};
    }

    method IncrementOverlappedItemCount(amount: int)
      requires Valid() && IsInt8(amount)
      modifies this`overlappedItemCount, this`shouldTraceForItems
      ensures Valid()
      ensures (overlappedItemCount, shouldTraceForItems) == ShooterSpec.OverlapUpdate(old(overlappedItemCount), amount)
    {
      if overlappedItemCount + amount <= 0 {
        overlappedItemCount := 0;
        shouldTraceForItems := false;
      } else {
        overlappedItemCount := ToInt8(overlappedItemCount + amount);
        shouldTraceForItems := true;
      }
    }
  }

  /** Worked example: a held trigger empties a two-round magazine through the auto-fire timer,
      which then starts a reload that refills it from the 9mm pool. */
  method HeldTriggerScenario() {
    var character := new ShooterCharacter();
    var pistol := new Weapon(2, 2, NineMm);
    character.BeginPlay(pistol);
    assert character.ammoMap[NineMm] == 85;
    character.FireButtonPressed();
    assert pistol.ammo == 1 && character.combatState == FireTimerInProgress;
    character.AutoFireReset();
    assert pistol.ammo == 0 && character.combatState == FireTimerInProgress;
    character.FireButtonReleased();
    character.AutoFireReset();
    assert character.combatState == Reloading;
    character.FinishReloading();
    assert pistol.ammo == 2 && character.ammoMap[NineMm] == 83;
    assert character.combatState == Unoccupied;
  }
}
