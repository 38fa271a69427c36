/** The weapon fields that the character's combat logic reads and writes. */
module Weapons {
  import opened ShooterTypes
  import ShooterSpec

  class Weapon {
    /** Rounds in the magazine (`int32`). */
    var ammo: int
    /** Rounds the magazine holds when full (`int32`). */
    var magazineCapacity: int
    var ammoType: AmmoType
    var itemState: ItemState

    constructor (ammo: int, magazineCapacity: int, ammoType: AmmoType)
      requires ShooterSpec.MagazineOk(ShooterSpec.Magazine(ammo, magazineCapacity, ammoType))
      ensures Valid()
      ensures Magazine() == ShooterSpec.Magazine(ammo, magazineCapacity, ammoType)
      ensures itemState == Pickup
    {
      this.ammo := ammo;
      this.magazineCapacity := magazineCapacity;
      this.ammoType := ammoType;
      itemState := Pickup;
    }

    function Magazine(): ShooterSpec.Magazine
      reads this
    {
      ShooterSpec.Magazine(ammo, magazineCapacity, ammoType)
    }

    ghost predicate Valid()
      reads this
    {
      ShooterSpec.MagazineOk(Magazine())
    }

    /** One round leaves the magazine when the character shoots. */
    method DecrementAmmo()
      requires IsInt32(ammo - 1)
      modifies this`ammo
      ensures ammo == old(ammo) - 1
    {
      ammo := ammo - 1;
    }

    /** `amount` rounds enter the magazine when a reload finishes. */
    method ReloadAmmo(amount: int)
      requires IsInt32(amount) && IsInt32(ammo + amount)
      modifies this`ammo
      ensures ammo == old(ammo) + amount
    {
      ammo := ammo + amount;
    }

    method SetItemState(state: ItemState)
      modifies this`itemState
      ensures itemState == state
    {
      itemState := state;
    }
  }
}
