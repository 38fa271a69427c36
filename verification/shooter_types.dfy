/** Enumerations and fixed-width integer ranges shared by the character and its weapons. */
module ShooterTypes {

  /** ECombatState without its DefaultMAX sentinel: what the character is busy doing.
      Firing and reloading may only start from Unoccupied. */
  datatype CombatState = Unoccupied | FireTimerInProgress | Reloading | Equipping

  /** EItemState without its DefaultMAX sentinel: where a pickup item is in its life cycle. */
  datatype ItemState = Pickup | EquipInterping | PickedUp | Equipped | Falling

  /** The ammunition kinds that key the character's ammo map (EAT_9mm and EAT_AR). */
  datatype AmmoType = NineMm | AssaultRifle

  /** A reference that may be null, seen as a value. */
  datatype Option<T> = None | Some(value: T)

  const Int8Min: int := -0x80
  const Int8Max: int := 0x7F
  const Int32Min: int := -0x8000_0000
  const Int32Max: int := 0x7FFF_FFFF

  predicate IsInt8(x: int) { Int8Min <= x <= Int8Max }

  predicate IsInt32(x: int) { Int32Min <= x <= Int32Max }

  /** The value an `int8` variable holds after being assigned the integer `x`:
      two's-complement wrap-around modulo 2^8. */
  function ToInt8(x: int): (r: int)
    ensures IsInt8(r)
    ensures (x - r) % 0x100 == 0
    ensures IsInt8(x) ==> r == x
  {
    var m := x % 0x100;
    if m > Int8Max then m - 0x100 else m
  }
}
