/** Small shared value types: an optional value (a C# null reference) and the
    outcome of a handler that may end in a runtime exception. */
module Wrappers {

  /** `None` stands for a C# `null` reference. */
  datatype Option<+T> = None | Some(value: T)

  /** The .NET exceptions the modelled code can run into. */
  datatype Fault =
    | KeyNotFound          // Dictionary indexer on a missing key
    | InvalidOperation     // Enumerable.SingleOrDefault with two or more matches
    | NullReference        // member access on a null reference
    | IndexOutOfRange      // array index outside its bounds
    | DivideByZero         // integer division or remainder by zero

  /** How a void handler ended: normally, or by throwing. */
  datatype Outcome = Completed | Threw(fault: Fault)

  /** A value or the exception raised while computing it. */
  datatype Result<+T> = Ok(value: T) | Err(fault: Fault)
}

/** Positions and directions. The client only copies coordinates it receives
    into transforms, so they are kept as exact reals. */
module Geometry {
  datatype Vec2 = Vec2(x: real, y: real)
  datatype Vec3 = Vec3(x: real, y: real, z: real)
}

/** UnityEngine.Mathf on integers. */
module UnityMath {

  /** Mathf.Clamp(int value, int min, int max): below `min` gives `min`,
      otherwise above `max` gives `max`, otherwise `value` itself. */
  function Clamp(value: int, min: int, max: int): (r: int)
    ensures min <= max ==> min <= r <= max
    ensures min <= value <= max ==> r == value
    ensures value < min ==> r == min
    ensures min <= max < value ==> r == max
    ensures min <= value ==> r <= value
    ensures r == value || r == min || r == max
  {
    if value < min then min
    else if value > max then max
    else value
  }

  /** Mathf.Min(int a, int b). */
  function Min(a: int, b: int): (r: int)
    ensures r <= a && r <= b
    ensures r == a || r == b
  {
    if a < b then a else b
  }

  /** C#'s `%` on int, which truncates toward zero: the remainder takes the
      sign of the dividend, unlike Dafny's, which is never negative. */
  function CsRem(a: int, b: int): (r: int)
    requires b != 0
    ensures a >= 0 && b > 0 ==> r == a % b
    ensures a >= 0 ==> 0 <= r
    ensures a < 0 ==> r <= 0
    ensures b > 0 ==> -b < r < b
    ensures b < 0 ==> b < r < -b
  {
    var m := (if a < 0 then -a else a) % (if b < 0 then -b else b);
    if a < 0 then -m else m
  }
}

/** The requests the client pushes to the server through NetworkClient.Instance.
    Serialisation and the socket are outside the model: a send is one event
    appended to the sending component's log. */
module Outbound {
  import opened Geometry

  datatype Command =
    | ShootRequest(position: Vec3, direction: Vec2)
    | ReloadRequest
    | MeleeAttack(targetName: string, damage: real)
    | InventorySwitch(slotIndex: int)
    | UseItem(slotIndex: int)
    | ThrowGrenade(spawnPosition: Vec2, throwDirection: Vec2)
    | AmmoPickup(pickupId: string, ammoType: string, amount: int)
}
