/** The player's slot inventory (InventorySystem.cs): a fixed-length list of
    optional items replaced wholesale by the server, a current slot index the
    server assigns, and input rules that only ever send requests. */
module InventorySlots {
  import opened Wrappers
  import opened Geometry
  import opened UnityMath
  import opened Outbound

  /** An item in a slot; `itemType` is "Hand", "Weapon", "Health", "Shield"
      or "Grenade". */
  datatype InventoryItem = InventoryItem(itemType: string, itemName: string, weaponName: string, amount: int)

  /** A slot list: `None` is an empty slot. */
  type Slots = seq<Option<InventoryItem>>

  /** The number of slots a `maxSlots` setting yields: the fill loops run
      `maxSlots` times, and not at all when it is not positive. */
  function SlotCount(maxSlots: int): (n: nat)
    ensures maxSlots >= 0 ==> n == maxSlots
    ensures maxSlots <= 0 ==> n == 0
  {
    if maxSlots > 0 then maxSlots else 0
  }

  /** The slot list SetFullInventory builds from the server's items. */
  function Refill(items: Slots, maxSlots: int): (r: Slots)
    ensures |r| == SlotCount(maxSlots)
    ensures |items| >= |r| ==> r == items[..|r|]
    ensures |items| < |r| ==> r[..|items|] == items && forall i :: |items| <= i < |r| ==> r[i] == None
  {
    seq(SlotCount(maxSlots), i requires 0 <= i => if i < |items| then items[i] else None)
  }

  /** GetCurrentItem: the item under `index`, or nothing when the index is
      outside the list or the slot is empty. */
  function ItemAt(slots: Slots, index: int): (r: Option<InventoryItem>)
    ensures !(0 <= index < |slots|) ==> r == None
    ensures 0 <= index < |slots| ==> r == slots[index]
    ensures r.Some? ==> r.value in (set k | 0 <= k < |slots| && slots[k].Some? :: slots[k].value)
  {
    if 0 <= index < |slots| then slots[index] else None
  }

  /** The guard of RequestSlotSwitch: inside the slot range and not empty. */
  predicate CanSwitchTo(slots: Slots, maxSlots: int, slotIndex: int)
    requires |slots| == SlotCount(maxSlots)
  {
    0 <= slotIndex < maxSlots && slots[slotIndex].Some?
  }

  /** What RequestSlotSwitch sends: a switch request for a valid, non-empty
      slot, and nothing otherwise. */
  function SwitchRequest(slots: Slots, maxSlots: int, slotIndex: int): (r: seq<Command>)
    requires |slots| == SlotCount(maxSlots)
    ensures |r| <= 1
    ensures r == [InventorySwitch(slotIndex)] <==> 0 <= slotIndex < |slots| && slots[slotIndex].Some?
    ensures r == [] <==> !CanSwitchTo(slots, maxSlots, slotIndex)
  {
    if CanSwitchTo(slots, maxSlots, slotIndex) then [InventorySwitch(slotIndex)] else []
  }

  /** The slot a scroll step asks for: the previous slot, wrapping, when
      scrolling up; the next slot, wrapping, when scrolling down. */
  function ScrollTarget(current: int, maxSlots: int, up: bool): int
    requires maxSlots != 0
  {
    if up then CsRem(current - 1 + maxSlots, maxSlots) else CsRem(current + 1, maxSlots)
  }

  /** The remainder of a dividend below twice the divisor. */
  lemma ModBelowTwice(a: int, m: int)
    requires 0 < m && 0 <= a < 2 * m
    ensures a % m == if a < m then a else a - m
  {
  }

  /** From a slot inside the range, both scroll targets stay inside it, and
      are the neighbouring slots modulo the slot count. */
  lemma ScrollTargetInRange(current: int, maxSlots: int, up: bool)
    requires 0 <= current < maxSlots
    ensures 0 <= ScrollTarget(current, maxSlots, up) < maxSlots
    ensures up ==> ScrollTarget(current, maxSlots, up) == if current == 0 then maxSlots - 1 else current - 1
    ensures !up ==> ScrollTarget(current, maxSlots, up) == if current == maxSlots - 1 then 0 else current + 1
  {
    if up {
      ModBelowTwice(current - 1 + maxSlots, maxSlots);
    } else {
      ModBelowTwice(current + 1, maxSlots);
    }
  }

  /** Scrolling up then down (or down then up) from a slot in range returns
      to it. */
  lemma ScrollRoundTrip(current: int, maxSlots: int, up: bool)
    requires 0 <= current < maxSlots
    ensures ScrollTarget(ScrollTarget(current, maxSlots, up), maxSlots, !up) == current
  {
    ScrollTargetInRange(current, maxSlots, up);
    ScrollTargetInRange(ScrollTarget(current, maxSlots, up), maxSlots, !up);
  }

  /** The keyboard and mouse input of one frame: the number keys pressed (by
      slot index), the scroll wheel, E, G, and where a grenade would be
      thrown from and towards (worked out from the mouse by the engine). */
  datatype InventoryInput = InventoryInput(
    numberKeys: set<int>,
    scroll: real,
    usePressed: bool,
    throwPressed: bool,
    throwSpawn: Vec2,
    throwDirection: Vec2)

  /** The switch requests of the number-key loop over slots [0, n). */
  function NumberKeyRequests(slots: Slots, maxSlots: int, keys: set<int>, n: nat): (r: seq<Command>)
    requires |slots| == SlotCount(maxSlots)
    ensures |r| <= n
  {
    if n == 0 then []
    else
      NumberKeyRequests(slots, maxSlots, keys, n - 1) +
      (if n - 1 in keys then SwitchRequest(slots, maxSlots, n - 1) else [])
  }

  /** The number-key loop sends a switch request for a slot below `n`
      exactly when its key is pressed and the slot may be switched to. */
  lemma {:induction false} NumberKeyRequestsExact(slots: Slots, maxSlots: int, keys: set<int>, n: nat)
    requires |slots| == SlotCount(maxSlots)
    ensures forall c :: c in NumberKeyRequests(slots, maxSlots, keys, n) ==>
      c.InventorySwitch? && c.slotIndex < n && c.slotIndex in keys && CanSwitchTo(slots, maxSlots, c.slotIndex)
    ensures forall j :: 0 <= j < n && j in keys && CanSwitchTo(slots, maxSlots, j) ==>
      InventorySwitch(j) in NumberKeyRequests(slots, maxSlots, keys, n)
  {
    if n > 0 {
      NumberKeyRequestsExact(slots, maxSlots, keys, n - 1);
    }
  }

  /** The number-key loop visits each slot once, so no slot is asked for
      twice in one frame. */
  lemma {:induction false} NumberKeyRequestsOnePerSlot(slots: Slots, maxSlots: int, keys: set<int>, n: nat)
    requires |slots| == SlotCount(maxSlots)
    ensures forall j :: multiset(NumberKeyRequests(slots, maxSlots, keys, n))[InventorySwitch(j)] <= 1
  {
    if n > 0 {
      var prev := NumberKeyRequests(slots, maxSlots, keys, n - 1);
      var last := if n - 1 in keys then SwitchRequest(slots, maxSlots, n - 1) else [];
      NumberKeyRequestsOnePerSlot(slots, maxSlots, keys, n - 1);
      NumberKeyRequestsExact(slots, maxSlots, keys, n - 1);
      assert multiset(prev + last) == multiset(prev) + multiset(last);
      forall j
        ensures multiset(prev + last)[InventorySwitch(j)] <= 1
      {
        if j == n - 1 {
          assert InventorySwitch(j) !in prev;
        } else {
          assert InventorySwitch(j) !in last;
        }
      }
    }
  }

  /** The requests a scroll sends, or the exception `% maxSlots` raises when
      there are no slots. */
  function ScrollRequests(slots: Slots, maxSlots: int, current: int, scroll: real): (r: Result<seq<Command>>)
    requires |slots| == SlotCount(maxSlots)
    ensures r.Err? <==> scroll != 0.0 && maxSlots == 0
    ensures r.Err? ==> r.fault == DivideByZero
    ensures scroll == 0.0 ==> r == Ok([])
    ensures r.Ok? ==> |r.value| <= 1
    ensures r.Ok? && scroll != 0.0 ==>
      var target := ScrollTarget(current, maxSlots, scroll > 0.0);
      && (r.value == [] <==> !CanSwitchTo(slots, maxSlots, target))
      && (r.value != [] ==> r.value == [InventorySwitch(target)])
    ensures r.Ok? && 0 <= current < maxSlots && scroll != 0.0 ==>
      (r.value == [InventorySwitch(ScrollTarget(current, maxSlots, scroll > 0.0))] <==>
       slots[ScrollTarget(current, maxSlots, scroll > 0.0)].Some?)
  {
    if scroll == 0.0 then Ok([])
    else if maxSlots == 0 then Err(DivideByZero)
    else
      Ok(SwitchRequest(slots, maxSlots, ScrollTarget(current, maxSlots, scroll > 0.0)))
  }

  /** A server-set index past the end is not rejected: scrolling down from
      index 7 of six slots asks for slot 8 % 6 == 2 when it is occupied. */
  lemma ScrollFromIndexPastTheEnd(slots: Slots)
    requires |slots| == 6 && slots[2].Some?
    ensures ScrollRequests(slots, 6, 7, -1.0) == Ok([InventorySwitch(2)])
  {
  }

  /** The E-key rule: a use request only for a Health or Shield item. */
  function UseRequest(item: Option<InventoryItem>, current: int): (r: seq<Command>)
    ensures r == [UseItem(current)] <==> item.Some? && (item.value.itemType == "Health" || item.value.itemType == "Shield")
    ensures r == [] || r == [UseItem(current)]
  {
    if item.Some? && (item.value.itemType == "Health" || item.value.itemType == "Shield") then [UseItem(current)] else []
  }

  /** The G-key rule: a throw only for a Grenade item with some left. */
  function ThrowRequest(item: Option<InventoryItem>, spawn: Vec2, direction: Vec2): (r: seq<Command>)
    ensures r == [ThrowGrenade(spawn, direction)] <==> item.Some? && item.value.itemType == "Grenade" && item.value.amount > 0
    ensures r == [] || r == [ThrowGrenade(spawn, direction)]
  {
    if item.Some? && item.value.itemType == "Grenade" && item.value.amount > 0 then [ThrowGrenade(spawn, direction)] else []
  }

  /** Everything HandleInventoryInput sends in one frame, in order, or the
      exception the scroll step raises. */
  function InputRequests(slots: Slots, maxSlots: int, current: int, input: InventoryInput): (r: Result<seq<Command>>)
    requires |slots| == SlotCount(maxSlots)
    ensures r.Err? <==> input.scroll != 0.0 && maxSlots == 0
    ensures r.Err? ==> r.fault == DivideByZero
  {
    var keys := NumberKeyRequests(slots, maxSlots, input.numberKeys, SlotCount(maxSlots));
    match ScrollRequests(slots, maxSlots, current, input.scroll)
    case Err(f) => Err(f)
    case Ok(scrolled) =>
      Ok(keys + scrolled + ItemRequests(ItemAt(slots, current), current, input))
  }

  /** The E and G steps of a frame, on the current item. */
  function ItemRequests(item: Option<InventoryItem>, current: int, input: InventoryInput): seq<Command> {
    (if input.usePressed then UseRequest(item, current) else []) +
    (if input.throwPressed then ThrowRequest(item, input.throwSpawn, input.throwDirection) else [])
  }

  /** What one frame of input may send: only switches to slots that may be
      switched to, a use request only for the current slot holding a Health
      or Shield item with E down, and a throw only for a Grenade with some
      left with G down. */
  lemma InputRequestsAreGuarded(slots: Slots, maxSlots: int, current: int, input: InventoryInput)
    requires |slots| == SlotCount(maxSlots)
    ensures var r := InputRequests(slots, maxSlots, current, input);
      r.Ok? ==> forall c :: c in r.value ==>
        match c
        case InventorySwitch(j) => CanSwitchTo(slots, maxSlots, j)
        case UseItem(j) =>
          && input.usePressed && j == current && ItemAt(slots, current).Some?
          && ItemAt(slots, current).value.itemType in {"Health", "Shield"}
        case ThrowGrenade(_, _) =>
          && input.throwPressed && ItemAt(slots, current).Some?
          && ItemAt(slots, current).value.itemType == "Grenade" && ItemAt(slots, current).value.amount > 0
        case _ => false
  {
    NumberKeyRequestsExact(slots, maxSlots, input.numberKeys, SlotCount(maxSlots));
  }

  /** Appending three batches of requests one after another appends them
      all at once. */
  lemma AppendBatches(sent: seq<Command>, a: seq<Command>, b: seq<Command>, c: seq<Command>)
    ensures sent + a + b + c == sent + (a + b + c)
  {
  }

  /** The MonoBehaviour: `inventory` always holds one entry per slot. */
  class InventorySystem {
    const maxSlots: int
    const isLocal: bool
    var inventory: Slots
    var currentSlotIndex: int
    var sent: seq<Command>

    ghost predicate Valid()
      reads this
    {
      |inventory| == SlotCount(maxSlots)
    }

    /** Awake fills the list with empty slots; Start decides `isLocal`. */
    constructor(maxSlots: int, isLocal: bool)
      ensures this.maxSlots == maxSlots && this.isLocal == isLocal
      ensures Valid() && forall i :: 0 <= i < |inventory| ==> inventory[i] == None
      ensures currentSlotIndex == 0 && sent == []
    {
      this.maxSlots := maxSlots;
      this.isLocal := isLocal;
      var slots: Slots := [];
      var i := 0;
      while i < maxSlots
        invariant 0 <= i
        invariant i <= maxSlots || i == 0
        invariant |slots| == i && forall k :: 0 <= k < i ==> slots[k] == None
      {
        slots := slots + [None];
        i := i + 1;
      }
      inventory := slots;
      currentSlotIndex := 0;
      sent := [];
    }

    method RequestSlotSwitch(slotIndex: int)
      requires Valid()
      modifies this`sent
      ensures sent == old(sent) + SwitchRequest(inventory, maxSlots, slotIndex)
    {
      if slotIndex < 0 || slotIndex >= maxSlots {
        return;
      }
      if inventory[slotIndex].None? {
        return;
      }
      sent := sent + [InventorySwitch(slotIndex)];
    }

    /** The server confirmed a switch: only the index changes; the item
        is used for the equip visuals alone. */
    method UpdateInventoryFromServer(slotIndex: int, item: Option<InventoryItem>)
      modifies this`currentSlotIndex
      ensures currentSlotIndex == slotIndex
    {
      currentSlotIndex := slotIndex;
    }

    /** The full inventory arrived: the list is rebuilt and the index set,
        then `items[currentIndex]` is read for the equip visuals, which
        throws when the index is outside `items`. */
    method SetFullInventory(items: Slots, currentIndex: int) returns (outcome: Outcome)
      modifies this`inventory, this`currentSlotIndex
      ensures Valid()
      ensures inventory == Refill(items, maxSlots) && currentSlotIndex == currentIndex
      ensures outcome == if 0 <= currentIndex < |items| then Completed else Threw(IndexOutOfRange)
    {
      var slots: Slots := [];
      var i := 0;
      while i < maxSlots
        invariant 0 <= i
        invariant i <= maxSlots || i == 0
        invariant |slots| == i
        invariant forall k :: 0 <= k < i ==> slots[k] == if k < |items| then items[k] else None
      {
        if i < |items| {
          slots := slots + [items[i]];
        } else {
          slots := slots + [None];
        }
        i := i + 1;
      }
      inventory := slots;
      currentSlotIndex := currentIndex;
      if 0 <= currentIndex < |items| {
        outcome := Completed;
      } else {
        outcome := Threw(IndexOutOfRange);
      }
    }

    method GetCurrentItem() returns (item: Option<InventoryItem>)
      ensures item == ItemAt(inventory, currentSlotIndex)
    {
      if currentSlotIndex < 0 || currentSlotIndex >= |inventory| {
        return None;
      }
      return inventory[currentSlotIndex];
    }

    /** The number-key loop: one switch request per pressed key whose slot
        may be switched to, in slot order. */
    method HandleNumberKeys(numberKeys: set<int>)
      requires Valid()
      modifies this`sent
      ensures sent == old(sent) + NumberKeyRequests(inventory, maxSlots, numberKeys, SlotCount(maxSlots))
    {
      var i := 0;
      while i < maxSlots
        invariant 0 <= i
        invariant i <= maxSlots || i == 0
        invariant sent == old(sent) + NumberKeyRequests(inventory, maxSlots, numberKeys, i)
      {
        if i in numberKeys {
          RequestSlotSwitch(i);
        }
        i := i + 1;
      }
    }

    /** The scroll wheel: up asks for the previous slot, down for the next,
        both wrapping with C#'s remainder. */
    method HandleScroll(scroll: real) returns (outcome: Outcome)
      requires Valid()
      modifies this`sent
      ensures match ScrollRequests(inventory, maxSlots, currentSlotIndex, scroll)
        case Ok(cmds) => outcome == Completed && sent == old(sent) + cmds
        case Err(f) => outcome == Threw(f) && sent == old(sent)
    {
      if scroll > 0.0 {
        if maxSlots == 0 {
          return Threw(DivideByZero);
        }
        RequestSlotSwitch(CsRem(currentSlotIndex - 1 + maxSlots, maxSlots));
      } else if scroll < 0.0 {
        if maxSlots == 0 {
          return Threw(DivideByZero);
        }
        RequestSlotSwitch(CsRem(currentSlotIndex + 1, maxSlots));
      }
      return Completed;
    }

    /** E uses a Health or Shield item in the current slot; G throws a
        Grenade from it if it has some left. */
    method HandleItemKeys(input: InventoryInput)
      modifies this`sent
      ensures sent == old(sent) + ItemRequests(ItemAt(inventory, currentSlotIndex), currentSlotIndex, input)
    {
      if input.usePressed {
        var current := GetCurrentItem();
        if current.Some? && (current.value.itemType == "Health" || current.value.itemType == "Shield") {
          sent := sent + [UseItem(currentSlotIndex)];
        }
      }
      ghost var afterUse := sent;
      if input.throwPressed {
        var current := GetCurrentItem();
        if current.Some? && current.value.itemType == "Grenade" && current.value.amount > 0 {
          sent := sent + [ThrowGrenade(input.throwSpawn, input.throwDirection)];
        }
      }
      assert sent == afterUse + if input.throwPressed then ThrowRequest(ItemAt(inventory, currentSlotIndex), input.throwSpawn, input.throwDirection) else [];
    }

    /** One frame of input: the number keys in slot order, then the scroll
        wheel, then E (use a Health or Shield item), then G (throw a
        Grenade that has some left). Only `sent` changes. */
    method HandleInventoryInput(input: InventoryInput) returns (outcome: Outcome)
      requires Valid()
      modifies this`sent
      ensures var r := InputRequests(inventory, maxSlots, currentSlotIndex, input);
        && (r.Ok? ==> outcome == Completed && sent == old(sent) + r.value)
        && (r.Err? ==> outcome == Threw(r.fault) && sent == old(sent))
    {
      ghost var keys := NumberKeyRequests(inventory, maxSlots, input.numberKeys, SlotCount(maxSlots));
      ghost var items := ItemRequests(ItemAt(inventory, currentSlotIndex), currentSlotIndex, input);
      HandleNumberKeys(input.numberKeys);
      ghost var scroll := ScrollRequests(inventory, maxSlots, currentSlotIndex, input.scroll);
      outcome := HandleScroll(input.scroll);
      if outcome.Threw? {
        assert InputRequests(inventory, maxSlots, currentSlotIndex, input) == Err(scroll.fault);
        return;
      }
      ghost var scrolled := scroll.value;
      HandleItemKeys(input);
      AppendBatches(old(sent), keys, scrolled, items);
      assert InputRequests(inventory, maxSlots, currentSlotIndex, input) == Ok(keys + scrolled + items);
    }

    /** Update: input is read only on the local player's inventory. */
    method Update(input: InventoryInput) returns (outcome: Outcome)
      requires Valid()
      modifies this`sent
      ensures !isLocal ==> outcome == Completed && sent == old(sent)
      ensures isLocal ==> var r := InputRequests(inventory, maxSlots, currentSlotIndex, input);
        && (r.Ok? ==> outcome == Completed && sent == old(sent) + r.value)
        && (r.Err? ==> outcome == Threw(r.fault) && sent == old(sent))
    {
      if !isLocal {
        return Completed;
      }
      outcome := HandleInventoryInput(input);
    }
  }
}
