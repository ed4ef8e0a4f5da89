/** The inventory bar's decision rules (InventoryUI.cs): which slot is
    highlighted, which is shown empty, which background and icon a slot
    gets, and whether its amount label is visible. */
module InventoryDisplay {
  import opened Wrappers
  import opened InventorySlots
  import opened WeaponAssets

  /** The icons a slot can show; a weapon shows its asset's icon. */
  datatype Sprite = HandIcon | HealthIcon | ShieldIcon | GrenadeIcon | DefaultWeaponIcon | WeaponIcon(asset: WeaponAsset)

  /** The three slot backgrounds. */
  datatype Background = SelectedBackground | EmptyBackground | NormalBackground

  /** What a slot display remembers: its item and whether it is selected. */
  datatype SlotState = SlotState(currentItem: Option<InventoryItem>, isCurrentlySelected: bool)

  /** How a slot looks: its icon (none: hidden), its amount label (none:
      hidden) and its background. */
  datatype SlotLook = SlotLook(icon: Option<Sprite>, amountLabel: Option<int>, background: Background)

  /** GetIconForItem: nothing for no item; the fixed icons for Hand,
      Health, Shield and Grenade; a weapon's own icon when its asset has
      one; the default weapon icon for everything else. */
  function GetIconForItem(catalogue: Catalogue, item: Option<InventoryItem>): (r: Option<Sprite>)
    ensures r.None? <==> item.None?
    ensures item.Some? && item.value.itemType == "Hand" ==> r == Some(HandIcon)
    ensures item.Some? && item.value.itemType == "Health" ==> r == Some(HealthIcon)
    ensures item.Some? && item.value.itemType == "Shield" ==> r == Some(ShieldIcon)
    ensures item.Some? && item.value.itemType == "Grenade" ==> r == Some(GrenadeIcon)
    ensures item.Some? && item.value.itemType !in {"Hand", "Health", "Shield", "Grenade", "Weapon"} ==>
      r == Some(DefaultWeaponIcon)
    ensures item.Some? && item.value.itemType == "Weapon" ==>
      var asset := GetWeaponData(catalogue, item.value.weaponName);
      && (asset.Some? && asset.value.hasIcon ==> r == Some(WeaponIcon(asset.value)))
      && (asset.None? || !asset.value.hasIcon ==> r == Some(DefaultWeaponIcon))
    ensures r.Some? && r.value.WeaponIcon? ==>
      && item.value.itemType == "Weapon"
      && GetWeaponData(catalogue, item.value.weaponName) == Some(r.value.asset)
      && r.value.asset.hasIcon
  {
    match item
    case None => None
    case Some(it) =>
      match it.itemType
      case "Hand" => Some(HandIcon)
      case "Health" => Some(HealthIcon)
      case "Shield" => Some(ShieldIcon)
      case "Grenade" => Some(GrenadeIcon)
      case "Weapon" =>
        var asset := GetWeaponData(catalogue, it.weaponName);
        if asset.Some? && asset.value.hasIcon then Some(WeaponIcon(asset.value)) else Some(DefaultWeaponIcon)
      case _ => Some(DefaultWeaponIcon)
  }

  /** UpdateBackgroundColor: selected wins over empty, empty over normal. */
  function BackgroundFor(selected: bool, isEmpty: bool): (r: Background)
    ensures r == SelectedBackground <==> selected
    ensures r == EmptyBackground <==> !selected && isEmpty
    ensures r == NormalBackground <==> !selected && !isEmpty
  {
    if selected then SelectedBackground
    else if isEmpty then EmptyBackground
    else NormalBackground
  }

  /** The look UpdateDisplay or ShowEmpty gives a slot: an item shows its
      icon and, when it has a positive amount, the amount; an empty slot
      shows neither. */
  function Look(catalogue: Catalogue, s: SlotState): (r: SlotLook)
    ensures r.icon == GetIconForItem(catalogue, s.currentItem)
    ensures r.icon.None? <==> s.currentItem.None?
    ensures r.amountLabel.Some? <==> s.currentItem.Some? && s.currentItem.value.amount > 0
    ensures r.amountLabel.Some? ==> r.amountLabel.value == s.currentItem.value.amount
    ensures r.background == BackgroundFor(s.isCurrentlySelected, s.currentItem.None?)
  {
    match s.currentItem
    case None => SlotLook(None, None, BackgroundFor(s.isCurrentlySelected, true))
    case Some(it) =>
      SlotLook(GetIconForItem(catalogue, s.currentItem), if it.amount > 0 then Some(it.amount) else None,
               BackgroundFor(s.isCurrentlySelected, false))
  }

  /** What RefreshAllSlots leaves in slot display `i`. */
  function SlotFor(items: Slots, currentSlot: int, i: nat): (r: SlotState)
    ensures r.isCurrentlySelected <==> i == currentSlot
    ensures r.currentItem.None? <==> i >= |items| || items[i].None?
    ensures r.currentItem.Some? ==> r.currentItem == items[i]
  {
    SlotState(if i < |items| then items[i] else None, i == currentSlot)
  }

  /** The slot displays after a refresh, for `n` displays. */
  function Refreshed(n: nat, items: Slots, currentSlot: int): (r: seq<SlotState>)
    ensures |r| == n
    ensures forall i :: 0 <= i < n ==> r[i] == SlotFor(items, currentSlot, i)
  {
    seq(n, i requires 0 <= i < n => SlotFor(items, currentSlot, i))
  }

  /** After a refresh exactly one display is selected when the current slot
      has a display, and none otherwise. */
  lemma OneSelected(n: nat, items: Slots, currentSlot: int)
    ensures var r := Refreshed(n, items, currentSlot);
      forall i, j :: 0 <= i < j < n ==> !(r[i].isCurrentlySelected && r[j].isCurrentlySelected)
    ensures 0 <= currentSlot < n ==> Refreshed(n, items, currentSlot)[currentSlot].isCurrentlySelected
    ensures !(0 <= currentSlot < n) ==> forall i :: 0 <= i < n ==> !Refreshed(n, items, currentSlot)[i].isCurrentlySelected
  {
  }

  /** The MonoBehaviour: one display per slot object found at start, and
      the slot index seen at the last refresh. */
  class InventoryUI {
    var slots: seq<SlotState>
    var lastSelectedSlot: int

    /** InitializeSlots: one blank display per child of the container. */
    constructor(childCount: nat)
      ensures |slots| == childCount && forall i :: 0 <= i < childCount ==> slots[i] == SlotState(None, false)
      ensures lastSelectedSlot == -1
    {
      slots := seq(childCount, _ => SlotState(None, false));
      lastSelectedSlot := -1;
    }

    /** RefreshAllSlots against the inventory's slots and current index:
        every display is rewritten and the index remembered; the result
        says whether the index moved since the last refresh. */
    method RefreshAllSlots(items: Slots, currentSlot: int) returns (selectionChanged: bool)
      modifies this
      ensures selectionChanged <==> currentSlot != old(lastSelectedSlot)
      ensures lastSelectedSlot == currentSlot
      ensures slots == Refreshed(|old(slots)|, items, currentSlot)
    {
      selectionChanged := currentSlot != lastSelectedSlot;
      lastSelectedSlot := currentSlot;
      var i := 0;
      while i < |slots|
        invariant 0 <= i <= |slots| == |old(slots)|
        invariant lastSelectedSlot == currentSlot
        invariant forall k :: 0 <= k < i ==> slots[k] == SlotFor(items, currentSlot, k)
      {
        var isSelected := i == currentSlot;
        if i < |items| && items[i].Some? {
          slots := slots[i := SlotState(items[i], isSelected)];
        } else {
          slots := slots[i := SlotState(None, isSelected)];
        }
        i := i + 1;
      }
    }
  }
}
