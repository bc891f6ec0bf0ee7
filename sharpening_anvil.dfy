/**
 * The sharpening anvil: a weapon in the first slot and a sharpening kit
 * in the second offer a sharpened copy of the weapon (levels 1..2), which
 * carries one attack-damage modifier of the plugin's own and one
 * "Sharpened:" lore line at the top. Taking the result uses up one kit.
 */
module SharpeningAnvil {
  import opened Wrappers
  import opened JavaText
  import opened Items
  import opened ChatColors
  import opened AddOnTokens

  const KIT_LEVEL_KEY: string := "sharpen_kit_level"
  const WEAPON_SHARP_KEY: string := "sharpen_level"

  /** The fixed UUID that marks the plugin's own attack-damage modifier. */
  const SHARP_MOD_UUID: string := "0b3c4a7d-5b15-4b38-9a78-8d7d1f4b1c2a"
  const SHARP_MOD_NAME: string := "bossencounters_sharpen"

  /** An ADD_NUMBER attack-damage modifier; the amounts used are whole numbers. */
  datatype Modifier = Modifier(uuid: string, name: string, amount: int)

  /** An anvil stack: the item and the attack-damage modifiers its meta carries. */
  datatype Stack = Stack(item: Item, modifiers: seq<Modifier>)

  /** `isEmpty`: null, any air material, or an amount of 0 or less. */
  predicate IsEmpty(s: Option<Stack>) {
    s.None? || IsAirMaterial(s.value.item.material) || s.value.item.amount <= 0
  }

  /** `isSharpenableWeapon`: a non-air sword, axe, spear or trident. */
  predicate IsSharpenable(s: Option<Stack>) {
    s.Some? && IsWeapon(Some(s.value.item))
  }

  /** A stored INTEGER read clamped to 0..2, 0 without meta or value. */
  function ClampedLevel(item: Item, key: string): (r: int)
    ensures 0 <= r <= 2
  {
    if item.meta.None? then 0
    else
      var lvl := GetInt(item.meta.value.pdc, key);
      if lvl.None? then 0 else Min(2, Max(0, lvl.value))
  }

  /** `getKitLevel`. */
  function KitLevel(kit: Item): int { ClampedLevel(kit, KIT_LEVEL_KEY) }

  /** `getWeaponSharpLevel`. */
  function SharpLevel(weapon: Item): int { ClampedLevel(weapon, WEAPON_SHARP_KEY) }

  /** The lore line of a level: gray "Sharpened: ", then a green I for 1 or an aqua II otherwise. */
  function SharpenLine(level: int): string {
    if level == 1 then GRAY + "Sharpened: " + GREEN + "I" else GRAY + "Sharpened: " + AQUA + "II"
  }

  /** The `removeIf` test: the line without colour codes starts, in lower case, with "sharpened:". */
  predicate IsSharpenLine(l: string) {
    StartsWith(ToLower(Strip(l, false)), "sharpened:")
  }

  /** `applySharpenLore`: every sharpened line removed and the new one put first. */
  function SharpenLore(lore: seq<string>, level: int): (r: seq<string>)
    ensures |r| >= 1 && r[0] == SharpenLine(level)
    ensures forall k :: 1 <= k < |r| ==> !IsSharpenLine(r[k]) && r[k] in lore
  {
    var kept := RemoveIf(lore, IsSharpenLine);
    assert forall k :: 1 <= k < |[SharpenLine(level)] + kept| ==> ([SharpenLine(level)] + kept)[k] == kept[k - 1];
    [SharpenLine(level)] + kept
  }

  /** The plugin's modifier for a level: worth 1 at level 1 and 2 otherwise. */
  function SharpModifier(level: int): Modifier {
    Modifier(SHARP_MOD_UUID, SHARP_MOD_NAME, if level == 1 then 1 else 2)
  }

  predicate IsSharpModifier(m: Modifier) { m.uuid == SHARP_MOD_UUID }

  /**
   * `applySharpening`: without meta nothing changes; otherwise the level is
   * stored clamped to 0..2 and the lore rewritten and, when the server has
   * an attack-damage attribute, the previous own modifier is replaced by
   * the one for the level.
   */
  function ApplySharpening(s: Stack, level: int, attributeResolved: bool): Stack {
    if s.item.meta.None? then s
    else
      var meta := s.item.meta.value;
      var pdc := meta.pdc[WEAPON_SHARP_KEY := PInt(Min(2, Max(0, level)))];
      var item := s.item.(meta := Some(Meta(pdc, SharpenLore(meta.lore, level))));
      if !attributeResolved then Stack(item, s.modifiers)
      else Stack(item, RemoveIf(s.modifiers, IsSharpModifier) + [SharpModifier(level)])
  }

  /** `min(2, max(current, kitLevel))`: the level the result gets. */
  function TargetLevel(current: int, kitLevel: int): int {
    Min(2, Max(current, kitLevel))
  }

  /**
   * The result `onPrepare` offers: none unless both slots hold something,
   * the first a sharpenable weapon and the second a kit of positive level,
   * and none when the target level equals the weapon's current one.
   */
  function PrepareResult(weapon: Option<Stack>, kit: Option<Stack>, attributeResolved: bool): Option<Stack> {
    if IsEmpty(weapon) || IsEmpty(kit) || !IsSharpenable(weapon) then None
    else
      var kitLevel := KitLevel(kit.value.item);
      var current := SharpLevel(weapon.value.item);
      if kitLevel <= 0 || TargetLevel(current, kitLevel) == current then None
      else Some(ApplySharpening(weapon.value, TargetLevel(current, kitLevel), attributeResolved))
  }

  /**
   * The kit slot after a click: only a click on raw slot 2 taking a
   * non-empty, sharpened result with a positive-level kit in place uses up
   * one kit, clearing the slot when none is left.
   */
  function KitAfterTake(rawSlot: int, current: Option<Stack>, kit: Option<Stack>): Option<Stack> {
    if rawSlot != 2 || IsEmpty(current) || SharpLevel(current.value.item) <= 0 then kit
    else if IsEmpty(kit) || KitLevel(kit.value.item) <= 0 then kit
    else if kit.value.item.amount - 1 <= 0 then None
    else Some(kit.value.(item := kit.value.item.(amount := kit.value.item.amount - 1)))
  }

  /** The anvil's slots 0 (weapon), 1 (kit) and the offered result, with its repair costs. */
  class Anvil {
    var first: Option<Stack>
    var second: Option<Stack>
    var result: Option<Stack>
    var repairCost: int
    var maximumRepairCost: int

    constructor(first: Option<Stack>, second: Option<Stack>)
      ensures this.first == first && this.second == second && result.None?
      ensures repairCost == 0 && maximumRepairCost == 0
    {
      this.first := first;
      this.second := second;
      result := None;
      repairCost := 0;
      maximumRepairCost := 0;
    }

    /** `onPrepare`: the offered result, at a cost of one level when there is one. */
    method OnPrepare(attributeResolved: bool)
      modifies this
      ensures result == PrepareResult(first, second, attributeResolved)
      ensures first == old(first) && second == old(second)
      ensures result.Some? ==> repairCost == 1 && maximumRepairCost == 1
      ensures result.None? ==> repairCost == old(repairCost) && maximumRepairCost == old(maximumRepairCost)
    {
      var weapon := first;
      var kit := second;
      if IsEmpty(weapon) || IsEmpty(kit) {
        result := None;
        return;
      }
      if !IsSharpenable(weapon) {
        result := None;
        return;
      }
      var kitLevel := KitLevel(kit.value.item);
      if kitLevel <= 0 {
        result := None;
        return;
      }
      var current := SharpLevel(weapon.value.item);
      var target := Min(2, Max(current, kitLevel));
      if target == current {
        result := None;
        return;
      }
      result := Some(ApplySharpening(weapon.value, target, attributeResolved));
      repairCost := 1;
      maximumRepairCost := 1;
    }

    /** `onTakeResult`: a click on raw slot `rawSlot` holding `current`. */
    method OnTakeResult(rawSlot: int, current: Option<Stack>)
      modifies this`second
      ensures second == KitAfterTake(rawSlot, current, old(second))
    {
      if rawSlot != 2 {
        return;
      }
      if IsEmpty(current) {
        return;
      }
      if SharpLevel(current.value.item) <= 0 {
        return;
      }
      var kit := second;
      if IsEmpty(kit) {
        return;
      }
      if KitLevel(kit.value.item) <= 0 {
        return;
      }
      var newAmount := kit.value.item.amount - 1;
      if newAmount <= 0 {
        second := None;
      } else {
        second := Some(kit.value.(item := kit.value.item.(amount := newAmount)));
      }
    }
  }

  // ---------------------------------------------------------------- properties

  /** Without its colour codes an anvil line reads "Sharpened: I" or "Sharpened: II". */
  lemma StrippedLine(code: char, tail: string)
    requires IsCode(code, false) && COLOR_CHAR !in tail
    ensures Strip(GRAY + "Sharpened: " + Color(code) + tail, false) == "Sharpened: " + tail
  {
    assert GRAY + "Sharpened: " + Color(code) + tail == Color('7') + ("Sharpened: " + (Color(code) + tail));
    StripColorPrefix('7', "Sharpened: " + (Color(code) + tail), false);
    StripPlainPrefix("Sharpened: ", Color(code) + tail, false);
    StripColorPrefix(code, tail, false);
    StripPlain(tail, false);
  }

  /** "Sharpened: " followed by anything starts with "sharpened:" once lower-cased. */
  lemma LowerSharpened(tail: string)
    ensures StartsWith(ToLower("Sharpened: " + tail), "sharpened:")
  {
    var s := "Sharpened: " + tail;
    ToLowerAt(s);
    assert forall i :: 0 <= i < 10 ==> s[i] == "Sharpened:"[i];
    assert forall i :: 0 <= i < 10 ==> LowerChar("Sharpened:"[i]) == "sharpened:"[i];
    assert ToLower(s)[..10] == "sharpened:";
  }

  /** Both lines the anvil writes are recognised as sharpened lines. */
  lemma SharpenLineRecognised(level: int)
    ensures IsSharpenLine(SharpenLine(level))
  {
    if level == 1 {
      StrippedLine('a', "I");
      LowerSharpened("I");
    } else {
      StrippedLine('b', "II");
      LowerSharpened("II");
    }
  }

  /** Rewriting the lore twice leaves exactly the second line on top and nothing else changed. */
  lemma SharpenLoreTwice(lore: seq<string>, a: int, b: int)
    ensures SharpenLore(SharpenLore(lore, a), b) == SharpenLore(lore, b)
  {
    var kept := RemoveIf(lore, IsSharpenLine);
    SharpenLineRecognised(a);
    RemoveIfAppend([SharpenLine(a)], kept, IsSharpenLine);
    RemoveIfTwice(lore, IsSharpenLine);
    assert RemoveIf([SharpenLine(a)], IsSharpenLine) == [];
  }

  /** A line that is not a sharpened line survives the rewrite. */
  lemma OtherLoreKept(lore: seq<string>, level: int, other: string)
    requires other in lore && !IsSharpenLine(other)
    ensures other in SharpenLore(lore, level)
  {
    RemoveIfKeeps(lore, IsSharpenLine, other);
  }

  /**
   * After sharpening with a resolved attribute, the stack carries the
   * other modifiers it had, in order, followed by exactly one own modifier
   * worth 1 at level 1 and 2 otherwise; sharpening again replaces it.
   */
  lemma ModifierReplaced(s: Stack, level: int, again: int)
    requires s.item.meta.Some?
    ensures var mods := ApplySharpening(s, level, true).modifiers;
            |mods| >= 1 && mods[|mods| - 1] == SharpModifier(level)
            && mods[|mods| - 1].amount == (if level == 1 then 1 else 2)
            && mods[..|mods| - 1] == RemoveIf(s.modifiers, IsSharpModifier)
    ensures ApplySharpening(ApplySharpening(s, level, true), again, true).modifiers
            == ApplySharpening(s, again, true).modifiers
  {
    var kept := RemoveIf(s.modifiers, IsSharpModifier);
    var mods := kept + [SharpModifier(level)];
    assert mods[..|mods| - 1] == kept;
    RemoveIfAppend(kept, [SharpModifier(level)], IsSharpModifier);
    RemoveIfTwice(s.modifiers, IsSharpModifier);
    assert RemoveIf([SharpModifier(level)], IsSharpModifier) == [];
  }

  /** Without the attribute the modifiers are left as they were. */
  lemma NoAttributeNoModifier(s: Stack, level: int)
    ensures ApplySharpening(s, level, false).modifiers == s.modifiers
  {
  }

  /**
   * A result is offered exactly when both slots hold something, the weapon
   * is sharpenable, the kit level is positive and min(2, max(current, kit))
   * differs from the current level; the result then carries that level,
   * which is above the current one and at most 2, and its lore starts with
   * the line for it.
   */
  lemma PrepareRule(weapon: Option<Stack>, kit: Option<Stack>, attributeResolved: bool)
    ensures PrepareResult(weapon, kit, attributeResolved).Some? <==>
              (!IsEmpty(weapon) && !IsEmpty(kit) && IsSharpenable(weapon) && KitLevel(kit.value.item) > 0
               && TargetLevel(SharpLevel(weapon.value.item), KitLevel(kit.value.item)) != SharpLevel(weapon.value.item))
    ensures var r := PrepareResult(weapon, kit, attributeResolved);
            r.Some? && weapon.value.item.meta.Some? ==>
              (var current := SharpLevel(weapon.value.item);
               var target := TargetLevel(current, KitLevel(kit.value.item));
               SharpLevel(r.value.item) == target && current < target <= 2
               && r.value.item.material == weapon.value.item.material
               && r.value.item.amount == weapon.value.item.amount
               && r.value.item.meta.value.lore[0] == SharpenLine(target))
  {
  }

  /** A kit whose level the weapon already has (or exceeds) offers nothing. */
  lemma NoWastedKit(weapon: Option<Stack>, kit: Option<Stack>, attributeResolved: bool)
    requires !IsEmpty(weapon) && !IsEmpty(kit)
    requires KitLevel(kit.value.item) <= SharpLevel(weapon.value.item)
    ensures PrepareResult(weapon, kit, attributeResolved).None?
  {
  }

  /**
   * Taking the result uses up exactly one kit, clearing the slot when it
   * held one or fewer; any other click leaves the kit slot as it was.
   */
  lemma KitConsumedOnce(rawSlot: int, current: Option<Stack>, kit: Option<Stack>)
    ensures var after := KitAfterTake(rawSlot, current, kit);
            var takes := rawSlot == 2 && !IsEmpty(current) && SharpLevel(current.value.item) > 0
                         && !IsEmpty(kit) && KitLevel(kit.value.item) > 0;
            (!takes ==> after == kit)
            && (takes && kit.value.item.amount <= 1 ==> after.None?)
            && (takes && kit.value.item.amount > 1 ==>
                  after.Some? && after.value.item.amount == kit.value.item.amount - 1
                  && after.value.item.material == kit.value.item.material
                  && after.value.item.meta == kit.value.item.meta)
  {
  }

  /** The sharpenable weapons: the names ending in _SWORD, _AXE or _SPEAR, and TRIDENT, never air. */
  lemma SharpenableNames(s: Option<Stack>)
    requires s.Some?
    ensures IsSharpenable(s) <==>
              (s.value.item.material != AIR
               && (EndsWith(s.value.item.material, "_SWORD") || EndsWith(s.value.item.material, "_AXE")
                   || EndsWith(s.value.item.material, "_SPEAR") || s.value.item.material == "TRIDENT"))
  {
  }
}
