/**
 * The older, hard-wired add-on listener: the same sneak-and-right-click
 * gesture, but the token's type name is routed by a fixed switch to a
 * PDC key, a lore prefix and a target test, and every level is clamped to
 * 1..2, both on the way in and when stored.
 */
module LegacyAddOnListeners {
  import opened Wrappers
  import opened JavaText
  import opened Items
  import opened Inventories
  import opened ChatColors
  import opened AddOnTokens

  /** The target test a route demands. */
  datatype Requirement = NeedWeapon | NeedToolOrWeapon | NeedArmor | NeedHelmet

  /** Where a token type goes: the required target, the PDC key and the lore prefix. */
  datatype Route = Route(need: Requirement, key: string, prefix: string)

  /** `clampLevel`: into 1..2. */
  function ClampLevel(lvl: int): (r: int)
    ensures 1 <= r <= 2
    ensures 1 <= lvl <= 2 ==> r == lvl
  {
    if lvl < 1 then 1 else if lvl > 2 then 2 else lvl
  }

  /** The `switch` of `applyTokenToTarget` over the normalized type name; None for its default. */
  function RouteOf(tokenType: string): Option<Route> {
    if tokenType == "SHARPENING" then Some(Route(NeedWeapon, "sharpen_level", GRAY + "Sharpened: "))
    else if tokenType == "MARK" then Some(Route(NeedWeapon, "mark_level", GRAY + "Mark: "))
    else if tokenType == "HASTE" then Some(Route(NeedToolOrWeapon, "haste_level", GRAY + "Haste: "))
    else if tokenType == "STRENGTH" then Some(Route(NeedWeapon, "strength_level", GRAY + "Strength: "))
    else if tokenType in {"FIRE_RES", "FIRE_RESIST", "FIRE_RESISTANCE"} then
      Some(Route(NeedArmor, "fire_res_level", GRAY + "Fire Res: "))
    else if tokenType == "HEALTH_BOOST" then Some(Route(NeedArmor, "health_boost_level", GRAY + "Health Boost: "))
    else if tokenType == "NIGHT_VISION" then Some(Route(NeedHelmet, "night_vision_level", GRAY + "Night Vision: "))
    else if tokenType == "WATER_BREATHING" then
      Some(Route(NeedHelmet, "water_breathing_level", GRAY + "Water Breathing: "))
    else None
  }

  predicate Meets(need: Requirement, target: Option<Item>) {
    match need
    case NeedWeapon => IsWeapon(target)
    case NeedToolOrWeapon => IsToolOrWeapon(target)
    case NeedArmor => IsArmor(target)
    case NeedHelmet => IsHelmet(target)
  }

  /** The level stored under `key`, 0 when absent. */
  function StoredLevel(item: Item, key: string): int {
    if item.meta.None? then 0 else GetInt(item.meta.value.pdc, key).GetOr(0)
  }

  /**
   * `applyLevelToItem`: clamp(max(current, level)) stored and the lore line
   * rewritten ("I" for 1, "II" otherwise), or None (false) without meta or
   * when that equals the current level.
   */
  function ApplyLevelToItem(item: Item, level: int, key: string, prefix: string): (r: Option<Item>)
  {
    if item.meta.None? then None
    else
      var meta := item.meta.value;
      var current := GetInt(meta.pdc, key).GetOr(0);
      var next := ClampLevel(if current >= level then current else level);
      if next == current then None
      else
        var line := prefix + (if next == 1 then "I" else "II");
        assert StartsWith(line, prefix) by { assert line[..|prefix|] == prefix; }
        Some(item.(meta := Some(Meta(meta.pdc[key := PInt(next)], WithOwnedLine(meta.lore, prefix, line)))))
  }

  /** `applyTokenToTarget`: the rewritten target, or None (false). */
  function ApplyTokenToTarget(typeRaw: string, tokenLevel: int, target: Option<Item>): (r: Option<Item>)
  {
    if IsNothing(target) then None
    else
      var route := RouteOf(Normalize(typeRaw));
      if route.None? || !Meets(route.value.need, target) then None
      else ApplyLevelToItem(target.value, ClampLevel(tokenLevel), route.value.key, route.value.prefix)
  }

  /** Whether an add-on was applied (the event is then cancelled), and the hands after the event. */
  datatype Outcome = Outcome(applied: bool, hands: Hands)

  /** `onApplyAddon`, with the same gesture and hand rules as the registry-backed listener. */
  function OnApplyAddon(c: Click, hands: Hands): (r: Outcome)
  {
    if !IsSneakRightClick(c) then Outcome(false, hands)
    else
      var tt := Resolve(hands);
      if tt.None? then Outcome(false, hands)
      else
        var written := ApplyTokenToTarget(tt.value.typeRaw, tt.value.tokenLevel, TargetOf(hands, tt.value));
        if written.None? then Outcome(false, hands)
        else
          var side := tt.value.tokenHand;
          var h1 := Set(hands, Other(side), written);
          Outcome(true, Set(h1, side, Consumed(Get(h1, side))))
  }

  /** `onApplyAddon`, step by step over the two hands. */
  method HandleApplyAddon(c: Click, hands: Hands) returns (out: Outcome)
    ensures out == OnApplyAddon(c, hands)
  {
    if !c.sneaking || c.action !in {RIGHT_CLICK_AIR, RIGHT_CLICK_BLOCK} || c.hand != HAND {
      return Outcome(false, hands);
    }
    var tt := Resolve(hands);
    if tt.None? {
      return Outcome(false, hands);
    }
    var written := ApplyToken(tt.value.typeRaw, tt.value.tokenLevel, TargetOf(hands, tt.value));
    if written.None? {
      return Outcome(false, hands);
    }
    var now := Set(hands, Other(tt.value.tokenHand), written);
    now := ConsumeFromHand(now, tt.value.tokenHand);
    out := Outcome(true, now);
  }

  /** `applyTokenToTarget`: the level clamped on the way in, then the switch. */
  method ApplyToken(typeRaw: string, tokenLevel: int, target: Option<Item>) returns (r: Option<Item>)
    ensures r == ApplyTokenToTarget(typeRaw, tokenLevel, target)
  {
    if target.None? || target.value.material == AIR {
      return None;
    }
    var tokenType := Normalize(typeRaw);
    var level := ClampLevel(tokenLevel);
    var route := RouteOf(tokenType);
    if route.None? || !Meets(route.value.need, target) {
      return None;
    }
    r := ApplyLevel(target.value, level, route.value.key, route.value.prefix);
  }

  /** `applyLevelToItem`: the clamped level set in the PDC, then the owned lore line rewritten on a copy of the lore. */
  method ApplyLevel(item: Item, level: int, key: string, prefix: string) returns (r: Option<Item>)
    ensures r == ApplyLevelToItem(item, level, key, prefix)
  {
    if item.meta.None? {
      return None;
    }
    var meta := item.meta.value;
    var current := GetInt(meta.pdc, key).GetOr(0);
    var next := if current >= level then current else level;
    next := ClampLevel(next);
    if next == current {
      return None;
    }
    var pdc := meta.pdc[key := PInt(next)];
    var line := prefix + (if next == 1 then "I" else "II");
    assert line[..|prefix|] == prefix;
    var lore := RewriteOwnedLine(meta.lore, prefix, line);
    r := Some(item.(meta := Some(Meta(pdc, lore))));
  }

  // ---------------------------------------------------------------- properties

  /**
   * The routing table: SHARPENING, MARK and STRENGTH need a weapon, HASTE a
   * tool or weapon, the fire-resistance spellings and HEALTH_BOOST any
   * armour, NIGHT_VISION and WATER_BREATHING a helmet.
   */
  lemma RoutingTable()
    ensures RouteOf("SHARPENING").value.need == NeedWeapon && RouteOf("MARK").value.need == NeedWeapon
    ensures RouteOf("STRENGTH").value.need == NeedWeapon && RouteOf("HASTE").value.need == NeedToolOrWeapon
    ensures forall n :: n in {"FIRE_RES", "FIRE_RESIST", "FIRE_RESISTANCE", "HEALTH_BOOST"} ==>
              RouteOf(n).Some? && RouteOf(n).value.need == NeedArmor
    ensures RouteOf("NIGHT_VISION").value.need == NeedHelmet && RouteOf("WATER_BREATHING").value.need == NeedHelmet
  {
  }

  /** A name the switch does not list is refused whatever the target. */
  lemma UnroutedRefused(typeRaw: string, level: int, target: Option<Item>)
    requires RouteOf(Normalize(typeRaw)).None?
    ensures ApplyTokenToTarget(typeRaw, level, target).None?
  {
  }

  /** The registry's type names SHARPEN and SPEED are not routed. */
  lemma NewNamesUnrouted()
    ensures RouteOf("SHARPEN").None? && RouteOf("SPEED").None?
  {
  }

  /**
   * A write always stores a level in 1..2 and names it in the one prefixed
   * lore line; from a stored level in 0..2 (everything this listener
   * writes) the level only rises.
   */
  lemma ApplyLevelBounded(item: Item, level: int, key: string, prefix: string)
    ensures var r := ApplyLevelToItem(item, level, key, prefix);
            r.Some? ==>
              (r.value.meta.Some? && 1 <= StoredLevel(r.value, key) <= 2
               && r.value.material == item.material && r.value.amount == item.amount
               && var lore := r.value.meta.value.lore;
                  |lore| >= 1 && lore[|lore| - 1] == prefix + (if StoredLevel(r.value, key) == 1 then "I" else "II")
                  && forall k :: 0 <= k < |lore| - 1 ==> !StartsWith(lore[k], prefix))
    ensures var r := ApplyLevelToItem(item, level, key, prefix);
            0 <= StoredLevel(item, key) <= 2 && r.Some? ==> StoredLevel(r.value, key) > StoredLevel(item, key)
    ensures 0 <= StoredLevel(item, key) <= 2 && item.meta.Some? ==>
              (ApplyLevelToItem(item, level, key, prefix).Some? <==> ClampLevel(level) > StoredLevel(item, key))
  {
  }

  /**
   * A stored level above 2 (written by some other code) is lowered to 2 by
   * any token, since the clamp runs after the maximum.
   */
  lemma AboveRangeLowered(item: Item, level: int, key: string, prefix: string)
    requires item.meta.Some? && StoredLevel(item, key) > 2
    ensures ApplyLevelToItem(item, level, key, prefix).Some?
    ensures StoredLevel(ApplyLevelToItem(item, level, key, prefix).value, key) == 2
  {
  }

  /** Applying the same level a second time writes nothing. */
  lemma ApplyLevelTwice(item: Item, level: int, key: string, prefix: string)
    requires ApplyLevelToItem(item, level, key, prefix).Some?
    ensures ApplyLevelToItem(ApplyLevelToItem(item, level, key, prefix).value, level, key, prefix).None?
  {
    ApplyLevelBounded(item, level, key, prefix);
  }

  /** A refused event leaves the hands; a successful one uses up one token and rewrites the other hand. */
  lemma ConsumedOnlyOnSuccess(c: Click, hands: Hands)
    ensures var r := OnApplyAddon(c, hands);
            !r.applied ==> r.hands == hands
    ensures var r := OnApplyAddon(c, hands);
            r.applied ==>
              (IsSneakRightClick(c) && Resolve(hands).Some?
               && var side := Resolve(hands).value.tokenHand;
                  Get(r.hands, side) == Consumed(Get(hands, side))
                  && Get(r.hands, Other(side))
                     == ApplyTokenToTarget(Resolve(hands).value.typeRaw, Resolve(hands).value.tokenLevel,
                                           TargetOf(hands, Resolve(hands).value)))
  {
  }
}
