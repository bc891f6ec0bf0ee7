/**
 * The registry-backed add-on listener: sneak and right-click with a token
 * in one hand and an item in the other. The token's type is looked up in
 * the token registry, its level clamped to the definition's range, the
 * target checked against the definition's target rule, and the level
 * stored on the item under the type's key together with one lore line. A
 * water-breathing token is still accepted for helmets, outside the
 * registry. One token is used up only when something was written.
 */
module AddOnListeners {
  import opened Wrappers
  import opened JavaText
  import opened Items
  import opened Inventories
  import opened ChatColors
  import opened TokenDefinitions
  import opened AddOnTokens
  import opened TokenRegistries

  const WATER_BREATHING_KEY: string := "water_breathing_level"
  const WATER_BREATHING_PREFIX: string := GRAY + "Water Breathing: "

  /** `romanOrNumber`: I and II for 1 and 2, the decimal number otherwise. */
  function RomanOrNumber(level: int): (r: string)
    ensures level == 1 ==> r == "I"
    ensures level == 2 ==> r == "II"
    ensures level != 1 && level != 2 ==> r == IntToString(level)
  {
    if level == 1 then "I" else if level == 2 then "II" else IntToString(level)
  }

  /** `clampGeneric`: into 1..2. */
  function ClampGeneric(lvl: int): (r: int)
    ensures 1 <= r <= 2
    ensures 1 <= lvl <= 2 ==> r == lvl
  {
    if lvl < 1 then 1 else if lvl > 2 then 2 else lvl
  }

  /** `parseTokenType`: the spelling aliases of SHARPEN and FIRE_RESIST, then the enum name itself. */
  function ParseTokenType(normalized: string): (r: Option<TokenType>)
    ensures IsBlank(normalized) ==> r.None?
  {
    if IsBlank(normalized) then None else TypeValueOf(Canonical(normalized))
  }

  /** The alias switch of `parseTokenType`. */
  function Canonical(normalized: string): string {
    if normalized in {"SHARPENING", "SHARPEN", "SHARPENED"} then "SHARPEN"
    else if normalized in {"FIRE_RES", "FIRE_RESIST", "FIRE_RESISTANCE"} then "FIRE_RESIST"
    else normalized
  }

  /** `keyForAppliedLevel`: the PDC key each type's level is stored under. */
  function KeyForAppliedLevel(t: TokenType): string {
    match t
    case SHARPEN => "sharpen_level"
    case MARK => "mark_level"
    case HASTE => "haste_level"
    case STRENGTH => "strength_level"
    case SPEED => "speed_level"
    case FIRE_RESIST => "fire_res_level"
    case HEALTH_BOOST => "health_boost_level"
    case NIGHT_VISION => "night_vision_level"
  }

  /** `isValidTarget`: HASTE goes on tools or weapons whatever its rule; otherwise the rule decides. */
  predicate IsValidTarget(rule: Target, t: TokenType, target: Option<Item>) {
    if t == HASTE then IsToolOrWeapon(target)
    else match rule
      case WEAPON => IsWeapon(target)
      case TOOL => IsToolOrWeapon(target)
      case ARMOR_HELMET => IsHelmet(target)
      case ARMOR_CHESTPLATE => IsChestplate(target)
      case ARMOR_LEGGINGS => IsLeggings(target)
      case ARMOR_BOOTS => IsBoots(target)
      case ARMOR_ANY => IsArmor(target)
      case ANY => true
  }

  /** The definitions' level bounds are Java `int`s. */
  predicate IntRanges(defs: map<TokenType, TokenDefinition>) {
    forall t :: t in defs ==> IsInt32(defs[t].minLevel) && IsInt32(defs[t].maxLevel)
  }

  /** The level stored under `key`, 0 when absent. */
  function StoredLevel(item: Item, key: string): int {
    if item.meta.None? then 0 else GetInt(item.meta.value.pdc, key).GetOr(0)
  }

  /**
   * `applyLevelToItem`: the item with max(current, level) stored under the
   * key and its lore line rewritten, or None (false) when the item has no
   * meta or the level would not change.
   */
  function ApplyLevelToItem(item: Item, level: Int32, key: string, prefix: string): (r: Option<Item>)
  {
    if item.meta.None? then None
    else
      var meta := item.meta.value;
      var current := GetInt(meta.pdc, key).GetOr(0);
      var next := if current >= level then current else level;
      if next == current then None
      else
        var line := prefix + RomanOrNumber(next);
        assert StartsWith(line, prefix) by { assert line[..|prefix|] == prefix; }
        Some(item.(meta := Some(Meta(meta.pdc[key := PInt(next)], WithOwnedLine(meta.lore, prefix, line)))))
  }

  /**
   * `applyTokenToTarget`: the rewritten target, or None (false) for an
   * empty target, an unknown type, a type the registry lacks, a target the
   * rule refuses, or a write that changes nothing.
   */
  function ApplyTokenToTarget(defs: map<TokenType, TokenDefinition>, typeRaw: string, tokenLevel: Int32,
                              target: Option<Item>): (r: Option<Item>)
    requires IntRanges(defs)
  {
    if IsNothing(target) then None
    else
      var normalized := Normalize(typeRaw);
      if normalized == "WATER_BREATHING" then
        if !IsHelmet(target) then None
        else ApplyLevelToItem(target.value, ClampGeneric(tokenLevel), WATER_BREATHING_KEY, WATER_BREATHING_PREFIX)
      else
        var t := ParseTokenType(normalized);
        if t.None? || t.value !in defs then None
        else
          var def := defs[t.value];
          var clamped := ClampLevel(def, tokenLevel);
          if !IsValidTarget(def.target, t.value, target) then None
          else ApplyLevelToItem(target.value, clamped, KeyForAppliedLevel(t.value), GRAY + def.displayName + ": ")
  }

  /** What an interact event leads to: whether an add-on was applied (the event is then cancelled), and the hands after it. */
  datatype Outcome = Outcome(applied: bool, hands: Hands)

  /**
   * `onApplyAddon`: a sneaking right-click on the main hand with a token
   * against a non-empty other hand applies it; on success the target is
   * replaced by the rewritten item and one token is used up.
   */
  function OnApplyAddon(defs: map<TokenType, TokenDefinition>, c: Click, hands: Hands): (r: Outcome)
    requires IntRanges(defs)
  {
    if !IsSneakRightClick(c) then Outcome(false, hands)
    else
      var tt := Resolve(hands);
      if tt.None? then Outcome(false, hands)
      else
        var written := ApplyTokenToTarget(defs, tt.value.typeRaw, tt.value.tokenLevel, TargetOf(hands, tt.value));
        if written.None? then Outcome(false, hands)
        else
          var side := tt.value.tokenHand;
          var h1 := Set(hands, Other(side), written);
          Outcome(true, Set(h1, side, Consumed(Get(h1, side))))
  }

  /**
   * The listener object: its token registry, built with the defaults, and
   * the handler with its helpers, which rewrite the target stack, use up a
   * token and report whether the event was cancelled.
   */
  class AddOnListener {
    const registry: TokenRegistry

    predicate Valid()
      reads this, registry
    {
      registry.Valid() && IntRanges(registry.defs)
    }

    /** `new AddOnListener(plugin)`: a fresh registry holding the default definitions. */
    constructor()
      ensures fresh(registry) && registry.defs == DefaultMap() && Valid()
    {
      registry := new TokenRegistry();
      new;
      DefaultIntRanges();
    }

    /** `onApplyAddon`, step by step over the two hands. */
    method HandleApplyAddon(c: Click, hands: Hands) returns (out: Outcome)
      requires Valid()
      ensures out == OnApplyAddon(registry.defs, c, hands)
    {
      if !c.sneaking || c.action !in {RIGHT_CLICK_AIR, RIGHT_CLICK_BLOCK} || c.hand != HAND {
        return Outcome(false, hands);
      }
      var tt := Resolve(hands);
      if tt.None? {
        return Outcome(false, hands);
      }
      var written := ApplyToken(tt.value.typeRaw, tt.value.tokenLevel, TargetOf(hands, tt.value));
      if written.None? {
        return Outcome(false, hands);
      }
      var now := Set(hands, Other(tt.value.tokenHand), written);
      now := ConsumeFromHand(now, tt.value.tokenHand);
      out := Outcome(true, now);
    }

    /** `applyTokenToTarget`, with the registry looked up through `get`. */
    method ApplyToken(typeRaw: string, tokenLevel: Int32, target: Option<Item>) returns (r: Option<Item>)
      requires Valid()
      ensures r == ApplyTokenToTarget(registry.defs, typeRaw, tokenLevel, target)
    {
      if target.None? || target.value.material == AIR {
        return None;
      }
      var normalized := Normalize(typeRaw);
      if normalized == "WATER_BREATHING" {
        if !IsHelmet(target) {
          return None;
        }
        r := ApplyLevel(target.value, ClampGeneric(tokenLevel), WATER_BREATHING_KEY, WATER_BREATHING_PREFIX);
        return;
      }
      var t := ParseTokenType(normalized);
      if t.None? {
        return None;
      }
      var def := registry.Get(t.value);
      if def.None? {
        return None;
      }
      var clamped := ClampLevel(def.value, tokenLevel);
      if !IsValidTarget(def.value.target, t.value, target) {
        return None;
      }
      var appliedKey := KeyForAppliedLevel(t.value);
      r := ApplyLevel(target.value, clamped, appliedKey, GRAY + def.value.displayName + ": ");
    }

    /** `applyLevelToItem`: the PDC entry set, then the owned lore line rewritten on a copy of the lore. */
    method ApplyLevel(item: Item, level: Int32, key: string, prefix: string) returns (r: Option<Item>)
      ensures r == ApplyLevelToItem(item, level, key, prefix)
    {
      if item.meta.None? {
        return None;
      }
      var meta := item.meta.value;
      var current := GetInt(meta.pdc, key).GetOr(0);
      var next := if current >= level then current else level;
      if next == current {
        return None;
      }
      var pdc := meta.pdc[key := PInt(next)];
      var line := prefix + RomanOrNumber(next);
      assert line[..|prefix|] == prefix;
      var lore := RewriteOwnedLine(meta.lore, prefix, line);
      r := Some(item.(meta := Some(Meta(pdc, lore))));
    }
  }

  /** The default definitions' level bounds are Java `int`s. */
  lemma DefaultIntRanges()
    ensures IntRanges(DefaultMap())
  {
    forall t | t in DefaultMap()
      ensures IsInt32(DefaultMap()[t].minLevel) && IsInt32(DefaultMap()[t].maxLevel)
    {
      match t
      case SHARPEN => case MARK => case HASTE => case STRENGTH =>
      case SPEED => case FIRE_RESIST => case HEALTH_BOOST => case NIGHT_VISION =>
    }
  }

  // ---------------------------------------------------------------- properties

  /**
   * A write happens exactly when the item has meta and the level is above
   * the stored one; the stored level then becomes that level, and exactly
   * the last lore line carries the prefix, naming the new level.
   */
  lemma ApplyLevelRaises(item: Item, level: Int32, key: string, prefix: string)
    ensures ApplyLevelToItem(item, level, key, prefix).Some? <==> item.meta.Some? && level > StoredLevel(item, key)
    ensures var r := ApplyLevelToItem(item, level, key, prefix);
            r.Some? ==>
              (r.value.meta.Some? && StoredLevel(r.value, key) == level
               && r.value.material == item.material && r.value.amount == item.amount
               && var lore := r.value.meta.value.lore;
                  |lore| >= 1 && lore[|lore| - 1] == prefix + RomanOrNumber(level)
                  && forall k :: 0 <= k < |lore| - 1 ==> !StartsWith(lore[k], prefix))
  {
  }

  /** Applying the same level twice writes only once. */
  lemma ApplyLevelTwice(item: Item, level: Int32, key: string, prefix: string)
    requires ApplyLevelToItem(item, level, key, prefix).Some?
    ensures ApplyLevelToItem(ApplyLevelToItem(item, level, key, prefix).value, level, key, prefix).None?
  {
    ApplyLevelRaises(item, level, key, prefix);
  }

  /** Every type's own name parses back to it. */
  lemma ParseName(t: TokenType)
    ensures ParseTokenType(TypeName(t)) == Some(t)
  {
    TypeValueOfName(t);
    assert !IsWhitespace(TypeName(t)[0]);
    CanonicalName(t);
  }

  lemma CanonicalName(t: TokenType)
    ensures Canonical(TypeName(t)) == TypeName(t)
  {
    match t
    case SHARPEN => case MARK => case HASTE => case STRENGTH =>
    case SPEED => case FIRE_RESIST => case HEALTH_BOOST => case NIGHT_VISION =>
  }

  /** The spelling aliases go to SHARPEN and FIRE_RESIST. */
  lemma ParseAliases(alias: string)
    requires alias in {"SHARPENING", "SHARPENED", "FIRE_RES", "FIRE_RESISTANCE"}
    ensures ParseTokenType(alias) == Some(if alias[0] == 'S' then SHARPEN else FIRE_RESIST)
  {
    assert !IsWhitespace(alias[0]);
    TypeValueOfName(SHARPEN);
    TypeValueOfName(FIRE_RESIST);
  }

  /** A name that parses is a type's own name or one of the aliases. */
  lemma ParseOnlyKnown(normalized: string)
    requires ParseTokenType(normalized).Some?
    ensures normalized == TypeName(ParseTokenType(normalized).value)
            || normalized in {"SHARPENING", "SHARPENED", "FIRE_RES", "FIRE_RESISTANCE"}
  {
  }

  /** Each type stores its level under its own key, none of them the water-breathing key. */
  lemma KeysDistinct(a: TokenType, b: TokenType)
    ensures KeyForAppliedLevel(a) == KeyForAppliedLevel(b) ==> a == b
    ensures KeyForAppliedLevel(a) != WATER_BREATHING_KEY
  {
  }

  /**
   * A water-breathing token writes only to a helmet, and the level stored
   * is the token's level clamped to 1..2.
   */
  lemma WaterBreathingHelmetOnly(defs: map<TokenType, TokenDefinition>, typeRaw: string, level: Int32, target: Option<Item>)
    requires IntRanges(defs)
    requires Normalize(typeRaw) == "WATER_BREATHING"
    ensures var r := ApplyTokenToTarget(defs, typeRaw, level, target);
            r.Some? ==>
              (IsHelmet(target) && StoredLevel(r.value, WATER_BREATHING_KEY) == ClampGeneric(level)
               && 1 <= StoredLevel(r.value, WATER_BREATHING_KEY) <= 2)
  {
    var r := ApplyTokenToTarget(defs, typeRaw, level, target);
    if r.Some? {
      ApplyLevelRaises(target.value, ClampGeneric(level), WATER_BREATHING_KEY, WATER_BREATHING_PREFIX);
    }
  }

  /**
   * A registry token writes its clamped level under its own key, onto a
   * target its rule accepts; HASTE only onto tools or weapons.
   */
  lemma RegistryTokenWrites(defs: map<TokenType, TokenDefinition>, typeRaw: string, level: Int32, target: Option<Item>)
    requires IntRanges(defs)
    requires Normalize(typeRaw) != "WATER_BREATHING"
    requires ApplyTokenToTarget(defs, typeRaw, level, target).Some?
    ensures var t := ParseTokenType(Normalize(typeRaw));
            t.Some? && t.value in defs && IsValidTarget(defs[t.value].target, t.value, target)
            && StoredLevel(ApplyTokenToTarget(defs, typeRaw, level, target).value, KeyForAppliedLevel(t.value))
               == ClampLevel(defs[t.value], level)
            && (t.value == HASTE ==> IsToolOrWeapon(target))
  {
    var t := ParseTokenType(Normalize(typeRaw));
    var def := defs[t.value];
    ApplyLevelRaises(target.value, ClampLevel(def, level), KeyForAppliedLevel(t.value), GRAY + def.displayName + ": ");
  }

  /**
   * Only a handled click can apply; a refused event leaves both hands as
   * they were, and a successful one uses up exactly one token from the
   * token's hand and puts the rewritten item in the other.
   */
  lemma ConsumedOnlyOnSuccess(defs: map<TokenType, TokenDefinition>, c: Click, hands: Hands)
    requires IntRanges(defs)
    ensures var r := OnApplyAddon(defs, c, hands);
            !r.applied ==> r.hands == hands
    ensures var r := OnApplyAddon(defs, c, hands);
            r.applied ==>
              (IsSneakRightClick(c) && Resolve(hands).Some?
               && var side := Resolve(hands).value.tokenHand;
                  Get(r.hands, side) == Consumed(Get(hands, side))
                  && Get(r.hands, Other(side))
                     == ApplyTokenToTarget(defs, Resolve(hands).value.typeRaw, Resolve(hands).value.tokenLevel,
                                           TargetOf(hands, Resolve(hands).value)))
  {
  }
}
