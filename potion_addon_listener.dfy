/**
 * The potion add-on refresher: every two seconds each online player gets
 * the vanilla potion effects its add-on levels grant. Haste and strength
 * come from the main-hand item, fire resistance and health boost from the
 * best of the four armour pieces (both clamped to 0..2), water breathing
 * and night vision from the helmet alone (unclamped). An effect is only
 * (re)applied when the player does not already have a better one.
 */
module PotionAddOns {
  import opened Wrappers
  import opened JavaText
  import opened Items
  import opened Potions

  const HASTE_KEY: string := "haste_level"
  const STRENGTH_KEY: string := "strength_level"
  const FIRE_RES_KEY: string := "fire_res_level"
  const HEALTH_BOOST_KEY: string := "health_boost_level"
  const WATER_BREATHING_KEY: string := "water_breathing_level"
  const NIGHT_VISION_KEY: string := "night_vision_level"

  const DURATION_TICKS: int := 120
  const NIGHT_VISION_TICKS: int := 350

  /** `getItemLevel`: the INTEGER stored under the key, 0 for a null stack, missing meta or a missing key. */
  function ItemLevel(item: Option<Item>, key: string): int {
    if item.None? || item.value.meta.None? then 0 else GetInt(item.value.meta.value.pdc, key).GetOr(0)
  }

  /** `clamp`: into 0..2. */
  function Clamp(lvl: int): (r: int)
    ensures 0 <= r <= 2
    ensures 0 <= lvl <= 2 ==> r == lvl
    ensures lvl > 2 ==> r == 2
  {
    Max(0, Min(2, lvl))
  }

  /** The highest level over the four pieces, counting from 0. */
  function MaxLevel(armor: ArmorSet, key: string): int {
    Max(Max(Max(Max(0, ItemLevel(armor.helmet, key)), ItemLevel(armor.chestplate, key)),
            ItemLevel(armor.leggings, key)), ItemLevel(armor.boots, key))
  }

  /** `getArmorMaxLevel`: the running maximum, clamped. */
  method ArmorMaxLevel(armor: ArmorSet, key: string) returns (r: int)
    ensures r == Clamp(MaxLevel(armor, key))
    ensures 0 <= r <= 2
    ensures Clamp(ItemLevel(armor.helmet, key)) <= r && Clamp(ItemLevel(armor.chestplate, key)) <= r
    ensures Clamp(ItemLevel(armor.leggings, key)) <= r && Clamp(ItemLevel(armor.boots, key)) <= r
    ensures r > 0 ==> r == Clamp(ItemLevel(armor.helmet, key)) || r == Clamp(ItemLevel(armor.chestplate, key))
                      || r == Clamp(ItemLevel(armor.leggings, key)) || r == Clamp(ItemLevel(armor.boots, key))
  {
    var max := 0;
    max := Max(max, ItemLevel(armor.helmet, key));
    max := Max(max, ItemLevel(armor.chestplate, key));
    max := Max(max, ItemLevel(armor.leggings, key));
    max := Max(max, ItemLevel(armor.boots, key));
    r := Clamp(max);
  }

  /**
   * `applyIfBetter`: nothing for a level of 0 or less; otherwise the effect
   * (level - 1, duration) replaces the current one unless that has a higher
   * amplifier, or the same amplifier and more time left.
   */
  function Better(effects: ActiveEffects, t: PotionType, level: int, duration: int): ActiveEffects {
    var amplifier := level - 1;
    if level <= 0 then effects
    else if t in effects && effects[t].amplifier > amplifier then effects
    else if t in effects && effects[t].amplifier == amplifier && effects[t].duration > duration then effects
    else effects[t := PotionEffect(amplifier, duration)]
  }

  /** One effect one refresh grants: its type, the level read for it and its duration. */
  datatype Grant = Grant(potion: PotionType, level: int, duration: int)

  /** The six grants of `refreshPotionAddOns`, in its order, from the hand and the armour. */
  function Plan(mainHand: Option<Item>, armor: ArmorSet): seq<Grant> {
    [Grant(HASTE, Clamp(ItemLevel(mainHand, HASTE_KEY)), DURATION_TICKS),
     Grant(STRENGTH, Clamp(ItemLevel(mainHand, STRENGTH_KEY)), DURATION_TICKS),
     Grant(FIRE_RESISTANCE, Clamp(MaxLevel(armor, FIRE_RES_KEY)), DURATION_TICKS),
     Grant(HEALTH_BOOST, Clamp(MaxLevel(armor, HEALTH_BOOST_KEY)), DURATION_TICKS),
     Grant(WATER_BREATHING, ItemLevel(armor.helmet, WATER_BREATHING_KEY), DURATION_TICKS),
     Grant(NIGHT_VISION, ItemLevel(armor.helmet, NIGHT_VISION_KEY), NIGHT_VISION_TICKS)]
  }

  /** The grants applied one after the other. */
  function Granted(effects: ActiveEffects, plan: seq<Grant>): ActiveEffects
    decreases |plan|
  {
    if plan == [] then effects
    else
      var g := plan[|plan| - 1];
      Better(Granted(effects, plan[..|plan| - 1]), g.potion, g.level, g.duration)
  }

  /** No two grants of the plan share a potion type. */
  predicate DistinctTypes(plan: seq<Grant>) {
    forall i, j :: 0 <= i < j < |plan| ==> plan[i].potion != plan[j].potion
  }

  /** The player parts a refresh reads and changes. */
  class Player {
    var mainHand: Option<Item>
    var armor: ArmorSet
    var effects: ActiveEffects

    constructor(mainHand: Option<Item>, armor: ArmorSet, effects: ActiveEffects)
      ensures this.mainHand == mainHand && this.armor == armor && this.effects == effects
    {
      this.mainHand := mainHand;
      this.armor := armor;
      this.effects := effects;
    }
  }

  /** `applyIfBetter` on the player. */
  method ApplyIfBetter(p: Player, t: PotionType, level: int, duration: int)
    modifies p`effects
    ensures p.effects == Better(old(p.effects), t, level, duration)
  {
    if level <= 0 {
      return;
    }
    var amplifier := level - 1;
    if t in p.effects {
      var current := p.effects[t];
      if current.amplifier > amplifier {
        return;
      }
      if current.amplifier == amplifier && current.duration > duration {
        return;
      }
    }
    p.effects := p.effects[t := PotionEffect(amplifier, duration)];
  }

  /** The body of `refreshPotionAddOns` for a player. */
  method RefreshPlayer(p: Player)
    modifies p`effects
    ensures p.effects == Granted(old(p.effects), Plan(p.mainHand, p.armor))
  {
    var plan := Plan(p.mainHand, p.armor);
    var haste := Clamp(ItemLevel(p.mainHand, HASTE_KEY));
    var strength := Clamp(ItemLevel(p.mainHand, STRENGTH_KEY));
    var fireRes := ArmorMaxLevel(p.armor, FIRE_RES_KEY);
    var healthBoost := ArmorMaxLevel(p.armor, HEALTH_BOOST_KEY);
    var water := ItemLevel(p.armor.helmet, WATER_BREATHING_KEY);
    var night := ItemLevel(p.armor.helmet, NIGHT_VISION_KEY);
    ghost var e0 := p.effects;
    assert plan[..0] == [];
    ApplyIfBetter(p, HASTE, haste, DURATION_TICKS);
    assert plan[..1][..0] == plan[..0];
    assert p.effects == Granted(e0, plan[..1]);
    ApplyIfBetter(p, STRENGTH, strength, DURATION_TICKS);
    assert plan[..2][..1] == plan[..1];
    assert p.effects == Granted(e0, plan[..2]);
    ApplyIfBetter(p, FIRE_RESISTANCE, fireRes, DURATION_TICKS);
    assert plan[..3][..2] == plan[..2];
    assert p.effects == Granted(e0, plan[..3]);
    ApplyIfBetter(p, HEALTH_BOOST, healthBoost, DURATION_TICKS);
    assert plan[..4][..3] == plan[..3];
    assert p.effects == Granted(e0, plan[..4]);
    ApplyIfBetter(p, WATER_BREATHING, water, DURATION_TICKS);
    assert plan[..5][..4] == plan[..4];
    assert p.effects == Granted(e0, plan[..5]);
    ApplyIfBetter(p, NIGHT_VISION, night, NIGHT_VISION_TICKS);
    assert plan[..6][..5] == plan[..5] && plan[..6] == plan;
  }

  class PotionAddOnListener {
    /** Whether the repeating refresh task is scheduled (`task != null`). */
    var running: bool

    constructor()
      ensures !running
    {
      running := false;
    }

    /** `start`: any earlier task is cancelled and one new task scheduled. */
    method Start()
      modifies this
      ensures running
    {
      running := true;
    }

    /** `stop`: the task is cancelled. */
    method Stop()
      modifies this
      ensures !running
    {
      running := false;
    }

    /** `refreshPotionAddOns`: nothing for a null player. */
    method RefreshPotionAddOns(p: Player?)
      modifies {p}`effects
      ensures p != null ==> p.effects == Granted(old(p.effects), Plan(p.mainHand, p.armor))
    {
      if p == null {
        return;
      }
      RefreshPlayer(p);
    }
  }

  // ---------------------------------------------------------------- properties

  /**
   * A level of 0 or less changes nothing; otherwise the current effect is
   * kept exactly when its amplifier is higher than level - 1, or equal with
   * more time left, and is set to (level - 1, duration) in every other case.
   * No other type is touched.
   */
  lemma BetterRule(effects: ActiveEffects, t: PotionType, level: int, duration: int, u: PotionType)
    ensures level <= 0 ==> Better(effects, t, level, duration) == effects
    ensures var keep := t in effects && (effects[t].amplifier > level - 1
                          || (effects[t].amplifier == level - 1 && effects[t].duration > duration));
            level > 0 ==>
              (keep ==> Better(effects, t, level, duration) == effects)
              && (!keep ==> Better(effects, t, level, duration)[t] == PotionEffect(level - 1, duration))
    ensures u != t ==> (u in Better(effects, t, level, duration) <==> u in effects)
    ensures u != t && u in effects ==> Better(effects, t, level, duration)[u] == effects[u]
  {
  }

  /** A type no grant names is left as it was. */
  lemma {:induction false} GrantedOthers(effects: ActiveEffects, plan: seq<Grant>, u: PotionType)
    requires forall i :: 0 <= i < |plan| ==> plan[i].potion != u
    ensures (u in Granted(effects, plan) <==> u in effects)
    ensures u in effects ==> Granted(effects, plan)[u] == effects[u]
    decreases |plan|
  {
    if plan != [] {
      GrantedOthers(effects, plan[..|plan| - 1], u);
    }
  }

  /**
   * With distinct types, each grant's type ends up as that grant alone
   * makes it from the starting effects: the grants do not interfere.
   */
  lemma {:induction false} GrantedAt(effects: ActiveEffects, plan: seq<Grant>, k: nat)
    requires DistinctTypes(plan) && k < |plan|
    ensures var g := plan[k];
            var before := Better(effects, g.potion, g.level, g.duration);
            (g.potion in Granted(effects, plan) <==> g.potion in before)
            && (g.potion in before ==> Granted(effects, plan)[g.potion] == before[g.potion])
    decreases |plan|
  {
    var g := plan[k];
    var front := plan[..|plan| - 1];
    if k == |plan| - 1 {
      GrantedOthers(effects, front, g.potion);
      var mid := Granted(effects, front);
      BetterSame(mid, effects, g.potion, g.level, g.duration);
    } else {
      assert front[k] == g;
      GrantedAt(effects, front, k);
      var last := plan[|plan| - 1];
      assert last.potion != g.potion;
    }
  }

  /** `Better` on one type depends only on that type's current effect. */
  lemma BetterSame(a: ActiveEffects, b: ActiveEffects, t: PotionType, level: int, duration: int)
    requires (t in a <==> t in b) && (t in a ==> a[t] == b[t])
    ensures (t in Better(a, t, level, duration) <==> t in Better(b, t, level, duration))
    ensures t in Better(a, t, level, duration) ==> Better(a, t, level, duration)[t] == Better(b, t, level, duration)[t]
  {
  }

  /** The six grants name six different types. */
  lemma PlanDistinct(mainHand: Option<Item>, armor: ArmorSet)
    ensures DistinctTypes(Plan(mainHand, armor))
  {
  }

  /**
   * The refresh grants haste and strength from the main hand and fire
   * resistance and health boost from the best armour piece, all clamped to
   * 0..2, water breathing and night vision from the helmet, unclamped, for
   * 120 ticks each except night vision's 350.
   */
  lemma PlanLevels(mainHand: Option<Item>, armor: ArmorSet)
    ensures var p := Plan(mainHand, armor);
            0 <= p[0].level <= 2 && 0 <= p[1].level <= 2 && 0 <= p[2].level <= 2 && 0 <= p[3].level <= 2
            && p[2].level == Clamp(MaxLevel(armor, FIRE_RES_KEY))
            && p[4].level == ItemLevel(armor.helmet, WATER_BREATHING_KEY)
            && p[5].level == ItemLevel(armor.helmet, NIGHT_VISION_KEY)
            && (forall i :: 0 <= i < 5 ==> p[i].duration == 120) && p[5].duration == 350
  {
  }

  /**
   * After a refresh each of the six types is as its own `applyIfBetter`
   * alone would leave it, and every other type is untouched.
   */
  lemma RefreshOutcome(effects: ActiveEffects, mainHand: Option<Item>, armor: ArmorSet, k: nat, u: PotionType)
    requires k < 6
    ensures var g := Plan(mainHand, armor)[k];
            var after := Granted(effects, Plan(mainHand, armor));
            var alone := Better(effects, g.potion, g.level, g.duration);
            (g.potion in after <==> g.potion in alone) && (g.potion in alone ==> after[g.potion] == alone[g.potion])
    ensures u !in {HASTE, STRENGTH, FIRE_RESISTANCE, HEALTH_BOOST, WATER_BREATHING, NIGHT_VISION} ==>
              (u in Granted(effects, Plan(mainHand, armor)) <==> u in effects)
              && (u in effects ==> Granted(effects, Plan(mainHand, armor))[u] == effects[u])
  {
    var plan := Plan(mainHand, armor);
    PlanDistinct(mainHand, armor);
    GrantedAt(effects, plan, k);
    if u !in {HASTE, STRENGTH, FIRE_RESISTANCE, HEALTH_BOOST, WATER_BREATHING, NIGHT_VISION} {
      GrantedOthers(effects, plan, u);
    }
  }

  /** A missing stack, or one without meta, reads as level 0 and grants nothing. */
  lemma MissingReadsZero(item: Option<Item>, key: string, effects: ActiveEffects, t: PotionType, duration: int)
    requires item.None? || item.value.meta.None?
    ensures ItemLevel(item, key) == 0
    ensures Better(effects, t, ItemLevel(item, key), duration) == effects
  {
  }
}
