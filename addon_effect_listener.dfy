/**
 * What the weapon add-ons do in combat. A player's melee hit on a living
 * entity gains +1 or +2 damage from sharpening, and a marking weapon
 * either multiplies the damage against the target it has actively marked
 * or, by chance, marks the target for 120 ticks (with glowing), after
 * clearing that player's previous mark: each player tracks one target.
 */
module AddOnEffects {
  import opened Wrappers
  import opened Items
  import opened Potions

  const SHARPEN_LEVEL_KEY: string := "sharpen_level"
  const MARK_LEVEL_KEY: string := "mark_level"
  const MARKED_BY_KEY: string := "marked_by"
  const MARKED_UNTIL_KEY: string := "marked_until"

  const MARK_SECONDS: int := 6
  const MARK_TICKS: int := MARK_SECONDS * 20

  /** A loaded living entity: its persistent data and its potion effects. */
  datatype Living = Living(pdc: Pdc, effects: ActiveEffects)

  /**
   * One damage event: the damaging player's UUID (None when the damager is
   * not a player), the damaged entity's id (None when it is not living),
   * the player's main-hand stack, the server tick and the random draw in
   * [0, 1) that decides a new mark.
   */
  datatype Hit = Hit(damager: Option<string>, target: Option<nat>, weapon: Option<Item>, now: int, roll: real)

  /** `applySharpeningBonus`: nothing for a level of 0 or less, +1 at level 1 and +2 above. */
  function SharpeningBonus(level: int): (r: real)
    ensures level <= 0 ==> r == 0.0
    ensures level == 1 ==> r == 1.0
    ensures level >= 2 ==> r == 2.0
  {
    if level <= 0 then 0.0
    else
      var capped := if level <= 2 then level else 2;
      if capped == 1 then 1.0 else if capped == 2 then 2.0 else 0.0
  }

  /** The multiplier against an actively marked target: 1.5 at mark level 1, 2.0 above; none without a mark level. */
  function MarkMultiplier(markLevel: int): Option<real> {
    if markLevel <= 0 then None else if markLevel == 1 then Some(1.5) else Some(2.0)
  }

  /** The chance of marking: 0.10 at level 1, 0.25 above. */
  function MarkChance(markLevel: int): real {
    if markLevel == 1 then 0.10 else 0.25
  }

  /** `isActivelyMarkedBy`: both entries present, marked by this player, and the end still ahead. */
  predicate IsActivelyMarkedBy(pdc: Pdc, playerId: string, now: int) {
    var markedBy := GetString(pdc, MARKED_BY_KEY);
    var until := GetLong(pdc, MARKED_UNTIL_KEY);
    markedBy.Some? && until.Some? && markedBy.value == playerId && until.value > now
  }

  /** The mark of a player on an entity: its id, the end tick and glowing for the whole time. */
  function Marked(e: Living, playerId: string, now: int): Living {
    Living(e.pdc[MARKED_BY_KEY := PStr(playerId)][MARKED_UNTIL_KEY := PLong(now + MARK_TICKS)],
           e.effects[GLOWING := PotionEffect(0, MARK_TICKS)])
  }

  /** An entity with its mark and its glowing removed. */
  function Unmarked(e: Living): Living {
    Living(e.pdc - {MARKED_BY_KEY, MARKED_UNTIL_KEY}, e.effects - {GLOWING})
  }

  /** The tracked targets and the loaded entities. */
  datatype Marks = Marks(current: map<string, nat>, loaded: map<nat, Living>)

  /**
   * `clearPreviousMark`: the player's tracked target is forgotten, and its
   * mark removed when it is loaded and the mark is this player's.
   */
  function ClearPrevious(m: Marks, playerId: string): (r: Marks)
    ensures r.loaded.Keys == m.loaded.Keys
  {
    if playerId !in m.current then m
    else
      var prev := m.current[playerId];
      var rest := m.current - {playerId};
      if prev !in m.loaded then Marks(rest, m.loaded)
      else
        var markedBy := GetString(m.loaded[prev].pdc, MARKED_BY_KEY);
        if markedBy.None? || markedBy.value != playerId then Marks(rest, m.loaded)
        else Marks(rest, m.loaded[prev := Unmarked(m.loaded[prev])])
  }

  /** The state and the damage after an event. */
  datatype Outcome = Outcome(marks: Marks, damage: real)

  /**
   * `applyMarkLogic` against a loaded target: an active mark of this
   * player multiplies the damage; otherwise a weapon with a mark level
   * marks the target when the draw is within the chance.
   */
  function MarkLogic(m: Marks, playerId: string, target: nat, weapon: Meta, damage: real, now: int, roll: real): Outcome
    requires target in m.loaded
  {
    var markLevel := GetInt(weapon.pdc, MARK_LEVEL_KEY).GetOr(0);
    if IsActivelyMarkedBy(m.loaded[target].pdc, playerId, now) then
      if MarkMultiplier(markLevel).None? then Outcome(m, damage)
      else Outcome(m, damage * MarkMultiplier(markLevel).value)
    else if markLevel <= 0 || roll > MarkChance(markLevel) then Outcome(m, damage)
    else
      var c := ClearPrevious(m, playerId);
      Outcome(Marks(c.current[playerId := target], c.loaded[target := Marked(c.loaded[target], playerId, now)]), damage)
  }

  /** `onDamage`: only a player's hit on a living entity with a meta-carrying main-hand stack counts. */
  function DamageOutcome(m: Marks, hit: Hit, damage: real): Outcome
    requires hit.target.Some? ==> hit.target.value in m.loaded
  {
    if hit.damager.None? || hit.target.None? || hit.weapon.None? || hit.weapon.value.meta.None? then Outcome(m, damage)
    else
      var meta := hit.weapon.value.meta.value;
      var sharpened := damage + SharpeningBonus(GetInt(meta.pdc, SHARPEN_LEVEL_KEY).GetOr(0));
      MarkLogic(m, hit.damager.value, hit.target.value, meta, sharpened, hit.now, hit.roll)
  }

  /** The loaded living entities of every world, by UUID. */
  class Entities {
    var loaded: map<nat, Living>

    constructor(loaded: map<nat, Living>)
      ensures this.loaded == loaded
    {
      this.loaded := loaded;
    }
  }

  class AddOnEffectListener {
    /** `currentMarkedTarget`: the entity each player last marked. */
    var currentMarkedTarget: map<string, nat>

    constructor()
      ensures currentMarkedTarget == map[]
    {
      currentMarkedTarget := map[];
    }

    /** `clearPreviousMark`. */
    method ClearPreviousMark(world: Entities, playerId: string)
      modifies this, world
      ensures Marks(currentMarkedTarget, world.loaded) == ClearPrevious(old(Marks(currentMarkedTarget, world.loaded)), playerId)
    {
      if playerId !in currentMarkedTarget {
        return;
      }
      var prev := currentMarkedTarget[playerId];
      currentMarkedTarget := currentMarkedTarget - {playerId};
      if prev !in world.loaded {
        return;
      }
      var living := world.loaded[prev];
      var markedBy := GetString(living.pdc, MARKED_BY_KEY);
      if markedBy.None? || markedBy.value != playerId {
        return;
      }
      world.loaded := world.loaded[prev := Unmarked(living)];
    }

    /** `applyMarkLogic`, returning the event's damage afterwards. */
    method ApplyMarkLogic(world: Entities, playerId: string, target: nat, weapon: Meta, damage: real, now: int, roll: real)
      returns (newDamage: real)
      requires target in world.loaded
      modifies this, world
      ensures var o := MarkLogic(old(Marks(currentMarkedTarget, world.loaded)), playerId, target, weapon, damage, now, roll);
              Marks(currentMarkedTarget, world.loaded) == o.marks && newDamage == o.damage
    {
      newDamage := damage;
      var markLevel := GetInt(weapon.pdc, MARK_LEVEL_KEY).GetOr(0);
      if IsActivelyMarkedBy(world.loaded[target].pdc, playerId, now) {
        if markLevel <= 0 {
          return;
        }
        var mult := if markLevel == 1 then 1.5 else 2.0;
        newDamage := damage * mult;
        return;
      }
      if markLevel <= 0 {
        return;
      }
      var chance := if markLevel == 1 then 0.10 else 0.25;
      if roll > chance {
        return;
      }
      ClearPreviousMark(world, playerId);
      world.loaded := world.loaded[target := Marked(world.loaded[target], playerId, now)];
      currentMarkedTarget := currentMarkedTarget[playerId := target];
    }

    /** `onDamage`, returning the event's damage afterwards. */
    method OnDamage(world: Entities, hit: Hit, damage: real) returns (newDamage: real)
      requires hit.target.Some? ==> hit.target.value in world.loaded
      modifies this, world
      ensures var o := DamageOutcome(old(Marks(currentMarkedTarget, world.loaded)), hit, damage);
              Marks(currentMarkedTarget, world.loaded) == o.marks && newDamage == o.damage
    {
      newDamage := damage;
      if hit.damager.None? || hit.target.None? {
        return;
      }
      if hit.weapon.None? {
        return;
      }
      var meta := hit.weapon.value.meta;
      if meta.None? {
        return;
      }
      var level := GetInt(meta.value.pdc, SHARPEN_LEVEL_KEY).GetOr(0);
      if level > 0 {
        newDamage := newDamage + SharpeningBonus(level);
      }
      newDamage := ApplyMarkLogic(world, hit.damager.value, hit.target.value, meta.value, newDamage, hit.now, hit.roll);
    }
  }

  // ---------------------------------------------------------------- properties

  /** Hits by non-players, on non-living entities, or with a meta-less hand change nothing. */
  lemma OnlyPlayerHitsCount(m: Marks, hit: Hit, damage: real)
    requires hit.target.Some? ==> hit.target.value in m.loaded
    requires hit.damager.None? || hit.target.None? || hit.weapon.None? || hit.weapon.value.meta.None?
    ensures DamageOutcome(m, hit, damage) == Outcome(m, damage)
  {
  }

  /**
   * A counted hit adds the sharpening bonus first and then applies the
   * mark: against this player's active mark the bonus is multiplied too,
   * otherwise the hit deals the damage plus the bonus.
   */
  lemma SharpenedBeforeMark(m: Marks, hit: Hit, damage: real)
    requires hit.target.Some? ==> hit.target.value in m.loaded
    requires hit.damager.Some? && hit.target.Some? && hit.weapon.Some? && hit.weapon.value.meta.Some?
    ensures var pdc := hit.weapon.value.meta.value.pdc;
      var bonus := SharpeningBonus(GetInt(pdc, SHARPEN_LEVEL_KEY).GetOr(0));
      var mult := MarkMultiplier(GetInt(pdc, MARK_LEVEL_KEY).GetOr(0));
      var o := DamageOutcome(m, hit, damage);
      if IsActivelyMarkedBy(m.loaded[hit.target.value].pdc, hit.damager.value, hit.now) && mult.Some?
      then o.damage == (damage + bonus) * mult.value
      else o.damage == damage + bonus
  {
  }

  /**
   * Against a target this player has actively marked the damage is
   * multiplied (1.5 at mark level 1, 2.0 above, not at all without a mark
   * level) and no state changes.
   */
  lemma ActiveMarkMultiplies(m: Marks, playerId: string, target: nat, weapon: Meta, damage: real, now: int, roll: real)
    requires target in m.loaded && IsActivelyMarkedBy(m.loaded[target].pdc, playerId, now)
    ensures var o := MarkLogic(m, playerId, target, weapon, damage, now, roll);
            var lvl := GetInt(weapon.pdc, MARK_LEVEL_KEY).GetOr(0);
            o.marks == m
            && (lvl <= 0 ==> o.damage == damage)
            && (lvl == 1 ==> o.damage == damage * 1.5)
            && (lvl >= 2 ==> o.damage == damage * 2.0)
  {
  }

  /**
   * A new mark tracks the target for the player, stores the player and
   * now + 120 on it, and makes it glow for 120 ticks; the damage is kept.
   */
  lemma NewMarkSet(m: Marks, playerId: string, target: nat, weapon: Meta, damage: real, now: int, roll: real)
    requires target in m.loaded && !IsActivelyMarkedBy(m.loaded[target].pdc, playerId, now)
    requires GetInt(weapon.pdc, MARK_LEVEL_KEY).GetOr(0) > 0
    requires roll <= MarkChance(GetInt(weapon.pdc, MARK_LEVEL_KEY).GetOr(0))
    ensures var o := MarkLogic(m, playerId, target, weapon, damage, now, roll);
            o.damage == damage
            && playerId in o.marks.current && o.marks.current[playerId] == target
            && target in o.marks.loaded
            && IsActivelyMarkedBy(o.marks.loaded[target].pdc, playerId, now)
            && GetLong(o.marks.loaded[target].pdc, MARKED_UNTIL_KEY) == Some(now + 120)
            && o.marks.loaded[target].effects[GLOWING] == PotionEffect(0, 120)
  {
  }

  /** Without a mark level, or with a draw above the chance, an unmarked target is not marked. */
  lemma NoMarkWithoutProc(m: Marks, playerId: string, target: nat, weapon: Meta, damage: real, now: int, roll: real)
    requires target in m.loaded && !IsActivelyMarkedBy(m.loaded[target].pdc, playerId, now)
    requires GetInt(weapon.pdc, MARK_LEVEL_KEY).GetOr(0) <= 0
             || roll > MarkChance(GetInt(weapon.pdc, MARK_LEVEL_KEY).GetOr(0))
    ensures MarkLogic(m, playerId, target, weapon, damage, now, roll) == Outcome(m, damage)
  {
  }

  /**
   * Marking a new target removes the mark from the previously tracked one
   * (when it is loaded, carries this player's mark and is another entity),
   * so a player never leaves a second live mark behind through the tracker.
   */
  lemma PreviousMarkCleared(m: Marks, playerId: string, target: nat, weapon: Meta, damage: real, now: int, roll: real)
    requires target in m.loaded && !IsActivelyMarkedBy(m.loaded[target].pdc, playerId, now)
    requires GetInt(weapon.pdc, MARK_LEVEL_KEY).GetOr(0) > 0
    requires roll <= MarkChance(GetInt(weapon.pdc, MARK_LEVEL_KEY).GetOr(0))
    requires playerId in m.current && m.current[playerId] != target && m.current[playerId] in m.loaded
    requires GetString(m.loaded[m.current[playerId]].pdc, MARKED_BY_KEY) == Some(playerId)
    ensures var o := MarkLogic(m, playerId, target, weapon, damage, now, roll);
            var prev := m.current[playerId];
            prev in o.marks.loaded && MARKED_BY_KEY !in o.marks.loaded[prev].pdc
            && MARKED_UNTIL_KEY !in o.marks.loaded[prev].pdc && GLOWING !in o.marks.loaded[prev].effects
  {
  }

  /**
   * Clearing forgets the player's tracked target and touches no entity but
   * that one, which it unmarks only when the mark is this player's; other
   * players' tracked targets are kept.
   */
  lemma ClearOnlyOwn(m: Marks, playerId: string, other: string, id: nat)
    requires other != playerId
    ensures var c := ClearPrevious(m, playerId);
            playerId !in c.current
            && (other in c.current <==> other in m.current)
            && (other in m.current ==> c.current[other] == m.current[other])
            && c.loaded.Keys == m.loaded.Keys
            && (id in m.loaded && (playerId !in m.current || id != m.current[playerId]) ==> c.loaded[id] == m.loaded[id])
            && (id in m.loaded && GetString(m.loaded[id].pdc, MARKED_BY_KEY) != Some(playerId) ==> c.loaded[id] == m.loaded[id])
  {
  }
}
