/**
 * Boss affixes in combat: the comma list of affix ids a boss carries, the
 * per-boss, per-affix cooldowns, the rank scaling and the caps put on every
 * scaled value, and the four event handlers (the boss attacks, the boss is
 * hurt, the boss takes any damage, the boss picks a target).
 *
 * Doubles are reals; a random `nextDouble()` is a roll parameter and
 * `System.currentTimeMillis()` is the parameter `now`.
 */
module Affixes {
  import opened Wrappers
  import opened JavaText
  import opened Items
  import opened Configs
  import opened Potions
  import EffectHost
  import BossAppliers

  /** The key of the `LONG` time until which a target is marked. */
  const MARK_UNTIL_KEY: string := "mark_until"

  const LONG_MIN: int := -0x8000_0000_0000_0000
  const LONG_MAX: int := 0x7FFF_FFFF_FFFF_FFFF

  function RMax(a: real, b: real): real { if a >= b then a else b }
  function RMin(a: real, b: real): real { if a <= b then a else b }

  // ---------------------------------------------------------------- the affix list

  /** `hasAffix`: some comma-separated piece, trimmed, equals the id ignoring case. */
  predicate AffixListed(csv: string, id: string) {
    exists p :: p in Split(csv, ',') && EqualsIgnoreCase(Trim(p), id)
  }

  /** The loop of `hasAffix`. */
  method HasAffix(csv: string, id: string) returns (b: bool)
    ensures b == AffixListed(csv, id)
  {
    var parts := Split(csv, ',');
    for i := 0 to |parts|
      invariant forall j :: 0 <= j < i ==> !EqualsIgnoreCase(Trim(parts[j]), id)
    {
      if EqualsIgnoreCase(Trim(parts[i]), id) {
        return true;
      }
    }
    return false;
  }

  /** Listed and enabled. */
  predicate Armed(csv: string, cfg: Config, id: string) {
    AffixListed(csv, id) && IsAffixEnabled(cfg, id)
  }

  method CheckArmed(csv: string, cfg: Config, id: string) returns (b: bool)
    ensures b == Armed(csv, cfg, id)
  {
    var listed := HasAffix(csv, id);
    b := listed && IsAffixEnabled(cfg, id);
  }

  /** `isAffixEnabled`: `affixes.pool.<id>.enabled`, true when missing. */
  predicate IsAffixEnabled(cfg: Config, id: string) {
    CfgBoolean(cfg, "affixes.pool." + id + ".enabled", true)
  }

  /** A number under `affixes.pool.<id>.<name>`. */
  function PoolDouble(cfg: Config, id: string, name: string, def: real): real {
    CfgDouble(cfg, "affixes.pool." + id + "." + name, def)
  }

  function PoolLong(cfg: Config, id: string, name: string, def: int): int {
    CfgLong(cfg, "affixes.pool." + id + "." + name, def)
  }

  /** The affix list a boss carries, "" when it has none. */
  function AffixCsv(pdc: Pdc): string {
    GetString(pdc, BossAppliers.AFFIXES_KEY).GetOr("")
  }

  /** The affix guard of every handler: a boss whose affix list is present and not blank. */
  predicate HasAffixList(pdc: Pdc) {
    BossAppliers.IsBoss(pdc) && GetString(pdc, BossAppliers.AFFIXES_KEY).Some?
    && !IsBlank(GetString(pdc, BossAppliers.AFFIXES_KEY).value)
  }

  // ---------------------------------------------------------------- scaling and caps

  /** `rankScale`: 1.0 for no rank or a blank one, else `affixes.rank_scaling.<rank>` (1.0 when missing). */
  function RankScale(cfg: Config, rank: Option<string>): (r: real)
    ensures rank.None? || IsBlank(rank.value) ==> r == 1.0
    ensures rank.Some? && !IsBlank(rank.value) && "affixes.rank_scaling." + rank.value !in cfg.doubles ==> r == 1.0
  {
    if rank.None? || IsBlank(rank.value) then 1.0
    else CfgDouble(cfg, "affixes.rank_scaling." + rank.value, 1.0)
  }

  /** The scale of a boss, from the rank it carries. */
  function BossScale(cfg: Config, pdc: Pdc): real {
    RankScale(cfg, GetString(pdc, BossAppliers.RANK_KEY))
  }

  /** `clamp(v, min, max)`: `max(min, min(max, v))`. */
  function Clamp(v: real, lo: real, hi: real): (r: real)
    ensures lo <= hi ==> lo <= r <= hi
    ensures lo <= v <= hi ==> r == v
    ensures v < lo ==> r == lo
    ensures lo <= hi < v ==> r == hi
  {
    RMax(lo, RMin(hi, v))
  }

  /** `Math.round`: the floor of x + 1/2, saturated to the range of a `long`. */
  function RoundToLong(x: real): (r: int)
    ensures LONG_MIN <= r <= LONG_MAX
    ensures LONG_MIN as real <= x < LONG_MAX as real ==> r as real - 0.5 <= x < r as real + 0.5
  {
    var f := (x + 0.5).Floor;
    if f < LONG_MIN then LONG_MIN else if f > LONG_MAX then LONG_MAX else f
  }

  /** The `(int)` cast of a `long`: its low 32 bits, as a signed value. */
  function NarrowToInt(n: int): (r: int)
    ensures IsInt32(r)
    ensures IsInt32(n) ==> r == n
    ensures (n - r) % 0x1_0000_0000 == 0
  {
    (n + 0x8000_0000) % 0x1_0000_0000 - 0x8000_0000
  }

  /** A tick duration scaled by `factor`, rounded, cast to `int` and capped to [1, 240]. */
  function ScaledTicks(duration: int, factor: real): (r: int)
    ensures 1 <= r <= 240
  {
    Max(1, Min(240, NarrowToInt(RoundToLong(duration as real * factor))))
  }

  /** The amplifier: at least 0, one more from scale 1.45, another from 1.70, at most 3. */
  function Amplifier(amplifier: int, scale: real): (r: int)
    ensures 0 <= r <= 3
    ensures Max(0, amplifier) <= 3 ==> Max(0, amplifier) <= r
  {
    var amp := Max(0, amplifier) + (if scale >= 1.45 then 1 else 0) + (if scale >= 1.70 then 1 else 0);
    Min(3, amp)
  }

  /** The mark's duration: `durationMs * (0.85 + 0.15 * scale)` rounded and capped to [500, 6000]. */
  function MarkDurationMs(durationMs: int, scale: real): (r: int)
    ensures 500 <= r <= 6000
  {
    Max(500, Min(6000, RoundToLong(durationMs as real * (0.85 + 0.15 * scale))))
  }

  /** The time a new mark lasts until. */
  function MarkUntil(cfg: Config, now: int, scale: real): int {
    now + Max(250, MarkDurationMs(PoolLong(cfg, "mark", "mark_duration_ms", 3000), scale))
  }

  /** The damage multiplier of a consumed mark: the extra over 1.0 is scaled, the whole capped to [1, 3]. */
  function MarkMultiplier(cfg: Config, scale: real): (r: real)
    ensures 1.0 <= r <= 3.0
  {
    var bonus := PoolDouble(cfg, "mark", "bonus_damage_multiplier", 1.5);
    Clamp(1.0 + RMax(0.0, bonus - 1.0) * scale, 1.0, 3.0)
  }

  /** Whether the target carries a mark that has not yet run out. */
  predicate MarkActive(pdc: Pdc, now: int) {
    GetLong(pdc, MARK_UNTIL_KEY).Some? && GetLong(pdc, MARK_UNTIL_KEY).value > now
  }

  /** The damage after mark consumption. */
  function MarkedDamage(cfg: Config, pdc: Pdc, now: int, damage: real, scale: real): real {
    if MarkActive(pdc, now) then damage * MarkMultiplier(cfg, scale) else damage
  }

  /** The target's data after mark consumption: an active mark is removed. */
  function AfterMark(pdc: Pdc, now: int): Pdc {
    if MarkActive(pdc, now) then pdc - {MARK_UNTIL_KEY} else pdc
  }

  /** The lifesteal share of the damage, scaled and capped to [0, 0.55]. */
  function HealPercent(cfg: Config, scale: real): real {
    Clamp(PoolDouble(cfg, "lifesteal", "heal_percent_of_damage", 0.20) * scale, 0.0, 0.55)
  }

  /** Lifesteal's heal: the healed share of the final damage. */
  function HealAmount(cfg: Config, finalDamage: real, scale: real): real {
    finalDamage * HealPercent(cfg, scale)
  }

  /**
   * The boss's health after a lifesteal of `heal`: a living boss gains up to
   * `heal`, never above its maximum health (its current health when the
   * attribute is absent), and never loses health.
   */
  function HealedHealth(alive: bool, health: real, maxHealth: Option<real>, heal: real): (r: real)
    ensures r >= health
    ensures r > health ==> alive && heal > 0.0 && r <= health + heal
    ensures r > health ==> maxHealth.Some? && r <= maxHealth.value
  {
    if heal > 0.0 && alive then
      var max := maxHealth.GetOr(health);
      var newHealth := RMin(max, health + heal);
      if newHealth > health then newHealth else health
    else health
  }

  function BleedTicks(cfg: Config, scale: real): int {
    ScaledTicks(PoolLong(cfg, "bleed", "duration_ticks", 60), scale)
  }

  function BleedAmplifier(cfg: Config, scale: real): int {
    Amplifier(PoolLong(cfg, "bleed", "amplifier", 0), scale)
  }

  /** The target's effects after a bleed: WITHER with the scaled amplifier and duration. */
  function Bled(effects: ActiveEffects, cfg: Config, scale: real): ActiveEffects {
    EffectHost.AddEffect(effects, WITHER, BleedAmplifier(cfg, scale), BleedTicks(cfg, scale))
  }

  /** The target's data after a mark: marked until `MarkUntil`. */
  function Marked(pdc: Pdc, cfg: Config, now: int, scale: real): Pdc {
    pdc[MARK_UNTIL_KEY := PLong(MarkUntil(cfg, now, scale))]
  }

  /** The thorns share of the damage, scaled by `0.85 + 0.15 * scale` and capped to [0, 0.55]. */
  function ReflectPercent(cfg: Config, scale: real): real {
    Clamp(PoolDouble(cfg, "thorns", "reflect_percent", 0.25) * (0.85 + 0.15 * scale), 0.0, 0.55)
  }

  /** The shockwave's reach, scaled by `0.90 + 0.10 * scale` and capped to [2, 7]. */
  function ShockwaveRadius(cfg: Config, scale: real): real {
    Clamp(PoolDouble(cfg, "shockwave", "radius", 4.0) * (0.90 + 0.10 * scale), 2.0, 7.0)
  }

  /** The shockwave's damage to each target, scaled and capped to [0, 14]. */
  function ShockwaveDamage(cfg: Config, scale: real): real {
    Clamp(PoolDouble(cfg, "shockwave", "damage", 4.0) * scale, 0.0, 14.0)
  }

  function IntimidateTicks(cfg: Config, scale: real): int {
    ScaledTicks(PoolLong(cfg, "intimidate", "duration_ticks", 40), 0.85 + 0.15 * scale)
  }

  function IntimidateAmplifier(cfg: Config, scale: real): int {
    Amplifier(PoolLong(cfg, "intimidate", "amplifier", 0), scale)
  }

  // ---------------------------------------------------------------- effect names

  /**
   * The names `PotionEffectType.getByName` knows: each registered type's key
   * path upper-cased, in registry order, and then the legacy names that map
   * onto them.
   */
  const EFFECT_NAMES: seq<(string, PotionType)> := REGISTRY_NAMES_1 + REGISTRY_NAMES_2 + LEGACY_NAMES

  const REGISTRY_NAMES_1: seq<(string, PotionType)> := [
    ("SPEED", SPEED), ("SLOWNESS", SLOWNESS), ("HASTE", HASTE), ("MINING_FATIGUE", MINING_FATIGUE),
    ("STRENGTH", STRENGTH), ("INSTANT_HEALTH", INSTANT_HEALTH), ("INSTANT_DAMAGE", INSTANT_DAMAGE),
    ("JUMP_BOOST", JUMP_BOOST), ("NAUSEA", NAUSEA), ("REGENERATION", REGENERATION),
    ("RESISTANCE", RESISTANCE), ("FIRE_RESISTANCE", FIRE_RESISTANCE),
    ("WATER_BREATHING", WATER_BREATHING), ("INVISIBILITY", INVISIBILITY), ("BLINDNESS", BLINDNESS),
    ("NIGHT_VISION", NIGHT_VISION), ("HUNGER", HUNGER), ("WEAKNESS", WEAKNESS), ("POISON", POISON),
    ("WITHER", WITHER)]

  const REGISTRY_NAMES_2: seq<(string, PotionType)> := [
    ("HEALTH_BOOST", HEALTH_BOOST), ("ABSORPTION", ABSORPTION), ("SATURATION", SATURATION),
    ("GLOWING", GLOWING), ("LEVITATION", LEVITATION), ("LUCK", LUCK), ("UNLUCK", UNLUCK),
    ("SLOW_FALLING", SLOW_FALLING), ("CONDUIT_POWER", CONDUIT_POWER),
    ("DOLPHINS_GRACE", DOLPHINS_GRACE), ("BAD_OMEN", BAD_OMEN),
    ("HERO_OF_THE_VILLAGE", HERO_OF_THE_VILLAGE), ("DARKNESS", DARKNESS), ("TRIAL_OMEN", TRIAL_OMEN),
    ("RAID_OMEN", RAID_OMEN), ("WIND_CHARGED", WIND_CHARGED), ("WEAVING", WEAVING), ("OOZING", OOZING),
    ("INFESTED", INFESTED)]

  const LEGACY_NAMES: seq<(string, PotionType)> := [
    ("SLOW", SLOWNESS), ("FAST_DIGGING", HASTE), ("SLOW_DIGGING", MINING_FATIGUE),
    ("INCREASE_DAMAGE", STRENGTH), ("HEAL", INSTANT_HEALTH), ("HARM", INSTANT_DAMAGE),
    ("JUMP", JUMP_BOOST), ("CONFUSION", NAUSEA), ("DAMAGE_RESISTANCE", RESISTANCE)]

  function LookupName(names: seq<(string, PotionType)>, name: string): (r: Option<PotionType>)
    ensures r.Some? ==> exists i :: 0 <= i < |names| && names[i] == (name, r.value)
    ensures r.None? ==> forall i :: 0 <= i < |names| ==> names[i].0 != name
  {
    if names == [] then None
    else if names[0].0 == name then Some(names[0].1)
    else
      var r := LookupName(names[1..], name);
      assert forall i :: 1 <= i < |names| ==> names[i] == names[1..][i - 1];
      r
  }

  /** `getByName` on the upper-cased configured name. */
  function EffectByName(name: string): Option<PotionType> {
    LookupName(EFFECT_NAMES, ToUpper(name))
  }

  /** The effect intimidate applies: the configured one (SLOWNESS by default), SLOWNESS for an unknown name. */
  function IntimidateType(cfg: Config): PotionType {
    EffectByName(CfgString(cfg, "affixes.pool.intimidate.effect", "SLOWNESS")).GetOr(SLOWNESS)
  }

  /** The target's effects after intimidate, for a boss carrying `pdc`. */
  function Intimidated(effects: ActiveEffects, cfg: Config, pdc: Pdc): ActiveEffects {
    var scale := BossScale(cfg, pdc);
    EffectHost.AddEffect(effects, IntimidateType(cfg), IntimidateAmplifier(cfg, scale), IntimidateTicks(cfg, scale))
  }

  // ---------------------------------------------------------------- cooldowns

  /** One affix of the attack and hurt handlers with its default chance and cooldown. */
  datatype Affix = Affix(id: string, chance: real, cooldownMs: int)

  const LIFESTEAL: Affix := Affix("lifesteal", 0.25, 1200)
  const KNOCKBACK: Affix := Affix("knockback", 0.30, 1000)
  const BLEED: Affix := Affix("bleed", 0.25, 1200)
  const PULL: Affix := Affix("pull", 0.20, 1400)
  const MARK: Affix := Affix("mark", 0.25, 1200)
  const THORNS: Affix := Affix("thorns", 0.35, 1000)
  const SHOCKWAVE: Affix := Affix("shockwave", 0.15, 2500)
  const INTIMIDATE_ID: string := "intimidate"

  function ChanceOf(cfg: Config, a: Affix): real { PoolDouble(cfg, a.id, "chance", a.chance) }
  function CooldownOf(cfg: Config, a: Affix): int { PoolLong(cfg, a.id, "cooldown_ms", a.cooldownMs) }

  /** The cooldown key of a boss and an affix. */
  function CooldownKey(bossId: string, affixId: string): string {
    bossId + ":" + affixId
  }

  /** The last proc time under a key, 0 when there is none. */
  function LastOf(last: map<string, int>, key: string): int {
    if key in last then last[key] else 0
  }

  /** `cooldownOk`: no cooldown, or at least `cooldownMs` since the last proc. */
  predicate CooldownReady(last: map<string, int>, bossId: string, affixId: string, cooldownMs: int, now: int) {
    cooldownMs <= 0 || now - LastOf(last, CooldownKey(bossId, affixId)) >= cooldownMs
  }

  /** `shouldProc`: a chance below 1 needs a roll not above it, and the cooldown must be over. */
  predicate ProcFires(last: map<string, int>, bossId: string, affixId: string, chance: real, cooldownMs: int,
                      roll: real, now: int) {
    !(chance < 1.0 && roll > chance) && CooldownReady(last, bossId, affixId, cooldownMs, now)
  }

  /** An affix of the list, enabled, whose proc fires. */
  predicate Fires(last: map<string, int>, bossId: string, csv: string, cfg: Config, a: Affix, roll: real, now: int) {
    Armed(csv, cfg, a.id) && ProcFires(last, bossId, a.id, ChanceOf(cfg, a), CooldownOf(cfg, a), roll, now)
  }

  /** The cooldowns after one affix block: a proc that fires is stamped with `now`. */
  function Step(last: map<string, int>, bossId: string, csv: string, cfg: Config, a: Affix,
                rolls: string -> real, now: int): map<string, int> {
    if Fires(last, bossId, csv, cfg, a, rolls(a.id), now) then last[CooldownKey(bossId, a.id) := now] else last
  }

  /** The cooldowns after the five blocks of the attack handler, in their order. */
  function AttackProcs(last: map<string, int>, bossId: string, csv: string, cfg: Config,
                       rolls: string -> real, now: int): map<string, int> {
    var m1 := Step(last, bossId, csv, cfg, LIFESTEAL, rolls, now);
    var m2 := Step(m1, bossId, csv, cfg, KNOCKBACK, rolls, now);
    var m3 := Step(m2, bossId, csv, cfg, BLEED, rolls, now);
    var m4 := Step(m3, bossId, csv, cfg, PULL, rolls, now);
    Step(m4, bossId, csv, cfg, MARK, rolls, now)
  }

  // ---------------------------------------------------------------- entities

  /** A server entity as the handlers see it. */
  class Entity {
    const uuid: string
    /** Whether it is a `LivingEntity`. */
    const living: bool
    /** `isValid()` and `isDead()`. */
    const valid: bool
    const dead: bool
    var health: real
    /** The MAX_HEALTH attribute value, None when the attribute is absent. */
    const maxHealth: Option<real>
    var pdc: Pdc
    var effects: ActiveEffects
    /** The amounts of every `damage(amount, source)` call it received, in order. */
    var struck: seq<real>

    constructor(uuid: string, living: bool, valid: bool, dead: bool, health: real, maxHealth: Option<real>,
                pdc: Pdc, effects: ActiveEffects)
      ensures this.uuid == uuid && this.living == living && this.valid == valid && this.dead == dead
      ensures this.health == health && this.maxHealth == maxHealth && this.pdc == pdc && this.effects == effects
      ensures struck == []
    {
      this.uuid := uuid;
      this.living := living;
      this.valid := valid;
      this.dead := dead;
      this.health := health;
      this.maxHealth := maxHealth;
      this.pdc := pdc;
      this.effects := effects;
      struck := [];
    }
  }

  /** `isAlive`: valid, not dead, with health above 0. */
  predicate Alive(e: Entity)
    reads e`health
  {
    e.valid && !e.dead && e.health > 0.0
  }

  // ---------------------------------------------------------------- shockwave targets

  /** The entities the shockwave may hit: not the boss, living, alive, in the order they were found. */
  function Eligible(boss: Entity, nearby: seq<Entity>): seq<Entity>
    reads nearby
    decreases |nearby|
  {
    if nearby == [] then []
    else
      var e := nearby[|nearby| - 1];
      Eligible(boss, nearby[..|nearby| - 1]) + (if e != boss && e.living && Alive(e) then [e] else [])
  }

  /** Ordered by the squared distance to the boss. */
  predicate SortedBy(s: seq<Entity>, key: Entity -> real) {
    forall i, j :: 0 <= i < j < |s| ==> key(s[i]) <= key(s[j])
  }

  /** `x` placed before the first entity that is not nearer than it. */
  function Insert(x: Entity, s: seq<Entity>, key: Entity -> real): (r: seq<Entity>)
    ensures multiset(r) == multiset(s) + multiset{x}
    ensures |r| == |s| + 1
  {
    if s == [] || key(x) <= key(s[0]) then [x] + s
    else
      assert s == [s[0]] + s[1..];
      [s[0]] + Insert(x, s[1..], key)
  }

  /** `List.sort` by distance, as an insertion sort that keeps entities of equal distance in their order. */
  function SortByDistance(s: seq<Entity>, key: Entity -> real): (r: seq<Entity>)
    ensures multiset(r) == multiset(s)
    ensures |r| == |s|
  {
    if s == [] then []
    else
      assert s == [s[0]] + s[1..];
      Insert(s[0], SortByDistance(s[1..], key), key)
  }

  /** The second loop: alive entities in order until `max` are hit. */
  function Hits(s: seq<Entity>, max: int): seq<Entity>
    reads s
  {
    if s == [] || max <= 0 then []
    else if !Alive(s[0]) then Hits(s[1..], max)
    else [s[0]] + Hits(s[1..], max - 1)
  }

  /** The entities a shockwave hits. */
  function Struck(boss: Entity, nearby: seq<Entity>, key: Entity -> real, maxTargets: int): seq<Entity>
    reads nearby
  {
    SortedEligible(boss, nearby, key);
    Hits(SortByDistance(Eligible(boss, nearby), key), maxTargets)
  }

  /** The sorted candidates are eligible entities, each of them found nearby. */
  lemma SortedEligible(boss: Entity, nearby: seq<Entity>, key: Entity -> real)
    ensures forall x :: x in SortByDistance(Eligible(boss, nearby), key) ==>
              x in nearby && x != boss && x.living && Alive(x)
    ensures forall i :: 0 <= i < |SortByDistance(Eligible(boss, nearby), key)| ==>
              SortByDistance(Eligible(boss, nearby), key)[i] in nearby
  {
    EligibleRule(boss, nearby);
    var sorted := SortByDistance(Eligible(boss, nearby), key);
    forall x | x in sorted
      ensures x in nearby && x != boss && x.living && Alive(x)
    {
      assert x in multiset(sorted);
      assert x in multiset(Eligible(boss, nearby));
    }
  }

  /** An entity is eligible exactly when it was found, is not the boss, is living and alive. */
  lemma {:induction false} EligibleRule(boss: Entity, nearby: seq<Entity>)
    ensures forall x :: x in Eligible(boss, nearby) <==> x in nearby && x != boss && x.living && Alive(x)
    decreases |nearby|
  {
    if nearby != [] {
      var front := nearby[..|nearby| - 1];
      EligibleRule(boss, front);
      assert nearby == front + [nearby[|nearby| - 1]];
    }
  }

  /** Both loops of the shockwave: collect the eligible entities, sort them, hit up to `maxTargets`. */
  method ShockwaveTargets(boss: Entity, nearby: seq<Entity>, key: Entity -> real, maxTargets: int)
    returns (hit: seq<Entity>)
    ensures hit == Struck(boss, nearby, key, maxTargets)
  {
    var targets := EligibleTargets(boss, nearby);
    var sorted := SortByDistance(targets, key);
    SortedEligible(boss, nearby, key);
    hit := HitTargets(sorted, maxTargets);
  }

  /** The filter loop of `onBossDamagedAny`: the other living, alive entities nearby. */
  method EligibleTargets(boss: Entity, nearby: seq<Entity>) returns (targets: seq<Entity>)
    ensures targets == Eligible(boss, nearby)
  {
    targets := [];
    for i := 0 to |nearby|
      invariant targets == Eligible(boss, nearby[..i])
    {
      assert nearby[..i + 1][..i] == nearby[..i];
      var e := nearby[i];
      if e == boss {
        continue;
      }
      if !e.living {
        continue;
      }
      if !Alive(e) {
        continue;
      }
      targets := targets + [e];
    }
    assert nearby[..|nearby|] == nearby;
  }

  /** The hit loop of `onBossDamagedAny`: alive targets in order, until `maxTargets` are hit. */
  method HitTargets(sorted: seq<Entity>, maxTargets: int) returns (hit: seq<Entity>)
    ensures hit == Hits(sorted, maxTargets)
  {
    var count := 0;
    hit := [];
    for j := 0 to |sorted|
      invariant hit + Hits(sorted[j..], maxTargets - count) == Hits(sorted, maxTargets)
    {
      assert sorted[j..] == [sorted[j]] + sorted[j + 1..];
      if count >= maxTargets {
        break;
      }
      if !Alive(sorted[j]) {
        continue;
      }
      hit := hit + [sorted[j]];
      count := count + 1;
    }
  }


  // ---------------------------------------------------------------- shockwave properties

  lemma {:induction false} InsertSorted(x: Entity, s: seq<Entity>, key: Entity -> real)
    requires SortedBy(s, key)
    ensures SortedBy(Insert(x, s, key), key)
    decreases |s|
  {
    if s != [] && key(x) > key(s[0]) {
      var rest := Insert(x, s[1..], key);
      InsertSorted(x, s[1..], key);
      forall j | 0 <= j < |rest|
        ensures key(s[0]) <= key(rest[j])
      {
        assert rest[j] in multiset(s[1..]) + multiset{x};
        if rest[j] != x {
          assert rest[j] in s[1..];
        }
      }
    }
  }

  /** The sort orders by distance. */
  lemma {:induction false} SortSorted(s: seq<Entity>, key: Entity -> real)
    ensures SortedBy(SortByDistance(s, key), key)
    decreases |s|
  {
    if s != [] {
      SortSorted(s[1..], key);
      InsertSorted(s[0], SortByDistance(s[1..], key), key);
    }
  }

  /** Over alive entities the second loop takes the first `max` of them. */
  lemma {:induction false} HitsAllAlive(s: seq<Entity>, max: int)
    requires forall i :: 0 <= i < |s| ==> Alive(s[i])
    ensures Hits(s, max) == s[..Min(Max(0, max), |s|)]
    decreases |s|
  {
    if s != [] && max > 0 {
      HitsAllAlive(s[1..], max - 1);
      assert s[..Min(max, |s|)] == [s[0]] + s[1..][..Min(max - 1, |s| - 1)];
    }
  }

  /**
   * A shockwave hits at most `maxTargets` entities, each of them eligible, and
   * the nearest ones: every struck entity is no farther than every eligible
   * one it spared; with no more eligible entities than `maxTargets`, all are struck.
   */
  lemma ShockwaveRule(boss: Entity, nearby: seq<Entity>, key: Entity -> real, maxTargets: int)
    ensures |Struck(boss, nearby, key, maxTargets)| <= Max(0, maxTargets)
    ensures forall x :: x in Struck(boss, nearby, key, maxTargets) ==>
              x in nearby && x != boss && x.living && Alive(x)
    ensures forall x, y :: (x in Struck(boss, nearby, key, maxTargets) && y in Eligible(boss, nearby)
                            && y !in Struck(boss, nearby, key, maxTargets)) ==> key(x) <= key(y)
    ensures |Eligible(boss, nearby)| <= maxTargets ==>
              forall y :: y in Eligible(boss, nearby) ==> y in Struck(boss, nearby, key, maxTargets)
  {
    var sorted := SortByDistance(Eligible(boss, nearby), key);
    SortedEligible(boss, nearby, key);
    SortSorted(Eligible(boss, nearby), key);
    HitsAllAlive(sorted, maxTargets);
    var hit := Struck(boss, nearby, key, maxTargets);
    var n := Min(Max(0, maxTargets), |sorted|);
    assert hit == sorted[..n];
    PrefixNearest(sorted, n, key);
    assert forall y :: y in Eligible(boss, nearby) <==> y in multiset(sorted);
    if |Eligible(boss, nearby)| <= maxTargets {
      assert hit == sorted;
    }
  }

  /** A prefix of a sorted sequence holds no entity farther than one after it. */
  lemma PrefixNearest(sorted: seq<Entity>, n: nat, key: Entity -> real)
    requires SortedBy(sorted, key) && n <= |sorted|
    ensures forall x, y :: x in sorted[..n] && y in sorted && y !in sorted[..n] ==> key(x) <= key(y)
  {
    forall x, y | x in sorted[..n] && y in sorted && y !in sorted[..n]
      ensures key(x) <= key(y)
    {
      var i :| 0 <= i < n && sorted[i] == x;
      var j :| 0 <= j < |sorted| && sorted[j] == y;
      assert forall k :: 0 <= k < n ==> sorted[..n][k] == sorted[k];
    }
  }

  // ---------------------------------------------------------------- the handlers

  /** The guards of `onBossAttack`: not cancelled, a living boss with an affix list hitting a living, alive entity. */
  predicate AttackEngaged(cancelled: bool, damager: Entity, entity: Entity)
    reads damager`pdc, entity`health
  {
    !cancelled && damager.living && HasAffixList(damager.pdc) && entity.living && Alive(entity)
  }

  /** The guards of `onBossHurt`: not cancelled, a living boss with an affix list. */
  predicate HurtEngaged(cancelled: bool, entity: Entity)
    reads entity`pdc
  {
    !cancelled && entity.living && HasAffixList(entity.pdc)
  }

  /** Whether thorns fires: listed, enabled, a living and alive attacker, and its proc. */
  predicate ThornsFires(last: map<string, int>, boss: Entity, damager: Entity, cfg: Config, roll: real, now: int)
    reads boss`pdc, damager`health
  {
    Fires(last, boss.uuid, AffixCsv(boss.pdc), cfg, THORNS, roll, now) && damager.living && Alive(damager)
  }

  /** The damage the thorns block reflects onto the attacker: the reflected share when it fires on an alive boss. */
  function Reflected(fires: bool, boss: Entity, reflect: real): (r: seq<real>)
    reads boss`health
    ensures |r| <= 1
    ensures r != [] <==> fires && Alive(boss) && reflect > 0.0
    ensures r != [] ==> r[0] == reflect
  {
    if fires && Alive(boss) && reflect > 0.0 then [reflect] else []
  }

  /** The share of the final damage thorns reflects. */
  function ReflectAmount(boss: Entity, finalDamage: real, cfg: Config): real
    reads boss`pdc
  {
    finalDamage * ReflectPercent(cfg, BossScale(cfg, boss.pdc))
  }

  /** The guards of `onBossDamagedAny`: a living, alive boss listing shockwave, enabled. */
  predicate ShockwaveEngaged(cancelled: bool, boss: Entity, cfg: Config, a: Affix)
    reads boss`pdc, boss`health
  {
    !cancelled && boss.living && Alive(boss) && HasAffixList(boss.pdc)
    && Armed(AffixCsv(boss.pdc), cfg, a.id)
  }

  /** The guards of `onBossTarget`, the cooldown included. */
  predicate TargetEngaged(last: map<string, int>, cancelled: bool, boss: Entity, target: Entity?, cfg: Config, now: int)
    reads boss`pdc, {target}`health
  {
    !cancelled && boss.living && BossAppliers.IsBoss(boss.pdc) && target != null && Alive(target)
    && HasAffixList(boss.pdc) && Armed(AffixCsv(boss.pdc), cfg, INTIMIDATE_ID)
    && CooldownReady(last, boss.uuid, INTIMIDATE_ID, PoolLong(cfg, INTIMIDATE_ID, "cooldown_ms", 3000), now)
  }

  class AffixListener {
    /** `lastProc`: the last proc time of each boss and affix, under `CooldownKey`. */
    var lastProc: map<string, int>
    /** The bosses whose lethal-safety task is scheduled and has not yet run, in order. */
    var safetyTasks: seq<Entity>

    constructor()
      ensures lastProc == map[] && safetyTasks == []
    {
      lastProc := map[];
      safetyTasks := [];
    }

    predicate CooldownOk(bossId: string, affixId: string, cooldownMs: int, now: int)
      reads this
    {
      CooldownReady(lastProc, bossId, affixId, cooldownMs, now)
    }

    /** `setLastProc`. */
    method SetLastProc(bossId: string, affixId: string, now: int)
      modifies this`lastProc
      ensures lastProc == old(lastProc)[CooldownKey(bossId, affixId) := now]
    {
      lastProc := lastProc[CooldownKey(bossId, affixId) := now];
    }

    /** `shouldProc`: the roll, then the cooldown; a proc that fires is stamped with `now`. */
    method ShouldProc(bossId: string, affixId: string, chance: real, cooldownMs: int, roll: real, now: int)
      returns (b: bool)
      modifies this`lastProc
      ensures b == ProcFires(old(lastProc), bossId, affixId, chance, cooldownMs, roll, now)
      ensures lastProc == if b then old(lastProc)[CooldownKey(bossId, affixId) := now] else old(lastProc)
    {
      if chance < 1.0 && roll > chance {
        return false;
      }
      if !CooldownOk(bossId, affixId, cooldownMs, now) {
        return false;
      }
      SetLastProc(bossId, affixId, now);
      return true;
    }

    /** One affix block of the attack handler: listed, enabled, then `shouldProc`. */
    method TryProc(bossId: string, csv: string, cfg: Config, a: Affix, rolls: string -> real, now: int)
      returns (fired: bool)
      modifies this`lastProc
      ensures fired == Fires(old(lastProc), bossId, csv, cfg, a, rolls(a.id), now)
      ensures lastProc == Step(old(lastProc), bossId, csv, cfg, a, rolls, now)
    {
      fired := false;
      var armed := CheckArmed(csv, cfg, a.id);
      if armed {
        fired := ShouldProc(bossId, a.id, ChanceOf(cfg, a), CooldownOf(cfg, a), rolls(a.id), now);
      }
    }

    /** Lifesteal's heal of the boss. */
    method Heal(boss: Entity, heal: real)
      modifies boss`health
      ensures boss.health == HealedHealth(old(Alive(boss)), old(boss.health), boss.maxHealth, heal)
    {
      if heal > 0.0 && Alive(boss) {
        var max := boss.maxHealth.GetOr(boss.health);
        var newHealth := RMin(max, boss.health + heal);
        if newHealth > boss.health {
          boss.health := newHealth;
        }
      }
    }

    /** The guards of `onBossAttack` in their order. */
    method AttackGuard(cancelled: bool, damager: Entity, entity: Entity) returns (ok: bool)
      ensures ok == AttackEngaged(cancelled, damager, entity)
    {
      if cancelled || !damager.living || !BossAppliers.IsBoss(damager.pdc) {
        return false;
      }
      var affixes := GetString(damager.pdc, BossAppliers.AFFIXES_KEY);
      if affixes.None? || IsBlank(affixes.value) {
        return false;
      }
      ok := entity.living && Alive(entity);
    }

    /** Mark consumption: an active mark multiplies the damage and is removed. */
    method ConsumeMark(entity: Entity, cfg: Config, now: int, damage: real, scale: real) returns (newDamage: real)
      modifies entity`pdc
      ensures newDamage == MarkedDamage(cfg, old(entity.pdc), now, damage, scale)
      ensures entity.pdc == AfterMark(old(entity.pdc), now)
    {
      newDamage := damage;
      var until := GetLong(entity.pdc, MARK_UNTIL_KEY);
      if until.Some? && until.value > now {
        newDamage := damage * MarkMultiplier(cfg, scale);
        entity.pdc := entity.pdc - {MARK_UNTIL_KEY};
      }
    }

    /** The lifesteal block `ls` and the knockback block `kb`. */
    method FirstBlocks(damager: Entity, csv: string, heal: real, cfg: Config, ls: Affix, kb: Affix,
                       rolls: string -> real, now: int)
      modifies this`lastProc, damager`health
      ensures lastProc == Step(Step(old(lastProc), damager.uuid, csv, cfg, ls, rolls, now),
                               damager.uuid, csv, cfg, kb, rolls, now)
      ensures damager.health == (if Fires(old(lastProc), damager.uuid, csv, cfg, ls, rolls(ls.id), now)
                                 then HealedHealth(old(Alive(damager)), old(damager.health), damager.maxHealth, heal)
                                 else old(damager.health))
    {
      var fired := TryProc(damager.uuid, csv, cfg, ls, rolls, now);
      if fired {
        Heal(damager, heal);
      }
      fired := TryProc(damager.uuid, csv, cfg, kb, rolls, now);
    }

    /** The bleed block `bl`, the pull block `pu` and the mark block `mk`, on a target that is alive. */
    method LastBlocks(bossId: string, entity: Entity, csv: string, scale: real, cfg: Config,
                      bl: Affix, pu: Affix, mk: Affix, rolls: string -> real, now: int)
      requires Alive(entity)
      requires bl.id != mk.id && pu.id != mk.id
      modifies this`lastProc, entity`pdc, entity`effects
      ensures lastProc == Step(Step(Step(old(lastProc), bossId, csv, cfg, bl, rolls, now),
                                    bossId, csv, cfg, pu, rolls, now), bossId, csv, cfg, mk, rolls, now)
      ensures entity.effects == (if Fires(old(lastProc), bossId, csv, cfg, bl, rolls(bl.id), now)
                                 then Bled(old(entity.effects), cfg, scale) else old(entity.effects))
      ensures entity.pdc == (if Fires(old(lastProc), bossId, csv, cfg, mk, rolls(mk.id), now)
                             then Marked(old(entity.pdc), cfg, now, scale) else old(entity.pdc))
    {
      ghost var m0 := lastProc;
      var fired := TryProc(bossId, csv, cfg, bl, rolls, now);
      if fired && Alive(entity) {
        entity.effects := Bled(entity.effects, cfg, scale);
      }
      ghost var m1 := lastProc;
      fired := TryProc(bossId, csv, cfg, pu, rolls, now);
      FiresAfterStep(m0, bossId, csv, cfg, bl, mk, rolls, now);
      FiresAfterStep(m1, bossId, csv, cfg, pu, mk, rolls, now);
      fired := TryProc(bossId, csv, cfg, mk, rolls, now);
      if fired && Alive(entity) {
        entity.pdc := Marked(entity.pdc, cfg, now, scale);
      }
    }

    /** The five proc blocks of `onBossAttack` in their order, for affixes with distinct ids. */
    method AttackBlocks(damager: Entity, entity: Entity, csv: string, scale: real, heal: real, cfg: Config,
                        ls: Affix, kb: Affix, bl: Affix, pu: Affix, mk: Affix, rolls: string -> real, now: int)
      requires Alive(entity)
      requires ls.id != bl.id && kb.id != bl.id && ls.id != mk.id && kb.id != mk.id && bl.id != mk.id && pu.id != mk.id
      modifies this`lastProc, damager`health, entity`pdc, entity`effects
      ensures lastProc == Step(Step(Step(Step(Step(old(lastProc), damager.uuid, csv, cfg, ls, rolls, now),
                                                   damager.uuid, csv, cfg, kb, rolls, now),
                                              damager.uuid, csv, cfg, bl, rolls, now),
                                         damager.uuid, csv, cfg, pu, rolls, now),
                                    damager.uuid, csv, cfg, mk, rolls, now)
      ensures damager.health == (if Fires(old(lastProc), damager.uuid, csv, cfg, ls, rolls(ls.id), now)
                                 then HealedHealth(old(Alive(damager)), old(damager.health), damager.maxHealth, heal)
                                 else old(damager.health))
      ensures entity.effects == (if Fires(old(lastProc), damager.uuid, csv, cfg, bl, rolls(bl.id), now)
                                 then Bled(old(entity.effects), cfg, scale) else old(entity.effects))
      ensures entity.pdc == (if Fires(old(lastProc), damager.uuid, csv, cfg, mk, rolls(mk.id), now)
                             then Marked(old(entity.pdc), cfg, now, scale) else old(entity.pdc))
    {
      ghost var last := lastProc;
      var bossId := damager.uuid;
      FirstBlocks(damager, csv, heal, cfg, ls, kb, rolls, now);
      ghost var m1 := Step(last, bossId, csv, cfg, ls, rolls, now);
      FiresAfterStep(last, bossId, csv, cfg, ls, bl, rolls, now);
      FiresAfterStep(m1, bossId, csv, cfg, kb, bl, rolls, now);
      FiresAfterStep(last, bossId, csv, cfg, ls, mk, rolls, now);
      FiresAfterStep(m1, bossId, csv, cfg, kb, mk, rolls, now);
      LastBlocks(bossId, entity, csv, scale, cfg, bl, pu, mk, rolls, now);
    }

    /**
     * `onBossAttack`: a boss hits an entity. An active mark on the target is
     * consumed and multiplies the damage; then lifesteal, knockback, bleed,
     * pull and mark each roll their proc in that order. `finalOf` is the
     * server's final damage for a given base damage.
     */
    method OnBossAttack(cancelled: bool, damager: Entity, entity: Entity, damage: real, finalOf: real -> real,
                        cfg: Config, rolls: string -> real, now: int) returns (newDamage: real)
      modifies this`lastProc, damager`health, entity`pdc, entity`effects
      ensures !old(AttackEngaged(cancelled, damager, entity)) ==>
                newDamage == damage && lastProc == old(lastProc) && damager.health == old(damager.health)
                && entity.pdc == old(entity.pdc) && entity.effects == old(entity.effects)
      ensures old(AttackEngaged(cancelled, damager, entity)) ==>
                lastProc == AttackProcs(old(lastProc), damager.uuid, old(AffixCsv(damager.pdc)), cfg, rolls, now)
      ensures old(AttackEngaged(cancelled, damager, entity)) ==>
                entity.effects == (if Fires(old(lastProc), damager.uuid, old(AffixCsv(damager.pdc)), cfg, BLEED, rolls(BLEED.id), now)
                                      then Bled(old(entity.effects), cfg, old(BossScale(cfg, damager.pdc))) else old(entity.effects))
      ensures old(AttackEngaged(cancelled, damager, entity)) ==>
                entity.pdc == (if Fires(old(lastProc), damager.uuid, old(AffixCsv(damager.pdc)), cfg, MARK, rolls(MARK.id), now)
                                  then Marked(AfterMark(old(entity.pdc), now), cfg, now, old(BossScale(cfg, damager.pdc)))
                                  else AfterMark(old(entity.pdc), now))
      ensures old(AttackEngaged(cancelled, damager, entity)) ==>
                newDamage == MarkedDamage(cfg, old(entity.pdc), now, damage, old(BossScale(cfg, damager.pdc)))
      ensures old(AttackEngaged(cancelled, damager, entity)) ==>
                damager.health == (if Fires(old(lastProc), damager.uuid, old(AffixCsv(damager.pdc)), cfg, LIFESTEAL, rolls(LIFESTEAL.id), now)
                                   then HealedHealth(old(Alive(damager)), old(damager.health), damager.maxHealth,
                                                     HealAmount(cfg, finalOf(newDamage), old(BossScale(cfg, damager.pdc))))
                                   else old(damager.health))
    {
      var ok := AttackGuard(cancelled, damager, entity);
      if !ok {
        return damage;
      }
      var csv := AffixCsv(damager.pdc);
      var scale := BossScale(cfg, damager.pdc);
      newDamage := ConsumeMark(entity, cfg, now, damage, scale);
      var heal := HealAmount(cfg, finalOf(newDamage), scale);
      AttackBlocks(damager, entity, csv, scale, heal, cfg, LIFESTEAL, KNOCKBACK, BLEED, PULL, MARK, rolls, now);
    }

    /**
     * `onBossHurt`: thorns may reflect a share of the final damage onto a
     * living attacker; the lethal-safety task is always scheduled.
     */
    method OnBossHurt(cancelled: bool, entity: Entity, damager: Entity, finalDamage: real, cfg: Config,
                      roll: real, now: int)
      modifies this`lastProc, this`safetyTasks, damager`struck
      ensures !old(HurtEngaged(cancelled, entity)) ==>
                lastProc == old(lastProc) && safetyTasks == old(safetyTasks) && damager.struck == old(damager.struck)
      ensures old(HurtEngaged(cancelled, entity)) ==>
                var thorns := old(ThornsFires(lastProc, entity, damager, cfg, roll, now));
                lastProc == (if thorns then old(lastProc)[CooldownKey(entity.uuid, THORNS.id) := now] else old(lastProc))
                && damager.struck == old(damager.struck) + old(Reflected(thorns, entity, ReflectAmount(entity, finalDamage, cfg)))
                && safetyTasks == old(safetyTasks) + [entity]
    {
      var ok := HurtGuard(cancelled, entity);
      if !ok {
        return;
      }
      var reflect := ReflectAmount(entity, finalDamage, cfg);
      var _ := Retaliate(entity, damager, reflect, cfg, THORNS, roll, now);
      safetyTasks := safetyTasks + [entity];
    }

    /** The guards of `onBossHurt` in their order. */
    method HurtGuard(cancelled: bool, entity: Entity) returns (ok: bool)
      ensures ok == HurtEngaged(cancelled, entity)
    {
      if cancelled || !entity.living || !BossAppliers.IsBoss(entity.pdc) {
        return false;
      }
      var affixes := GetString(entity.pdc, BossAppliers.AFFIXES_KEY);
      ok := affixes.Some? && !IsBlank(affixes.value);
    }

    /**
     * The thorns block of `onBossHurt`, for the affix `a`: when it is armed, the
     * attacker lives and the proc fires on an alive boss, `reflect` is struck back.
     */
    method Retaliate(entity: Entity, damager: Entity, reflect: real, cfg: Config, a: Affix, roll: real, now: int)
      returns (fired: bool)
      modifies this`lastProc, damager`struck
      ensures fired == old(Fires(lastProc, entity.uuid, AffixCsv(entity.pdc), cfg, a, roll, now)
                           && damager.living && Alive(damager))
      ensures lastProc == if fired then old(lastProc)[CooldownKey(entity.uuid, a.id) := now] else old(lastProc)
      ensures damager.struck == old(damager.struck) + old(Reflected(fired, entity, reflect))
    {
      var csv := AffixCsv(entity.pdc);
      var armed := CheckArmed(csv, cfg, a.id);
      fired := false;
      if armed && damager.living && Alive(damager) {
        fired := ShouldProc(entity.uuid, a.id, ChanceOf(cfg, a), CooldownOf(cfg, a), roll, now);
        if fired && Alive(entity) {
          if reflect > 0.0 && Alive(damager) {
            damager.struck := damager.struck + [reflect];
          }
        }
      }
    }

    /** The lethal-safety task of the earliest scheduled boss: a valid, undead boss at or below 0 health takes 1000. */
    method RunSafetyTask()
      requires safetyTasks != []
      modifies this`safetyTasks, {safetyTasks[0]}`struck
      ensures safetyTasks == old(safetyTasks[1..])
      ensures var b := old(safetyTasks[0]);
              b.struck == old(b.struck) + (if old(b.valid && !b.dead && b.health <= 0.0) then [1000.0] else [])
    {
      var boss := safetyTasks[0];
      safetyTasks := safetyTasks[1..];
      if boss.valid && !boss.dead && boss.health <= 0.0 {
        boss.struck := boss.struck + [1000.0];
      }
    }

    /**
     * `onBossDamagedAny`: a shockwave that fires hits the nearest eligible
     * entities of `nearby` (those within `ShockwaveRadius` of the boss), at
     * most `max_targets` of them; each receives `amount` when it is positive.
     */
    method OnBossDamagedAny(cancelled: bool, boss: Entity, nearby: seq<Entity>, key: Entity -> real, cfg: Config,
                            roll: real, now: int) returns (hit: seq<Entity>, amount: real)
      modifies this`lastProc
      ensures !ShockwaveEngaged(cancelled, boss, cfg, SHOCKWAVE) ==> hit == [] && lastProc == old(lastProc)
      ensures ShockwaveEngaged(cancelled, boss, cfg, SHOCKWAVE) ==>
                var fires := ProcFires(old(lastProc), boss.uuid, SHOCKWAVE.id, ChanceOf(cfg, SHOCKWAVE),
                                       CooldownOf(cfg, SHOCKWAVE), roll, now);
                lastProc == (if fires then old(lastProc)[CooldownKey(boss.uuid, SHOCKWAVE.id) := now] else old(lastProc))
                && hit == (if fires then Struck(boss, nearby, key, PoolLong(cfg, SHOCKWAVE.id, "max_targets", 4)) else [])
                && amount == ShockwaveDamage(cfg, BossScale(cfg, boss.pdc))
    {
      var ok := ShockwaveGuard(cancelled, boss, cfg, SHOCKWAVE);
      if !ok {
        return [], 0.0;
      }
      amount := ShockwaveDamage(cfg, BossScale(cfg, boss.pdc));
      hit := Burst(boss, nearby, key, cfg, SHOCKWAVE, roll, now);
    }

    /** The guards of `onBossDamagedAny` in their order, for the affix `a`. */
    method ShockwaveGuard(cancelled: bool, boss: Entity, cfg: Config, a: Affix) returns (ok: bool)
      ensures ok == ShockwaveEngaged(cancelled, boss, cfg, a)
    {
      if cancelled || !boss.living || !BossAppliers.IsBoss(boss.pdc) || !Alive(boss) {
        return false;
      }
      var affixes := GetString(boss.pdc, BossAppliers.AFFIXES_KEY);
      if affixes.None? || IsBlank(affixes.value) {
        return false;
      }
      ok := CheckArmed(affixes.value, cfg, a.id);
    }

    /** The proc and the hits of a shockwave of the affix `a`. */
    method Burst(boss: Entity, nearby: seq<Entity>, key: Entity -> real, cfg: Config, a: Affix, roll: real, now: int)
      returns (hit: seq<Entity>)
      modifies this`lastProc
      ensures var fires := ProcFires(old(lastProc), boss.uuid, a.id, ChanceOf(cfg, a), CooldownOf(cfg, a), roll, now);
              lastProc == (if fires then old(lastProc)[CooldownKey(boss.uuid, a.id) := now] else old(lastProc))
              && hit == (if fires then Struck(boss, nearby, key, PoolLong(cfg, a.id, "max_targets", 4)) else [])
    {
      var maxTargets := PoolLong(cfg, a.id, "max_targets", 4);
      var fired := ShouldProc(boss.uuid, a.id, ChanceOf(cfg, a), CooldownOf(cfg, a), roll, now);
      if !fired {
        return [];
      }
      hit := ShockwaveTargets(boss, nearby, key, maxTargets);
    }

    /** The guards of `onBossTarget` in their order, the cooldown last. */
    method TargetGuard(cancelled: bool, boss: Entity, target: Entity?, cfg: Config, now: int) returns (ok: bool)
      ensures ok == TargetEngaged(lastProc, cancelled, boss, target, cfg, now)
    {
      if cancelled || !boss.living || !BossAppliers.IsBoss(boss.pdc) {
        return false;
      }
      if target == null || !Alive(target) {
        return false;
      }
      var affixes := GetString(boss.pdc, BossAppliers.AFFIXES_KEY);
      if affixes.None? || IsBlank(affixes.value) {
        return false;
      }
      var armed := CheckArmed(affixes.value, cfg, INTIMIDATE_ID);
      if !armed {
        return false;
      }
      ok := CooldownOk(boss.uuid, INTIMIDATE_ID, PoolLong(cfg, INTIMIDATE_ID, "cooldown_ms", 3000), now);
    }

    /**
     * `onBossTarget`: when the boss picks an alive target and intimidate is off
     * cooldown, the target gets the intimidate effect and the cooldown is stamped.
     */
    method OnBossTarget(cancelled: bool, boss: Entity, target: Entity?, cfg: Config, now: int)
      modifies this`lastProc, {target}`effects
      ensures !old(TargetEngaged(lastProc, cancelled, boss, target, cfg, now)) ==>
                lastProc == old(lastProc) && (target != null ==> target.effects == old(target.effects))
      ensures old(TargetEngaged(lastProc, cancelled, boss, target, cfg, now)) ==>
                target != null && lastProc == old(lastProc)[CooldownKey(boss.uuid, INTIMIDATE_ID) := now]
                && target.effects == Intimidated(old(target.effects), cfg, old(boss.pdc))
    {
      var ok := TargetGuard(cancelled, boss, target, cfg, now);
      if !ok {
        return;
      }
      target.effects := Intimidated(target.effects, cfg, boss.pdc);
      SetLastProc(boss.uuid, INTIMIDATE_ID, now);
    }
  }

  // ---------------------------------------------------------------- cooldown properties

  /** Cooldown keys of bosses whose ids hold no ':' are equal only for the same boss and affix. */
  lemma CooldownKeysDistinct(b1: string, a1: string, b2: string, a2: string)
    requires ':' !in b1 && ':' !in b2
    ensures CooldownKey(b1, a1) == CooldownKey(b2, a2) <==> b1 == b2 && a1 == a2
  {
    var k1 := CooldownKey(b1, a1);
    var k2 := CooldownKey(b2, a2);
    assert k1[..|b1|] == b1 && k1[|b1|] == ':' && k1[|b1| + 1..] == a1;
    assert k2[..|b2|] == b2 && k2[|b2|] == ':' && k2[|b2| + 1..] == a2;
    assert forall i :: 0 <= i < |b1| ==> k1[i] == b1[i];
    assert forall i :: 0 <= i < |b2| ==> k2[i] == b2[i];
  }

  /** Two affixes of the same boss have different keys. */
  lemma SameBossKeys(bossId: string, a1: string, a2: string)
    requires a1 != a2
    ensures CooldownKey(bossId, a1) != CooldownKey(bossId, a2)
  {
    assert a1 == CooldownKey(bossId, a1)[|bossId| + 1..];
    assert a2 == CooldownKey(bossId, a2)[|bossId| + 1..];
  }

  /** Whether an affix fires does not depend on an earlier block of another affix. */
  lemma FiresAfterStep(last: map<string, int>, bossId: string, csv: string, cfg: Config, a1: Affix, a2: Affix,
                       rolls: string -> real, now: int)
    requires a1.id != a2.id
    ensures Fires(Step(last, bossId, csv, cfg, a1, rolls, now), bossId, csv, cfg, a2, rolls(a2.id), now)
            == Fires(last, bossId, csv, cfg, a2, rolls(a2.id), now)
  {
    SameBossKeys(bossId, a1.id, a2.id);
    assert LastOf(Step(last, bossId, csv, cfg, a1, rolls, now), CooldownKey(bossId, a2.id))
           == LastOf(last, CooldownKey(bossId, a2.id));
  }

  /** The blocks of `order` run one after another on the cooldowns of one boss. */
  function Chain(last: map<string, int>, bossId: string, csv: string, cfg: Config, order: seq<Affix>,
                 rolls: string -> real, now: int): map<string, int>
    decreases |order|
  {
    if order == [] then last
    else Step(Chain(last, bossId, csv, cfg, order[..|order| - 1], rolls, now), bossId, csv, cfg, order[|order| - 1], rolls, now)
  }

  predicate DistinctIds(order: seq<Affix>) {
    forall i, j :: 0 <= i < j < |order| ==> order[i].id != order[j].id
  }

  /** The affixes of the attack handler, in the order of its blocks. */
  const ATTACK_AFFIXES: seq<Affix> := [LIFESTEAL, KNOCKBACK, BLEED, PULL, MARK]

  /** Whether an affix fires is the same after blocks of other affixes. */
  lemma {:induction false} ChainFires(last: map<string, int>, bossId: string, csv: string, cfg: Config, order: seq<Affix>,
                                      a: Affix, rolls: string -> real, now: int)
    requires forall i :: 0 <= i < |order| ==> order[i].id != a.id
    ensures Fires(Chain(last, bossId, csv, cfg, order, rolls, now), bossId, csv, cfg, a, rolls(a.id), now)
            == Fires(last, bossId, csv, cfg, a, rolls(a.id), now)
    decreases |order|
  {
    if order != [] {
      var front := order[..|order| - 1];
      ChainFires(last, bossId, csv, cfg, front, a, rolls, now);
      FiresAfterStep(Chain(last, bossId, csv, cfg, front, rolls, now), bossId, csv, cfg, order[|order| - 1], a, rolls, now);
    }
  }

  /**
   * After blocks of distinct affixes, a key holds `now` exactly when it is the
   * key of one of them that fires on the cooldowns before the first block;
   * every other key keeps its old value.
   */
  lemma {:induction false} ChainKey(last: map<string, int>, bossId: string, csv: string, cfg: Config, order: seq<Affix>,
                                    rolls: string -> real, now: int, key: string)
    requires DistinctIds(order)
    ensures LastOf(Chain(last, bossId, csv, cfg, order, rolls, now), key)
            == if exists i :: 0 <= i < |order| && key == CooldownKey(bossId, order[i].id)
                                && Fires(last, bossId, csv, cfg, order[i], rolls(order[i].id), now)
               then now else LastOf(last, key)
    decreases |order|
  {
    if order != [] {
      var front := order[..|order| - 1];
      var a := order[|order| - 1];
      assert forall i :: 0 <= i < |front| ==> front[i] == order[i];
      ChainKey(last, bossId, csv, cfg, front, rolls, now, key);
      ChainFires(last, bossId, csv, cfg, front, a, rolls, now);
      if exists i :: 0 <= i < |front| && key == CooldownKey(bossId, order[i].id)
                     && Fires(last, bossId, csv, cfg, order[i], rolls(order[i].id), now) {
        var i :| 0 <= i < |front| && key == CooldownKey(bossId, order[i].id)
                 && Fires(last, bossId, csv, cfg, order[i], rolls(order[i].id), now);
        SameBossKeys(bossId, order[i].id, a.id);
      }
    }
  }

  /** The attack handler's cooldowns are its five blocks run in order. */
  lemma AttackProcsChain(last: map<string, int>, bossId: string, csv: string, cfg: Config, rolls: string -> real, now: int)
    ensures AttackProcs(last, bossId, csv, cfg, rolls, now) == Chain(last, bossId, csv, cfg, ATTACK_AFFIXES, rolls, now)
  {
    ChainOfFive(last, bossId, csv, cfg, LIFESTEAL, KNOCKBACK, BLEED, PULL, MARK, rolls, now);
  }

  /** Five blocks chained are five steps. */
  lemma ChainOfFive(last: map<string, int>, bossId: string, csv: string, cfg: Config,
                    a1: Affix, a2: Affix, a3: Affix, a4: Affix, a5: Affix, rolls: string -> real, now: int)
    ensures Chain(last, bossId, csv, cfg, [a1, a2, a3, a4, a5], rolls, now)
            == Step(Step(Step(Step(Step(last, bossId, csv, cfg, a1, rolls, now), bossId, csv, cfg, a2, rolls, now),
                              bossId, csv, cfg, a3, rolls, now), bossId, csv, cfg, a4, rolls, now),
                    bossId, csv, cfg, a5, rolls, now)
  {
    var s1, s2, s3, s4, s5 := [a1], [a1, a2], [a1, a2, a3], [a1, a2, a3, a4], [a1, a2, a3, a4, a5];
    assert s5[..4] == s4 && s4[..3] == s3 && s3[..2] == s2 && s2[..1] == s1 && s1[..0] == [];
    var m1 := Step(last, bossId, csv, cfg, a1, rolls, now);
    assert Chain(last, bossId, csv, cfg, s1, rolls, now) == m1;
    var m2 := Step(m1, bossId, csv, cfg, a2, rolls, now);
    assert Chain(last, bossId, csv, cfg, s2, rolls, now) == m2;
    var m3 := Step(m2, bossId, csv, cfg, a3, rolls, now);
    assert Chain(last, bossId, csv, cfg, s3, rolls, now) == m3;
    var m4 := Step(m3, bossId, csv, cfg, a4, rolls, now);
    assert Chain(last, bossId, csv, cfg, s4, rolls, now) == m4;
  }

  /**
   * The attack handler's cooldowns: a key holds `now` exactly when it is the
   * key of one of its five affixes and that affix fires on the cooldowns as
   * they were before the attack, so no block's proc depends on another's.
   * Every other key keeps the value it had before the attack.
   */
  lemma AttackProcsRule(last: map<string, int>, bossId: string, csv: string, cfg: Config, rolls: string -> real,
                        now: int, key: string)
    ensures LastOf(AttackProcs(last, bossId, csv, cfg, rolls, now), key)
            == if exists i :: 0 <= i < |ATTACK_AFFIXES| && key == CooldownKey(bossId, ATTACK_AFFIXES[i].id)
                                && Fires(last, bossId, csv, cfg, ATTACK_AFFIXES[i], rolls(ATTACK_AFFIXES[i].id), now)
               then now else LastOf(last, key)
  {
    AttackProcsChain(last, bossId, csv, cfg, rolls, now);
    ChainKey(last, bossId, csv, cfg, ATTACK_AFFIXES, rolls, now, key);
  }

  /** A block of one boss leaves the cooldowns of every other boss alone, for boss ids without ':'. */
  lemma OtherBossUntouched(last: map<string, int>, bossId: string, csv: string, cfg: Config, a: Affix,
                           rolls: string -> real, now: int, other: string, affixId: string)
    requires ':' !in bossId && ':' !in other && other != bossId
    ensures LastOf(Step(last, bossId, csv, cfg, a, rolls, now), CooldownKey(other, affixId))
            == LastOf(last, CooldownKey(other, affixId))
  {
    CooldownKeysDistinct(bossId, a.id, other, affixId);
  }

  // ---------------------------------------------------------------- affix list properties

  /** Upper-casing a lower-cased string is upper-casing the string. */
  lemma UpperOfLower(s: string)
    ensures ToUpper(ToLower(s)) == ToUpper(s)
  {
    ToUpperAt(ToLower(s));
    ToUpperAt(s);
    ToLowerAt(s);
    assert forall i :: 0 <= i < |s| ==> ToUpper(ToLower(s))[i] == ToUpper(s)[i];
  }

  /** An id `setAffixes` keeps is its own trim. */
  lemma CleanIdTrimmed(x: string)
    requires ToLower(Trim(x)) != []
    ensures Trim(ToLower(Trim(x))) == ToLower(Trim(x))
  {
    var t := Trim(x);
    ToLowerAt(t);
    TrimKeeps(ToLower(t));
  }

  /** `hasAffix` ignores case in the id it looks for. */
  lemma ListedIgnoresCase(csv: string, id: string)
    ensures AffixListed(csv, ToLower(id)) == AffixListed(csv, id)
  {
    UpperOfLower(id);
  }

  /**
   * On a boss whose affixes `setAffixes` just stored (ids without commas),
   * `hasAffix` finds an id exactly when it equals one of the cleaned ids
   * ignoring case.
   */
  lemma StoredAffixesListed(pdc: Pdc, affixes: Option<seq<Option<string>>>, id: string)
    requires affixes.Some? && BossAppliers.Cleaned(affixes.value) != []
    requires forall i :: 0 <= i < |BossAppliers.Cleaned(affixes.value)| ==> ',' !in BossAppliers.Cleaned(affixes.value)[i]
    ensures var cleaned := BossAppliers.Cleaned(affixes.value);
            AffixListed(AffixCsv(BossAppliers.AffixesSet(pdc, affixes)), id)
            <==> exists i :: 0 <= i < |cleaned| && EqualsIgnoreCase(cleaned[i], id)
  {
    var cleaned := BossAppliers.Cleaned(affixes.value);
    BossAppliers.AffixesStored(pdc, affixes);
    BossAppliers.CleanedIds(affixes.value);
    var parts := Split(AffixCsv(BossAppliers.AffixesSet(pdc, affixes)), ',');
    assert parts == cleaned;
    forall i | 0 <= i < |cleaned| ensures Trim(cleaned[i]) == cleaned[i] {
      var a :| a in affixes.value && a.Some? && cleaned[i] == ToLower(Trim(a.value));
      CleanIdTrimmed(a.value);
    }
  }

  // ---------------------------------------------------------------- scaling properties

  /**
   * A mark applied at `now` lasts between 500 and 6000 ms; it is active at `t`
   * exactly while `t` is before its end; an attack at such a `t` multiplies
   * the damage and removes it, and after any consumption no mark is active.
   */
  lemma MarkRule(pdc: Pdc, cfg: Config, now: int, scale: real, t: int, damage: real, scale2: real)
    ensures now + 500 <= MarkUntil(cfg, now, scale) <= now + 6000
    ensures MarkActive(Marked(pdc, cfg, now, scale), t) <==> t < MarkUntil(cfg, now, scale)
    ensures t < MarkUntil(cfg, now, scale) ==>
              MarkedDamage(cfg, Marked(pdc, cfg, now, scale), t, damage, scale2) == damage * MarkMultiplier(cfg, scale2)
              && AfterMark(Marked(pdc, cfg, now, scale), t) == pdc - {MARK_UNTIL_KEY}
    ensures !MarkActive(AfterMark(pdc, t), t)
  {
    var m := Marked(pdc, cfg, now, scale);
    assert GetLong(m, MARK_UNTIL_KEY) == Some(MarkUntil(cfg, now, scale));
    assert m - {MARK_UNTIL_KEY} == pdc - {MARK_UNTIL_KEY};
  }

  /** A higher rank never lowers the amplifier; below scale 1.45 it is the configured one, between 0 and 3. */
  lemma AmplifierMonotone(amplifier: int, s1: real, s2: real)
    requires s1 <= s2
    ensures Amplifier(amplifier, s1) <= Amplifier(amplifier, s2)
    ensures s2 < 1.45 ==> Amplifier(amplifier, s2) == Min(3, Max(0, amplifier))
  {
  }

  /** Inside [1, 240] the scaled duration is the rounded product itself. */
  lemma ScaledTicksExact(duration: int, factor: real)
    requires 1 <= RoundToLong(duration as real * factor) <= 240
    ensures ScaledTicks(duration, factor) == RoundToLong(duration as real * factor)
  {
  }

  /** The lookup finds the first entry with the name. */
  lemma {:induction false} LookupAt(names: seq<(string, PotionType)>, name: string, i: nat)
    requires i < |names| && names[i].0 == name
    requires forall j :: 0 <= j < i ==> names[j].0 != name
    ensures LookupName(names, name) == Some(names[i].1)
    decreases i
  {
    if i > 0 {
      assert names[1..][i - 1] == names[i];
      LookupAt(names[1..], name, i - 1);
    }
  }

  /** `SLOWNESS` names the type SLOWNESS. */
  lemma SlownessByName()
    ensures EffectByName("SLOWNESS") == Some(SLOWNESS)
  {
    var n := "SLOWNESS";
    ToUpperKeeps(n);
    assert IsUpperForm(n);
    LookupAt(EFFECT_NAMES, n, 1);
  }

  /** A registered type the plugin does not name itself is found too: `BLINDNESS` names BLINDNESS. */
  lemma BlindnessByName()
    ensures EffectByName("BLINDNESS") == Some(BLINDNESS)
  {
    var n := "BLINDNESS";
    ToUpperKeeps(n);
    assert IsUpperForm(n);
    LookupAt(EFFECT_NAMES, n, 14);
  }

  /** Without a configured effect intimidate applies SLOWNESS. */
  lemma IntimidateDefault(cfg: Config)
    requires "affixes.pool.intimidate.effect" !in cfg.strings
    ensures IntimidateType(cfg) == SLOWNESS
  {
    SlownessByName();
  }

  /** A configured registered type is applied as it is, not replaced by SLOWNESS. */
  lemma IntimidateBlindness(cfg: Config)
    requires "affixes.pool.intimidate.effect" in cfg.strings
    requires cfg.strings["affixes.pool.intimidate.effect"] == "BLINDNESS"
    ensures IntimidateType(cfg) == BLINDNESS
  {
    BlindnessByName();
  }

  /** Neither lifesteal nor thorns moves more than 55% of a non-negative damage. */
  lemma SharesCapped(cfg: Config, scale: real, damage: real)
    requires damage >= 0.0
    ensures 0.0 <= HealAmount(cfg, damage, scale) <= 0.55 * damage
    ensures 0.0 <= damage * ReflectPercent(cfg, scale) <= 0.55 * damage
  {
    var heal := HealPercent(cfg, scale);
    var reflect := ReflectPercent(cfg, scale);
    MulBetween(damage, heal, 0.55);
    assert HealAmount(cfg, damage, scale) == damage * heal;
    MulBetween(damage, reflect, 0.55);
  }

  lemma MulBetween(d: real, p: real, hi: real)
    requires d >= 0.0 && 0.0 <= p <= hi
    ensures 0.0 <= d * p <= hi * d
  {
    assert d * (hi - p) >= 0.0;
  }
}
