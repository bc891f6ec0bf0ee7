/**
 * The parts of the server the custom raffle effects touch: a player (its
 * online flag, potion effects, swimming pose and scale attribute), the
 * world's weather, and the per-player sound cooldown that several effects
 * share. Tasks the effects schedule are kept as the set of players that
 * have one pending; a task firing is a method call of its own.
 */
module EffectHost {
  import opened Wrappers
  import opened Potions

  class Player {
    const uuid: nat
    var online: bool
    var effects: ActiveEffects
    var swimming: bool
    /** The base value of the GENERIC_SCALE attribute, None when the attribute is absent. */
    var scale: Option<real>
    /** The world the player is in. */
    var world: World
    var health: real
    /** The value of the MAX_HEALTH attribute, None when the attribute is absent. */
    var maxHealth: Option<real>

    constructor(uuid: nat, online: bool, world: World)
      ensures this.uuid == uuid && this.online == online && this.world == world
      ensures effects == map[] && !swimming && scale == Some(1.0)
      ensures health == 20.0 && maxHealth == Some(20.0)
    {
      this.uuid := uuid;
      this.online := online;
      this.world := world;
      effects := map[];
      swimming := false;
      scale := Some(1.0);
      health := 20.0;
      maxHealth := Some(20.0);
    }
  }

  /** `hasStorm`, `isThundering`, `getWeatherDuration`. */
  datatype Weather = Weather(storm: bool, thundering: bool, duration: int)

  class World {
    var weather: Weather

    constructor(weather: Weather)
      ensures this.weather == weather
    {
      this.weather := weather;
    }
  }

  /** `getOrDefault(uuid, 0)`: the last time the sound played for the player, 0 if never. */
  function LastSound(last: map<nat, int>, uuid: nat): int {
    if uuid in last then last[uuid] else 0
  }

  /** Whether a sound with this cooldown may play now; it is recorded only when it does. */
  predicate SoundDue(last: map<nat, int>, uuid: nat, now: int, cooldownMs: int) {
    now - LastSound(last, uuid) >= cooldownMs
  }

  /** The cooldown map after one attempt, and whether the sound played. */
  function SoundStep(last: map<nat, int>, uuid: nat, now: int, cooldownMs: int): (map<nat, int>, bool) {
    if SoundDue(last, uuid, now, cooldownMs) then (last[uuid := now], true) else (last, false)
  }

  /**
   * A sound that played at `t` does not play again before `t + cooldown`;
   * a refused attempt leaves the map as it was; other players' entries
   * never change.
   */
  lemma SoundCooldown(last: map<nat, int>, uuid: nat, t: int, now: int, cooldownMs: int, other: nat)
    requires SoundStep(last, uuid, t, cooldownMs).1
    requires t <= now < t + cooldownMs
    ensures !SoundStep(SoundStep(last, uuid, t, cooldownMs).0, uuid, now, cooldownMs).1
    ensures SoundStep(SoundStep(last, uuid, t, cooldownMs).0, uuid, now, cooldownMs).0 == SoundStep(last, uuid, t, cooldownMs).0
    ensures other != uuid ==> LastSound(SoundStep(last, uuid, t, cooldownMs).0, other) == LastSound(last, other)
  {
  }

  /** A player never heard before hears the sound at any time not before the cooldown. */
  lemma FirstSoundPlays(last: map<nat, int>, uuid: nat, now: int, cooldownMs: int)
    requires uuid !in last && now >= cooldownMs
    ensures SoundStep(last, uuid, now, cooldownMs) == (last[uuid := now], true)
  {
  }

  /**
   * `addPotionEffect`, taken as replacing the entry of its type. The server
   * merges instead: it keeps a current effect with a higher amplifier, or
   * with the same amplifier and more time left; the model does not.
   */
  function AddEffect(effects: ActiveEffects, t: PotionType, amplifier: int, duration: int): ActiveEffects {
    effects[t := PotionEffect(amplifier, duration)]
  }

  /** `removePotionEffect`. */
  function RemoveEffect(effects: ActiveEffects, t: PotionType): ActiveEffects {
    effects - {t}
  }

  /** `nextInt(lo, hi)` of a random generator, on a draw: a value in [lo, hi). */
  function NextInt(lo: int, hi: int, draw: nat): (r: int)
    requires lo < hi
    ensures lo <= r < hi
  {
    lo + draw % (hi - lo)
  }
}
