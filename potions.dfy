/**
 * Potion effect types and the effects a living entity carries. An entity's
 * active effects are a map from type to (amplifier, remaining duration);
 * the model's `addPotionEffect` replaces the entry of its type (see EffectHost).
 */
module Potions {
  /**
   * The potion effect types of the server's effect registry, in registry
   * order. The plugin names a dozen of them; intimidate may be configured
   * with any of them.
   */
  datatype PotionType =
    | SPEED | SLOWNESS | HASTE | MINING_FATIGUE | STRENGTH | INSTANT_HEALTH | INSTANT_DAMAGE
    | JUMP_BOOST | NAUSEA | REGENERATION | RESISTANCE | FIRE_RESISTANCE | WATER_BREATHING
    | INVISIBILITY | BLINDNESS | NIGHT_VISION | HUNGER | WEAKNESS | POISON | WITHER | HEALTH_BOOST
    | ABSORPTION | SATURATION | GLOWING | LEVITATION | LUCK | UNLUCK | SLOW_FALLING | CONDUIT_POWER
    | DOLPHINS_GRACE | BAD_OMEN | HERO_OF_THE_VILLAGE | DARKNESS | TRIAL_OMEN | RAID_OMEN
    | WIND_CHARGED | WEAVING | OOZING | INFESTED

  datatype PotionEffect = PotionEffect(amplifier: int, duration: int)

  type ActiveEffects = map<PotionType, PotionEffect>

  /** `type.getKey().toString()`: the namespaced key of a type. */
  function KeyName(t: PotionType): string {
    match t
    case SPEED => "minecraft:speed"
    case SLOWNESS => "minecraft:slowness"
    case HASTE => "minecraft:haste"
    case MINING_FATIGUE => "minecraft:mining_fatigue"
    case STRENGTH => "minecraft:strength"
    case INSTANT_HEALTH => "minecraft:instant_health"
    case INSTANT_DAMAGE => "minecraft:instant_damage"
    case JUMP_BOOST => "minecraft:jump_boost"
    case NAUSEA => "minecraft:nausea"
    case REGENERATION => "minecraft:regeneration"
    case RESISTANCE => "minecraft:resistance"
    case FIRE_RESISTANCE => "minecraft:fire_resistance"
    case WATER_BREATHING => "minecraft:water_breathing"
    case INVISIBILITY => "minecraft:invisibility"
    case BLINDNESS => "minecraft:blindness"
    case NIGHT_VISION => "minecraft:night_vision"
    case HUNGER => "minecraft:hunger"
    case WEAKNESS => "minecraft:weakness"
    case POISON => "minecraft:poison"
    case WITHER => "minecraft:wither"
    case HEALTH_BOOST => "minecraft:health_boost"
    case ABSORPTION => "minecraft:absorption"
    case SATURATION => "minecraft:saturation"
    case GLOWING => "minecraft:glowing"
    case LEVITATION => "minecraft:levitation"
    case LUCK => "minecraft:luck"
    case UNLUCK => "minecraft:unluck"
    case SLOW_FALLING => "minecraft:slow_falling"
    case CONDUIT_POWER => "minecraft:conduit_power"
    case DOLPHINS_GRACE => "minecraft:dolphins_grace"
    case BAD_OMEN => "minecraft:bad_omen"
    case HERO_OF_THE_VILLAGE => "minecraft:hero_of_the_village"
    case DARKNESS => "minecraft:darkness"
    case TRIAL_OMEN => "minecraft:trial_omen"
    case RAID_OMEN => "minecraft:raid_omen"
    case WIND_CHARGED => "minecraft:wind_charged"
    case WEAVING => "minecraft:weaving"
    case OOZING => "minecraft:oozing"
    case INFESTED => "minecraft:infested"
  }
}
