/**
 * MisstepEffect: on equip the player is slowed and all but unable to jump
 * for ten seconds, with a stumble sound at most every 1.5 seconds per
 * player.
 */
module MisstepEffects {
  import opened Potions
  import opened EffectHost

  const DURATION_TICKS: int := 20 * 10
  const SOUND_COOLDOWN_MS: int := 1500
  const SLOW_AMPLIFIER: int := 1
  /** Jump Boost this high makes jumping all but fail. */
  const JUMP_AMPLIFIER: int := 250

  /** Slowness II and Jump Boost 251 for the duration, replacing earlier entries of the two. */
  function Stumbling(effects: ActiveEffects): ActiveEffects {
    AddEffect(AddEffect(effects, SLOWNESS, SLOW_AMPLIFIER, DURATION_TICKS), JUMP_BOOST, JUMP_AMPLIFIER, DURATION_TICKS)
  }

  /** The two effects clear removes. */
  function Steadied(effects: ActiveEffects): ActiveEffects {
    RemoveEffect(RemoveEffect(effects, SLOWNESS), JUMP_BOOST)
  }

  /**
   * Apply sets both effects; clear then removes both and gives back any
   * other effect untouched.
   */
  lemma StumbleThenSteady(effects: ActiveEffects)
    ensures Stumbling(effects)[SLOWNESS] == PotionEffect(1, 200)
    ensures Stumbling(effects)[JUMP_BOOST] == PotionEffect(250, 200)
    ensures Steadied(Stumbling(effects)) == Steadied(effects)
    ensures SLOWNESS !in effects && JUMP_BOOST !in effects ==> Steadied(Stumbling(effects)) == effects
  {
    if SLOWNESS !in effects && JUMP_BOOST !in effects {
      assert Steadied(effects) == effects;
    }
  }

  class MisstepEffect {
    var lastSoundAt: map<nat, int>

    constructor()
      ensures lastSoundAt == map[]
    {
      lastSoundAt := map[];
    }

    /** `apply` at clock time `now`: returns whether the sound plays. */
    method Apply(p: Player?, level: int, now: int) returns (played: bool)
      modifies this, {p}`effects
      ensures p == null || !p.online ==> !played && lastSoundAt == old(lastSoundAt) && (p != null ==> p.effects == old(p.effects))
      ensures p != null && p.online ==>
                p.effects == Stumbling(old(p.effects))
                && (lastSoundAt, played) == SoundStep(old(lastSoundAt), p.uuid, now, SOUND_COOLDOWN_MS)
    {
      played := false;
      if p == null || !p.online {
        return;
      }
      p.effects := AddEffect(p.effects, SLOWNESS, SLOW_AMPLIFIER, DURATION_TICKS);
      p.effects := AddEffect(p.effects, JUMP_BOOST, JUMP_AMPLIFIER, DURATION_TICKS);
      var last := LastSound(lastSoundAt, p.uuid);
      if now - last >= SOUND_COOLDOWN_MS {
        lastSoundAt := lastSoundAt[p.uuid := now];
        played := true;
      }
    }

    /** `clear`: removes both effects and forgets the player's sound time. */
    method Clear(p: Player?)
      modifies this, {p}`effects
      ensures p == null ==> lastSoundAt == old(lastSoundAt)
      ensures p != null ==> p.effects == Steadied(old(p.effects)) && lastSoundAt == old(lastSoundAt) - {p.uuid}
    {
      if p == null {
        return;
      }
      p.effects := RemoveEffect(p.effects, SLOWNESS);
      p.effects := RemoveEffect(p.effects, JUMP_BOOST);
      lastSoundAt := lastSoundAt - {p.uuid};
    }
  }
}
