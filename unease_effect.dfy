/**
 * UneaseEffect: on equip the player gets twenty seconds of Nausea, with an
 * enderman sound at most every four seconds per player.
 */
module UneaseEffects {
  import opened Potions
  import opened EffectHost

  const DURATION_TICKS: int := 20 * 20
  const SOUND_COOLDOWN_MS: int := 4000

  /** Nausea I for the duration, replacing an earlier entry. */
  function Uneasy(effects: ActiveEffects): ActiveEffects {
    AddEffect(effects, NAUSEA, 0, DURATION_TICKS)
  }

  /** Apply then clear removes exactly the Nausea entry; other effects are untouched. */
  lemma UneasyThenClear(effects: ActiveEffects)
    ensures Uneasy(effects)[NAUSEA] == PotionEffect(0, 400)
    ensures RemoveEffect(Uneasy(effects), NAUSEA) == RemoveEffect(effects, NAUSEA)
    ensures NAUSEA !in effects ==> RemoveEffect(Uneasy(effects), NAUSEA) == effects
  {
    if NAUSEA !in effects {
      assert RemoveEffect(effects, NAUSEA) == effects;
    }
  }

  class UneaseEffect {
    var lastSound: map<nat, int>

    constructor()
      ensures lastSound == map[]
    {
      lastSound := map[];
    }

    /** `apply` at clock time `now`: returns whether the sound plays. */
    method Apply(p: Player?, level: int, now: int) returns (played: bool)
      modifies this, {p}`effects
      ensures p == null || !p.online ==> !played && lastSound == old(lastSound) && (p != null ==> p.effects == old(p.effects))
      ensures p != null && p.online ==>
                p.effects == Uneasy(old(p.effects))
                && (lastSound, played) == SoundStep(old(lastSound), p.uuid, now, SOUND_COOLDOWN_MS)
    {
      played := false;
      if p == null || !p.online {
        return;
      }
      p.effects := AddEffect(p.effects, NAUSEA, 0, DURATION_TICKS);
      var last := LastSound(lastSound, p.uuid);
      if now - last >= SOUND_COOLDOWN_MS {
        lastSound := lastSound[p.uuid := now];
        played := true;
      }
    }

    /** `clear`: removes Nausea and forgets the player's sound time. */
    method Clear(p: Player?)
      modifies this, {p}`effects
      ensures p == null ==> lastSound == old(lastSound)
      ensures p != null ==> p.effects == RemoveEffect(old(p.effects), NAUSEA) && lastSound == old(lastSound) - {p.uuid}
    {
      if p == null {
        return;
      }
      p.effects := RemoveEffect(p.effects, NAUSEA);
      lastSound := lastSound - {p.uuid};
    }
  }
}
