/**
 * TerrorEffect: the curse keeps a short Darkness on the player, topping it
 * up when it is missing or nearly over, and now and then plays a warden
 * roar. The roar cooldown is one timestamp shared by every player.
 */
module TerrorEffects {
  import opened Potions
  import opened EffectHost

  const DARKNESS_DURATION: int := 60
  const ROAR_COOLDOWN_MS: int := 8000

  /** The Darkness entry after apply: replaced when absent or under one second left. */
  function Darkened(effects: ActiveEffects): ActiveEffects {
    if DARKNESS !in effects || effects[DARKNESS].duration < 20
    then AddEffect(effects, DARKNESS, 0, DARKNESS_DURATION)
    else effects
  }

  /** After apply the player has Darkness with at least one second left, and nothing else changed. */
  lemma DarknessKept(effects: ActiveEffects)
    ensures DARKNESS in Darkened(effects) && Darkened(effects)[DARKNESS].duration >= 20
    ensures DARKNESS in effects && effects[DARKNESS].duration >= 20 ==> Darkened(effects) == effects
    ensures forall t :: t != DARKNESS ==> (t in Darkened(effects) <==> t in effects)
    ensures forall t :: t != DARKNESS && t in effects ==> Darkened(effects)[t] == effects[t]
  {
  }

  /** The roar stamp after an attempt at `now`, and whether the roar plays. */
  function Roar(lastRoarMs: int, now: int): (int, bool) {
    if now - lastRoarMs >= ROAR_COOLDOWN_MS then (now, true) else (lastRoarMs, false)
  }

  /**
   * After a roar at `t`, no attempt by any player before `t + 8000` roars,
   * and such a refused attempt keeps the stamp.
   */
  lemma RoarSpaced(last: int, t: int, now: int)
    requires Roar(last, t).1 && t <= now < t + ROAR_COOLDOWN_MS
    ensures Roar(Roar(last, t).0, now) == (t, false)
  {
  }

  class TerrorEffect {
    /** When the last roar played, in milliseconds; 0 before the first. */
    var lastRoarMs: int

    constructor()
      ensures lastRoarMs == 0
    {
      lastRoarMs := 0;
    }

    /** `apply` at clock time `now`: returns whether the roar plays. */
    method Apply(p: Player?, level: int, now: int) returns (roar: bool)
      modifies this, {p}`effects
      ensures p == null || !p.online ==> !roar && lastRoarMs == old(lastRoarMs) && (p != null ==> p.effects == old(p.effects))
      ensures p != null && p.online ==>
                p.effects == Darkened(old(p.effects))
                && (lastRoarMs, roar) == Roar(old(lastRoarMs), now)
    {
      roar := false;
      if p == null || !p.online {
        return;
      }
      if DARKNESS !in p.effects || p.effects[DARKNESS].duration < 20 {
        p.effects := AddEffect(p.effects, DARKNESS, 0, DARKNESS_DURATION);
      }
      if now - lastRoarMs >= ROAR_COOLDOWN_MS {
        lastRoarMs := now;
        roar := true;
      }
    }

    /** `clear`: removes Darkness, whoever applied it. */
    method Clear(p: Player?)
      modifies {p}`effects
      ensures p != null ==> p.effects == RemoveEffect(old(p.effects), DARKNESS)
    {
      if p == null {
        return;
      }
      p.effects := RemoveEffect(p.effects, DARKNESS);
    }
  }
}
