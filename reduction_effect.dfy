/**
 * ReductionEffect: on equip the player is shrunk through the scale
 * attribute, and on unequip the scale captured at the first apply is put
 * back. Without the attribute the curse does nothing.
 */
module ReductionEffects {
  import opened Wrappers
  import opened EffectHost

  const REDUCED_SCALE: real := 0.6

  /** `apply`: the original is captured only when none is held, then the scale is set to the reduced value. */
  function Shrink(original: map<nat, real>, uuid: nat, online: bool, scale: Option<real>): (map<nat, real>, Option<real>) {
    if !online || scale.None? then (original, scale)
    else ((if uuid in original then original else original[uuid := scale.value]), Some(REDUCED_SCALE))
  }

  /** `clear`: the captured original is removed and, when there was one, restored. */
  function Restore(original: map<nat, real>, uuid: nat, scale: Option<real>): (map<nat, real>, Option<real>) {
    if scale.None? || uuid !in original then (original, scale)
    else (original - {uuid}, Some(original[uuid]))
  }

  /** After an apply to an online player with the attribute, the scale is the reduced one and an original is held. */
  lemma ShrinkSets(original: map<nat, real>, uuid: nat, scale: Option<real>)
    requires scale.Some?
    ensures Shrink(original, uuid, true, scale).1 == Some(REDUCED_SCALE)
    ensures uuid in Shrink(original, uuid, true, scale).0
    ensures uuid in original ==> Shrink(original, uuid, true, scale).0 == original
  {
  }

  /** Apply followed by clear gives back the scale the player had before the first apply. */
  lemma ShrinkThenRestore(original: map<nat, real>, uuid: nat, online: bool, scale: Option<real>)
    requires uuid !in original
    ensures var (o1, s1) := Shrink(original, uuid, online, scale);
            Restore(o1, uuid, s1) == (original, scale)
  {
    if online && scale.Some? {
      assert original[uuid := scale.value] - {uuid} == original;
    }
  }

  /** Applying again before the clear does not overwrite the captured original. */
  lemma ShrinkTwiceThenRestore(original: map<nat, real>, uuid: nat, scale: Option<real>)
    requires uuid !in original
    ensures var (o1, s1) := Shrink(original, uuid, true, scale);
            var (o2, s2) := Shrink(o1, uuid, true, s1);
            o2 == o1 && Restore(o2, uuid, s2) == (original, scale)
  {
    if scale.Some? {
      assert original[uuid := scale.value] - {uuid} == original;
    }
  }

  /** Clear with nothing captured leaves the scale as it is. */
  lemma RestoreWithoutCapture(original: map<nat, real>, uuid: nat, scale: Option<real>)
    requires uuid !in original
    ensures Restore(original, uuid, scale) == (original, scale)
  {
  }

  class ReductionEffect {
    var originalScale: map<nat, real>

    constructor()
      ensures originalScale == map[]
    {
      originalScale := map[];
    }

    method Apply(p: Player?, level: int)
      modifies this, {p}`scale
      ensures p == null ==> originalScale == old(originalScale)
      ensures p != null ==> (originalScale, p.scale) == Shrink(old(originalScale), p.uuid, p.online, old(p.scale))
    {
      if p == null || !p.online {
        return;
      }
      if p.scale.None? {
        return;
      }
      if p.uuid !in originalScale {
        originalScale := originalScale[p.uuid := p.scale.value];
      }
      p.scale := Some(REDUCED_SCALE);
    }

    method Clear(p: Player?)
      modifies this, {p}`scale
      ensures p == null ==> originalScale == old(originalScale)
      ensures p != null ==> (originalScale, p.scale) == Restore(old(originalScale), p.uuid, old(p.scale))
    {
      if p == null || p.scale.None? {
        return;
      }
      if p.uuid in originalScale {
        var original := originalScale[p.uuid];
        originalScale := originalScale - {p.uuid};
        p.scale := Some(original);
      }
    }
  }
}
