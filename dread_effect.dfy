/**
 * DreadEffect: once per equip the player's world is forced into a
 * thunderstorm for twenty seconds, during which one or two visual-only
 * lightning strikes are scheduled. The world's previous weather is kept
 * and put back by the revert task or by clear, whichever runs first.
 */
module DreadEffects {
  import opened EffectHost

  const DURATION_TICKS: int := 20 * 20
  const LIGHTNING_COUNT_MIN: int := 1
  const LIGHTNING_COUNT_MAX: int := 2

  /** The weather apply forces. */
  const STORM: Weather := Weather(true, true, DURATION_TICKS)

  /** The snapshot entry for the player is taken out, and the weather it holds, if any, restored. */
  function Reverted(previous: map<nat, Weather>, uuid: nat, current: Weather): (Weather, map<nat, Weather>) {
    if uuid in previous then (previous[uuid], previous - {uuid}) else (current, previous)
  }

  /** Whether apply acts: the player is online and no snapshot is held for it. */
  predicate Triggers(previous: map<nat, Weather>, uuid: nat, online: bool) {
    online && uuid !in previous
  }

  /**
   * The delays of the scheduled strikes: `nextInt(1, 3)` of them, each
   * `nextInt(20, DURATION_TICKS - 20)`, on the random draws given.
   */
  function StrikeDelays(countDraw: nat, delayDraw: int -> nat): seq<int> {
    var n := NextInt(LIGHTNING_COUNT_MIN, LIGHTNING_COUNT_MAX + 1, countDraw);
    seq(n, i => NextInt(20, DURATION_TICKS - 20, delayDraw(i)))
  }

  /** One or two strikes, all inside the storm and none in its first or last second. */
  lemma StrikesInsideStorm(countDraw: nat, delayDraw: int -> nat)
    ensures 1 <= |StrikeDelays(countDraw, delayDraw)| <= 2
    ensures forall i :: 0 <= i < |StrikeDelays(countDraw, delayDraw)| ==>
              20 <= StrikeDelays(countDraw, delayDraw)[i] < DURATION_TICKS - 20
  {
    var n := NextInt(LIGHTNING_COUNT_MIN, LIGHTNING_COUNT_MAX + 1, countDraw);
    assert |StrikeDelays(countDraw, delayDraw)| == n;
    forall i | 0 <= i < n
      ensures 20 <= StrikeDelays(countDraw, delayDraw)[i] < DURATION_TICKS - 20
    {
      assert StrikeDelays(countDraw, delayDraw)[i] == NextInt(20, DURATION_TICKS - 20, delayDraw(i));
    }
  }

  /** Reverting twice is reverting once: the second finds no snapshot. */
  lemma RevertedOnce(previous: map<nat, Weather>, uuid: nat, current: Weather)
    ensures var (w, p) := Reverted(previous, uuid, current);
            uuid !in p && Reverted(p, uuid, w) == (w, p)
  {
  }

  /**
   * Apply then clear in the same world gives back the weather from before,
   * and the snapshot map as it was.
   */
  lemma StormThenRevert(previous: map<nat, Weather>, uuid: nat, before: Weather)
    requires uuid !in previous
    ensures Reverted(previous[uuid := before], uuid, STORM) == (before, previous)
  {
    assert previous[uuid := before] - {uuid} == previous;
  }

  class DreadEffect {
    var previousWeather: map<nat, Weather>
    /** The pending revert tasks, each with the world it captured. */
    var revertTasks: map<nat, World>

    /** A snapshot is held exactly while a revert task is pending for the same player. */
    ghost predicate Valid()
      reads this
    {
      previousWeather.Keys == revertTasks.Keys
    }

    constructor()
      ensures Valid() && previousWeather == map[] && revertTasks == map[]
    {
      previousWeather := map[];
      revertTasks := map[];
    }

    /** `apply`: returns the delays of the strikes it schedules (empty when it does nothing). */
    method Apply(p: Player?, level: int, countDraw: nat, delayDraw: int -> nat) returns (strikes: seq<int>)
      requires Valid()
      modifies this, if p == null then {} else {p.world}
      ensures Valid()
      ensures p == null ==> previousWeather == old(previousWeather) && revertTasks == old(revertTasks) && strikes == []
      ensures p != null && !Triggers(old(previousWeather), p.uuid, p.online) ==>
                previousWeather == old(previousWeather) && revertTasks == old(revertTasks)
                && p.world.weather == old(p.world.weather) && strikes == []
      ensures p != null && Triggers(old(previousWeather), p.uuid, p.online) ==>
                previousWeather == old(previousWeather)[p.uuid := old(p.world.weather)]
                && revertTasks == old(revertTasks)[p.uuid := p.world]
                && p.world.weather == STORM
                && strikes == StrikeDelays(countDraw, delayDraw)
    {
      strikes := [];
      if p == null || !p.online {
        return;
      }
      if p.uuid in previousWeather {
        return;
      }
      var world := p.world;
      previousWeather := previousWeather[p.uuid := world.weather];
      world.weather := STORM;
      var n := NextInt(LIGHTNING_COUNT_MIN, LIGHTNING_COUNT_MAX + 1, countDraw);
      var i := 0;
      while i < n
        invariant 0 <= i <= n
        invariant strikes == seq(i, k => NextInt(20, DURATION_TICKS - 20, delayDraw(k)))
      {
        strikes := strikes + [NextInt(20, DURATION_TICKS - 20, delayDraw(i))];
        i := i + 1;
      }
      revertTasks := revertTasks[p.uuid := world];
    }

    /** The revert task of the player fires, restoring the world it captured. */
    method RevertFires(uuid: nat)
      requires Valid() && uuid in revertTasks
      modifies this, revertTasks[uuid]
      ensures Valid()
      ensures (old(revertTasks[uuid]).weather, previousWeather)
              == Reverted(old(previousWeather), uuid, old(revertTasks[uuid].weather))
      ensures revertTasks == old(revertTasks) - {uuid}
    {
      var world := revertTasks[uuid];
      if uuid in previousWeather {
        world.weather := previousWeather[uuid];
        previousWeather := previousWeather - {uuid};
      }
      revertTasks := revertTasks - {uuid};
    }

    /** `clear`: restores into the world the player is in now. */
    method Clear(p: Player?)
      requires Valid()
      modifies this, if p == null then {} else {p.world}
      ensures Valid()
      ensures p == null ==> previousWeather == old(previousWeather) && revertTasks == old(revertTasks)
      ensures p != null ==>
                (p.world.weather, previousWeather) == Reverted(old(previousWeather), p.uuid, old(p.world.weather))
                && revertTasks == old(revertTasks) - {p.uuid}
    {
      if p == null {
        return;
      }
      var world := p.world;
      if p.uuid in previousWeather {
        world.weather := previousWeather[p.uuid];
        previousWeather := previousWeather - {p.uuid};
      }
      revertTasks := revertTasks - {p.uuid};
    }
  }

  /**
   * On a fresh effect, apply then clear for a player that stays in one
   * world gives the world its weather back and leaves nothing pending.
   */
  method ApplyThenClear(e: DreadEffect, p: Player, countDraw: nat, delayDraw: int -> nat)
    requires e.Valid() && p.online && p.uuid !in e.previousWeather
    modifies e, p.world
    ensures e.Valid()
    ensures p.world.weather == old(p.world.weather)
    ensures e.previousWeather == old(e.previousWeather) && e.revertTasks == old(e.revertTasks)
  {
    var strikes := e.Apply(p, 1, countDraw, delayDraw);
    assert e.previousWeather == old(e.previousWeather)[p.uuid := old(p.world.weather)];
    e.Clear(p);
    StormThenRevert(old(e.previousWeather), p.uuid, old(p.world.weather));
    assert e.revertTasks == old(e.revertTasks)[p.uuid := p.world] - {p.uuid};
    assert old(e.revertTasks)[p.uuid := p.world] - {p.uuid} == old(e.revertTasks);
  }
}
