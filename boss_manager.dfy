/**
 * The boss manager: the number of active bosses per world, the per-world
 * cap, and one despawn task per boss, cancelled when the boss is removed,
 * rescheduled or the plugin shuts down.
 */
module BossManagers {
  import opened Wrappers
  import opened JavaText
  import opened Configs

  /** A boss: its id and the id of its world (None for a missing world). */
  datatype Boss = Boss(id: string, world: Option<string>)

  /** The count of a world, 0 when it has none. */
  function CountOf(counts: map<string, int>, w: string): int {
    if w in counts then counts[w] else 0
  }

  /** The counts after a boss appears in world `w` (`merge(w, 1, Integer::sum)`). */
  function Created(counts: map<string, int>, w: string): (r: map<string, int>)
    ensures CountOf(r, w) == CountOf(counts, w) + 1
    ensures forall x :: x != w ==> CountOf(r, x) == CountOf(counts, x)
  {
    counts[w := CountOf(counts, w) + 1]
  }

  /** The counts after a boss leaves world `w`: one fewer, never below 0. */
  function Removed(counts: map<string, int>, w: string): (r: map<string, int>)
    ensures CountOf(r, w) == Max(0, CountOf(counts, w) - 1)
    ensures forall x :: x != w ==> CountOf(r, x) == CountOf(counts, x)
  {
    counts[w := Max(0, CountOf(counts, w) - 1)]
  }

  /** No count is negative. */
  predicate NonNegative(counts: map<string, int>) {
    forall w :: w in counts ==> counts[w] >= 0
  }

  /** `getMaxBossesPerWorld`: `boss.cap.max_per_world`, 0 meaning unlimited. */
  function MaxBossesPerWorld(cfg: Config): int {
    CfgLong(cfg, "boss.cap.max_per_world", 0)
  }

  class BossManager {
    /** `activeBossesByWorld`. */
    var activeBossesByWorld: map<string, int>
    /** `despawnTasks`: the id of each boss's pending despawn task. */
    var despawnTasks: map<string, nat>
    /** The tasks cancelled so far. */
    var cancelled: set<nat>
    /** Whether a spawn listener is attached, and the bosses forwarded to it. */
    const hasListener: bool
    var forwarded: seq<string>

    predicate Valid()
      reads this
    {
      NonNegative(activeBossesByWorld)
    }

    constructor(hasListener: bool)
      ensures Valid() && this.hasListener == hasListener
      ensures activeBossesByWorld == map[] && despawnTasks == map[] && cancelled == {} && forwarded == []
    {
      this.hasListener := hasListener;
      activeBossesByWorld := map[];
      despawnTasks := map[];
      cancelled := {};
      forwarded := [];
    }

    /** `getActiveBossCount`: 0 for a null or unseen world. */
    function GetActiveBossCount(world: Option<string>): (r: int)
      reads this
      requires Valid()
      ensures r >= 0
      ensures world.None? || world.value !in activeBossesByWorld ==> r == 0
      ensures world.Some? && world.value in activeBossesByWorld ==> r == activeBossesByWorld[world.value]
    {
      if world.None? then 0 else CountOf(activeBossesByWorld, world.value)
    }

    /** `canCreateBossIn`: false for a null world, true when uncapped, else below the cap. */
    function CanCreateBossIn(cfg: Config, world: Option<string>): (r: bool)
      reads this
      requires Valid()
      ensures world.None? ==> !r
      ensures world.Some? && MaxBossesPerWorld(cfg) <= 0 ==> r
      ensures world.Some? && MaxBossesPerWorld(cfg) > 0 ==> (r <==> GetActiveBossCount(world) < MaxBossesPerWorld(cfg))
    {
      if world.None? then false
      else
        var cap := MaxBossesPerWorld(cfg);
        if cap <= 0 then true else GetActiveBossCount(world) < cap
    }

    /** `onBossCreated`: one more boss in its world, forwarded to the spawn listener. */
    method OnBossCreated(boss: Option<Boss>)
      requires Valid()
      modifies this
      ensures Valid()
      ensures boss.None? || boss.value.world.None? ==>
                activeBossesByWorld == old(activeBossesByWorld) && forwarded == old(forwarded)
      ensures boss.Some? && boss.value.world.Some? ==>
                activeBossesByWorld == Created(old(activeBossesByWorld), boss.value.world.value)
                && forwarded == old(forwarded) + (if hasListener then [boss.value.id] else [])
      ensures despawnTasks == old(despawnTasks) && cancelled == old(cancelled)
    {
      if boss.None? || boss.value.world.None? {
        return;
      }
      var w := boss.value.world.value;
      activeBossesByWorld := Created(activeBossesByWorld, w);
      if hasListener {
        forwarded := forwarded + [boss.value.id];
      }
    }

    /** `cancelBossDespawn`: the boss's task, if any, is removed and cancelled. */
    method CancelBossDespawn(bossId: string)
      modifies this`despawnTasks, this`cancelled
      ensures despawnTasks == old(despawnTasks) - {bossId}
      ensures cancelled == old(cancelled) + (if bossId in old(despawnTasks) then {old(despawnTasks)[bossId]} else {})
    {
      if bossId in despawnTasks {
        var task := despawnTasks[bossId];
        despawnTasks := despawnTasks - {bossId};
        cancelled := cancelled + {task};
      }
    }

    /** `onBossRemoved`: one fewer boss in its world, never below 0, and its despawn cancelled. */
    method OnBossRemoved(boss: Option<Boss>)
      requires Valid()
      modifies this
      ensures Valid()
      ensures boss.None? || boss.value.world.None? ==>
                activeBossesByWorld == old(activeBossesByWorld) && despawnTasks == old(despawnTasks)
                && cancelled == old(cancelled)
      ensures boss.Some? && boss.value.world.Some? ==>
                activeBossesByWorld == Removed(old(activeBossesByWorld), boss.value.world.value)
                && despawnTasks == old(despawnTasks) - {boss.value.id}
                && cancelled == old(cancelled) + (if boss.value.id in old(despawnTasks) then {old(despawnTasks)[boss.value.id]} else {})
      ensures forwarded == old(forwarded)
    {
      if boss.None? || boss.value.world.None? {
        return;
      }
      var w := boss.value.world.value;
      activeBossesByWorld := Removed(activeBossesByWorld, w);
      CancelBossDespawn(boss.value.id);
    }

    /** `scheduleBossDespawn`: any earlier task of the boss is cancelled and replaced. */
    method ScheduleBossDespawn(bossId: string, task: nat)
      modifies this`despawnTasks, this`cancelled
      ensures despawnTasks == old(despawnTasks)[bossId := task]
      ensures cancelled == old(cancelled) + (if bossId in old(despawnTasks) then {old(despawnTasks)[bossId]} else {})
    {
      CancelBossDespawn(bossId);
      despawnTasks := despawnTasks[bossId := task];
    }

    /** `shutdown`: every pending task is cancelled and both maps are emptied. */
    method Shutdown()
      modifies this
      ensures despawnTasks == map[] && activeBossesByWorld == map[] && Valid()
      ensures cancelled == old(cancelled) + old(despawnTasks).Values
      ensures forwarded == old(forwarded)
    {
      while despawnTasks != map[]
        invariant cancelled + despawnTasks.Values == old(cancelled) + old(despawnTasks).Values
        invariant forwarded == old(forwarded)
        decreases |despawnTasks.Keys|
      {
        var id :| id in despawnTasks;
        ghost var before := despawnTasks;
        CancelBossDespawn(id);
        assert despawnTasks.Values <= before.Values;
        assert before.Values <= despawnTasks.Values + {before[id]} by {
          forall t | t in before.Values ensures t in despawnTasks.Values + {before[id]} {
            var k :| k in before && before[k] == t;
            if k != id {
              assert despawnTasks[k] == t;
            }
          }
        }
        assert despawnTasks.Keys < before.Keys;
      }
      activeBossesByWorld := map[];
    }
  }

  // ---------------------------------------------------------------- properties

  /** Counts stay non-negative through creations and removals. */
  lemma CountsStayNonNegative(counts: map<string, int>, w: string)
    requires NonNegative(counts)
    ensures NonNegative(Created(counts, w)) && NonNegative(Removed(counts, w))
  {
  }

  /** A removal undoes a creation; a removal from an empty world leaves it at 0. */
  lemma CreateThenRemove(counts: map<string, int>, w: string)
    requires NonNegative(counts)
    ensures Removed(Created(counts, w), w) == counts[w := CountOf(counts, w)]
    ensures w in counts ==> Removed(Created(counts, w), w) == counts
    ensures CountOf(counts, w) == 0 ==> CountOf(Removed(counts, w), w) == 0
  {
  }

  /** With a cap, creating bosses while the check allows it never exceeds the cap. */
  lemma CapRespected(counts: map<string, int>, cap: int, w: string)
    requires cap > 0 && CountOf(counts, w) < cap
    ensures CountOf(Created(counts, w), w) <= cap
  {
  }
}
