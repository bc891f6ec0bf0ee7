/**
 * MatadorEffect: once per equip a "bull" (a zoglin) is spawned next to the
 * player, aimed at it, sped up and armed with a knockback stick; the bull
 * is removed by a despawn task after twelve seconds or by clear.
 */
module MatadorEffects {
  import opened Potions
  import opened ChatColors
  import opened EffectHost

  const DESPAWN_TICKS: int := 20 * 12
  const KNOCKBACK_LEVEL: int := 3

  /** The stick the bull holds: its display name and its knockback level. */
  datatype Baton = Baton(name: string, knockback: int)

  /** The equipment drop chances: main hand, helmet, chestplate, leggings, boots. */
  datatype DropChances = DropChances(mainHand: real, helmet: real, chestplate: real, leggings: real, boots: real)

  /** A spawned bull as the effect sets it up. */
  datatype Bull = Bull(
    target: nat, adult: bool, removeWhenFarAway: bool, canPickupItems: bool,
    speed: PotionEffect, baton: Baton, drops: DropChances)

  /** The bull spawned for the player with this id. */
  function NewBull(target: nat): Bull {
    Bull(target, true, true, false,
         PotionEffect(0, DESPAWN_TICKS),
         Baton(RED + "Matador's Baton", KNOCKBACK_LEVEL),
         DropChances(0.0, 0.0, 0.0, 0.0, 0.0))
  }

  /** NoDrops: the bull can drop none of its equipment. */
  predicate NoDrops(d: DropChances) {
    d.mainHand == 0.0 && d.helmet == 0.0 && d.chestplate == 0.0 && d.leggings == 0.0 && d.boots == 0.0
  }

  /**
   * The bull targets its player, has Speed I for exactly as long as it
   * lives, holds a Knockback III stick and drops nothing.
   */
  lemma BullSetup(target: nat)
    ensures NewBull(target).target == target
    ensures NewBull(target).speed.amplifier == 0 && NewBull(target).speed.duration == DESPAWN_TICKS
    ensures NewBull(target).baton.knockback == 3
    ensures NoDrops(NewBull(target).drops) && !NewBull(target).canPickupItems
  {
  }

  /** The world's living entities that the effect spawns, by entity id. */
  class Mobs {
    var alive: map<nat, Bull>
    /** The id the next spawn gets. */
    var nextId: nat

    ghost predicate Valid()
      reads this
    {
      forall id :: id in alive ==> id < nextId
    }

    constructor()
      ensures Valid() && alive == map[]
    {
      alive := map[];
      nextId := 0;
    }
  }

  /** Removes the player's bull, if it has one, from both the map and the world. */
  function Despawned(spawned: map<nat, nat>, alive: map<nat, Bull>, uuid: nat): (map<nat, nat>, map<nat, Bull>) {
    if uuid in spawned then (spawned - {uuid}, alive - {spawned[uuid]}) else (spawned, alive)
  }

  /** No two players share a bull. */
  ghost predicate Injective(spawned: map<nat, nat>) {
    forall u, v :: u in spawned && v in spawned && u != v ==> spawned[u] != spawned[v]
  }

  /**
   * Removing one player's bull leaves every other player's bull alive and
   * mapped, and the player then has none.
   */
  lemma DespawnOnlyOwn(spawned: map<nat, nat>, alive: map<nat, Bull>, uuid: nat, other: nat)
    requires Injective(spawned) && other != uuid && other in spawned && spawned[other] in alive
    ensures var (s, a) := Despawned(spawned, alive, uuid);
            uuid !in s && other in s && s[other] == spawned[other] && s[other] in a
              && a[s[other]] == alive[spawned[other]]
  {
  }

  class MatadorEffect {
    /** The bull of each player, by entity id. */
    var spawned: map<nat, nat>
    var despawnTasks: set<nat>

    /** Each player has a pending despawn exactly while it has a bull, and the bulls are distinct, spawned entities. */
    ghost predicate Valid(mobs: Mobs)
      reads this, mobs
    {
      spawned.Keys == despawnTasks && Injective(spawned)
      && (forall u :: u in spawned ==> spawned[u] < mobs.nextId)
      && mobs.Valid()
    }

    constructor()
      ensures spawned == map[] && despawnTasks == {}
    {
      spawned := map[];
      despawnTasks := {};
    }

    /** `apply`: spawns a bull unless the player is offline or already has one. */
    method Apply(p: Player?, level: int, mobs: Mobs)
      requires Valid(mobs)
      modifies this, mobs
      ensures Valid(mobs)
      ensures p == null || !p.online || p.uuid in old(spawned) ==>
                spawned == old(spawned) && despawnTasks == old(despawnTasks)
                && mobs.alive == old(mobs.alive) && mobs.nextId == old(mobs.nextId)
      ensures p != null && p.online && p.uuid !in old(spawned) ==>
                spawned == old(spawned)[p.uuid := old(mobs.nextId)]
                && despawnTasks == old(despawnTasks) + {p.uuid}
                && mobs.alive == old(mobs.alive)[old(mobs.nextId) := NewBull(p.uuid)]
                && mobs.nextId == old(mobs.nextId) + 1
    {
      if p == null || !p.online {
        return;
      }
      if p.uuid in spawned {
        return;
      }
      var id := mobs.nextId;
      mobs.alive := mobs.alive[id := NewBull(p.uuid)];
      mobs.nextId := id + 1;
      spawned := spawned[p.uuid := id];
      despawnTasks := despawnTasks + {p.uuid};
    }

    /** The despawn task of the player fires. */
    method DespawnFires(uuid: nat, mobs: Mobs)
      requires Valid(mobs)
      modifies this, mobs
      ensures Valid(mobs)
      ensures (spawned, mobs.alive) == Despawned(old(spawned), old(mobs.alive), uuid)
      ensures despawnTasks == old(despawnTasks) - {uuid} && mobs.nextId == old(mobs.nextId)
    {
      Remove(uuid, mobs);
    }

    /** `clear`. */
    method Clear(p: Player?, mobs: Mobs)
      requires Valid(mobs)
      modifies this, mobs
      ensures Valid(mobs)
      ensures p == null ==> spawned == old(spawned) && despawnTasks == old(despawnTasks) && mobs.alive == old(mobs.alive)
      ensures p != null ==> (spawned, mobs.alive) == Despawned(old(spawned), old(mobs.alive), p.uuid)
                              && despawnTasks == old(despawnTasks) - {p.uuid}
      ensures mobs.nextId == old(mobs.nextId)
    {
      if p == null {
        return;
      }
      Remove(p.uuid, mobs);
    }

    /** The body shared by the despawn task and `clear`. */
    method Remove(uuid: nat, mobs: Mobs)
      requires Valid(mobs)
      modifies this, mobs
      ensures Valid(mobs)
      ensures (spawned, mobs.alive) == Despawned(old(spawned), old(mobs.alive), uuid)
      ensures despawnTasks == old(despawnTasks) - {uuid} && mobs.nextId == old(mobs.nextId)
    {
      despawnTasks := despawnTasks - {uuid};
      if uuid in spawned {
        var e := spawned[uuid];
        spawned := spawned - {uuid};
        if e in mobs.alive {
          mobs.alive := mobs.alive - {e};
        } else {
          assert mobs.alive - {e} == mobs.alive;
        }
      }
    }
  }
}
