/**
 * OnAllFoursEffect: once per equip the player is forced into the swimming
 * pose, and a task puts it back upright six seconds later; clear cancels
 * the task and puts the player upright at once.
 */
module OnAllFoursEffects {
  import opened EffectHost

  const DURATION_TICKS: int := 20 * 6

  class OnAllFoursEffect {
    /** The players with a pending revert task. */
    var revertTasks: set<nat>

    constructor()
      ensures revertTasks == {}
    {
      revertTasks := {};
    }

    /** `apply`: acts only for an online player with no revert pending. */
    method Apply(p: Player?, level: int)
      modifies this, {p}`swimming
      ensures p == null || !p.online || p.uuid in old(revertTasks) ==>
                revertTasks == old(revertTasks) && (p != null ==> p.swimming == old(p.swimming))
      ensures p != null && p.online && p.uuid !in old(revertTasks) ==>
                revertTasks == old(revertTasks) + {p.uuid} && p.swimming
    {
      if p == null || !p.online {
        return;
      }
      if p.uuid in revertTasks {
        return;
      }
      p.swimming := true;
      revertTasks := revertTasks + {p.uuid};
    }

    /**
     * The revert task of player `uuid` fires; `found` is the player now
     * known under that id, or null. Only an online player is put upright.
     */
    method RevertFires(uuid: nat, found: Player?)
      requires found != null ==> found.uuid == uuid
      modifies this, {found}`swimming
      ensures revertTasks == old(revertTasks) - {uuid}
      ensures found != null ==> found.swimming == (old(found.swimming) && !found.online)
    {
      if found != null && found.online {
        found.swimming := false;
      }
      revertTasks := revertTasks - {uuid};
    }

    /** `clear`: the player is put upright whether or not a revert was pending. */
    method Clear(p: Player?)
      modifies this, {p}`swimming
      ensures p == null ==> revertTasks == old(revertTasks)
      ensures p != null ==> revertTasks == old(revertTasks) - {p.uuid} && !p.swimming
    {
      if p == null {
        return;
      }
      revertTasks := revertTasks - {p.uuid};
      p.swimming := false;
    }
  }

  /**
   * One pose change per equip: a second apply before the revert or clear
   * leaves the effect's state alone, and clear always ends the pose.
   */
  method ApplyTwiceThenClear(e: OnAllFoursEffect, p: Player)
    requires p.online && p.uuid !in e.revertTasks
    modifies e, p`swimming
    ensures e.revertTasks == old(e.revertTasks) && !p.swimming
  {
    e.Apply(p, 1);
    assert p.swimming && e.revertTasks == old(e.revertTasks) + {p.uuid};
    e.Apply(p, 1);
    assert e.revertTasks == old(e.revertTasks) + {p.uuid};
    e.Clear(p);
    assert old(e.revertTasks) + {p.uuid} - {p.uuid} == old(e.revertTasks);
  }
}
