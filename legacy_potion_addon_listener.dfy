/**
 * The older copy of the potion add-on refresher. It reads the same keys,
 * applies the same six effects with the same rule, and differs only in
 * having no guard against a null player: the scheduler hands it online
 * players only, so the model asks for a player.
 */
module LegacyPotionAddOns {
  import opened PotionAddOns

  class LegacyPotionAddOnListener {
    /** Whether the repeating refresh task is scheduled (`task != null`). */
    var running: bool

    constructor()
      ensures !running
    {
      running := false;
    }

    /** `start`: any earlier task is cancelled and one new task scheduled. */
    method Start()
      modifies this
      ensures running
    {
      running := true;
    }

    /** `stop`: the task is cancelled. */
    method Stop()
      modifies this
      ensures !running
    {
      running := false;
    }

    /** `refreshPotionAddOns` for one online player. */
    method RefreshPotionAddOns(p: Player)
      modifies p`effects
      ensures p.effects == Granted(old(p.effects), Plan(p.mainHand, p.armor))
    {
      RefreshPlayer(p);
    }
  }
}
