/**
 * EchoesEffect: while the curse runs (ten seconds) a repeating task plays
 * a random mob sound a few blocks from the player every second. There is
 * at most one such task per player.
 */
module EchoesEffects {
  import opened Wrappers
  import opened EffectHost

  const RUN_TICKS: int := 20 * 10
  const PERIOD_TICKS: int := 20

  datatype EchoSound = CAVE_SPIDER_AMBIENT | ZOMBIE_AMBIENT | ENDERMAN_STARE | SKELETON_AMBIENT | WITCH_AMBIENT

  /** One echo: the block offset from the player along x and z, and the sound. */
  datatype Echo = Echo(dx: int, dz: int, sound: EchoSound)

  /** `nextInt(11) - 5`. */
  function Offset(draw: nat): int {
    NextInt(0, 11, draw) - 5
  }

  /** The `switch` over `nextInt(5)`. */
  function SoundOf(draw: nat): EchoSound {
    match NextInt(0, 5, draw)
    case 0 => CAVE_SPIDER_AMBIENT
    case 1 => ZOMBIE_AMBIENT
    case 2 => ENDERMAN_STARE
    case 3 => SKELETON_AMBIENT
    case _ => WITCH_AMBIENT
  }

  /** Every echo lands within five blocks of the player on both axes, and every sound can be drawn. */
  lemma EchoNearby(dxDraw: nat, dzDraw: nat, s: EchoSound)
    ensures -5 <= Offset(dxDraw) <= 5 && -5 <= Offset(dzDraw) <= 5
    ensures exists d: nat :: d < 5 && SoundOf(d) == s
  {
    var d: nat := match s
      case CAVE_SPIDER_AMBIENT => 0
      case ZOMBIE_AMBIENT => 1
      case ENDERMAN_STARE => 2
      case SKELETON_AMBIENT => 3
      case WITCH_AMBIENT => 4;
    assert SoundOf(d) == s;
  }

  class EchoesEffect {
    /** The players with a running echo task. */
    var tasks: set<nat>

    constructor()
      ensures tasks == {}
    {
      tasks := {};
    }

    /** `apply`: starts a task for an online player that has none. */
    method Apply(p: Player?, level: int)
      modifies this
      ensures tasks == if p != null && p.online then old(tasks) + {p.uuid} else old(tasks)
    {
      if p == null || !p.online {
        return;
      }
      if p.uuid in tasks {
        return;
      }
      tasks := tasks + {p.uuid};
    }

    /**
     * One run of the repeating task of player `uuid`; `found` is the
     * player now online under that id, or null. An offline player ends
     * the task; otherwise one echo is produced from the draws.
     */
    method Tick(uuid: nat, found: Player?, dxDraw: nat, dzDraw: nat, soundDraw: nat) returns (echo: Option<Echo>)
      requires found != null ==> found.uuid == uuid
      modifies this
      ensures found == null || !found.online ==> echo.None? && tasks == old(tasks) - {uuid}
      ensures found != null && found.online ==>
                echo == Some(Echo(Offset(dxDraw), Offset(dzDraw), SoundOf(soundDraw))) && tasks == old(tasks)
    {
      if found == null || !found.online {
        tasks := tasks - {uuid};
        return None;
      }
      echo := Some(Echo(Offset(dxDraw), Offset(dzDraw), SoundOf(soundDraw)));
    }

    /** The auto-stop task, `RUN_TICKS` after apply; `found` as for `Tick`. */
    method AutoStop(uuid: nat, found: Player?)
      requires found != null ==> found.uuid == uuid
      modifies this
      ensures tasks == if found == null then old(tasks) else old(tasks) - {uuid}
    {
      if found != null {
        Clear(found);
      }
    }

    /** `clear`. */
    method Clear(p: Player?)
      modifies this
      ensures tasks == if p == null then old(tasks) else old(tasks) - {p.uuid}
    {
      if p == null {
        return;
      }
      tasks := tasks - {p.uuid};
    }
  }
}
