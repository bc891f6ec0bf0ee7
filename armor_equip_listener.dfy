/**
 * ArmorEquipListener: when a player puts on an armour piece carrying a
 * `|`-separated effect list, every effect on it fires once, each behind a
 * per-player, per-effect cooldown read from the configuration. The
 * mandator's curse spawns a cow that chases the player, at most one live
 * cow per player.
 */
module ArmorEquipListeners {
  import opened Wrappers
  import opened JavaText
  import opened Items
  import opened Potions
  import opened Configs
  import opened ChatColors
  import RaffleKeys
  import opened EffectHost
  import opened ArmorEffectCodec

  const COOLDOWN_PREFIX: string := "raffle.cooldowns."
  /** The potion buffs last sixty seconds. */
  const BUFF_TICKS: int := 20 * 60
  const COW_LIFE_TICKS: int := 20 * 20
  /** The chase task runs every five ticks. */
  const COW_PERIOD_TICKS: int := 5

  // ---------------------------------------------------------------- cooldowns

  /** The fallback table of `getCooldownMs`. */
  function DefaultCooldownMs(id: string): (r: int)
    ensures r > 0
  {
    if id == "terror" || id == "mandators_curse" || id == "shadow_twin" then 120_000
    else if id == "echoes" || id == "broken_compass" then 45_000
    else if id == "ogre" then 90_000
    else 10_000
  }

  function MsKey(id: string): string {
    COOLDOWN_PREFIX + id + "_ms"
  }

  function PlainKey(id: string): string {
    COOLDOWN_PREFIX + id
  }

  /** `getCooldownMs`: the `_ms` key, then the plain key, each only when not negative, then the table. */
  function CooldownMs(cfg: Config, id: string): (r: int)
    ensures r >= 0
  {
    var v := CfgLong(cfg, MsKey(id), -1);
    if v >= 0 then v
    else
      var w := CfgLong(cfg, PlainKey(id), -1);
      if w >= 0 then w else DefaultCooldownMs(id)
  }

  /** The `_ms` key wins whenever it holds a non-negative value. */
  lemma MsKeyFirst(cfg: Config, id: string)
    requires MsKey(id) in cfg.longs && cfg.longs[MsKey(id)] >= 0
    ensures CooldownMs(cfg, id) == cfg.longs[MsKey(id)]
  {
  }

  /** Without a usable `_ms` key, a non-negative plain key is used. */
  lemma PlainKeySecond(cfg: Config, id: string)
    requires MsKey(id) !in cfg.longs || cfg.longs[MsKey(id)] < 0
    requires PlainKey(id) in cfg.longs && cfg.longs[PlainKey(id)] >= 0
    ensures CooldownMs(cfg, id) == cfg.longs[PlainKey(id)]
  {
  }

  /** Without either key (or with negative values) the table decides. */
  lemma TableLast(cfg: Config, id: string)
    requires MsKey(id) !in cfg.longs || cfg.longs[MsKey(id)] < 0
    requires PlainKey(id) !in cfg.longs || cfg.longs[PlainKey(id)] < 0
    ensures CooldownMs(cfg, id) == DefaultCooldownMs(id)
  {
  }

  /** The table: two minutes for the heavy curses, 90 s for the ogre, 45 s for the light ones, 10 s otherwise. */
  lemma DefaultsTable()
    ensures DefaultCooldownMs("terror") == 120_000 && DefaultCooldownMs("mandators_curse") == 120_000
    ensures DefaultCooldownMs("shadow_twin") == 120_000 && DefaultCooldownMs("ogre") == 90_000
    ensures DefaultCooldownMs("echoes") == 45_000 && DefaultCooldownMs("broken_compass") == 45_000
    ensures DefaultCooldownMs("health_boost") == 10_000 && DefaultCooldownMs("fire_res") == 10_000
  {
  }

  /** `map.getOrDefault(id, 0L)`. */
  function Last(stamps: map<string, int>, id: string): int {
    if id in stamps then stamps[id] else 0
  }

  /** The trigger is refused: a positive cooldown that has not run out since the last trigger. */
  predicate OnCooldown(stamps: map<string, int>, id: string, now: int, cdMs: int) {
    cdMs > 0 && now - Last(stamps, id) < cdMs
  }

  // ---------------------------------------------------------------- dispatch

  /** The effects `triggerEffect` knows; any other id is `Unimplemented`. */
  datatype Kind = HealthBoost | FireRes | WaterBreathing | Terror | Echoes | BrokenCompass
                | MandatorsCurse | Ogre | ShadowTwin | Unimplemented

  function KindOf(id: string): Kind {
    if id == "health_boost" then HealthBoost
    else if id == "fire_res" then FireRes
    else if id == "water_breathing" then WaterBreathing
    else if id == "terror" then Terror
    else if id == "echoes" then Echoes
    else if id == "broken_compass" then BrokenCompass
    else if id == "mandators_curse" then MandatorsCurse
    else if id == "ogre" then Ogre
    else if id == "shadow_twin" then ShadowTwin
    else Unimplemented
  }

  /** `min(3, max(0, level - 1))`: level 1 is Health Boost I, capped at IV. */
  function HealthBoostAmplifier(level: int): (a: int)
    ensures 0 <= a <= 3
    ensures 1 <= level <= 4 ==> a == level - 1
  {
    Min(3, Max(0, level - 1))
  }

  /** The player's potion effects and health. */
  datatype Body = Body(effects: ActiveEffects, health: real)

  /** The heal of health_boost: two points, up to the maximum health (20 without the attribute). */
  function Healed(health: real, maxHealth: Option<real>): real {
    var max := maxHealth.GetOr(20.0);
    if max <= health + 2.0 then max else health + 2.0
  }

  /** What the effect does to the player's potion effects and health. */
  function Dispatched(k: Kind, level: int, b: Body, maxHealth: Option<real>): Body {
    match k
    case HealthBoost =>
      Body(AddEffect(b.effects, HEALTH_BOOST, HealthBoostAmplifier(level), BUFF_TICKS), Healed(b.health, maxHealth))
    case FireRes => Body(AddEffect(b.effects, FIRE_RESISTANCE, 0, BUFF_TICKS), b.health)
    case WaterBreathing => Body(AddEffect(b.effects, WATER_BREATHING, 0, BUFF_TICKS), b.health)
    case Terror => Body(AddEffect(b.effects, DARKNESS, 0, 20 * 20), b.health)
    case BrokenCompass =>
      Body(AddEffect(AddEffect(b.effects, NAUSEA, 0, 20 * 4), SLOWNESS, 0, 20 * 2), b.health)
    case _ => b
  }

  /** The chat line the effect sends. */
  function Message(k: Kind, id: string, level: int): string {
    match k
    case HealthBoost => GREEN + "[Raffle] Health Boost triggered (lvl " + IntToString(level) + ")."
    case FireRes => GREEN + "[Raffle] Fire Resistance triggered."
    case WaterBreathing => GREEN + "[Raffle] Water Breathing triggered."
    case Terror => RED + "[Raffle] Terror..."
    case Echoes => RED + "[Raffle] Echoes whisper nearby..."
    case BrokenCompass => RED + "[Raffle] Your senses twist..."
    case MandatorsCurse => RED + "[Raffle] Mandator’s Curse!"
    case Ogre => RED + "[Raffle] An ogre’s malice stirs the nearby wildlife..."
    case ShadowTwin => RED + "[Raffle] You feel watched... (Shadow Twin)"
    case Unimplemented => GRAY + "[Raffle] (Unimplemented effect: " + id + ")"
  }

  /** The repeating task an effect starts. */
  datatype Task = NoTask | EchoBurst | CowChase(cow: nat) | OgreRush

  /** One effect that fired: its id, level, chat line and task. */
  datatype Triggered = Triggered(id: string, level: int, message: string, task: Task)

  // ---------------------------------------------------------------- the cow

  /** The entities the world has spawned for the listener: the ones still alive, and the next id. */
  datatype Herd = Herd(alive: set<nat>, nextId: nat)

  /**
   * `spawnMandatorCow`: nothing when the tracked cow is still alive;
   * otherwise a new cow is spawned and tracked. Returns the new tracking
   * entry, the herd, and the spawned cow.
   */
  function SpawnCow(tracked: Option<nat>, h: Herd): (Option<nat>, Herd, Option<nat>) {
    if tracked.Some? && tracked.value in h.alive then (tracked, h, None)
    else (Some(h.nextId), Herd(h.alive + {h.nextId}, h.nextId + 1), Some(h.nextId))
  }

  /** One live cow per player: after a spawn the player tracks exactly the cow spawned, which is alive. */
  lemma OneLiveCow(tracked: Option<nat>, h: Herd)
    requires forall id :: id in h.alive ==> id < h.nextId
    ensures var (t, h2, spawned) := SpawnCow(tracked, h);
            t.Some? && t.value in h2.alive
            && (spawned.Some? <==> !(tracked.Some? && tracked.value in h.alive))
            && (spawned.Some? ==> t == spawned && spawned.value !in h.alive)
            && (forall id :: id in h2.alive ==> id < h2.nextId)
  {
  }

  // ---------------------------------------------------------------- one trigger

  /** The part of the listener's and the world's state one player's triggers read and write. */
  datatype EquipState = EquipState(stamps: Option<map<string, int>>, body: Body, cow: Option<nat>, herd: Herd)

  /** The player's cooldown map, empty when it has none. */
  function Stamps(s: EquipState): map<string, int> {
    s.stamps.GetOr(map[])
  }

  /**
   * `triggerEffect`: the id is normalized and an empty one ignored; the
   * player's cooldown map is created if missing; within the cooldown
   * nothing else happens; otherwise the stamp becomes `now` before the
   * effect runs, whatever the id.
   */
  function Trigger(cfg: Config, now: int, maxHealth: Option<real>, idRaw: string, level: int, s: EquipState)
    : (EquipState, Option<Triggered>)
  {
    var id := Normalized(idRaw);
    if id == [] then (s, None)
    else
      var stamps := Stamps(s);
      if OnCooldown(stamps, id, now, CooldownMs(cfg, id)) then (s.(stamps := Some(stamps)), None)
      else
        var k := KindOf(id);
        var body := Dispatched(k, level, s.body, maxHealth);
        var (cow, herd, spawned) := if k == MandatorsCurse then SpawnCow(s.cow, s.herd) else (s.cow, s.herd, None);
        var task := match k
          case Echoes => EchoBurst
          case Ogre => OgreRush
          case MandatorsCurse => if spawned.Some? then CowChase(spawned.value) else NoTask
          case _ => NoTask;
        (EquipState(Some(stamps[id := now]), body, cow, herd), Some(Triggered(id, level, Message(k, id, level), task)))
  }

  /** A refused trigger changes nothing but creating the empty cooldown map. */
  lemma RefusedChangesNothing(cfg: Config, now: int, maxHealth: Option<real>, id: string, level: int, s: EquipState)
    requires id != [] && Normalized(id) == id
    requires OnCooldown(Stamps(s), id, now, CooldownMs(cfg, id))
    ensures Trigger(cfg, now, maxHealth, id, level, s) == (s.(stamps := Some(Stamps(s))), None)
  {
  }

  /**
   * Any id outside the cooldown fires and records its stamp, an unknown one
   * included: it only sends the "unimplemented" line.
   */
  lemma UnknownIdRecordsCooldown(cfg: Config, now: int, maxHealth: Option<real>, id: string, level: int, s: EquipState)
    requires id != [] && Normalized(id) == id && KindOf(id) == Unimplemented
    requires !OnCooldown(Stamps(s), id, now, CooldownMs(cfg, id))
    ensures var (s2, out) := Trigger(cfg, now, maxHealth, id, level, s);
            Stamps(s2) == Stamps(s)[id := now] && s2.body == s.body && s2.cow == s.cow && s2.herd == s.herd
            && out == Some(Triggered(id, level, GRAY + "[Raffle] (Unimplemented effect: " + id + ")", NoTask))
  {
  }

  /** The stamp of one id after a trigger of another: untouched. */
  lemma TriggerOtherStamp(cfg: Config, now: int, maxHealth: Option<real>, idRaw: string, level: int, s: EquipState, k: string)
    requires Normalized(idRaw) != k
    ensures var s2 := Trigger(cfg, now, maxHealth, idRaw, level, s).0;
            (k in Stamps(s2) <==> k in Stamps(s)) && Last(Stamps(s2), k) == Last(Stamps(s), k)
  {
  }

  // ---------------------------------------------------------------- an equip

  /** The item fires effects: a non-AIR armour piece with meta. */
  predicate Equips(newItem: Option<Item>) {
    newItem.Some? && newItem.value.material != AIR && IsArmorName(newItem.value.material)
    && newItem.value.meta.Some?
  }

  /** The effects the equipped item carries (empty when it fires nothing). */
  function ArmorEffects(newItem: Option<Item>): map<string, int> {
    if !Equips(newItem) then map[]
    else
      match GetString(newItem.value.meta.value.pdc, RaffleKeys.ARMOR_EFFECTS)
      case None => map[]
      case Some(encoded) => if Trim(encoded) == [] then map[] else Decode(encoded)
  }

  /** The guards of `onArmorChange` and the decode. */
  method ReadArmorEffects(newItem: Option<Item>) returns (effects: map<string, int>)
    ensures effects == ArmorEffects(newItem)
  {
    effects := map[];
    if newItem.None? || newItem.value.material == AIR || !IsArmorName(newItem.value.material) {
      return;
    }
    if newItem.value.meta.None? {
      return;
    }
    var encoded := GetString(newItem.value.meta.value.pdc, RaffleKeys.ARMOR_EFFECTS);
    if encoded.None? || Trim(encoded.value) == [] {
      return;
    }
    effects := DecodeEffects(encoded.value);
  }

  /** The triggers of an equip, in the order the map yields its entries; each fires at `max(1, level)`. */
  function Run(cfg: Config, now: int, maxHealth: Option<real>, order: seq<string>, effects: map<string, int>, s: EquipState)
    : (EquipState, seq<Triggered>)
    requires forall i :: 0 <= i < |order| ==> order[i] in effects
    decreases |order|
  {
    if order == [] then (s, [])
    else
      var n := |order| - 1;
      var (s1, fired) := Run(cfg, now, maxHealth, order[..n], effects, s);
      var (s2, out) := Trigger(cfg, now, maxHealth, order[n], Max(1, effects[order[n]]), s1);
      (s2, fired + (if out.Some? then [out.value] else []))
  }

  /** A run one id longer triggers that id on the state the shorter run left. */
  lemma RunStep(cfg: Config, now: int, maxHealth: Option<real>, order: seq<string>, id: string,
                effects: map<string, int>, s: EquipState)
    requires forall i :: 0 <= i < |order| ==> order[i] in effects
    requires id in effects
    ensures forall i :: 0 <= i < |order + [id]| ==> (order + [id])[i] in effects
    ensures var (s1, fired) := Run(cfg, now, maxHealth, order, effects, s);
            var (s2, out) := Trigger(cfg, now, maxHealth, id, Max(1, effects[id]), s1);
            Run(cfg, now, maxHealth, order + [id], effects, s) == (s2, fired + (if out.Some? then [out.value] else []))
  {
    assert (order + [id])[..|order|] == order;
  }

  /** The stamp a trigger run leaves for `k`. */
  function StampAfter(cfg: Config, now: int, order: seq<string>, s: EquipState, k: string): Option<int> {
    if k in order && !OnCooldown(Stamps(s), k, now, CooldownMs(cfg, k)) then Some(now)
    else if k in Stamps(s) then Some(Stamps(s)[k])
    else None
  }

  function StampOf(s: EquipState, k: string): Option<int> {
    if k in Stamps(s) then Some(Stamps(s)[k]) else None
  }

  /**
   * Whatever the order of the entries, each id of the item ends up with
   * the stamp `now` if its cooldown had run out and keeps its old stamp
   * otherwise; every other id's stamp is untouched.
   */
  lemma {:induction false} RunStamps(cfg: Config, now: int, maxHealth: Option<real>, order: seq<string>,
                                     effects: map<string, int>, s: EquipState, k: string)
    requires forall i :: 0 <= i < |order| ==> order[i] in effects && order[i] != [] && Normalized(order[i]) == order[i]
    ensures StampOf(Run(cfg, now, maxHealth, order, effects, s).0, k) == StampAfter(cfg, now, order, s, k)
    decreases |order|
  {
    if order != [] {
      var n := |order| - 1;
      var front := order[..n];
      RunStamps(cfg, now, maxHealth, front, effects, s, k);
      var s1 := Run(cfg, now, maxHealth, front, effects, s).0;
      assert k in order <==> k in front || k == order[n];
      StampStep(cfg, now, maxHealth, order[n], Max(1, effects[order[n]]), s1, k);
    }
  }

  /** How one trigger moves the stamp of `k`. */
  lemma StampStep(cfg: Config, now: int, maxHealth: Option<real>, id: string, level: int, s: EquipState, k: string)
    requires id != [] && Normalized(id) == id
    ensures StampOf(Trigger(cfg, now, maxHealth, id, level, s).0, k)
            == if id == k && !OnCooldown(Stamps(s), k, now, CooldownMs(cfg, k)) then Some(now) else StampOf(s, k)
  {
    if id != k {
      TriggerOtherStamp(cfg, now, maxHealth, id, level, s, k);
    }
  }

  /** `order` lists each key of `m` exactly once. */
  predicate Enumerates(order: seq<string>, m: map<string, int>) {
    |order| == |m.Keys|
    && (forall i :: 0 <= i < |order| ==> order[i] in m)
    && (forall i, j :: 0 <= i < j < |order| ==> order[i] != order[j])
  }

  // ---------------------------------------------------------------- the listener

  /** The entities the cow code spawns and removes. */
  class Cows {
    var alive: set<nat>
    var nextId: nat

    ghost predicate Valid()
      reads this
    {
      forall id :: id in alive ==> id < nextId
    }

    constructor()
      ensures Valid() && alive == {}
    {
      alive := {};
      nextId := 0;
    }
  }

  /** A running chase task of one cow. */
  class Chase {
    const owner: nat
    const cow: nat
    var lifeTicks: int
    var cancelled: bool

    constructor(owner: nat, cow: nat)
      ensures this.owner == owner && this.cow == cow && lifeTicks == 0 && !cancelled
    {
      this.owner := owner;
      this.cow := cow;
      lifeTicks := 0;
      cancelled := false;
    }
  }

  /** The map with the player's entry set to `v`, or removed for None. */
  function Stored<V>(m: map<nat, V>, uuid: nat, v: Option<V>): (r: map<nat, V>)
    ensures (uuid in r <==> v.Some?) && (v.Some? ==> r[uuid] == v.value)
    ensures r - {uuid} == m - {uuid}
  {
    if v.Some? then m[uuid := v.value] else m - {uuid}
  }

  class ArmorEquipListener {
    /** Per player, per effect id: the last trigger time. */
    var cooldowns: map<nat, map<string, int>>
    /** Per player: the tracked mandator cow. */
    var activeMandatorCow: map<nat, nat>

    constructor()
      ensures cooldowns == map[] && activeMandatorCow == map[]
    {
      cooldowns := map[];
      activeMandatorCow := map[];
    }

    /** The state a trigger for `p` reads and writes. */
    function StateOf(p: Player, cows: Cows): EquipState
      reads this, p, cows
    {
      EquipState(
        if p.uuid in cooldowns then Some(cooldowns[p.uuid]) else None,
        Body(p.effects, p.health),
        if p.uuid in activeMandatorCow then Some(activeMandatorCow[p.uuid]) else None,
        Herd(cows.alive, cows.nextId))
    }

    /** Stores a state for `p`; cows beyond the herd's fields are not touched. */
    method Store(p: Player, cows: Cows, s: EquipState)
      modifies this, p`effects, p`health, cows
      ensures StateOf(p, cows) == s
      ensures cooldowns - {p.uuid} == old(cooldowns) - {p.uuid}
      ensures activeMandatorCow - {p.uuid} == old(activeMandatorCow) - {p.uuid}
    {
      cooldowns := Stored(cooldowns, p.uuid, s.stamps);
      activeMandatorCow := Stored(activeMandatorCow, p.uuid, s.cow);
      p.effects := s.body.effects;
      p.health := s.body.health;
      cows.alive := s.herd.alive;
      cows.nextId := s.herd.nextId;
    }

    /** `triggerEffect` for player `p` at clock time `now`. */
    method TriggerEffect(p: Player, idRaw: string, level: int, now: int, cfg: Config, cows: Cows)
      returns (out: Option<Triggered>)
      modifies this, p`effects, p`health, cows
      ensures (StateOf(p, cows), out) == Trigger(cfg, now, p.maxHealth, idRaw, level, old(StateOf(p, cows)))
      ensures cooldowns - {p.uuid} == old(cooldowns) - {p.uuid}
      ensures activeMandatorCow - {p.uuid} == old(activeMandatorCow) - {p.uuid}
    {
      var r := Trigger(cfg, now, p.maxHealth, idRaw, level, StateOf(p, cows));
      Store(p, cows, r.0);
      out := r.1;
    }

    /** One turn of the loop of `onArmorChange`: the run so far extended by `id`. */
    method TriggerNext(p: Player, id: string, effects: map<string, int>, now: int, cfg: Config, cows: Cows,
                       ghost order: seq<string>, ghost start: EquipState, ghost fired: seq<Triggered>)
      returns (out: Option<Triggered>)
      requires id in effects && forall i :: 0 <= i < |order| ==> order[i] in effects
      requires Run(cfg, now, p.maxHealth, order, effects, start) == (StateOf(p, cows), fired)
      modifies this, p`effects, p`health, cows
      ensures forall i :: 0 <= i < |order + [id]| ==> (order + [id])[i] in effects
      ensures Run(cfg, now, p.maxHealth, order + [id], effects, start)
              == (StateOf(p, cows), fired + (if out.Some? then [out.value] else []))
      ensures cooldowns - {p.uuid} == old(cooldowns) - {p.uuid}
      ensures activeMandatorCow - {p.uuid} == old(activeMandatorCow) - {p.uuid}
    {
      RunStep(cfg, now, p.maxHealth, order, id, effects, start);
      out := TriggerEffect(p, id, Max(1, effects[id]), now, cfg, cows);
    }

    /**
     * `onArmorChange`: every effect on the equipped piece is triggered
     * once, in the order the decoded map yields them (returned as `order`).
     */
    method OnArmorChange(p: Player, newItem: Option<Item>, now: int, cfg: Config, cows: Cows)
      returns (order: seq<string>, fired: seq<Triggered>)
      modifies this, p`effects, p`health, cows
      ensures Enumerates(order, ArmorEffects(newItem))
      ensures (StateOf(p, cows), fired) == Run(cfg, now, p.maxHealth, order, ArmorEffects(newItem), old(StateOf(p, cows)))
      ensures cooldowns - {p.uuid} == old(cooldowns) - {p.uuid}
      ensures activeMandatorCow - {p.uuid} == old(activeMandatorCow) - {p.uuid}
    {
      order, fired := [], [];
      var effects := ReadArmorEffects(newItem);
      ghost var start := StateOf(p, cows);
      var remaining := effects.Keys;
      while remaining != {}
        invariant remaining <= effects.Keys
        invariant forall i :: 0 <= i < |order| ==> order[i] in effects && order[i] !in remaining
        invariant forall i, j :: 0 <= i < j < |order| ==> order[i] != order[j]
        invariant |order| + |remaining| == |effects.Keys|
        invariant cooldowns - {p.uuid} == old(cooldowns) - {p.uuid}
        invariant activeMandatorCow - {p.uuid} == old(activeMandatorCow) - {p.uuid}
        invariant Run(cfg, now, p.maxHealth, order, effects, start)
                  == (StateOf(p, cows), fired)
        decreases |remaining|
      {
        var id :| id in remaining;
        var out := TriggerNext(p, id, effects, now, cfg, cows, order, start, fired);
        order := order + [id];
        fired := fired + (if out.Some? then [out.value] else []);
        remaining := remaining - {id};
      }
    }
  }

  /**
   * One run of a cow's chase task. The chase ends, and the player's
   * tracking entry is dropped, when the player is offline, the cow is dead,
   * or twenty seconds have passed (the cow is then removed).
   */
  method ChaseTick(l: ArmorEquipListener, c: Chase, online: bool, cows: Cows)
    requires !c.cancelled
    modifies l, c, cows
    ensures !online || c.cow !in old(cows.alive) ==>
              c.cancelled && l.activeMandatorCow == old(l.activeMandatorCow) - {c.owner}
              && cows.alive == old(cows.alive) && c.lifeTicks == old(c.lifeTicks)
    ensures online && c.cow in old(cows.alive) ==>
              c.lifeTicks == old(c.lifeTicks) + COW_PERIOD_TICKS
              && (c.cancelled <==> c.lifeTicks >= COW_LIFE_TICKS)
              && (c.cancelled ==> l.activeMandatorCow == old(l.activeMandatorCow) - {c.owner}
                                  && cows.alive == old(cows.alive) - {c.cow})
              && (!c.cancelled ==> l.activeMandatorCow == old(l.activeMandatorCow) && cows.alive == old(cows.alive))
    ensures l.cooldowns == old(l.cooldowns) && cows.nextId == old(cows.nextId)
  {
    if !online || c.cow !in cows.alive {
      l.activeMandatorCow := l.activeMandatorCow - {c.owner};
      c.cancelled := true;
      return;
    }
    c.lifeTicks := c.lifeTicks + COW_PERIOD_TICKS;
    if c.lifeTicks >= COW_LIFE_TICKS {
      cows.alive := cows.alive - {c.cow};
      l.activeMandatorCow := l.activeMandatorCow - {c.owner};
      c.cancelled := true;
    }
  }
}
