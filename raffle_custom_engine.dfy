/**
 * RaffleCustomEffectEngine: the periodic refresher for the raffle effects
 * that are not potions (the curses and the custom mechanics). It keeps the
 * set of effects active on each player; on every refresh the effects that
 * became active are applied once, the effects that disappeared are
 * cleared, and the ones that stay get nothing. Stopping the engine clears
 * every active effect of every player still on the server.
 *
 * The effects themselves are modelled in their own modules; here a call
 * to an effect is a value, and each refresh returns the calls it makes.
 */
module RaffleCustomEngine {
  import opened Wrappers
  import opened Items
  import opened RaffleEffectIds
  import opened EffectMaps
  import opened RaffleEffectReader
  import opened RafflePotionEngine

  /** `effect.apply(player, level)` or `effect.clear(player)` on the effect registered for `id`. */
  datatype Call = ApplyCall(player: nat, id: EffectId, level: int) | ClearCall(player: nat, id: EffectId)

  /** The player a refresh is given: its id, whether it is online, and its armour. */
  datatype PlayerRef = PlayerRef(uuid: nat, online: bool, armor: ArmorSet)

  /**
   * The ids of `registerDefaults` that the effect catalogue declares; the
   * other custom effects name ids the catalogue does not have.
   */
  const DefaultRegistry: set<EffectId> := {TERROR, DREAD, MISSTEP}

  // ---------------------------------------------------------------- the specification

  /** The ids the loop over `highest` collects: a positive level and a registered effect. */
  function NowActive(highest: EffectMap, registry: set<EffectId>): set<EffectId> {
    set k | 0 <= k < |highest| && highest[k].1 > 0 && highest[k].0 in registry :: highest[k].0
  }

  /** The calls of one refresh: entering ids are applied at their level, leaving registered ids are cleared. */
  function RefreshCalls(uuid: nat, prev: set<EffectId>, highest: EffectMap, registry: set<EffectId>): set<Call> {
    var now := NowActive(highest, registry);
    (set id | id in now - prev :: ApplyCall(uuid, id, Get(highest, id).GetOr(1)))
    + (set id | id in (prev - now) * registry :: ClearCall(uuid, id))
  }

  /** The calls of `stop`: every active effect of every player the server still finds is cleared. */
  function StopCalls(active: map<nat, set<EffectId>>, found: set<nat>, registry: set<EffectId>): set<Call> {
    set u, id | u in active && u in found && id in active[u] && id in registry :: ClearCall(u, id)
  }

  predicate Distinct(calls: seq<Call>) {
    forall i, j :: 0 <= i < j < |calls| ==> calls[i] != calls[j]
  }

  /** The calls of a refresh as a sequence: each call once, all applies before any clear. */
  ghost predicate IsRefreshCalls(calls: seq<Call>, uuid: nat, prev: set<EffectId>, highest: EffectMap, registry: set<EffectId>) {
    && (forall c :: c in calls <==> c in RefreshCalls(uuid, prev, highest, registry))
    && Distinct(calls)
    && (forall i, j :: 0 <= i < j < |calls| && calls[i].ClearCall? ==> calls[j].ClearCall?)
  }

  predicate EnteringCall(c: Call, uuid: nat, now: set<EffectId>, prev: set<EffectId>, highest: EffectMap) {
    c.ApplyCall? && c.player == uuid && c.id in now && c.id !in prev && c.level == Get(highest, c.id).GetOr(1)
  }

  predicate LeavingCall(c: Call, uuid: nat, now: set<EffectId>, prev: set<EffectId>, registry: set<EffectId>) {
    c.ClearCall? && c.player == uuid && c.id in prev && c.id !in now && c.id in registry
  }

  lemma JoinCalls(applies: seq<Call>, clears: seq<Call>, uuid: nat, now: set<EffectId>, prev: set<EffectId>,
                  highest: EffectMap, registry: set<EffectId>)
    requires now == NowActive(highest, registry)
    requires forall c :: c in applies <==> EnteringCall(c, uuid, now, prev, highest)
    requires forall c :: c in clears <==> LeavingCall(c, uuid, now, prev, registry)
    requires Distinct(applies) && Distinct(clears)
    ensures IsRefreshCalls(applies + clears, uuid, prev, highest, registry)
  {
    var calls := applies + clears;
    forall c ensures c in calls <==> c in RefreshCalls(uuid, prev, highest, registry) {
      if c.ApplyCall? {
        assert c in calls <==> c in applies;
      } else {
        assert c in calls <==> c in clears;
      }
    }
    forall i, j | 0 <= i < j < |calls| ensures calls[i] != calls[j] {
      if i < |applies| && j >= |applies| {
        assert calls[i] in applies && calls[j] in clears;
      }
    }
    forall j | 0 <= j < |calls| ensures calls[j].ClearCall? <==> j >= |applies| {
      if j < |applies| {
        assert calls[j] in applies;
      } else {
        assert calls[j] in clears;
      }
    }
  }

  lemma {:induction false} MergedDistinct(into: EffectMap, add: EffectMap)
    requires DistinctKeys(into)
    ensures DistinctKeys(Merged(into, add))
    decreases |add|
  {
    if add != [] {
      var e := add[0];
      var lvl := StoredLevel(e.0, e.1);
      if lvl > Get(into, e.0).GetOr(0) {
        PutDistinct(into, e.0, lvl);
      }
      MergedDistinct(MergeStep(into, e), add[1..]);
    }
  }

  lemma HighestDistinct(armor: ArmorSet)
    ensures DistinctKeys(Highest(armor))
  {
    var h := MergeArmor([], armor.helmet);
    var c := MergeArmor(h, armor.chestplate);
    var l := MergeArmor(c, armor.leggings);
    if armor.helmet.Some? { MergedDistinct([], ItemEffects(armor.helmet)); }
    if armor.chestplate.Some? { MergedDistinct(h, ItemEffects(armor.chestplate)); }
    if armor.leggings.Some? { MergedDistinct(c, ItemEffects(armor.leggings)); }
    if armor.boots.Some? { MergedDistinct(l, ItemEffects(armor.boots)); }
  }

  /** An id is active exactly when it is registered and the armour gives it a positive level. */
  lemma NowActiveIff(highest: EffectMap, registry: set<EffectId>, id: EffectId)
    requires DistinctKeys(highest)
    ensures id in NowActive(highest, registry) <==> id in registry && Get(highest, id).GetOr(0) > 0
  {
    if id in registry && Get(highest, id).GetOr(0) > 0 {
      var k :| 0 <= k < |highest| && highest[k] == (id, Get(highest, id).value);
      assert highest[k].0 in NowActive(highest, registry);
    }
    if id in NowActive(highest, registry) {
      var k :| 0 <= k < |highest| && highest[k].1 > 0 && highest[k].0 in registry && highest[k].0 == id;
      GetAt(highest, k);
    }
  }

  /**
   * Entering ids are applied (once, at their level), leaving ids are
   * cleared, and an id that stays active gets no call at all.
   */
  lemma RefreshDiff(uuid: nat, prev: set<EffectId>, highest: EffectMap, registry: set<EffectId>, id: EffectId)
    ensures var now := NowActive(highest, registry);
            var calls := RefreshCalls(uuid, prev, highest, registry);
            && (ApplyCall(uuid, id, Get(highest, id).GetOr(1)) in calls <==> id in now && id !in prev)
            && (ClearCall(uuid, id) in calls <==> id in prev && id !in now && id in registry)
            && (id in now && id in prev ==> forall c :: c in calls ==> c.id != id)
            && (forall c :: c in calls ==> c.player == uuid)
            && (forall l :: ApplyCall(uuid, id, l) in calls ==> l == Get(highest, id).GetOr(1))
  {
  }

  /** Refreshing again with unchanged armour makes no call: a curse triggers once when it becomes active. */
  lemma RefreshSettles(uuid: nat, highest: EffectMap, registry: set<EffectId>)
    ensures RefreshCalls(uuid, NowActive(highest, registry), highest, registry) == {}
  {
    var now := NowActive(highest, registry);
    assert now - now == {};
    assert (now - now) * registry == {};
  }

  /** An id enters with the level the armour gives it, which is at least 1. */
  lemma AppliedLevel(uuid: nat, prev: set<EffectId>, armor: ArmorSet, registry: set<EffectId>, c: Call)
    requires c in RefreshCalls(uuid, prev, Highest(armor), registry) && c.ApplyCall?
    ensures c.level >= 1
    ensures c.level == Get(Highest(armor), c.id).value
  {
    HighestDistinct(armor);
    NowActiveIff(Highest(armor), registry, c.id);
  }

  // ---------------------------------------------------------------- the engine

  class CustomEngine {
    /** The registered effects' ids (`registry.keySet()`). */
    const registry: set<EffectId>
    /** `activeByPlayer`. */
    var active: map<nat, set<EffectId>>
    /** Whether the repeating refresh task is scheduled. */
    var running: bool

    /** Every active set holds registered ids only. */
    predicate Valid()
      reads this
    {
      forall u :: u in active ==> active[u] <= registry
    }

    /** The constructor runs `registerDefaults`. */
    constructor()
      ensures registry == DefaultRegistry && active == map[] && !running && Valid()
    {
      registry := DefaultRegistry;
      active := map[];
      running := false;
    }

    /**
     * `refreshPlayer`: nothing for a null or offline player; otherwise the
     * entering ids are applied, then the leaving ones cleared, and the
     * player's active set becomes the ids active now.
     */
    method RefreshPlayer(p: Option<PlayerRef>) returns (calls: seq<Call>)
      requires Valid()
      modifies this
      ensures Valid() && running == old(running)
      ensures p.None? || !p.value.online ==> calls == [] && active == old(active)
      ensures p.Some? && p.value.online ==>
                var prev := if p.value.uuid in old(active) then old(active)[p.value.uuid] else {};
                var highest := Highest(p.value.armor);
                IsRefreshCalls(calls, p.value.uuid, prev, highest, registry)
                && active == old(active)[p.value.uuid := NowActive(highest, registry)]
    {
      if p.None? || !p.value.online {
        return [];
      }
      var uuid := p.value.uuid;
      var highest := HighestOf(p.value.armor);
      var now := CollectActive(highest);
      var prev := if uuid in active then active[uuid] else {};
      var applies := ApplyEntering(uuid, now, prev, highest);
      var clears := ClearLeaving(uuid, now, prev);
      calls := applies + clears;
      JoinCalls(applies, clears, uuid, now, prev, highest, registry);
      active := active[uuid := now];
    }

    /** Step 2: the ids with a positive level and a registered effect. */
    method CollectActive(highest: EffectMap) returns (now: set<EffectId>)
      ensures now == NowActive(highest, registry)
    {
      now := {};
      var i := 0;
      while i < |highest|
        invariant 0 <= i <= |highest|
        invariant now == set k | 0 <= k < i && highest[k].1 > 0 && highest[k].0 in registry :: highest[k].0
      {
        var id := highest[i].0;
        var level := highest[i].1;
        if level > 0 && id in registry {
          now := now + {id};
        }
        i := i + 1;
      }
    }

    /** Newly activated effects are applied once, at the level in `highest`. */
    method ApplyEntering(uuid: nat, now: set<EffectId>, prev: set<EffectId>, highest: EffectMap) returns (calls: seq<Call>)
      requires now <= registry
      ensures forall c :: c in calls <==> EnteringCall(c, uuid, now, prev, highest)
      ensures Distinct(calls)
    {
      calls := [];
      var todo := now;
      while todo != {}
        invariant todo <= now
        invariant forall c :: c in calls <==> EnteringCall(c, uuid, now - todo, prev, highest)
        invariant Distinct(calls)
        invariant forall c :: c in calls ==> c.id !in todo
        decreases |todo|
      {
        var id :| id in todo;
        if id !in prev && id in registry {
          calls := calls + [ApplyCall(uuid, id, Get(highest, id).GetOr(1))];
        }
        todo := todo - {id};
      }
    }

    /** Effects that are no longer active are cleared. */
    method ClearLeaving(uuid: nat, now: set<EffectId>, prev: set<EffectId>) returns (calls: seq<Call>)
      ensures forall c :: c in calls <==> LeavingCall(c, uuid, now, prev, registry)
      ensures Distinct(calls)
    {
      calls := [];
      var todo := prev;
      while todo != {}
        invariant todo <= prev
        invariant forall c :: c in calls <==> LeavingCall(c, uuid, now, prev - todo, registry)
        invariant Distinct(calls)
        invariant forall c :: c in calls ==> c.id !in todo
        decreases |todo|
      {
        var id :| id in todo;
        if id !in now && id in registry {
          calls := calls + [ClearCall(uuid, id)];
        }
        todo := todo - {id};
      }
    }

    /** `start`: any earlier task is stopped (clearing every effect) and a new one scheduled. */
    method Start(found: set<nat>) returns (calls: seq<Call>)
      modifies this
      ensures running && active == map[]
      ensures forall c :: c in calls <==> c in StopCalls(old(active), found, registry)
    {
      calls := Stop(found);
      running := true;
    }

    /**
     * `stop`: the task is cancelled, the effects of every player the server
     * finds (`found`) are cleared, and every active set is forgotten.
     */
    method Stop(found: set<nat>) returns (calls: seq<Call>)
      modifies this
      ensures !running && active == map[]
      ensures forall c :: c in calls <==> c in StopCalls(old(active), found, registry)
    {
      running := false;
      calls := [];
      var todo := active.Keys;
      while todo != {}
        invariant todo <= active.Keys
        invariant active == old(active) && !running
        invariant forall c :: c in calls <==> c in StopCalls(old(active), found, registry)
                                              && c.player !in todo
        decreases |todo|
      {
        var u :| u in todo;
        if u in found {
          var cs := ClearAll(u, active[u]);
          calls := calls + cs;
        }
        todo := todo - {u};
      }
      active := map[];
    }

    method ClearAll(u: nat, ids: set<EffectId>) returns (calls: seq<Call>)
      ensures forall c :: c in calls <==> c.ClearCall? && c.player == u && c.id in ids * registry
    {
      calls := [];
      var todo := ids;
      while todo != {}
        invariant todo <= ids
        invariant forall c :: c in calls <==> c.ClearCall? && c.player == u && c.id in (ids - todo) * registry
        decreases |todo|
      {
        var id :| id in todo;
        if id in registry {
          calls := calls + [ClearCall(u, id)];
        }
        todo := todo - {id};
      }
    }
  }

  /** Step 1: the highest level of each id over the four pieces. */
  method HighestOf(armor: ArmorSet) returns (highest: EffectMap)
    ensures highest == Highest(armor)
  {
    var table := new LevelTable();
    MergePiece(table, armor.helmet);
    MergePiece(table, armor.chestplate);
    MergePiece(table, armor.leggings);
    MergePiece(table, armor.boots);
    highest := table.entries;
  }

  /** After `stop` every player starts afresh: the next refresh applies all of its active ids. */
  lemma RefreshAfterStop(uuid: nat, highest: EffectMap, registry: set<EffectId>, id: EffectId)
    requires id in NowActive(highest, registry)
    ensures ApplyCall(uuid, id, Get(highest, id).GetOr(1)) in RefreshCalls(uuid, {}, highest, registry)
  {
  }

  /** `stop` clears exactly the registered active effects of players it finds. */
  lemma StopClears(active: map<nat, set<EffectId>>, found: set<nat>, registry: set<EffectId>, u: nat, id: EffectId)
    ensures ClearCall(u, id) in StopCalls(active, found, registry)
            <==> u in active && u in found && id in active[u] && id in registry
    ensures forall c :: c in StopCalls(active, found, registry) ==> c.ClearCall?
  {
  }
}
