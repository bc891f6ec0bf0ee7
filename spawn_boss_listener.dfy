/**
 * The spawn listener: the one-in-N roll and the type whitelist that turn a
 * freshly spawned mob into a boss, the boss setup that follows (stats, the
 * local spawn message, the despawn task), the message template, and the
 * despawn task that removes an idle boss or reschedules itself.
 *
 * `ThreadLocalRandom.nextInt(oneIn)` is the parameter `roll`; whether a
 * player is near and whether the mob has a target are parameters, since
 * they come from the world.
 */
module SpawnBosses {
  import opened Wrappers
  import opened JavaText
  import opened Items
  import opened Configs
  import ChatColors
  import BossAppliers
  import BossManagers
  import Affixes

  // ---------------------------------------------------------------- the spawn roll

  /** `getWhitelist`: each non-blank entry of `mobs.whitelist`, trimmed and upper-cased. */
  function WhitelistOf(list: seq<string>): set<string> {
    set s | s in list && !IsBlank(s) :: ToUpper(Trim(s))
  }

  /** The loop of `getWhitelist`. */
  method GetWhitelist(cfg: Config) returns (allowed: set<string>)
    ensures allowed == WhitelistOf(CfgStringList(cfg, "mobs.whitelist"))
  {
    var list := CfgStringList(cfg, "mobs.whitelist");
    allowed := {};
    for i := 0 to |list|
      invariant allowed == WhitelistOf(list[..i])
    {
      assert list[..i + 1] == list[..i] + [list[i]];
      if !IsBlank(list[i]) {
        allowed := allowed + {ToUpper(Trim(list[i]))};
      }
    }
    assert list[..|list|] == list;
  }

  /** `spawn.one_in`, at least 1. */
  function OneIn(cfg: Config): (r: int)
    ensures r >= 1
    ensures CfgLong(cfg, "spawn.one_in", 250) >= 1 ==> r == CfgLong(cfg, "spawn.one_in", 250)
  {
    Max(1, CfgLong(cfg, "spawn.one_in", 250))
  }

  /** The decision of `shouldBecomeBoss` for a roll of `nextInt(OneIn(cfg))` and the mob's type name. */
  predicate BecomesBoss(cfg: Config, roll: int, typeName: string) {
    var allowed := WhitelistOf(CfgStringList(cfg, "mobs.whitelist"));
    roll == 0 && (allowed == {} || ToUpper(typeName) in allowed)
  }

  /** `shouldBecomeBoss`. */
  method ShouldBecomeBoss(cfg: Config, roll: int, typeName: string) returns (b: bool)
    ensures b == BecomesBoss(cfg, roll, typeName)
  {
    if roll != 0 {
      return false;
    }
    var allowed := GetWhitelist(cfg);
    if allowed != {} {
      var t := ToUpper(typeName);
      if t !in allowed {
        return false;
      }
    }
    return true;
  }

  // ---------------------------------------------------------------- the message template

  /** The rank's label: "Boss" without a rank, else `ranks.<rank>.label` defaulting to the rank. */
  function RankLabel(cfg: Config, rank: Option<string>): (r: string)
    ensures rank.None? ==> r == "Boss"
    ensures rank.Some? && "ranks." + rank.value + ".label" !in cfg.strings ==> r == rank.value
  {
    if rank.None? then "Boss" else CfgString(cfg, "ranks." + rank.value + ".label", rank.value)
  }

  /** The rank's colour code: `ranks.<rank>.color`, "&c" without a rank or a configured one. */
  function RankColor(cfg: Config, rank: Option<string>): (r: string)
    ensures rank.None? || "ranks." + rank.value + ".color" !in cfg.strings ==> r == "&c"
  {
    if rank.None? then "&c" else CfgString(cfg, "ranks." + rank.value + ".color", "&c")
  }

  /** The title part: the title in brackets and a space, or nothing for no title or a blank one. */
  function TitlePart(title: Option<string>): (r: string)
    ensures title.None? || IsBlank(title.value) ==> r == ""
    ensures title.Some? && !IsBlank(title.value) ==>
              |r| == |title.value| + 3 && r[0] == '[' && r[1..|r| - 2] == title.value && r[|r| - 2..] == "] "
  {
    if title.Some? && !IsBlank(title.value) then "[" + title.value + "] " else ""
  }

  /** `ranks.<rank>.xp_multiplier`, 1.0 without a rank. */
  function RankXp(cfg: Config, rank: Option<string>): real {
    if rank.None? then 1.0 else CfgDouble(cfg, "ranks." + rank.value + ".xp_multiplier", 1.0)
  }

  /** `String.valueOf((int) Math.round(rankXp))`. */
  function RankXpText(cfg: Config, rank: Option<string>): string {
    IntToString(Affixes.NarrowToInt(Affixes.RoundToLong(RankXp(cfg, rank))))
  }

  /** A type name that `prettyMobName` treats as blank: only whitespace and '_'. */
  predicate BlankName(s: string) {
    forall i :: 0 <= i < |s| ==> IsWhitespace(s[i]) || s[i] == '_'
  }

  /** `prettyMobName`: lower-cased, '_' as ' ', the first character upper-cased; "Mob" when blank. */
  function MobName(typeName: string): (r: string)
    ensures BlankName(typeName) ==> r == "Mob"
    ensures !BlankName(typeName) ==> |r| == |typeName|
    ensures !BlankName(typeName) ==> forall i :: 0 <= i < |r| ==> r[i] != '_'
    ensures !BlankName(typeName) ==> !('a' <= r[0] <= 'z') && forall i :: 1 <= i < |r| ==> !('A' <= r[i] <= 'Z')
  {
    var raw := ReplaceChar(ToLower(typeName), '_', ' ');
    BlankLowered(typeName);
    ToLowerAt(typeName);
    if IsBlank(raw) then "Mob" else [UpperChar(raw[0])] + raw[1..]
  }

  /** After lower-casing and replacing '_' by ' ', a name is blank exactly when it is a `BlankName`. */
  lemma BlankLowered(s: string)
    ensures IsBlank(ReplaceChar(ToLower(s), '_', ' ')) == BlankName(s)
  {
    ToLowerAt(s);
    var raw := ReplaceChar(ToLower(s), '_', ' ');
    assert forall i :: 0 <= i < |s| ==> (IsWhitespace(raw[i]) <==> IsWhitespace(s[i]) || s[i] == '_');
  }

  /** `formatMessage`: the placeholders of `format` filled in for a boss, then the `&` codes translated. */
  function FormatMessage(cfg: Config, pdc: Pdc, typeName: string, format: string): string {
    var rank := GetString(pdc, BossAppliers.RANK_KEY);
    var title := GetString(pdc, BossAppliers.TITLE_KEY);
    var s1 := Replace(format, "{rank}", rank.GetOr(""));
    var s2 := Replace(s1, "{rank_label}", RankLabel(cfg, rank));
    var s3 := Replace(s2, "{rank_color}", RankColor(cfg, rank));
    var s4 := Replace(s3, "{title}", TitlePart(title));
    var s5 := Replace(s4, "{mob}", MobName(typeName));
    ChatColors.Translate('&', Replace(s5, "{rank_xp}", RankXpText(cfg, rank)))
  }

  const SPAWN_FORMAT: string := "&6A {rank_color}[{rank_label}] &r{title}{mob} &6has appeared!"
  const DESPAWN_FORMAT: string := "&7Faded: {rank_color}[{rank_label}] &r{title}{mob}"

  /** Whether spawn (`kind` "spawn") or despawn messages are on: both toggles, true when missing. */
  predicate MessagesOn(cfg: Config, kind: string) {
    CfgBoolean(cfg, "messages.enabled", true) && CfgBoolean(cfg, "messages." + kind + ".enabled", true)
  }

  /** The configured template of a kind of message. */
  function MessageFormat(cfg: Config, kind: string, def: string): string {
    CfgString(cfg, "messages." + kind + ".format", def)
  }

  // ---------------------------------------------------------------- despawn

  /** The despawn delay in ticks: `despawn.after_seconds`, at least 10, times 20. */
  function DespawnDelayTicks(cfg: Config): (r: int)
    ensures r >= 200 && r % 20 == 0
    ensures CfgLong(cfg, "despawn.after_seconds", 300) >= 10 ==> r == CfgLong(cfg, "despawn.after_seconds", 300) * 20
  {
    Max(10, CfgLong(cfg, "despawn.after_seconds", 300)) * 20
  }

  /** What a despawn task does when it runs. */
  datatype DespawnAction = Cancel | Reschedule | Remove

  /**
   * The despawn task: a boss that is gone only has its task cancelled; one
   * with a player near, or with a target while `despawn.require_no_target`
   * holds, is rescheduled; any other is removed.
   */
  function DespawnDecision(cfg: Config, valid: bool, dead: bool, playerNear: bool, hasTarget: bool): DespawnAction {
    if !valid || dead then Cancel
    else if playerNear || (CfgBoolean(cfg, "despawn.require_no_target", true) && hasTarget) then Reschedule
    else Remove
  }

  /** A boss the listener works on: its id, its entity (data and type), and whether it is valid and dead. */
  datatype SpawnedMob = SpawnedMob(id: string, valid: bool, dead: bool)

  class SpawnBossListener {
    /** The plugin's boss manager, which keeps the despawn tasks. */
    const manager: BossManagers.BossManager
    /** The messages broadcast around bosses, in order. */
    var broadcasts: seq<string>
    /** The ids of the bosses the despawn task removed, in order. */
    var removed: seq<string>
    /** The id the next scheduled task gets. */
    var nextTask: nat

    constructor(manager: BossManagers.BossManager)
      ensures this.manager == manager && broadcasts == [] && removed == [] && nextTask == 0
    {
      this.manager := manager;
      broadcasts := [];
      removed := [];
      nextTask := 0;
    }

    /** `maybeBroadcastSpawn` and `maybeBroadcastDespawn`: the formatted message when the toggles allow it. */
    method MaybeBroadcast(cfg: Config, kind: string, def: string, mob: BossAppliers.Mob)
      modifies this`broadcasts
      ensures broadcasts == old(broadcasts)
                            + (if MessagesOn(cfg, kind)
                               then [FormatMessage(cfg, mob.pdc, mob.entityType, MessageFormat(cfg, kind, def))]
                               else [])
    {
      if !CfgBoolean(cfg, "messages.enabled", true) {
        return;
      }
      if !CfgBoolean(cfg, "messages." + kind + ".enabled", true) {
        return;
      }
      var format := MessageFormat(cfg, kind, def);
      broadcasts := broadcasts + [FormatMessage(cfg, mob.pdc, mob.entityType, format)];
    }

    /**
     * `maybeScheduleDespawn`: when `despawn.enabled` holds, a new task runs
     * after `DespawnDelayTicks` and replaces the boss's earlier one.
     */
    method MaybeScheduleDespawn(cfg: Config, bossId: string) returns (delay: Option<int>)
      modifies this`nextTask, manager`despawnTasks, manager`cancelled
      ensures !CfgBoolean(cfg, "despawn.enabled", true) ==>
                delay == None && nextTask == old(nextTask)
                && manager.despawnTasks == old(manager.despawnTasks) && manager.cancelled == old(manager.cancelled)
      ensures CfgBoolean(cfg, "despawn.enabled", true) ==>
                delay == Some(DespawnDelayTicks(cfg)) && nextTask == old(nextTask) + 1
                && manager.despawnTasks == old(manager.despawnTasks)[bossId := old(nextTask)]
                && manager.cancelled == old(manager.cancelled)
                                        + (if bossId in old(manager.despawnTasks)
                                           then {old(manager.despawnTasks)[bossId]} else {})
    {
      if !CfgBoolean(cfg, "despawn.enabled", true) {
        return None;
      }
      var task := nextTask;
      nextTask := nextTask + 1;
      manager.ScheduleBossDespawn(bossId, task);
      delay := Some(DespawnDelayTicks(cfg));
    }

    /**
     * `onBossCreated`: nothing for a mob that is not valid or is dead;
     * otherwise the boss stats are applied, the spawn message goes out and
     * the despawn task is scheduled.
     */
    method OnBossCreated(bc: BossAppliers.BossConfig, m: SpawnedMob, mob: BossAppliers.Mob,
                         rankDraw: nat, affixDraws: nat -> nat) returns (delay: Option<int>)
      modifies mob, this`broadcasts, this`nextTask, manager`despawnTasks, manager`cancelled
      ensures !m.valid || m.dead ==>
                delay == None && mob.pdc == old(mob.pdc) && broadcasts == old(broadcasts)
                && nextTask == old(nextTask) && manager.despawnTasks == old(manager.despawnTasks)
      ensures m.valid && !m.dead ==>
                (!BossAppliers.IsBoss(old(mob.pdc)) ==>
                   mob.pdc == BossAppliers.BossStatsPdc(bc, old(mob.pdc), rankDraw, affixDraws))
                && (BossAppliers.IsBoss(old(mob.pdc)) ==> mob.pdc == old(mob.pdc))
                && broadcasts == old(broadcasts)
                                 + (if MessagesOn(bc.cfg, "spawn")
                                    then [FormatMessage(bc.cfg, mob.pdc, mob.entityType,
                                                        MessageFormat(bc.cfg, "spawn", SPAWN_FORMAT))]
                                    else [])
                && (CfgBoolean(bc.cfg, "despawn.enabled", true) ==>
                      delay == Some(DespawnDelayTicks(bc.cfg))
                      && manager.despawnTasks == old(manager.despawnTasks)[m.id := old(nextTask)])
                && (!CfgBoolean(bc.cfg, "despawn.enabled", true) ==>
                      delay == None && manager.despawnTasks == old(manager.despawnTasks))
    {
      if !m.valid || m.dead {
        return None;
      }
      BossAppliers.ApplyBossStats(bc, mob, rankDraw, affixDraws);
      MaybeBroadcast(bc.cfg, "spawn", SPAWN_FORMAT, mob);
      delay := MaybeScheduleDespawn(bc.cfg, m.id);
    }

    /**
     * `onMobSpawn`: a living mob that is not a boss yet becomes one when the
     * roll and the whitelist allow it.
     */
    method OnMobSpawn(bc: BossAppliers.BossConfig, living: bool, m: SpawnedMob, mob: BossAppliers.Mob, roll: int,
                      rankDraw: nat, affixDraws: nat -> nat) returns (created: bool)
      modifies mob, this`broadcasts, this`nextTask, manager`despawnTasks, manager`cancelled
      ensures created == (living && !BossAppliers.IsBoss(old(mob.pdc)) && BecomesBoss(bc.cfg, roll, mob.entityType))
      ensures !created ==>
                mob.pdc == old(mob.pdc) && broadcasts == old(broadcasts) && nextTask == old(nextTask)
                && manager.despawnTasks == old(manager.despawnTasks) && manager.cancelled == old(manager.cancelled)
      ensures created && m.valid && !m.dead ==>
                mob.pdc == BossAppliers.BossStatsPdc(bc, old(mob.pdc), rankDraw, affixDraws)
    {
      if !living || BossAppliers.IsBoss(mob.pdc) {
        return false;
      }
      created := ShouldBecomeBoss(bc.cfg, roll, mob.entityType);
      if created {
        var _ := OnBossCreated(bc, m, mob, rankDraw, affixDraws);
      }
    }

    /**
     * The despawn task of a boss when it runs: a boss that is gone has its
     * task cancelled; one still in play is rescheduled; any other gets the
     * despawn message, is removed, and has its task cancelled.
     */
    method RunDespawnTask(cfg: Config, m: SpawnedMob, mob: BossAppliers.Mob, playerNear: bool, hasTarget: bool)
      returns (action: DespawnAction)
      modifies this`broadcasts, this`removed, this`nextTask, manager`despawnTasks, manager`cancelled
      ensures action == DespawnDecision(cfg, m.valid, m.dead, playerNear, hasTarget)
      ensures action == Cancel ==>
                manager.despawnTasks == old(manager.despawnTasks) - {m.id}
                && broadcasts == old(broadcasts) && removed == old(removed)
      ensures action == Reschedule ==>
                removed == old(removed) && broadcasts == old(broadcasts)
                && (CfgBoolean(cfg, "despawn.enabled", true) ==>
                      manager.despawnTasks == old(manager.despawnTasks)[m.id := old(nextTask)])
                && (!CfgBoolean(cfg, "despawn.enabled", true) ==> manager.despawnTasks == old(manager.despawnTasks))
      ensures action == Remove ==>
                removed == old(removed) + [m.id]
                && manager.despawnTasks == old(manager.despawnTasks) - {m.id}
                && broadcasts == old(broadcasts)
                                 + (if MessagesOn(cfg, "despawn")
                                    then [FormatMessage(cfg, mob.pdc, mob.entityType,
                                                        MessageFormat(cfg, "despawn", DESPAWN_FORMAT))]
                                    else [])
    {
      if !m.valid || m.dead {
        manager.CancelBossDespawn(m.id);
        return Cancel;
      }
      var requireNoTarget := CfgBoolean(cfg, "despawn.require_no_target", true);
      if playerNear || (requireNoTarget && hasTarget) {
        var _ := MaybeScheduleDespawn(cfg, m.id);
        return Reschedule;
      }
      MaybeBroadcast(cfg, "despawn", DESPAWN_FORMAT, mob);
      removed := removed + [m.id];
      manager.CancelBossDespawn(m.id);
      return Remove;
    }
  }

  // ---------------------------------------------------------------- properties

  /** A whitelist entry matches every type name equal to its trim ignoring case. */
  lemma WhitelistMatches(list: seq<string>, s: string, typeName: string)
    requires s in list && !IsBlank(s) && EqualsIgnoreCase(Trim(s), typeName)
    ensures ToUpper(typeName) in WhitelistOf(list)
  {
  }

  /** The whitelist holds no lower-case ASCII letter, so lower-case type names never match it directly. */
  lemma WhitelistUpper(list: seq<string>, x: string)
    requires x in WhitelistOf(list)
    ensures IsUpperForm(x)
  {
    var s :| s in list && !IsBlank(s) && x == ToUpper(Trim(s));
    ToUpperAt(Trim(s));
  }

  /**
   * Only the roll 0 of the `OneIn` possible rolls makes a boss; with it an
   * empty whitelist lets every type through and any other only the types
   * it lists, in any case.
   */
  lemma SpawnRule(cfg: Config, roll: int, typeName: string)
    ensures BecomesBoss(cfg, roll, typeName) ==> roll == 0
    ensures WhitelistOf(CfgStringList(cfg, "mobs.whitelist")) == {} ==> BecomesBoss(cfg, 0, typeName)
    ensures WhitelistOf(CfgStringList(cfg, "mobs.whitelist")) != {} ==>
              (BecomesBoss(cfg, 0, typeName) <==> ToUpper(typeName) in WhitelistOf(CfgStringList(cfg, "mobs.whitelist")))
  {
  }

  /** No occurrence is possible without the target's first character. */
  lemma {:induction false} AbsentFirst(s: string, sub: string)
    requires |sub| > 0 && sub[0] !in s
    ensures !Contains(s, sub)
    decreases |s|
  {
    if s != [] {
      assert s[1..] <= s[1..] && forall c :: c in s[1..] ==> c in s;
      AbsentFirst(s[1..], sub);
    }
  }

  /** A template without '{' and '&' comes out as it is. */
  lemma FormatPlain(cfg: Config, pdc: Pdc, typeName: string, format: string)
    requires '{' !in format && '&' !in format
    ensures FormatMessage(cfg, pdc, typeName, format) == format
  {
    AbsentFirst(format, "{rank}");
    ReplaceAbsent(format, "{rank}", GetString(pdc, BossAppliers.RANK_KEY).GetOr(""));
    AbsentFirst(format, "{rank_label}");
    AbsentFirst(format, "{rank_color}");
    AbsentFirst(format, "{title}");
    AbsentFirst(format, "{mob}");
    AbsentFirst(format, "{rank_xp}");
    var rank := GetString(pdc, BossAppliers.RANK_KEY);
    ReplaceAbsent(format, "{rank_label}", RankLabel(cfg, rank));
    ReplaceAbsent(format, "{rank_color}", RankColor(cfg, rank));
    ReplaceAbsent(format, "{title}", TitlePart(GetString(pdc, BossAppliers.TITLE_KEY)));
    ReplaceAbsent(format, "{mob}", MobName(typeName));
    ReplaceAbsent(format, "{rank_xp}", RankXpText(cfg, rank));
    ChatColors.TranslatePlain('&', format);
  }

  /** The `{rank_xp}` text reads back as the rounded multiplier whenever that fits an `int`. */
  lemma RankXpReadsBack(cfg: Config, rank: Option<string>)
    requires IsInt32(Affixes.RoundToLong(RankXp(cfg, rank)))
    ensures ParseInt(RankXpText(cfg, rank)) == Some(Affixes.RoundToLong(RankXp(cfg, rank)))
  {
    ParseIntToString(Affixes.RoundToLong(RankXp(cfg, rank)));
  }

  /** The despawn task removes a boss exactly when it is in play, no player is near and no target holds it. */
  lemma DespawnRule(cfg: Config, valid: bool, dead: bool, playerNear: bool, hasTarget: bool)
    ensures DespawnDecision(cfg, valid, dead, playerNear, hasTarget) == Remove
            <==> valid && !dead && !playerNear && !(CfgBoolean(cfg, "despawn.require_no_target", true) && hasTarget)
    ensures DespawnDecision(cfg, valid, dead, playerNear, hasTarget) == Cancel <==> !valid || dead
  {
  }
}
