/**
 * RafflePotionEngine: the periodic refresher that turns the raffle effects
 * on a player's armour into hidden vanilla potion effects. Each refresh
 * takes every potion-table entry, resolves its level from the armour by
 * the entry's slot rule and applies the effect unless the player already
 * has a stronger one; every type it applies is recorded in a comma list in
 * the player's container.
 */
module RafflePotionEngine {
  import opened Wrappers
  import opened JavaText
  import opened Items
  import opened RaffleEffectIds
  import opened EffectMaps
  import opened RaffleEffectReader
  import opened RafflePotionTable
  import opened Potions

  // ---------------------------------------------------------------- levels from the armour

  /** `mergeArmor`: a null piece adds nothing, otherwise its effects are merged highest-wins. */
  function MergeArmor(into: EffectMap, piece: Option<Item>): EffectMap {
    if piece.None? then into else Merged(into, ItemEffects(piece))
  }

  /** The `highest` map of one refresh: helmet, chestplate, leggings, boots merged in that order. */
  function Highest(armor: ArmorSet): EffectMap {
    MergeArmor(MergeArmor(MergeArmor(MergeArmor([], armor.helmet), armor.chestplate), armor.leggings), armor.boots)
  }

  /** `readLevelFromPiece`: the level one piece stores for `id`, 0 for a null piece or an absent id. */
  function PieceLevel(piece: Option<Item>, id: EffectId): int {
    if piece.None? then 0 else Get(ItemEffects(piece), id).GetOr(0)
  }

  /** `resolveLevelForSlotRule`: ANY_ARMOR reads the merged map, the others one piece. */
  function ResolveLevel(rule: SlotRule, armor: ArmorSet, highest: EffectMap, id: EffectId): int {
    match rule
    case ANY_ARMOR => Get(highest, id).GetOr(0)
    case HELMET_ONLY => PieceLevel(armor.helmet, id)
    case CHESTPLATE_ONLY => PieceLevel(armor.chestplate, id)
    case LEGGINGS_ONLY => PieceLevel(armor.leggings, id)
    case BOOTS_ONLY => PieceLevel(armor.boots, id)
  }

  /** A stored level is never below 0 (absent reads as 0, present levels are at least 1). */
  lemma PieceLevelNonNegative(piece: Option<Item>, id: EffectId)
    ensures PieceLevel(piece, id) >= 0
    ensures PieceLevel(piece, id) != 0 ==> Get(ItemEffects(piece), id) == Some(PieceLevel(piece, id))
  {
    if piece.Some? {
      var m := ItemEffects(piece);
      if Get(m, id).Some? {
        var i :| 0 <= i < |m| && m[i] == (id, Get(m, id).value);
        assert GoodEntry(m[i]);
      }
    }
  }

  /** Merging one piece raises each id to the higher of its current level and the piece's level. */
  lemma MergeArmorLevel(into: EffectMap, piece: Option<Item>, id: EffectId)
    requires Get(into, id).GetOr(0) >= 0
    ensures Get(MergeArmor(into, piece), id).GetOr(0) == Max(Get(into, id).GetOr(0), PieceLevel(piece, id))
  {
    PieceLevelNonNegative(piece, id);
    if piece.Some? {
      var m := ItemEffects(piece);
      MergedGet(into, m, id);
      if Get(m, id).Some? {
        var i :| 0 <= i < |m| && m[i] == (id, Get(m, id).value);
        assert GoodEntry(m[i]);
      }
    }
  }

  /** An ANY_ARMOR entry sees the highest level any of the four pieces stores for its id. */
  lemma HighestLevel(armor: ArmorSet, id: EffectId)
    ensures Get(Highest(armor), id).GetOr(0)
         == Max(Max(Max(PieceLevel(armor.helmet, id), PieceLevel(armor.chestplate, id)),
                    PieceLevel(armor.leggings, id)), PieceLevel(armor.boots, id))
  {
    var h := MergeArmor([], armor.helmet);
    var c := MergeArmor(h, armor.chestplate);
    var l := MergeArmor(c, armor.leggings);
    PieceLevelNonNegative(armor.helmet, id);
    MergeArmorLevel([], armor.helmet, id);
    MergeArmorLevel(h, armor.chestplate, id);
    MergeArmorLevel(c, armor.leggings, id);
    MergeArmorLevel(l, armor.boots, id);
  }

  /** A *_ONLY rule ignores every piece but its own. */
  lemma OnlyRuleReadsOnePiece(armor: ArmorSet, other: ArmorSet, highest: EffectMap, id: EffectId)
    ensures armor.helmet == other.helmet ==> ResolveLevel(HELMET_ONLY, armor, highest, id) == ResolveLevel(HELMET_ONLY, other, [], id)
    ensures armor.chestplate == other.chestplate ==> ResolveLevel(CHESTPLATE_ONLY, armor, highest, id) == ResolveLevel(CHESTPLATE_ONLY, other, [], id)
    ensures armor.leggings == other.leggings ==> ResolveLevel(LEGGINGS_ONLY, armor, highest, id) == ResolveLevel(LEGGINGS_ONLY, other, [], id)
    ensures armor.boots == other.boots ==> ResolveLevel(BOOTS_ONLY, armor, highest, id) == ResolveLevel(BOOTS_ONLY, other, [], id)
  {
  }

  // ---------------------------------------------------------------- the managed list

  /** `containsToken`: some comma piece, trimmed, equals the token. */
  predicate ContainsToken(csv: string, token: string) {
    var parts := Split(csv, ',');
    exists i :: 0 <= i < |parts| && Trim(parts[i]) == token
  }

  /** `markManaged`: a missing or blank list becomes the token; a listed token changes nothing; otherwise it is appended. */
  function Marked(existing: Option<string>, token: string): string {
    if existing.None? || IsBlank(existing.value) then token
    else if ContainsToken(existing.value, token) then existing.value
    else existing.value + "," + token
  }

  /** A token fit for the list: not blank, without commas, and its own trim. */
  predicate PlainToken(token: string) {
    token != [] && !IsBlank(token) && ',' !in token && Trim(token) == token
  }

  lemma {:induction false} RawSplitAppend(a: string, sep: char, t: string)
    ensures RawSplit(a + [sep] + t, sep) == RawSplit(a, sep) + RawSplit(t, sep)
    decreases |a|
  {
    var s := a + [sep] + t;
    if |a| == 0 {
      assert s[1..] == t;
    } else {
      assert s[1..] == a[1..] + [sep] + t;
      RawSplitAppend(a[1..], sep, t);
    }
  }

  /** The token appended after a comma is the last piece of the split. */
  lemma AppendedTokenIsLastPiece(existing: string, token: string)
    requires PlainToken(token)
    ensures ContainsToken(existing + "," + token, token)
  {
    var s := existing + "," + token;
    assert s == existing + [','] + token;
    assert s[|existing|] == ',';
    RawSplitAppend(existing, ',', token);
    RawSplitNoSep(token, ',');
    var raw := RawSplit(s, ',');
    assert raw[|raw| - 1] == token;
    var parts := Split(s, ',');
    assert parts == DropTrailingEmpty(raw);
    assert parts == raw;
    assert Trim(parts[|parts| - 1]) == token;
  }

  /**
   * After marking, the list holds the token; tokens already listed stay
   * (the old list is a prefix of the new one), and marking again changes
   * nothing.
   */
  lemma MarkedContains(existing: Option<string>, token: string)
    requires PlainToken(token)
    ensures ContainsToken(Marked(existing, token), token)
    ensures existing.Some? && !IsBlank(existing.value) ==> StartsWith(Marked(existing, token), existing.value)
    ensures Marked(Some(Marked(existing, token)), token) == Marked(existing, token)
  {
    assert Split(token, ',') == [token];
    if existing.Some? && !IsBlank(existing.value) && !ContainsToken(existing.value, token) {
      AppendedTokenIsLastPiece(existing.value, token);
      var r := existing.value + "," + token;
      assert r[..|existing.value|] == existing.value;
      BlankPrefix(r, existing.value);
    } else if existing.None? || IsBlank(existing.value) {
      assert Trim(Split(token, ',')[0]) == token;
    }
  }

  lemma BlankPrefix(r: string, e: string)
    requires StartsWith(r, e) && !IsBlank(e)
    ensures !IsBlank(r)
  {
    var i :| 0 <= i < |e| && !IsWhitespace(e[i]);
    assert r[i] == e[i];
  }

  /** The potion types' namespaced keys are plain tokens. */
  lemma KeyNamePlain(t: PotionType)
    ensures PlainToken(KeyName(t))
  {
    var s := KeyName(t);
    KeyNameShape(t);
    TrimKeeps(s);
    assert !IsWhitespace(s[0]);
  }

  lemma KeyNameShape(t: PotionType)
    ensures |KeyName(t)| > 10 && KeyName(t)[0] == 'm' && 'a' <= KeyName(t)[|KeyName(t)| - 1] <= 'z'
    ensures ',' !in KeyName(t)
  {
    match t
    case SPEED => case SLOWNESS => case HASTE => case MINING_FATIGUE => case STRENGTH =>
    case INSTANT_HEALTH => case INSTANT_DAMAGE => case JUMP_BOOST => case NAUSEA => case REGENERATION =>
    case RESISTANCE => case FIRE_RESISTANCE => case WATER_BREATHING => case INVISIBILITY => case BLINDNESS =>
    case NIGHT_VISION => case HUNGER => case WEAKNESS => case POISON => case WITHER =>
    case HEALTH_BOOST => case ABSORPTION => case SATURATION => case GLOWING => case LEVITATION =>
    case LUCK => case UNLUCK => case SLOW_FALLING => case CONDUIT_POWER => case DOLPHINS_GRACE =>
    case BAD_OMEN => case HERO_OF_THE_VILLAGE => case DARKNESS => case TRIAL_OMEN => case RAID_OMEN =>
    case WIND_CHARGED => case WEAVING => case OOZING => case INFESTED =>
  }

  // ---------------------------------------------------------------- applying

  /** The player state the engine changes: active potion effects and the managed list in the container. */
  datatype Wearer = Wearer(effects: ActiveEffects, managed: Option<string>)

  /** The amplifier for a level: level - 1 (not below 0) for a levelable effect, 0 otherwise. */
  function Amplifier(level: int, canLevel: bool): (a: int)
    ensures a >= 0
    ensures !canLevel || level <= 1 ==> a == 0
    ensures level >= 1 ==> a == if canLevel then level - 1 else 0
  {
    if canLevel then Max(0, level - 1) else 0
  }

  /**
   * `applyAuthoritative`: nothing for a level of 0 or less; otherwise the
   * effect is replaced by the hidden one (any duration) unless the current
   * one has a strictly greater amplifier, and its type is marked as managed.
   */
  function Authoritative(st: Wearer, t: PotionType, level: int, duration: int, canLevel: bool): Wearer {
    var amplifier := Amplifier(level, canLevel);
    if level <= 0 then st
    else if t in st.effects && st.effects[t].amplifier > amplifier then st
    else Wearer(st.effects[t := PotionEffect(amplifier, duration)], Some(Marked(st.managed, KeyName(t))))
  }

  /** Only the given type can change. */
  lemma AuthoritativeOthers(st: Wearer, t: PotionType, level: int, duration: int, canLevel: bool, u: PotionType)
    requires u != t
    ensures EffectAt(Authoritative(st, t, level, duration, canLevel), u) == EffectAt(st, u)
  {
  }

  /** A strictly stronger current effect is kept, and nothing is marked. */
  lemma AuthoritativeKeepsStronger(st: Wearer, t: PotionType, level: int, duration: int, canLevel: bool)
    requires t in st.effects && st.effects[t].amplifier > Amplifier(level, canLevel)
    ensures Authoritative(st, t, level, duration, canLevel) == st
  {
  }

  /**
   * Otherwise, for a positive level, the hidden effect is in place with the
   * entry's duration (even over an equal amplifier with a longer one left)
   * and the type is listed as managed.
   */
  lemma AuthoritativeApplies(st: Wearer, t: PotionType, level: int, duration: int, canLevel: bool)
    requires level > 0
    requires !(t in st.effects && st.effects[t].amplifier > Amplifier(level, canLevel))
    ensures var r := Authoritative(st, t, level, duration, canLevel);
            EffectAt(r, t) == Some(PotionEffect(Amplifier(level, canLevel), duration))
            && r.managed.Some? && ContainsToken(r.managed.value, KeyName(t))
  {
    var r := Authoritative(st, t, level, duration, canLevel);
    var tok := KeyName(t);
    assert r.managed == Some(Marked(st.managed, tok));
    KeyNamePlain(t);
    MarkedContains(st.managed, tok);
  }

  function EffectAt(st: Wearer, t: PotionType): Option<PotionEffect> {
    if t in st.effects then Some(st.effects[t]) else None
  }

  /** An amplifier is never lowered and an effect never removed. */
  lemma AuthoritativeNeverDowngrades(st: Wearer, t: PotionType, level: int, duration: int, canLevel: bool, u: PotionType)
    requires u in st.effects
    ensures var r := Authoritative(st, t, level, duration, canLevel);
            u in r.effects && r.effects[u].amplifier >= st.effects[u].amplifier
  {
  }

  /** One table entry in one refresh. A non-levelable effect is applied at level 1. */
  function EntryStep(e: Entry, armor: ArmorSet, highest: EffectMap, st: Wearer): Wearer {
    var level := ResolveLevel(e.slotRule, armor, highest, e.id);
    if level <= 0 then st
    else Authoritative(st, e.potion, if CanLevel(e.id) then level else 1, e.durationTicks, CanLevel(e.id))
  }

  /** The loop over the table entries, in order. */
  function Fold(es: seq<Entry>, armor: ArmorSet, highest: EffectMap, st: Wearer): Wearer
    decreases |es|
  {
    if es == [] then st else Fold(es[1..], armor, highest, EntryStep(es[0], armor, highest, st))
  }

  /** What one `refreshPlayer` of an online player leaves. */
  function Refreshed(armor: ArmorSet, st: Wearer): Wearer {
    Fold(Entries, armor, Highest(armor), st)
  }

  lemma EntryStepOthers(e: Entry, armor: ArmorSet, highest: EffectMap, st: Wearer, u: PotionType)
    requires u != e.potion
    ensures EffectAt(EntryStep(e, armor, highest, st), u) == EffectAt(st, u)
  {
  }

  /**
   * The level an entry acts on: with the current table (two ANY_ARMOR
   * entries) it is the highest level over the four pieces.
   */
  lemma EntryLevel(k: nat, armor: ArmorSet)
    requires k < |Entries|
    ensures ResolveLevel(Entries[k].slotRule, armor, Highest(armor), Entries[k].id)
         == Max(Max(Max(PieceLevel(armor.helmet, Entries[k].id), PieceLevel(armor.chestplate, Entries[k].id)),
                    PieceLevel(armor.leggings, Entries[k].id)), PieceLevel(armor.boots, Entries[k].id))
  {
    HighestLevel(armor, Entries[k].id);
  }

  /**
   * After a refresh, each table entry's potion is what that entry's step
   * alone makes of it, and every other potion type is untouched.
   */
  lemma RefreshedEffects(armor: ArmorSet, st: Wearer, u: PotionType)
    ensures u == HEALTH_BOOST ==> EffectAt(Refreshed(armor, st), u) == EffectAt(EntryStep(Entries[0], armor, Highest(armor), st), u)
    ensures u == FIRE_RESISTANCE ==> EffectAt(Refreshed(armor, st), u) == EffectAt(EntryStep(Entries[1], armor, Highest(armor), st), u)
    ensures u !in {HEALTH_BOOST, FIRE_RESISTANCE} ==> EffectAt(Refreshed(armor, st), u) == EffectAt(st, u)
  {
    var h := Highest(armor);
    var s0 := EntryStep(Entries[0], armor, h, st);
    var s1 := EntryStep(Entries[1], armor, h, s0);
    assert Entries[1..][1..] == [];
    assert Refreshed(armor, st) == s1;
    if u != FIRE_RESISTANCE {
      EntryStepOthers(Entries[1], armor, h, s0, u);
    }
    if u != HEALTH_BOOST {
      EntryStepOthers(Entries[0], armor, h, st, u);
      if u == FIRE_RESISTANCE {
        SameAt(Entries[1], armor, h, s0, st, u);
      }
    }
  }

  /** An entry's step on its own potion depends only on that potion's current effect. */
  lemma SameAt(e: Entry, armor: ArmorSet, highest: EffectMap, a: Wearer, b: Wearer, u: PotionType)
    requires u == e.potion && EffectAt(a, u) == EffectAt(b, u)
    ensures EffectAt(EntryStep(e, armor, highest, a), u) == EffectAt(EntryStep(e, armor, highest, b), u)
  {
  }

  /** A refresh never lowers an amplifier and never removes an effect. */
  lemma {:induction false} FoldNeverDowngrades(es: seq<Entry>, armor: ArmorSet, highest: EffectMap, st: Wearer, u: PotionType)
    requires u in st.effects
    ensures u in Fold(es, armor, highest, st).effects
    ensures Fold(es, armor, highest, st).effects[u].amplifier >= st.effects[u].amplifier
    decreases |es|
  {
    if es != [] {
      var e := es[0];
      var next := EntryStep(e, armor, highest, st);
      var level := ResolveLevel(e.slotRule, armor, highest, e.id);
      if level > 0 {
        AuthoritativeNeverDowngrades(st, e.potion, if CanLevel(e.id) then level else 1, e.durationTicks, CanLevel(e.id), u);
      }
      FoldNeverDowngrades(es[1..], armor, highest, next, u);
    }
  }

  /** Armour without any raffle level for an entry leaves that entry's potion alone. */
  lemma NoLevelNoEffect(k: nat, armor: ArmorSet, highest: EffectMap, st: Wearer)
    requires k < |Entries| && ResolveLevel(Entries[k].slotRule, armor, highest, Entries[k].id) <= 0
    ensures EntryStep(Entries[k], armor, highest, st) == st
  {
  }

  // ---------------------------------------------------------------- the engine

  /** The parts of a player the engine reads and changes. */
  class Player {
    var online: bool
    var armor: ArmorSet
    var effects: ActiveEffects
    var managed: Option<string>

    constructor(online: bool, armor: ArmorSet, effects: ActiveEffects, managed: Option<string>)
      ensures this.online == online && this.armor == armor && this.effects == effects && this.managed == managed
    {
      this.online := online;
      this.armor := armor;
      this.effects := effects;
      this.managed := managed;
    }

    function State(): Wearer
      reads this
    {
      Wearer(effects, managed)
    }
  }

  class Engine {
    /** Whether the repeating refresh task is scheduled (`task != null`). */
    var running: bool

    constructor()
      ensures !running
    {
      running := false;
    }

    /** `start`: any earlier task is stopped and one new task is scheduled. */
    method Start()
      modifies this
      ensures running
    {
      Stop();
      running := true;
    }

    /** `stop`: the task is cancelled and forgotten. */
    method Stop()
      modifies this
      ensures !running
    {
      running := false;
    }

    /** `refreshPlayer`: a null or offline player is skipped. */
    method RefreshPlayer(p: Player?)
      modifies p
      ensures p != null ==> p.online == old(p.online) && p.armor == old(p.armor)
      ensures p != null && old(p.online) ==> p.State() == Refreshed(p.armor, old(p.State()))
      ensures p != null && !old(p.online) ==> p.State() == old(p.State())
    {
      if p == null || !p.online {
        return;
      }
      var table := new LevelTable();
      MergePiece(table, p.armor.helmet);
      MergePiece(table, p.armor.chestplate);
      MergePiece(table, p.armor.leggings);
      MergePiece(table, p.armor.boots);
      var highest := table.entries;
      assert highest == Highest(p.armor);
      var i := 0;
      while i < |Entries|
        invariant 0 <= i <= |Entries|
        invariant p.online == old(p.online) && p.armor == old(p.armor)
        invariant Fold(Entries[i..], p.armor, highest, p.State()) == Refreshed(p.armor, old(p.State()))
      {
        assert Entries[i..][1..] == Entries[i + 1..];
        var e := Entries[i];
        var level := ResolveLevelFor(p, e, highest);
        if level > 0 {
          if !CanLevel(e.id) {
            level := 1;
          }
          ApplyAuthoritative(p, e.potion, level, e.durationTicks, CanLevel(e.id));
        }
        i := i + 1;
      }
    }
  }

  method MergePiece(into: LevelTable, piece: Option<Item>)
    modifies into
    ensures into.entries == MergeArmor(old(into.entries), piece)
  {
    if piece.None? {
      return;
    }
    var m := ReadFromItem(piece);
    MergeHighest(into, Some(m));
  }

  method ResolveLevelFor(p: Player, e: Entry, highest: EffectMap) returns (level: int)
    ensures level == ResolveLevel(e.slotRule, p.armor, highest, e.id)
  {
    match e.slotRule
    case ANY_ARMOR => level := Get(highest, e.id).GetOr(0);
    case HELMET_ONLY => level := ReadLevelFromPiece(p.armor.helmet, e.id);
    case CHESTPLATE_ONLY => level := ReadLevelFromPiece(p.armor.chestplate, e.id);
    case LEGGINGS_ONLY => level := ReadLevelFromPiece(p.armor.leggings, e.id);
    case BOOTS_ONLY => level := ReadLevelFromPiece(p.armor.boots, e.id);
  }

  method ReadLevelFromPiece(piece: Option<Item>, id: EffectId) returns (level: int)
    ensures level == PieceLevel(piece, id)
  {
    if piece.None? {
      return 0;
    }
    var m := ReadFromItem(piece);
    level := Get(m, id).GetOr(0);
  }

  /** `applyAuthoritative` on the player, followed by `markManaged`. */
  method ApplyAuthoritative(p: Player, t: PotionType, level: int, duration: int, canLevel: bool)
    modifies p
    ensures p.State() == Authoritative(old(p.State()), t, level, duration, canLevel)
    ensures p.online == old(p.online) && p.armor == old(p.armor)
  {
    if level <= 0 {
      return;
    }
    var amplifier := if canLevel then Max(0, level - 1) else 0;
    if t in p.effects && p.effects[t].amplifier > amplifier {
      return;
    }
    p.effects := p.effects[t := PotionEffect(amplifier, duration)];
    MarkManaged(p, t);
  }

  method MarkManaged(p: Player, t: PotionType)
    modifies p
    ensures p.managed == Some(Marked(old(p.managed), KeyName(t)))
    ensures p.effects == old(p.effects) && p.online == old(p.online) && p.armor == old(p.armor)
  {
    var existing := p.managed;
    var token := KeyName(t);
    if existing.None? || IsBlank(existing.value) {
      p.managed := Some(token);
      return;
    }
    if ContainsToken(existing.value, token) {
      return;
    }
    p.managed := Some(existing.value + "," + token);
  }
}
