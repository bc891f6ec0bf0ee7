/**
 * The older boss applier: the boss flag, rank, affix list and title a
 * boss carries in its persistent data, the weighted rank roll, the
 * weighted unique affix selection and the title built from the first two
 * affix words.
 */
module BossAppliers {
  import opened Wrappers
  import opened JavaText
  import opened Items
  import opened Configs
  import opened WeightedPicks

  const BOSS_KEY: string := "is_boss"
  const RANK_KEY: string := "rank"
  const AFFIXES_KEY: string := "affixes"
  const TITLE_KEY: string := "title"

  /**
   * The configuration the applier reads: the flat values, the keys of the
   * `ranks` section and of the `affixes.pool` section (None when the
   * section is missing).
   */
  datatype BossConfig = BossConfig(cfg: Config, rankIds: Option<seq<string>>, poolIds: Option<seq<string>>)

  // ---------------------------------------------------------------- flags and simple setters

  /** `isBoss`: the BYTE under the boss key is 1. */
  predicate IsBoss(pdc: Pdc) {
    GetByte(pdc, BOSS_KEY) == Some(1)
  }

  /** `markBoss`. */
  function MarkBoss(pdc: Pdc): Pdc {
    pdc[BOSS_KEY := PByte(1)]
  }

  /** `unmarkBoss`. */
  function UnmarkBoss(pdc: Pdc): Pdc {
    pdc - {BOSS_KEY}
  }

  /** `setRank`: removed for a null or blank rank, otherwise stored trimmed and upper-cased. */
  function SetRank(pdc: Pdc, rank: Option<string>): Pdc {
    if rank.None? || IsBlank(rank.value) then pdc - {RANK_KEY}
    else pdc[RANK_KEY := PStr(ToUpper(Trim(rank.value)))]
  }

  /** One element of a `setAffixes` list, trimmed and lower-cased; None for null or empty. */
  function CleanId(a: Option<string>): Option<string> {
    if a.None? then None
    else
      var id := ToLower(Trim(a.value));
      if id == [] then None else Some(id)
  }

  /** The cleaned list `setAffixes` builds. */
  function Cleaned(affixes: seq<Option<string>>): seq<string>
    decreases |affixes|
  {
    if affixes == [] then []
    else
      var c := CleanId(affixes[|affixes| - 1]);
      Cleaned(affixes[..|affixes| - 1]) + (if c.Some? then [c.value] else [])
  }

  /**
   * `setAffixes`: a null, empty or wholly blank list removes the affixes and
   * the title; otherwise the cleaned ids are stored comma-joined and the
   * title removed so that it is rebuilt.
   */
  function AffixesSet(pdc: Pdc, affixes: Option<seq<Option<string>>>): Pdc {
    if affixes.None? || affixes.value == [] then pdc - {AFFIXES_KEY, TITLE_KEY}
    else
      var cleaned := Cleaned(affixes.value);
      if cleaned == [] then pdc - {AFFIXES_KEY, TITLE_KEY}
      else pdc[AFFIXES_KEY := PStr(Join(cleaned, ','))] - {TITLE_KEY}
  }

  /** `isValidAffix`: a non-blank id whose trimmed, lower-cased form names a pool section. */
  predicate IsValidAffix(bc: BossConfig, id: Option<string>) {
    id.Some? && !IsBlank(id.value) && bc.poolIds.Some? && ToLower(Trim(id.value)) in bc.poolIds.value
  }

  // ---------------------------------------------------------------- ranks

  /** The rank has a section of its own under `ranks`. */
  predicate HasRankSection(bc: BossConfig, rankId: Option<string>) {
    rankId.Some? && !IsBlank(rankId.value) && bc.rankIds.Some? && rankId.value in bc.rankIds.value
  }

  /** The global `affixes.max_per_boss`, at least 0. */
  function MaxAffixesFallback(bc: BossConfig): int {
    Max(0, CfgLong(bc.cfg, "affixes.max_per_boss", 0))
  }

  /** `getMaxAffixesForRank`: the rank's `max_affixes` when it has a section, else the global value; never negative. */
  function MaxAffixesForRank(bc: BossConfig, rankId: Option<string>): (r: int)
    ensures r >= 0
    ensures !HasRankSection(bc, rankId) ==> r == MaxAffixesFallback(bc)
    ensures HasRankSection(bc, rankId) && CfgLong(bc.cfg, "ranks." + rankId.value + ".max_affixes", 0) >= 0
            && "ranks." + rankId.value + ".max_affixes" in bc.cfg.longs
            ==> r == CfgLong(bc.cfg, "ranks." + rankId.value + ".max_affixes", 0)
  {
    var fallback := MaxAffixesFallback(bc);
    if rankId.None? || IsBlank(rankId.value) then fallback
    else if !HasRankSection(bc, rankId) then fallback
    else Max(0, CfgLong(bc.cfg, "ranks." + rankId.value + ".max_affixes", fallback))
  }

  /** A rank's weight, at least 0. */
  function RankWeight(cfg: Config, id: string): int {
    Max(0, CfgLong(cfg, "ranks." + id + ".weight", 0))
  }

  /** An affix's weight (1 when unset), at least 0. */
  function PoolWeight(cfg: Config, id: string): int {
    Max(0, CfgLong(cfg, "affixes.pool." + id + ".weight", 1))
  }

  /** The entries of a section's keys whose weight is positive, in order, with the entry name the loop gives them. */
  function Positive(ids: seq<string>, name: string -> string, weight: string -> int): (r: seq<Entry>)
    ensures |r| <= |ids|
    decreases |ids|
  {
    if ids == [] then []
    else
      var id := ids[|ids| - 1];
      Positive(ids[..|ids| - 1], name, weight) + (if weight(id) > 0 then [Entry(name(id), weight(id))] else [])
  }

  /**
   * The entries all have positive weight and come from the keys; there is
   * none exactly when no key has a positive weight.
   */
  lemma {:induction false} PositiveFrom(ids: seq<string>, name: string -> string, weight: string -> int)
    ensures PositiveWeights(Positive(ids, name, weight))
    ensures forall i :: 0 <= i < |Positive(ids, name, weight)| ==>
              exists id :: id in ids && Positive(ids, name, weight)[i] == Entry(name(id), weight(id))
    ensures Positive(ids, name, weight) == [] <==> forall id :: id in ids ==> weight(id) <= 0
    decreases |ids|
  {
    if ids != [] {
      var id := ids[|ids| - 1];
      var front := ids[..|ids| - 1];
      PositiveFrom(front, name, weight);
      assert forall x :: x in ids <==> x in front || x == id;
      var r := Positive(ids, name, weight);
      forall i | 0 <= i < |r|
        ensures exists y :: y in ids && r[i] == Entry(name(y), weight(y))
      {
        if i < |Positive(front, name, weight)| {
          var y :| y in front && Positive(front, name, weight)[i] == Entry(name(y), weight(y));
          assert y in ids;
        } else {
          assert r[i] == Entry(name(id), weight(id)) && id in ids;
        }
      }
    }
  }

  function RankName(): string -> string { (id: string) => id }
  function RankWeigher(cfg: Config): string -> int { (id: string) => RankWeight(cfg, id) }
  function PoolName(): string -> string { (id: string) => ToLower(id) }
  function PoolWeigher(cfg: Config): string -> int { (id: string) => PoolWeight(cfg, id) }

  /** The loop that collects the positive-weight entries. */
  method PositiveEntries(ids: seq<string>, name: string -> string, weight: string -> int) returns (entries: seq<Entry>)
    ensures entries == Positive(ids, name, weight)
  {
    entries := [];
    var i := 0;
    while i < |ids|
      invariant 0 <= i <= |ids|
      invariant entries == Positive(ids[..i], name, weight)
    {
      assert ids[..i + 1][..i] == ids[..i];
      var w := weight(ids[i]);
      if w > 0 {
        entries := entries + [Entry(name(ids[i]), w)];
      }
      i := i + 1;
    }
    assert ids[..|ids|] == ids;
  }

  /**
   * `rollRankId` with the random draw `draw` (the roll is `draw % total`):
   * None without a `ranks` section or without a positive weight.
   */
  function RolledRank(bc: BossConfig, draw: nat): Option<string> {
    if bc.rankIds.None? then None
    else
      var es := Positive(bc.rankIds.value, RankName(), RankWeigher(bc.cfg));
      if es == [] then None
      else
        var total := Sum(es);
        if total <= 0 then None
        else
          var k := Pick(es, draw % total);
          if k >= 0 then Some(es[k].id) else Some(es[|es| - 1].id)
  }

  method RollRankId(bc: BossConfig, draw: nat) returns (r: Option<string>)
    ensures r == RolledRank(bc, draw)
  {
    if bc.rankIds.None? {
      return None;
    }
    var entries := PositiveEntries(bc.rankIds.value, RankName(), RankWeigher(bc.cfg));
    if entries == [] {
      return None;
    }
    var total := TotalWeight(entries);
    if total <= 0 {
      return None;
    }
    var roll := draw % total;
    var picked := PickIndex(entries, roll);
    if picked >= 0 {
      return Some(entries[picked].id);
    }
    return Some(entries[|entries| - 1].id);
  }

  // ---------------------------------------------------------------- affixes

  /** The ids the selection loop picks, from its `i`-th round on, each round drawing `draws(i)`. */
  function Select(es: seq<Entry>, max: int, draws: nat -> nat, i: nat): seq<string>
    decreases max - i
  {
    if i >= max || es == [] then []
    else
      var total := Sum(es);
      if total <= 0 then []
      else
        var k := Pick(es, draws(i) % total);
        if k >= 0 then [es[k].id] + Select(RemoveAt(es, k), max, draws, i + 1)
        else Select(es, max, draws, i + 1)
  }

  /**
   * `applyAffixSelection`: nothing when affixes are disabled, the maximum is
   * not positive, the boss already has affixes, there is no pool or no
   * positive weight; otherwise the picked ids are stored comma-joined.
   */
  function AffixSelected(bc: BossConfig, pdc: Pdc, max: int, draws: nat -> nat): Pdc {
    if !CfgBoolean(bc.cfg, "affixes.enabled", true) || max <= 0 then pdc
    else
      var existing := GetString(pdc, AFFIXES_KEY);
      if existing.Some? && !IsBlank(existing.value) then pdc
      else if bc.poolIds.None? then pdc
      else
        var es := Positive(bc.poolIds.value, PoolName(), PoolWeigher(bc.cfg));
        if es == [] then pdc
        else
          var chosen := Select(es, max, draws, 0);
          if chosen == [] then pdc else pdc[AFFIXES_KEY := PStr(Join(chosen, ','))]
  }

  // ---------------------------------------------------------------- title

  /** The title word one affix contributes: its configured non-blank word, trimmed. */
  function TitleWord(cfg: Config, part: string): (r: seq<string>)
    ensures |r| <= 1
  {
    var id := ToLower(Trim(part));
    if id == [] then []
    else
      var word := CfgString(cfg, "affix_titles." + id, "");
      if IsBlank(word) then [] else [Trim(word)]
  }

  /** All the title words of a list of affixes, in order. */
  function TitleWorder(cfg: Config): string -> seq<string> {
    (part: string) => TitleWord(cfg, part)
  }

  /** All the words `word` gives for a list of affixes, in order. */
  function Words(word: string -> seq<string>, parts: seq<string>): seq<string>
    decreases |parts|
  {
    if parts == [] then [] else Words(word, parts[..|parts| - 1]) + word(parts[|parts| - 1])
  }

  function FirstTwo(ws: seq<string>): (r: seq<string>)
    ensures |r| <= 2
  {
    if |ws| <= 2 then ws else ws[..2]
  }

  /**
   * `applyTitleFromAffixes`: nothing over an existing title or without
   * affixes; otherwise the first two words joined by a space, when there is one.
   */
  function TitleSet(cfg: Config, pdc: Pdc): Pdc {
    if GetString(pdc, TITLE_KEY).Some? then pdc
    else
      var csv := GetString(pdc, AFFIXES_KEY);
      if csv.None? || IsBlank(csv.value) then pdc
      else
        var ws := FirstTwo(Words(TitleWorder(cfg), Split(csv.value, ',')));
        if ws == [] then pdc else pdc[TITLE_KEY := PStr(Join(ws, ' '))]
  }

  // ---------------------------------------------------------------- names

  /** One part of the name, capitalised and followed by a space; nothing for a blank part. */
  function CapitalWord(p: string): string {
    if IsBlank(p) then [] else [UpperChar(p[0])] + p[1..] + " "
  }

  function Capitalized(parts: seq<string>): string
    decreases |parts|
  {
    if parts == [] then [] else Capitalized(parts[..|parts| - 1]) + CapitalWord(parts[|parts| - 1])
  }

  /** The space-separated words of an entity type name, lower-cased. */
  function NameParts(entityType: string): seq<string> {
    Split(ReplaceChar(ToLower(entityType), '_', ' '), ' ')
  }

  /** `prettyMobName`: each word capitalised, joined by single spaces. */
  method PrettyMobName(entityType: string) returns (r: string)
    ensures r == Trim(Capitalized(NameParts(entityType)))
  {
    var parts := NameParts(entityType);
    var sb := "";
    var i := 0;
    while i < |parts|
      invariant 0 <= i <= |parts|
      invariant sb == Capitalized(parts[..i])
    {
      assert parts[..i + 1][..i] == parts[..i];
      var p := parts[i];
      if !IsBlank(p) {
        sb := sb + [UpperChar(p[0])] + p[1..] + " ";
      }
      i := i + 1;
    }
    assert parts[..|parts|] == parts;
    r := Trim(sb);
  }

  // ---------------------------------------------------------------- the entity

  /** A living entity's persistent data and type. */
  class Mob {
    var pdc: Pdc
    const entityType: string

    constructor(pdc: Pdc, entityType: string)
      ensures this.pdc == pdc && this.entityType == entityType
    {
      this.pdc := pdc;
      this.entityType := entityType;
    }
  }

  /** `setAffixes`, with the cleaning loop. */
  method SetAffixes(e: Mob, affixes: Option<seq<Option<string>>>)
    modifies e
    ensures e.pdc == AffixesSet(old(e.pdc), affixes)
  {
    if affixes.None? || affixes.value == [] {
      e.pdc := e.pdc - {AFFIXES_KEY, TITLE_KEY};
      return;
    }
    var list := affixes.value;
    var cleaned := [];
    var i := 0;
    while i < |list|
      invariant 0 <= i <= |list|
      invariant cleaned == Cleaned(list[..i])
    {
      assert list[..i + 1][..i] == list[..i];
      var a := list[i];
      if a.Some? {
        var id := ToLower(Trim(a.value));
        if id != [] {
          cleaned := cleaned + [id];
        }
      }
      i := i + 1;
    }
    assert list[..|list|] == list;
    if cleaned == [] {
      e.pdc := e.pdc - {AFFIXES_KEY, TITLE_KEY};
      return;
    }
    e.pdc := e.pdc[AFFIXES_KEY := PStr(Join(cleaned, ','))];
    e.pdc := e.pdc - {TITLE_KEY};
  }

  /** The selection loop: at most `max` rounds, each picking and removing one entry. */
  method SelectAffixes(all: seq<Entry>, max: int, draws: nat -> nat) returns (chosen: seq<string>)
    ensures chosen == Select(all, max, draws, 0)
  {
    var entries := all;
    chosen := [];
    var i: nat := 0;
    while i < max && entries != []
      invariant chosen + Select(entries, max, draws, i) == Select(all, max, draws, 0)
      decreases max - i
    {
      var total := TotalWeight(entries);
      if total <= 0 {
        assert Select(entries, max, draws, i) == [];
        break;
      }
      var roll := draws(i) % total;
      var picked := PickIndex(entries, roll);
      if picked >= 0 {
        var rest := RemoveAt(entries, picked);
        assert Select(entries, max, draws, i) == [entries[picked].id] + Select(rest, max, draws, i + 1);
        assert (chosen + [entries[picked].id]) + Select(rest, max, draws, i + 1) == chosen + Select(entries, max, draws, i);
        chosen := chosen + [entries[picked].id];
        entries := rest;
      }
      i := i + 1;
    }
    assert Select(entries, max, draws, i) == [];
    assert chosen + [] == chosen;
  }

  /** `applyAffixSelection`. */
  method ApplyAffixSelection(bc: BossConfig, e: Mob, max: int, draws: nat -> nat)
    modifies e
    ensures e.pdc == AffixSelected(bc, old(e.pdc), max, draws)
  {
    if !CfgBoolean(bc.cfg, "affixes.enabled", true) || max <= 0 {
      return;
    }
    var existing := GetString(e.pdc, AFFIXES_KEY);
    if existing.Some? && !IsBlank(existing.value) {
      return;
    }
    if bc.poolIds.None? {
      return;
    }
    var entries := PositiveEntries(bc.poolIds.value, PoolName(), PoolWeigher(bc.cfg));
    if entries == [] {
      return;
    }
    var chosen := SelectAffixes(entries, max, draws);
    if chosen != [] {
      e.pdc := e.pdc[AFFIXES_KEY := PStr(Join(chosen, ','))];
    }
  }

  /** The loop over the affixes collecting title words, stopping at two. */
  method CollectWords(cfg: Config, parts: seq<string>) returns (words: seq<string>)
    ensures words == FirstTwo(Words(TitleWorder(cfg), parts))
  {
    var word := TitleWorder(cfg);
    words := [];
    var i := 0;
    while i < |parts|
      invariant 0 <= i <= |parts|
      invariant words == Words(word, parts[..i]) && |words| < 2
    {
      assert parts[..i + 1][..i] == parts[..i];
      assert Words(word, parts[..i + 1]) == Words(word, parts[..i]) + word(parts[i]);
      assert |word(parts[i])| <= 1;
      words := words + word(parts[i]);
      i := i + 1;
      if |words| >= 2 {
        break;
      }
    }
    FirstTwoOfPrefix(word, parts, i, words);
  }

  /** Once the words of a prefix reach two, or the prefix is everything, they are the first two words. */
  lemma FirstTwoOfPrefix(word: string -> seq<string>, parts: seq<string>, i: nat, words: seq<string>)
    requires i <= |parts| && words == Words(word, parts[..i]) && |words| <= 2
    requires |words| == 2 || i == |parts|
    ensures words == FirstTwo(Words(word, parts))
  {
    WordsAppend(word, parts[..i], parts[i..]);
    assert parts[..i] + parts[i..] == parts;
    if i == |parts| {
      assert parts[..i] == parts;
    } else {
      assert Words(word, parts)[..2] == words;
    }
  }

  /** `applyTitleFromAffixes`. */
  method ApplyTitleFromAffixes(cfg: Config, e: Mob)
    modifies e
    ensures e.pdc == TitleSet(cfg, old(e.pdc))
  {
    if GetString(e.pdc, TITLE_KEY).Some? {
      return;
    }
    var csv := GetString(e.pdc, AFFIXES_KEY);
    if csv.None? || IsBlank(csv.value) {
      return;
    }
    var words := CollectWords(cfg, Split(csv.value, ','));
    if words != [] {
      e.pdc := e.pdc[TITLE_KEY := PStr(Join(words, ' '))];
    }
  }

  /** The rank `applyBossStats` goes on with: the forced one, or else a rolled one. */
  function RankUsed(bc: BossConfig, pdc: Pdc, rankDraw: nat): Option<string> {
    var forced := GetString(pdc, RANK_KEY);
    if forced.None? || IsBlank(forced.value) then RolledRank(bc, rankDraw) else forced
  }

  /** The data after the rank step: a rolled non-blank rank is stored, a forced one left alone. */
  function RankStored(bc: BossConfig, pdc: Pdc, rankDraw: nat): Pdc {
    var forced := GetString(pdc, RANK_KEY);
    var rolled := RolledRank(bc, rankDraw);
    if (forced.None? || IsBlank(forced.value)) && rolled.Some? && !IsBlank(rolled.value)
    then pdc[RANK_KEY := PStr(rolled.value)] else pdc
  }

  /** What `applyBossStats` does to the persistent data of an entity that is not a boss yet. */
  function BossStatsPdc(bc: BossConfig, pdc: Pdc, rankDraw: nat, affixDraws: nat -> nat): Pdc {
    var p := MarkBoss(RankStored(bc, pdc, rankDraw));
    TitleSet(bc.cfg, AffixSelected(bc, p, MaxAffixesForRank(bc, RankUsed(bc, pdc, rankDraw)), affixDraws))
  }

  /**
   * `applyBossStats` without the attribute multipliers and the name plate:
   * nothing for a boss; otherwise the forced or rolled rank, the boss flag,
   * the affixes and the title.
   */
  method ApplyBossStats(bc: BossConfig, e: Mob, rankDraw: nat, affixDraws: nat -> nat)
    modifies e
    ensures IsBoss(old(e.pdc)) ==> e.pdc == old(e.pdc)
    ensures !IsBoss(old(e.pdc)) ==> e.pdc == BossStatsPdc(bc, old(e.pdc), rankDraw, affixDraws)
  {
    if IsBoss(e.pdc) {
      return;
    }
    var rankId := GetString(e.pdc, RANK_KEY);
    if rankId.None? || IsBlank(rankId.value) {
      rankId := RollRankId(bc, rankDraw);
      if rankId.Some? && !IsBlank(rankId.value) {
        e.pdc := e.pdc[RANK_KEY := PStr(rankId.value)];
      }
    }
    var maxAffixes := MaxAffixesForRank(bc, rankId);
    e.pdc := MarkBoss(e.pdc);
    ApplyAffixSelection(bc, e, maxAffixes, affixDraws);
    ApplyTitleFromAffixes(bc.cfg, e);
  }

  // ---------------------------------------------------------------- properties

  /** The flag reads back as set after `markBoss` and as unset after `unmarkBoss`; nothing else changes. */
  lemma BossFlag(pdc: Pdc, k: string)
    ensures IsBoss(MarkBoss(pdc)) && !IsBoss(UnmarkBoss(pdc))
    ensures k != BOSS_KEY ==> (k in MarkBoss(pdc) <==> k in pdc) && (k in UnmarkBoss(pdc) <==> k in pdc)
    ensures k != BOSS_KEY && k in pdc ==> MarkBoss(pdc)[k] == pdc[k] && UnmarkBoss(pdc)[k] == pdc[k]
    ensures IsBoss(pdc) <==> BOSS_KEY in pdc && pdc[BOSS_KEY] == PByte(1)
  {
  }

  /** A set rank reads back trimmed and upper-cased, a blank one not at all. */
  lemma RankSetRule(pdc: Pdc, rank: Option<string>)
    ensures rank.None? || IsBlank(rank.value) ==> GetString(SetRank(pdc, rank), RANK_KEY).None?
    ensures rank.Some? && !IsBlank(rank.value) ==>
              GetString(SetRank(pdc, rank), RANK_KEY) == Some(ToUpper(Trim(rank.value)))
              && IsUpperForm(ToUpper(Trim(rank.value)))
  {
    if rank.Some? && !IsBlank(rank.value) {
      ToUpperAt(Trim(rank.value));
    }
  }

  /** Every cleaned id is non-empty and comes, trimmed and lower-cased, from the list. */
  lemma {:induction false} CleanedIds(affixes: seq<Option<string>>)
    ensures forall i :: 0 <= i < |Cleaned(affixes)| ==>
              Cleaned(affixes)[i] != []
              && exists a :: a in affixes && a.Some? && Cleaned(affixes)[i] == ToLower(Trim(a.value))
    ensures |Cleaned(affixes)| <= |affixes|
    decreases |affixes|
  {
    if affixes != [] {
      var front := affixes[..|affixes| - 1];
      var last := affixes[|affixes| - 1];
      CleanedIds(front);
      var r := Cleaned(affixes);
      forall i | 0 <= i < |r|
        ensures r[i] != [] && exists a :: a in affixes && a.Some? && r[i] == ToLower(Trim(a.value))
      {
        if i < |Cleaned(front)| {
          var a :| a in front && a.Some? && Cleaned(front)[i] == ToLower(Trim(a.value));
          assert a in affixes;
        } else {
          assert last in affixes;
        }
      }
    }
  }

  /**
   * `setAffixes` always removes the title; it removes the affixes when
   * nothing survives cleaning, and otherwise stores the cleaned ids, which
   * split back into the list when none of them holds a comma.
   */
  lemma AffixesStored(pdc: Pdc, affixes: Option<seq<Option<string>>>)
    ensures TITLE_KEY !in AffixesSet(pdc, affixes)
    ensures affixes.None? || Cleaned(affixes.value) == [] ==> AFFIXES_KEY !in AffixesSet(pdc, affixes)
    ensures affixes.Some? && Cleaned(affixes.value) != [] ==>
              GetString(AffixesSet(pdc, affixes), AFFIXES_KEY) == Some(Join(Cleaned(affixes.value), ','))
    ensures affixes.Some? && Cleaned(affixes.value) != []
            && (forall i :: 0 <= i < |Cleaned(affixes.value)| ==> ',' !in Cleaned(affixes.value)[i]) ==>
              Split(GetString(AffixesSet(pdc, affixes), AFFIXES_KEY).value, ',') == Cleaned(affixes.value)
  {
    if affixes.Some? && affixes.value == [] {
      assert Cleaned(affixes.value) == [];
    }
    if affixes.Some? && Cleaned(affixes.value) != []
       && (forall i :: 0 <= i < |Cleaned(affixes.value)| ==> ',' !in Cleaned(affixes.value)[i]) {
      CleanedIds(affixes.value);
      SplitJoin(Cleaned(affixes.value), ',');
    }
  }

  /**
   * The rolled rank: None exactly without a `ranks` section or without an
   * id of positive weight; otherwise an id of the section with positive
   * weight, the first whose running sum exceeds the roll.
   */
  lemma RolledRankRule(bc: BossConfig, draw: nat)
    ensures RolledRank(bc, draw).None? <==>
              bc.rankIds.None? || forall id :: id in bc.rankIds.value ==> RankWeight(bc.cfg, id) <= 0
    ensures RolledRank(bc, draw).Some? ==>
              RolledRank(bc, draw).value in bc.rankIds.value && RankWeight(bc.cfg, RolledRank(bc, draw).value) > 0
    ensures RolledRank(bc, draw).Some? ==>
              var es := Positive(bc.rankIds.value, RankName(), RankWeigher(bc.cfg));
              var k := Pick(es, draw % Sum(es));
              0 <= k < |es| && RolledRank(bc, draw).value == es[k].id
              && draw % Sum(es) < Running(es, k)
              && forall j :: 0 <= j < k ==> draw % Sum(es) >= Running(es, j)
  {
    if bc.rankIds.Some? {
      var es := Positive(bc.rankIds.value, RankName(), RankWeigher(bc.cfg));
      PositiveFrom(bc.rankIds.value, RankName(), RankWeigher(bc.cfg));
      SumPositive(es);
      if es != [] {
        PickFound(es, draw % Sum(es));
        PickFirst(es, draw % Sum(es));
        var k := Pick(es, draw % Sum(es));
        var id :| id in bc.rankIds.value && es[k] == Entry(RankName()(id), RankWeigher(bc.cfg)(id));
      }
    }
  }

  /** The selection picks at most `max - i` ids, and at most one per entry. */
  lemma {:induction false} SelectBounded(es: seq<Entry>, max: int, draws: nat -> nat, i: nat)
    ensures |Select(es, max, draws, i)| <= |es|
    ensures i <= max ==> |Select(es, max, draws, i)| <= max - i
    decreases max - i
  {
    if i < max && es != [] && Sum(es) > 0 {
      var k := Pick(es, draws(i) % Sum(es));
      if k >= 0 {
        SelectBounded(RemoveAt(es, k), max, draws, i + 1);
      } else {
        SelectBounded(es, max, draws, i + 1);
      }
    }
  }

  /** Every picked id names an entry, and with distinct entry ids no id is picked twice. */
  lemma {:induction false} SelectDistinct(es: seq<Entry>, max: int, draws: nat -> nat, i: nat)
    ensures forall x :: x in Select(es, max, draws, i) ==> x in Ids(es)
    ensures DistinctIds(es) ==>
              forall a, b :: 0 <= a < b < |Select(es, max, draws, i)| ==> Select(es, max, draws, i)[a] != Select(es, max, draws, i)[b]
    decreases max - i
  {
    if i < max && es != [] && Sum(es) > 0 {
      var k := Pick(es, draws(i) % Sum(es));
      if k >= 0 {
        var rest := RemoveAt(es, k);
        SelectDistinct(rest, max, draws, i + 1);
        RemoveAtIds(es, k);
        assert es[k].id == Ids(es)[k];
      } else {
        SelectDistinct(es, max, draws, i + 1);
      }
    }
  }

  /** The picked ids all come, lower-cased, from the pool; none twice when the lower-cased pool ids are distinct. */
  lemma ChosenFromPool(bc: BossConfig, max: int, draws: nat -> nat)
    requires bc.poolIds.Some?
    ensures var chosen := Select(Positive(bc.poolIds.value, PoolName(), PoolWeigher(bc.cfg)), max, draws, 0);
            (max >= 0 ==> |chosen| <= max)
            && (forall x :: x in chosen ==> exists id :: id in bc.poolIds.value && x == ToLower(id))
            && (DistinctIds(Positive(bc.poolIds.value, PoolName(), PoolWeigher(bc.cfg))) ==>
                  forall a, b :: 0 <= a < b < |chosen| ==> chosen[a] != chosen[b])
  {
    var es := Positive(bc.poolIds.value, PoolName(), PoolWeigher(bc.cfg));
    PositiveFrom(bc.poolIds.value, PoolName(), PoolWeigher(bc.cfg));
    SelectBounded(es, max, draws, 0);
    SelectDistinct(es, max, draws, 0);
    forall x | x in Select(es, max, draws, 0)
      ensures exists id :: id in bc.poolIds.value && x == ToLower(id)
    {
      var j :| 0 <= j < |es| && Ids(es)[j] == x;
      var id :| id in bc.poolIds.value && es[j] == Entry(PoolName()(id), PoolWeigher(bc.cfg)(id));
    }
  }

  /**
   * The selection never overwrites affixes a boss already has; when it
   * stores anything, it stores the picked ids comma-joined, between one and
   * `max` of them.
   */
  lemma AffixSelectionRule(bc: BossConfig, pdc: Pdc, max: int, draws: nat -> nat)
    ensures var existing := GetString(pdc, AFFIXES_KEY);
            existing.Some? && !IsBlank(existing.value) ==> AffixSelected(bc, pdc, max, draws) == pdc
    ensures !CfgBoolean(bc.cfg, "affixes.enabled", true) || max <= 0 || bc.poolIds.None? ==>
              AffixSelected(bc, pdc, max, draws) == pdc
    ensures AffixSelected(bc, pdc, max, draws) != pdc ==>
              bc.poolIds.Some? && max > 0
              && var chosen := Select(Positive(bc.poolIds.value, PoolName(), PoolWeigher(bc.cfg)), max, draws, 0);
                 AffixSelected(bc, pdc, max, draws) == pdc[AFFIXES_KEY := PStr(Join(chosen, ','))]
                 && 1 <= |chosen| <= max
  {
    if bc.poolIds.Some? && max > 0 {
      ChosenFromPool(bc, max, draws);
    }
  }

  /** The title words of two lists are those of each in turn. */
  lemma {:induction false} WordsAppend(word: string -> seq<string>, a: seq<string>, b: seq<string>)
    ensures Words(word, a + b) == Words(word, a) + Words(word, b)
    decreases |b|
  {
    if b == [] {
      assert a + b == a;
    } else {
      var b' := b[..|b| - 1];
      assert (a + b)[..|a + b| - 1] == a + b';
      assert (a + b)[|a + b| - 1] == b[|b| - 1];
      WordsAppend(word, a, b');
    }
  }

  /**
   * The title is never set over an existing one nor without affixes; when
   * set it is the first one or two configured words of the affixes, each
   * trimmed, joined by a space.
   */
  lemma TitleRule(cfg: Config, pdc: Pdc)
    ensures GetString(pdc, TITLE_KEY).Some? ==> TitleSet(cfg, pdc) == pdc
    ensures GetString(pdc, AFFIXES_KEY).None? ==> TitleSet(cfg, pdc) == pdc
    ensures TitleSet(cfg, pdc) != pdc ==>
              var ws := FirstTwo(Words(TitleWorder(cfg), Split(GetString(pdc, AFFIXES_KEY).value, ',')));
              1 <= |ws| <= 2 && TitleSet(cfg, pdc) == pdc[TITLE_KEY := PStr(Join(ws, ' '))]
              && forall k :: 0 <= k < |ws| ==> ws[k] == Trim(ws[k])
  {
    var csv := GetString(pdc, AFFIXES_KEY);
    if csv.Some? {
      WordsTrimmed(cfg, Split(csv.value, ','));
    }
  }

  /** Every title word is already trimmed. */
  lemma {:induction false} WordsTrimmed(cfg: Config, parts: seq<string>)
    ensures forall k :: 0 <= k < |Words(TitleWorder(cfg), parts)| ==>
              Words(TitleWorder(cfg), parts)[k] == Trim(Words(TitleWorder(cfg), parts)[k])
    decreases |parts|
  {
    if parts != [] {
      WordsTrimmed(cfg, parts[..|parts| - 1]);
      var part := parts[|parts| - 1];
      var id := ToLower(Trim(part));
      var word := CfgString(cfg, "affix_titles." + id, "");
      TrimKeeps(Trim(word));
      assert TitleWorder(cfg)(part) == TitleWord(cfg, part);
    }
  }

  /** Two maps that agree everywhere except, perhaps, at `key`. */
  ghost predicate SameExcept(a: Pdc, b: Pdc, key: string) {
    forall k :: k != key ==> (k in a <==> k in b) && (k in a ==> a[k] == b[k])
  }

  /** The selection touches only the affixes, and leaves non-blank affixes alone. */
  lemma SelectionTouchesAffixes(bc: BossConfig, pdc: Pdc, max: int, draws: nat -> nat)
    ensures SameExcept(pdc, AffixSelected(bc, pdc, max, draws), AFFIXES_KEY)
    ensures var existing := GetString(pdc, AFFIXES_KEY);
            existing.Some? && !IsBlank(existing.value) ==> AffixSelected(bc, pdc, max, draws) == pdc
  {
  }

  /** The title step touches only the title, and leaves an existing one alone. */
  lemma TitleTouchesTitle(cfg: Config, pdc: Pdc)
    ensures SameExcept(pdc, TitleSet(cfg, pdc), TITLE_KEY)
    ensures GetString(pdc, TITLE_KEY).Some? ==> TitleSet(cfg, pdc) == pdc
  {
  }

  /** After the rank step and the boss flag, the selection and the title keep the flag, the rank and forced values. */
  lemma LaterStepsKeep(bc: BossConfig, p: Pdc, max: int, draws: nat -> nat)
    ensures var after := TitleSet(bc.cfg, AffixSelected(bc, p, max, draws));
            (IsBoss(p) ==> IsBoss(after))
            && GetString(after, RANK_KEY) == GetString(p, RANK_KEY)
            && (GetString(p, AFFIXES_KEY).Some? && !IsBlank(GetString(p, AFFIXES_KEY).value) ==>
                  GetString(after, AFFIXES_KEY) == GetString(p, AFFIXES_KEY))
            && (GetString(p, TITLE_KEY).Some? ==> GetString(after, TITLE_KEY) == GetString(p, TITLE_KEY))
  {
    var q := AffixSelected(bc, p, max, draws);
    SelectionTouchesAffixes(bc, p, max, draws);
    TitleTouchesTitle(bc.cfg, q);
    assert GetString(q, TITLE_KEY) == GetString(p, TITLE_KEY);
  }

  /**
   * A boss is left alone by `ApplyBossStats`; any other entity becomes a
   * boss, keeps a forced rank, forced affixes and a forced title, and gets
   * a rolled rank stored when it had none.
   */
  lemma BossStatsRule(bc: BossConfig, pdc: Pdc, rankDraw: nat, affixDraws: nat -> nat)
    ensures var after := BossStatsPdc(bc, pdc, rankDraw, affixDraws);
            IsBoss(after)
            && (GetString(pdc, RANK_KEY).Some? && !IsBlank(GetString(pdc, RANK_KEY).value) ==>
                  GetString(after, RANK_KEY) == GetString(pdc, RANK_KEY))
            && (GetString(pdc, AFFIXES_KEY).Some? && !IsBlank(GetString(pdc, AFFIXES_KEY).value) ==>
                  GetString(after, AFFIXES_KEY) == GetString(pdc, AFFIXES_KEY))
            && (GetString(pdc, TITLE_KEY).Some? ==> GetString(after, TITLE_KEY) == GetString(pdc, TITLE_KEY))
    ensures var forced := GetString(pdc, RANK_KEY);
            var rolled := RolledRank(bc, rankDraw);
            (forced.None? || IsBlank(forced.value)) && rolled.Some? && !IsBlank(rolled.value) ==>
              GetString(BossStatsPdc(bc, pdc, rankDraw, affixDraws), RANK_KEY) == rolled
  {
    var p := MarkBoss(RankStored(bc, pdc, rankDraw));
    assert GetString(p, AFFIXES_KEY) == GetString(pdc, AFFIXES_KEY);
    assert GetString(p, TITLE_KEY) == GetString(pdc, TITLE_KEY);
    LaterStepsKeep(bc, p, MaxAffixesForRank(bc, RankUsed(bc, pdc, rankDraw)), affixDraws);
  }

  /** The name parts of a single word are the word lower-cased. */
  lemma OneWordParts(w: string)
    requires '_' !in w && forall i :: 0 <= i < |w| ==> !IsWhitespace(w[i])
    ensures NameParts(w) == [ToLower(w)]
  {
    var low := ToLower(w);
    ToLowerAt(w);
    var raw := ReplaceChar(low, '_', ' ');
    forall i | 0 <= i < |low| ensures low[i] != '_' && low[i] != ' ' {
      assert low[i] == LowerChar(w[i]) && w[i] != '_' && w[i] != ' ';
    }
    assert raw == low;
  }

  /** A visible word prints with its first letter capitalised. */
  lemma CapitalOne(low: string)
    requires low != [] && !IsWhitespace(low[0]) && UpperChar(low[0]) > ' ' && low[|low| - 1] > ' '
    ensures Trim(Capitalized([low])) == [UpperChar(low[0])] + low[1..]
  {
    var one: seq<string> := [low];
    assert one[..|one| - 1] == [];
    assert !IsBlank(low);
    var word := [UpperChar(low[0])] + low[1..];
    assert Capitalized(one) == word + " ";
    assert word[|word| - 1] > ' ';
    TrimPadded([], word, " ");
    assert [] + word + " " == word + " ";
  }

  /** A single visible word (no underscore, no padding) prints lower-cased with a capital first letter. */
  lemma PrettyOneWord(w: string)
    requires w != [] && '_' !in w && forall i :: 0 <= i < |w| ==> w[i] > ' ' && !IsWhitespace(w[i])
    ensures Trim(Capitalized(NameParts(w))) == [UpperChar(LowerChar(w[0]))] + ToLower(w)[1..]
  {
    OneWordParts(w);
    var low := ToLower(w);
    ToLowerAt(w);
    assert low[0] == LowerChar(w[0]);
    assert low[|low| - 1] == LowerChar(w[|w| - 1]);
    LowerVisible(w[0]);
    LowerVisible(w[|w| - 1]);
    CapitalOne(low);
  }

  /** Lower-casing keeps a visible character visible, and upper-casing it back too. */
  lemma LowerVisible(c: char)
    requires c > ' ' && !IsWhitespace(c)
    ensures LowerChar(c) > ' ' && !IsWhitespace(LowerChar(c)) && UpperChar(LowerChar(c)) > ' '
  {
  }
}
