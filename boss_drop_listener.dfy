/**
 * The boss drop listener: on a boss's death it rolls how many tokens drop
 * (0, 1 or 2, by rank), which types (from a per-rank weight table, the
 * second always different from the first) and which levels, and clamps
 * each level through the token registry.
 */
module BossDrops {
  import opened Wrappers
  import opened JavaText
  import opened Items
  import opened TokenDefinitions
  import opened TokenRegistries
  import BossAppliers

  /**
   * The types the drop tables name: the registry's token types, and water
   * breathing, which has no token type and no registry definition.
   */
  datatype DropType = Typed(t: TokenType) | WATER_BREATHING

  /** One dropped token: its type and its (clamped) level. */
  datatype Kit = Kit(kind: DropType, level: int)

  datatype Tier = LOW | MID | HIGH

  /** The random doubles one death consumes, in the order they are drawn. */
  datatype DropRolls = DropRolls(count: real, firstType: real, firstLevel: real,
                                 retries: nat -> real, secondLevel: real)

  // ---------------------------------------------------------------- ranks

  /** `getRank`: "GRAY" when no rank is stored, the stored rank upper-cased otherwise. */
  function GetRank(pdc: Pdc): (r: string)
    ensures GetString(pdc, BossAppliers.RANK_KEY).None? ==> r == "GRAY"
    ensures GetString(pdc, BossAppliers.RANK_KEY).Some? ==>
              |r| == |GetString(pdc, BossAppliers.RANK_KEY).value| && IsUpperForm(r)
  {
    var stored := GetString(pdc, BossAppliers.RANK_KEY);
    if stored.None? then "GRAY" else (ToUpperAt(stored.value); ToUpper(stored.value))
  }

  /** `mapRankToTier`. */
  function MapRankToTier(rank: string): Tier {
    if rank == "RED" then MID
    else if rank == "PURPLE" || rank == "GOLD" then HIGH
    else LOW
  }

  /** The ranks in ascending order. */
  const RANKS: seq<string> := ["GRAY", "GREEN", "RED", "PURPLE", "GOLD"]

  function TierValue(t: Tier): int {
    match t
    case LOW => 0
    case MID => 1
    case HIGH => 2
  }

  // ---------------------------------------------------------------- counts and levels

  /** The roll below which no token drops and below which one token drops. */
  function CountThresholds(rank: string): (real, real) {
    if rank == "GRAY" then (0.60, 0.95)
    else if rank == "GREEN" then (0.50, 0.92)
    else if rank == "RED" then (0.25, 0.80)
    else if rank == "PURPLE" then (0.10, 0.65)
    else if rank == "GOLD" then (0.05, 0.55)
    else (0.60, 0.95)
  }

  /** `rollTokenCount` for the roll `r`. */
  function RollTokenCount(rank: string, r: real): (n: int)
    ensures 0 <= n <= 2
    ensures n == 0 <==> r < CountThresholds(rank).0
    ensures n == 2 <==> r >= CountThresholds(rank).1
  {
    var (zero, one) := CountThresholds(rank);
    if r < zero then 0 else if r < one then 1 else 2
  }

  /** Whether a type has a fixed level of 1. */
  predicate FixedLevel(t: DropType) {
    t == Typed(FIRE_RESIST) || t == WATER_BREATHING || t == Typed(NIGHT_VISION)
  }

  /** The roll below which a rank's token is level II; 0 for ranks without level II. */
  function LevelTwoChance(rank: string): real {
    if rank == "RED" then 0.25
    else if rank == "PURPLE" then 0.40
    else if rank == "GOLD" then 0.60
    else 0.0
  }

  /** `rollTokenLevel` for the roll `r` (not drawn for a fixed-level type). */
  function RollTokenLevel(t: DropType, rank: string, r: real): (n: int)
    ensures n == 1 || n == 2
    ensures FixedLevel(t) ==> n == 1
    ensures n == 2 ==> rank == "RED" || rank == "PURPLE" || rank == "GOLD"
    ensures !FixedLevel(t) && 0.0 <= r ==> (n == 2 <==> r < LevelTwoChance(rank))
  {
    if FixedLevel(t) then 1
    else if rank == "RED" then (if r < 0.25 then 2 else 1)
    else if rank == "PURPLE" then (if r < 0.40 then 2 else 1)
    else if rank == "GOLD" then (if r < 0.60 then 2 else 1)
    else 1
  }

  /** `rand(min, max)` with the draw `draw` (the bound is `max - min + 1`). */
  function Rand(min: int, max: int, draw: nat): (r: int)
    requires max - min + 1 > 0
    ensures min <= r <= max
  {
    min + draw % (max - min + 1)
  }

  // ---------------------------------------------------------------- weighted types

  /** The sum of the weights. */
  function Total(ps: seq<(real, DropType)>): real
    decreases |ps|
  {
    if ps == [] then 0.0 else Total(ps[..|ps| - 1]) + ps[|ps| - 1].0
  }

  /** The cumulative weight after pair `j`. */
  function Cumulative(ps: seq<(real, DropType)>, j: nat): real
    requires j < |ps|
  {
    Total(ps[..j + 1])
  }

  /** The first index from `k` on whose cumulative weight exceeds `r`, or -1. */
  function WeightedFrom(ps: seq<(real, DropType)>, r: real, k: nat): (i: int)
    ensures -1 <= i < |ps|
    decreases |ps| - k
  {
    if k >= |ps| then -1 else if r < Cumulative(ps, k) then k else WeightedFrom(ps, r, k + 1)
  }

  /** `pickWeighted`: the type of the first pair whose cumulative weight exceeds `r`, else the last type. */
  function PickedType(ps: seq<(real, DropType)>, r: real): DropType
    requires ps != []
  {
    var i := WeightedFrom(ps, r, 0);
    if i >= 0 then ps[i].1 else ps[|ps| - 1].1
  }

  function Types(ps: seq<(real, DropType)>): seq<DropType> {
    seq(|ps|, i requires 0 <= i < |ps| => ps[i].1)
  }

  /** The weight table of `rollTokenType` for a rank. */
  function WeightTable(rank: string): (ps: seq<(real, DropType)>)
    ensures ps != []
  {
    if rank == "GRAY" then [(0.55, Typed(SHARPEN)), (0.45, Typed(MARK))]
    else if rank == "GREEN" then [(0.50, Typed(SHARPEN)), (0.35, Typed(MARK)), (0.15, Typed(HASTE))]
    else if rank == "RED" then
      [(0.40, Typed(SHARPEN)), (0.30, Typed(MARK)), (0.12, Typed(HASTE)), (0.10, Typed(STRENGTH)),
       (0.08, Typed(FIRE_RESIST))]
    else if rank == "PURPLE" then
      [(0.30, Typed(SHARPEN)), (0.22, Typed(MARK)), (0.12, Typed(HASTE)), (0.12, Typed(STRENGTH)),
       (0.10, Typed(FIRE_RESIST)), (0.08, Typed(HEALTH_BOOST)), (0.06, Typed(NIGHT_VISION))]
    else if rank == "GOLD" then
      [(0.22, Typed(SHARPEN)), (0.18, Typed(MARK)), (0.14, Typed(HASTE)), (0.14, Typed(STRENGTH)),
       (0.10, Typed(FIRE_RESIST)), (0.10, Typed(HEALTH_BOOST)), (0.06, Typed(NIGHT_VISION)),
       (0.06, WATER_BREATHING)]
    else [(0.50, Typed(SHARPEN)), (0.50, Typed(MARK))]
  }

  /** `rollTokenType` for the roll `r`. */
  function RollTokenType(rank: string, r: real): DropType {
    PickedType(WeightTable(rank), r)
  }

  /** The loop of `pickWeighted`. */
  method PickWeighted(r: real, ps: seq<(real, DropType)>) returns (t: DropType)
    requires ps != []
    ensures t == PickedType(ps, r)
  {
    var cumulative := 0.0;
    var i := 0;
    while i < |ps|
      invariant 0 <= i <= |ps|
      invariant cumulative == Total(ps[..i])
      invariant WeightedFrom(ps, r, i) == WeightedFrom(ps, r, 0)
    {
      assert ps[..i + 1][..i] == ps[..i];
      cumulative := cumulative + ps[i].0;
      assert cumulative == Cumulative(ps, i);
      if r < cumulative {
        return ps[i].1;
      }
      i := i + 1;
    }
    return ps[|ps| - 1].1;
  }

  /** `rollDifferentTokenType` from its `i`-th retry on: the first of the twelve rolled types that differs, else the fallback. */
  function DifferentFrom(rank: string, notThis: DropType, rolls: nat -> real, i: nat): DropType
    decreases 12 - i
  {
    if i >= 12 then (if notThis == Typed(SHARPEN) then Typed(MARK) else Typed(SHARPEN))
    else
      var t := RollTokenType(rank, rolls(i));
      if t != notThis then t else DifferentFrom(rank, notThis, rolls, i + 1)
  }

  method RollDifferentTokenType(rank: string, notThis: DropType, rolls: nat -> real) returns (t: DropType)
    ensures t == DifferentFrom(rank, notThis, rolls, 0)
  {
    var i := 0;
    while i < 12
      invariant 0 <= i <= 12
      invariant DifferentFrom(rank, notThis, rolls, i) == DifferentFrom(rank, notThis, rolls, 0)
    {
      t := PickWeighted(rolls(i), WeightTable(rank));
      if t != notThis {
        return t;
      }
      i := i + 1;
    }
    t := if notThis == Typed(SHARPEN) then Typed(MARK) else Typed(SHARPEN);
  }

  // ---------------------------------------------------------------- tokens

  /**
   * `createToken`: the level is clamped by the type's registry definition
   * when there is one; None stands for the exception a type without a kit
   * (SPEED) raises.
   */
  function CreateToken(defs: map<TokenType, TokenDefinition>, t: DropType, level: int): (k: Option<Kit>)
    ensures k.None? <==> t == Typed(SPEED)
    ensures k.Some? ==> k.value.kind == t
    ensures k.Some? && (t.WATER_BREATHING? || t.t !in defs) ==> k.value.level == level
  {
    if t == Typed(SPEED) then None
    else
      var clamped := if t.Typed? && t.t in defs then ClampLevel(defs[t.t], level) else level;
      Some(Kit(t, clamped))
  }

  /** The tokens one death drops. */
  function TokenPool(defs: map<TokenType, TokenDefinition>, rank: string, rolls: DropRolls): seq<Kit> {
    var count := RollTokenCount(rank, rolls.count);
    if count <= 0 then []
    else
      var first := RollTokenType(rank, rolls.firstType);
      TypeInTable(rank, rolls.firstType);
      var k1 := CreateToken(defs, first, RollTokenLevel(first, rank, rolls.firstLevel)).value;
      if count == 1 then [k1]
      else
        var second := DifferentFrom(rank, first, rolls.retries, 0);
        DifferentInTables(rank, first, rolls.retries, 0);
        [k1, CreateToken(defs, second, RollTokenLevel(second, rank, rolls.secondLevel)).value]
  }

  /** The dropped items; each drop is appended. */
  class World {
    var drops: seq<Kit>

    constructor()
      ensures drops == []
    {
      drops := [];
    }
  }

  class BossDropListener {
    const registry: TokenRegistry

    constructor()
      ensures registry.defs == DefaultMap() && registry.Valid()
    {
      registry := new TokenRegistry();
    }

    method MakeToken(t: DropType, level: int) returns (k: Kit)
      requires registry.Valid() && t != Typed(SPEED)
      ensures Some(k) == CreateToken(registry.defs, t, level)
    {
      var clamped := level;
      if t.Typed? {
        var def := registry.Get(t.t);
        if def.Some? {
          clamped := ClampLevel(def.value, level);
        }
      }
      k := Kit(t, clamped);
    }

    /** `rollTokenPool`. */
    method RollTokenPool(world: World, rank: string, rolls: DropRolls)
      requires registry.Valid()
      modifies world
      ensures world.drops == old(world.drops) + TokenPool(registry.defs, rank, rolls)
    {
      var count := RollTokenCount(rank, rolls.count);
      if count <= 0 {
        return;
      }
      var first := PickWeighted(rolls.firstType, WeightTable(rank));
      TypeInTable(rank, rolls.firstType);
      var k1 := MakeToken(first, RollTokenLevel(first, rank, rolls.firstLevel));
      world.drops := world.drops + [k1];
      if count == 1 {
        return;
      }
      var second := RollDifferentTokenType(rank, first, rolls.retries);
      DifferentInTables(rank, first, rolls.retries, 0);
      var k2 := MakeToken(second, RollTokenLevel(second, rank, rolls.secondLevel));
      world.drops := world.drops + [k2];
    }

    /** `onBossDeath` without the bonus loot: nothing for a non-boss. */
    method OnBossDeath(pdc: Pdc, world: World, rolls: DropRolls)
      requires registry.Valid()
      modifies world
      ensures !BossAppliers.IsBoss(pdc) ==> world.drops == old(world.drops)
      ensures BossAppliers.IsBoss(pdc) ==>
                world.drops == old(world.drops) + TokenPool(registry.defs, GetRank(pdc), rolls)
    {
      if !BossAppliers.IsBoss(pdc) {
        return;
      }
      var rank := GetRank(pdc);
      RollTokenPool(world, rank, rolls);
    }
  }

  // ---------------------------------------------------------------- properties

  /** The pick is the first index whose cumulative weight exceeds the roll; -1 exactly when none does. */
  lemma {:induction false} WeightedFromFirst(ps: seq<(real, DropType)>, r: real, k: nat)
    requires k <= |ps|
    ensures var i := WeightedFrom(ps, r, k);
            (i >= 0 ==> k <= i && r < Cumulative(ps, i) && forall j :: k <= j < i ==> r >= Cumulative(ps, j))
            && (i == -1 <==> forall j :: k <= j < |ps| ==> r >= Cumulative(ps, j))
    decreases |ps| - k
  {
    if k < |ps| && r >= Cumulative(ps, k) {
      WeightedFromFirst(ps, r, k + 1);
    }
  }

  /**
   * `pickWeighted` returns the type of the first pair whose cumulative
   * weight exceeds `r`, and the last listed type when `r` is not below any
   * cumulative weight; the result is always a listed type.
   */
  lemma PickedTypeRule(ps: seq<(real, DropType)>, r: real)
    requires ps != []
    ensures (forall j :: 0 <= j < |ps| ==> r >= Cumulative(ps, j)) ==> PickedType(ps, r) == ps[|ps| - 1].1
    ensures (exists j :: 0 <= j < |ps| && r < Cumulative(ps, j)) ==>
              exists i :: 0 <= i < |ps| && PickedType(ps, r) == ps[i].1 && r < Cumulative(ps, i)
                          && forall j :: 0 <= j < i ==> r >= Cumulative(ps, j)
    ensures PickedType(ps, r) in Types(ps)
  {
    WeightedFromFirst(ps, r, 0);
    var i := WeightedFrom(ps, r, 0);
    if i >= 0 {
      assert Types(ps)[i] == ps[i].1;
    } else {
      assert Types(ps)[|ps| - 1] == ps[|ps| - 1].1;
    }
  }

  /** The weights of every table add up to 1, so a roll in [0, 1) never reaches the fallback. */
  lemma TablesSumToOne(rank: string)
    ensures Total(WeightTable(rank)) == 1.0
  {
    var ps := WeightTable(rank);
    TotalIsSumList(ps);
    SumListAt(ps, 0);
    if rank == "GRAY" {
      assert SumTail(ps, 1) == 0.45;
    } else if rank == "GREEN" {
      assert SumTail(ps, 2) == 0.15; assert SumTail(ps, 1) == 0.50;
    } else if rank == "RED" {
      assert SumTail(ps, 4) == 0.08; assert SumTail(ps, 3) == 0.18; assert SumTail(ps, 2) == 0.30; assert SumTail(ps, 1) == 0.60;
    } else if rank == "PURPLE" {
      assert SumTail(ps, 6) == 0.06; assert SumTail(ps, 5) == 0.14; assert SumTail(ps, 4) == 0.24; assert SumTail(ps, 3) == 0.36; assert SumTail(ps, 2) == 0.48; assert SumTail(ps, 1) == 0.70;
    } else if rank == "GOLD" {
      assert SumTail(ps, 7) == 0.06; assert SumTail(ps, 6) == 0.12; assert SumTail(ps, 5) == 0.22; assert SumTail(ps, 4) == 0.32; assert SumTail(ps, 3) == 0.46; assert SumTail(ps, 2) == 0.60; assert SumTail(ps, 1) == 0.78;
    } else {
      assert SumTail(ps, 1) == 0.50;
    }
  }

  /** A roll in [0, 1), as `nextDouble` gives, always picks by the cumulative weights, never by the fallback. */
  lemma NoFallback(rank: string, r: real)
    requires 0.0 <= r < 1.0
    ensures WeightedFrom(WeightTable(rank), r, 0) >= 0
  {
    var ps := WeightTable(rank);
    TablesSumToOne(rank);
    WeightedFromFirst(ps, r, 0);
    assert ps[..(|ps| - 1) + 1] == ps;
    assert r < Cumulative(ps, |ps| - 1);
  }

  /** The sum from the front, unfolded one pair at a time down to the end. */
  lemma {:induction false} SumListAt(ps: seq<(real, DropType)>, i: nat)
    requires i <= |ps|
    ensures SumList(ps[i..]) == SumTail(ps, i)
    decreases |ps| - i
  {
    if i < |ps| {
      assert ps[i..][1..] == ps[i + 1..];
      SumListAt(ps, i + 1);
    }
  }

  /** The sum of the pairs from index `i` on, by index. */
  function SumTail(ps: seq<(real, DropType)>, i: nat): real
    requires i <= |ps|
    decreases |ps| - i
  {
    if i == |ps| then 0.0 else ps[i].0 + SumTail(ps, i + 1)
  }

  /** The sum from the front. */
  function SumList(ps: seq<(real, DropType)>): real
    decreases |ps|
  {
    if ps == [] then 0.0 else ps[0].0 + SumList(ps[1..])
  }

  lemma {:induction false} TotalIsSumList(ps: seq<(real, DropType)>)
    ensures Total(ps) == SumList(ps)
    decreases |ps|
  {
    if ps != [] {
      var front := ps[..|ps| - 1];
      TotalIsSumList(front);
      if front != [] {
        SumListSnoc(front, ps[|ps| - 1]);
        assert front + [ps[|ps| - 1]] == ps;
      }
    }
  }

  lemma {:induction false} SumListSnoc(ps: seq<(real, DropType)>, p: (real, DropType))
    ensures SumList(ps + [p]) == SumList(ps) + p.0
    decreases |ps|
  {
    if ps != [] {
      assert (ps + [p])[1..] == ps[1..] + [p];
      SumListSnoc(ps[1..], p);
    }
  }

  /** A rank's type is one its table lists, never SPEED, and water breathing only for GOLD. */
  lemma TypeInTable(rank: string, r: real)
    ensures RollTokenType(rank, r) in Types(WeightTable(rank))
    ensures RollTokenType(rank, r) != Typed(SPEED)
    ensures RollTokenType(rank, r) == WATER_BREATHING ==> rank == "GOLD"
    ensures rank == "GRAY" || rank !in RANKS ==> RollTokenType(rank, r) in {Typed(SHARPEN), Typed(MARK)}
  {
    PickedTypeRule(WeightTable(rank), r);
  }

  /** The second type always differs from the first, the fallback included, and is never SPEED. */
  lemma {:induction false} DifferentInTables(rank: string, notThis: DropType, rolls: nat -> real, i: nat)
    ensures DifferentFrom(rank, notThis, rolls, i) != notThis
    ensures DifferentFrom(rank, notThis, rolls, i) != Typed(SPEED)
    decreases 12 - i
  {
    if i < 12 {
      TypeInTable(rank, rolls(i));
      if RollTokenType(rank, rolls(i)) == notThis {
        DifferentInTables(rank, notThis, rolls, i + 1);
      }
    }
  }

  /**
   * A death drops at most two tokens; two only for a roll at or above the
   * rank's second threshold, and then of different types.
   */
  lemma PoolRule(defs: map<TokenType, TokenDefinition>, rank: string, rolls: DropRolls)
    ensures |TokenPool(defs, rank, rolls)| == RollTokenCount(rank, rolls.count)
    ensures |TokenPool(defs, rank, rolls)| == 2 ==> TokenPool(defs, rank, rolls)[0].kind != TokenPool(defs, rank, rolls)[1].kind
    ensures forall k :: k in TokenPool(defs, rank, rolls) ==> k.kind != Typed(SPEED)
  {
    if RollTokenCount(rank, rolls.count) == 2 {
      var first := RollTokenType(rank, rolls.firstType);
      DifferentInTables(rank, first, rolls.retries, 0);
    }
  }

  /**
   * With the default registry, tokens of a levelled type keep a level of 1
   * or 2, and fire resistance and night vision are level 1.
   */
  lemma DefaultClamp(t: DropType, level: int)
    requires level == 1 || level == 2
    requires t != Typed(SPEED)
    ensures CreateToken(DefaultMap(), t, level).value.level ==
              (if t == Typed(FIRE_RESIST) || t == Typed(NIGHT_VISION) then 1 else level)
  {
    DefaultsTable();
  }

  /** A higher rank never drops fewer tokens, nor is it given a lower tier, for the same roll. */
  lemma RanksAscend(i: nat, j: nat, r: real)
    requires i <= j < |RANKS|
    ensures RollTokenCount(RANKS[i], r) <= RollTokenCount(RANKS[j], r)
    ensures TierValue(MapRankToTier(RANKS[i])) <= TierValue(MapRankToTier(RANKS[j]))
    ensures LevelTwoChance(RANKS[i]) <= LevelTwoChance(RANKS[j])
  {
  }

  /** Every value of the range is drawn by some draw. */
  lemma RandCovers(min: int, max: int, v: int)
    requires min <= v <= max
    ensures Rand(min, max, v - min) == v
  {
  }
}
