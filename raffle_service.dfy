/**
 * RaffleService: one raffle roll on an armour piece. The apply is a
 * read-modify-write of the piece's effect map and slot counter, guarded by
 * the checks "is armour", "slots left", "pool not empty" and "something can
 * be rolled for this slot", in that order.
 */
module RaffleService {
  import opened Wrappers
  import opened JavaText
  import opened Items
  import opened RaffleEffectIds
  import opened EffectMaps
  import opened RaffleEffectReader
  import opened RafflePotionTable
  import opened RafflePool
  import RaffleKeys

  const DEFAULT_MAX_SLOTS: int := 3

  /** `hasCurse`: some key of the map is a curse. */
  predicate HasCurse(m: EffectMap)
    ensures HasCurse(m) <==> exists i :: 0 <= i < |m| && IsCurse(m[i].0)
  {
    m != [] && (IsCurse(m[0].0) || (HasCurse(m[1..]) && assert forall i :: 0 <= i < |m[1..]| ==> m[1..][i] == m[i + 1]; true))
  }

  /** `readSlotsUsed`: the stored counter, or the fallback when none is stored. */
  function SlotsUsed(pdc: Pdc, fallback: int): int {
    GetInt(pdc, RaffleKeys.SLOT_COUNT).GetOr(fallback)
  }

  /** The roll filter: a curse only while the piece holds none, a good id only where its slot rule allows. */
  predicate Allowed(id: EffectId, hasCurse: bool, slot: EquipmentSlot) {
    if IsCurse(id) then !hasCurse else IsCompatible(id, slot)
  }

  /** The candidate list of `rollForSlot`: the pool filtered in order. */
  function Candidates(pool: seq<EffectId>, hasCurse: bool, slot: EquipmentSlot): (r: seq<EffectId>)
    ensures |r| <= |pool|
    ensures forall i :: 0 <= i < |r| ==> Allowed(r[i], hasCurse, slot)
  {
    if pool == [] then []
    else
      var front := Candidates(pool[..|pool| - 1], hasCurse, slot);
      var id := pool[|pool| - 1];
      if Allowed(id, hasCurse, slot) then front + [id] else front
  }

  /** A candidate is exactly a pool entry that passes the filter. */
  lemma {:induction false} CandidatesMembers(pool: seq<EffectId>, hasCurse: bool, slot: EquipmentSlot, id: EffectId)
    ensures id in Candidates(pool, hasCurse, slot) <==> id in pool && Allowed(id, hasCurse, slot)
  {
    if pool != [] {
      var front := pool[..|pool| - 1];
      CandidatesMembers(front, hasCurse, slot, id);
      assert pool == front + [pool[|pool| - 1]];
    }
  }

  /** Curse-locked pieces never get a curse candidate. */
  lemma CurseLockedCandidates(pool: seq<EffectId>, slot: EquipmentSlot)
    ensures forall i :: 0 <= i < |Candidates(pool, true, slot)| ==> IsGood(Candidates(pool, true, slot)[i])
  {
  }

  /** The id `rollForSlot` returns for a draw, None when no candidate exists. */
  function Rolled(pool: seq<EffectId>, hasCurse: bool, slot: EquipmentSlot, draw: nat): (r: Option<EffectId>)
    ensures r.None? <==> Candidates(pool, hasCurse, slot) == []
  {
    var c := Candidates(pool, hasCurse, slot);
    if c == [] then None else Some(c[draw % |c|])
  }

  /** The roll is a pool entry that passes the filter. */
  lemma RolledIsCandidate(pool: seq<EffectId>, hasCurse: bool, slot: EquipmentSlot, draw: nat)
    requires Rolled(pool, hasCurse, slot, draw).Some?
    ensures var id := Rolled(pool, hasCurse, slot, draw).value;
            id in pool && Allowed(id, hasCurse, slot)
  {
    var c := Candidates(pool, hasCurse, slot);
    CandidatesMembers(pool, hasCurse, slot, c[draw % |c|]);
  }

  /**
   * `rollForSlot`: collects the candidates from the pool snapshot and picks
   * the one at the drawn index.
   */
  method RollForSlot(pool: Pool, hasCurse: bool, slot: EquipmentSlot, draw: nat) returns (r: Option<EffectId>)
    ensures r == Rolled(pool.pool, hasCurse, slot, draw)
  {
    var snapshot := pool.Snapshot();
    assert snapshot == pool.pool;
    var candidates: seq<EffectId> := [];
    var i := 0;
    while i < |snapshot|
      invariant 0 <= i <= |snapshot|
      invariant candidates == Candidates(snapshot[..i], hasCurse, slot)
    {
      assert snapshot[..i + 1][..i] == snapshot[..i];
      var id := snapshot[i];
      if hasCurse && IsCurse(id) {
      } else if IsCurse(id) {
        candidates := candidates + [id];
      } else if IsCompatible(id, slot) {
        candidates := candidates + [id];
      }
      i := i + 1;
    }
    assert snapshot[..|snapshot|] == snapshot;
    if candidates == [] {
      return None;
    }
    r := Some(candidates[draw % |candidates|]);
  }

  // ---------------------------------------------------------------- storage

  /** `readEffects`: the same parse as the effect reader, guarded by `isBlank`. */
  method ReadEffects(pdc: Pdc) returns (out: EffectMap)
    ensures out == ParseStored(GetString(pdc, RaffleKeys.EFFECTS))
  {
    var raw := GetString(pdc, RaffleKeys.EFFECTS);
    out := [];
    if raw.None? {
      return;
    }
    if IsBlank(raw.value) {
      assert ':' !in raw.value by {
        assert !IsWhitespace(':');
      }
      NoColonNoEffects(raw.value);
      return;
    }
    var parts := Split(raw.value, ',');
    var i := 0;
    while i < |parts|
      invariant 0 <= i <= |parts|
      invariant ParseParts(parts[i..], out) == ParseParts(parts, [])
    {
      assert parts[i..][1..] == parts[i + 1..];
      var entry := ReadPiece(parts[i]);
      if entry.Some? {
        out := Put(out, entry.value.0, entry.value.1);
      }
      i := i + 1;
    }
  }

  /** The body of the `readEffects` loop for one comma-separated piece. */
  method ReadPiece(part: string) returns (r: Option<(EffectId, int)>)
    ensures r == ParsePiece(part)
  {
    var token := Trim(part);
    if token == [] {
      return None;
    }
    var kv := Split(token, ':');
    if |kv| != 2 {
      return None;
    }
    var id := FromString(Some(Trim(kv[0])));
    if id.None? {
      return None;
    }
    var lvl := match ParseInt(Trim(kv[1])) case Some(n) => n case None => 1;
    if IsCurse(id.value) {
      lvl := 1;
    }
    if lvl < 1 {
      lvl := 1;
    }
    r := Some((id.value, lvl));
  }

  /** The stored text of one entry: name, ':' and the normalised level. */
  function Piece(e: (EffectId, int)): string {
    Name(e.0) + ":" + IntToString(StoredLevel(e.0, e.1))
  }

  function Pieces(m: EffectMap): (r: seq<string>)
    ensures |r| == |m|
  {
    if m == [] then [] else Pieces(m[..|m| - 1]) + [Piece(m[|m| - 1])]
  }

  /** The "ID:level,ID:level" string `writeEffects` builds. */
  function Encode(m: EffectMap): string {
    Join(Pieces(m), ',')
  }

  /** The container after `writeEffects`: the key is removed for an empty map. */
  function WrittenPdc(pdc: Pdc, m: EffectMap): Pdc {
    if m == [] then pdc - {RaffleKeys.EFFECTS} else pdc[RaffleKeys.EFFECTS := PStr(Encode(m))]
  }

  /** `writeEffects`: builds the string entry by entry, in map order. */
  method WriteEffects(pdc: Pdc, effects: EffectMap) returns (out: Pdc)
    ensures out == WrittenPdc(pdc, effects)
  {
    if effects == [] {
      return pdc - {RaffleKeys.EFFECTS};
    }
    var sb: string := "";
    var first := true;
    var i := 0;
    while i < |effects|
      invariant 0 <= i <= |effects|
      invariant first <==> i == 0
      invariant sb == Encode(effects[..i])
    {
      var id := effects[i].0;
      var lvl := effects[i].1;
      if IsCurse(id) {
        lvl := 1;
      }
      if lvl < 1 {
        lvl := 1;
      }
      var piece := Name(id) + ":" + IntToString(lvl);
      EncodeStep(effects, i);
      if !first {
        sb := sb + ",";
      }
      sb := sb + piece;
      first := false;
      i := i + 1;
    }
    assert effects[..|effects|] == effects;
    out := pdc[RaffleKeys.EFFECTS := PStr(sb)];
  }

  /** One more entry appends a ',' (after the first) and its piece. */
  lemma EncodeStep(m: EffectMap, i: nat)
    requires i < |m|
    ensures Encode(m[..i + 1]) == if i == 0 then Piece(m[0]) else Encode(m[..i]) + "," + Piece(m[i])
  {
    var f := m[..i + 1];
    assert f[..i] == m[..i];
    assert Pieces(f) == Pieces(m[..i]) + [Piece(m[i])];
    if i > 0 {
      JoinSnoc(Pieces(m[..i]), Piece(m[i]), ',');
    } else {
      assert Pieces(m[..i]) == [];
    }
  }

  // ---------------------------------------------------------------- round trip

  /** Every level of the map fits in an `int`. */
  predicate Int32Levels(m: EffectMap) {
    forall i :: 0 <= i < |m| ==> IsInt32(m[i].1)
  }

  /** The map as it reads back: same ids in the same order, each level normalised. */
  function Normalized(m: EffectMap): (r: EffectMap)
    ensures |r| == |m|
    ensures forall i :: 0 <= i < |m| ==> r[i] == (m[i].0, StoredLevel(m[i].0, m[i].1))
  {
    if m == [] then [] else Normalized(m[..|m| - 1]) + [(m[|m| - 1].0, StoredLevel(m[|m| - 1].0, m[|m| - 1].1))]
  }

  lemma {:induction false} KeysNormalized(m: EffectMap)
    ensures Keys(Normalized(m)) == Keys(m)
  {
    if m != [] {
      var f := m[..|m| - 1];
      KeysNormalized(f);
      KeysSnoc(f, m[|m| - 1]);
      KeysSnoc(Normalized(f), (m[|m| - 1].0, StoredLevel(m[|m| - 1].0, m[|m| - 1].1)));
      assert f + [m[|m| - 1]] == m;
    }
  }

  lemma {:induction false} KeysSnoc(m: EffectMap, e: (EffectId, int))
    ensures Keys(m + [e]) == Keys(m) + {e.0}
  {
    if m != [] {
      assert (m + [e])[1..] == m[1..] + [e];
      KeysSnoc(m[1..], e);
    } else {
      assert ([] + [e])[1..] == [];
    }
  }

  /** One stored piece parses back to its id and normalised level. */
  lemma PieceParses(e: (EffectId, int))
    requires IsInt32(e.1)
    ensures ParsePiece(Piece(e)) == Some((e.0, StoredLevel(e.0, e.1)))
  {
    var l := StoredLevel(e.0, e.1);
    NameShape(e.0);
    FromStringName(e.0);
    ParseIntToString(l);
    NamedPieceParses(Piece(e), Name(e.0), IntToString(l), e.0, l);
  }

  /** The same, for any name that parses to `id` and any number that parses to `l`. */
  lemma NamedPieceParses(p: string, n: string, d: string, id: EffectId, l: int)
    requires |n| > 0 && forall i :: 0 <= i < |n| ==> IsNameChar(n[i])
    requires FromString(Some(n)) == Some(id)
    requires l >= 1 && (IsCurse(id) ==> l == 1)
    requires |d| > 0 && IsDigit(d[|d| - 1]) && (forall i :: 0 <= i < |d| ==> IsDigit(d[i]) || d[i] == '-')
    requires ParseInt(d) == Some(l)
    requires p == n + ":" + d
    ensures ParsePiece(p) == Some((id, l))
  {
    assert p[0] == n[0] && p[|p| - 1] == d[|d| - 1];
    PieceSplits(n, d);
    TrimKeeps(n);
    TrimKeeps(d);
    PieceSteps(p, n, d, id, l);
  }

  /** A name and a number joined by ':' split back apart. */
  lemma PieceSplits(n: string, d: string)
    requires |n| > 0 && forall i :: 0 <= i < |n| ==> IsNameChar(n[i])
    requires |d| > 0 && forall i :: 0 <= i < |d| ==> IsDigit(d[i]) || d[i] == '-'
    ensures Split(n + ":" + d, ':') == [n, d]
  {
    assert ':' !in n by { assert !IsNameChar(':'); }
    assert ':' !in d;
    assert Join([n, d], ':') == n + ":" + d;
    SplitJoin([n, d], ':');
  }

  /** ParsePiece on a piece with visible ends whose two parts are already known. */
  lemma PieceSteps(p: string, n: string, d: string, id: EffectId, l: int)
    requires p != [] && p[0] > ' ' && p[|p| - 1] > ' '
    requires Split(p, ':') == [n, d]
    requires Trim(n) == n && FromString(Some(n)) == Some(id)
    requires Trim(d) == d && ParseInt(d) == Some(l)
    requires l >= 1 && (IsCurse(id) ==> l == 1)
    ensures ParsePiece(p) == Some((id, l))
  {
    TrimKeeps(p);
  }

  /** Each of `ps` parses to the normalised entry of `m` at the same position. */
  predicate PartsParseTo(ps: seq<string>, m: EffectMap) {
    |ps| == |m|
    && (ps == [] ||
        (PartsParseTo(ps[..|ps| - 1], m[..|m| - 1])
         && ParsePiece(ps[|ps| - 1]) == Some((m[|m| - 1].0, StoredLevel(m[|m| - 1].0, m[|m| - 1].1)))))
  }

  /** Parsing pieces that each parse to the next normalised entry gives the normalised map. */
  lemma {:induction false} ParseAll(ps: seq<string>, m: EffectMap)
    requires PartsParseTo(ps, m) && DistinctKeys(m)
    ensures ParseParts(ps, []) == Normalized(m)
  {
    if m != [] {
      var q := ps[..|ps| - 1];
      FrontLast(ps);
      LastIsNew(m);
      ParseAll(q, m[..|m| - 1]);
      SnocParses(q, ps[|ps| - 1], m);
    }
  }

  /** In a map with distinct keys the last key is new to the front, whose keys stay distinct. */
  lemma LastIsNew(m: EffectMap)
    requires DistinctKeys(m) && m != []
    ensures DistinctKeys(m[..|m| - 1]) && m[|m| - 1].0 !in Keys(m[..|m| - 1])
  {
    var f := m[..|m| - 1];
    forall j | 0 <= j < |f| ensures f[j].0 != m[|m| - 1].0 {
      assert f[j] == m[j];
    }
    NotInKeys(f, m[|m| - 1].0);
  }

  /** One more piece that parses to a new last entry extends the parse by that entry. */
  lemma SnocParses(q: seq<string>, p: string, m: EffectMap)
    requires m != [] && ParseParts(q, []) == Normalized(m[..|m| - 1])
    requires ParsePiece(p) == Some((m[|m| - 1].0, StoredLevel(m[|m| - 1].0, m[|m| - 1].1)))
    requires m[|m| - 1].0 !in Keys(m[..|m| - 1])
    ensures ParseParts(q + [p], []) == Normalized(m)
  {
    var f := m[..|m| - 1];
    var e := m[|m| - 1];
    ParsePartsSnoc(q, p, []);
    KeysNormalized(f);
    StepAppends(Normalized(f), p, e.0, StoredLevel(e.0, e.1));
  }

  /** Every stored piece parses back to its normalised entry. */
  lemma {:induction false} PiecesParse(m: EffectMap)
    requires Int32Levels(m)
    ensures PartsParseTo(Pieces(m), m)
  {
    if m != [] {
      var f := m[..|m| - 1];
      assert Int32Levels(f) by {
        assert forall i :: 0 <= i < |f| ==> f[i] == m[i];
      }
      PiecesParse(f);
      PieceParses(m[|m| - 1]);
      var ps := Pieces(m);
      assert ps[..|ps| - 1] == Pieces(f);
    }
  }

  /** A piece with a new id appends it to the map. */
  lemma StepAppends(acc: EffectMap, part: string, id: EffectId, l: int)
    requires ParsePiece(part) == Some((id, l)) && id !in Keys(acc)
    ensures Step(acc, part) == acc + [(id, l)]
  {
    PutShape(acc, id, l);
  }

  /** The stored piece at each position is that entry's piece. */
  lemma {:induction false} PieceAt(m: EffectMap, i: nat)
    requires i < |m|
    ensures Pieces(m)[i] == Piece(m[i])
  {
    if i < |m| - 1 {
      PieceAt(m[..|m| - 1], i);
    }
  }

  /**
   * Reading back what `writeEffects` stored gives the same ids in the same
   * order, curses at level 1 and every level at least 1; an empty map
   * removes the entry, which reads back as empty.
   */
  lemma WriteReadRoundTrip(pdc: Pdc, m: EffectMap)
    requires DistinctKeys(m) && Int32Levels(m)
    ensures ParseStored(GetString(WrittenPdc(pdc, m), RaffleKeys.EFFECTS)) == Normalized(m)
  {
    if m != [] {
      var ps := Pieces(m);
      forall i | 0 <= i < |ps| ensures ',' !in ps[i] && ps[i] != [] {
        PieceAt(m, i);
        PieceNoComma(m[i]);
      }
      SplitJoin(ps, ',');
      PiecesParse(m);
      ParseAll(ps, m);
    }
  }

  /** A stored piece is never empty and holds no ','. */
  lemma PieceNoComma(e: (EffectId, int))
    ensures ',' !in Piece(e) && Piece(e) != []
  {
    var n := Name(e.0);
    var d := IntToString(StoredLevel(e.0, e.1));
    NameShape(e.0);
    assert Piece(e) == n + ":" + d;
    assert forall k :: 0 <= k < |n| ==> n[k] != ',';
    assert forall k :: 0 <= k < |d| ==> d[k] != ',';
  }

  /** A written string is never blank, so the reader's guard does not drop it. */
  lemma EncodedNotBlank(m: EffectMap)
    requires m != []
    ensures !IsBlank(Encode(m))
  {
    var ps := Pieces(m);
    PieceAt(m, 0);
    NameShape(m[0].0);
    assert ps[0] == Name(m[0].0) + ":" + IntToString(StoredLevel(m[0].0, m[0].1));
    JoinPrefix(ps, ',');
    assert Encode(m)[0] == Name(m[0].0)[0];
  }

  // ---------------------------------------------------------------- apply

  /** Writing one key leaves the string stored under another. */
  lemma GetStringOther(p: Pdc, k: string, v: PdcValue, key: string)
    requires k != key
    ensures GetString(p[k := v], key) == GetString(p, key)
  {
  }

  /** `ApplyResult`: the outcome of one apply. */
  datatype ApplyResult = ApplyResult(
    success: bool, message: string, effect: Option<EffectId>,
    level: int, slotsUsed: int, maxSlots: int)

  function Fail(msg: string): (r: ApplyResult)
    ensures !r.success && r.effect.None?
  {
    ApplyResult(false, msg, None, 0, 0, 0)
  }

  function Success(id: EffectId, lvl: int, used: int, max: int): (r: ApplyResult)
    ensures r.success && r.effect == Some(id)
  {
    ApplyResult(true, "Applied " + Name(id), Some(id), lvl, used, max)
  }

  /** The slot budget: a non-positive argument means the default of 3. */
  function EffectiveMax(maxSlots: int): (r: int)
    ensures r >= 1
    ensures maxSlots > 0 ==> r == maxSlots
    ensures maxSlots <= 0 ==> r == DEFAULT_MAX_SLOTS
  {
    if maxSlots <= 0 then DEFAULT_MAX_SLOTS else maxSlots
  }

  /** The level rule: a curse is stored at 1, a good id at its previous level (0 if absent) plus 1. */
  function NewLevel(effects: EffectMap, id: EffectId): int
    requires WellFormed(effects)
  {
    if IsCurse(id) then 1
    else
      var cur := Get(effects, id).GetOr(0);
      assert IsInt32(cur) by {
        if Get(effects, id).Some? {
          var j :| 0 <= j < |effects| && effects[j] == (id, cur);
          assert GoodEntry(effects[j]);
        }
      }
      AddInt32(cur, 1)
  }

  /** The stored state of a piece: its effect map and slot counter. */
  function Effects(meta: Meta): EffectMap {
    ParseStored(GetString(meta.pdc, RaffleKeys.EFFECTS))
  }

  function Used(meta: Meta): int {
    SlotsUsed(meta.pdc, |Effects(meta)|)
  }

  /** The whole of `applyToArmor`: the result and the armour piece afterwards. */
  function Apply(armor: Option<Item>, maxSlots: Int32, pool: seq<EffectId>, draw: nat): (ApplyResult, Option<Item>) {
    if IsNothing(armor) then (Fail("No armor item."), armor)
    else if !IsArmorName(armor.value.material) then (Fail("Item is not armor."), armor)
    else if armor.value.meta.None? then (Fail("Armor has no meta."), armor)
    else
      var slot := ArmorSlotOf(armor.value.material);
      var meta := armor.value.meta.value;
      if slot.None? then (Fail("Could not determine armor slot."), armor)
      else Decide(armor.value, meta, Effects(meta), Used(meta), slot.value, EffectiveMax(maxSlots), pool, draw)
  }

  /**
   * The part of `applyToArmor` after the item checks, given the piece's
   * stored effects and slot count: the budget, pool, roll and curse-lock
   * checks, then the grant.
   */
  function Decide(item: Item, meta: Meta, effects: EffectMap, used: int, slot: EquipmentSlot, max: int,
                  pool: seq<EffectId>, draw: nat): (ApplyResult, Option<Item>)
    requires WellFormed(effects) && INT_MIN <= used && max <= INT_MAX
  {
    var curse := HasCurse(effects);
    if used >= max then (Fail("Max add-ons reached."), Some(item))
    else if pool == [] then (Fail("Raffle pool is empty."), Some(item))
    else
      var rolled := Rolled(pool, curse, slot, draw);
      if rolled.None? then (Fail("No valid effects to roll for this armor slot."), Some(item))
      else if IsCurse(rolled.value) && curse then (Fail("Armor is curse-locked (no more curses)."), Some(item))
      else Grant(item, meta, rolled.value, effects, used, max)
  }

  /** A successful roll: the id is stored at its new level and the counter goes up by one. */
  function Grant(item: Item, meta: Meta, id: EffectId, effects: EffectMap, used: int, max: int)
    : (ApplyResult, Option<Item>)
    requires WellFormed(effects) && IsInt32(used + 1)
  {
    var lvl := NewLevel(effects, id);
    var pdc' := WrittenPdc(meta.pdc, Put(effects, id, lvl))[RaffleKeys.SLOT_COUNT := PInt(used + 1)];
    (Success(id, lvl, used + 1, max), Some(Item(item.material, item.amount, Some(Meta(pdc', meta.lore)))))
  }

  class Service {
    const pool: Pool

    constructor(pool: Pool)
      ensures this.pool == pool
    {
      this.pool := pool;
    }

    /**
     * `applyToArmor(armor, maxSlots)`. The piece is a value here, so the
     * updated piece is returned; `draw` stands for the random index.
     */
    method ApplyToArmor(armor: Option<Item>, maxSlots: Int32, draw: nat) returns (result: ApplyResult, after: Option<Item>)
      ensures (result, after) == Apply(armor, maxSlots, pool.pool, draw)
    {
      if armor.None? || armor.value.material == AIR {
        return Fail("No armor item."), armor;
      }
      if !IsArmorName(armor.value.material) {
        return Fail("Item is not armor."), armor;
      }
      var max := maxSlots as int;
      if max <= 0 {
        max := DEFAULT_MAX_SLOTS;
      }
      if armor.value.meta.None? {
        return Fail("Armor has no meta."), armor;
      }
      var targetSlot := ArmorSlotOf(armor.value.material);
      if targetSlot.None? {
        return Fail("Could not determine armor slot."), armor;
      }
      result, after := ApplyToPiece(armor.value, armor.value.meta.value, targetSlot.value, max, draw);
    }

    /** The rest of `applyToArmor`: read the stored state, then decide on it. */
    method ApplyToPiece(item: Item, meta: Meta, targetSlot: EquipmentSlot, max: int, draw: nat)
      returns (result: ApplyResult, after: Option<Item>)
      requires max <= INT_MAX
      ensures (result, after) == Decide(item, meta, Effects(meta), Used(meta), targetSlot, max, pool.pool, draw)
    {
      var effects := ReadEffects(meta.pdc);
      var slotsUsed := SlotsUsed(meta.pdc, |effects|);
      result, after := DecideOn(item, meta, effects, slotsUsed, targetSlot, max, draw);
    }

    /** The budget, pool, roll and curse-lock checks of `applyToArmor`, then the store. */
    method DecideOn(item: Item, meta: Meta, effects: EffectMap, slotsUsed: int, targetSlot: EquipmentSlot,
                    max: int, draw: nat)
      returns (result: ApplyResult, after: Option<Item>)
      requires WellFormed(effects) && INT_MIN <= slotsUsed && max <= INT_MAX
      ensures (result, after) == Decide(item, meta, effects, slotsUsed, targetSlot, max, pool.pool, draw)
    {
      ghost var ids := pool.pool;
      var hasCurse := HasCurse(effects);
      if slotsUsed >= max {
        DecideOverBudget(item, meta, effects, slotsUsed, targetSlot, max, ids, draw);
        return Fail("Max add-ons reached."), Some(item);
      }
      if pool.IsEmpty() {
        DecideEmptyPool(item, meta, effects, slotsUsed, targetSlot, max, ids, draw);
        return Fail("Raffle pool is empty."), Some(item);
      }
      var rolled := RollForSlot(pool, hasCurse, targetSlot, draw);
      assert pool.pool == ids;
      if rolled.None? {
        DecideNoCandidate(item, meta, effects, slotsUsed, targetSlot, max, ids, draw);
        return Fail("No valid effects to roll for this armor slot."), Some(item);
      }
      var id := rolled.value;
      if IsCurse(id) && hasCurse {
        return Fail("Armor is curse-locked (no more curses)."), Some(item);
      }
      DecideGrants(item, meta, effects, slotsUsed, targetSlot, max, ids, draw);
      var newLevel, pdc := StoreRoll(meta.pdc, effects, id, slotsUsed);
      assert pool.pool == ids;
      after := Some(Item(item.material, item.amount, Some(Meta(pdc, meta.lore))));
      result := Success(id, newLevel, slotsUsed + 1, max);
    }

    /**
     * The store step of `applyToArmor`: a curse goes in at level 1, a good
     * id one level up; then the map and the incremented counter are written.
     */
    method StoreRoll(pdc: Pdc, effects: EffectMap, id: EffectId, slotsUsed: int) returns (newLevel: int, out: Pdc)
      requires WellFormed(effects) && IsInt32(slotsUsed + 1)
      ensures newLevel == NewLevel(effects, id)
      ensures out == WrittenPdc(pdc, Put(effects, id, newLevel))[RaffleKeys.SLOT_COUNT := PInt(slotsUsed + 1)]
    {
      var updated := effects;
      newLevel := 1;
      if IsCurse(id) {
        updated := Put(updated, id, 1);
        newLevel := 1;
      } else {
        newLevel := NewLevel(effects, id);
        updated := Put(updated, id, newLevel);
      }
      out := WriteEffects(pdc, updated);
      out := out[RaffleKeys.SLOT_COUNT := PInt(slotsUsed + 1)];
    }
  }

  // ---------------------------------------------------------------- properties of an apply

  /** Past the item checks, an apply is the decision on the piece's stored state. */
  lemma ApplyReachesDecide(armor: Option<Item>, maxSlots: Int32, pool: seq<EffectId>, draw: nat)
    requires !IsNothing(armor) && IsArmorName(armor.value.material) && armor.value.meta.Some?
    ensures ArmorSlotOf(armor.value.material).Some?
    ensures var meta := armor.value.meta.value;
            Apply(armor, maxSlots, pool, draw)
            == Decide(armor.value, meta, Effects(meta), Used(meta), ArmorSlotOf(armor.value.material).value,
                      EffectiveMax(maxSlots), pool, draw)
  {
  }

  /** A failed decision leaves the piece as it was and reports no effect. */
  lemma DecideFailure(item: Item, meta: Meta, effects: EffectMap, used: int, slot: EquipmentSlot, max: int,
                      pool: seq<EffectId>, draw: nat)
    requires WellFormed(effects) && INT_MIN <= used && max <= INT_MAX
    ensures var (res, after) := Decide(item, meta, effects, used, slot, max, pool, draw);
            !res.success ==> after == Some(item) && res.effect.None? && res.slotsUsed == 0
  {
  }

  /** A successful decision passed every check and is the grant of the rolled id. */
  lemma DecideSuccess(item: Item, meta: Meta, effects: EffectMap, used: int, slot: EquipmentSlot, max: int,
                      pool: seq<EffectId>, draw: nat)
    requires WellFormed(effects) && INT_MIN <= used && max <= INT_MAX
    requires Decide(item, meta, effects, used, slot, max, pool, draw).0.success
    ensures var rolled := Rolled(pool, HasCurse(effects), slot, draw);
            used < max && pool != [] && rolled.Some? && !(IsCurse(rolled.value) && HasCurse(effects))
            && Decide(item, meta, effects, used, slot, max, pool, draw)
               == Grant(item, meta, rolled.value, effects, used, max)
  {
  }

  /** A piece whose counter has reached the budget is rejected first, and left as it was. */
  lemma DecideOverBudget(item: Item, meta: Meta, effects: EffectMap, used: int, slot: EquipmentSlot, max: int,
                      pool: seq<EffectId>, draw: nat)
    requires WellFormed(effects) && INT_MIN <= used && max <= INT_MAX
    requires used >= max
    ensures Decide(item, meta, effects, used, slot, max, pool, draw) == (Fail("Max add-ons reached."), Some(item))
  {
  }

  /** Within the budget, an empty pool is rejected next. */
  lemma DecideEmptyPool(item: Item, meta: Meta, effects: EffectMap, used: int, slot: EquipmentSlot, max: int,
                      pool: seq<EffectId>, draw: nat)
    requires WellFormed(effects) && INT_MIN <= used && max <= INT_MAX
    requires used < max && pool == []
    ensures Decide(item, meta, effects, used, slot, max, pool, draw) == (Fail("Raffle pool is empty."), Some(item))
  {
  }

  /** With a pool, a roll without candidates is rejected. */
  lemma DecideNoCandidate(item: Item, meta: Meta, effects: EffectMap, used: int, slot: EquipmentSlot, max: int,
                      pool: seq<EffectId>, draw: nat)
    requires WellFormed(effects) && INT_MIN <= used && max <= INT_MAX
    requires used < max && pool != [] && Rolled(pool, HasCurse(effects), slot, draw).None?
    ensures Decide(item, meta, effects, used, slot, max, pool, draw)
            == (Fail("No valid effects to roll for this armor slot."), Some(item))
  {
  }

  /**
   * The curse-locked guard of `applyToArmor` never fires: on a piece that
   * already holds a curse the roll is never a curse, so `Decide` never
   * returns that failure.
   */
  lemma CurseGuardNeverFires(item: Item, meta: Meta, effects: EffectMap, used: int, slot: EquipmentSlot, max: int,
                             pool: seq<EffectId>, draw: nat)
    requires WellFormed(effects) && INT_MIN <= used && max <= INT_MAX
    ensures var rolled := Rolled(pool, HasCurse(effects), slot, draw);
            rolled.Some? && HasCurse(effects) ==> !IsCurse(rolled.value)
    ensures Decide(item, meta, effects, used, slot, max, pool, draw).0 != Fail("Armor is curse-locked (no more curses).")
  {
    if Rolled(pool, HasCurse(effects), slot, draw).Some? {
      RolledIsCandidate(pool, HasCurse(effects), slot, draw);
    }
  }

  /** Once every check passes, the decision is the grant of the rolled id. */
  lemma DecideGrants(item: Item, meta: Meta, effects: EffectMap, used: int, slot: EquipmentSlot, max: int,
                     pool: seq<EffectId>, draw: nat)
    requires WellFormed(effects) && INT_MIN <= used && max <= INT_MAX
    requires used < max && pool != []
    requires var rolled := Rolled(pool, HasCurse(effects), slot, draw);
             rolled.Some? && !(IsCurse(rolled.value) && HasCurse(effects))
    ensures Decide(item, meta, effects, used, slot, max, pool, draw)
            == Grant(item, meta, Rolled(pool, HasCurse(effects), slot, draw).value, effects, used, max)
  {
  }

  /** A failed apply leaves the piece exactly as it was, and reports no effect. */
  lemma FailureLeavesItem(armor: Option<Item>, maxSlots: Int32, pool: seq<EffectId>, draw: nat)
    ensures var (res, after) := Apply(armor, maxSlots, pool, draw);
            !res.success ==> after == armor && res.effect.None? && res.slotsUsed == 0
  {
    if !IsNothing(armor) && IsArmorName(armor.value.material) && armor.value.meta.Some? {
      ApplyReachesDecide(armor, maxSlots, pool, draw);
      var meta := armor.value.meta.value;
      DecideFailure(armor.value, meta, Effects(meta), Used(meta), ArmorSlotOf(armor.value.material).value,
                    EffectiveMax(maxSlots), pool, draw);
    }
  }

  /** The checks run in order: each condition fails with its message once the earlier ones pass. */
  lemma FailureOrder(armor: Option<Item>, maxSlots: Int32, pool: seq<EffectId>, draw: nat)
    ensures IsNothing(armor) ==> Apply(armor, maxSlots, pool, draw).0.message == "No armor item."
    ensures (!IsNothing(armor) && !IsArmorName(armor.value.material))
            ==> Apply(armor, maxSlots, pool, draw).0.message == "Item is not armor."
    ensures (!IsNothing(armor) && IsArmorName(armor.value.material) && armor.value.meta.None?)
            ==> Apply(armor, maxSlots, pool, draw).0.message == "Armor has no meta."
    ensures (!IsNothing(armor) && IsArmorName(armor.value.material) && armor.value.meta.Some?
             && Used(armor.value.meta.value) >= EffectiveMax(maxSlots))
            ==> Apply(armor, maxSlots, pool, draw).0.message == "Max add-ons reached."
    ensures (!IsNothing(armor) && IsArmorName(armor.value.material) && armor.value.meta.Some?
             && Used(armor.value.meta.value) < EffectiveMax(maxSlots) && pool == [])
            ==> Apply(armor, maxSlots, pool, draw).0.message == "Raffle pool is empty."
  {
    if !IsNothing(armor) && IsArmorName(armor.value.material) && armor.value.meta.Some? {
      ApplyReachesDecide(armor, maxSlots, pool, draw);
      var meta := armor.value.meta.value;
      var slot := ArmorSlotOf(armor.value.material).value;
      if Used(meta) >= EffectiveMax(maxSlots) {
        DecideOverBudget(armor.value, meta, Effects(meta), Used(meta), slot, EffectiveMax(maxSlots), pool, draw);
      } else if pool == [] {
        DecideEmptyPool(armor.value, meta, Effects(meta), Used(meta), slot, EffectiveMax(maxSlots), pool, draw);
      }
    }
  }

  /** A success is a grant of the rolled id, after every check has passed. */
  lemma SuccessIsGrant(armor: Option<Item>, maxSlots: Int32, pool: seq<EffectId>, draw: nat)
    requires Apply(armor, maxSlots, pool, draw).0.success
    ensures !IsNothing(armor) && IsArmorName(armor.value.material) && armor.value.meta.Some?
    ensures ArmorSlotOf(armor.value.material).Some?
    ensures var meta := armor.value.meta.value;
            var effects := Effects(meta);
            var rolled := Rolled(pool, HasCurse(effects), ArmorSlotOf(armor.value.material).value, draw);
            Used(meta) < EffectiveMax(maxSlots) && IsInt32(Used(meta) + 1) && pool != []
            && rolled.Some? && !(IsCurse(rolled.value) && HasCurse(effects))
            && Apply(armor, maxSlots, pool, draw)
               == Grant(armor.value, meta, rolled.value, effects, Used(meta), EffectiveMax(maxSlots))
  {
    ApplyReachesDecide(armor, maxSlots, pool, draw);
    var meta := armor.value.meta.value;
    DecideSuccess(armor.value, meta, Effects(meta), Used(meta), ArmorSlotOf(armor.value.material).value,
                  EffectiveMax(maxSlots), pool, draw);
  }

  /**
   * A success adds exactly one slot, stays within the budget, writes the
   * counter with the map, and reports the new count.
   */
  lemma SuccessSlots(armor: Option<Item>, maxSlots: Int32, pool: seq<EffectId>, draw: nat)
    requires Apply(armor, maxSlots, pool, draw).0.success
    ensures var (res, after) := Apply(armor, maxSlots, pool, draw);
            var before := Used(armor.value.meta.value);
            after.Some? && after.value.meta.Some?
            && GetInt(after.value.meta.value.pdc, RaffleKeys.SLOT_COUNT) == Some(before + 1)
            && res.slotsUsed == before + 1
            && res.slotsUsed <= res.maxSlots == EffectiveMax(maxSlots)
  {
    SuccessIsGrant(armor, maxSlots, pool, draw);
  }

  /**
   * A success stores the rolled id at the level rule, keeps every other
   * entry, never rolls a curse onto a cursed piece, and the rolled id is a
   * pool entry allowed for the piece's slot.
   */
  lemma SuccessEffects(armor: Option<Item>, maxSlots: Int32, pool: seq<EffectId>, draw: nat)
    requires Apply(armor, maxSlots, pool, draw).0.success
    ensures var (res, after) := Apply(armor, maxSlots, pool, draw);
            var effects := Effects(armor.value.meta.value);
            var id := res.effect.value;
            var stored := Put(effects, id, res.level);
            id in pool
            && (IsCurse(id) ==> !HasCurse(effects) && res.level == 1)
            && (IsGood(id) ==> res.level == AddInt32(Get(effects, id).GetOr(0), 1))
            && (forall k :: k != id ==> Get(stored, k) == Get(effects, k))
            && Effects(after.value.meta.value) == Normalized(stored)
  {
    SuccessIsGrant(armor, maxSlots, pool, draw);
    var meta := armor.value.meta.value;
    var effects := Effects(meta);
    var slot := ArmorSlotOf(armor.value.material).value;
    var id := Rolled(pool, HasCurse(effects), slot, draw).value;
    RolledIsCandidate(pool, HasCurse(effects), slot, draw);
    GrantStores(armor.value, meta, id, effects, Used(meta), EffectiveMax(maxSlots));
  }

  /** What a grant stores: the read-back map is the normalised put. */
  lemma GrantStores(item: Item, meta: Meta, id: EffectId, effects: EffectMap, used: int, max: int)
    requires WellFormed(effects) && IsInt32(used + 1)
    ensures var (res, after) := Grant(item, meta, id, effects, used, max);
            res.effect == Some(id) && res.level == NewLevel(effects, id)
            && after.Some? && after.value.meta.Some?
            && Effects(after.value.meta.value) == Normalized(Put(effects, id, res.level))
  {
    var lvl := NewLevel(effects, id);
    PutLevels(effects, id, lvl);
    CounterKeepsEffects(meta.pdc, Put(effects, id, lvl), used + 1);
  }

  /** A put of an int level into a well-formed map keeps distinct keys and int levels. */
  lemma PutLevels(effects: EffectMap, id: EffectId, lvl: int)
    requires WellFormed(effects) && IsInt32(lvl)
    ensures DistinctKeys(Put(effects, id, lvl)) && Int32Levels(Put(effects, id, lvl))
  {
    var stored := Put(effects, id, lvl);
    PutDistinct(effects, id, lvl);
    PutEntries(effects, id, lvl);
    forall i | 0 <= i < |stored| ensures IsInt32(stored[i].1) {
      if stored[i] != (id, lvl) {
        var j :| 0 <= j < |effects| && effects[j] == stored[i];
        assert GoodEntry(effects[j]);
      }
    }
  }

  /** Writing the counter after the map leaves the map readable as written. */
  lemma CounterKeepsEffects(pdc: Pdc, m: EffectMap, count: Int32)
    requires DistinctKeys(m) && Int32Levels(m)
    ensures ParseStored(GetString(WrittenPdc(pdc, m)[RaffleKeys.SLOT_COUNT := PInt(count)], RaffleKeys.EFFECTS))
            == Normalized(m)
  {
    WriteReadRoundTrip(pdc, m);
    RaffleKeys.CommaKeysDiffer();
    GetStringOther(WrittenPdc(pdc, m), RaffleKeys.SLOT_COUNT, PInt(count), RaffleKeys.EFFECTS);
  }

  /** The number of curse entries of a map. */
  function CurseCount(m: EffectMap): nat {
    if m == [] then 0 else (if IsCurse(m[0].0) then 1 else 0) + CurseCount(m[1..])
  }

  lemma {:induction false} CurseCountZero(m: EffectMap)
    ensures CurseCount(m) == 0 <==> !HasCurse(m)
  {
    if m != [] {
      CurseCountZero(m[1..]);
    }
  }

  lemma {:induction false} CurseCountPut(m: EffectMap, id: EffectId, v: int)
    ensures CurseCount(Put(m, id, v)) <= CurseCount(m) + (if IsCurse(id) then 1 else 0)
    ensures IsGood(id) ==> CurseCount(Put(m, id, v)) == CurseCount(m)
  {
    if m != [] && m[0].0 != id {
      CurseCountPut(m[1..], id, v);
    }
  }

  lemma {:induction false} CurseCountNormalized(m: EffectMap)
    ensures CurseCount(Normalized(m)) == CurseCount(m)
  {
    if m != [] {
      var f := m[..|m| - 1];
      var e := m[|m| - 1];
      CurseCountNormalized(f);
      CurseCountSnoc(f, e);
      CurseCountSnoc(Normalized(f), (e.0, StoredLevel(e.0, e.1)));
      assert f + [e] == m;
    }
  }

  lemma {:induction false} CurseCountSnoc(m: EffectMap, e: (EffectId, int))
    ensures CurseCount(m + [e]) == CurseCount(m) + (if IsCurse(e.0) then 1 else 0)
  {
    if m != [] {
      assert (m + [e])[1..] == m[1..] + [e];
      CurseCountSnoc(m[1..], e);
    } else {
      assert ([] + [e])[1..] == [];
    }
  }

  /** A grant that passed the curse-lock check keeps a piece at one curse at most. */
  lemma GrantCurses(item: Item, meta: Meta, id: EffectId, effects: EffectMap, used: int, max: int)
    requires WellFormed(effects) && IsInt32(used + 1)
    requires CurseCount(effects) <= 1 && !(IsCurse(id) && HasCurse(effects))
    ensures var after := Grant(item, meta, id, effects, used, max).1;
            after.Some? && after.value.meta.Some? && CurseCount(Effects(after.value.meta.value)) <= 1
  {
    var lvl := NewLevel(effects, id);
    GrantStores(item, meta, id, effects, used, max);
    CurseCountPut(effects, id, lvl);
    CurseCountNormalized(Put(effects, id, lvl));
    CurseCountZero(effects);
  }

  /** A piece with at most one curse still has at most one after any apply. */
  lemma AtMostOneCurse(armor: Option<Item>, maxSlots: Int32, pool: seq<EffectId>, draw: nat)
    requires armor.Some? && armor.value.meta.Some? && CurseCount(Effects(armor.value.meta.value)) <= 1
    ensures var after := Apply(armor, maxSlots, pool, draw).1;
            after.Some? && after.value.meta.Some? && CurseCount(Effects(after.value.meta.value)) <= 1
  {
    if Apply(armor, maxSlots, pool, draw).0.success {
      SuccessIsGrant(armor, maxSlots, pool, draw);
      var meta := armor.value.meta.value;
      var effects := Effects(meta);
      var id := Rolled(pool, HasCurse(effects), ArmorSlotOf(armor.value.material).value, draw).value;
      GrantCurses(armor.value, meta, id, effects, Used(meta), EffectiveMax(maxSlots));
    } else {
      FailureLeavesItem(armor, maxSlots, pool, draw);
    }
  }
}
