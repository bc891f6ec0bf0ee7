/**
 * RaffleEffectReader: the parser of the stored "ID:level,ID:level" string
 * and the highest-level merge used to combine armour pieces.
 */
module RaffleEffectReader {
  import opened Wrappers
  import opened JavaText
  import opened Items
  import opened RaffleEffectIds
  import opened EffectMaps
  import RaffleKeys

  /** The reader's level rule: below 1 becomes 1, and a curse is always 1. */
  function StoredLevel(id: EffectId, lvl: int): (r: int)
    ensures r >= 1
    ensures IsCurse(id) ==> r == 1
    ensures !IsCurse(id) ==> r == Max(lvl, 1)
  {
    var l := if lvl < 1 then 1 else lvl;
    if IsCurse(id) then 1 else l
  }

  /**
   * One comma-separated piece: trimmed, split on ':' into exactly two parts,
   * the id parsed by `RaffleEffectId.fromString`, and the level by
   * `Integer.parseInt` with 1 in place of a malformed number.
   */
  function ParsePiece(part: string): (r: Option<(EffectId, int)>)
    ensures r.Some? ==> r.value.1 >= 1 && IsInt32(r.value.1)
    ensures r.Some? && IsCurse(r.value.0) ==> r.value.1 == 1
  {
    var token := Trim(part);
    if token == [] then None
    else
      var kv := Split(token, ':');
      if |kv| != 2 then None
      else
        match FromString(Some(Trim(kv[0])))
        case None => None
        case Some(id) => Some((id, StoredLevel(id, ParseInt(Trim(kv[1])).GetOr(1))))
  }

  /** One loop step: a parsed piece is `put`, anything else is skipped. */
  function Step(acc: EffectMap, part: string): EffectMap {
    match ParsePiece(part)
    case None => acc
    case Some(p) => Put(acc, p.0, p.1)
  }

  /** The parsing loop over the pieces, from left to right. */
  function ParseParts(parts: seq<string>, acc: EffectMap): EffectMap
    decreases |parts|
  {
    if parts == [] then acc else ParseParts(parts[1..], Step(acc, parts[0]))
  }

  /** Every level a parse stores is an `int` of at least 1, and exactly 1 for a curse. */
  predicate WellFormed(m: EffectMap) {
    DistinctKeys(m) && forall i :: 0 <= i < |m| ==> GoodEntry(m[i])
  }

  predicate GoodEntry(e: (EffectId, int)) {
    e.1 >= 1 && IsInt32(e.1) && (IsCurse(e.0) ==> e.1 == 1)
  }

  lemma StepWellFormed(acc: EffectMap, part: string)
    requires WellFormed(acc)
    ensures WellFormed(Step(acc, part))
  {
    var p := ParsePiece(part);
    if p.Some? {
      PutDistinct(acc, p.value.0, p.value.1);
      PutEntries(acc, p.value.0, p.value.1);
    }
  }

  lemma {:induction false} ParsePartsWellFormed(parts: seq<string>, acc: EffectMap)
    requires WellFormed(acc)
    ensures WellFormed(ParseParts(parts, acc))
    decreases |parts|
  {
    if parts != [] {
      StepWellFormed(acc, parts[0]);
      ParsePartsWellFormed(parts[1..], Step(acc, parts[0]));
    }
  }

  /** The loop is a left fold: the last piece is the last step. */
  lemma {:induction false} ParsePartsSnoc(parts: seq<string>, p: string, acc: EffectMap)
    ensures ParseParts(parts + [p], acc) == Step(ParseParts(parts, acc), p)
    decreases |parts|
  {
    if parts == [] {
      assert [] + [p] == [p];
    } else {
      assert (parts + [p])[1..] == parts[1..] + [p];
      ParsePartsSnoc(parts[1..], p, Step(acc, parts[0]));
    }
  }

  /** The whole stored string, before any blank guard. */
  function ParseString(raw: string): EffectMap {
    ParseParts(Split(raw, ','), [])
  }

  /**
   * The parsed map: empty when nothing is stored, otherwise the loop over
   * the comma pieces. Every level is at least 1, a curse is 1 and ids are
   * distinct.
   */
  function ParseStored(raw: Option<string>): (m: EffectMap)
    ensures WellFormed(m)
  {
    ParsePartsWellFormed(if raw.Some? then Split(raw.value, ',') else [], []);
    if raw.None? then [] else ParseString(raw.value)
  }

  /** If an id repeats, the later piece decides its level. */
  lemma LaterPieceWins(parts: seq<string>, p: string, id: EffectId, lvl: int)
    requires ParsePiece(p) == Some((id, lvl))
    ensures Get(ParseParts(parts + [p], []), id) == Some(lvl)
  {
    ParsePartsSnoc(parts, p, []);
  }

  /** A piece that does not parse leaves the map as it was. */
  lemma SkippedPiece(parts: seq<string>, p: string)
    requires ParsePiece(p).None?
    ensures ParseParts(parts + [p], []) == ParseParts(parts, [])
  {
    ParsePartsSnoc(parts, p, []);
  }

  /** A trimmed-empty piece, a piece without exactly one ':' part pair, or an unknown id is skipped. */
  lemma SkipRules(part: string)
    ensures Trim(part) == [] ==> ParsePiece(part).None?
    ensures |Split(Trim(part), ':')| != 2 ==> ParsePiece(part).None?
    ensures (var kv := Split(Trim(part), ':'); |kv| == 2 && FromString(Some(Trim(kv[0]))).None?)
              ==> ParsePiece(part).None?
  {
  }

  /** A malformed level reads as 1 on a good effect. */
  lemma MalformedLevel(part: string, id: EffectId)
    requires Trim(part) != []
    requires var kv := Split(Trim(part), ':'); |kv| == 2 && FromString(Some(Trim(kv[0]))) == Some(id)
    requires ParseInt(Trim(Split(Trim(part), ':')[1])).None?
    ensures ParsePiece(part) == Some((id, 1))
  {
  }

  // ---------------------------------------------------------------- blank input

  lemma {:induction false} RawSplitKeepsOut(s: string, sep: char, c: char)
    requires c !in s
    ensures forall i :: 0 <= i < |RawSplit(s, sep)| ==> c !in RawSplit(s, sep)[i]
    decreases |s|
  {
    if |s| > 0 {
      RawSplitKeepsOut(s[1..], sep, c);
    }
  }

  lemma SplitKeepsOut(s: string, sep: char, c: char)
    requires c !in s
    ensures forall i :: 0 <= i < |Split(s, sep)| ==> c !in Split(s, sep)[i]
  {
    RawSplitKeepsOut(s, sep, c);
  }

  lemma TrimKeepsOut(s: string, c: char)
    requires c !in s
    ensures c !in Trim(s)
  {
    var st := TrimStartIndex(s, 0);
    var t := Trim(s);
    assert forall k :: 0 <= k < |t| ==> t[k] == s[st + k];
  }

  lemma {:induction false} NoColonParts(parts: seq<string>, acc: EffectMap)
    requires forall i :: 0 <= i < |parts| ==> ':' !in parts[i]
    ensures ParseParts(parts, acc) == acc
    decreases |parts|
  {
    if parts != [] {
      TrimKeepsOut(parts[0], ':');
      NoColonParts(parts[1..], acc);
    }
  }

  /** A string without ':' holds no effect. */
  lemma NoColonNoEffects(raw: string)
    requires ':' !in raw
    ensures ParseString(raw) == []
  {
    SplitKeepsOut(raw, ',', ':');
    NoColonParts(Split(raw, ','), []);
  }

  /** A string that trims to nothing has no ':' in it. */
  lemma TrimEmptyNoColon(raw: string)
    requires Trim(raw) == []
    ensures ':' !in raw
  {
    TrimEmptyPad(raw);
    assert forall i :: 0 <= i < |raw| ==> raw[i] != ':';
  }

  // ---------------------------------------------------------------- reading

  /**
   * `readFromPdc`: an absent container or a stored string that trims to
   * nothing gives the empty map; otherwise the pieces are parsed in order.
   */
  method ReadFromPdc(pdc: Option<Pdc>) returns (out: EffectMap)
    ensures pdc.None? ==> out == []
    ensures pdc.Some? ==> out == ParseStored(GetString(pdc.value, RaffleKeys.EFFECTS))
  {
    if pdc.None? {
      return [];
    }
    var raw := GetString(pdc.value, RaffleKeys.EFFECTS);
    if raw.None? {
      return [];
    }
    if Trim(raw.value) == [] {
      TrimEmptyNoColon(raw.value);
      NoColonNoEffects(raw.value);
      return [];
    }
    var parts := Split(raw.value, ',');
    out := [];
    var i := 0;
    while i < |parts|
      invariant 0 <= i <= |parts|
      invariant ParseParts(parts[i..], out) == ParseParts(parts, [])
    {
      assert parts[i..][1..] == parts[i + 1..];
      var p := ParsePiece(parts[i]);
      if p.Some? {
        out := Put(out, p.value.0, p.value.1);
      }
      i := i + 1;
    }
  }

  /** The effects stored on an item, as the reader sees them. */
  function ItemEffects(item: Option<Item>): (m: EffectMap)
    ensures item.None? || item.value.meta.None? ==> m == []
  {
    if item.None? || item.value.meta.None? then []
    else ParseStored(GetString(item.value.meta.value.pdc, RaffleKeys.EFFECTS))
  }

  /** `readFromItem`: no item or no meta gives the empty map. */
  method ReadFromItem(item: Option<Item>) returns (out: EffectMap)
    ensures out == ItemEffects(item)
    ensures WellFormed(out)
  {
    if item.None? || item.value.meta.None? {
      return [];
    }
    out := ReadFromPdc(Some(item.value.meta.value.pdc));
  }

  // ---------------------------------------------------------------- merging

  /** One merge step: the normalised level replaces the current one only when higher. */
  function MergeStep(into: EffectMap, e: (EffectId, int)): EffectMap {
    var lvl := StoredLevel(e.0, e.1);
    var cur := Get(into, e.0).GetOr(0);
    if lvl > cur then Put(into, e.0, lvl) else into
  }

  /** The merge loop over `add`, in its iteration order. */
  function Merged(into: EffectMap, add: EffectMap): EffectMap
    decreases |add|
  {
    if add == [] then into else Merged(MergeStep(into, add[0]), add[1..])
  }

  /** One id's level after meeting an added level: the higher of the two, the added one normalised. */
  function Raise(cur: Option<int>, add: Option<int>, id: EffectId): Option<int> {
    match add
    case None => cur
    case Some(l) => Some(Max(cur.GetOr(0), StoredLevel(id, l)))
  }

  /** The level a merge leaves for one id. */
  function MergedLevel(into: EffectMap, add: EffectMap, id: EffectId): Option<int> {
    Raise(Get(into, id), Get(add, id), id)
  }

  /** Meeting two added levels in either order gives the same level. */
  lemma RaiseCommutes(cur: Option<int>, x: Option<int>, y: Option<int>, id: EffectId)
    ensures Raise(Raise(cur, x, id), y, id) == Raise(Raise(cur, y, id), x, id)
  {
  }

  lemma MergeStepGet(into: EffectMap, e: (EffectId, int), id: EffectId)
    ensures Get(MergeStep(into, e), id)
         == if id == e.0 then Some(Max(Get(into, id).GetOr(0), StoredLevel(id, e.1))) else Get(into, id)
  {
  }

  /**
   * The merge sets every id of `add` to the higher of its current level
   * (0 when absent) and its normalised level in `add`, and leaves every
   * other id as it was.
   */
  lemma {:induction false} MergedGet(into: EffectMap, add: EffectMap, id: EffectId)
    requires DistinctKeys(add)
    ensures Get(Merged(into, add), id) == MergedLevel(into, add, id)
    decreases |add|
  {
    if add != [] {
      var next := MergeStep(into, add[0]);
      MergedGet(next, add[1..], id);
      MergeStepGet(into, add[0], id);
      HeadNotInTail(add);
    }
  }

  /** A merge never lowers a level and never drops an id. */
  lemma MergeNeverLowers(into: EffectMap, add: EffectMap, id: EffectId)
    requires DistinctKeys(add)
    requires Get(into, id).Some?
    ensures Get(Merged(into, add), id).Some?
    ensures Get(Merged(into, add), id).value >= Get(into, id).value
  {
    MergedGet(into, add, id);
  }

  /** Ids that `add` does not hold keep their level. */
  lemma MergeKeepsOthers(into: EffectMap, add: EffectMap, id: EffectId)
    requires DistinctKeys(add) && id !in Keys(add)
    ensures Get(Merged(into, add), id) == Get(into, id)
  {
    MergedGet(into, add, id);
  }

  /** Merging the same source twice changes nothing the second time. */
  lemma MergeIdempotent(into: EffectMap, add: EffectMap)
    requires DistinctKeys(add)
    ensures SameEntries(Merged(Merged(into, add), add), Merged(into, add))
  {
    forall id ensures Get(Merged(Merged(into, add), add), id) == Get(Merged(into, add), id) {
      MergedGet(into, add, id);
      MergedGet(Merged(into, add), add, id);
    }
  }

  /** Merging two sources in either order gives the same levels. */
  lemma MergeOrderIndependent(into: EffectMap, a: EffectMap, b: EffectMap)
    requires DistinctKeys(a) && DistinctKeys(b)
    ensures SameEntries(Merged(Merged(into, a), b), Merged(Merged(into, b), a))
  {
    var ma := Merged(into, a);
    var mb := Merged(into, b);
    forall id ensures Get(Merged(ma, b), id) == Get(Merged(mb, a), id) {
      MergedGet(into, a, id);
      MergedGet(into, b, id);
      MergedGet(ma, b, id);
      MergedGet(mb, a, id);
      RaiseCommutes(Get(into, id), Get(a, id), Get(b, id), id);
    }
  }

  /** The caller's map that `mergeHighest` updates in place. */
  class LevelTable {
    var entries: EffectMap

    constructor()
      ensures entries == []
    {
      entries := [];
    }
  }

  /**
   * `mergeHighest(into, add)`: nothing happens for a null table or a null
   * `add`; otherwise every entry of `add` is merged in order.
   */
  method MergeHighest(into: LevelTable?, add: Option<EffectMap>)
    modifies into
    ensures into != null && add.Some? ==> into.entries == Merged(old(into.entries), add.value)
    ensures into != null && add.None? ==> into.entries == old(into.entries)
  {
    if into == null || add.None? || add.value == [] {
      return;
    }
    var es := add.value;
    var i := 0;
    while i < |es|
      invariant 0 <= i <= |es|
      invariant Merged(into.entries, es[i..]) == Merged(old(into.entries), es)
    {
      assert es[i..][1..] == es[i + 1..];
      var id := es[i].0;
      var lvl := es[i].1;
      if lvl < 1 {
        lvl := 1;
      }
      if IsCurse(id) {
        lvl := 1;
      }
      var cur := Get(into.entries, id).GetOr(0);
      if lvl > cur {
        into.entries := Put(into.entries, id, lvl);
      }
      i := i + 1;
    }
  }
}
