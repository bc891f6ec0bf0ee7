/**
 * The raffle package's RaffleLoreUtil: `applyLore` rebuilds an armour
 * piece's whole lore from its stored effects. Lines are kept in their
 * untranslated '&'-code form.
 */
module RaffleLore {
  import opened Wrappers
  import opened JavaText
  import opened Items
  import opened RaffleEffectIds
  import opened EffectMaps
  import opened RaffleEffectReader

  /** `displayName`: the readable name of every id. */
  function DisplayName(id: EffectId): string {
    match id
    case VITALITY => "Vitality"
    case IRON_WILL => "Iron Will"
    case BLOOD_MENDING => "Blood Mending"
    case SKYBOUND => "Skybound"
    case EMBER_WARD => "Ember Ward"
    case FORTUNE => "Fortune"
    case TIDEBOUND => "Tidebound"
    case OCEAN_GRACE => "Ocean Grace"
    case VILLAGER_FAVOR => "Villager's Favor"
    case TERROR => "Terror"
    case DREAD => "Dread"
    case MISSTEP => "Misstep"
  }

  /** `roman`: I..X for 1..10, the decimal string for anything else. */
  function Roman(n: int): (r: string)
    ensures !(1 <= n <= 10) ==> r == IntToString(n)
  {
    if n == 1 then "I"
    else if n == 2 then "II"
    else if n == 3 then "III"
    else if n == 4 then "IV"
    else if n == 5 then "V"
    else if n == 6 then "VI"
    else if n == 7 then "VII"
    else if n == 8 then "VIII"
    else if n == 9 then "IX"
    else if n == 10 then "X"
    else IntToString(n)
  }

  /** Outside 1..10 the numeral reads back as the number itself. */
  lemma RomanDecimal(n: int)
    requires IsInt32(n) && !(1 <= n <= 10)
    ensures ParseInt(Roman(n)) == Some(n)
  {
    ParseIntToString(n);
  }

  /** Inside 1..10 the numeral is made of roman letters only, so it never looks like a number. */
  lemma RomanLetters(n: int)
    requires 1 <= n <= 10
    ensures |Roman(n)| > 0 && forall i :: 0 <= i < |Roman(n)| ==> Roman(n)[i] in {'I', 'V', 'X'}
  {
  }

  // ---------------------------------------------------------------- the sort

  /** The sort comparator: GOOD ids before curses, then by name. */
  predicate Before(a: EffectId, b: EffectId) {
    if IsCurse(a) != IsCurse(b) then !IsCurse(a) else StrLess(Name(a), Name(b))
  }

  lemma BeforeTransitive(a: EffectId, b: EffectId, c: EffectId)
    requires Before(a, b) && Before(b, c)
    ensures Before(a, c)
  {
    if IsCurse(a) == IsCurse(b) && IsCurse(b) == IsCurse(c) {
      StrLessTransitive(Name(a), Name(b), Name(c));
    }
  }

  lemma BeforeIrreflexive(a: EffectId)
    ensures !Before(a, a)
  {
    StrLessIrreflexive(Name(a));
  }

  /** Every pair of the sequence is in comparator order. */
  predicate Ordered(s: seq<EffectId>) {
    forall i, j :: 0 <= i < j < |s| ==> Before(s[i], s[j])
  }

  /** All twelve ids in the order the comparator puts them. */
  const SortOrder: seq<EffectId> :=
    [BLOOD_MENDING, EMBER_WARD, FORTUNE, IRON_WILL, OCEAN_GRACE, SKYBOUND, TIDEBOUND, VILLAGER_FAVOR, VITALITY,
     DREAD, MISSTEP, TERROR]

  lemma InSortOrder(id: EffectId)
    ensures id in SortOrder
  {
  }

  /** SortOrder really is sorted by the comparator. */
  lemma SortOrderOrdered()
    ensures Ordered(SortOrder)
  {
    var s := SortOrder;
    assert StrLess("VILLAGER_FAVOR"[2..], "VITALITY"[2..]);
    assert forall i :: 0 <= i < |s| - 1 ==> Before(s[i], s[i + 1]);
    ChainOrdered(s);
  }

  /** Adjacent pairs in order give every pair in order. */
  lemma {:induction false} ChainOrdered(s: seq<EffectId>)
    requires forall i :: 0 <= i < |s| - 1 ==> Before(s[i], s[i + 1])
    ensures Ordered(s)
  {
    if |s| > 1 {
      ChainOrdered(s[1..]);
      forall j | 1 <= j < |s| ensures Before(s[0], s[j]) {
        HeadBefore(s, j);
      }
      forall i, j | 0 <= i < j < |s| ensures Before(s[i], s[j]) {
        if i > 0 {
          assert s[i] == s[1..][i - 1] && s[j] == s[1..][j - 1];
        }
      }
    }
  }

  lemma {:induction false} HeadBefore(s: seq<EffectId>, j: nat)
    requires forall i :: 0 <= i < |s| - 1 ==> Before(s[i], s[i + 1])
    requires 1 <= j < |s|
    ensures Before(s[0], s[j])
  {
    if j > 1 {
      HeadBefore(s, j - 1);
      BeforeTransitive(s[0], s[j - 1], s[j]);
    }
  }

  /** The entries of `m` in the order of `order`, each id of `order` that `m` holds once. */
  function Present(order: seq<EffectId>, m: EffectMap): (r: seq<(EffectId, int)>)
    ensures forall k :: 0 <= k < |r| ==> r[k].0 in order && Get(m, r[k].0) == Some(r[k].1)
  {
    if order == [] then []
    else
      var head := if order[0] in Keys(m) then [(order[0], Get(m, order[0]).value)] else [];
      head + Present(order[1..], m)
  }

  /** Some entry of `es` carries `id`. */
  predicate Listed(es: seq<(EffectId, int)>, id: EffectId) {
    exists k :: 0 <= k < |es| && es[k].0 == id
  }

  /** Every pair of entries is in comparator order of their ids. */
  predicate OrderedEntries(es: seq<(EffectId, int)>) {
    forall i, j :: 0 <= i < j < |es| ==> Before(es[i].0, es[j].0)
  }

  /** The tail of an ordered sequence is ordered and comes after its head. */
  lemma OrderedTail(order: seq<EffectId>)
    requires Ordered(order) && order != []
    ensures Ordered(order[1..])
    ensures forall x :: x in order[1..] ==> Before(order[0], x)
  {
    var rest := order[1..];
    forall i, j | 0 <= i < j < |rest| ensures Before(rest[i], rest[j]) {
      assert rest[i] == order[i + 1] && rest[j] == order[j + 1];
    }
    forall x | x in rest ensures Before(order[0], x) {
      var k :| 0 <= k < |rest| && rest[k] == x;
      assert order[k + 1] == x;
    }
  }

  /** An entry before every entry of an ordered list extends it in order. */
  lemma ConsOrdered(e: (EffectId, int), t: seq<(EffectId, int)>)
    requires OrderedEntries(t)
    requires forall k :: 0 <= k < |t| ==> Before(e.0, t[k].0)
    ensures OrderedEntries([e] + t)
  {
    var r := [e] + t;
    forall i, j | 0 <= i < j < |r| ensures Before(r[i].0, r[j].0) {
      assert r[j] == t[j - 1];
      if i > 0 {
        assert r[i] == t[i - 1];
      }
    }
  }

  /** Filtering an ordered sequence keeps it ordered. */
  lemma {:induction false} PresentOrdered(order: seq<EffectId>, m: EffectMap)
    requires Ordered(order)
    ensures OrderedEntries(Present(order, m))
  {
    if order != [] {
      var rest := order[1..];
      OrderedTail(order);
      PresentOrdered(rest, m);
      if order[0] in Keys(m) {
        ConsOrdered((order[0], Get(m, order[0]).value), Present(rest, m));
      }
    }
  }

  /** Every id of `order` that `m` holds is listed. */
  lemma {:induction false} PresentComplete(order: seq<EffectId>, m: EffectMap, id: EffectId)
    requires id in order && id in Keys(m)
    ensures Listed(Present(order, m), id)
  {
    var t := Present(order[1..], m);
    if order[0] == id {
      assert Present(order, m)[0].0 == id;
    } else {
      PresentComplete(order[1..], m, id);
      ListedCons(order[0], m, t, id);
    }
  }

  lemma ListedCons(first: EffectId, m: EffectMap, t: seq<(EffectId, int)>, id: EffectId)
    requires Listed(t, id)
    ensures Listed((if first in Keys(m) then [(first, Get(m, first).value)] else []) + t, id)
  {
    var r := (if first in Keys(m) then [(first, Get(m, first).value)] else []) + t;
    var k :| 0 <= k < |t| && t[k].0 == id;
    assert r[|r| - |t| + k] == t[k];
  }

  /** The entries `applyLore` lists, as its sort leaves them. */
  function Sorted(m: EffectMap): seq<(EffectId, int)> {
    Present(SortOrder, m)
  }

  /**
   * The sort's outcome: each id of the map exactly once, with its level,
   * GOOD ids before curses and by name within each group.
   */
  lemma SortedSpec(m: EffectMap)
    ensures forall k :: 0 <= k < |Sorted(m)| ==> Get(m, Sorted(m)[k].0) == Some(Sorted(m)[k].1)
    ensures forall id :: id in Keys(m) ==> Listed(Sorted(m), id)
    ensures OrderedEntries(Sorted(m))
    ensures forall i, j :: 0 <= i < j < |Sorted(m)| ==> Sorted(m)[i].0 != Sorted(m)[j].0
  {
    SortOrderOrdered();
    PresentOrdered(SortOrder, m);
    forall id | id in Keys(m) ensures Listed(Sorted(m), id) {
      InSortOrder(id);
      PresentComplete(SortOrder, m, id);
    }
    forall i, j | 0 <= i < j < |Sorted(m)| ensures Sorted(m)[i].0 != Sorted(m)[j].0 {
      BeforeIrreflexive(Sorted(m)[i].0);
    }
  }

  // ---------------------------------------------------------------- the lines

  function SlotsLine(used: int, maxSlots: int): string {
    "&8\U{25A0} &7Add-On Slots: &f" + IntToString(used) + "&7/&f" + IntToString(maxSlots)
  }

  const NoInfluenceLine: string := "&8\U{25A0} &7No lingering influence."
  const HeaderLine: string := "&8\U{25A0} &7Imprinted Effects:"
  const ClosingLine: string := "&8\U{25A0} &8&o\"The armor remembers...\""

  /** A curse or a non-levelable GOOD id shows its name only; a levelable one adds roman(max(1, level)). */
  function EffectLine(id: EffectId, level: int): (r: string)
    ensures IsCurse(id) ==> r == "&8\U{25A0} &5" + DisplayName(id)
    ensures !IsCurse(id) && !CanLevel(id) ==> r == "&8\U{25A0} &d" + DisplayName(id)
    ensures CanLevel(id) ==> r == "&8\U{25A0} &d" + DisplayName(id) + " &7(" + Roman(Max(1, level)) + ")"
  {
    if IsCurse(id) then "&8\U{25A0} &5" + DisplayName(id)
    else if CanLevel(id) then "&8\U{25A0} &d" + DisplayName(id) + " &7(" + Roman(Max(1, level)) + ")"
    else "&8\U{25A0} &d" + DisplayName(id)
  }

  function EffectLines(es: seq<(EffectId, int)>): (r: seq<string>)
    ensures |r| == |es|
  {
    if es == [] then [] else EffectLines(es[..|es| - 1]) + [EffectLine(es[|es| - 1].0, es[|es| - 1].1)]
  }

  lemma {:induction false} EffectLineAt(es: seq<(EffectId, int)>, k: nat)
    requires k < |es|
    ensures EffectLines(es)[k] == EffectLine(es[k].0, es[k].1)
  {
    if k < |es| - 1 {
      EffectLineAt(es[..|es| - 1], k);
    }
  }

  /** The lore `applyLore` builds for a piece holding `m`. */
  function LoreOf(m: EffectMap, maxSlots: int): seq<string> {
    [SlotsLine(|m|, maxSlots)]
    + (if m == [] then [NoInfluenceLine] else [HeaderLine] + EffectLines(Sorted(m)))
    + [ClosingLine]
  }

  /**
   * The shape of the lore: the slot count line first, the closing quote
   * last, and in between either the "no influence" line or the header
   * followed by one line per sorted entry.
   */
  lemma LoreShape(m: EffectMap, maxSlots: int)
    ensures var lore := LoreOf(m, maxSlots);
            |lore| >= 3 && lore[0] == SlotsLine(|m|, maxSlots) && lore[|lore| - 1] == ClosingLine
    ensures m == [] ==> LoreOf(m, maxSlots) == [SlotsLine(0, maxSlots), NoInfluenceLine, ClosingLine]
    ensures m != [] ==> var lore := LoreOf(m, maxSlots);
            |lore| == |Sorted(m)| + 3 && lore[1] == HeaderLine
            && forall k :: 0 <= k < |Sorted(m)| ==> lore[k + 2] == EffectLine(Sorted(m)[k].0, Sorted(m)[k].1)
  {
    if m != [] {
      forall k | 0 <= k < |Sorted(m)| ensures LoreOf(m, maxSlots)[k + 2] == EffectLine(Sorted(m)[k].0, Sorted(m)[k].1) {
        EffectLineAt(Sorted(m), k);
      }
    }
  }

  /** A non-empty map lists at least one effect line. */
  lemma SortedNonEmpty(m: EffectMap)
    requires m != []
    ensures |Sorted(m)| > 0
  {
    assert m[0].0 in Keys(m);
    InSortOrder(m[0].0);
    PresentComplete(SortOrder, m, m[0].0);
  }

  /** The piece after `applyLore(armor, maxSlots)`. */
  function Relored(armor: Option<Item>, maxSlots: int): Option<Item> {
    if armor.None? || armor.value.meta.None? then armor
    else Some(armor.value.(meta := Some(armor.value.meta.value.(lore := LoreOf(ItemEffects(armor), maxSlots)))))
  }

  /**
   * `applyLore(armor, maxSlots)` (and `updateLore`, which calls it): no item
   * or no meta changes nothing; otherwise the whole lore is replaced by the
   * lines built from the stored effects, the prior lore dropped, and the
   * material, amount and container are kept.
   */
  method ApplyLore(armor: Option<Item>, maxSlots: int) returns (after: Option<Item>)
    ensures after == Relored(armor, maxSlots)
    ensures armor.None? || armor.value.meta.None? ==> after == armor
    ensures armor.Some? && armor.value.meta.Some? ==>
              after == Some(Item(armor.value.material, armor.value.amount,
                                 Some(Meta(armor.value.meta.value.pdc, LoreOf(ItemEffects(armor), maxSlots)))))
  {
    if armor.None? || armor.value.meta.None? {
      return armor;
    }
    var effects := ReadFromItem(armor);
    var lore := BuildLore(effects, maxSlots);
    after := Some(Item(armor.value.material, armor.value.amount, Some(Meta(armor.value.meta.value.pdc, lore))));
  }

  /** The list `applyLore` fills: slot line, then the body, then the closing line. */
  method BuildLore(effects: EffectMap, maxSlots: int) returns (lore: seq<string>)
    ensures lore == LoreOf(effects, maxSlots)
  {
    lore := [SlotsLine(|effects|, maxSlots)];
    if effects == [] {
      lore := lore + [NoInfluenceLine];
    } else {
      var lines := BuildEffectLines(Sorted(effects));
      lore := lore + [HeaderLine] + lines;
    }
    lore := lore + [ClosingLine];
  }

  /** The effect lines, appended one by one in the given order. */
  method BuildEffectLines(sorted: seq<(EffectId, int)>) returns (lines: seq<string>)
    ensures lines == EffectLines(sorted)
  {
    lines := [];
    var i := 0;
    while i < |sorted|
      invariant 0 <= i <= |sorted|
      invariant lines == EffectLines(sorted[..i])
    {
      assert sorted[..i + 1][..i] == sorted[..i];
      lines := lines + [EffectLine(sorted[i].0, sorted[i].1)];
      i := i + 1;
    }
    assert sorted[..i] == sorted;
  }
}
