/**
 * The listener package's RaffleLoreUtil: the vague, slot-count-only lore.
 * The update drops its own earlier lines (the slot line and its flavour
 * bullets), keeps every other line in order, and appends a fresh slot
 * line and one bullet per threshold reached.
 */
module RaffleSlotLore {
  import opened Wrappers
  import opened JavaText
  import opened Items
  import opened ChatColors
  import opened RaffleKeys

  const STRIP_HEADER: string := "Add-On Slots:"

  const SLOTS_TEXT: string := "Add-On Slots: "
  const LINGERS: string := "• Something lingers within..."
  const ALTERED: string := "• The armor feels altered"
  const DISCERN: string := "• Its nature is hard to discern"

  /** The three flavour bullets, in dark gray, in the order the thresholds 1, 2, 3 add them. */
  const Flavour: seq<string> := [DARK_GRAY + LINGERS, DARK_GRAY + ALTERED, DARK_GRAY + DISCERN]

  /** `countSlots`: 0 when nothing or only blanks is stored, else the number of '|' pieces. */
  function CountSlots(encoded: Option<string>): (n: nat)
    ensures encoded.None? || IsTrimPad(encoded.value) ==> n == 0
    ensures encoded.Some? && !IsTrimPad(encoded.value) && '|' !in encoded.value ==> n == 1
  {
    if encoded.None? then 0
    else
      TrimEmptyIff(encoded.value);
      if Trim(encoded.value) == [] then 0 else |Split(encoded.value, '|')|
  }

  /** Pieces joined with '|' count as that many slots. */
  lemma CountSlotsJoin(parts: seq<string>)
    requires |parts| >= 1
    requires forall i :: 0 <= i < |parts| ==> '|' !in parts[i] && parts[i] != []
    requires !IsTrimPad(Join(parts, '|'))
    ensures CountSlots(Some(Join(parts, '|'))) == |parts|
  {
    var s := Join(parts, '|');
    TrimEmptyIff(s);
    assert CountSlots(Some(s)) == |Split(s, '|')|;
    SplitJoin(parts, '|');
  }

  /** The line the update appends, coloured gray and yellow. */
  function SlotLine(used: int, maxSlots: int): string {
    GRAY + (SLOTS_TEXT + (YELLOW + IntToString(used) + GRAY + "/" + YELLOW + IntToString(maxSlots)))
  }

  /** The lines the update removes, judged on their colour-stripped text. */
  predicate Owned(line: string) {
    var s := StripColor(line);
    StartsWith(s, STRIP_HEADER)
    || (StartsWith(s, "• ") && (Contains(s, "lingers") || Contains(s, "altered") || Contains(s, "discern")))
  }

  predicate IsSlotLine(line: string) {
    StartsWith(StripColor(line), STRIP_HEADER)
  }

  /** The block the update appends: the slot line, then the first min(used, 3) bullets. */
  function Block(used: int, maxSlots: int): (r: seq<string>)
    ensures |r| == 1 + Min(Max(used, 0), 3)
  {
    [SlotLine(used, maxSlots)] + Flavour[..Min(Max(used, 0), 3)]
  }

  /** The lore after `updateVagueLore(item, maxSlots)`: other lines, then the new block. */
  function VagueLore(lore: seq<string>, used: int, maxSlots: int): seq<string> {
    RemoveIf(lore, Owned) + Block(used, maxSlots)
  }

  /** `updateVagueLore(item, maxSlots)` on an item as a value. */
  function UpdatedItem(item: Option<Item>, maxSlots: int): Option<Item> {
    if item.None? || item.value.meta.None? then item
    else
      var meta := item.value.meta.value;
      var used := CountSlots(GetString(meta.pdc, ARMOR_EFFECTS));
      Some(item.value.(meta := Some(meta.(lore := VagueLore(meta.lore, used, maxSlots)))))
  }

  /**
   * `updateVagueLore`: removeIf, then one `add` for the slot line and one
   * per threshold the slot count reaches. A null item or missing meta is
   * left alone; the container is not touched.
   */
  method UpdateVagueLore(item: Option<Item>, maxSlots: int) returns (after: Option<Item>)
    ensures after == UpdatedItem(item, maxSlots)
  {
    if item.None? {
      return item;
    }
    if item.value.meta.None? {
      return item;
    }
    var meta := item.value.meta.value;
    var used := CountSlots(GetString(meta.pdc, ARMOR_EFFECTS));
    var lore := meta.lore;
    lore := RemoveIf(lore, Owned);
    lore := lore + [SlotLine(used, maxSlots)];
    lore := AddFlavour(lore, used);
    assert lore == VagueLore(meta.lore, used, maxSlots);
    after := Some(item.value.(meta := Some(meta.(lore := lore))));
  }

  /** The three threshold tests, each appending its bullet. */
  method AddFlavour(lore: seq<string>, used: int) returns (r: seq<string>)
    ensures r == lore + Flavour[..Min(Max(used, 0), 3)]
  {
    r := lore;
    if used >= 1 {
      r := r + [Flavour[0]];
    }
    if used >= 2 {
      r := r + [Flavour[1]];
    }
    if used >= 3 {
      r := r + [Flavour[2]];
    }
    assert Flavour[..1] == [Flavour[0]] && Flavour[..2] == [Flavour[0], Flavour[1]] && Flavour[..3] == Flavour;
  }

  // ---------------------------------------------------------------- properties

  /** The slot line is recognised as one, and so removed by the next update. */
  lemma SlotLineOwned(used: int, maxSlots: int)
    ensures IsSlotLine(SlotLine(used, maxSlots)) && Owned(SlotLine(used, maxSlots))
  {
    HeaderLineOwned('7', YELLOW + IntToString(used) + GRAY + "/" + YELLOW + IntToString(maxSlots));
  }

  /** Any colour, then the slot text, then anything: a slot line. */
  lemma HeaderLineOwned(code: char, tail: string)
    requires IsCode(code, true)
    ensures IsSlotLine(Color(code) + (SLOTS_TEXT + tail)) && Owned(Color(code) + (SLOTS_TEXT + tail))
  {
    assert COLOR_CHAR !in SLOTS_TEXT;
    StripColorPrefix(code, SLOTS_TEXT + tail, true);
    StripPlainPrefix(SLOTS_TEXT, tail, true);
    assert SLOTS_TEXT[..|STRIP_HEADER|] == STRIP_HEADER;
    assert (SLOTS_TEXT + tail)[..|STRIP_HEADER|] == STRIP_HEADER;
  }

  /** A dark-gray bullet naming one of the three words is owned and is not a slot line. */
  lemma BulletLineOwned(t: string, word: string, at: nat)
    requires COLOR_CHAR !in t && |t| >= 2 && t[..2] == "• "
    requires at + |word| <= |t| && t[at..at + |word|] == word
    requires word in {"lingers", "altered", "discern"}
    ensures Owned(DARK_GRAY + t) && !IsSlotLine(DARK_GRAY + t)
  {
    StripColorPrefix('8', t, true);
    StripPlain(t, true);
    ContainsAt(t, word, at);
    assert t[0] != STRIP_HEADER[0];
  }

  /** Every flavour bullet is one of the update's own lines, and none is a slot line. */
  lemma BulletOwned(k: nat)
    requires k < 3
    ensures Owned(Flavour[k]) && !IsSlotLine(Flavour[k])
  {
    if k == 0 {
      LingersOwned();
    } else if k == 1 {
      AlteredOwned();
    } else {
      DiscernOwned();
    }
  }

  lemma LingersOwned()
    ensures Owned(DARK_GRAY + LINGERS) && !IsSlotLine(DARK_GRAY + LINGERS)
  {
    assert COLOR_CHAR !in LINGERS && LINGERS[..2] == "• " && LINGERS[12..19] == "lingers";
    BulletLineOwned(LINGERS, "lingers", 12);
  }

  lemma AlteredOwned()
    ensures Owned(DARK_GRAY + ALTERED) && !IsSlotLine(DARK_GRAY + ALTERED)
  {
    assert COLOR_CHAR !in ALTERED && ALTERED[..2] == "• " && ALTERED[18..25] == "altered";
    BulletLineOwned(ALTERED, "altered", 18);
  }

  lemma DiscernOwned()
    ensures Owned(DARK_GRAY + DISCERN) && !IsSlotLine(DARK_GRAY + DISCERN)
  {
    assert COLOR_CHAR !in DISCERN && DISCERN[..2] == "• " && DISCERN[24..31] == "discern";
    BulletLineOwned(DISCERN, "discern", 24);
  }

  lemma BlockOwned(used: int, maxSlots: int)
    ensures forall k :: 0 <= k < |Block(used, maxSlots)| ==> Owned(Block(used, maxSlots)[k])
    ensures forall k :: 0 <= k < |Block(used, maxSlots)| ==> (IsSlotLine(Block(used, maxSlots)[k]) <==> k == 0)
  {
    var b := Block(used, maxSlots);
    SlotLineOwned(used, maxSlots);
    forall k | 1 <= k < |b| ensures Owned(b[k]) && !IsSlotLine(b[k]) {
      assert b[k] == Flavour[k - 1];
      BulletOwned(k - 1);
    }
  }

  /**
   * After the update exactly one slot line exists, right after the kept
   * lines, and the kept lines are the earlier lore without the update's own
   * lines, in their order.
   */
  lemma OneSlotLine(lore: seq<string>, used: int, maxSlots: int)
    ensures var r := VagueLore(lore, used, maxSlots);
            var n := |RemoveIf(lore, Owned)|;
            r[..n] == RemoveIf(lore, Owned)
            && forall k :: 0 <= k < |r| ==> (IsSlotLine(r[k]) <==> k == n)
  {
    var kept := RemoveIf(lore, Owned);
    var r := VagueLore(lore, used, maxSlots);
    BlockOwned(used, maxSlots);
    forall k | 0 <= k < |r| ensures IsSlotLine(r[k]) <==> k == |kept| {
      if k < |kept| {
        assert r[k] == kept[k];
        assert !Owned(kept[k]);
      } else {
        assert r[k] == Block(used, maxSlots)[k - |kept|];
      }
    }
    assert r[..|kept|] == kept;
  }

  /** Every line the update does not own survives it. */
  lemma KeepsOtherLines(lore: seq<string>, used: int, maxSlots: int, line: string)
    requires line in lore && !Owned(line)
    ensures line in VagueLore(lore, used, maxSlots)
  {
    RemoveIfKeeps(lore, Owned, line);
  }

  /** Updating twice gives the same lore as updating once. */
  lemma VagueLoreIdempotent(lore: seq<string>, used: int, maxSlots: int)
    ensures VagueLore(VagueLore(lore, used, maxSlots), used, maxSlots) == VagueLore(lore, used, maxSlots)
  {
    var kept := RemoveIf(lore, Owned);
    var b := Block(used, maxSlots);
    RemoveIfAppend(kept, b, Owned);
    RemoveIfTwice(lore, Owned);
    BlockRemoved(used, maxSlots);
    assert RemoveIf(kept + b, Owned) == kept + [];
    assert kept + [] == kept;
  }

  /** The next update removes the whole block. */
  lemma BlockRemoved(used: int, maxSlots: int)
    ensures RemoveIf(Block(used, maxSlots), Owned) == []
  {
    BlockOwned(used, maxSlots);
    RemoveIfEmptyWhenAll(Block(used, maxSlots), Owned);
  }

  lemma {:induction false} RemoveIfEmptyWhenAll(s: seq<string>, p: string -> bool)
    requires forall k :: 0 <= k < |s| ==> p(s[k])
    ensures RemoveIf(s, p) == []
    decreases |s|
  {
    if s != [] {
      RemoveIfEmptyWhenAll(s[1..], p);
    }
  }

  /** The update on a whole item is idempotent, since it leaves the container alone. */
  lemma UpdateIdempotent(item: Option<Item>, maxSlots: int)
    ensures UpdatedItem(UpdatedItem(item, maxSlots), maxSlots) == UpdatedItem(item, maxSlots)
  {
    if item.Some? && item.value.meta.Some? {
      var meta := item.value.meta.value;
      VagueLoreIdempotent(meta.lore, CountSlots(GetString(meta.pdc, ARMOR_EFFECTS)), maxSlots);
    }
  }
}
