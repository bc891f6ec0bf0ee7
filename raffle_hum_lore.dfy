/**
 * The raffle util package's RaffleLoreUtil: a slot line replaced on every
 * call, and a hum line added whenever slots are in use. The hum line is
 * not one the update removes, so it piles up over repeated calls.
 */
module RaffleHumLore {
  import opened Wrappers
  import opened JavaText
  import opened Items
  import opened ChatColors
  import opened RaffleSlotLore

  const HUM_TEXT: string := "It hums faintly..."

  /** `DARK_GRAY + "" + ITALIC + "It hums faintly..."`. */
  const HumLine: string := DARK_GRAY + (ITALIC + HUM_TEXT)

  /** The slot line, coloured dark gray and gray. */
  function HumSlotLine(used: int, maxSlots: int): string {
    DARK_GRAY + (SLOTS_TEXT + (GRAY + IntToString(used) + DARK_GRAY + "/" + GRAY + IntToString(maxSlots)))
  }

  /** The lore after `updateVagueLore(armor, usedSlots, maxSlots)`. */
  function HumLore(lore: seq<string>, used: int, maxSlots: int): seq<string> {
    RemoveIf(lore, IsSlotLine) + [HumSlotLine(used, maxSlots)] + (if used > 0 then [HumLine] else [])
  }

  /** `updateVagueLore(armor, usedSlots, maxSlots)` on an item as a value: null, any air material or no meta is left alone. */
  function HumItem(armor: Option<Item>, used: int, maxSlots: int): Option<Item> {
    if armor.None? || IsAirMaterial(armor.value.material) || armor.value.meta.None? then armor
    else
      var meta := armor.value.meta.value;
      Some(armor.value.(meta := Some(meta.(lore := HumLore(meta.lore, used, maxSlots)))))
  }

  /** removeIf on slot lines, one `add` for the new slot line, one more for the hum when slots are used. */
  method UpdateVagueLore(armor: Option<Item>, usedSlots: int, maxSlots: int) returns (after: Option<Item>)
    ensures after == HumItem(armor, usedSlots, maxSlots)
  {
    if armor.None? || IsAirMaterial(armor.value.material) {
      return armor;
    }
    if armor.value.meta.None? {
      return armor;
    }
    var meta := armor.value.meta.value;
    var lore := meta.lore;
    lore := RemoveIf(lore, IsSlotLine);
    lore := lore + [HumSlotLine(usedSlots, maxSlots)];
    if usedSlots > 0 {
      lore := lore + [HumLine];
    }
    assert lore == HumLore(meta.lore, usedSlots, maxSlots);
    after := Some(armor.value.(meta := Some(meta.(lore := lore))));
  }

  // ---------------------------------------------------------------- properties

  lemma HumSlotLineIsSlotLine(used: int, maxSlots: int)
    ensures IsSlotLine(HumSlotLine(used, maxSlots))
  {
    HeaderLineOwned('8', GRAY + IntToString(used) + DARK_GRAY + "/" + GRAY + IntToString(maxSlots));
  }

  /** The hum line is not a slot line, so no update removes it. */
  lemma HumLineNotSlotLine()
    ensures !IsSlotLine(HumLine)
  {
    assert COLOR_CHAR !in HUM_TEXT;
    StripColorPrefix('8', ITALIC + HUM_TEXT, true);
    StripColorPrefix('o', HUM_TEXT, true);
    StripPlain(HUM_TEXT, true);
    assert HUM_TEXT[0] != STRIP_HEADER[0];
  }

  /**
   * After the update exactly one slot line exists, right after the kept
   * lines, which are the earlier non-slot lines in their order; the hum
   * line comes last exactly when slots are in use.
   */
  lemma HumShape(lore: seq<string>, used: int, maxSlots: int)
    ensures var r := HumLore(lore, used, maxSlots);
            var n := |RemoveIf(lore, IsSlotLine)|;
            r[..n] == RemoveIf(lore, IsSlotLine)
            && (forall k :: 0 <= k < |r| ==> (IsSlotLine(r[k]) <==> k == n))
            && (r[|r| - 1] == HumLine <==> used > 0)
  {
    var kept := RemoveIf(lore, IsSlotLine);
    var r := HumLore(lore, used, maxSlots);
    HumSlotLineIsSlotLine(used, maxSlots);
    HumLineNotSlotLine();
    forall k | 0 <= k < |r| ensures IsSlotLine(r[k]) <==> k == |kept| {
      if k < |kept| {
        assert r[k] == kept[k];
      } else if k > |kept| {
        assert r[k] == HumLine;
      }
    }
    assert r[..|kept|] == kept;
    if used <= 0 {
      assert r[|r| - 1] == HumSlotLine(used, maxSlots);
    }
  }

  /** Every line that is not a slot line survives the update. */
  lemma HumKeepsOtherLines(lore: seq<string>, used: int, maxSlots: int, line: string)
    requires line in lore && !IsSlotLine(line)
    ensures line in HumLore(lore, used, maxSlots)
  {
    RemoveIfKeeps(lore, IsSlotLine, line);
  }

  /** With no slots in use the update is idempotent. */
  lemma HumIdleIdempotent(lore: seq<string>, maxSlots: int, used: int)
    requires used <= 0
    ensures HumLore(HumLore(lore, used, maxSlots), used, maxSlots) == HumLore(lore, used, maxSlots)
  {
    var kept := RemoveIf(lore, IsSlotLine);
    var s := HumSlotLine(used, maxSlots);
    HumSlotLineIsSlotLine(used, maxSlots);
    assert HumLore(lore, used, maxSlots) == kept + [s];
    RemoveIfAppend(kept, [s], IsSlotLine);
    RemoveIfTwice(lore, IsSlotLine);
    assert RemoveIf(kept + [s], IsSlotLine) == kept;
  }

  /**
   * With slots in use a second call keeps the first hum line and adds
   * another: the update is not idempotent.
   */
  lemma HumAccumulates(lore: seq<string>, used: int, maxSlots: int)
    requires used > 0
    ensures var once := HumLore(lore, used, maxSlots);
            HumLore(once, used, maxSlots) == RemoveIf(lore, IsSlotLine) + [HumLine, HumSlotLine(used, maxSlots), HumLine]
            && |HumLore(once, used, maxSlots)| == |once| + 1
  {
    var kept := RemoveIf(lore, IsSlotLine);
    var s := HumSlotLine(used, maxSlots);
    assert HumLore(lore, used, maxSlots) == kept + [s, HumLine];
    RemoveIfTwice(lore, IsSlotLine);
    HumBlockLeavesHum(used, maxSlots);
    SecondCall(kept, s, HumLine);
  }

  lemma SecondCall(kept: seq<string>, s: string, h: string)
    requires RemoveIf(kept, IsSlotLine) == kept
    requires RemoveIf([s, h], IsSlotLine) == [h]
    ensures RemoveIf(kept + [s, h], IsSlotLine) + [s] + [h] == kept + [h, s, h]
  {
    RemoveIfAppend(kept, [s, h], IsSlotLine);
  }

  /** Of the block a call appends, the next call removes only the slot line. */
  lemma HumBlockLeavesHum(used: int, maxSlots: int)
    ensures RemoveIf([HumSlotLine(used, maxSlots), HumLine], IsSlotLine) == [HumLine]
  {
    HumSlotLineIsSlotLine(used, maxSlots);
    HumLineNotSlotLine();
    var b := [HumSlotLine(used, maxSlots), HumLine];
    assert b[1..] == [HumLine] && [HumLine][1..] == [];
  }
}
