/**
 * What the two add-on listeners (the registry-backed one in the `addon`
 * package and the older hard-wired one) share: how a token is recognised
 * on a stack, which hand holds the token and which the target, the item
 * tests, and how the one lore line an add-on owns is rewritten.
 */
module AddOnTokens {
  import opened Wrappers
  import opened JavaText
  import opened Items
  import opened Inventories

  /** The PDC keys a token carries (the new pair, and the two legacy kit levels). */
  const TOKEN_TYPE_KEY: string := "token_type"
  const TOKEN_LEVEL_KEY: string := "token_level"
  const LEGACY_SHARPEN_KIT_KEY: string := "sharpen_kit_level"
  const LEGACY_MARK_KIT_KEY: string := "mark_kit_level"

  /** A recognised token: its raw type name and its level. */
  datatype TokenInfo = TokenInfo(typeRaw: string, level: Int32)

  /**
   * `getTokenInfo`: the new type string with a positive level, else a
   * positive legacy sharpen-kit level (as "SHARPENING"), else a positive
   * legacy mark-kit level (as "MARK"); None for anything else.
   */
  function TokenInfoOf(s: Option<Item>): (r: Option<TokenInfo>)
    ensures r.Some? ==> !IsNothing(s) && s.value.meta.Some? && r.value.level > 0
  {
    if IsNothing(s) || s.value.meta.None? then None
    else
      var pdc := s.value.meta.value.pdc;
      var t := GetString(pdc, TOKEN_TYPE_KEY);
      var lvl := GetInt32(pdc, TOKEN_LEVEL_KEY);
      var sk := GetInt32(pdc, LEGACY_SHARPEN_KIT_KEY);
      var mk := GetInt32(pdc, LEGACY_MARK_KIT_KEY);
      if t.Some? && lvl.Some? && lvl.value > 0 then Some(TokenInfo(t.value, lvl.value))
      else if sk.Some? && sk.value > 0 then Some(TokenInfo("SHARPENING", sk.value))
      else if mk.Some? && mk.value > 0 then Some(TokenInfo("MARK", mk.value))
      else None
  }

  /** The token and the hand it is in; the target is the stack in the other hand. */
  datatype HandTokenTarget = HandTokenTarget(tokenHand: HandSide, typeRaw: string, tokenLevel: Int32)

  function TargetOf(h: Hands, tt: HandTokenTarget): Option<Item> {
    Get(h, Other(tt.tokenHand))
  }

  /**
   * `resolveTokenAndTarget`: a main-hand token with something in the off
   * hand wins; then an off-hand token with something in the main hand.
   */
  function Resolve(h: Hands): (r: Option<HandTokenTarget>)
    ensures r.Some? ==> !IsNothing(TargetOf(h, r.value))
    ensures r.Some? ==> TokenInfoOf(Get(h, r.value.tokenHand)) == Some(TokenInfo(r.value.typeRaw, r.value.tokenLevel))
  {
    var mainToken := TokenInfoOf(h.main);
    var offToken := TokenInfoOf(h.off);
    if mainToken.Some? && !IsNothing(h.off) then
      Some(HandTokenTarget(MainSide, mainToken.value.typeRaw, mainToken.value.level))
    else if offToken.Some? && !IsNothing(h.main) then
      Some(HandTokenTarget(OffSide, offToken.value.typeRaw, offToken.value.level))
    else None
  }

  /** `normalizeTokenType` on a non-null name: trimmed and upper-cased. */
  function Normalize(raw: string): string {
    ToUpper(Trim(raw))
  }

  // ---------------------------------------------------------------- item tests

  predicate IsWeapon(s: Option<Item>) { !IsNothing(s) && IsWeaponName(s.value.material) }
  predicate IsToolOrWeapon(s: Option<Item>) { !IsNothing(s) && IsToolOrWeaponName(s.value.material) }
  predicate IsArmor(s: Option<Item>) { !IsNothing(s) && IsArmorName(s.value.material) }
  predicate IsHelmet(s: Option<Item>) { !IsNothing(s) && IsHelmetName(s.value.material) }
  predicate IsChestplate(s: Option<Item>) { !IsNothing(s) && IsChestplateName(s.value.material) }
  predicate IsLeggings(s: Option<Item>) { !IsNothing(s) && IsLeggingsName(s.value.material) }
  predicate IsBoots(s: Option<Item>) { !IsNothing(s) && IsBootsName(s.value.material) }

  // ---------------------------------------------------------------- the owned lore line

  /** The `removeIf` test of an add-on's own lore line: it starts with the prefix. */
  function Owned(prefix: string): string -> bool {
    (l: string) => StartsWith(l, prefix)
  }

  /** The lore with every line starting with `prefix` removed and `line` appended. */
  function WithOwnedLine(lore: seq<string>, prefix: string, line: string): (r: seq<string>)
    requires StartsWith(line, prefix)
    ensures |r| >= 1 && r[|r| - 1] == line
    ensures forall k :: 0 <= k < |r| - 1 ==> !StartsWith(r[k], prefix) && r[k] in lore
  {
    RemoveIf(lore, Owned(prefix)) + [line]
  }

  /**
   * The lore rewrite of `applyLevelToItem`: a copy of the lore list, the
   * owned lines removed from it in place (`removeIf`), then the new line
   * added.
   */
  method RewriteOwnedLine(lore: seq<string>, prefix: string, line: string) returns (r: seq<string>)
    requires StartsWith(line, prefix)
    ensures r == WithOwnedLine(lore, prefix, line)
  {
    var kept: seq<string> := [];
    var i := 0;
    while i < |lore|
      invariant 0 <= i <= |lore|
      invariant kept == RemoveIf(lore[..i], Owned(prefix))
    {
      RemoveIfAppend(lore[..i], [lore[i]], Owned(prefix));
      assert lore[..i + 1] == lore[..i] + [lore[i]];
      if !StartsWith(lore[i], prefix) {
        kept := kept + [lore[i]];
      }
      i := i + 1;
    }
    assert lore[..|lore|] == lore;
    r := kept + [line];
  }

  // ---------------------------------------------------------------- properties

  /** Exactly one line carries the prefix after the rewrite, and a second rewrite replaces it. */
  lemma OwnedLineReplaced(lore: seq<string>, prefix: string, first: string, second: string)
    requires StartsWith(first, prefix) && StartsWith(second, prefix)
    ensures WithOwnedLine(WithOwnedLine(lore, prefix, first), prefix, second) == WithOwnedLine(lore, prefix, second)
  {
    var p := Owned(prefix);
    var kept := RemoveIf(lore, p);
    RemoveIfAppend(kept, [first], p);
    RemoveIfTwice(lore, p);
    assert RemoveIf([first], p) == [];
  }

  /** Lines without the prefix survive the rewrite. */
  lemma OtherLinesKept(lore: seq<string>, prefix: string, line: string, other: string)
    requires StartsWith(line, prefix) && other in lore && !StartsWith(other, prefix)
    ensures other in WithOwnedLine(lore, prefix, line)
  {
    RemoveIfKeeps(lore, Owned(prefix), other);
  }

  /**
   * Token recognition prefers the new pair, then the sharpen kit, then the
   * mark kit: each later source counts only when the earlier ones are absent.
   */
  lemma TokenInfoPriority(s: Option<Item>)
    requires !IsNothing(s) && s.value.meta.Some?
    ensures var pdc := s.value.meta.value.pdc;
            GetString(pdc, TOKEN_TYPE_KEY).Some? && GetInt(pdc, TOKEN_LEVEL_KEY).Some? && GetInt(pdc, TOKEN_LEVEL_KEY).value > 0
            ==> TokenInfoOf(s) == Some(TokenInfo(GetString(pdc, TOKEN_TYPE_KEY).value, GetInt(pdc, TOKEN_LEVEL_KEY).value))
    ensures TokenInfoOf(s).Some? && TokenInfoOf(s).value.typeRaw != "SHARPENING" && TokenInfoOf(s).value.typeRaw != "MARK"
            ==> TokenInfoOf(s).value.typeRaw == GetString(s.value.meta.value.pdc, TOKEN_TYPE_KEY).value
  {
  }

  /**
   * The main hand's token wins whenever the off hand holds something; the
   * off hand's token is used only when the main hand holds no token or the
   * off hand is empty; without a token against a non-empty other hand
   * there is no result.
   */
  lemma ResolvePriority(h: Hands)
    ensures TokenInfoOf(h.main).Some? && !IsNothing(h.off) ==> Resolve(h).Some? && Resolve(h).value.tokenHand == MainSide
    ensures Resolve(h).Some? && Resolve(h).value.tokenHand == OffSide ==>
              TokenInfoOf(h.off).Some? && !IsNothing(h.main) && (TokenInfoOf(h.main).None? || IsNothing(h.off))
    ensures Resolve(h).None? <==>
              (TokenInfoOf(h.main).None? || IsNothing(h.off)) && (TokenInfoOf(h.off).None? || IsNothing(h.main))
  {
  }

  /** Every weapon is a tool-or-weapon, and the armour test is exactly the four piece tests. */
  lemma WeaponIsTool(s: Option<Item>)
    ensures IsWeapon(s) ==> IsToolOrWeapon(s)
    ensures IsHelmet(s) || IsChestplate(s) || IsLeggings(s) || IsBoots(s) <==> IsArmor(s)
  {
  }
}
