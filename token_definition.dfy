/**
 * TokenDefinition: what a token type may be applied to, its level range,
 * and the helpers that clamp a level and fill in its lore line.
 */
module TokenDefinitions {
  import opened Wrappers
  import opened JavaText

  /** `TokenType`: the unified list of token types. */
  datatype TokenType = SHARPEN | MARK | HASTE | STRENGTH | SPEED | FIRE_RESIST | HEALTH_BOOST | NIGHT_VISION

  /** `values()`, in declaration order. */
  const AllTypes: seq<TokenType> := [SHARPEN, MARK, HASTE, STRENGTH, SPEED, FIRE_RESIST, HEALTH_BOOST, NIGHT_VISION]

  function TypeName(t: TokenType): string {
    match t
    case SHARPEN => "SHARPEN"
    case MARK => "MARK"
    case HASTE => "HASTE"
    case STRENGTH => "STRENGTH"
    case SPEED => "SPEED"
    case FIRE_RESIST => "FIRE_RESIST"
    case HEALTH_BOOST => "HEALTH_BOOST"
    case NIGHT_VISION => "NIGHT_VISION"
  }

  /** `TokenType.valueOf`: None stands for the exception on an unknown name. */
  function TypeValueOf(key: string): (r: Option<TokenType>)
    ensures r.Some? ==> TypeName(r.value) == key
  {
    LookupType(AllTypes, key)
  }

  function LookupType(ts: seq<TokenType>, key: string): (r: Option<TokenType>)
    ensures r.Some? ==> TypeName(r.value) == key && r.value in ts
    ensures r.None? ==> forall t :: t in ts ==> TypeName(t) != key
  {
    if ts == [] then None
    else if TypeName(ts[0]) == key then Some(ts[0])
    else LookupType(ts[1..], key)
  }

  lemma {:induction false} LookupTypeName(ts: seq<TokenType>, t: TokenType)
    requires t in ts
    ensures LookupType(ts, TypeName(t)) == Some(t)
  {
    if ts[0] != t {
      LookupTypeName(ts[1..], t);
    }
  }

  /** Every type reads back from its own name. */
  lemma TypeValueOfName(t: TokenType)
    ensures TypeValueOf(TypeName(t)) == Some(t)
  {
    LookupTypeName(AllTypes, t);
  }

  datatype Target = WEAPON | TOOL | ARMOR_HELMET | ARMOR_CHESTPLATE | ARMOR_LEGGINGS | ARMOR_BOOTS | ARMOR_ANY | ANY

  /** The type and target are never null (the constructor rejects null); the lore format may be. */
  datatype TokenDefinition = TokenDefinition(
    tokenType: TokenType,
    target: Target,
    minLevel: int,
    maxLevel: int,
    displayName: string,
    loreLineFormat: Option<string>)

  /** The constructor: a null display name becomes the type's name. */
  function NewDefinition(t: TokenType, target: Target, minLevel: int, maxLevel: int,
                         displayName: Option<string>, loreLineFormat: Option<string>): (d: TokenDefinition)
    ensures d.tokenType == t && d.target == target
    ensures d.minLevel == minLevel && d.maxLevel == maxLevel && d.loreLineFormat == loreLineFormat
    ensures d.displayName == if displayName.None? then TypeName(t) else displayName.value
  {
    TokenDefinition(t, target, minLevel, maxLevel, displayName.GetOr(TypeName(t)), loreLineFormat)
  }

  /** `clampLevel`: the lower bound is tested first, so it wins when min > max. */
  function ClampLevel(d: TokenDefinition, level: int): (r: int)
    ensures level < d.minLevel ==> r == d.minLevel
    ensures d.minLevel <= level <= d.maxLevel ==> r == level
    ensures level >= d.minLevel && level > d.maxLevel ==> r == d.maxLevel
  {
    if level < d.minLevel then d.minLevel
    else if level > d.maxLevel then d.maxLevel
    else level
  }

  /** With min <= max the result lies in the range, and clamping is idempotent. */
  lemma ClampInRange(d: TokenDefinition, level: int)
    requires d.minLevel <= d.maxLevel
    ensures d.minLevel <= ClampLevel(d, level) <= d.maxLevel
    ensures ClampLevel(d, ClampLevel(d, level)) == ClampLevel(d, level)
  {
  }

  /** `formatLoreLine`: null for a null or blank format, else every "{level}" replaced by the number. */
  function FormatLoreLine(d: TokenDefinition, level: int): (r: Option<string>)
    ensures d.loreLineFormat.None? || IsBlank(d.loreLineFormat.value) <==> r.None?
  {
    if d.loreLineFormat.None? || IsBlank(d.loreLineFormat.value) then None
    else Some(Replace(d.loreLineFormat.value, "{level}", IntToString(level)))
  }

  /** A format without the placeholder is returned as it is. */
  lemma FormatWithoutPlaceholder(d: TokenDefinition, level: int)
    requires d.loreLineFormat.Some? && !IsBlank(d.loreLineFormat.value)
    requires !Contains(d.loreLineFormat.value, "{level}")
    ensures FormatLoreLine(d, level) == d.loreLineFormat
  {
    ReplaceAbsent(d.loreLineFormat.value, "{level}", IntToString(level));
  }

  /** The placeholder at the front is replaced by the decimal level. */
  lemma FormatLeadingPlaceholder(d: TokenDefinition, level: int, rest: string)
    requires d.loreLineFormat == Some("{level}" + rest) && !Contains(rest, "{level}")
    ensures FormatLoreLine(d, level) == Some(IntToString(level) + rest)
  {
    var f := "{level}" + rest;
    assert !IsWhitespace(f[0]);
    assert f[..7] == "{level}" && f[7..] == rest;
    ReplaceAbsent(rest, "{level}", IntToString(level));
  }
}
