/**
 * TokenRegistry: one definition per token type, filled with the default
 * table on construction; a later registration for a type replaces the
 * earlier one.
 */
module TokenRegistries {
  import opened Wrappers
  import opened TokenDefinitions

  function Def(t: TokenType, target: Target, lo: int, hi: int, name: string, fmt: string): TokenDefinition {
    NewDefinition(t, target, lo, hi, Some(name), Some(fmt))
  }

  /** The map `registerDefaults` builds: one definition per type, in registration order. */
  function DefaultMap(): (m: map<TokenType, TokenDefinition>)
    ensures Keyed(m)
  {
    map[]
      [SHARPEN := Def(SHARPEN, WEAPON, 1, 5, "Sharpen", "&7Sharpen: &f{level}")]
      [MARK := Def(MARK, WEAPON, 1, 5, "Mark", "&7Mark: &f{level}")]
      [HASTE := Def(HASTE, WEAPON, 1, 3, "Haste", "&7Haste: &f{level}")]
      [STRENGTH := Def(STRENGTH, WEAPON, 1, 3, "Strength", "&7Strength: &f{level}")]
      [SPEED := Def(SPEED, ARMOR_BOOTS, 1, 3, "Speed", "&7Speed: &f{level}")]
      [FIRE_RESIST := Def(FIRE_RESIST, ARMOR_CHESTPLATE, 1, 1, "Fire Resist", "&7Fire Resist: &f{level}")]
      [HEALTH_BOOST := Def(HEALTH_BOOST, ARMOR_CHESTPLATE, 1, 2, "Health Boost", "&7Health Boost: &f{level}")]
      [NIGHT_VISION := Def(NIGHT_VISION, ARMOR_HELMET, 1, 1, "Night Vision", "&7Night Vision: &f{level}")]
  }

  /** Each definition is filed under its own type. */
  predicate Keyed(m: map<TokenType, TokenDefinition>) {
    forall t :: t in m ==> m[t].tokenType == t
  }

  /**
   * Every type has a default; SHARPEN and MARK range over 1..5, HASTE,
   * STRENGTH and SPEED over 1..3, FIRE_RESIST and NIGHT_VISION 1..1,
   * HEALTH_BOOST 1..2; the first four target weapons, SPEED boots,
   * FIRE_RESIST and HEALTH_BOOST chestplates, NIGHT_VISION helmets.
   */
  lemma DefaultsTable()
    ensures forall t :: t in DefaultMap()
    ensures forall t :: DefaultMap()[t].minLevel == 1
    ensures DefaultMap()[SHARPEN].maxLevel == 5 && DefaultMap()[MARK].maxLevel == 5
    ensures DefaultMap()[HASTE].maxLevel == 3 && DefaultMap()[STRENGTH].maxLevel == 3 && DefaultMap()[SPEED].maxLevel == 3
    ensures DefaultMap()[FIRE_RESIST].maxLevel == 1 && DefaultMap()[NIGHT_VISION].maxLevel == 1
    ensures DefaultMap()[HEALTH_BOOST].maxLevel == 2
    ensures forall t :: t in {SHARPEN, MARK, HASTE, STRENGTH} <==> DefaultMap()[t].target == WEAPON
    ensures DefaultMap()[SPEED].target == ARMOR_BOOTS && DefaultMap()[NIGHT_VISION].target == ARMOR_HELMET
    ensures DefaultMap()[FIRE_RESIST].target == ARMOR_CHESTPLATE && DefaultMap()[HEALTH_BOOST].target == ARMOR_CHESTPLATE
  {
    forall t ensures t in DefaultMap() {
      match t
      case SHARPEN => case MARK => case HASTE => case STRENGTH =>
      case SPEED => case FIRE_RESIST => case HEALTH_BOOST => case NIGHT_VISION =>
    }
  }

  class TokenRegistry {
    var defs: map<TokenType, TokenDefinition>

    predicate Valid()
      reads this
    {
      Keyed(defs)
    }

    /** `new TokenRegistry()`: the defaults are registered. */
    constructor()
      ensures defs == DefaultMap() && Valid()
    {
      defs := map[];
      new;
      Register(Def(SHARPEN, WEAPON, 1, 5, "Sharpen", "&7Sharpen: &f{level}"));
      Register(Def(MARK, WEAPON, 1, 5, "Mark", "&7Mark: &f{level}"));
      Register(Def(HASTE, WEAPON, 1, 3, "Haste", "&7Haste: &f{level}"));
      Register(Def(STRENGTH, WEAPON, 1, 3, "Strength", "&7Strength: &f{level}"));
      Register(Def(SPEED, ARMOR_BOOTS, 1, 3, "Speed", "&7Speed: &f{level}"));
      Register(Def(FIRE_RESIST, ARMOR_CHESTPLATE, 1, 1, "Fire Resist", "&7Fire Resist: &f{level}"));
      Register(Def(HEALTH_BOOST, ARMOR_CHESTPLATE, 1, 2, "Health Boost", "&7Health Boost: &f{level}"));
      Register(Def(NIGHT_VISION, ARMOR_HELMET, 1, 1, "Night Vision", "&7Night Vision: &f{level}"));
    }

    /** `register`: replaces any earlier definition of the same type; nothing else changes. */
    method Register(def: TokenDefinition)
      requires Valid()
      modifies this
      ensures defs == old(defs)[def.tokenType := def]
      ensures Valid()
    {
      defs := defs[def.tokenType := def];
    }

    /** `get`: null for an unregistered type. */
    function Get(t: TokenType): (r: Option<TokenDefinition>)
      reads this
      requires Valid()
      ensures r.Some? ==> r.value.tokenType == t
    {
      if t in defs then Some(defs[t]) else None
    }

    /** `has`: the type is registered. */
    function Has(t: TokenType): (r: bool)
      reads this
      ensures r <==> t in defs
    {
      t in defs
    }

    /** The registered definitions of the types in `ts`, in the order of `ts`. */
    function ValuesIn(ts: seq<TokenType>): seq<TokenDefinition>
      reads this
    {
      if ts == [] then []
      else (if ts[0] in defs then [defs[ts[0]]] else []) + ValuesIn(ts[1..])
    }

    /** A definition is listed for `ts` exactly when its type is in `ts` and it is the one registered. */
    lemma {:induction false} ValuesInMembers(ts: seq<TokenType>, d: TokenDefinition)
      requires Valid()
      ensures d in ValuesIn(ts) <==> d.tokenType in ts && d.tokenType in defs && defs[d.tokenType] == d
      decreases |ts|
    {
      if ts != [] {
        ValuesInMembers(ts[1..], d);
        assert ts == [ts[0]] + ts[1..];
      }
    }

    /** `all()`: the registered definitions in the enum's declaration order (an `EnumMap`'s value order). */
    function All(): (r: seq<TokenDefinition>)
      reads this
      requires Valid()
      ensures forall d :: d in r <==> d.tokenType in defs && defs[d.tokenType] == d
    {
      AllListed();
      ValuesIn(AllTypes)
    }

    lemma AllListed()
      requires Valid()
      ensures forall d :: d in ValuesIn(AllTypes) <==> d.tokenType in defs && defs[d.tokenType] == d
    {
      forall d: TokenDefinition
        ensures d in ValuesIn(AllTypes) <==> d.tokenType in defs && defs[d.tokenType] == d
      {
        ValuesInMembers(AllTypes, d);
      }
    }

    /** `has(t)` holds exactly when `get(t)` is non-null. */
    lemma HasIffGet(t: TokenType)
      requires Valid()
      ensures Has(t) <==> Get(t).Some?
    {
    }
  }

  /** Registering twice for one type keeps only the second definition. */
  lemma ReRegisterReplaces(m: map<TokenType, TokenDefinition>, a: TokenDefinition, b: TokenDefinition)
    requires a.tokenType == b.tokenType
    ensures m[a.tokenType := a][b.tokenType := b] == m[b.tokenType := b]
  {
  }
}
