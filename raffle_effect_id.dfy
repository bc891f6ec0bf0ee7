/**
 * The raffle effect catalogue: twelve ids, each declared with a curse flag
 * and a levelable flag, and the tolerant name parser with its legacy aliases.
 */
module RaffleEffectIds {
  import opened Wrappers
  import opened JavaText

  datatype EffectId =
    | VITALITY | IRON_WILL | BLOOD_MENDING | SKYBOUND
    | EMBER_WARD | FORTUNE | TIDEBOUND | OCEAN_GRACE | VILLAGER_FAVOR
    | DREAD | MISSTEP | TERROR

  /** `values()`, in declaration order. */
  const AllIds: seq<EffectId> :=
    [VITALITY, IRON_WILL, BLOOD_MENDING, SKYBOUND,
     EMBER_WARD, FORTUNE, TIDEBOUND, OCEAN_GRACE, VILLAGER_FAVOR,
     DREAD, MISSTEP, TERROR]

  /** The two constructor arguments of each constant: (curse, canLevel). */
  function DeclaredFlags(id: EffectId): (bool, bool) {
    match id
    case VITALITY => (false, true)
    case IRON_WILL => (false, true)
    case BLOOD_MENDING => (false, true)
    case SKYBOUND => (false, true)
    case EMBER_WARD => (false, false)
    case FORTUNE => (false, false)
    case TIDEBOUND => (false, false)
    case OCEAN_GRACE => (false, false)
    case VILLAGER_FAVOR => (false, false)
    case DREAD => (true, false)
    case MISSTEP => (true, false)
    case TERROR => (true, false)
  }

  /** `isCurse()`: the three curses. */
  predicate IsCurse(id: EffectId)
    ensures IsCurse(id) <==> id in {DREAD, MISSTEP, TERROR}
  {
    DeclaredFlags(id).0
  }

  /** `isGood()`: exactly the ids that are not curses. */
  predicate IsGood(id: EffectId)
    ensures IsGood(id) <==> id !in {DREAD, MISSTEP, TERROR}
  {
    !DeclaredFlags(id).0
  }

  /** `canLevel()`: only the non-curse ids declared levelable. */
  predicate CanLevel(id: EffectId)
    ensures CanLevel(id) <==> id in {VITALITY, IRON_WILL, BLOOD_MENDING, SKYBOUND}
    ensures CanLevel(id) ==> IsGood(id)
  {
    !DeclaredFlags(id).0 && DeclaredFlags(id).1
  }

  /** `name()`. */
  function Name(id: EffectId): string {
    match id
    case VITALITY => "VITALITY"
    case IRON_WILL => "IRON_WILL"
    case BLOOD_MENDING => "BLOOD_MENDING"
    case SKYBOUND => "SKYBOUND"
    case EMBER_WARD => "EMBER_WARD"
    case FORTUNE => "FORTUNE"
    case TIDEBOUND => "TIDEBOUND"
    case OCEAN_GRACE => "OCEAN_GRACE"
    case VILLAGER_FAVOR => "VILLAGER_FAVOR"
    case DREAD => "DREAD"
    case MISSTEP => "MISSTEP"
    case TERROR => "TERROR"
  }

  /** A character that can occur in a constant name. */
  predicate IsNameChar(c: char) { 'A' <= c <= 'Z' || c == '_' }

  /** Names are non-empty runs of upper-case letters and underscores. */
  lemma NameShape(id: EffectId)
    ensures |Name(id)| > 0
    ensures forall i :: 0 <= i < |Name(id)| ==> IsNameChar(Name(id)[i])
  {
  }

  /** `Enum.valueOf`: the constant with exactly that name, none otherwise. */
  function ValueOf(key: string): (r: Option<EffectId>)
    ensures r.Some? ==> Name(r.value) == key
  {
    Lookup(AllIds, key)
  }

  /** The first of `ids` whose name is `key`. */
  function Lookup(ids: seq<EffectId>, key: string): (r: Option<EffectId>)
    ensures r.Some? ==> Name(r.value) == key && r.value in ids
  {
    if ids == [] then None
    else if Name(ids[0]) == key then Some(ids[0])
    else Lookup(ids[1..], key)
  }

  /** Different constants have different names. */
  lemma NameInjective(a: EffectId, b: EffectId)
    requires Name(a) == Name(b)
    ensures a == b
  {
  }

  lemma {:induction false} LookupName(ids: seq<EffectId>, id: EffectId)
    requires id in ids
    ensures Lookup(ids, Name(id)) == Some(id)
  {
    if ids[0] != id {
      if Name(ids[0]) == Name(id) {
        NameInjective(ids[0], id);
      }
      LookupName(ids[1..], id);
    }
  }

  /** Every constant is in `values()`. */
  lemma InAllIds(id: EffectId)
    ensures id in AllIds
  {
  }

  /** The backwards-compatible names of the old system. */
  function Alias(key: string): string {
    if key == "WARMTH" then "EMBER_WARD"
    else if key == "VIGOR" then "VITALITY"
    else if key == "UNEASE" then "TERROR"
    else if key == "DISARRAY" then "MISSTEP"
    else key
  }

  /**
   * `fromString`: null, blank after trimming, or unknown gives None; the key
   * is trimmed, upper-cased and passed through the alias table first.
   */
  function FromString(raw: Option<string>): (r: Option<EffectId>)
    ensures raw.None? ==> r.None?
    ensures raw.Some? && Trim(raw.value) == [] ==> r.None?
    ensures r.Some? ==> Name(r.value) == Alias(ToUpper(Trim(raw.value)))
  {
    if raw.None? then None
    else
      var key := ToUpper(Trim(raw.value));
      if key == [] then None else ValueOf(Alias(key))
  }

  lemma ValueOfName(id: EffectId)
    ensures ValueOf(Name(id)) == Some(id)
  {
    InAllIds(id);
    LookupName(AllIds, id);
  }

  lemma AliasOfName(id: EffectId)
    ensures Alias(Name(id)) == Name(id)
  {
  }

  /** Every constant parses back from its own name. */
  lemma FromStringName(id: EffectId)
    ensures FromString(Some(Name(id))) == Some(id)
  {
    NameShape(id);
    FromStringOfKey(Name(id));
    AliasOfName(id);
    ValueOfName(id);
  }

  /** A key with visible ends and no lower-case letter is looked up as it is. */
  lemma FromStringOfKey(key: string)
    requires |key| > 0 && key[0] > ' ' && key[|key| - 1] > ' ' && IsUpperForm(key)
    ensures FromString(Some(key)) == ValueOf(Alias(key))
  {
    TrimKeeps(key);
    ToUpperKeeps(key);
  }

  lemma UpperName(id: EffectId)
    ensures ToUpper(Name(id)) == Name(id)
  {
    NameShape(id);
    ToUpperKeeps(Name(id));
  }

  /**
   * Surrounding trim-padding and letter case are ignored: any spelling whose
   * upper-case form is a constant's name parses to that constant.
   */
  lemma FromStringTolerant(id: EffectId, w1: string, s: string, w2: string)
    requires IsTrimPad(w1) && IsTrimPad(w2)
    requires ToUpper(s) == Name(id)
    ensures FromString(Some(w1 + s + w2)) == Some(id)
  {
    NameShape(id);
    var n := Name(id);
    ToUpperAt(s);
    assert UpperChar(s[0]) == n[0] && UpperChar(s[|s| - 1]) == n[|n| - 1];
    TrimPadded(w1, s, w2);
    assert ToUpper(Trim(w1 + s + w2)) == n;
    AliasOfName(id);
    ValueOfName(id);
  }

  /** A trimmed upper-case key that aliases a constant's name parses to it. */
  lemma AliasParses(key: string, id: EffectId)
    requires |key| > 0 && key[0] > ' ' && key[|key| - 1] > ' ' && IsUpperForm(key)
    requires Alias(key) == Name(id)
    ensures FromString(Some(key)) == Some(id)
  {
    FromStringOfKey(key);
    ValueOfName(id);
  }

  /** The legacy alias WARMTH reads as EMBER_WARD. */
  lemma FromStringWarmth()
    ensures FromString(Some("WARMTH")) == Some(EMBER_WARD)
  {
    AliasParses("WARMTH", EMBER_WARD);
  }

  /** The legacy alias VIGOR reads as VITALITY. */
  lemma FromStringVigor()
    ensures FromString(Some("VIGOR")) == Some(VITALITY)
  {
    AliasParses("VIGOR", VITALITY);
  }

  /** The legacy alias UNEASE reads as TERROR. */
  lemma FromStringUnease()
    ensures FromString(Some("UNEASE")) == Some(TERROR)
  {
    AliasParses("UNEASE", TERROR);
  }

  /** The legacy alias DISARRAY reads as MISSTEP. */
  lemma FromStringDisarray()
    ensures FromString(Some("DISARRAY")) == Some(MISSTEP)
  {
    AliasParses("DISARRAY", MISSTEP);
  }

}
