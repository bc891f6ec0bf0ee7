/**
 * RafflePotionTable: the fixed list of raffle effects that are carried out
 * as vanilla potion effects, with the armour rule that decides which pieces
 * count and the refresh duration.
 */
module RafflePotionTable {
  import opened Wrappers
  import opened RaffleEffectIds
  import opened Potions
  import opened Items

  /** The five armour rules (ANY_ARMOR: every piece counts, *_ONLY: that piece only). */
  datatype SlotRule = ANY_ARMOR | HELMET_ONLY | CHESTPLATE_ONLY | LEGGINGS_ONLY | BOOTS_ONLY

  datatype Entry = Entry(id: EffectId, potion: PotionType, slotRule: SlotRule, durationTicks: int)

  /** `entries()`: one unmodifiable list, the same on every call. */
  const Entries: seq<Entry> :=
    [Entry(VITALITY, HEALTH_BOOST, ANY_ARMOR, 120),
     Entry(EMBER_WARD, FIRE_RESISTANCE, ANY_ARMOR, 120)]

  /** The first entry of the table with this id, as the lookup loops find it. */
  function Lookup(id: EffectId): (r: Option<Entry>)
    ensures r.Some? ==> r.value in Entries && r.value.id == id
    ensures r.None? ==> forall e :: e in Entries ==> e.id != id
  {
    if Entries[0].id == id then Some(Entries[0])
    else if Entries[1].id == id then Some(Entries[1])
    else None
  }

  /** What a slot rule allows: every armour slot, or the one it names. */
  predicate RuleAllows(rule: SlotRule, slot: EquipmentSlot) {
    match rule
    case ANY_ARMOR => true
    case HELMET_ONLY => slot == HEAD
    case CHESTPLATE_ONLY => slot == CHEST
    case LEGGINGS_ONLY => slot == LEGS
    case BOOTS_ONLY => slot == FEET
  }

  /**
   * The slot compatibility test of the raffle service and the apply
   * listener: an id without a table entry is allowed everywhere, one with
   * an entry wherever its rule allows.
   */
  predicate IsCompatible(id: EffectId, slot: EquipmentSlot) {
    var e := Lookup(id);
    e.None? || RuleAllows(e.value.slotRule, slot)
  }

  /** With the current table every id is compatible with every slot. */
  lemma AllCompatible(id: EffectId, slot: EquipmentSlot)
    ensures IsCompatible(id, slot)
  {
  }

  /**
   * The table holds exactly VITALITY as HEALTH_BOOST and EMBER_WARD as
   * FIRE_RESISTANCE, both on any armour for 120 ticks; every other id has
   * no entry, and the ids are distinct.
   */
  lemma TableContents()
    ensures |Entries| == 2
    ensures Lookup(VITALITY) == Some(Entry(VITALITY, HEALTH_BOOST, ANY_ARMOR, 120))
    ensures Lookup(EMBER_WARD) == Some(Entry(EMBER_WARD, FIRE_RESISTANCE, ANY_ARMOR, 120))
    ensures forall id :: Lookup(id).Some? <==> id in {VITALITY, EMBER_WARD}
    ensures forall i, j :: 0 <= i < j < |Entries| ==> Entries[i].id != Entries[j].id
    ensures forall e :: e in Entries ==> e.slotRule == ANY_ARMOR && e.durationTicks == 120
  {
  }
}
