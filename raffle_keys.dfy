/**
 * Container keys of the raffle system. `EFFECTS` and `SLOT_COUNT` are the
 * keys the raffle service and the effect reader use for the comma format;
 * `ARMOR_EFFECTS`, `ARMOR_HAS_CURSE` and `ARMOR_SLOTS_USED` belong to the
 * equip listener's pipe format; `TOKEN_RAFFLE` marks a raffle token.
 */
module RaffleKeys {
  const EFFECTS: string := "raffle_effects"
  const SLOT_COUNT: string := "raffle_slot_count"
  const ARMOR_EFFECTS: string := "raffle_armor_effects"
  const ARMOR_HAS_CURSE: string := "raffle_armor_has_curse"
  const ARMOR_SLOTS_USED: string := "raffle_armor_slots_used"
  const TOKEN_RAFFLE: string := "raffle_token"

  /** The two keys of the comma format differ (their lengths already do). */
  lemma CommaKeysDiffer()
    ensures EFFECTS != SLOT_COUNT
  {
    assert |EFFECTS| != |SLOT_COUNT|;
  }
}
