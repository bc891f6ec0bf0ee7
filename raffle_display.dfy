/**
 * RaffleDisplay: the deliberately vague player-facing names. Four ids have
 * one; every other id, and null, reads "Unknown".
 */
module RaffleDisplay {
  import opened Wrappers
  import opened RaffleEffectIds

  /** The static table: VITALITY, EMBER_WARD, DREAD and MISSTEP. */
  const VagueNames: map<EffectId, string> :=
    map[VITALITY := "Vigor", EMBER_WARD := "Warmth", DREAD := "Unease", MISSTEP := "Disarray"]

  /** `vagueName`: "Unknown" for null and for ids outside the table. */
  function VagueName(id: Option<EffectId>): (r: string)
    ensures id.None? ==> r == "Unknown"
    ensures id.Some? && id.value !in {VITALITY, EMBER_WARD, DREAD, MISSTEP} ==> r == "Unknown"
  {
    if id.None? then "Unknown"
    else if id.value in VagueNames then VagueNames[id.value]
    else "Unknown"
  }

  /** The four named ids, and the fact that a name is never empty. */
  lemma VagueNameTable(id: Option<EffectId>)
    ensures id == Some(VITALITY) ==> VagueName(id) == "Vigor"
    ensures id == Some(EMBER_WARD) ==> VagueName(id) == "Warmth"
    ensures id == Some(DREAD) ==> VagueName(id) == "Unease"
    ensures id == Some(MISSTEP) ==> VagueName(id) == "Disarray"
    ensures |VagueName(id)| > 0
  {
  }

  /** Only the four table ids get a name of their own. */
  lemma VagueNameKnown(id: EffectId)
    ensures VagueName(Some(id)) != "Unknown" <==> id in {VITALITY, EMBER_WARD, DREAD, MISSTEP}
  {
  }
}
