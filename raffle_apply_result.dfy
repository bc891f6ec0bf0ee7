/**
 * RaffleApplyResult: the immutable outcome value with its two factories.
 * A failure carries no rolled id and no curse, and passes the slot counts
 * through as given.
 */
module RaffleApplyResults {
  import opened Wrappers

  datatype RaffleApplyResult = RaffleApplyResult(
    success: bool,
    message: string,
    rolledId: Option<string>,
    curseApplied: bool,
    usedSlots: int,
    maxSlots: int)

  /** `ok`: a success with the fixed message "Applied.". */
  function Ok(rolledId: Option<string>, curseApplied: bool, usedSlots: int, maxSlots: int): (r: RaffleApplyResult)
    ensures r.success && r.message == "Applied."
    ensures r.rolledId == rolledId && r.curseApplied == curseApplied
    ensures r.usedSlots == usedSlots && r.maxSlots == maxSlots
  {
    RaffleApplyResult(true, "Applied.", rolledId, curseApplied, usedSlots, maxSlots)
  }

  /** `fail`: the given message, no rolled id, no curse, the slot counts unchanged. */
  function Fail(message: string, usedSlots: int, maxSlots: int): (r: RaffleApplyResult)
    ensures !r.success && r.message == message
    ensures r.rolledId.None? && !r.curseApplied
    ensures r.usedSlots == usedSlots && r.maxSlots == maxSlots
  {
    RaffleApplyResult(false, message, None, false, usedSlots, maxSlots)
  }

  /** The two factories never build the same value, and each is determined by its arguments. */
  lemma FactoriesDistinct(a: Option<string>, c: bool, u1: int, m1: int, msg: string, u2: int, m2: int)
    ensures Ok(a, c, u1, m1) != Fail(msg, u2, m2)
  {
  }

  /** A result is a success exactly when it came from `ok`. */
  lemma SuccessIsOk(r: RaffleApplyResult)
    requires r.success && r.message == "Applied."
    ensures r == Ok(r.rolledId, r.curseApplied, r.usedSlots, r.maxSlots)
  {
  }
}
