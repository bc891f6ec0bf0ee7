/**
 * The player's two hands, as the listeners that use a token from one hand
 * on the item in the other see them, and the "take one item" rule they
 * share when a token is used up.
 */
module Inventories {
  import opened Wrappers
  import opened Items

  datatype Action = RIGHT_CLICK_AIR | RIGHT_CLICK_BLOCK | LEFT_CLICK_AIR | LEFT_CLICK_BLOCK | PHYSICAL

  /** The click of one interact event, and the player's state at that moment. */
  datatype Click = Click(action: Action, hand: EquipmentSlot, sneaking: bool, player: nat, now: int)

  /** A sneaking right-click reported for the main hand: the only click the token listeners act on. */
  predicate IsSneakRightClick(c: Click) {
    c.action in {RIGHT_CLICK_AIR, RIGHT_CLICK_BLOCK} && c.hand == HAND && c.sneaking
  }

  /** The two hands of the player's inventory. */
  datatype Hands = Hands(main: Option<Item>, off: Option<Item>)

  datatype HandSide = MainSide | OffSide

  function Get(h: Hands, side: HandSide): Option<Item> {
    if side == MainSide then h.main else h.off
  }

  function Set(h: Hands, side: HandSide, s: Option<Item>): (r: Hands)
    ensures Get(r, side) == s
    ensures Get(r, Other(side)) == Get(h, Other(side))
  {
    if side == MainSide then h.(main := s) else h.(off := s)
  }

  function Other(side: HandSide): HandSide {
    if side == MainSide then OffSide else MainSide
  }

  /** Taking one item from a stack: null or AIR unchanged, one left becomes AIR. */
  function Consumed(s: Option<Item>): (r: Option<Item>)
    ensures IsNothing(s) ==> r == s
    ensures !IsNothing(s) && s.value.amount <= 1 ==> r == Some(AirStack())
    ensures !IsNothing(s) && s.value.amount > 1 ==>
              r.Some? && r.value.amount == s.value.amount - 1 && r.value.material == s.value.material && r.value.meta == s.value.meta
  {
    if IsNothing(s) then s
    else if s.value.amount <= 1 then Some(AirStack())
    else Some(s.value.(amount := s.value.amount - 1))
  }

  /** One item taken from the stack in one hand; the other hand keeps its stack. */
  function ConsumedFromHand(hands: Hands, side: HandSide): (r: Hands)
    ensures Get(r, Other(side)) == Get(hands, Other(side))
    ensures !IsNothing(Get(hands, side)) && Get(hands, side).value.amount > 1 ==>
              !IsNothing(Get(r, side)) && Get(r, side).value.amount == Get(hands, side).value.amount - 1
    ensures !IsNothing(Get(hands, side)) && Get(hands, side).value.amount <= 1 ==> Get(r, side) == Some(AirStack())
    ensures IsNothing(Get(hands, side)) ==> r == hands
  {
    Set(hands, side, Consumed(Get(hands, side)))
  }

  /**
   * `consumeOneFromHand` (and the raffle listener's `consumeMain` and
   * `consumeOff`): the stack in that hand loses one item in place, or the
   * hand is set to AIR when it held the last one.
   */
  method ConsumeFromHand(hands: Hands, side: HandSide) returns (r: Hands)
    ensures r == ConsumedFromHand(hands, side)
  {
    var stack := Get(hands, side);
    if stack.None? || stack.value.material == AIR {
      return hands;
    }
    var amt := stack.value.amount;
    if amt <= 1 {
      r := Set(hands, side, Some(AirStack()));
    } else {
      r := Set(hands, side, Some(stack.value.(amount := amt - 1)));
    }
  }

  /** Consuming takes exactly one item: a stack of n > 1 keeps n - 1, a last item leaves AIR. */
  lemma ConsumeCount(s: Option<Item>)
    requires !IsNothing(s)
    ensures s.value.amount > 1 ==> Consumed(s).value.amount == s.value.amount - 1 && !IsNothing(Consumed(s))
    ensures s.value.amount <= 1 ==> IsNothing(Consumed(s))
  {
  }
}
