/**
 * RaffleApplyListener: sneak and right-click with a raffle token to apply
 * it to a piece of armour. The handler checks the click, finds the token
 * and the armour in the two hands, keeps a per-player cooldown, asks the
 * raffle service to apply, rewrites the lore and consumes one token, and
 * answers with a message and a sound cue.
 */
module RaffleApplyListeners {
  import opened Wrappers
  import opened JavaText
  import opened Items
  import opened Inventories
  import opened Configs
  import opened RaffleEffectIds
  import opened RaffleKeys
  import opened RafflePotionTable
  import opened RaffleService
  import opened RaffleLore

  /** The sound the handler asks for; its key, volume and pitch come from the config. */
  datatype Cue = NoCue | FailCue | SuccessCue

  /** What one event leads to: cancelled or not, the message sent (untranslated), the cue, the hands after. */
  datatype Outcome = Outcome(cancelled: bool, message: Option<string>, cue: Cue, hands: Hands)

  const REQUIRE_TOKEN_MAINHAND: string := "raffle.require_token_mainhand"
  const REQUIRE_ARMOR_OFFHAND: string := "raffle.require_armor_offhand"
  const COOLDOWN_MS: string := "raffle.cooldown_ms"
  const FAIL_GENERIC: string := "raffle.message.fail_generic"
  const FAIL_NO_ARMOR: string := "raffle.message.fail_no_armor"
  const FAIL_NOT_ARMOR: string := "raffle.message.fail_not_armor"
  const SUCCESS: string := "raffle.message.success"
  const GENERIC_TEMPLATE: string := "&c{reason}"
  const SUCCESS_TEXT: string := "&dSomething shifts within the armor..."
  const WRONG_HAND: string := "Hold the token in your main hand."
  const BOTH_TOKENS: string := "Hold armor in one hand and the token in the other."

  /** `RaffleTokenFactory.isToken`: a non-AIR stack with meta whose token byte is 1. */
  predicate IsRaffleToken(s: Option<Item>) {
    !IsNothing(s) && s.value.meta.Some? && GetByte(s.value.meta.value.pdc, TOKEN_RAFFLE) == Some(1)
  }

  /**
   * `sendFail(key, fallbackReason)`: the configured text under `key`, or,
   * when it is missing or blank, the generic template with its "{reason}"
   * replaced by the fallback reason ("Failed." for none).
   */
  function FailText(cfg: Config, key: string, fallbackReason: Option<string>): (r: string)
    ensures CfgStringOrNull(cfg, key).Some? && !IsBlank(cfg.strings[key]) ==> r == cfg.strings[key]
  {
    var msg := CfgStringOrNull(cfg, key);
    if msg.None? || IsBlank(msg.value) then
      Replace(CfgString(cfg, FAIL_GENERIC, GENERIC_TEMPLATE), "{reason}", fallbackReason.GetOr("Failed."))
    else msg.value
  }

  /** A refusal: the message and the fail cue, the hands untouched. */
  function Refuse(cancelled: bool, text: string, hands: Hands): Outcome {
    Outcome(cancelled, Some(text), FailCue, hands)
  }

  /** `armorSlot`: None for a null stack or a non-armour material. */
  function ArmorSlot(armor: Option<Item>): (r: Option<EquipmentSlot>)
    ensures r.Some? <==> armor.Some? && IsArmorName(armor.value.material)
  {
    if armor.None? then None else ArmorSlotOf(armor.value.material)
  }

  /** `isEffectCompatibleWithSlot`: false for a null id or slot, otherwise the potion table's rule. */
  predicate CompatibleWithSlot(id: Option<EffectId>, slot: Option<EquipmentSlot>) {
    id.Some? && slot.Some? && IsCompatible(id.value, slot.value)
  }

  /** The three settings the handler reads on each event, with their defaults. */
  function RequireTokenMainhand(cfg: Config): bool { CfgBoolean(cfg, REQUIRE_TOKEN_MAINHAND, true) }
  function RequireArmorOffhand(cfg: Config): bool { CfgBoolean(cfg, REQUIRE_ARMOR_OFFHAND, true) }
  function CooldownMs(cfg: Config): int { CfgLong(cfg, COOLDOWN_MS, 250) }

  // ---------------------------------------------------------------- the decision

  /**
   * The answers of `isSameItemRef` when `consumeOne` compares the token it
   * resolved with the stacks it fetches again from the main and the off
   * hand. The test compares object references, and whether the server
   * hands back the same object on each fetch is the server's business, so
   * the model takes both answers as given.
   */
  datatype SameRef = SameRef(main: bool, off: bool)

  /** The answers when each fetch returns the stack object the hand holds: true exactly for the token's hand. */
  function Identity(token: HandSide): SameRef {
    SameRef(token == MainSide, token == OffSide)
  }

  /** What `consumeOne` leaves, as written: the reference tests pick the hand, main first, and no hand when neither holds. */
  function ConsumedByRef(hands: Hands, stackRef: Option<Item>, same: SameRef): Hands {
    if IsNothing(stackRef) then hands
    else if same.main then ConsumedFromHand(hands, MainSide)
    else if same.off then ConsumedFromHand(hands, OffSide)
    else hands
  }

  /** The checks before the cooldown: None means the handler goes on. */
  function Gate(c: Click, cfg: Config, hands: Hands): Option<Outcome> {
    var mainIsToken := IsRaffleToken(hands.main);
    var offIsToken := IsRaffleToken(hands.off);
    if c.action !in {RIGHT_CLICK_AIR, RIGHT_CLICK_BLOCK} || c.hand != HAND || !c.sneaking then
      Some(Outcome(false, None, NoCue, hands))
    else if !mainIsToken && !offIsToken then Some(Outcome(false, None, NoCue, hands))
    else if RequireTokenMainhand(cfg) && !mainIsToken then
      Some(Refuse(true, FailText(cfg, FAIL_GENERIC, Some(WRONG_HAND)), hands))
    else if RequireArmorOffhand(cfg) && mainIsToken && IsNothing(hands.off) then
      Some(Refuse(true, FailText(cfg, FAIL_NO_ARMOR, None), hands))
    else if RequireArmorOffhand(cfg) && mainIsToken && !IsArmorName(hands.off.value.material) then
      Some(Refuse(true, FailText(cfg, FAIL_NOT_ARMOR, None), hands))
    else None
  }

  /** The hands of the token and of the armour, or None when flexible mode finds two tokens. */
  function Sides(cfg: Config, hands: Hands): Option<(HandSide, HandSide)> {
    var mainIsToken := IsRaffleToken(hands.main);
    var offIsToken := IsRaffleToken(hands.off);
    if RequireTokenMainhand(cfg) then
      Some((MainSide, if RequireArmorOffhand(cfg) then OffSide else if mainIsToken then OffSide else MainSide))
    else if mainIsToken && offIsToken then None
    else if mainIsToken then Some((MainSide, OffSide))
    else Some((OffSide, MainSide))
  }

  /** The part after the cooldown, once a token and an armour hand are known. */
  function Finish(cfg: Config, hands: Hands, token: HandSide, armorSide: HandSide,
                  maxSlots: Int32, pool: seq<EffectId>, draw: nat, same: SameRef): Outcome
  {
    var armor := Get(hands, armorSide);
    if IsNothing(armor) then Refuse(true, FailText(cfg, FAIL_NO_ARMOR, None), hands)
    else if !IsArmorName(armor.value.material) then Refuse(true, FailText(cfg, FAIL_NOT_ARMOR, None), hands)
    else
      var (result, after) := Apply(armor, maxSlots, pool, draw);
      if !result.success then
        Refuse(true, Replace(CfgString(cfg, FAIL_GENERIC, GENERIC_TEMPLATE), "{reason}", result.message), hands)
      else
        var relored := Set(hands, armorSide, Relored(after, maxSlots as int));
        Outcome(true, Some(CfgString(cfg, SUCCESS, SUCCESS_TEXT)), SuccessCue, ConsumedByRef(relored, Get(hands, token), same))
  }

  /** Whether the cooldown lets the click through, given the last recorded use. */
  predicate CoolingDown(cfg: Config, lastUse: map<nat, int>, c: Click) {
    CooldownMs(cfg) > 0 && c.now - (if c.player in lastUse then lastUse[c.player] else 0) < CooldownMs(cfg)
  }

  /** The whole of `onApply`: the outcome and the cooldown map afterwards. */
  function OnApply(c: Click, cfg: Config, hands: Hands, lastUse: map<nat, int>,
                   maxSlots: Int32, pool: seq<EffectId>, draw: nat, same: SameRef): (Outcome, map<nat, int>)
  {
    var gate := Gate(c, cfg, hands);
    if gate.Some? then (gate.value, lastUse)
    else if CoolingDown(cfg, lastUse, c) then (Outcome(true, None, NoCue, hands), lastUse)
    else
      var lastUse' := if CooldownMs(cfg) > 0 then lastUse[c.player := c.now] else lastUse;
      var sides := Sides(cfg, hands);
      if sides.None? then (Refuse(true, FailText(cfg, FAIL_GENERIC, Some(BOTH_TOKENS)), hands), lastUse')
      else (Finish(cfg, hands, sides.value.0, sides.value.1, maxSlots, pool, draw, same), lastUse')
  }

  class RaffleApplyListener {
    const service: Service
    var lastUseMs: map<nat, int>

    constructor(service: Service)
      ensures this.service == service && lastUseMs == map[]
    {
      this.service := service;
      lastUseMs := map[];
    }

    /**
     * `onApply`. The hands are values: the handler returns them as they are
     * afterwards; `c.now` stands for the clock and `draw` for the raffle's
     * random index.
     */
    method HandleApply(c: Click, cfg: Config, hands: Hands, maxSlots: Int32, draw: nat, same: SameRef)
      returns (out: Outcome)
      modifies this
      ensures (out, lastUseMs) == OnApply(c, cfg, hands, old(lastUseMs), maxSlots, service.pool.pool, draw, same)
    {
      var gate := Gate(c, cfg, hands);
      if gate.Some? {
        return gate.value;
      }
      var cooldownMs := CooldownMs(cfg);
      if cooldownMs > 0 {
        var last := if c.player in lastUseMs then lastUseMs[c.player] else 0;
        if c.now - last < cooldownMs {
          return Outcome(true, None, NoCue, hands);
        }
        lastUseMs := lastUseMs[c.player := c.now];
      }
      var sides := Sides(cfg, hands);
      if sides.None? {
        return Refuse(true, FailText(cfg, FAIL_GENERIC, Some(BOTH_TOKENS)), hands);
      }
      out := ApplyWith(cfg, hands, sides.value.0, sides.value.1, maxSlots, draw, same);
    }

    /** From the armour checks to the success feedback. */
    method ApplyWith(cfg: Config, hands: Hands, token: HandSide, armorSide: HandSide, maxSlots: Int32, draw: nat,
                     same: SameRef)
      returns (out: Outcome)
      ensures out == Finish(cfg, hands, token, armorSide, maxSlots, service.pool.pool, draw, same)
    {
      var armor := Get(hands, armorSide);
      if armor.None? || armor.value.material == AIR {
        return Refuse(true, FailText(cfg, FAIL_NO_ARMOR, None), hands);
      }
      if !IsArmorName(armor.value.material) {
        return Refuse(true, FailText(cfg, FAIL_NOT_ARMOR, None), hands);
      }
      var result, after := service.ApplyToArmor(armor, maxSlots, draw);
      if !result.success {
        var msg := CfgString(cfg, FAIL_GENERIC, GENERIC_TEMPLATE);
        msg := Replace(msg, "{reason}", result.message);
        return Refuse(true, msg, hands);
      }
      var relored := ApplyLore(after, maxSlots as int);
      var now := Set(hands, armorSide, relored);
      now := ConsumeOne(now, Get(hands, token), same);
      out := Outcome(true, Some(CfgString(cfg, SUCCESS, SUCCESS_TEXT)), SuccessCue, now);
    }
  }

  /**
   * `consumeOne(player, stackRef)`: nothing for a null or AIR token; the
   * hands are fetched again and the first one whose stack is the token
   * object itself (`isSameItemRef`, a reference comparison) loses one item.
   */
  method ConsumeOne(hands: Hands, stackRef: Option<Item>, same: SameRef) returns (r: Hands)
    ensures r == ConsumedByRef(hands, stackRef, same)
  {
    if stackRef.None? || stackRef.value.material == AIR {
      return hands;
    }
    if same.main {
      r := ConsumeFromHand(hands, MainSide);
      return;
    }
    r := hands;
    if same.off {
      r := ConsumeFromHand(hands, OffSide);
    }
  }

  // ---------------------------------------------------------------- properties

  /** Only a sneaking right-click on the main-hand event with a token in some hand is handled. */
  lemma IgnoredClicks(c: Click, cfg: Config, hands: Hands, lastUse: map<nat, int>,
                      maxSlots: Int32, pool: seq<EffectId>, draw: nat, same: SameRef)
    requires c.action !in {RIGHT_CLICK_AIR, RIGHT_CLICK_BLOCK} || c.hand != HAND || !c.sneaking
             || (!IsRaffleToken(hands.main) && !IsRaffleToken(hands.off))
    ensures OnApply(c, cfg, hands, lastUse, maxSlots, pool, draw, same) == (Outcome(false, None, NoCue, hands), lastUse)
  {
  }

  /** A handled click is always cancelled. */
  lemma HandledIsCancelled(c: Click, cfg: Config, hands: Hands, lastUse: map<nat, int>,
                           maxSlots: Int32, pool: seq<EffectId>, draw: nat, same: SameRef)
    requires c.action in {RIGHT_CLICK_AIR, RIGHT_CLICK_BLOCK} && c.hand == HAND && c.sneaking
    requires IsRaffleToken(hands.main) || IsRaffleToken(hands.off)
    ensures OnApply(c, cfg, hands, lastUse, maxSlots, pool, draw, same).0.cancelled
  {
    var sides := Sides(cfg, hands);
    if Gate(c, cfg, hands).None? && !CoolingDown(cfg, lastUse, c) && sides.Some? {
      FinishCancelled(cfg, hands, sides.value.0, sides.value.1, maxSlots, pool, draw, same);
    }
  }

  lemma FinishCancelled(cfg: Config, hands: Hands, token: HandSide, armorSide: HandSide,
                        maxSlots: Int32, pool: seq<EffectId>, draw: nat, same: SameRef)
    ensures Finish(cfg, hands, token, armorSide, maxSlots, pool, draw, same).cancelled
  {
  }

  /** Requiring the token in the main hand refuses a token held only in the off hand, before the cooldown. */
  lemma MainhandRequired(c: Click, cfg: Config, hands: Hands, lastUse: map<nat, int>,
                         maxSlots: Int32, pool: seq<EffectId>, draw: nat, same: SameRef)
    requires c.action in {RIGHT_CLICK_AIR, RIGHT_CLICK_BLOCK} && c.hand == HAND && c.sneaking
    requires RequireTokenMainhand(cfg) && !IsRaffleToken(hands.main) && IsRaffleToken(hands.off)
    ensures OnApply(c, cfg, hands, lastUse, maxSlots, pool, draw, same)
            == (Refuse(true, FailText(cfg, FAIL_GENERIC, Some(WRONG_HAND)), hands), lastUse)
  {
  }

  /** Requiring armour in the off hand refuses an empty or non-armour off hand, before the cooldown. */
  lemma OffhandRequired(c: Click, cfg: Config, hands: Hands, lastUse: map<nat, int>,
                        maxSlots: Int32, pool: seq<EffectId>, draw: nat, same: SameRef)
    requires c.action in {RIGHT_CLICK_AIR, RIGHT_CLICK_BLOCK} && c.hand == HAND && c.sneaking
    requires RequireArmorOffhand(cfg) && IsRaffleToken(hands.main)
    requires IsNothing(hands.off) || !IsArmorName(hands.off.value.material)
    ensures var r := OnApply(c, cfg, hands, lastUse, maxSlots, pool, draw, same);
            r.1 == lastUse && r.0.hands == hands && r.0.cue == FailCue
            && r.0.message == Some(FailText(cfg, if IsNothing(hands.off) then FAIL_NO_ARMOR else FAIL_NOT_ARMOR, None))
  {
  }

  /** A click inside the cooldown window is swallowed: cancelled, silent, nothing changes. */
  lemma CooldownSilent(c: Click, cfg: Config, hands: Hands, lastUse: map<nat, int>,
                       maxSlots: Int32, pool: seq<EffectId>, draw: nat, same: SameRef)
    requires Gate(c, cfg, hands).None? && CoolingDown(cfg, lastUse, c)
    ensures OnApply(c, cfg, hands, lastUse, maxSlots, pool, draw, same) == (Outcome(true, None, NoCue, hands), lastUse)
  {
  }

  /**
   * A click that passes the cooldown records its time, whatever happens
   * next (even a refusal); with a cooldown of 0 or less nothing is
   * recorded and the check never blocks.
   */
  lemma CooldownRecords(c: Click, cfg: Config, hands: Hands, lastUse: map<nat, int>,
                        maxSlots: Int32, pool: seq<EffectId>, draw: nat, same: SameRef)
    requires Gate(c, cfg, hands).None? && !CoolingDown(cfg, lastUse, c)
    ensures var m := OnApply(c, cfg, hands, lastUse, maxSlots, pool, draw, same).1;
            if CooldownMs(cfg) > 0 then m == lastUse[c.player := c.now] else m == lastUse
  {
  }

  /** With the cooldown disabled no click is ever swallowed by it. */
  lemma NoCooldownNeverBlocks(c: Click, cfg: Config, lastUse: map<nat, int>)
    requires CooldownMs(cfg) <= 0
    ensures !CoolingDown(cfg, lastUse, c)
  {
  }

  /** Right after a recorded use, a second click of the same player within the window is swallowed. */
  lemma SecondClickBlocked(cfg: Config, lastUse: map<nat, int>, first: Click, second: Click)
    requires CooldownMs(cfg) > 0 && second.player == first.player
    requires first.now <= second.now < first.now + CooldownMs(cfg)
    ensures CoolingDown(cfg, lastUse[first.player := first.now], second)
  {
  }

  /** Flexible mode with a token in each hand is refused after the cooldown, and the hands stay. */
  lemma FlexibleBothTokens(c: Click, cfg: Config, hands: Hands, lastUse: map<nat, int>,
                           maxSlots: Int32, pool: seq<EffectId>, draw: nat, same: SameRef)
    requires Gate(c, cfg, hands).None? && !CoolingDown(cfg, lastUse, c)
    requires !RequireTokenMainhand(cfg) && IsRaffleToken(hands.main) && IsRaffleToken(hands.off)
    ensures OnApply(c, cfg, hands, lastUse, maxSlots, pool, draw, same).0
            == Refuse(true, FailText(cfg, FAIL_GENERIC, Some(BOTH_TOKENS)), hands)
  {
  }

  /**
   * The token and the armour are always in different hands; when the main
   * hand is required to hold the token, the armour is the off-hand stack.
   */
  lemma SidesDiffer(cfg: Config, hands: Hands)
    requires IsRaffleToken(hands.main) || IsRaffleToken(hands.off)
    requires RequireTokenMainhand(cfg) ==> IsRaffleToken(hands.main)
    requires Sides(cfg, hands).Some?
    ensures Sides(cfg, hands).value.0 != Sides(cfg, hands).value.1
    ensures RequireTokenMainhand(cfg) ==> Sides(cfg, hands).value == (MainSide, OffSide)
    ensures IsRaffleToken(Get(hands, Sides(cfg, hands).value.0))
  {
  }

  /**
   * The token is consumed only on success: every other outcome leaves both
   * hands as they were. A success leaves the hands as `consumeOne` leaves
   * them after the armour got its new container and rebuilt lore; when the
   * reference test finds the token's own hand, that is one item fewer in
   * the token's stack and the rebuilt armour in the other hand.
   */
  lemma ConsumedOnlyOnSuccess(cfg: Config, hands: Hands, token: HandSide, armorSide: HandSide,
                              maxSlots: Int32, pool: seq<EffectId>, draw: nat, same: SameRef)
    requires token != armorSide
    ensures var out := Finish(cfg, hands, token, armorSide, maxSlots, pool, draw, same);
            var armor := Get(hands, armorSide);
            var relored := Set(hands, armorSide, Relored(Apply(armor, maxSlots, pool, draw).1, maxSlots as int));
            (out.cue != SuccessCue ==> out.hands == hands)
            && (out.cue == SuccessCue ==>
                  Apply(armor, maxSlots, pool, draw).0.success
                  && out.hands == ConsumedByRef(relored, Get(hands, token), same))
            && (out.cue == SuccessCue && same == Identity(token) ==>
                  Get(out.hands, token) == Consumed(Get(hands, token))
                  && Get(out.hands, armorSide) == Relored(Apply(armor, maxSlots, pool, draw).1, maxSlots as int))
  {
    assert armorSide == Other(token);
  }

  /**
   * With the reference test answering true exactly for the token's hand,
   * `consumeOne` takes one item from the token's stack and leaves the other
   * hand: the intended rule.
   */
  lemma IdentityConsumesToken(hands: Hands, token: HandSide)
    ensures ConsumedByRef(hands, Get(hands, token), Identity(token)) == ConsumedFromHand(hands, token)
  {
  }

  /**
   * When neither fetch returns the token object (the server builds a new
   * wrapper on each `getItemInMainHand` and `getItemInOffHand` call),
   * `consumeOne` takes nothing, although the intended rule would take one
   * item of the token: after a successful apply the token is kept.
   */
  lemma FreshWrappersKeepToken(hands: Hands, token: HandSide)
    requires IsRaffleToken(Get(hands, token))
    ensures ConsumedByRef(hands, Get(hands, token), SameRef(false, false)) == hands
    ensures Get(ConsumedFromHand(hands, token), token) != Get(hands, token)
  {
  }

  /** The same for a whole event: a successful apply with fresh wrappers leaves the token's stack as it was. */
  lemma SuccessKeepsTokenWithFreshWrappers(cfg: Config, hands: Hands, token: HandSide, armorSide: HandSide,
                                            maxSlots: Int32, pool: seq<EffectId>, draw: nat)
    requires token != armorSide && IsRaffleToken(Get(hands, token))
    ensures var out := Finish(cfg, hands, token, armorSide, maxSlots, pool, draw, SameRef(false, false));
            out.cue == SuccessCue ==> Get(out.hands, token) == Get(hands, token)
  {
    assert armorSide == Other(token);
  }

  /** A failed apply answers with the service's reason in the generic template. */
  lemma FailureReason(cfg: Config, hands: Hands, token: HandSide, armorSide: HandSide,
                      maxSlots: Int32, pool: seq<EffectId>, draw: nat, same: SameRef)
    requires var armor := Get(hands, armorSide);
             !IsNothing(armor) && IsArmorName(armor.value.material) && !Apply(armor, maxSlots, pool, draw).0.success
    ensures Finish(cfg, hands, token, armorSide, maxSlots, pool, draw, same).message
            == Some(Replace(CfgString(cfg, FAIL_GENERIC, GENERIC_TEMPLATE), "{reason}",
                            Apply(Get(hands, armorSide), maxSlots, pool, draw).0.message))
  {
  }

  /** The listener's slot test agrees with the potion table for real ids, and allows every id on every armour slot. */
  lemma CompatibleWithSlotTable(id: EffectId, armor: Option<Item>)
    requires armor.Some? && IsArmorName(armor.value.material)
    ensures CompatibleWithSlot(Some(id), ArmorSlot(armor)) <==> IsCompatible(id, ArmorSlot(armor).value)
    ensures CompatibleWithSlot(Some(id), ArmorSlot(armor))
    ensures !CompatibleWithSlot(None, ArmorSlot(armor))
  {
    AllCompatible(id, ArmorSlot(armor).value);
  }
}
