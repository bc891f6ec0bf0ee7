# BossEncounters2 in Dafny

A model of the rules inside BossEncounters2, a Paper (Minecraft server)
plugin. The plugin turns some freshly spawned mobs into ranked bosses with
affixes, drops add-on tokens when they die, and lets players improve
their gear with those tokens. Its largest part is the raffle armour
system: a raffle token applied to a piece of armour rolls one random
effect into the piece's stored effect map and uses up one of its slots.
While the armour is worn, periodic engines turn the stored effects into
potion effects and custom curses.

The model has one Dafny module per source class. Listener and service
classes that keep maps become Dafny classes with those maps as fields.
Their handlers are methods proved against specification functions, and
the properties the code promises are lemmas about those functions. Pure
helpers, such as the parsers, the lore builders and the tables, are
functions.

The server is abstracted as follows:
- An item stack is a value `Items.Item` holding a material name, an
  amount and optional meta.
- The meta is the persistent data container, a map from key to typed
  value, plus the lore lines.
- A nullable stack is an `Option`.
- The configuration is a set of typed maps. Each read applies the
  caller's default for a missing key.
- Players, worlds and the entities the effects spawn are small classes
  in `EffectHost`, `MatadorEffects` and `ArmorEquipListeners`.
- A task the code schedules is recorded as pending. The task firing is a
  method of its own.
- Clock readings (`now`), random draws (`roll`, `draw`) and world queries
  (a player near, a target held, entities around) are parameters.
- Java `int` arithmetic is written out where it can wrap. For example,
  the raffle service's level step wraps past `Integer.MAX_VALUE`.
- `String.trim`, `split`, `replace` and `String.valueOf` follow Java's
  rules, in `JavaText`. `Integer.parseInt` follows them, range check
  included, for text in ASCII digits (see "Left out").

## The sources disagree

The shown sources are drafts that do not compile together. The model
settles each gap explicitly:
- `RaffleKeys` declares neither `EFFECTS` nor `SLOT_COUNT`, but
  `RaffleService` and `RaffleEffectReader` use both. The model gives them
  their own keys for the comma format `ID:level,ID:level`.
- The equip listener reads `ARMOR_EFFECTS` in the `|` format. It is a
  separate key with a separate parser (`ArmorEffectCodec`).
- `RafflePotionTable.SlotRule` has two values, but the raffle service
  switches over five. The model has all five.
- `canLevel` is taken from `RaffleEffectId`, since the table's `Entry`
  has no such field.
- `RaffleEffectId` has twelve constants. The custom effects also name
  ids it lacks (ECHOES, MATADOR, REDUCTION, ON_ALL_FOURS, UNEASE and
  others). The custom engine's registry is therefore the ids the
  catalogue declares: TERROR, DREAD and MISSTEP. Every custom effect
  class is modelled on its own module all the same.
- The raffle service raises the stored level of every GOOD roll,
  non-levelable ones included, and always consumes a slot. The model
  follows the code. A non-levelable id is squashed to level 1 only where
  the potion engine reads it.
- `addon/AddOnListener.java` maps a `WATER_BREATHING` token type, but
  `TokenType` has no such constant. The model's `TokenType` follows the
  enum. The water-breathing path that compares the token's type name as
  a string (lines 95-100) is kept.
- `BossDropListener.java` names `TokenType.WATER_BREATHING` at lines 83,
  149 and 165, which the enum also lacks. The model's drop tables use a
  type `DropType` that is either a registry `TokenType` or
  `WATER_BREATHING`. The water-breathing drop has no registry
  definition, so its level (always 1) is not clamped.

## Model

| member | source | states |
|---|---|---|
| RaffleEffectIds.IsCurse | src/main/java/com/orangeslices/bossencounters/raffle/RaffleEffectId.java:34-48 | exactly DREAD, MISSTEP and TERROR are curses |
| RaffleEffectIds.IsGood | src/main/java/com/orangeslices/bossencounters/raffle/RaffleEffectId.java:50-52 | an id is good exactly when it is not one of the three curses |
| RaffleEffectIds.CanLevel | src/main/java/com/orangeslices/bossencounters/raffle/RaffleEffectId.java:58-60 | exactly VITALITY, IRON_WILL, BLOOD_MENDING and SKYBOUND level up, and every levelable id is good |
| RaffleEffectIds.NameShape | src/main/java/com/orangeslices/bossencounters/raffle/RaffleEffectId.java:17-36 | every constant's name is a non-empty run of upper-case letters and underscores |
| RaffleEffectIds.ValueOf | src/main/java/com/orangeslices/bossencounters/raffle/RaffleEffectId.java:81-85 | `valueOf` only ever returns the constant whose name is the key |
| RaffleEffectIds.NameInjective | src/main/java/com/orangeslices/bossencounters/raffle/RaffleEffectId.java:17-36 | two constants with the same name are the same constant |
| RaffleEffectIds.ValueOfName | src/main/java/com/orangeslices/bossencounters/raffle/RaffleEffectId.java:81-82 | `valueOf` of a constant's name is that constant |
| RaffleEffectIds.FromString | src/main/java/com/orangeslices/bossencounters/raffle/RaffleEffectId.java:66-86 | null and blank input give null; any result's name is the alias of the trimmed, upper-cased key |
| RaffleEffectIds.AliasOfName | src/main/java/com/orangeslices/bossencounters/raffle/RaffleEffectId.java:74-79 | the alias table leaves every current constant name alone |
| RaffleEffectIds.FromStringName | src/main/java/com/orangeslices/bossencounters/raffle/RaffleEffectId.java:66-86 | every constant parses back from its own name |
| RaffleEffectIds.FromStringOfKey | src/main/java/com/orangeslices/bossencounters/raffle/RaffleEffectId.java:69-82 | a key that is already trimmed and upper-case is looked up after its alias, unchanged otherwise |
| RaffleEffectIds.FromStringTolerant | src/main/java/com/orangeslices/bossencounters/raffle/RaffleEffectId.java:62-69 | surrounding whitespace and letter case are ignored: any spelling that upper-cases to a name parses to that constant |
| RaffleEffectIds.AliasParses | src/main/java/com/orangeslices/bossencounters/raffle/RaffleEffectId.java:74-82 | a trimmed upper-case key whose alias is a constant's name parses to that constant |
| RaffleEffectIds.FromStringWarmth | src/main/java/com/orangeslices/bossencounters/raffle/RaffleEffectId.java:75 | the old name WARMTH reads as EMBER_WARD |
| RaffleEffectIds.FromStringVigor | src/main/java/com/orangeslices/bossencounters/raffle/RaffleEffectId.java:76 | the old name VIGOR reads as VITALITY |
| RaffleEffectIds.FromStringUnease | src/main/java/com/orangeslices/bossencounters/raffle/RaffleEffectId.java:77 | the old name UNEASE reads as TERROR |
| RaffleEffectIds.FromStringDisarray | src/main/java/com/orangeslices/bossencounters/raffle/RaffleEffectId.java:78 | the old name DISARRAY reads as MISSTEP |
| RaffleService.HasCurse | src/main/java/com/orangeslices/bossencounters/raffle/RaffleService.java:199-204 | a map has a curse exactly when one of its keys is a curse |
| RaffleService.Candidates | src/main/java/com/orangeslices/bossencounters/raffle/RaffleService.java:132-153 | no more candidates than pool entries, each one allowed: a curse only on a piece without one, a good id only where its slot rule permits |
| RaffleService.CandidatesMembers | src/main/java/com/orangeslices/bossencounters/raffle/RaffleService.java:135-153 | an id is a candidate exactly when it is in the pool and passes the filter |
| RaffleService.CurseLockedCandidates | src/main/java/com/orangeslices/bossencounters/raffle/RaffleService.java:138-141 | a piece that already holds a curse gets only good candidates |
| RaffleService.Rolled | src/main/java/com/orangeslices/bossencounters/raffle/RaffleService.java:155-161 | the roll is null exactly when the candidate list is empty |
| RaffleService.RolledIsCandidate | src/main/java/com/orangeslices/bossencounters/raffle/RaffleService.java:155-161 | a roll is a pool entry that passes the filter |
| RaffleService.RollForSlot | src/main/java/com/orangeslices/bossencounters/raffle/RaffleService.java:132-162 | the loop builds the candidate list and returns the entry at the drawn index |
| RaffleService.ReadEffects | src/main/java/com/orangeslices/bossencounters/raffle/RaffleService.java:214-244 | the loop over the comma pieces gives the reader's parse of the stored string |
| RaffleService.ReadPiece | src/main/java/com/orangeslices/bossencounters/raffle/RaffleService.java:221-240 | one piece is skipped or read as in the parse: trimmed, exactly one ':', known id, level defaulting to 1, curses at 1 |
| RaffleService.WriteEffects | src/main/java/com/orangeslices/bossencounters/raffle/RaffleService.java:246-268 | the loop builds "ID:level" pieces joined by ',' in map order; an empty map removes the key |
| RaffleService.EncodeStep | src/main/java/com/orangeslices/bossencounters/raffle/RaffleService.java:262-264 | each further entry adds a ',' (after the first) and its piece |
| RaffleService.WriteReadRoundTrip | src/main/java/com/orangeslices/bossencounters/raffle/RaffleService.java:214-268 | reading back what was written gives the same ids in the same order, curses at level 1 and every level at least 1 |
| RaffleService.PieceParses | src/main/java/com/orangeslices/bossencounters/raffle/RaffleService.java:220-240 | one written piece parses back to its id and normalised level |
| RaffleService.PieceNoComma | src/main/java/com/orangeslices/bossencounters/raffle/RaffleService.java:263 | a written piece is non-empty and holds no ',' |
| RaffleService.EncodedNotBlank | src/main/java/com/orangeslices/bossencounters/raffle/RaffleService.java:218 | a written non-empty map is never blank, so the reader does not drop it |
| RaffleService.Fail | src/main/java/com/orangeslices/bossencounters/raffle/RaffleService.java:313-315 | a failure carries no effect |
| RaffleService.Success | src/main/java/com/orangeslices/bossencounters/raffle/RaffleService.java:309-311 | a success carries its effect |
| RaffleService.EffectiveMax | src/main/java/com/orangeslices/bossencounters/raffle/RaffleService.java:49 | a non-positive budget becomes 3, any other is kept |
| RaffleService.Service.ApplyToArmor | src/main/java/com/orangeslices/bossencounters/raffle/RaffleService.java:38-125 | the whole apply, with the piece returned as a value, is the decision function Apply |
| RaffleService.Service.ApplyToPiece | src/main/java/com/orangeslices/bossencounters/raffle/RaffleService.java:61-64 | past the item checks the stored map and counter are read and decided on |
| RaffleService.Service.DecideOn | src/main/java/com/orangeslices/bossencounters/raffle/RaffleService.java:75-124 | the budget, pool, roll and curse-lock checks, then the store, as in Decide |
| RaffleService.Service.StoreRoll | src/main/java/com/orangeslices/bossencounters/raffle/RaffleService.java:92-113 | a curse is stored at 1, a good id at previous plus 1, and the map is written with the counter plus 1 |
| RaffleService.ApplyReachesDecide | src/main/java/com/orangeslices/bossencounters/raffle/RaffleService.java:51-64 | past the item checks an armour piece always has a slot and the apply is the decision on its stored state |
| RaffleService.DecideFailure | src/main/java/com/orangeslices/bossencounters/raffle/RaffleService.java:75-99 | a failed decision leaves the piece as it was and reports no effect |
| RaffleService.DecideSuccess | src/main/java/com/orangeslices/bossencounters/raffle/RaffleService.java:75-124 | a success passed every check and is the grant of the rolled id |
| RaffleService.DecideOverBudget | src/main/java/com/orangeslices/bossencounters/raffle/RaffleService.java:75-78 | a piece at its budget is rejected with "Max add-ons reached." and left as it was |
| RaffleService.DecideEmptyPool | src/main/java/com/orangeslices/bossencounters/raffle/RaffleService.java:80-83 | within budget, an empty pool is rejected next |
| RaffleService.DecideNoCandidate | src/main/java/com/orangeslices/bossencounters/raffle/RaffleService.java:85-90 | a roll with no candidate is rejected |
| RaffleService.CurseGuardNeverFires | src/main/java/com/orangeslices/bossencounters/raffle/RaffleService.java:94-99 | the curse-locked guard is dead code: on a piece that already holds a curse the filtered roll is never a curse, so that failure is never returned |
| RaffleService.DecideGrants | src/main/java/com/orangeslices/bossencounters/raffle/RaffleService.java:92-124 | once every check passes the decision is the grant |
| RaffleService.FailureLeavesItem | src/main/java/com/orangeslices/bossencounters/raffle/RaffleService.java:38-90 | any failed apply leaves the piece exactly as it was with no effect |
| RaffleService.FailureOrder | src/main/java/com/orangeslices/bossencounters/raffle/RaffleService.java:38-83 | the checks run in order, each failing with its own message once the earlier ones pass |
| RaffleService.SuccessIsGrant | src/main/java/com/orangeslices/bossencounters/raffle/RaffleService.java:38-124 | a success is a grant of the rolled id after every check passed |
| RaffleService.SuccessSlots | src/main/java/com/orangeslices/bossencounters/raffle/RaffleService.java:108-124 | a success adds exactly one slot, writes the counter, reports it, and stays within the budget |
| RaffleService.SuccessEffects | src/main/java/com/orangeslices/bossencounters/raffle/RaffleService.java:92-112 | a success stores the rolled pool id at the level rule, keeps every other entry and never puts a curse on a cursed piece |
| RaffleService.GrantStores | src/main/java/com/orangeslices/bossencounters/raffle/RaffleService.java:100-112 | a grant's stored map reads back as the normalised put |
| RaffleService.CounterKeepsEffects | src/main/java/com/orangeslices/bossencounters/raffle/RaffleService.java:112-113 | writing the counter after the map leaves the map readable |
| RaffleService.CurseCountZero | src/main/java/com/orangeslices/bossencounters/raffle/RaffleService.java:199-204 | a map has no curse entry exactly when hasCurse is false |
| RaffleService.CurseCountPut | src/main/java/com/orangeslices/bossencounters/raffle/RaffleService.java:100-105 | a put adds at most one curse, and a good id adds none |
| RaffleService.GrantCurses | src/main/java/com/orangeslices/bossencounters/raffle/RaffleService.java:94-112 | a grant that passed the curse-lock keeps a piece at one curse at most |
| RaffleService.AtMostOneCurse | src/main/java/com/orangeslices/bossencounters/raffle/RaffleService.java:38-125 | a piece with at most one curse still has at most one after any apply |
| RaffleEffectReader.StoredLevel | src/main/java/com/orangeslices/bossencounters/raffle/effects/RaffleEffectReader.java:63-64 | a stored level is at least 1, a curse's is exactly 1, and a good id keeps any level of at least 1 |
| RaffleEffectReader.ParsePiece | src/main/java/com/orangeslices/bossencounters/raffle/effects/RaffleEffectReader.java:46-66 | a parsed piece has an int level of at least 1, and 1 for a curse |
| RaffleEffectReader.StepWellFormed | src/main/java/com/orangeslices/bossencounters/raffle/effects/RaffleEffectReader.java:66 | a put of a parsed piece keeps the map well formed (distinct ids, levels at least 1, curses at 1) |
| RaffleEffectReader.ParsePartsWellFormed | src/main/java/com/orangeslices/bossencounters/raffle/effects/RaffleEffectReader.java:46-67 | the whole loop keeps the map well formed |
| RaffleEffectReader.ParsePartsSnoc | src/main/java/com/orangeslices/bossencounters/raffle/effects/RaffleEffectReader.java:46-67 | the loop is a left fold: the last piece is the last step |
| RaffleEffectReader.ParseStored | src/main/java/com/orangeslices/bossencounters/raffle/effects/RaffleEffectReader.java:41-69 | the result of any stored string is well formed |
| RaffleEffectReader.LaterPieceWins | src/main/java/com/orangeslices/bossencounters/raffle/effects/RaffleEffectReader.java:66 | when an id repeats, the later piece decides its level |
| RaffleEffectReader.SkippedPiece | src/main/java/com/orangeslices/bossencounters/raffle/effects/RaffleEffectReader.java:47-54 | a piece that does not parse leaves the map as it was |
| RaffleEffectReader.SkipRules | src/main/java/com/orangeslices/bossencounters/raffle/effects/RaffleEffectReader.java:47-54 | an empty piece, a piece that does not split into exactly two parts, and an unknown id are each skipped |
| RaffleEffectReader.MalformedLevel | src/main/java/com/orangeslices/bossencounters/raffle/effects/RaffleEffectReader.java:56-61 | a non-numeric level of a good id reads as 1 |
| RaffleEffectReader.NoColonNoEffects | src/main/java/com/orangeslices/bossencounters/raffle/effects/RaffleEffectReader.java:50-51 | a string without ':' holds no effect |
| RaffleEffectReader.ReadFromPdc | src/main/java/com/orangeslices/bossencounters/raffle/effects/RaffleEffectReader.java:35-70 | a null container or a blank string gives the empty map; otherwise the parse of the pieces in order |
| RaffleEffectReader.ItemEffects | src/main/java/com/orangeslices/bossencounters/raffle/effects/RaffleEffectReader.java:28-33 | no item or no meta gives the empty map |
| RaffleEffectReader.ReadFromItem | src/main/java/com/orangeslices/bossencounters/raffle/effects/RaffleEffectReader.java:28-33 | the effects read from an item are well formed and are the reader's view of it |
| RaffleEffectReader.RaiseCommutes | src/main/java/com/orangeslices/bossencounters/raffle/effects/RaffleEffectReader.java:83-88 | meeting two added levels in either order gives the same level |
| RaffleEffectReader.MergeStepGet | src/main/java/com/orangeslices/bossencounters/raffle/effects/RaffleEffectReader.java:83-88 | one merge step sets the id to the higher of its current level and the normalised added one, and nothing else changes |
| RaffleEffectReader.MergedGet | src/main/java/com/orangeslices/bossencounters/raffle/effects/RaffleEffectReader.java:76-90 | after the merge every id of the source has the higher of its current (0 if absent) and its normalised source level; other ids are unchanged |
| RaffleEffectReader.MergeNeverLowers | src/main/java/com/orangeslices/bossencounters/raffle/effects/RaffleEffectReader.java:87-88 | a merge never lowers a level and never drops an id |
| RaffleEffectReader.MergeKeepsOthers | src/main/java/com/orangeslices/bossencounters/raffle/effects/RaffleEffectReader.java:79-89 | ids absent from the source keep their level |
| RaffleEffectReader.MergeIdempotent | src/main/java/com/orangeslices/bossencounters/raffle/effects/RaffleEffectReader.java:76-90 | merging the same source twice changes nothing the second time |
| RaffleEffectReader.MergeOrderIndependent | src/main/java/com/orangeslices/bossencounters/raffle/effects/RaffleEffectReader.java:72-90 | merging two sources in either order gives the same levels: the highest level per effect across all sources |
| RaffleEffectReader.LevelTable.MergeHighest | src/main/java/com/orangeslices/bossencounters/raffle/effects/RaffleEffectReader.java:76-90 | a null table or source changes nothing; otherwise the table becomes the merge of the source, entry by entry |
| RafflePool.ParsedPool | src/main/java/com/orangeslices/bossencounters/raffle/RafflePool.java:24-29 | the pool is never longer than the configured list |
| RafflePool.ParseEach | src/main/java/com/orangeslices/bossencounters/raffle/RafflePool.java:26-27 | each configured entry is parsed by fromString, in order |
| RafflePool.SomesMembers | src/main/java/com/orangeslices/bossencounters/raffle/RafflePool.java:28 | an id is kept exactly when some entry parsed to it |
| RafflePool.ParsedPoolSomes | src/main/java/com/orangeslices/bossencounters/raffle/RafflePool.java:26-29 | the pool is the present parses, in configured order |
| RafflePool.ParsedPoolMembers | src/main/java/com/orangeslices/bossencounters/raffle/RafflePool.java:26-29 | the pool holds exactly the ids some configured entry parses to |
| RafflePool.ParsedPoolAppend | src/main/java/com/orangeslices/bossencounters/raffle/RafflePool.java:26-29 | parsing is entry by entry: the pool of a concatenation is the concatenation of the pools |
| RafflePool.ParsedPoolPrefix | src/main/java/com/orangeslices/bossencounters/raffle/RafflePool.java:26-29 | one more configured entry adds its id when it parses, and nothing otherwise |
| RafflePool.ParsedPoolNames | src/main/java/com/orangeslices/bossencounters/raffle/RafflePool.java:26-29 | a list of constant names gives back those constants, duplicates and order kept |
| RafflePool.Pool.ReloadFromConfig | src/main/java/com/orangeslices/bossencounters/raffle/RafflePool.java:20-32 | the previous pool is replaced by the parsed configured list |
| RafflePool.Pool.IsEmpty | src/main/java/com/orangeslices/bossencounters/raffle/RafflePool.java:34-36 | the pool is empty exactly when it has no entry |
| RafflePool.Pool.Snapshot | src/main/java/com/orangeslices/bossencounters/raffle/RafflePool.java:38-40 | the snapshot shows the pool's entries in order |
| RafflePool.Pool.Roll | src/main/java/com/orangeslices/bossencounters/raffle/RafflePool.java:46-50 | null exactly for an empty pool, otherwise the pool entry at the drawn index |
| RafflePotionTable.Lookup | src/main/java/com/orangeslices/bossencounters/raffle/RaffleService.java:172-175 | the lookup loop finds a table entry with that id, or none exists |
| RafflePotionTable.AllCompatible | src/main/java/com/orangeslices/bossencounters/raffle/RaffleService.java:168-187 | with the current table every id is compatible with every armour slot |
| RafflePotionTable.TableContents | src/main/java/com/orangeslices/bossencounters/raffle/effects/RafflePotionTable.java:41-60 | the table holds exactly VITALITY as HEALTH_BOOST and EMBER_WARD as FIRE_RESISTANCE, on any armour for 120 ticks, with distinct ids |
| RafflePotionEngine.PieceLevelNonNegative | src/main/java/com/orangeslices/bossencounters/raffle/effects/RafflePotionEngine.java:96-100 | a piece's level is never negative, and a non-zero one is the level stored for the id |
| RafflePotionEngine.MergeArmorLevel | src/main/java/com/orangeslices/bossencounters/raffle/effects/RafflePotionEngine.java:102-106 | merging one piece raises each id to the higher of its current level and the piece's |
| RafflePotionEngine.HighestLevel | src/main/java/com/orangeslices/bossencounters/raffle/effects/RafflePotionEngine.java:64-69 | the merged map holds, per id, the highest level of the four armour pieces |
| RafflePotionEngine.OnlyRuleReadsOnePiece | src/main/java/com/orangeslices/bossencounters/raffle/effects/RafflePotionEngine.java:86-94 | a *_ONLY rule reads only its own piece |
| RafflePotionEngine.AppendedTokenIsLastPiece | src/main/java/com/orangeslices/bossencounters/raffle/effects/RafflePotionEngine.java:146-158 | a token appended after a comma is found by containsToken |
| RafflePotionEngine.MarkedContains | src/main/java/com/orangeslices/bossencounters/raffle/effects/RafflePotionEngine.java:132-151 | after marking, the list holds the token, keeps every earlier entry as a prefix, and marking again changes nothing |
| RafflePotionEngine.KeyNamePlain | src/main/java/com/orangeslices/bossencounters/raffle/effects/RafflePotionEngine.java:136 | every potion type's key is a non-blank, comma-free, trimmed token |
| RafflePotionEngine.Amplifier | src/main/java/com/orangeslices/bossencounters/raffle/effects/RafflePotionEngine.java:117 | the amplifier is never negative, is 0 for a non-levelable effect, and level - 1 for a levelable one |
| RafflePotionEngine.AuthoritativeOthers | src/main/java/com/orangeslices/bossencounters/raffle/effects/RafflePotionEngine.java:114-130 | applying one type leaves every other type's effect alone |
| RafflePotionEngine.AuthoritativeKeepsStronger | src/main/java/com/orangeslices/bossencounters/raffle/effects/RafflePotionEngine.java:119-123 | a current effect with a strictly greater amplifier is kept and nothing is marked |
| RafflePotionEngine.AuthoritativeApplies | src/main/java/com/orangeslices/bossencounters/raffle/effects/RafflePotionEngine.java:125-129 | otherwise a positive level installs the hidden effect with the entry's duration, even over an equal amplifier, and marks the type |
| RafflePotionEngine.AuthoritativeNeverDowngrades | src/main/java/com/orangeslices/bossencounters/raffle/effects/RafflePotionEngine.java:108-130 | no amplifier is lowered and no effect removed |
| RafflePotionEngine.EntryStepOthers | src/main/java/com/orangeslices/bossencounters/raffle/effects/RafflePotionEngine.java:71-83 | one entry changes only its own potion type |
| RafflePotionEngine.EntryLevel | src/main/java/com/orangeslices/bossencounters/raffle/effects/RafflePotionEngine.java:74-93 | with the current table every entry acts on the highest level over the four pieces |
| RafflePotionEngine.RefreshedEffects | src/main/java/com/orangeslices/bossencounters/raffle/effects/RafflePotionEngine.java:61-84 | after a refresh HEALTH_BOOST and FIRE_RESISTANCE are what their entries make of them and every other type is untouched |
| RafflePotionEngine.FoldNeverDowngrades | src/main/java/com/orangeslices/bossencounters/raffle/effects/RafflePotionEngine.java:71-83 | a refresh never lowers an amplifier or removes an effect |
| RafflePotionEngine.NoLevelNoEffect | src/main/java/com/orangeslices/bossencounters/raffle/effects/RafflePotionEngine.java:74-75 | armour without a level for an entry leaves that potion alone |
| RafflePotionEngine.Engine.Start | src/main/java/com/orangeslices/bossencounters/raffle/effects/RafflePotionEngine.java:44-54 | start stops any earlier task and leaves one running |
| RafflePotionEngine.Engine.Stop | src/main/java/com/orangeslices/bossencounters/raffle/effects/RafflePotionEngine.java:56-59 | stop leaves no task |
| RafflePotionEngine.Engine.RefreshPlayer | src/main/java/com/orangeslices/bossencounters/raffle/effects/RafflePotionEngine.java:61-84 | a null or offline player is skipped; an online one gets the refresh of its armour |
| RafflePotionEngine.Engine.MergePiece | src/main/java/com/orangeslices/bossencounters/raffle/effects/RafflePotionEngine.java:102-106 | a null piece adds nothing, any other is merged highest-wins |
| RafflePotionEngine.Engine.ResolveLevelFor | src/main/java/com/orangeslices/bossencounters/raffle/effects/RafflePotionEngine.java:86-94 | the level of the entry's slot rule |
| RafflePotionEngine.Engine.ReadLevelFromPiece | src/main/java/com/orangeslices/bossencounters/raffle/effects/RafflePotionEngine.java:96-100 | the level one piece stores, 0 for a null piece or an absent id |
| RafflePotionEngine.Engine.ApplyAuthoritative | src/main/java/com/orangeslices/bossencounters/raffle/effects/RafflePotionEngine.java:114-130 | the player's effects and managed list become the authoritative application |
| RafflePotionEngine.Engine.MarkManaged | src/main/java/com/orangeslices/bossencounters/raffle/effects/RafflePotionEngine.java:132-151 | the managed list becomes the marked list and nothing else changes |
| RaffleCustomEngine.JoinCalls | src/main/java/com/orangeslices/bossencounters/raffle/effects/custom/RaffleCustomEffectEngine.java:114-147 | the applies of entering ids followed by the clears of leaving ids are exactly one refresh's calls, each once, applies first |
| RaffleCustomEngine.HighestDistinct | src/main/java/com/orangeslices/bossencounters/raffle/effects/custom/RaffleCustomEffectEngine.java:93-97 | the merged armour map has distinct ids |
| RaffleCustomEngine.NowActiveIff | src/main/java/com/orangeslices/bossencounters/raffle/effects/custom/RaffleCustomEffectEngine.java:99-109 | an id is active now exactly when it is registered and the armour gives it a positive level |
| RaffleCustomEngine.RefreshDiff | src/main/java/com/orangeslices/bossencounters/raffle/effects/custom/RaffleCustomEffectEngine.java:111-147 | entering ids are applied once at their level, leaving registered ids are cleared, and an id that stays active gets no call |
| RaffleCustomEngine.RefreshSettles | src/main/java/com/orangeslices/bossencounters/raffle/effects/custom/RaffleCustomEffectEngine.java:132-137 | a second refresh with unchanged armour makes no call, so a curse triggers once when it becomes active |
| RaffleCustomEngine.AppliedLevel | src/main/java/com/orangeslices/bossencounters/raffle/effects/custom/RaffleCustomEffectEngine.java:121 | an entering id is applied at the level the armour gives it, at least 1 |
| RaffleCustomEngine.CustomEngine.constructor | src/main/java/com/orangeslices/bossencounters/raffle/effects/custom/RaffleCustomEffectEngine.java:31-54 | the engine starts with the default registry, no active sets and no task |
| RaffleCustomEngine.CustomEngine.RefreshPlayer | src/main/java/com/orangeslices/bossencounters/raffle/effects/custom/RaffleCustomEffectEngine.java:87-150 | a null or offline player is skipped; otherwise the calls are the refresh diff and the player's active set becomes the ids active now |
| RaffleCustomEngine.CustomEngine.CollectActive | src/main/java/com/orangeslices/bossencounters/raffle/effects/custom/RaffleCustomEffectEngine.java:99-109 | the active set is the registered ids with a positive level |
| RaffleCustomEngine.CustomEngine.ApplyEntering | src/main/java/com/orangeslices/bossencounters/raffle/effects/custom/RaffleCustomEffectEngine.java:114-130 | an apply call for each entering id, once, at its level |
| RaffleCustomEngine.CustomEngine.ClearLeaving | src/main/java/com/orangeslices/bossencounters/raffle/effects/custom/RaffleCustomEffectEngine.java:139-147 | a clear call for each registered id that left, once |
| RaffleCustomEngine.CustomEngine.Start | src/main/java/com/orangeslices/bossencounters/raffle/effects/custom/RaffleCustomEffectEngine.java:56-65 | start first stops (clearing every active effect) and then runs with no active sets |
| RaffleCustomEngine.CustomEngine.Stop | src/main/java/com/orangeslices/bossencounters/raffle/effects/custom/RaffleCustomEffectEngine.java:67-85 | stop cancels the task, clears the registered active effects of each player the server finds, and forgets every active set |
| RaffleCustomEngine.CustomEngine.ClearAll | src/main/java/com/orangeslices/bossencounters/raffle/effects/custom/RaffleCustomEffectEngine.java:76-81 | one clear call per registered active id of a player |
| RaffleCustomEngine.CustomEngine.HighestOf | src/main/java/com/orangeslices/bossencounters/raffle/effects/custom/RaffleCustomEffectEngine.java:93-97 | the four pieces merged highest-wins |
| RaffleCustomEngine.RefreshAfterStop | src/main/java/com/orangeslices/bossencounters/raffle/effects/custom/RaffleCustomEffectEngine.java:84 | after stop the next refresh applies every active id again |
| RaffleCustomEngine.StopClears | src/main/java/com/orangeslices/bossencounters/raffle/effects/custom/RaffleCustomEffectEngine.java:72-82 | stop clears exactly the registered active ids of the players it finds, and only clears |
| RaffleApplyResults.Ok | src/main/java/com/orangeslices/bossencounters/raffle/RaffleApplyResult.java:20-22 | a success with the message "Applied." and the given id, curse flag and counts |
| RaffleApplyResults.Fail | src/main/java/com/orangeslices/bossencounters/raffle/RaffleApplyResult.java:24-26 | a failure with the given message and counts, no id and no curse |
| RaffleApplyResults.FactoriesDistinct | src/main/java/com/orangeslices/bossencounters/raffle/RaffleApplyResult.java:20-26 | no success equals a failure |
| RaffleApplyResults.SuccessIsOk | src/main/java/com/orangeslices/bossencounters/raffle/RaffleApplyResult.java:20-22 | a successful "Applied." result is the one ok builds from its fields |
| RaffleDisplay.VagueName | src/main/java/com/orangeslices/bossencounters/raffle/RaffleDisplay.java:21-24 | null and any id outside the table read as "Unknown" |
| RaffleDisplay.VagueNameTable | src/main/java/com/orangeslices/bossencounters/raffle/RaffleDisplay.java:10-17 | the four table ids read as Vigor, Warmth, Unease and Disarray, and no name is empty |
| RaffleDisplay.VagueNameKnown | src/main/java/com/orangeslices/bossencounters/raffle/RaffleDisplay.java:8-24 | exactly the four table ids have a name of their own |
| RaffleLore.Roman | src/main/java/com/orangeslices/bossencounters/raffle/RaffleLoreUtil.java:104-118 | outside 1..10 the numeral is the decimal string |
| RaffleLore.RomanDecimal | src/main/java/com/orangeslices/bossencounters/raffle/RaffleLoreUtil.java:116 | outside 1..10 the numeral reads back as the number |
| RaffleLore.RomanLetters | src/main/java/com/orangeslices/bossencounters/raffle/RaffleLoreUtil.java:106-115 | inside 1..10 the numeral is made of I, V and X only |
| RaffleLore.BeforeTransitive | src/main/java/com/orangeslices/bossencounters/raffle/RaffleLoreUtil.java:49-54 | the comparator is transitive |
| RaffleLore.BeforeIrreflexive | src/main/java/com/orangeslices/bossencounters/raffle/RaffleLoreUtil.java:49-54 | no id comes before itself |
| RaffleLore.SortOrderOrdered | src/main/java/com/orangeslices/bossencounters/raffle/RaffleLoreUtil.java:49-54 | the twelve ids in the comparator's order: good ids by name, then curses by name |
| RaffleLore.Present | src/main/java/com/orangeslices/bossencounters/raffle/RaffleLoreUtil.java:48 | every listed entry is an id of the map with its level |
| RaffleLore.PresentOrdered | src/main/java/com/orangeslices/bossencounters/raffle/RaffleLoreUtil.java:48-54 | filtering the sorted order by the map keeps it sorted |
| RaffleLore.PresentComplete | src/main/java/com/orangeslices/bossencounters/raffle/RaffleLoreUtil.java:48 | every id the map holds is listed |
| RaffleLore.SortedSpec | src/main/java/com/orangeslices/bossencounters/raffle/RaffleLoreUtil.java:47-54 | the sort lists each id of the map exactly once with its level, good ids before curses and by name within each group |
| RaffleLore.EffectLine | src/main/java/com/orangeslices/bossencounters/raffle/RaffleLoreUtil.java:56-73 | a curse shows its name only, a non-levelable good id its name, and a levelable one adds roman(max(1, level)) |
| RaffleLore.EffectLineAt | src/main/java/com/orangeslices/bossencounters/raffle/RaffleLoreUtil.java:56-76 | one line per sorted entry, in order |
| RaffleLore.LoreShape | src/main/java/com/orangeslices/bossencounters/raffle/RaffleLoreUtil.java:37-79 | the slot line first, the closing quote last, and between them either the no-influence line or the header and one line per sorted entry |
| RaffleLore.SortedNonEmpty | src/main/java/com/orangeslices/bossencounters/raffle/RaffleLoreUtil.java:42-45 | a piece with an effect gets at least one effect line |
| RaffleLore.ApplyLore | src/main/java/com/orangeslices/bossencounters/raffle/RaffleLoreUtil.java:25-83 | no item or no meta changes nothing; otherwise the whole lore is replaced by the lines built from the stored effects |
| RaffleLore.BuildLore | src/main/java/com/orangeslices/bossencounters/raffle/RaffleLoreUtil.java:37-79 | the list is the slot line, the body and the closing line |
| RaffleLore.BuildEffectLines | src/main/java/com/orangeslices/bossencounters/raffle/RaffleLoreUtil.java:56-76 | the effect lines are appended one by one in sorted order |
| RaffleSlotLore.CountSlots | src/main/java/com/orangeslices/bossencounters/raffle/listeners/util/RaffleLoreUtil.java:51-55 | nothing and blank text count 0 slots, and text without a pipe character counts 1 |
| RaffleSlotLore.CountSlotsJoin | src/main/java/com/orangeslices/bossencounters/raffle/listeners/util/RaffleLoreUtil.java:51-55 | non-empty pieces joined with pipes count as that many slots |
| RaffleSlotLore.Block | src/main/java/com/orangeslices/bossencounters/raffle/listeners/util/RaffleLoreUtil.java:40-45 | the appended block is the slot line and then one bullet per threshold reached, at most three |
| RaffleSlotLore.UpdateVagueLore | src/main/java/com/orangeslices/bossencounters/raffle/listeners/util/RaffleLoreUtil.java:19-49 | null item or meta is left alone; otherwise the update's own lines are removed and the new block appended, the container untouched |
| RaffleSlotLore.AddFlavour | src/main/java/com/orangeslices/bossencounters/raffle/listeners/util/RaffleLoreUtil.java:43-45 | the bullets for thresholds 1, 2 and 3 are appended in that order |
| RaffleSlotLore.SlotLineOwned | src/main/java/com/orangeslices/bossencounters/raffle/listeners/util/RaffleLoreUtil.java:33-40 | the appended slot line is one the next update removes |
| RaffleSlotLore.HeaderLineOwned | src/main/java/com/orangeslices/bossencounters/raffle/listeners/util/RaffleLoreUtil.java:33-35 | any coloured line starting with the slot text is removed |
| RaffleSlotLore.BulletOwned | src/main/java/com/orangeslices/bossencounters/raffle/listeners/util/RaffleLoreUtil.java:36-45 | every flavour bullet is removed by the next update and is not a slot line |
| RaffleSlotLore.BlockOwned | src/main/java/com/orangeslices/bossencounters/raffle/listeners/util/RaffleLoreUtil.java:33-45 | every line of the block is the update's own, and only its first line is a slot line |
| RaffleSlotLore.OneSlotLine | src/main/java/com/orangeslices/bossencounters/raffle/listeners/util/RaffleLoreUtil.java:30-45 | afterwards the kept lines come first, in order, and exactly one slot line follows them |
| RaffleSlotLore.KeepsOtherLines | src/main/java/com/orangeslices/bossencounters/raffle/listeners/util/RaffleLoreUtil.java:32-38 | every line the update does not own survives |
| RaffleSlotLore.VagueLoreIdempotent | src/main/java/com/orangeslices/bossencounters/raffle/listeners/util/RaffleLoreUtil.java:30-45 | updating the lore twice gives the same lore as once |
| RaffleSlotLore.BlockRemoved | src/main/java/com/orangeslices/bossencounters/raffle/listeners/util/RaffleLoreUtil.java:33-38 | the next update removes the whole block |
| RaffleSlotLore.UpdateIdempotent | src/main/java/com/orangeslices/bossencounters/raffle/listeners/util/RaffleLoreUtil.java:19-49 | updating an item twice is the same as updating it once |
| RaffleHumLore.UpdateVagueLore | src/main/java/com/orangeslices/bossencounters/raffle/util/RaffleLoreUtil.java:14-34 | null, air or no meta is left alone; otherwise slot lines are removed, the new slot line appended and the hum line after it when slots are used |
| RaffleHumLore.HumSlotLineIsSlotLine | src/main/java/com/orangeslices/bossencounters/raffle/util/RaffleLoreUtil.java:23-26 | the appended slot line is one the next call removes |
| RaffleHumLore.HumLineNotSlotLine | src/main/java/com/orangeslices/bossencounters/raffle/util/RaffleLoreUtil.java:23-29 | the hum line is never removed |
| RaffleHumLore.HumShape | src/main/java/com/orangeslices/bossencounters/raffle/util/RaffleLoreUtil.java:20-30 | afterwards the kept lines come first, exactly one slot line follows, and the hum line is last exactly when slots are used |
| RaffleHumLore.HumKeepsOtherLines | src/main/java/com/orangeslices/bossencounters/raffle/util/RaffleLoreUtil.java:23 | every line that is not a slot line survives |
| RaffleHumLore.HumIdleIdempotent | src/main/java/com/orangeslices/bossencounters/raffle/util/RaffleLoreUtil.java:14-34 | with no slots used the update is idempotent |
| RaffleHumLore.HumAccumulates | src/main/java/com/orangeslices/bossencounters/raffle/util/RaffleLoreUtil.java:23-30 | with slots used a second call keeps the first hum line and adds another one, so the update is not idempotent |
| RaffleHumLore.HumBlockLeavesHum | src/main/java/com/orangeslices/bossencounters/raffle/util/RaffleLoreUtil.java:23 | of the appended block the next call removes only the slot line |
| MessageService.ModeValueOf | src/main/java/com/orangeslices/bossencounters/message/MessageService.java:19 | valueOf only returns the mode with exactly that name |
| MessageService.FromConfig | src/main/java/com/orangeslices/bossencounters/message/MessageService.java:16-23 | null gives the fallback; any other result names the trimmed, upper-cased text |
| MessageService.FromConfigUnknown | src/main/java/com/orangeslices/bossencounters/message/MessageService.java:20-22 | a text naming no mode gives the fallback |
| MessageService.FromConfigTolerant | src/main/java/com/orangeslices/bossencounters/message/MessageService.java:19 | surrounding whitespace and letter case are ignored: any spelling that upper-cases to a mode's name gives that mode |
| MessageService.FromConfigName | src/main/java/com/orangeslices/bossencounters/message/MessageService.java:11-19 | every mode reads back from its own name |
| TokenDefinitions.TypeValueOf | src/main/java/com/orangeslices/bossencounters/token/TokenType.java:10-23 | valueOf only returns the type with exactly that name |
| TokenDefinitions.TypeValueOfName | src/main/java/com/orangeslices/bossencounters/token/TokenType.java:10-23 | every token type reads back from its own name |
| TokenDefinitions.NewDefinition | src/main/java/com/orangeslices/bossencounters/token/TokenDefinition.java:33-47 | keeps type, target, levels and lore format; a null display name becomes the type's name |
| TokenDefinitions.ClampLevel | src/main/java/com/orangeslices/bossencounters/token/TokenDefinition.java:73-77 | below min gives min, above max (and not below min) gives max, in range is unchanged |
| TokenDefinitions.ClampInRange | src/main/java/com/orangeslices/bossencounters/token/TokenDefinition.java:73-77 | when min <= max the clamped level lies in the range and clamping twice changes nothing |
| TokenDefinitions.FormatLoreLine | src/main/java/com/orangeslices/bossencounters/token/TokenDefinition.java:79-82 | null exactly when the format is null or blank |
| TokenDefinitions.FormatWithoutPlaceholder | src/main/java/com/orangeslices/bossencounters/token/TokenDefinition.java:79-82 | a format without {level} comes back unchanged |
| TokenDefinitions.FormatLeadingPlaceholder | src/main/java/com/orangeslices/bossencounters/token/TokenDefinition.java:79-82 | a leading {level} is replaced by the level's decimal text |
| TokenRegistries.DefaultMap | src/main/java/com/orangeslices/bossencounters/token/TokenRegistry.java:23-93 | the default map files every definition under its own type |
| TokenRegistries.DefaultsTable | src/main/java/com/orangeslices/bossencounters/token/TokenRegistry.java:23-93 | every type has a default; the level ranges and targets are the ones registered |
| TokenRegistries.TokenRegistry.Register | src/main/java/com/orangeslices/bossencounters/token/TokenRegistry.java:95-98 | replaces any earlier definition of the same type and changes nothing else |
| TokenRegistries.TokenRegistry.Get | src/main/java/com/orangeslices/bossencounters/token/TokenRegistry.java:100-102 | a definition found is the one for the requested type |
| TokenRegistries.TokenRegistry.Has | src/main/java/com/orangeslices/bossencounters/token/TokenRegistry.java:104-106 | true exactly when the type is registered |
| TokenRegistries.TokenRegistry.HasIffGet | src/main/java/com/orangeslices/bossencounters/token/TokenRegistry.java:100-106 | has holds exactly when get returns a definition |
| TokenRegistries.TokenRegistry.ValuesInMembers | src/main/java/com/orangeslices/bossencounters/token/TokenRegistry.java:108-110 | a definition is listed exactly when its type is among those walked and it is the registered one |
| TokenRegistries.TokenRegistry.All | src/main/java/com/orangeslices/bossencounters/token/TokenRegistry.java:108-110 | lists exactly the registered definitions |
| TokenRegistries.ReRegisterReplaces | src/main/java/com/orangeslices/bossencounters/token/TokenRegistry.java:95-98 | registering twice for one type keeps only the second definition |
| AddOnTokens.TokenInfoOf | src/main/java/com/orangeslices/bossencounters/addon/AddOnListener.java:184-211 | a recognised token comes from a non-empty stack with meta and has a positive level |
| AddOnTokens.TokenInfoPriority | src/main/java/com/orangeslices/bossencounters/addon/AddOnListener.java:184-211 | the new type and level pair wins; any other result is one of the two legacy kits |
| AddOnTokens.Resolve | src/main/java/com/orangeslices/bossencounters/addon/AddOnListener.java:166-177 | the target is a non-empty stack in the other hand and the token is what that hand's stack carries |
| AddOnTokens.ResolvePriority | src/main/java/com/orangeslices/bossencounters/addon/AddOnListener.java:166-177 | a main-hand token wins when the off hand holds something; otherwise an off-hand token against a non-empty main hand; nothing exactly when neither holds |
| AddOnTokens.WithOwnedLine | src/main/java/com/orangeslices/bossencounters/addon/AddOnListener.java:139-142 | the new line is last and every other line is an old line without the prefix |
| AddOnTokens.OwnedLineReplaced | src/main/java/com/orangeslices/bossencounters/addon/AddOnListener.java:139-142 | rewriting the owned line twice equals rewriting it once with the second text |
| AddOnTokens.OtherLinesKept | src/main/java/com/orangeslices/bossencounters/addon/AddOnListener.java:139-142 | lines without the prefix survive the rewrite |
| AddOnTokens.RewriteOwnedLine | src/main/java/com/orangeslices/bossencounters/addon/AddOnListener.java:139-142 | removing the owned lines from a copy of the lore one by one and adding the new line gives the rewritten lore, whose new line is last and whose other lines are old lines without the prefix |
| AddOnTokens.WeaponIsTool | src/main/java/com/orangeslices/bossencounters/addon/AddOnListener.java:285-339 | every weapon is a tool-or-weapon, and the armour test is exactly the four piece tests together |
| AddOnListeners.RomanOrNumber | src/main/java/com/orangeslices/bossencounters/addon/AddOnListener.java:148-153 | I for 1, II for 2, the decimal number for every other level |
| AddOnListeners.ClampGeneric | src/main/java/com/orangeslices/bossencounters/addon/AddOnListener.java:155-159 | the result lies in 1..2 and a level already there is unchanged |
| AddOnListeners.ParseTokenType | src/main/java/com/orangeslices/bossencounters/addon/AddOnListener.java:226-242 | a blank name parses to nothing |
| AddOnListeners.ParseName | src/main/java/com/orangeslices/bossencounters/addon/AddOnListener.java:226-242 | every type's own name parses back to it |
| AddOnListeners.CanonicalName | src/main/java/com/orangeslices/bossencounters/addon/AddOnListener.java:230-234 | the alias switch leaves every type's own name alone |
| AddOnListeners.ParseAliases | src/main/java/com/orangeslices/bossencounters/addon/AddOnListener.java:230-234 | the spelling aliases parse to SHARPEN or FIRE_RESIST |
| AddOnListeners.ParseOnlyKnown | src/main/java/com/orangeslices/bossencounters/addon/AddOnListener.java:226-242 | a name that parses is a type's own name or one of the aliases |
| AddOnListeners.KeysDistinct | src/main/java/com/orangeslices/bossencounters/addon/AddOnListener.java:244-259 | each type stores its level under its own key, none of them the water-breathing key |
| AddOnListeners.ApplyLevelRaises | src/main/java/com/orangeslices/bossencounters/addon/AddOnListener.java:128-146 | a write happens exactly when the item has meta and the level is above the stored one; the stored level becomes that level and exactly the last lore line carries the prefix and names it |
| AddOnListeners.ApplyLevelTwice | src/main/java/com/orangeslices/bossencounters/addon/AddOnListener.java:128-146 | applying the same level a second time writes nothing |
| AddOnListeners.WaterBreathingHelmetOnly | src/main/java/com/orangeslices/bossencounters/addon/AddOnListener.java:95-100 | a water-breathing token writes only onto a helmet, storing its level clamped to 1..2 |
| AddOnListeners.RegistryTokenWrites | src/main/java/com/orangeslices/bossencounters/addon/AddOnListener.java:102-120 | a registry token that writes has a registered type and a target its rule accepts, and stores its clamped level under its own key; HASTE only goes on tools or weapons |
| AddOnListeners.ConsumedOnlyOnSuccess | src/main/java/com/orangeslices/bossencounters/addon/AddOnListener.java:61-83 | a refused event leaves both hands alone; a successful one needs a sneaking right-click with a resolved token, uses up one token from its hand and puts the rewritten target in the other |
| AddOnListeners.AddOnListener.constructor | src/main/java/com/orangeslices/bossencounters/addon/AddOnListener.java:43-59 | the listener's registry is a new one holding exactly the default definitions, whose level bounds are Java ints |
| AddOnListeners.AddOnListener.HandleApplyAddon | src/main/java/com/orangeslices/bossencounters/addon/AddOnListener.java:61-84 | the event is cancelled and the hands rewritten exactly as the handler rule says: nothing changes unless the target is rewritten, and then one token is used up from the token's hand |
| AddOnListeners.AddOnListener.ApplyToken | src/main/java/com/orangeslices/bossencounters/addon/AddOnListener.java:90-122 | the target stack comes back rewritten exactly when the token is water breathing on a helmet or a registered type on a target its rule accepts, and the level rises |
| AddOnListeners.AddOnListener.ApplyLevel | src/main/java/com/orangeslices/bossencounters/addon/AddOnListener.java:128-146 | the item comes back with the higher level stored under the key and its owned lore line rewritten, or nothing when it has no meta or the level would not rise |
| LegacyAddOnListeners.ClampLevel | src/main/java/com/orangeslices/bossencounters/AddOnListener.java:170-174 | the result lies in 1..2 and a level already there is unchanged |
| LegacyAddOnListeners.RoutingTable | src/main/java/com/orangeslices/bossencounters/AddOnListener.java:99-142 | SHARPENING, MARK and STRENGTH need a weapon, HASTE a tool or weapon, the fire-resistance spellings and HEALTH_BOOST armour, NIGHT_VISION and WATER_BREATHING a helmet |
| LegacyAddOnListeners.UnroutedRefused | src/main/java/com/orangeslices/bossencounters/AddOnListener.java:141 | a name the switch does not list is refused whatever the target |
| LegacyAddOnListeners.NewNamesUnrouted | src/main/java/com/orangeslices/bossencounters/AddOnListener.java:99-142 | the registry names SHARPEN and SPEED are not routed by this listener |
| LegacyAddOnListeners.ApplyLevelBounded | src/main/java/com/orangeslices/bossencounters/AddOnListener.java:148-168 | a write stores a level in 1..2 named by the single prefixed lore line; from a stored level in 0..2 it only rises, and it happens exactly when the clamped level is above the stored one |
| LegacyAddOnListeners.AboveRangeLowered | src/main/java/com/orangeslices/bossencounters/AddOnListener.java:153-159 | a stored level above 2 is lowered to 2 by any token, because the clamp runs after the maximum |
| LegacyAddOnListeners.ApplyLevelTwice | src/main/java/com/orangeslices/bossencounters/AddOnListener.java:148-168 | applying the same level a second time writes nothing |
| LegacyAddOnListeners.ConsumedOnlyOnSuccess | src/main/java/com/orangeslices/bossencounters/AddOnListener.java:64-86 | a refused event leaves both hands alone; a successful one uses up one token and puts the rewritten target in the other hand |
| LegacyAddOnListeners.HandleApplyAddon | src/main/java/com/orangeslices/bossencounters/AddOnListener.java:63-86 | the event is cancelled and the hands rewritten exactly as the legacy handler rule says: nothing changes unless the target is rewritten, and then one token is used up |
| LegacyAddOnListeners.ApplyToken | src/main/java/com/orangeslices/bossencounters/AddOnListener.java:92-143 | the level is clamped to 1..2 first, and the target comes back rewritten only for a routed name on a target the route accepts |
| LegacyAddOnListeners.ApplyLevel | src/main/java/com/orangeslices/bossencounters/AddOnListener.java:148-168 | the item comes back with the clamped maximum stored and its owned line naming it, or nothing without meta or when that equals the stored level |
| PotionAddOns.Clamp | src/main/java/com/orangeslices/bossencounters/addon/potion/PotionAddOnListener.java:128-130 | the result lies in 0..2, a level already there is unchanged and anything above 2 becomes 2 |
| PotionAddOns.ArmorMaxLevel | src/main/java/com/orangeslices/bossencounters/addon/potion/PotionAddOnListener.java:108-115 | the clamped maximum over the four pieces: no piece's clamped level exceeds it and a positive result is one piece's level |
| PotionAddOns.ApplyIfBetter | src/main/java/com/orangeslices/bossencounters/addon/potion/PotionAddOnListener.java:88-102 | the player's effects become those of the better-effect rule |
| PotionAddOns.RefreshPlayer | src/main/java/com/orangeslices/bossencounters/addon/potion/PotionAddOnListener.java:65-86 | the player's effects become the six grants of the plan applied in order |
| PotionAddOns.PotionAddOnListener.Start | src/main/java/com/orangeslices/bossencounters/addon/potion/PotionAddOnListener.java:49-58 | afterwards exactly one refresh task is scheduled |
| PotionAddOns.PotionAddOnListener.Stop | src/main/java/com/orangeslices/bossencounters/addon/potion/PotionAddOnListener.java:60-63 | afterwards no refresh task is scheduled |
| PotionAddOns.PotionAddOnListener.RefreshPotionAddOns | src/main/java/com/orangeslices/bossencounters/addon/potion/PotionAddOnListener.java:65-86 | a null player is skipped; otherwise the effects become the plan's grants applied in order |
| PotionAddOns.BetterRule | src/main/java/com/orangeslices/bossencounters/addon/potion/PotionAddOnListener.java:88-102 | a level of 0 or less changes nothing; the current effect is kept exactly when its amplifier is higher, or equal with more time left, and otherwise becomes (level - 1, duration); other types are untouched |
| PotionAddOns.GrantedOthers | src/main/java/com/orangeslices/bossencounters/addon/potion/PotionAddOnListener.java:78-85 | a type no grant names is left as it was |
| PotionAddOns.GrantedAt | src/main/java/com/orangeslices/bossencounters/addon/potion/PotionAddOnListener.java:78-85 | with distinct types, each grant's type ends as that grant alone would leave it |
| PotionAddOns.BetterSame | src/main/java/com/orangeslices/bossencounters/addon/potion/PotionAddOnListener.java:88-102 | the rule on one type depends only on that type's current effect |
| PotionAddOns.PlanDistinct | src/main/java/com/orangeslices/bossencounters/addon/potion/PotionAddOnListener.java:78-85 | the six grants name six different types |
| PotionAddOns.PlanLevels | src/main/java/com/orangeslices/bossencounters/addon/potion/PotionAddOnListener.java:65-86 | haste, strength, fire resistance and health boost are clamped to 0..2; water breathing and night vision are read from the helmet unclamped; night vision lasts 350 ticks and the rest 120 |
| PotionAddOns.RefreshOutcome | src/main/java/com/orangeslices/bossencounters/addon/potion/PotionAddOnListener.java:65-86 | after a refresh each of the six types is as its own grant alone leaves it, and every other type is untouched |
| PotionAddOns.MissingReadsZero | src/main/java/com/orangeslices/bossencounters/addon/potion/PotionAddOnListener.java:117-122 | a missing stack or one without meta reads as level 0 and grants nothing |
| LegacyPotionAddOns.LegacyPotionAddOnListener.Start | BossEncounters-main/src/main/java/com/orangeslices/bossencounters/PotionAddOnListener.java:39-48 | afterwards exactly one refresh task is scheduled |
| LegacyPotionAddOns.LegacyPotionAddOnListener.Stop | BossEncounters-main/src/main/java/com/orangeslices/bossencounters/PotionAddOnListener.java:50-53 | afterwards no refresh task is scheduled |
| LegacyPotionAddOns.LegacyPotionAddOnListener.RefreshPotionAddOns | BossEncounters-main/src/main/java/com/orangeslices/bossencounters/PotionAddOnListener.java:55-75 | the player's effects become the same six grants applied in order |
| SharpeningAnvil.ClampedLevel | src/main/java/com/orangeslices/bossencounters/SharpeningAnvilListener.java:132-156 | a stored level reads clamped to 0..2 |
| SharpeningAnvil.SharpenLore | src/main/java/com/orangeslices/bossencounters/SharpeningAnvilListener.java:213-229 | the new line comes first and every other line is an old line that is not a sharpened line |
| SharpeningAnvil.Anvil.OnPrepare | src/main/java/com/orangeslices/bossencounters/SharpeningAnvilListener.java:40-78 | the offered result is the prepare rule's, the input slots are untouched, and the cost becomes 1 exactly when a result is offered |
| SharpeningAnvil.Anvil.OnTakeResult | src/main/java/com/orangeslices/bossencounters/SharpeningAnvilListener.java:81-107 | the kit slot becomes what the take rule leaves |
| SharpeningAnvil.StrippedLine | src/main/java/com/orangeslices/bossencounters/SharpeningAnvilListener.java:258-263 | without its colour codes an anvil line reads Sharpened: followed by its level |
| SharpeningAnvil.LowerSharpened | src/main/java/com/orangeslices/bossencounters/SharpeningAnvilListener.java:223 | Sharpened: followed by anything starts with sharpened: once lower-cased |
| SharpeningAnvil.SharpenLineRecognised | src/main/java/com/orangeslices/bossencounters/SharpeningAnvilListener.java:213-223 | both lines the anvil writes are recognised as sharpened lines by its own removal test |
| SharpeningAnvil.SharpenLoreTwice | src/main/java/com/orangeslices/bossencounters/SharpeningAnvilListener.java:213-229 | rewriting the lore twice equals rewriting it once with the second level |
| SharpeningAnvil.OtherLoreKept | src/main/java/com/orangeslices/bossencounters/SharpeningAnvilListener.java:213-229 | a line that is not a sharpened line survives the rewrite |
| SharpeningAnvil.ModifierReplaced | src/main/java/com/orangeslices/bossencounters/SharpeningAnvilListener.java:184-205 | with a resolved attribute the other modifiers stay in order, followed by exactly one own modifier worth 1 at level 1 and 2 otherwise; sharpening again replaces it |
| SharpeningAnvil.NoAttributeNoModifier | src/main/java/com/orangeslices/bossencounters/SharpeningAnvilListener.java:176-182 | without the attribute the modifiers are left as they were |
| SharpeningAnvil.PrepareRule | src/main/java/com/orangeslices/bossencounters/SharpeningAnvilListener.java:40-78 | a result is offered exactly when both slots hold something, the weapon is sharpenable, the kit level is positive and the target level differs from the current one; it then carries the higher target level, the same material and amount, and its lore line first |
| SharpeningAnvil.NoWastedKit | src/main/java/com/orangeslices/bossencounters/SharpeningAnvilListener.java:62-69 | a kit whose level the weapon already has offers nothing |
| SharpeningAnvil.KitConsumedOnce | src/main/java/com/orangeslices/bossencounters/SharpeningAnvilListener.java:81-107 | taking a sharpened result uses up exactly one kit, clearing the slot when at most one was left; any other click leaves the kit |
| SharpeningAnvil.SharpenableNames | src/main/java/com/orangeslices/bossencounters/SharpeningAnvilListener.java:113-126 | the sharpenable weapons are the names ending in _SWORD, _AXE or _SPEAR, and TRIDENT, never air |
| AddOnEffects.SharpeningBonus | src/main/java/com/orangeslices/bossencounters/AddOnEffectListener.java:76-91 | no bonus at level 0 or less, +1 at level 1 and +2 at level 2 or more |
| AddOnEffects.ClearPrevious | src/main/java/com/orangeslices/bossencounters/AddOnEffectListener.java:149-168 | clearing keeps the set of loaded entities |
| AddOnEffects.AddOnEffectListener.ClearPreviousMark | src/main/java/com/orangeslices/bossencounters/AddOnEffectListener.java:149-168 | the tracked targets and entities become what the clearing rule leaves |
| AddOnEffects.AddOnEffectListener.ApplyMarkLogic | src/main/java/com/orangeslices/bossencounters/AddOnEffectListener.java:97-135 | the state and the damage become what the mark rule gives |
| AddOnEffects.AddOnEffectListener.OnDamage | src/main/java/com/orangeslices/bossencounters/AddOnEffectListener.java:52-70 | the state and the damage become what the damage rule gives |
| AddOnEffects.OnlyPlayerHitsCount | src/main/java/com/orangeslices/bossencounters/AddOnEffectListener.java:52-61 | hits by non-players, on non-living entities or with a meta-less hand change nothing |
| AddOnEffects.SharpenedBeforeMark | src/main/java/com/orangeslices/bossencounters/AddOnEffectListener.java:63-69 | the sharpening bonus is added before the mark multiplier applies, so an active mark multiplies the bonus too |
| AddOnEffects.ActiveMarkMultiplies | src/main/java/com/orangeslices/bossencounters/AddOnEffectListener.java:101-111 | against this player's active mark the damage is multiplied by 1.5 at mark level 1 and 2.0 above, not at all without a mark level, and no state changes |
| AddOnEffects.NewMarkSet | src/main/java/com/orangeslices/bossencounters/AddOnEffectListener.java:113-134 | a new mark tracks the target, stores the player and now + 120 on it and makes it glow for 120 ticks; the damage is kept |
| AddOnEffects.NoMarkWithoutProc | src/main/java/com/orangeslices/bossencounters/AddOnEffectListener.java:113-119 | without a mark level, or with a draw above the chance, an unmarked target stays unmarked |
| AddOnEffects.PreviousMarkCleared | src/main/java/com/orangeslices/bossencounters/AddOnEffectListener.java:121-122 | marking a new target removes this player's mark and glowing from the previously tracked one |
| AddOnEffects.ClearOnlyOwn | src/main/java/com/orangeslices/bossencounters/AddOnEffectListener.java:149-168 | clearing forgets only this player's tracked target and unmarks only that entity, and only when the mark is this player's |
| BossAppliers.BossFlag | BossEncounters-main/src/main/java/com/orangeslices/bossencounters/BossApplier.java:40-52 | the flag reads back as set after markBoss and as unset after unmarkBoss, and no other key changes |
| BossAppliers.RankSetRule | BossEncounters-main/src/main/java/com/orangeslices/bossencounters/BossApplier.java:66-76 | a null or blank rank leaves no rank; any other reads back trimmed and upper-cased |
| BossAppliers.CleanedIds | BossEncounters-main/src/main/java/com/orangeslices/bossencounters/BossApplier.java:85-90 | every cleaned id is non-empty and is a list element trimmed and lower-cased |
| BossAppliers.Mob.constructor | BossEncounters-main/src/main/java/com/orangeslices/bossencounters/BossApplier.java:27-34 | the mob starts with the given data and type |
| BossAppliers.SetAffixes | BossEncounters-main/src/main/java/com/orangeslices/bossencounters/BossApplier.java:78-106 | the data becomes what the setAffixes rule leaves |
| BossAppliers.AffixesStored | BossEncounters-main/src/main/java/com/orangeslices/bossencounters/BossApplier.java:78-106 | the title is always removed; the affixes are removed when nothing survives cleaning and otherwise stored comma-joined, splitting back into the cleaned list when no id holds a comma |
| BossAppliers.MaxAffixesForRank | BossEncounters-main/src/main/java/com/orangeslices/bossencounters/BossApplier.java:114-122 | never negative; the global value without a rank section, and the rank's own non-negative max_affixes when it sets one |
| BossAppliers.Positive | BossEncounters-main/src/main/java/com/orangeslices/bossencounters/BossApplier.java:289-293 | keeps at most as many entries as there are keys |
| BossAppliers.PositiveFrom | BossEncounters-main/src/main/java/com/orangeslices/bossencounters/BossApplier.java:289-294 | the kept entries all have positive weight and come from the keys; none are kept exactly when no key has positive weight |
| BossAppliers.PositiveEntries | BossEncounters-main/src/main/java/com/orangeslices/bossencounters/BossApplier.java:324-328 | the collecting loop keeps exactly the positive-weight entries in order |
| BossAppliers.RollRankId | BossEncounters-main/src/main/java/com/orangeslices/bossencounters/BossApplier.java:285-307 | the roll loop returns the rolled rank |
| BossAppliers.RolledRankRule | BossEncounters-main/src/main/java/com/orangeslices/bossencounters/BossApplier.java:285-307 | no rank exactly without a ranks section or without a positive weight; otherwise a positive-weight id of the section, the first whose running sum exceeds the roll |
| BossAppliers.SelectAffixes | BossEncounters-main/src/main/java/com/orangeslices/bossencounters/BossApplier.java:331-353 | the selection loop returns the ids the selection rule picks |
| BossAppliers.SelectBounded | BossEncounters-main/src/main/java/com/orangeslices/bossencounters/BossApplier.java:331-353 | at most max ids are picked, and at most one per entry |
| BossAppliers.SelectDistinct | BossEncounters-main/src/main/java/com/orangeslices/bossencounters/BossApplier.java:349-352 | every picked id names an entry, and with distinct entry ids none is picked twice |
| BossAppliers.ChosenFromPool | BossEncounters-main/src/main/java/com/orangeslices/bossencounters/BossApplier.java:324-353 | the picked ids come lower-cased from the pool, at most max of them, none twice when the lower-cased ids are distinct |
| BossAppliers.ApplyAffixSelection | BossEncounters-main/src/main/java/com/orangeslices/bossencounters/BossApplier.java:313-362 | the data becomes what the selection rule leaves |
| BossAppliers.AffixSelectionRule | BossEncounters-main/src/main/java/com/orangeslices/bossencounters/BossApplier.java:313-362 | existing affixes, disabled affixes, a non-positive maximum or a missing pool leave the data alone; otherwise between one and max picked ids are stored comma-joined |
| BossAppliers.SelectionTouchesAffixes | BossEncounters-main/src/main/java/com/orangeslices/bossencounters/BossApplier.java:313-362 | the selection changes no key but the affixes |
| BossAppliers.TitleWord | BossEncounters-main/src/main/java/com/orangeslices/bossencounters/BossApplier.java:248-256 | one affix gives at most one title word |
| BossAppliers.FirstTwo | BossEncounters-main/src/main/java/com/orangeslices/bossencounters/BossApplier.java:258 | at most two words are kept |
| BossAppliers.CollectWords | BossEncounters-main/src/main/java/com/orangeslices/bossencounters/BossApplier.java:245-259 | the word loop returns the first two title words of the affixes |
| BossAppliers.FirstTwoOfPrefix | BossEncounters-main/src/main/java/com/orangeslices/bossencounters/BossApplier.java:248-259 | stopping once two words are collected gives the same words as reading every affix |
| BossAppliers.WordsAppend | BossEncounters-main/src/main/java/com/orangeslices/bossencounters/BossApplier.java:248-259 | the words of two lists are those of each in turn |
| BossAppliers.WordsTrimmed | BossEncounters-main/src/main/java/com/orangeslices/bossencounters/BossApplier.java:253-256 | every title word is already trimmed |
| BossAppliers.ApplyTitleFromAffixes | BossEncounters-main/src/main/java/com/orangeslices/bossencounters/BossApplier.java:238-268 | the data becomes what the title rule leaves |
| BossAppliers.TitleRule | BossEncounters-main/src/main/java/com/orangeslices/bossencounters/BossApplier.java:238-268 | an existing title or missing affixes leave the data alone; a set title is the first one or two configured words, trimmed and joined by a space |
| BossAppliers.TitleTouchesTitle | BossEncounters-main/src/main/java/com/orangeslices/bossencounters/BossApplier.java:238-268 | the title step changes no key but the title |
| BossAppliers.PrettyMobName | BossEncounters-main/src/main/java/com/orangeslices/bossencounters/BossApplier.java:223-232 | the name is the type's lower-cased words, each capitalised, joined by single spaces and trimmed |
| BossAppliers.OneWordParts | BossEncounters-main/src/main/java/com/orangeslices/bossencounters/BossApplier.java:224-225 | a type name without underscores or spaces splits into the one lower-cased word |
| BossAppliers.CapitalOne | BossEncounters-main/src/main/java/com/orangeslices/bossencounters/BossApplier.java:227-231 | a visible word prints with its first letter capitalised |
| BossAppliers.PrettyOneWord | BossEncounters-main/src/main/java/com/orangeslices/bossencounters/BossApplier.java:223-232 | a single visible word prints lower-cased with a capital first letter |
| BossAppliers.LowerVisible | BossEncounters-main/src/main/java/com/orangeslices/bossencounters/BossApplier.java:224-229 | lower-casing keeps a visible character visible, and upper-casing it back too |
| BossAppliers.ApplyBossStats | BossEncounters-main/src/main/java/com/orangeslices/bossencounters/BossApplier.java:128-185 | a boss is left alone; any other entity's data becomes the rank step, the flag, the affix selection and the title in that order |
| BossAppliers.LaterStepsKeep | BossEncounters-main/src/main/java/com/orangeslices/bossencounters/BossApplier.java:178-181 | after the rank step and the flag, the selection and the title keep the flag, the rank, forced affixes and a forced title |
| BossAppliers.BossStatsRule | BossEncounters-main/src/main/java/com/orangeslices/bossencounters/BossApplier.java:128-185 | any non-boss becomes a boss and keeps a forced rank, forced affixes and a forced title; a rolled non-blank rank is stored when none was forced |
| BossManagers.Created | src/main/java/com/orangeslices/bossencounters/boss/BossManager.java:68 | the world's count goes up by one and every other world's count is unchanged |
| BossManagers.Removed | src/main/java/com/orangeslices/bossencounters/boss/BossManager.java:81-84 | the world's count goes down by one but never below 0, and every other world's count is unchanged |
| BossManagers.BossManager.constructor | src/main/java/com/orangeslices/bossencounters/boss/BossManager.java:32-35 | a new manager tracks no bosses and no tasks |
| BossManagers.BossManager.GetActiveBossCount | src/main/java/com/orangeslices/bossencounters/boss/BossManager.java:54-57 | 0 for a null or unseen world, the tracked count otherwise, never negative |
| BossManagers.BossManager.CanCreateBossIn | src/main/java/com/orangeslices/bossencounters/boss/BossManager.java:41-48 | false for a null world, true when uncapped (cap 0 or less), otherwise exactly when the world's count is below the cap |
| BossManagers.BossManager.OnBossCreated | src/main/java/com/orangeslices/bossencounters/boss/BossManager.java:63-74 | a boss with a world raises that world's count and is forwarded to the spawn listener when there is one; otherwise nothing changes |
| BossManagers.BossManager.CancelBossDespawn | src/main/java/com/orangeslices/bossencounters/boss/BossManager.java:98-101 | the boss's task, if any, is removed and cancelled |
| BossManagers.BossManager.OnBossRemoved | src/main/java/com/orangeslices/bossencounters/boss/BossManager.java:76-87 | a boss with a world lowers that world's count (never below 0) and has its despawn task cancelled; otherwise nothing changes |
| BossManagers.BossManager.ScheduleBossDespawn | src/main/java/com/orangeslices/bossencounters/boss/BossManager.java:93-96 | any earlier task of the boss is cancelled and the new one recorded |
| BossManagers.BossManager.Shutdown | src/main/java/com/orangeslices/bossencounters/boss/BossManager.java:107-116 | every pending task is cancelled and both maps are emptied |
| BossManagers.CountsStayNonNegative | src/main/java/com/orangeslices/bossencounters/boss/BossManager.java:68-84 | counts stay non-negative through creations and removals |
| BossManagers.CreateThenRemove | src/main/java/com/orangeslices/bossencounters/boss/BossManager.java:68-84 | a removal undoes a creation, and a removal from an empty world leaves it at 0 |
| BossManagers.CapRespected | src/main/java/com/orangeslices/bossencounters/boss/BossManager.java:41-48 | creating a boss only while the check allows it never takes a world over the cap |
| BossDrops.GetRank | src/main/java/com/orangeslices/bossencounters/BossDropListener.java:268-273 | GRAY when no rank is stored, otherwise the stored rank upper-cased |
| BossDrops.RollTokenCount | src/main/java/com/orangeslices/bossencounters/BossDropListener.java:90-101 | the count is 0, 1 or 2: 0 exactly below the rank's first threshold and 2 exactly at or above its second |
| BossDrops.RollTokenLevel | src/main/java/com/orangeslices/bossencounters/BossDropListener.java:164-177 | the level is 1 or 2; fire resistance, water breathing and night vision are always 1; level 2 only for RED, PURPLE and GOLD, exactly when the roll is below the rank's chance |
| BossDrops.Rand | src/main/java/com/orangeslices/bossencounters/BossDropListener.java:283-285 | the draw lies between min and max |
| BossDrops.RandCovers | src/main/java/com/orangeslices/bossencounters/BossDropListener.java:283-285 | every value between min and max is drawn by some draw |
| BossDrops.WeightTable | src/main/java/com/orangeslices/bossencounters/BossDropListener.java:108-157 | every rank has a non-empty weight table |
| BossDrops.WeightedFrom | src/main/java/com/orangeslices/bossencounters/BossDropListener.java:191-200 | the index found is an index of the table or -1 |
| BossDrops.PickWeighted | src/main/java/com/orangeslices/bossencounters/BossDropListener.java:191-200 | the loop returns the type the cumulative-weight rule picks |
| BossDrops.WeightedFromFirst | src/main/java/com/orangeslices/bossencounters/BossDropListener.java:192-198 | the pick is the first index whose cumulative weight exceeds the roll; -1 exactly when none does |
| BossDrops.PickedTypeRule | src/main/java/com/orangeslices/bossencounters/BossDropListener.java:191-200 | the type of the first pair whose cumulative weight exceeds the roll, the last type when none does, always a listed type |
| BossDrops.TablesSumToOne | src/main/java/com/orangeslices/bossencounters/BossDropListener.java:108-157 | every table's weights add up to 1 |
| BossDrops.NoFallback | src/main/java/com/orangeslices/bossencounters/BossDropListener.java:191-199 | a roll in [0, 1) always picks by the cumulative weights and never reaches the fallback |
| BossDrops.SumListAt | src/main/java/com/orangeslices/bossencounters/BossDropListener.java:192-198 | the sum from the front unfolds one pair at a time to the end |
| BossDrops.TotalIsSumList | src/main/java/com/orangeslices/bossencounters/BossDropListener.java:192-198 | the total equals the sum from the front |
| BossDrops.SumListSnoc | src/main/java/com/orangeslices/bossencounters/BossDropListener.java:192-198 | appending a pair adds its weight to the sum |
| BossDrops.TypeInTable | src/main/java/com/orangeslices/bossencounters/BossDropListener.java:108-157 | a rank's type is one its table lists, never SPEED, water breathing only for GOLD, and SHARPEN or MARK for GRAY and unknown ranks |
| BossDrops.RollDifferentTokenType | src/main/java/com/orangeslices/bossencounters/BossDropListener.java:179-185 | the retry loop returns what the retry rule gives |
| BossDrops.DifferentInTables | src/main/java/com/orangeslices/bossencounters/BossDropListener.java:179-185 | the second type always differs from the first, the fallback included, and is never SPEED |
| BossDrops.CreateToken | src/main/java/com/orangeslices/bossencounters/BossDropListener.java:68-88 | SPEED alone raises; the token has the requested type, and its level is unclamped without a registry definition |
| BossDrops.DefaultClamp | src/main/java/com/orangeslices/bossencounters/BossDropListener.java:68-71 | with the default registry, a level of 1 or 2 is kept except that fire resistance and night vision become 1 |
| BossDrops.BossDropListener.MakeToken | src/main/java/com/orangeslices/bossencounters/BossDropListener.java:68-88 | the token made is the one the creation rule gives |
| BossDrops.BossDropListener.RollTokenPool | src/main/java/com/orangeslices/bossencounters/BossDropListener.java:50-66 | the world's drops grow by exactly the tokens of the drop rule, in order |
| BossDrops.BossDropListener.OnBossDeath | src/main/java/com/orangeslices/bossencounters/BossDropListener.java:32-44 | a non-boss drops nothing; a boss drops the tokens of its rank |
| BossDrops.PoolRule | src/main/java/com/orangeslices/bossencounters/BossDropListener.java:50-66 | a death drops as many tokens as the count roll gives, two of different types, never SPEED |
| BossDrops.RanksAscend | src/main/java/com/orangeslices/bossencounters/BossDropListener.java:90-177 | a higher rank never drops fewer tokens for the same roll, nor gets a lower tier or a lower level-II chance |
| WeightedPicks.PickFrom | BossEncounters-main/src/main/java/com/orangeslices/bossencounters/BossApplier.java:301-305 | the index found is an index of the entries or -1 |
| WeightedPicks.RemoveAt | BossEncounters-main/src/main/java/com/orangeslices/bossencounters/BossApplier.java:351 | one shorter, with the entries before the index kept and those after it shifted down |
| WeightedPicks.Ids | BossEncounters-main/src/main/java/com/orangeslices/bossencounters/BossApplier.java:350 | the ids of the entries, in order |
| WeightedPicks.TotalWeight | BossEncounters-main/src/main/java/com/orangeslices/bossencounters/BossApplier.java:333-334 | the summing loop returns the sum of the weights |
| WeightedPicks.PickIndex | BossEncounters-main/src/main/java/com/orangeslices/bossencounters/BossApplier.java:338-347 | the running-sum loop returns the index the pick rule gives |
| WeightedPicks.PickFromFirst | BossEncounters-main/src/main/java/com/orangeslices/bossencounters/BossApplier.java:338-347 | the pick is the first index whose running sum exceeds the roll; -1 exactly when none does |
| WeightedPicks.PickFirst | BossEncounters-main/src/main/java/com/orangeslices/bossencounters/BossApplier.java:301-305 | the pick from the start is the first index whose running sum exceeds the roll; -1 exactly when none does |
| WeightedPicks.PickFound | BossEncounters-main/src/main/java/com/orangeslices/bossencounters/BossApplier.java:300-305 | a non-negative roll below the total always picks an entry |
| WeightedPicks.SumPositive | BossEncounters-main/src/main/java/com/orangeslices/bossencounters/BossApplier.java:296-298 | with positive weights the sum is never negative, and positive exactly for a non-empty list |
| WeightedPicks.RemoveAtIds | BossEncounters-main/src/main/java/com/orangeslices/bossencounters/BossApplier.java:349-352 | removing an entry keeps only old ids, keeps positive weights, and with distinct ids removes the picked one |
| Affixes.HasAffix | src/main/java/com/orangeslices/bossencounters/AffixListener.java:50-56 | the loop answers whether some comma-separated piece, trimmed, equals the id ignoring case |
| Affixes.CheckArmed | src/main/java/com/orangeslices/bossencounters/AffixListener.java:137 | the check answers whether the affix is listed and enabled |
| Affixes.RankScale | src/main/java/com/orangeslices/bossencounters/AffixListener.java:63-69 | 1.0 for no rank or a blank one, and for a rank without a configured scaling |
| Affixes.Clamp | src/main/java/com/orangeslices/bossencounters/AffixListener.java:71-73 | with min <= max the result lies in the range; a value inside is unchanged, one below gives min and one above gives max |
| Affixes.RoundToLong | src/main/java/com/orangeslices/bossencounters/AffixListener.java:197 | the rounded value lies in the long range and within half of the argument when the argument is in range |
| Affixes.NarrowToInt | src/main/java/com/orangeslices/bossencounters/AffixListener.java:197 | the int cast gives a 32-bit value congruent to the argument modulo 2^32, the value itself when it fits |
| Affixes.ScaledTicks | src/main/java/com/orangeslices/bossencounters/AffixListener.java:197-198 | the scaled duration lies in 1..240 |
| Affixes.ScaledTicksExact | src/main/java/com/orangeslices/bossencounters/AffixListener.java:197-198 | inside 1..240 the scaled duration is the rounded product itself |
| Affixes.Amplifier | src/main/java/com/orangeslices/bossencounters/AffixListener.java:200-203 | the amplifier lies in 0..3 and is never below the configured one while that is at most 3 |
| Affixes.AmplifierMonotone | src/main/java/com/orangeslices/bossencounters/AffixListener.java:200-203 | a higher scale never lowers the amplifier, and below 1.45 it is the configured one bounded to 0..3 |
| Affixes.MarkDurationMs | src/main/java/com/orangeslices/bossencounters/AffixListener.java:250-251 | the mark duration lies in 500..6000 ms |
| Affixes.MarkMultiplier | src/main/java/com/orangeslices/bossencounters/AffixListener.java:122-125 | the mark multiplier lies in 1..3 |
| Affixes.MarkRule | src/main/java/com/orangeslices/bossencounters/AffixListener.java:115-134 | a mark applied at now lasts 500 to 6000 ms and is active exactly before its end; an attack while it is active multiplies the damage and removes it; no mark stays active after consumption |
| Affixes.HealedHealth | src/main/java/com/orangeslices/bossencounters/AffixListener.java:149-160 | lifesteal never lowers health; a gain needs a living boss and a positive heal, is at most the heal and never exceeds the maximum health |
| Affixes.SharesCapped | src/main/java/com/orangeslices/bossencounters/AffixListener.java:143-147 | neither lifesteal nor thorns moves more than 55% of a non-negative damage |
| Affixes.MulBetween | src/main/java/com/orangeslices/bossencounters/AffixListener.java:143 | a share of at most hi of a non-negative amount lies between 0 and hi times the amount |
| Affixes.LookupName | src/main/java/com/orangeslices/bossencounters/AffixListener.java:411-413 | a name found is paired with its type in the table, and a name not found appears nowhere in it |
| Affixes.LookupAt | src/main/java/com/orangeslices/bossencounters/AffixListener.java:412 | the lookup finds the first entry with the name |
| Affixes.SlownessByName | src/main/java/com/orangeslices/bossencounters/AffixListener.java:411-413 | SLOWNESS names the type SLOWNESS |
| Affixes.IntimidateDefault | src/main/java/com/orangeslices/bossencounters/AffixListener.java:398-413 | without a configured effect intimidate applies SLOWNESS |
| Affixes.BlindnessByName | src/main/java/com/orangeslices/bossencounters/AffixListener.java:411-413 | a registered type the plugin does not use elsewhere, BLINDNESS, is found by its name |
| Affixes.IntimidateBlindness | src/main/java/com/orangeslices/bossencounters/AffixListener.java:398-413 | a configured BLINDNESS is applied as BLINDNESS and not replaced by SLOWNESS |
| Affixes.Insert | src/main/java/com/orangeslices/bossencounters/AffixListener.java:351 | the insertion adds exactly the one entity |
| Affixes.SortByDistance | src/main/java/com/orangeslices/bossencounters/AffixListener.java:351 | the sort is a permutation of its input |
| Affixes.InsertSorted | src/main/java/com/orangeslices/bossencounters/AffixListener.java:351 | inserting into a sorted list keeps it sorted |
| Affixes.SortSorted | src/main/java/com/orangeslices/bossencounters/AffixListener.java:351 | the sort orders the entities by distance |
| Affixes.EligibleTargets | src/main/java/com/orangeslices/bossencounters/AffixListener.java:343-349 | the filter loop returns the eligible entities in the order found |
| Affixes.EligibleRule | src/main/java/com/orangeslices/bossencounters/AffixListener.java:343-349 | an entity is eligible exactly when it was found nearby, is not the boss, is living and alive |
| Affixes.SortedEligible | src/main/java/com/orangeslices/bossencounters/AffixListener.java:343-351 | the sorted candidates are eligible entities, each of them found nearby |
| Affixes.HitTargets | src/main/java/com/orangeslices/bossencounters/AffixListener.java:353-367 | the hit loop returns the alive targets in order until max are hit |
| Affixes.HitsAllAlive | src/main/java/com/orangeslices/bossencounters/AffixListener.java:353-367 | over alive entities the hit loop takes the first max of them |
| Affixes.ShockwaveTargets | src/main/java/com/orangeslices/bossencounters/AffixListener.java:343-367 | both loops together return the struck entities |
| Affixes.PrefixNearest | src/main/java/com/orangeslices/bossencounters/AffixListener.java:351-355 | a prefix of a sorted list holds no entity farther than one after it |
| Affixes.ShockwaveRule | src/main/java/com/orangeslices/bossencounters/AffixListener.java:343-367 | a shockwave hits at most max_targets entities, each eligible and no farther than any eligible one spared; all are hit when there are at most max_targets |
| Affixes.Reflected | src/main/java/com/orangeslices/bossencounters/AffixListener.java:291-298 | thorns strikes back once, with the reflected share, exactly when it fires on an alive boss and the share is positive |
| Affixes.AffixListener.constructor | src/main/java/com/orangeslices/bossencounters/AffixListener.java:37-40 | a new listener remembers no procs and no tasks |
| Affixes.AffixListener.SetLastProc | src/main/java/com/orangeslices/bossencounters/AffixListener.java:90-93 | the boss's affix key is stamped with now and nothing else changes |
| Affixes.AffixListener.ShouldProc | src/main/java/com/orangeslices/bossencounters/AffixListener.java:75-80 | fires exactly when the roll passes and the cooldown is over, and only then stamps the key |
| Affixes.AffixListener.TryProc | src/main/java/com/orangeslices/bossencounters/AffixListener.java:137-145 | one affix block fires exactly when armed and its proc passes, leaving the cooldowns of the step rule |
| Affixes.AffixListener.Heal | src/main/java/com/orangeslices/bossencounters/AffixListener.java:149-160 | the boss's health becomes what the lifesteal rule gives |
| Affixes.AffixListener.AttackGuard | src/main/java/com/orangeslices/bossencounters/AffixListener.java:101-109 | the guards pass exactly when the event is live, the damager a boss with affixes and the target living and alive |
| Affixes.AffixListener.ConsumeMark | src/main/java/com/orangeslices/bossencounters/AffixListener.java:115-134 | an active mark multiplies the damage and is removed; otherwise nothing changes |
| Affixes.AffixListener.FirstBlocks | src/main/java/com/orangeslices/bossencounters/AffixListener.java:136-187 | lifesteal then knockback: the cooldowns of both steps, and the boss healed only when lifesteal fires |
| Affixes.AffixListener.LastBlocks | src/main/java/com/orangeslices/bossencounters/AffixListener.java:189-261 | bleed, pull then mark: the cooldowns of the three steps, wither only when bleed fires and a mark only when mark fires |
| Affixes.AffixListener.AttackBlocks | src/main/java/com/orangeslices/bossencounters/AffixListener.java:136-261 | the five blocks in order: their cooldowns, the heal, the bleed and the mark each exactly when their own proc fires |
| Affixes.AffixListener.OnBossAttack | src/main/java/com/orangeslices/bossencounters/AffixListener.java:100-262 | without the guards nothing changes; otherwise the mark is consumed, the damage multiplied, and the five affix blocks run in order with their cooldowns, heal, bleed and mark |
| Affixes.AffixListener.HurtGuard | src/main/java/com/orangeslices/bossencounters/AffixListener.java:270-275 | the guards pass exactly when the event is live and the entity a boss with affixes |
| Affixes.AffixListener.Retaliate | src/main/java/com/orangeslices/bossencounters/AffixListener.java:281-300 | thorns fires exactly when armed, the attacker is living and alive and the proc passes; the key is stamped and the reflected share struck back |
| Affixes.AffixListener.OnBossHurt | src/main/java/com/orangeslices/bossencounters/AffixListener.java:269-308 | without the guards nothing changes; otherwise thorns may strike back and the lethal-safety task is always scheduled |
| Affixes.AffixListener.RunSafetyTask | src/main/java/com/orangeslices/bossencounters/AffixListener.java:303-307 | the earliest task runs once and a valid, undead boss at or below 0 health takes 1000 |
| Affixes.AffixListener.ShockwaveGuard | src/main/java/com/orangeslices/bossencounters/AffixListener.java:316-325 | the guards pass exactly when the event is live and the boss alive, listing shockwave and enabled |
| Affixes.AffixListener.Burst | src/main/java/com/orangeslices/bossencounters/AffixListener.java:341-367 | the proc is stamped when it fires and then the struck entities are hit |
| Affixes.AffixListener.OnBossDamagedAny | src/main/java/com/orangeslices/bossencounters/AffixListener.java:315-372 | without the guards nothing is hit; otherwise a shockwave that fires hits the struck entities for the scaled damage |
| Affixes.AffixListener.TargetGuard | src/main/java/com/orangeslices/bossencounters/AffixListener.java:380-400 | the guards pass exactly when the event is live, the boss has intimidate enabled, the target is alive and the cooldown is over |
| Affixes.AffixListener.OnBossTarget | src/main/java/com/orangeslices/bossencounters/AffixListener.java:379-421 | without the guards nothing changes; otherwise the target gets the intimidate effect and the cooldown is stamped |
| Affixes.CooldownKeysDistinct | src/main/java/com/orangeslices/bossencounters/AffixListener.java:85 | keys of bosses whose ids hold no colon are equal only for the same boss and affix |
| Affixes.SameBossKeys | src/main/java/com/orangeslices/bossencounters/AffixListener.java:85 | two affixes of one boss have different keys |
| Affixes.FiresAfterStep | src/main/java/com/orangeslices/bossencounters/AffixListener.java:137-261 | whether an affix fires does not depend on an earlier block of another affix |
| Affixes.ChainFires | src/main/java/com/orangeslices/bossencounters/AffixListener.java:137-261 | whether an affix fires is the same after any blocks of other affixes |
| Affixes.ChainKey | src/main/java/com/orangeslices/bossencounters/AffixListener.java:137-261 | after blocks of distinct affixes a key holds now exactly when it is the key of one that fires on the starting cooldowns; other keys keep their value |
| Affixes.AttackProcsChain | src/main/java/com/orangeslices/bossencounters/AffixListener.java:137-261 | the attack handler's cooldowns are its five blocks run in order |
| Affixes.ChainOfFive | src/main/java/com/orangeslices/bossencounters/AffixListener.java:137-261 | five blocks chained are five steps |
| Affixes.AttackProcsRule | src/main/java/com/orangeslices/bossencounters/AffixListener.java:137-261 | after an attack a key holds now exactly when it is the key of one of the five affixes that fires on the cooldowns before the attack |
| Affixes.OtherBossUntouched | src/main/java/com/orangeslices/bossencounters/AffixListener.java:85-93 | a block of one boss leaves every other boss's cooldowns alone |
| Affixes.UpperOfLower | src/main/java/com/orangeslices/bossencounters/AffixListener.java:53 | upper-casing a lower-cased string is upper-casing the string |
| Affixes.CleanIdTrimmed | src/main/java/com/orangeslices/bossencounters/AffixListener.java:53 | a stored id is its own trim |
| Affixes.ListedIgnoresCase | src/main/java/com/orangeslices/bossencounters/AffixListener.java:50-56 | the lookup ignores the case of the id it looks for |
| Affixes.StoredAffixesListed | src/main/java/com/orangeslices/bossencounters/AffixListener.java:50-56 | on affixes just stored, an id is found exactly when it equals one of the cleaned ids ignoring case |
| SpawnBosses.GetWhitelist | src/main/java/com/orangeslices/bossencounters/boss/spawn/SpawnBossListener.java:81-89 | the loop collects exactly the non-blank entries of mobs.whitelist, trimmed and upper-cased |
| SpawnBosses.OneIn | src/main/java/com/orangeslices/bossencounters/boss/spawn/SpawnBossListener.java:68 | spawn.one_in is at least 1 and is the configured value when that is at least 1 |
| SpawnBosses.ShouldBecomeBoss | src/main/java/com/orangeslices/bossencounters/boss/spawn/SpawnBossListener.java:64-79 | the method decides a boss exactly when the roll is 0 and the whitelist is empty or holds the upper-cased type name |
| SpawnBosses.SpawnRule | src/main/java/com/orangeslices/bossencounters/boss/spawn/SpawnBossListener.java:64-79 | only roll 0 makes a boss; an empty whitelist admits every type, a non-empty one exactly the types it lists in any case |
| SpawnBosses.WhitelistMatches | src/main/java/com/orangeslices/bossencounters/boss/spawn/SpawnBossListener.java:81-89 | an entry whose trim equals the type name ignoring case admits that type |
| SpawnBosses.WhitelistUpper | src/main/java/com/orangeslices/bossencounters/boss/spawn/SpawnBossListener.java:85 | every whitelist entry is in upper-case form |
| SpawnBosses.RankLabel | src/main/java/com/orangeslices/bossencounters/boss/spawn/SpawnBossListener.java:171-173 | Boss without a rank, the rank itself when no label is configured |
| SpawnBosses.RankColor | src/main/java/com/orangeslices/bossencounters/boss/spawn/SpawnBossListener.java:174-176 | the default colour code is &c without a rank or a configured colour |
| SpawnBosses.TitlePart | src/main/java/com/orangeslices/bossencounters/boss/spawn/SpawnBossListener.java:178-179 | empty for a missing or blank title, else the title in square brackets followed by a space |
| SpawnBosses.MobName | src/main/java/com/orangeslices/bossencounters/boss/spawn/SpawnBossListener.java:196-200 | Mob for a blank name; otherwise a name of the same length with no underscore, a first character that is not lower case and no upper-case letter after it |
| SpawnBosses.BlankLowered | src/main/java/com/orangeslices/bossencounters/boss/spawn/SpawnBossListener.java:197-198 | the lowered, underscore-to-space name is blank exactly when the type name has only whitespace and underscores |
| SpawnBosses.AbsentFirst | src/main/java/com/orangeslices/bossencounters/boss/spawn/SpawnBossListener.java:186-192 | a placeholder whose first character is absent from the text does not occur in it |
| SpawnBosses.FormatPlain | src/main/java/com/orangeslices/bossencounters/boss/spawn/SpawnBossListener.java:167-194 | a template with no brace and no ampersand comes out unchanged |
| SpawnBosses.RankXpReadsBack | src/main/java/com/orangeslices/bossencounters/boss/spawn/SpawnBossListener.java:183-192 | the rank_xp text parses back to the rounded multiplier whenever that fits an int |
| SpawnBosses.DespawnDelayTicks | src/main/java/com/orangeslices/bossencounters/boss/spawn/SpawnBossListener.java:210-211 | the delay is at least 200 ticks, a multiple of 20, and 20 times the configured seconds when those are at least 10 |
| SpawnBosses.DespawnRule | src/main/java/com/orangeslices/bossencounters/boss/spawn/SpawnBossListener.java:213-243 | the task removes the boss exactly when it is valid, alive, with no player near and no target that counts; it only cancels exactly when the boss is gone |
| SpawnBosses.SpawnBossListener.constructor | src/main/java/com/orangeslices/bossencounters/boss/spawn/SpawnBossListener.java:21-23 | a new listener has no broadcasts, no removals and its task counter at zero |
| SpawnBosses.SpawnBossListener.MaybeBroadcast | src/main/java/com/orangeslices/bossencounters/boss/spawn/SpawnBossListener.java:137-165 | one formatted message is appended when both message toggles hold, none otherwise |
| SpawnBosses.SpawnBossListener.MaybeScheduleDespawn | src/main/java/com/orangeslices/bossencounters/boss/spawn/SpawnBossListener.java:206-246 | with despawn enabled a new task replaces the boss's earlier one, which is cancelled, after the configured delay; otherwise nothing changes |
| SpawnBosses.SpawnBossListener.OnBossCreated | src/main/java/com/orangeslices/bossencounters/boss/spawn/SpawnBossListener.java:43-58 | an invalid or dead mob is left alone; otherwise the boss stats are applied, the spawn message goes out and the despawn task is scheduled |
| SpawnBosses.SpawnBossListener.OnMobSpawn | src/main/java/com/orangeslices/bossencounters/boss/spawn/SpawnBossListener.java:26-38 | a boss is created exactly for a living non-boss mob that passes the roll and the whitelist; otherwise nothing changes |
| SpawnBosses.SpawnBossListener.RunDespawnTask | src/main/java/com/orangeslices/bossencounters/boss/spawn/SpawnBossListener.java:213-243 | the task follows DespawnDecision: a gone boss only loses its task, one in play is rescheduled, any other gets the despawn message, is removed and loses its task |
| ArmorEffectCodec.NormalizedStable | src/main/java/com/orangeslices/bossencounters/raffle/listeners/ArmorEquipListener.java:80 | normalizing an id twice is normalizing it once |
| ArmorEffectCodec.ReadPiece | src/main/java/com/orangeslices/bossencounters/raffle/listeners/ArmorEquipListener.java:330-342 | a piece that yields an entry has a non-empty normalized id and a level of at least 1 |
| ArmorEffectCodec.Pieces | src/main/java/com/orangeslices/bossencounters/raffle/listeners/ArmorEquipListener.java:328-329 | there is one reading per piece |
| ArmorEffectCodec.DecodeEffects | src/main/java/com/orangeslices/bossencounters/raffle/listeners/ArmorEquipListener.java:324-345 | the loop over the pieces fills exactly the map of the decoding with the id-less piece skipped |
| ArmorEffectCodec.GatherStep | src/main/java/com/orangeslices/bossencounters/raffle/listeners/ArmorEquipListener.java:329-343 | one more piece adds or overwrites its own entry and changes nothing else |
| ArmorEffectCodec.GatherNamed | src/main/java/com/orangeslices/bossencounters/raffle/listeners/ArmorEquipListener.java:329-343 | an id is in the decoded map exactly when some piece names it |
| ArmorEffectCodec.GatherLast | src/main/java/com/orangeslices/bossencounters/raffle/listeners/ArmorEquipListener.java:342 | the level of an id is the one of the last piece naming it |
| ArmorEffectCodec.DecodeWellFormed | src/main/java/com/orangeslices/bossencounters/raffle/listeners/ArmorEquipListener.java:330-342 | every decoded key is a non-empty normalized id with a level of at least 1 |
| ArmorEffectCodec.GatherWellFormed | src/main/java/com/orangeslices/bossencounters/raffle/listeners/ArmorEquipListener.java:330-342 | pieces that each read well give a map of non-empty normalized ids with levels of at least 1 |
| ArmorEffectCodec.BlankDecodesEmpty | src/main/java/com/orangeslices/bossencounters/raffle/listeners/ArmorEquipListener.java:326 | a blank encoding decodes to the empty map, both as written and corrected |
| ArmorEffectCodec.AsWrittenAgrees | src/main/java/com/orangeslices/bossencounters/raffle/listeners/ArmorEquipListener.java:329-343 | the code as written fails exactly when some piece is made only of colons and otherwise gives the corrected map |
| ArmorEffectCodec.ColonPieceCrashes | src/main/java/com/orangeslices/bossencounters/raffle/listeners/ArmorEquipListener.java:333-334 | the piece made of one colon throws as written and contributes nothing once skipped |
| ArmorEffectCodec.ReadEncodedPiece | src/main/java/com/orangeslices/bossencounters/raffle/listeners/ArmorEquipListener.java:321-342 | a piece written as id:lvl with a plain id and an int level reads back as that entry |
| ArmorEffectCodec.DecodeEncoded | src/main/java/com/orangeslices/bossencounters/raffle/listeners/ArmorEquipListener.java:321-345 | decoding the encoding of a non-empty list of plain entries gives the map of those entries, a later one overriding an earlier |
| ArmorEffectCodec.GatherEntries | src/main/java/com/orangeslices/bossencounters/raffle/listeners/ArmorEquipListener.java:329-343 | gathering the entry pieces of a list gives the map of its entries |
| ArmorEffectCodec.EncodedPieces | src/main/java/com/orangeslices/bossencounters/raffle/listeners/ArmorEquipListener.java:329-343 | each encoded piece reads back as its own entry, so the gathered pieces give the entries' map |
| ArmorEquipListeners.DefaultCooldownMs | src/main/java/com/orangeslices/bossencounters/raffle/listeners/ArmorEquipListener.java:174-183 | every fallback cooldown is positive |
| ArmorEquipListeners.CooldownMs | src/main/java/com/orangeslices/bossencounters/raffle/listeners/ArmorEquipListener.java:161-184 | the cooldown is never negative |
| ArmorEquipListeners.MsKeyFirst | src/main/java/com/orangeslices/bossencounters/raffle/listeners/ArmorEquipListener.java:167-168 | a non-negative value under the _ms key is the cooldown |
| ArmorEquipListeners.PlainKeySecond | src/main/java/com/orangeslices/bossencounters/raffle/listeners/ArmorEquipListener.java:170-171 | without a usable _ms key a non-negative value under the plain key is the cooldown |
| ArmorEquipListeners.TableLast | src/main/java/com/orangeslices/bossencounters/raffle/listeners/ArmorEquipListener.java:173-183 | without either usable key the fallback table decides |
| ArmorEquipListeners.DefaultsTable | src/main/java/com/orangeslices/bossencounters/raffle/listeners/ArmorEquipListener.java:174-183 | two minutes for terror, mandators_curse and shadow_twin, 90 s for ogre, 45 s for echoes and broken_compass, 10 s for the buffs |
| ArmorEquipListeners.HealthBoostAmplifier | src/main/java/com/orangeslices/bossencounters/raffle/listeners/ArmorEquipListener.java:100 | the amplifier lies in 0 to 3 and is the level minus one for levels 1 to 4 |
| ArmorEquipListeners.OneLiveCow | src/main/java/com/orangeslices/bossencounters/raffle/listeners/ArmorEquipListener.java:217-230 | after a spawn attempt the player tracks a live cow; a cow is spawned exactly when the tracked one is missing or dead, and then it is a new one that is tracked |
| ArmorEquipListeners.RefusedChangesNothing | src/main/java/com/orangeslices/bossencounters/raffle/listeners/ArmorEquipListener.java:87-89 | a trigger within the cooldown changes nothing but creating the player's empty cooldown map and fires nothing |
| ArmorEquipListeners.UnknownIdRecordsCooldown | src/main/java/com/orangeslices/bossencounters/raffle/listeners/ArmorEquipListener.java:89-157 | an unknown id outside its cooldown records the stamp, leaves body, cow and herd unchanged and sends only the unimplemented line |
| ArmorEquipListeners.TriggerOtherStamp | src/main/java/com/orangeslices/bossencounters/raffle/listeners/ArmorEquipListener.java:79-91 | a trigger leaves the stamp of every other id untouched |
| ArmorEquipListeners.StampStep | src/main/java/com/orangeslices/bossencounters/raffle/listeners/ArmorEquipListener.java:87-91 | one trigger sets the stamp of its own id to now exactly when it is outside its cooldown and leaves every other stamp |
| ArmorEquipListeners.ReadArmorEffects | src/main/java/com/orangeslices/bossencounters/raffle/listeners/ArmorEquipListener.java:48-65 | a missing, AIR, non-armour or meta-less item, or a missing or blank encoding, gives no effects; otherwise the decoded map |
| ArmorEquipListeners.RunStep | src/main/java/com/orangeslices/bossencounters/raffle/listeners/ArmorEquipListener.java:68-72 | a run one id longer triggers that id at max(1, level) on the state the shorter run left and appends what it fired |
| ArmorEquipListeners.RunStamps | src/main/java/com/orangeslices/bossencounters/raffle/listeners/ArmorEquipListener.java:68-91 | whatever the order, each id of the item ends up stamped now if its cooldown had run out and keeps its old stamp otherwise; every other stamp is untouched |
| ArmorEquipListeners.Cows.constructor | src/main/java/com/orangeslices/bossencounters/raffle/listeners/ArmorEquipListener.java:217-230 | a new world has no live cow |
| ArmorEquipListeners.Chase.constructor | src/main/java/com/orangeslices/bossencounters/raffle/listeners/ArmorEquipListener.java:233-235 | a new chase belongs to its player and cow, has run for no ticks and is not cancelled |
| ArmorEquipListeners.ArmorEquipListener.constructor | src/main/java/com/orangeslices/bossencounters/raffle/listeners/ArmorEquipListener.java:34-45 | a new listener has no cooldowns and no tracked cow |
| ArmorEquipListeners.ArmorEquipListener.Store | src/main/java/com/orangeslices/bossencounters/raffle/listeners/ArmorEquipListener.java:87-91 | the player's state becomes the given one and no other player's entries change |
| ArmorEquipListeners.ArmorEquipListener.TriggerEffect | src/main/java/com/orangeslices/bossencounters/raffle/listeners/ArmorEquipListener.java:79-159 | the player's new state and the fired effect are those of Trigger on the old state; no other player's entries change |
| ArmorEquipListeners.ArmorEquipListener.TriggerNext | src/main/java/com/orangeslices/bossencounters/raffle/listeners/ArmorEquipListener.java:68-72 | one loop turn extends the run of the triggers by its id; no other player's entries change |
| ArmorEquipListeners.ArmorEquipListener.OnArmorChange | src/main/java/com/orangeslices/bossencounters/raffle/listeners/ArmorEquipListener.java:47-73 | the order lists each decoded effect exactly once, and the player's new state and the fired effects are the run of the triggers over that order; no other player's entries change |
| ArmorEquipListeners.ChaseTick | src/main/java/com/orangeslices/bossencounters/raffle/listeners/ArmorEquipListener.java:236-270 | offline or dead cow: the chase ends and the tracking entry is dropped; otherwise five more ticks, and at twenty seconds the chase ends, the cow is removed and the entry dropped; cooldowns never change |
| RaffleApplyListeners.FailText | src/main/java/com/orangeslices/bossencounters/raffle/RaffleApplyListener.java:199-206 | a configured, non-blank text under the key is used as it is |
| RaffleApplyListeners.ArmorSlot | src/main/java/com/orangeslices/bossencounters/raffle/RaffleApplyListener.java:255-265 | a slot is found exactly for a present stack of an armour material |
| RaffleApplyListeners.CompatibleWithSlotTable | src/main/java/com/orangeslices/bossencounters/raffle/RaffleApplyListener.java:267-284 | the slot test is the potion table's rule for every id, which allows every id on every armour slot, and a null id is never compatible |
| RaffleApplyListeners.RaffleApplyListener.constructor | src/main/java/com/orangeslices/bossencounters/raffle/RaffleApplyListener.java:36-38 | a new listener has no recorded uses |
| RaffleApplyListeners.RaffleApplyListener.HandleApply | src/main/java/com/orangeslices/bossencounters/raffle/RaffleApplyListener.java:40-153 | the outcome and the new cooldown map are those of OnApply on the old map, with the server's answers to the reference tests as a parameter |
| RaffleApplyListeners.RaffleApplyListener.ApplyWith | src/main/java/com/orangeslices/bossencounters/raffle/RaffleApplyListener.java:119-152 | the armour checks, the apply, the lore update, the token consumption by reference test and the feedback are those of Finish |
| RaffleApplyListeners.RaffleApplyListener.ConsumeOne | src/main/java/com/orangeslices/bossencounters/raffle/RaffleApplyListener.java:155-167 | a null or AIR token takes nothing; otherwise the main hand loses one item when it is the token object, else the off hand when it is, else no hand |
| Inventories.ConsumeFromHand | src/main/java/com/orangeslices/bossencounters/addon/AddOnListener.java:341-355 | the stack in that hand loses one item, a last item is replaced by AIR, an empty hand is left alone, and the other hand keeps its stack; the raffle listener's consumeMain and consumeOff use the same method |
| Inventories.ConsumedFromHand | src/main/java/com/orangeslices/bossencounters/raffle/RaffleApplyListener.java:170-192 | a stack of more than one keeps one fewer, a last item becomes AIR, an empty hand is left alone, the other hand never changes |
| RaffleApplyListeners.IgnoredClicks | src/main/java/com/orangeslices/bossencounters/raffle/RaffleApplyListener.java:42-64 | a click that is not a sneaking main-hand right-click, or involves no token, is ignored: not cancelled, silent, nothing changes |
| RaffleApplyListeners.HandledIsCancelled | src/main/java/com/orangeslices/bossencounters/raffle/RaffleApplyListener.java:66-91 | every handled click is cancelled |
| RaffleApplyListeners.FinishCancelled | src/main/java/com/orangeslices/bossencounters/raffle/RaffleApplyListener.java:119-152 | every outcome after the cooldown is cancelled |
| RaffleApplyListeners.MainhandRequired | src/main/java/com/orangeslices/bossencounters/raffle/RaffleApplyListener.java:66-72 | requiring the token in the main hand refuses an off-hand token with the wrong-hand text before the cooldown |
| RaffleApplyListeners.OffhandRequired | src/main/java/com/orangeslices/bossencounters/raffle/RaffleApplyListener.java:74-88 | requiring armour in the off hand refuses an empty or non-armour off hand with its own text before the cooldown |
| RaffleApplyListeners.CooldownSilent | src/main/java/com/orangeslices/bossencounters/raffle/RaffleApplyListener.java:93-97 | a click inside the cooldown window is cancelled and silent and changes nothing |
| RaffleApplyListeners.CooldownRecords | src/main/java/com/orangeslices/bossencounters/raffle/RaffleApplyListener.java:93-99 | a click past the cooldown records its time when the cooldown is positive and records nothing otherwise |
| RaffleApplyListeners.NoCooldownNeverBlocks | src/main/java/com/orangeslices/bossencounters/raffle/RaffleApplyListener.java:93-94 | a cooldown of 0 or less never blocks |
| RaffleApplyListeners.SecondClickBlocked | src/main/java/com/orangeslices/bossencounters/raffle/RaffleApplyListener.java:93-98 | a second click by the same player within the window after a recorded use is blocked |
| RaffleApplyListeners.FlexibleBothTokens | src/main/java/com/orangeslices/bossencounters/raffle/RaffleApplyListener.java:108-114 | flexible mode with a token in each hand is refused with the both-tokens text and the hands stay |
| RaffleApplyListeners.SidesDiffer | src/main/java/com/orangeslices/bossencounters/raffle/RaffleApplyListener.java:101-117 | the token and the armour are in different hands, the token hand holds a token, and mainhand mode puts the armour in the off hand |
| RaffleApplyListeners.ConsumedOnlyOnSuccess | src/main/java/com/orangeslices/bossencounters/raffle/RaffleApplyListener.java:119-152 | every non-success leaves both hands; a success leaves them as the reference test of consumeOne does after the armour update, which is one item fewer in the token's hand and the rebuilt armour in the other when the test finds the token's hand |
| RaffleApplyListeners.IdentityConsumesToken | src/main/java/com/orangeslices/bossencounters/raffle/RaffleApplyListener.java:155-167 | when the reference test holds exactly for the token's hand, consumeOne takes one item from that hand and nothing else |
| RaffleApplyListeners.FreshWrappersKeepToken | src/main/java/com/orangeslices/bossencounters/raffle/RaffleApplyListener.java:194-197 | when neither re-fetched stack is the token object, consumeOne changes no hand, although taking one item would change the token's stack |
| RaffleApplyListeners.SuccessKeepsTokenWithFreshWrappers | src/main/java/com/orangeslices/bossencounters/raffle/RaffleApplyListener.java:146-147 | a successful apply whose reference tests both fail leaves the token's stack exactly as it was |
| RaffleApplyListeners.FailureReason | src/main/java/com/orangeslices/bossencounters/raffle/RaffleApplyListener.java:134-141 | a failed apply answers with the service's reason in the generic template |
| ReductionEffects.ShrinkSets | src/main/java/com/orangeslices/bossencounters/raffle/effects/custom/ReductionEffect.java:37-53 | an apply to an online player with the scale attribute sets the reduced scale and holds an original, keeping one already held |
| ReductionEffects.ShrinkThenRestore | src/main/java/com/orangeslices/bossencounters/raffle/effects/custom/ReductionEffect.java:37-67 | apply then clear gives back the scale from before and the map as it was |
| ReductionEffects.ShrinkTwiceThenRestore | src/main/java/com/orangeslices/bossencounters/raffle/effects/custom/ReductionEffect.java:48-67 | a second apply before the clear keeps the first captured original, and the clear restores it |
| ReductionEffects.RestoreWithoutCapture | src/main/java/com/orangeslices/bossencounters/raffle/effects/custom/ReductionEffect.java:56-67 | a clear with nothing captured leaves the scale and the map as they are |
| ReductionEffects.ReductionEffect.constructor | src/main/java/com/orangeslices/bossencounters/raffle/effects/custom/ReductionEffect.java:29 | a new effect holds no original scale |
| ReductionEffects.ReductionEffect.Apply | src/main/java/com/orangeslices/bossencounters/raffle/effects/custom/ReductionEffect.java:37-53 | nothing for a null player; otherwise the map and the scale become those of Shrink |
| ReductionEffects.ReductionEffect.Clear | src/main/java/com/orangeslices/bossencounters/raffle/effects/custom/ReductionEffect.java:56-67 | nothing for a null player; otherwise the map and the scale become those of Restore |
| DreadEffects.StrikesInsideStorm | src/main/java/com/orangeslices/bossencounters/raffle/effects/custom/DreadEffect.java:53-57 | one or two strikes are scheduled, each between 20 ticks and 20 ticks before the storm ends |
| DreadEffects.RevertedOnce | src/main/java/com/orangeslices/bossencounters/raffle/effects/custom/DreadEffect.java:74-82 | reverting twice is reverting once, since the first takes the snapshot out |
| DreadEffects.StormThenRevert | src/main/java/com/orangeslices/bossencounters/raffle/effects/custom/DreadEffect.java:40-78 | a snapshot taken before the storm restores the weather from before and the snapshot map as it was |
| DreadEffects.DreadEffect.constructor | src/main/java/com/orangeslices/bossencounters/raffle/effects/custom/DreadEffect.java:22-23 | a new effect holds no snapshot and no task |
| DreadEffects.DreadEffect.Apply | src/main/java/com/orangeslices/bossencounters/raffle/effects/custom/DreadEffect.java:31-86 | nothing for a null or offline player or one with a snapshot; otherwise the weather is saved, the storm forced, the revert task recorded and the strikes scheduled |
| DreadEffects.DreadEffect.RevertFires | src/main/java/com/orangeslices/bossencounters/raffle/effects/custom/DreadEffect.java:73-83 | the task restores the captured world's weather from the snapshot and removes both entries |
| DreadEffects.DreadEffect.Clear | src/main/java/com/orangeslices/bossencounters/raffle/effects/custom/DreadEffect.java:89-104 | the player's current world gets the snapshot's weather back and both entries are removed |
| DreadEffects.ApplyThenClear | src/main/java/com/orangeslices/bossencounters/raffle/effects/custom/DreadEffect.java:31-104 | apply then clear in one world gives the weather back and leaves the effect's maps as they were |
| MatadorEffects.BullSetup | src/main/java/com/orangeslices/bossencounters/raffle/effects/custom/MatadorEffect.java:48-130 | the bull targets its player, has Speed I for exactly its lifetime, holds a Knockback III stick and drops nothing |
| MatadorEffects.DespawnOnlyOwn | src/main/java/com/orangeslices/bossencounters/raffle/effects/custom/MatadorEffect.java:84-106 | removing one player's bull leaves it without one and every other player's bull alive and mapped |
| MatadorEffects.Mobs.constructor | src/main/java/com/orangeslices/bossencounters/raffle/effects/custom/MatadorEffect.java:48-56 | a new world has no spawned bull |
| MatadorEffects.MatadorEffect.constructor | src/main/java/com/orangeslices/bossencounters/raffle/effects/custom/MatadorEffect.java:29-30 | a new effect tracks no bull and no task |
| MatadorEffects.MatadorEffect.Apply | src/main/java/com/orangeslices/bossencounters/raffle/effects/custom/MatadorEffect.java:38-93 | nothing for a null or offline player or one with a bull; otherwise one new bull is spawned, tracked and given a despawn task |
| MatadorEffects.MatadorEffect.DespawnFires | src/main/java/com/orangeslices/bossencounters/raffle/effects/custom/MatadorEffect.java:84-90 | the task removes the player's bull from the map and the world and drops its own entry |
| MatadorEffects.MatadorEffect.Clear | src/main/java/com/orangeslices/bossencounters/raffle/effects/custom/MatadorEffect.java:96-106 | nothing for a null player; otherwise the task is dropped and the bull removed from the map and the world |
| MatadorEffects.MatadorEffect.Remove | src/main/java/com/orangeslices/bossencounters/raffle/effects/custom/MatadorEffect.java:85-89 | the player's bull is removed from the map and the world and the task entry dropped |
| EchoesEffects.EchoNearby | src/main/java/com/orangeslices/bossencounters/raffle/effects/custom/EchoesEffect.java:46-55 | every echo lands within five blocks on both axes and each of the five sounds can be drawn |
| EchoesEffects.EchoesEffect.constructor | src/main/java/com/orangeslices/bossencounters/raffle/effects/custom/EchoesEffect.java:21-22 | a new effect runs no task |
| EchoesEffects.EchoesEffect.Apply | src/main/java/com/orangeslices/bossencounters/raffle/effects/custom/EchoesEffect.java:30-67 | an online player ends up with a running task, at most one; nothing changes otherwise |
| EchoesEffects.EchoesEffect.Tick | src/main/java/com/orangeslices/bossencounters/raffle/effects/custom/EchoesEffect.java:39-58 | an offline player ends the task; an online one gets one echo from the draws and the tasks stay |
| EchoesEffects.EchoesEffect.AutoStop | src/main/java/com/orangeslices/bossencounters/raffle/effects/custom/EchoesEffect.java:63-66 | the auto-stop ends the task of a player still known and changes nothing otherwise |
| EchoesEffects.EchoesEffect.Clear | src/main/java/com/orangeslices/bossencounters/raffle/effects/custom/EchoesEffect.java:70-74 | the player's task is ended |
| OnAllFoursEffects.OnAllFoursEffect.constructor | src/main/java/com/orangeslices/bossencounters/raffle/effects/custom/OnAllFoursEffect.java:17 | a new effect has no pending revert |
| OnAllFoursEffects.OnAllFoursEffect.Apply | src/main/java/com/orangeslices/bossencounters/raffle/effects/custom/OnAllFoursEffect.java:25-44 | nothing for a null or offline player or one with a pending revert; otherwise the player swims and a revert is pending |
| OnAllFoursEffects.OnAllFoursEffect.RevertFires | src/main/java/com/orangeslices/bossencounters/raffle/effects/custom/OnAllFoursEffect.java:35-41 | the revert drops its entry and puts an online player upright, leaving an offline one as it was |
| OnAllFoursEffects.OnAllFoursEffect.Clear | src/main/java/com/orangeslices/bossencounters/raffle/effects/custom/OnAllFoursEffect.java:47-55 | the pending revert is dropped and the player is upright, whether or not one was pending |
| OnAllFoursEffects.ApplyTwiceThenClear | src/main/java/com/orangeslices/bossencounters/raffle/effects/custom/OnAllFoursEffect.java:25-55 | a second apply before the clear changes nothing, and the clear ends the pose and leaves no revert |
| TerrorEffects.DarknessKept | src/main/java/com/orangeslices/bossencounters/raffle/effects/custom/TerrorEffect.java:41-53 | after apply Darkness has at least a second left, one with a second left is kept as it is, and no other effect changes |
| TerrorEffects.RoarSpaced | src/main/java/com/orangeslices/bossencounters/raffle/effects/custom/TerrorEffect.java:56-65 | after a roar no attempt within eight seconds roars, and such an attempt keeps the stamp |
| TerrorEffects.TerrorEffect.constructor | src/main/java/com/orangeslices/bossencounters/raffle/effects/custom/TerrorEffect.java:29 | the last roar starts at 0 |
| TerrorEffects.TerrorEffect.Apply | src/main/java/com/orangeslices/bossencounters/raffle/effects/custom/TerrorEffect.java:37-66 | nothing for a null or offline player; otherwise Darkness is topped up and the roar follows the shared stamp |
| TerrorEffects.TerrorEffect.Clear | src/main/java/com/orangeslices/bossencounters/raffle/effects/custom/TerrorEffect.java:69-72 | Darkness is removed |
| MisstepEffects.StumbleThenSteady | src/main/java/com/orangeslices/bossencounters/raffle/effects/custom/MisstepEffect.java:40-58 | apply gives Slowness II and Jump Boost 251 for ten seconds; clear removes both and gives back every other effect |
| MisstepEffects.MisstepEffect.constructor | src/main/java/com/orangeslices/bossencounters/raffle/effects/custom/MisstepEffect.java:29 | a new effect has heard no sound |
| MisstepEffects.MisstepEffect.Apply | src/main/java/com/orangeslices/bossencounters/raffle/effects/custom/MisstepEffect.java:37-51 | nothing for a null or offline player; otherwise the two effects are set and the sound follows its 1.5 s cooldown |
| MisstepEffects.MisstepEffect.Clear | src/main/java/com/orangeslices/bossencounters/raffle/effects/custom/MisstepEffect.java:54-61 | both effects are removed and the player's sound time is forgotten |
| UneaseEffects.UneasyThenClear | src/main/java/com/orangeslices/bossencounters/raffle/effects/custom/UneaseEffect.java:29-49 | apply gives Nausea I for twenty seconds; clear removes exactly that entry |
| UneaseEffects.UneaseEffect.constructor | src/main/java/com/orangeslices/bossencounters/raffle/effects/custom/UneaseEffect.java:18 | a new effect has heard no sound |
| UneaseEffects.UneaseEffect.Apply | src/main/java/com/orangeslices/bossencounters/raffle/effects/custom/UneaseEffect.java:26-44 | nothing for a null or offline player; otherwise Nausea is set and the sound follows its 4 s cooldown |
| UneaseEffects.UneaseEffect.Clear | src/main/java/com/orangeslices/bossencounters/raffle/effects/custom/UneaseEffect.java:47-51 | Nausea is removed and the player's sound time is forgotten |
| EffectHost.SoundCooldown | src/main/java/com/orangeslices/bossencounters/raffle/effects/custom/MisstepEffect.java:44-50 | a sound that played does not play again within its cooldown, a refused attempt keeps the map, and other players' times never change |
| EffectHost.FirstSoundPlays | src/main/java/com/orangeslices/bossencounters/raffle/effects/custom/UneaseEffect.java:38-43 | a player never heard before hears the sound at any time not before the cooldown |
| EffectHost.NextInt | src/main/java/com/orangeslices/bossencounters/raffle/effects/custom/DreadEffect.java:53-57 | a draw of nextInt(lo, hi) lies in the half-open range |
| Items.ArmorSlotOf | src/main/java/com/orangeslices/bossencounters/raffle/RaffleApplyListener.java:255-265 | a slot is found exactly for an armour name, it is one of the four armour slots, HEAD exactly for a helmet and FEET only for boots |
| Inventories.Consumed | src/main/java/com/orangeslices/bossencounters/raffle/RaffleApplyListener.java:170-192 | an empty stack stays, a last item leaves AIR, and a larger stack keeps its material and data with one item fewer |
| Inventories.ConsumeCount | src/main/java/com/orangeslices/bossencounters/raffle/RaffleApplyListener.java:170-192 | consuming takes exactly one item from a stack |

## Left out

- Plugin wiring: `BossEncountersPlugin`, listener registration, the commands and the item kit factories are not part of this model. `RaffleTokenFactory.isToken` is restated as a check of the token byte.
- `MessageService`: only `Mode.fromConfig` is modelled. Broadcasting to chat, the action bar and titles is I/O.
- Sounds, particles, velocities and knockback vectors: the affix, equip and effect code that plays or pushes them is left out. Where a sound depends on a cooldown, only the cooldown and whether the sound plays are modelled.
- Floating point: doubles are Dafny reals, with no rounding. `BossDrops.TablesSumToOne` and `BossDrops.NoFallback` therefore hold on reals only: in doubles the RED table's weights add up to 0.9999999999999999, so a roll in the last step below 1.0 reaches the fallback. The fallback is the table's last type, so the pick is the same. Float-only results (damage multipliers, heal and reflect amounts, attribute multipliers) are computed on reals. `Math.round` is written out where its result becomes an integer.
- Case mapping and whitespace: `toUpperCase` and `toLowerCase` map ASCII letters only. `isBlank` uses the whitespace of the Basic Multilingual Plane.
- Colour codes: lore and messages are kept with their `&` codes untranslated, except where the source itself compares stripped or translated text (`ChatColors`).
- Randomness: every `Random` or `ThreadLocalRandom` result is a parameter. The order in which the code draws them is not modelled.
- The scheduler: a task's delay and period are kept as numbers, and a task firing is a method called by the environment. Time passing between firings is not modelled.
- World queries: whether a player is near, whether a mob has a target, the players online and the entities around a player are parameters.
- Concurrency: the `ConcurrentHashMap`s are plain maps, since all handlers run on the server thread.
- `SpawnBosses`: the spawn effects (`maybePlaySpawnFx`) are left out as particles and sound.
- `SpawnBosses.MaybeBroadcast`: the local radius and the players in it belong to `broadcastLocal`. The model records the message only.
- `BossAppliers`: the attribute multipliers of `applyBossStats` (lines 142-175) and `applyNameplate` (lines 192-221) are left out as floating-point and display code. The rank, affixes and title they rely on are modelled.
- `WeightedPicks`: the sum of the weights is an unbounded integer. The source's `int` sum could overflow only for weights far outside any configuration.
- `BossDrops`: `rollBonusLoot` and the drop helpers (lines 206-256) only drop vanilla items on probability thresholds, and are left out. The token count, types and levels are modelled.
- `Affixes`: the knockback, pull and shockwave velocities and every particle and sound are left out. The shockwave's nearby entities and their distances are supplied by the caller.
- `Affixes`: `now + cooldown` and the other `long` sums are unbounded integers. A Java `long` could overflow only billions of years from now.
- `Items.GetInt`: a typed PDC read of a value stored with another type reads as absent, where Bukkit would throw.
- `Configs.CfgLong`: `getInt` and `getLong` read the same unbounded integer. A configured number outside the `int` range, which Bukkit would narrow, is not modelled.
- `SharpeningAnvil`: `resolveAttackDamageAttribute` (reflection over attribute fields) is the parameter `attributeResolved`.
- `PotionAddOns` and `LegacyPotionAddOns`: the repeating task is kept as started or stopped. Each refresh is a call for one player, and the loop over the online players is left to the caller.
- `RaffleEffectReader` and `RaffleService`: the debug string builder `effectsToDebugString` and `RaffleDebug` logging are left out.
- `RaffleLore`: the in-place sort is modelled by its result. The lines are put in canonical order, GOOD effects by name before curses by name. Whether the sort is stable is not modelled.
- `TokenRegistries`: `asMap` is an unmodifiable view of `defs`, which is the class's field itself.
- `TokenDefinitions`: `getByName` ranges over the modelled `TokenType` constants only.
- `RaffleCustomEngine`: `DisarrayEffect` and `MotherHenEffect` are not part of this model. The first is a stateless potion wrapper; the second is truncated in the source.
- `RaffleCustomEngine`: custom effects whose ids the catalogue does not declare are never registered.
- `ArmorEquipListeners`: the echo burst and the ogre rush are recorded as the task they start. Their sounds and pushes are left out, and so is the cow's movement inside the chase task.
- `JavaText.ParseInt`: only the ASCII digits 0-9 are accepted. Java's `Integer.parseInt` also accepts the decimal digits of other scripts, such as the Arabic-Indic digits.
- `EffectHost.AddEffect`: the new effect replaces the entry of its type. The server merges instead: a current effect with a higher amplifier, or with the same amplifier and more time left, is kept. This affects the callers that add an effect without their own check: `Affixes` (Bled, Intimidated), the `ArmorEquipListeners` buffs, `MisstepEffects`, `TerrorEffects`, `UneaseEffects` and the GLOWING effect of `AddOnEffects`. `RafflePotionEngine` checks the amplifier itself, so it differs from the server only when the amplifier is equal and the new duration is shorter.
- `RaffleApplyListeners.ConsumeOne`: whether a fresh hand fetch returns the token object itself is the parameter `SameRef`. The model does not derive this object identity from the hands. `Identity(token)` is the case where the server returns the same objects.
- `AddOnListeners.AddOnListener.HandleApplyAddon` and `LegacyAddOnListeners.HandleApplyAddon`: the hands are a value. The source changes the target stack's meta in place through the reference it fetched. The model writes the rewritten stack back into that hand, so aliasing between the fetched stack and the inventory slot is not modelled.
- `ArmorEquipListeners.ChaseTick`: the cow's contact damage and knockback to the player are left out with its movement. Only the task's lifetime and its stop conditions are modelled.

## Findings

| source | as written | input that shows it | evidently intended | confidence | as-written member | corrected member |
|---|---|---|---|---|---|---|
| src/main/java/com/orangeslices/bossencounters/raffle/listeners/ArmorEquipListener.java:333-334 | a piece made only of colons splits into an empty array, so reading its id throws an index error and no effect of the item fires | the stored list ":" | a piece without an id is skipped, as the empty-id check on the next line does | not executed | ArmorEffectCodec.ColonPieceCrashes | ArmorEffectCodec.DecodeEffects |
| src/main/java/com/orangeslices/bossencounters/raffle/RaffleApplyListener.java:155-167 | consumeOne fetches both hands again and consumes only from a hand whose new stack object is the very token reference (`isSameItemRef` is `a == b`); when the server returns a new wrapper object on each fetch, neither test holds and the token is never used up | a successful apply on a server whose hand getters build a new wrapper per call, as CraftBukkit's item mirrors do | the token's own hand loses one item | not executed | RaffleApplyListeners.FreshWrappersKeepToken | Inventories.ConsumedFromHand |
