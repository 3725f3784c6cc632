# lib9c action core in Dafny

This project models three pieces of the Nine Chronicles game logic (lib9c):

- **The monster-collection commitment record** (`MonsterCollectionState`). A signer stakes at a level for 160 000 blocks. The record unlocks a reward list at each of four tiers, one tier every 40 000 blocks, and records which tiers were claimed. The model covers:
  - the record's derived address;
  - its constructor;
  - the tier arithmetic (`GetRewardLevel`, `CanReceive`);
  - the claim transition (`UpdateRewardMap`);
  - the level upgrade (`Update`);
  - equality;
  - the dictionary codec in both directions.
- **The `combination_equipment4` action.** It crafts an equipment item in one of an avatar's crafting slots, from a recipe and an optional sub-recipe. It then rolls random options for the item and charges gold and action points.
- **The `create_avatar` action.** It registers a new avatar under one of the signer's three avatar indices. It also creates the avatar's four crafting slots, updates the ranking, and pays the block's miner starting gold.

Each action is a pure function from an execution context (the prior ledger view, the signer, the miner, the block index, the random stream and the rehearsal flag) to either an error or a new ledger view. It has two paths:

- The *rehearsal* path predicts which addresses the action touches, without reading anything.
- The *real* path validates, computes and writes.

Exceptions become `Err` values. Because a failed action keeps the previous view, an error leaves the ledger as it was.

Modules, one per component:

| module | file | contents |
|---|---|---|
| `Base` | base.dfy | error kinds, `Result`/`Option`, 32- and 64-bit integer ranges, `long` wrap-around |
| `Addresses` | addresses.dfy | addresses as a free term algebra (`Derived(parent, salt)`), invariant-culture decimal formatting and its injectivity, crafting-slot addresses |
| `Sorting` | sorting.dfy | the stable sort behind LINQ `OrderBy` |
| `Values` | values.dfy | the Bencodex value tree and its typed readers |
| `Ledger` | ledger.dfy | the account-state delta: states, balances, updated-address sets, transfers, conservation of supply |
| `GameStates` | game_states.dfy | agent, avatar, crafting-slot and ranking records, the random stream, the execution context and the collaborators |
| `MonsterCollection` | monster_collection.dfy | `MonsterCollectionState.cs` |
| `CombinationEquipment4` | combination_equipment.dfy | `CombinationEquipment4.cs` |
| `CreateAvatar` | create_avatar.dfy | `CreateAvatar.cs` |

### What the model takes as parameters

The actions call code whose text is not part of this model. That code enters as fields of the `Collaborators` record:

- the nickname pattern match;
- `IsStageCleared`;
- `CombinationSlotState.Validate`;
- the weighted selector's `SelectV3`;
- `RankingState.UpdateRankingMap`;
- the gold currency and the mock currency;
- the new avatar's action points;
- the stage that unlocks crafting.

The selector returns either "threw" or a mask over the offered rows. It can therefore only pick rows that were offered, and never the same one twice.

The transaction's random source is a fixed stream of draws with a position. `Next(low, high)` lands in `[low, high)` when `low < high` and returns `low` when `low == high`. Its distribution is not modelled. Where `low > high`, .NET throws but the model returns `low` (see `CombinationEquipment4.ApplyOption` under "## Left out").

The reference tables (recipe, sub-recipe, material, equipment, option and skill sheets) are maps passed in as `Tables`.

## Model

| member | source | states |
|---|---|---|
| `Addresses.FormatIntInjective` | Lib9c/Model/State/MonsterCollectionState.cs:18-24 | two integers formatted with the invariant culture give the same text only when they are equal, so salts built from distinct numbers differ |
| `Addresses.SlotAddressInjective` | Lib9c/Action/CombinationEquipment4.cs:37-43 | a crafting-slot address determines both the avatar address and the slot index it was derived from |
| `Sorting.SortBy` | Lib9c/Model/State/MonsterCollectionState.cs:76 | the result is a permutation of the input (same multiset) and is in ascending key order |
| `Sorting.SortByOfSorted` | Lib9c/Model/State/MonsterCollectionState.cs:76 | sorting a list already in key order returns it unchanged (stability) |
| `Sorting.InsertWithKey` | Lib9c/Model/State/MonsterCollectionState.cs:76 | inserting an element never moves it past another element of the same key |
| `Sorting.SortByStable` | Lib9c/Model/State/MonsterCollectionState.cs:76 | for every key, the elements carrying it keep their input order in the result, as LINQ `OrderBy` promises |
| `MonsterCollection.DeriveAddress` | Lib9c/Model/State/MonsterCollectionState.cs:16-25 | the record's address is derived from the signer's address and differs from it |
| `MonsterCollection.DeriveAddressInjective` | Lib9c/Model/State/MonsterCollectionState.cs:16-27 | two records share an address exactly when the signer and the round are the same |
| `MonsterCollection.New` | Lib9c/Model/State/MonsterCollectionState.cs:41-56 | fails with a missing-key error exactly when the level has no sheet row; otherwise: started at the block, expiry 160 000 blocks later (wrapped as a `long`), nothing claimed, not ended, the level's rewards at exactly tiers 1-4 |
| `MonsterCollection.FourTiersDense` | Lib9c/Model/State/MonsterCollectionState.cs:49-55 | every record the constructor returns has tier keys exactly 1..Count, the shape `Update` requires |
| `MonsterCollection.GetRewardLevel` | Lib9c/Model/State/MonsterCollectionState.cs:110-114 | the tier is always between 0 and 4 |
| `MonsterCollection.RewardLevelByElapsedBlocks` | Lib9c/Model/State/MonsterCollectionState.cs:110-114 | on non-negative block indices the tier is 0 during the first interval and min(4, elapsed / 40000) from the start on |
| `MonsterCollection.RewardLevelMonotonic` | Lib9c/Model/State/MonsterCollectionState.cs:110-114 | a later block never yields a lower tier |
| `MonsterCollection.CanReceive` | Lib9c/Model/State/MonsterCollectionState.cs:116-119 | on non-negative block indices a claim is possible exactly when a full interval has passed since the later of the start and the last claim, and then at least tier 1 is unlocked |
| `MonsterCollection.CanReceiveAfterInterval` | Lib9c/Model/State/MonsterCollectionState.cs:116-119 | on non-negative block indices a claim is possible exactly when a full interval has passed since the later of the start and the last claim |
| `MonsterCollection.UpdateRewardMap` | Lib9c/Model/State/MonsterCollectionState.cs:91-108 | a tier outside 0..4 is refused with the range error and a claimed tier with already-received, each if and only if; a success adds exactly that tier's result, sets the last tier and claim block, ends exactly at tier 4, and changes nothing else |
| `MonsterCollection.ClaimTwiceRejected` | Lib9c/Model/State/MonsterCollectionState.cs:99-104 | after a successful claim, claiming the same tier again is refused whatever the result and block |
| `MonsterCollection.ClaimRestartsInterval` | Lib9c/Model/State/MonsterCollectionState.cs:104-119 | after a claim at block b no claim is possible before b + 40000 |
| `MonsterCollection.ClaimingAllTiersEnds` | Lib9c/Model/State/MonsterCollectionState.cs:91-108 | claiming tiers 1, 2, 3, 4 in turn from a fresh record succeeds every time and ends the commitment with all four tiers claimed |
| `MonsterCollection.Update` | Lib9c/Model/State/MonsterCollectionState.cs:81-89 | fails exactly when the level has no sheet row; otherwise sets the level, gives every tier above the given one the new level's rewards, keeps the tiers up to it, keeps the key set, and changes nothing else |
| `MonsterCollection.SameRecord` | Lib9c/Model/State/MonsterCollectionState.cs:152-160 | two records are equal exactly when they agree on everything but the address |
| `MonsterCollection.DeserializeRewardInfos` | Lib9c/Model/State/MonsterCollectionState.cs:75 | a list decodes exactly when every element decodes, element by element, in order |
| `MonsterCollection.Deserialize` | Lib9c/Model/State/MonsterCollectionState.cs:58-79 | every decoded tier list is in item-id order; a non-dictionary, or one without the level field, is refused |
| `MonsterCollection.MissingFieldRefused` | Lib9c/Model/State/MonsterCollectionState.cs:58-79 | a dictionary missing any one of the nine record fields is refused |
| `MonsterCollection.RewardInfosRoundTrip` | Lib9c/Model/State/MonsterCollectionState.cs:144 | decoding an encoded reward list gives it back |
| `MonsterCollection.RewardMapRoundTrip` | Lib9c/Model/State/MonsterCollectionState.cs:131-138 | decoding the encoded claimed-tier map gives it back |
| `MonsterCollection.RewardLevelMapRoundTrip` | Lib9c/Model/State/MonsterCollectionState.cs:140-147 | decoding the encoded tier map gives it back when each list is in item-id order |
| `MonsterCollection.Serialize` | Lib9c/Model/State/MonsterCollectionState.cs:121-150 | the record is written as a dictionary holding all nine record fields |
| `MonsterCollection.SerializeRoundTrip` | Lib9c/Model/State/MonsterCollectionState.cs:121-150 | decoding the serialised record gives the record back, for records whose tier lists are in item-id order |
| `CombinationEquipment4.Rehearsal` | Lib9c/Action/CombinationEquipment4.cs:44-51 | marks exactly the avatar, slot and signer addresses as changed, leaves every other state and every amount alone, and marks the signer's and the blacksmith's balances |
| `CombinationEquipment4.PrepareCheckOrder` | Lib9c/Action/CombinationEquipment4.cs:55-89 | a missing agent or avatar, a missing slot, an unusable slot and an unknown recipe are refused in that order, each with its own error |
| `CombinationEquipment4.PrepareMainCheckOrder` | Lib9c/Action/CombinationEquipment4.cs:103-141 | once the early checks pass: an uncleared stage, an unknown material row, a shortage of the recipe's material and an unknown equipment row are refused in that order, each with its own error |
| `CombinationEquipment4.PrepareSubRecipeCheckOrder` | Lib9c/Action/CombinationEquipment4.cs:150-193 | once those pass: without a sub-recipe preparation succeeds; an unknown sub-recipe row is refused; otherwise the sub-recipe's material consumption decides, and on success the avatar has lost exactly the recipe's material and the sub-recipe's materials |
| `CombinationEquipment4.UnlistedSubRecipeRejected` | Lib9c/Action/CombinationEquipment4.cs:91-101 | a sub-recipe the recipe does not list is refused right after the recipe lookup, before the stage check and whatever the inventory holds |
| `CombinationEquipment4.RemoveMaterial` | Lib9c/Action/CombinationEquipment4.cs:119-126 | succeeds exactly when enough of the material is held, removing exactly that many and nothing else |
| `CombinationEquipment4.ConsumeSubMaterials` | Lib9c/Action/CombinationEquipment4.cs:167-188 | succeeds exactly when every listed material has a row and the inventory holds all the requested items together; then exactly those items are removed and every material is recorded; an unknown first material is refused with its id, and a shortage with `NotEnoughMaterial` |
| `CombinationEquipment4.ConsumeFirstFailure` | Lib9c/Action/CombinationEquipment4.cs:167-188 | the first failing material in list order decides the error: when every earlier material is known and held, an unknown material at position j is refused with its own id, and a shortage among the first j materials is refused with `NotEnoughMaterial` |
| `CombinationEquipment4.ConsumeRecordsKeys` | Lib9c/Action/CombinationEquipment4.cs:186-187 | on success the recorded materials are the earlier ones plus exactly the listed material ids, and earlier counts of ids the list does not name are kept |
| `CombinationEquipment4.ConsumeRecordsCounts` | Lib9c/Action/CombinationEquipment4.cs:186-187 | on success each listed material id records the count of its last entry in the list, as the repeated dictionary assignment leaves it |
| `CombinationEquipment4.RecordedKeys` | Lib9c/Action/CombinationEquipment4.cs:167-188 | the loop's dictionary writes leave exactly the earlier keys and the listed ids, and keep every earlier count the list does not overwrite |
| `CombinationEquipment4.RecordedCountAt` | Lib9c/Action/CombinationEquipment4.cs:167-188 | the entry at position k, when no later entry has its id, has its count recorded |
| `CombinationEquipment4.RemoveInTurn` | Lib9c/Action/CombinationEquipment4.cs:167-188 | removing one material and then the rest succeeds exactly when removing them all at once does, and leaves the same inventory |
| `CombinationEquipment4.Prepare` | Lib9c/Action/CombinationEquipment4.cs:53-193 | on success the agent and slot are the records loaded from the prior view and the avatar is the loaded one apart from its materials; the recipe and sub-recipe are the requested, listed ones; the gold, action-point and block-index costs are the recipe's plus the sub-recipe's; the equipment is the recipe's result, due at that block; options are selected exactly when a sub-recipe is given, as the applied rows of the selection drawn after the item's id |
| `CombinationEquipment4.BasePlan` | Lib9c/Action/CombinationEquipment4.cs:53-148 | the checks up to the item's creation: on success the agent, avatar and slot are the loaded records, the recipe is the requested one, a given sub-recipe is listed by it, the costs are the recipe's, and the new equipment is the recipe's result with no options yet |
| `CombinationEquipment4.WithSubRecipe` | Lib9c/Action/CombinationEquipment4.cs:150-193 | an unknown sub-recipe is refused with its id; otherwise the sub-materials' consumption decides; on success the costs grow by the sub-recipe's, only the avatar's materials change, the equipment keeps its identity and due block, and the option ids are those of the applied rows, all offerable |
| `CombinationEquipment4.OfferedOptions` | Lib9c/Action/CombinationEquipment4.cs:313-321 | every option the sub-recipe lists and the option sheet holds is offered, as that sheet row with the listed ratio, and nothing else is offered |
| `CombinationEquipment4.ChosenWithin` | Lib9c/Action/CombinationEquipment4.cs:323-338 | the selector's picks are among the offered rows |
| `CombinationEquipment4.AppliedRows` | Lib9c/Action/CombinationEquipment4.cs:323-338 | when the selector throws no row is applied; otherwise the rows applied are exactly the selector's picks (the same multiset), reordered by ascending id, all offered ones |
| `CombinationEquipment4.ApplyOption` | Lib9c/Action/CombinationEquipment4.cs:278-299 | a stat row appends one stat of the row's type, rolled within its closed range when that range is not empty; a known skill row appends one grant of the row's skill, with damage and chance within their ranges, and keeps the stats; an unknown skill changes nothing and draws nothing |
| `CombinationEquipment4.ApplyOptionExtends` | Lib9c/Action/CombinationEquipment4.cs:338-353 | one applied row extends the equipment's stat types and skill ids by exactly that row's contribution |
| `CombinationEquipment4.ApplyOptions` | Lib9c/Action/CombinationEquipment4.cs:338-356 | the collected ids are exactly the applied rows' ids; existing stats and skills stay as a prefix; after them come the types of the stat rows and the skills of the known-skill rows, in row order |
| `CombinationEquipment4.OfferableAreListed` | Lib9c/Action/CombinationEquipment4.cs:313-321 | in an option table whose rows sit under their own ids, every offerable id is one the sub-recipe lists |
| `CombinationEquipment4.SelectOption` | Lib9c/Action/CombinationEquipment4.cs:301-359 | the returned ids are the ids of the applied rows and come from the offered options, hence from the sub-recipe's listed ids when the table is keyed by row id; the equipment gains the stat types and known skills of the applied rows in ascending id order (`AppliedRows` is sorted by id); when the selector throws, no id is returned and the equipment is unchanged |
| `CombinationEquipment4.Settle` | Lib9c/Action/CombinationEquipment4.cs:195-257 | refuses with insufficient balance exactly when the signer holds less than the price, then with not-enough-action-point exactly when the avatar has fewer points than required, and succeeds otherwise |
| `CombinationEquipment4.SettleEffects` | Lib9c/Action/CombinationEquipment4.cs:217-257 | on success the avatar loses exactly the required action points, the agent gains exactly the selected options, and gold moves from signer to blacksmith by exactly the price and only when it is positive; no other balance changes, and exactly the avatar, slot and signer are written |
| `CombinationEquipment4.SettleConservesGold` | Lib9c/Action/CombinationEquipment4.cs:226-234 | crafting creates and destroys no gold: the total over any set of addresses containing the signer and the blacksmith is unchanged |
| `CombinationEquipment4.Execute` | Lib9c/Action/CombinationEquipment4.cs:33-257 | the rehearsal never fails; on success exactly the avatar, slot and signer join the updated addresses, and every other state is the prior one |
| `CombinationEquipment4.ExecuteEffects` | Lib9c/Action/CombinationEquipment4.cs:53-257 | on success, measured against the prior view: the avatar's action points are the prior ones minus the recipe's and sub-recipe's requirement, the agent's unlocked options are the prior ones plus the ids of the applied option rows, and gold moves from signer to blacksmith by exactly the summed price, only when it is positive |
| `CombinationEquipment4.RealWithinRehearsal` | Lib9c/Action/CombinationEquipment4.cs:44-51 | the real path writes exactly the states the rehearsal marks, and every address it touches is one the rehearsal reports |
| `CombinationEquipment4.PlainValue` | Lib9c/Action/CombinationEquipment4.cs:260-267 | the plain value has exactly the four parameter fields, and the sub-recipe field is null exactly when no sub-recipe is given |
| `CombinationEquipment4.LoadPlainValue` | Lib9c/Action/CombinationEquipment4.cs:269-276 | a load succeeds only with all four fields present and returns the address, the numbers and the nullable sub-recipe id they hold |
| `CombinationEquipment4.PlainValueRoundTrip` | Lib9c/Action/CombinationEquipment4.cs:260-276 | loading the plain value gives back the parameters, a missing sub-recipe included |
| `CreateAvatar.SlotAddressesDistinct` | Lib9c/Action/CreateAvatar.cs:62-72 | the four crafting-slot addresses are pairwise distinct and differ from the avatar's address |
| `CreateAvatar.SetEach` | Lib9c/Action/CreateAvatar.cs:137-142 | every listed address holds its value afterwards, every other address is untouched, and exactly the listed addresses join the updated set |
| `CreateAvatar.MarkWrites` | Lib9c/Action/CreateAvatar.cs:61-77 | marks exactly the signer, the four slots, the avatar and the ranking as changed, leaves every other address and every amount alone, and marks the given holders' balances in the mock currency |
| `CreateAvatar.MarkWritesUpdatedAddresses` | Lib9c/Action/CreateAvatar.cs:74-77 | the addresses the marks report are the earlier ones, the written ones and the balance holders |
| `CreateAvatar.Rehearsal` | Lib9c/Action/CreateAvatar.cs:59-78 | marks exactly the signer, the four slots, the avatar and the ranking as changed, leaves every amount alone, and reports the treasury and the signer as its only other addresses |
| `CreateAvatar.ClampCosmetic` | Lib9c/Action/CreateAvatar.cs:130-133 | a negative index becomes zero and any other is kept |
| `CreateAvatar.ClampCosmeticIsMax` | Lib9c/Action/CreateAvatar.cs:130-133 | clamping is the larger of the index and zero, and clamping twice is clamping once |
| `CreateAvatar.AgentOrNew` | Lib9c/Action/CreateAvatar.cs:92-93 | the signer's existing agent, or a fresh agent with no avatars |
| `CreateAvatar.Admit` | Lib9c/Action/CreateAvatar.cs:82-128 | a bad name, an occupied avatar address, an index outside 0..2 and a used index are refused in that order; success holds exactly when all pass, the ranking exists and the treasury can pay the miner; on success the agent's map gains the new index and the miner is paid 999 999 999 gold from the treasury |
| `CreateAvatar.Commit` | Lib9c/Action/CreateAvatar.cs:137-153 | writes exactly the signer, the slots, the ranking and the avatar, leaves the balances alone, and stores the new avatar, the registered agent and a fresh slot record at each slot not overwritten by a later write |
| `CreateAvatar.Create` | Lib9c/Action/CreateAvatar.cs:82-153 | fails exactly when the admission checks fail, and otherwise writes exactly the addresses the rehearsal marks |
| `CreateAvatar.Execute` | Lib9c/Action/CreateAvatar.cs:55-154 | the rehearsal never fails; the real path fails exactly when the admission checks fail; on success exactly the signer, the four slots, the avatar and the ranking join the updated addresses |
| `CreateAvatar.NewAvatar` | Lib9c/Action/CreateAvatar.cs:156-173 | the new avatar carries the requested address and name and the signer, its cosmetic indices are the requested ones raised to zero, its four slot addresses are derived from its own address by index, and it starts with no materials and no mail |
| `CreateAvatar.AgentGainsOneAvatar` | Lib9c/Action/CreateAvatar.cs:107-119 | on success the agent gains exactly one registration, the new avatar at the requested index, and keeps every other one |
| `CreateAvatar.AvatarAsRequested` | Lib9c/Action/CreateAvatar.cs:128-173 | the stored avatar has the requested name and signer, the cosmetic indices raised to zero when negative and kept otherwise, and the four slot addresses derived from its own address (see `CreateAvatar.NewAvatar` under "## Left out") |
| `CreateAvatar.SlotsInitialised` | Lib9c/Action/CreateAvatar.cs:137-142 | each of the four slots holds a fresh, empty slot record that unlocks at the crafting stage |
| `CreateAvatar.StatesWithinRehearsal` | Lib9c/Action/CreateAvatar.cs:137-153 | the real path writes exactly the states the rehearsal marks |
| `CreateAvatar.RealBalanceChanges` | Lib9c/Action/CreateAvatar.cs:195-201 | the real path touches exactly the treasury's and the miner's balances, and a miner other than the treasury gains exactly 999 999 999 gold |
| `CreateAvatar.RehearsalMissesMiner` | Lib9c/Action/CreateAvatar.cs:74-77 | a miner that is an ordinary account, distinct from the signer and untouched before, is touched by the real path but not reported by the rehearsal |
| `CreateAvatar.AccountNotPredicted` | Lib9c/Action/CreateAvatar.cs:59-78 | the rehearsal does not report an ordinary account other than the signer, the treasury and the ranking |
| `CreateAvatar.CorrectedRehearsal` | Lib9c/Action/CreateAvatar.cs:59-78 | the rehearsal with the treasury's and the miner's balances marked |
| `CreateAvatar.CorrectedRehearsalCovers` | Lib9c/Action/CreateAvatar.cs:195-201 | with the miner marked, every address the real path touches is reported by the rehearsal |
| `CreateAvatar.PlainValue` | Lib9c/Action/CreateAvatar.cs:33-42 | the plain value has exactly the seven parameter fields, the name as text and the address and index in their own encodings |
| `CreateAvatar.LoadPlainValue` | Lib9c/Action/CreateAvatar.cs:44-53 | a load succeeds only with all seven fields present and returns the address, the index, the four cosmetic indices and the name they hold; a non-text name is refused |
| `CreateAvatar.PlainValueRoundTrip` | Lib9c/Action/CreateAvatar.cs:33-53 | loading the plain value gives back all seven parameters |

## Left out

- Logging, stopwatches and exception messages are not modelled. Only the kind of each exception is kept.
- The text of the nickname regular expression, `IsStageCleared`, `CombinationSlotState.Validate`, `SelectV3` and `UpdateRankingMap` is not part of this model. They are parameters.
- The distribution of random draws and of the weighted selection is not modelled. Only the range of each draw and the order in which draws are taken are.
- Sheet loading and parsing are not modelled. The tables are maps, and only the columns the actions read are kept.
- Bencodex byte encoding is not modelled. Values are a tree.
- `long.Serialize` writes a `long` as text. The model writes it as an integer, so the text round trip of `long` is not modelled.
- Every decode failure (missing key, wrong type, out-of-range integer) is the single error `DecodeError`.
- `GetHashCode` is left out. It is not part of any transition.
- `MonsterCollection.SameRecord` compares maps and lists by value. The source's `SequenceEqual` over dictionaries also depends on enumeration order, and over lists it compares by reference. That part is not modelled.
- The `SerializeKeys` field names and the text of `CombinationSlotState.DeriveFormat` are not part of this model. The model uses fixed, pairwise distinct placeholders.
- The constants `GameConfig.SlotCount` (3) and `AvatarState.CombinationSlotCapacity` (4) are not modelled. They are fixed at those values here.
- `MonsterCollection.Update`: requires a non-negative tier and tier keys exactly 1..Count. The source loop re-reads `Count` on every pass, so it may not terminate. For example, a negative tier writes key 0, and the passes up to the old `Count` only overwrite keys 1..Count. Once `i` reaches `Count`, each pass adds a key, so the loop never ends. The dense-keys requirement is stronger than termination needs: keys {1, 2, 3, 5} with tier 0 also stop. It holds for every record the constructor creates (`MonsterCollection.FourTiersDense`). The source also assigns `Level` before the sheet lookup. That is invisible once the lookup throws and the action aborts.
- `MonsterCollection.New`: the sheet indexer's missing-row exception is modelled as `KeyNotFound`.
- `CombinationEquipment4.Prepare`: models the ownership check inside `TryGetAgentAvatarStates` (the agent lists the avatar) only as "both records exist". The text of that extension method is not part of this model.
- `CombinationEquipment4.RemoveMaterial`: `Inventory.RemoveMaterial` is not part of this model. It is taken to succeed exactly when at least the requested count is held. The recipe's material count and each sub-recipe material's count are typed `nat`, while the sheets hold a C# `int`: a negative count in a sheet is not representable in this model.
- `CombinationEquipment4.ApplyOption`: a stat option is recorded as an appended (type, value) pair rather than merged into the stat map's additional values.
- `CombinationEquipment4.ApplyOption`: does not model the `ArgumentOutOfRangeException` of `random.Next` for an empty range (`StatMin > StatMax + 1`, or the same for a skill's damage or chance). `GetSkill` catches only `InvalidOperationException`, so in the source that aborts the whole action. The model instead rolls `low` and goes on crafting. The same holds when `StatMax`, `SkillDamageMax` or `SkillChanceMax` is `int.MaxValue`: the source's unchecked `+ 1` wraps to `int.MinValue`, so `random.Next` throws. The model adds 1 without bound and rolls a value. Option sheets whose ranges are in order and below `int.MaxValue` reach neither case.
- `CombinationEquipment4.SelectOption`: only the selector's `InvalidCountException` and `ListEmptyException` are modelled, as "threw". Other exceptions propagate in the source and are not modelled.
- Quest, mail-box capacity and item-counter updates (`UpdateV3`, `questList`, `UpdateFromCombination`, `UpdateQuestRewards`) are not modelled. The mail is appended to the avatar's mails.
- `CombinationEquipment4.Settle`: block indices and action points are unbounded integers. The source's `long` and `int` overflow on absurd sheet values is not modelled.
- `CreateAvatar.NewAvatar`: the `AvatarState` constructor (CreateAvatar.cs:165-173) is not modelled. It is taken to fill `combinationSlotAddresses` with slot i derived as `avatarAddress.Derive(DeriveFormat(i))` for i in 0..3. That is the derivation the rehearsal spells out at lines 62-72. `CreateAvatar.StatesWithinRehearsal` and `CreateAvatar.SlotsInitialised` rest on this.
- `CreateAvatar.AvatarAsRequested`: the avatar's level, world information and `AddItemsForTest` inventory are not modelled. The model's new avatar starts with no materials.
- `CreateAvatar.Admit`: a missing ranking record surfaces as a null-reference failure (`NullReference`). Missing game-config or sheet records are not modelled.
- The stake, claim and cancel actions that drive `MonsterCollectionState`, and the miner loop (`Miner.cs`), are not part of this model.

## Findings

| source | as written | input that shows it | evidently intended | confidence | as-written member | corrected member |
|---|---|---|---|---|---|---|
| Lib9c/Action/CreateAvatar.cs:77 | the rehearsal marks the balances of the gold treasury and of the signer, but the real path (lines 197-201) transfers from the treasury to the miner | any successful creation whose miner is an ordinary account distinct from the signer and not touched before the action: the miner's balance changes but the rehearsal does not report the miner | mark the balances of the treasury and of the miner | medium; not executed | `CreateAvatar.RehearsalMissesMiner` | `CreateAvatar.CorrectedRehearsalCovers` |

`CreateAvatar.Execute` keeps the rehearsal as written. `CreateAvatar.CorrectedRehearsal` is the corrected one, and `CreateAvatar.CorrectedRehearsalCovers` proves it reports every address the real path touches.
