/** The records the two game actions read and write, the ledger view over
    them, the execution context, and the deterministic random source. Only the
    parts of the agent, avatar and crafting-slot records that the actions
    inspect or change are kept. */
module GameStates {
  import opened Base
  import opened Addresses
  import opened Values
  import opened Ledger

  /** `AgentState`: the signer's avatars by slot index, the options it has
      unlocked, and its monster-collection round. */
  datatype Agent = Agent(
    address: Address,
    avatarAddresses: map<int, Address>,
    unlockedOptions: set<int>,
    monsterCollectionRound: int)

  /** `new AgentState(address)`. */
  function NewAgent(address: Address): Agent
  {
    Agent(address, map[], {}, 0)
  }

  datatype StatBonus = StatBonus(statType: int, value: int)

  datatype SkillGrant = SkillGrant(skillId: int, damage: int, chance: int)

  datatype Equipment = Equipment(
    itemId: int,
    equipmentId: int,
    requiredBlockIndex: int,
    stats: seq<StatBonus>,
    skills: seq<SkillGrant>)

  /** `CombinationConsumable.ResultModel` of a crafting run. */
  datatype CraftResult = CraftResult(
    actionPoint: int,
    gold: int,
    materials: map<int, int>,
    equipment: Equipment,
    recipeId: int,
    subRecipeId: Option<int>,
    mailId: int)

  /** `AvatarState`, reduced to what the actions use: action points, the
      material counts of the inventory (by material item id), the cosmetic
      parameters, the crafting-slot addresses and the mailbox. */
  datatype Avatar = Avatar(
    address: Address,
    agentAddress: Address,
    name: string,
    actionPoint: int,
    materials: multiset<int>,
    hair: int,
    lens: int,
    ear: int,
    tail: int,
    combinationSlotAddresses: seq<Address>,
    rankingMapAddress: Address,
    mails: seq<CraftResult>)

  /** `CombinationSlotState`. */
  datatype CombinationSlot = CombinationSlot(
    address: Address,
    unlockStage: int,
    unlockBlockIndex: int,
    startBlockIndex: int,
    result: Option<CraftResult>)

  /** `RankingState`; its contents are handled by a collaborator only. */
  datatype Ranking = Ranking(contents: Value)

  /** What an address of the ledger may hold. `MarkChanged` is the
      placeholder a rehearsal writes. */
  datatype StateValue =
    | MarkChanged
    | AgentValue(agent: Agent)
    | AvatarValue(avatar: Avatar)
    | SlotValue(slot: CombinationSlot)
    | RankingValue(ranking: Ranking)
    | OtherValue(value: Value)

  type World = View<StateValue>

  /** `GetAgentState`: absent, or present but not an agent, reads as none. */
  function GetAgentState(w: World, a: Address): (r: Option<Agent>)
    ensures r.Some? <==> a in w.states && w.states[a].AgentValue?
  {
    if a in w.states && w.states[a].AgentValue? then Some(w.states[a].agent) else None
  }

  function GetAvatarState(w: World, a: Address): (r: Option<Avatar>)
    ensures r.Some? <==> a in w.states && w.states[a].AvatarValue?
  {
    if a in w.states && w.states[a].AvatarValue? then Some(w.states[a].avatar) else None
  }

  function GetSlotState(w: World, a: Address): (r: Option<CombinationSlot>)
    ensures r.Some? <==> a in w.states && w.states[a].SlotValue?
  {
    if a in w.states && w.states[a].SlotValue? then Some(w.states[a].slot) else None
  }

  function GetRankingState(w: World): (r: Option<Ranking>)
    ensures r.Some? <==> RankingAddress in w.states && w.states[RankingAddress].RankingValue?
  {
    if RankingAddress in w.states && w.states[RankingAddress].RankingValue? then Some(w.states[RankingAddress].ranking) else None
  }

  /** The transaction's seeded random source: a fixed stream of draws and the
      position of the next one. Its distribution is not modelled. */
  datatype Random = Random(draws: nat -> int, position: nat)

  /** `random.Next(low, high)`: a draw in `[low, high)` when that range is not
      empty, and `low` when `low == high`. For `low > high` .NET throws; this
      model returns `low` there as well. */
  function Next(r: Random, low: int, high: int): (p: (int, Random))
    ensures low < high ==> low <= p.0 < high
    ensures p.1 == r.(position := r.position + 1)
  {
    var value := if low < high then low + r.draws(r.position) % (high - low) else low;
    (value, r.(position := r.position + 1))
  }

  /** `random.GenerateRandomGuid()`, as an integer identifier. */
  function NextGuid(r: Random): (p: (int, Random))
    ensures p.1 == r.(position := r.position + 1)
  {
    (r.draws(r.position), r.(position := r.position + 1))
  }

  /** The execution context of one action invocation. */
  datatype Context = Context(
    previousStates: World,
    signer: Address,
    miner: Address,
    blockIndex: Int64,
    random: Random,
    rehearsal: bool)

  /** An option row offered to the weighted selector, with its weight. */
  datatype OptionRow = OptionRow(
    id: int,
    statType: int,
    statMin: int,
    statMax: int,
    skillId: int,
    skillDamageMin: int,
    skillDamageMax: int,
    skillChanceMin: int,
    skillChanceMax: int)

  datatype WeightedOption = WeightedOption(row: OptionRow, ratio: int)

  /** What `WeightedSelector.SelectV3` does with the offered rows: it throws
      (no rows, or an invalid count), or it picks some of them, given as a
      mask over the offered list. */
  datatype Selection =
    | SelectorFailed(after: Random)
    | Selected(mask: seq<bool>, after: Random)

  /** Code the actions call whose text is not part of this model. */
  datatype Collaborators = Collaborators(
    goldCurrency: Currency,                                   // GetGoldCurrency()
    goldCurrencyMock: Currency,                               // GoldCurrencyMock
    nicknameMatches: string -> bool,                          // Regex.IsMatch(name, AvatarNickNamePattern)
    stageCleared: (Avatar, int) -> bool,                      // worldInformation.IsStageCleared(stage)
    slotUsable: (CombinationSlot, Avatar, int) -> bool,       // CombinationSlotState.Validate
    selectOptions: (Random, seq<WeightedOption>, int) -> Selection,   // SelectV3(limit)
    updateRankingMap: (Ranking, Address) -> (Ranking, Address),      // UpdateRankingMap(avatar)
    actionPointMax: int,                                      // new avatar's action points
    combinationUnlockStage: int)                              // RequireClearedStageLevel.CombinationEquipmentAction
}
