/** The `create_avatar` action: registers a new avatar for the signer in one of
    its avatar slots, writes the avatar with its crafting slots, updates the
    ranking, and pays the block's miner starting gold from the gold treasury.
    The rehearsal path writes placeholders without reading anything. */
module CreateAvatar {
  import opened Base
  import opened Addresses
  import opened Values
  import opened Ledger
  import opened GameStates

  /** `GameConfig.SlotCount`: avatar slots per agent. */
  const SlotCount: int := 3

  /** `AvatarState.CombinationSlotCapacity`: crafting slots per avatar. */
  const CombinationSlotCapacity: nat := 4

  /** Whole units of gold moved to the miner. */
  const StartingGold: int := 999999999

  datatype Parameters = Parameters(
    avatarAddress: Address,
    index: Int32,
    hair: Int32,
    lens: Int32,
    ear: Int32,
    tail: Int32,
    name: string)

  /** The addresses of an avatar's crafting slots, by slot index. */
  function SlotAddresses(avatarAddress: Address): (r: seq<Address>)
    ensures |r| == CombinationSlotCapacity
  {
    seq(CombinationSlotCapacity, i => SlotAddress(avatarAddress, i))
  }

  /** The crafting slots of one avatar are pairwise distinct, and none is the
      avatar's own address. */
  lemma SlotAddressesDistinct(avatarAddress: Address)
    ensures forall i, j :: 0 <= i < j < CombinationSlotCapacity ==>
      SlotAddresses(avatarAddress)[i] != SlotAddresses(avatarAddress)[j]
    ensures avatarAddress !in SlotAddresses(avatarAddress)
  {
    forall i, j | 0 <= i < j < CombinationSlotCapacity
      ensures SlotAddresses(avatarAddress)[i] != SlotAddresses(avatarAddress)[j]
    {
      SlotAddressInjective(avatarAddress, i, avatarAddress, j);
    }
  }

  /** Writes `value(a)` at each address `a` in turn. */
  function SetEach(w: World, addresses: seq<Address>, value: Address -> StateValue): (r: World)
    ensures r.updatedStates == w.updatedStates + set a | a in addresses
    ensures r.balances == w.balances && r.updatedBalances == w.updatedBalances
    ensures forall a :: a in addresses ==> GetState(r, a) == Some(value(a))
    ensures forall a :: a !in addresses ==> GetState(r, a) == GetState(w, a)
    decreases |addresses|
  {
    if addresses == [] then w
    else
      var r := SetEach(SetState(w, addresses[0], value(addresses[0])), addresses[1..], value);
      assert forall a :: a in addresses <==> a == addresses[0] || a in addresses[1..];
      r
  }

  /** The addresses the rehearsal writes, in its order: the signer, the
      crafting slots, the avatar and the ranking. */
  function RehearsalWrites(p: Parameters, signer: Address): seq<Address>
  {
    [signer] + SlotAddresses(p.avatarAddress) + [p.avatarAddress, RankingAddress]
  }

  /** The addresses both paths write. */
  function WrittenAddresses(p: Parameters, signer: Address): set<Address>
  {
    set a | a in RehearsalWrites(p, signer)
  }

  lemma WrittenAddressesSplit(p: Parameters, signer: Address)
    ensures WrittenAddresses(p, signer) ==
      (set a | a in SlotAddresses(p.avatarAddress)) + {signer} + {RankingAddress} + {p.avatarAddress}
  {
    var writes := RehearsalWrites(p, signer);
    forall a | a in writes
      ensures a in SlotAddresses(p.avatarAddress) || a in {signer, RankingAddress, p.avatarAddress}
    {
    }
  }

  /** Marks the written addresses as changed, then the balances of `holders`
      in the mock currency; nothing is read. */
  function MarkWrites(ctx: Context, p: Parameters, co: Collaborators, holders: set<Address>): (r: World)
    ensures r.updatedStates == ctx.previousStates.updatedStates + WrittenAddresses(p, ctx.signer)
    ensures forall a :: a in WrittenAddresses(p, ctx.signer) ==> GetState(r, a) == Some(MarkChanged)
    ensures forall a :: a !in WrittenAddresses(p, ctx.signer) ==> GetState(r, a) == GetState(ctx.previousStates, a)
    ensures r.balances == ctx.previousStates.balances
    ensures forall q :: q in r.updatedBalances <==>
      q in ctx.previousStates.updatedBalances || (q.1 == co.goldCurrencyMock && q.0 in holders)
  {
    var marked := SetEach(ctx.previousStates, RehearsalWrites(p, ctx.signer), _ => MarkChanged);
    MarkBalanceChanged(marked, co.goldCurrencyMock, holders)
  }

  /** Every address the marks report: the ones reported before, the written
      ones and the balance holders. */
  lemma MarkWritesUpdatedAddresses(ctx: Context, p: Parameters, co: Collaborators, holders: set<Address>)
    ensures UpdatedAddresses(MarkWrites(ctx, p, co, holders)) ==
      UpdatedAddresses(ctx.previousStates) + WrittenAddresses(p, ctx.signer) + holders
  {
    var r := MarkWrites(ctx, p, co, holders);
    var prev := ctx.previousStates;
    forall a | a in UpdatedAddresses(r)
      ensures a in UpdatedAddresses(prev) + WrittenAddresses(p, ctx.signer) + holders
    {
      if a !in r.updatedStates {
        var c :| (a, c) in r.updatedBalances;
      }
    }
    forall a | a in holders
      ensures a in UpdatedAddresses(r)
    {
      assert (a, co.goldCurrencyMock) in r.updatedBalances;
    }
    forall a | a in UpdatedAddresses(prev)
      ensures a in UpdatedAddresses(r)
    {
      if a !in prev.updatedStates {
        var c :| (a, c) in prev.updatedBalances;
        assert (a, c) in r.updatedBalances;
      }
    }
  }

  /** The rehearsal path: marks the written addresses and the balances of the
      gold treasury and of the signer. */
  function Rehearsal(ctx: Context, p: Parameters, co: Collaborators): (r: World)
    ensures r.updatedStates == ctx.previousStates.updatedStates + WrittenAddresses(p, ctx.signer)
    ensures forall a :: a in WrittenAddresses(p, ctx.signer) ==> GetState(r, a) == Some(MarkChanged)
    ensures forall a :: a !in WrittenAddresses(p, ctx.signer) ==> GetState(r, a) == GetState(ctx.previousStates, a)
    ensures r.balances == ctx.previousStates.balances
    ensures UpdatedAddresses(r) ==
      UpdatedAddresses(ctx.previousStates) + WrittenAddresses(p, ctx.signer) + {GoldCurrencyAddress, ctx.signer}
  {
    MarkWritesUpdatedAddresses(ctx, p, co, {GoldCurrencyAddress, ctx.signer});
    MarkWrites(ctx, p, co, {GoldCurrencyAddress, ctx.signer})
  }

  /** A negative cosmetic index becomes zero. */
  function ClampCosmetic(x: int): (r: int)
    ensures 0 <= r
    ensures 0 <= x ==> r == x
    ensures x < 0 ==> r == 0
  {
    if x < 0 then 0 else x
  }

  /** Clamping is the larger of the index and zero, so clamping twice is
      clamping once. */
  lemma ClampCosmeticIsMax(x: int)
    ensures ClampCosmetic(x) == Max(x, 0)
    ensures ClampCosmetic(ClampCosmetic(x)) == ClampCosmetic(x)
  {
  }

  /** `CombinationSlotState(address, unlockStage)`: an empty slot. */
  function NewSlot(address: Address, unlockStage: int): CombinationSlot
  {
    CombinationSlot(address, unlockStage, 0, 0, None)
  }

  /** The new avatar, with its crafting slots, its ranking-map address and
      the clamped cosmetic indices. */
  function NewAvatar(ctx: Context, p: Parameters, co: Collaborators, rankingMapAddress: Address): (r: Avatar)
    ensures r.address == p.avatarAddress && r.agentAddress == ctx.signer && r.name == p.name
    ensures r.hair == Max(p.hair, 0) && r.lens == Max(p.lens, 0) && r.ear == Max(p.ear, 0) && r.tail == Max(p.tail, 0)
    ensures |r.combinationSlotAddresses| == CombinationSlotCapacity
    ensures forall i :: 0 <= i < CombinationSlotCapacity ==> r.combinationSlotAddresses[i] == SlotAddress(p.avatarAddress, i)
    ensures r.materials == multiset{} && r.mails == []
  {
    Avatar(p.avatarAddress, ctx.signer, p.name, co.actionPointMax, multiset{},
           ClampCosmetic(p.hair), ClampCosmetic(p.lens), ClampCosmetic(p.ear), ClampCosmetic(p.tail),
           SlotAddresses(p.avatarAddress), rankingMapAddress, [])
  }

  /** The signer's agent, or a fresh one when it has none yet. */
  function AgentOrNew(w: World, signer: Address): (r: Agent)
    ensures GetAgentState(w, signer).Some? ==> r == GetAgentState(w, signer).value
    ensures GetAgentState(w, signer).None? ==> r.avatarAddresses == map[] && r.address == signer
  {
    match GetAgentState(w, signer)
    case Some(agent) => agent
    case None => NewAgent(signer)
  }

  /** What the real path has computed once every check has passed: the
      agent with the new registration, the updated ranking, the avatar's
      ranking-map address, and the ledger after the miner's payment. */
  datatype Admission = Admission(agent: Agent, ranking: Ranking, rankingMapAddress: Address, funded: World)

  /** The real path up to the writes: checks the name, that no avatar lives
      at the address, that the index is a slot index and that the agent's
      slot is free, in that order; then registers the avatar, updates the
      ranking (which must exist) and pays the miner from the treasury. */
  function Admit(ctx: Context, p: Parameters, co: Collaborators): (r: Result<Admission>)
    ensures
      var states := ctx.previousStates;
      var before := AgentOrNew(states, ctx.signer).avatarAddresses;
      && (!co.nicknameMatches(p.name) ==> r == Err(InvalidNamePattern))
      && (co.nicknameMatches(p.name) && GetAvatarState(states, p.avatarAddress).Some? ==> r == Err(InvalidAddress))
      && ((co.nicknameMatches(p.name) && GetAvatarState(states, p.avatarAddress).None? && !(0 <= p.index < SlotCount))
            ==> r == Err(AvatarIndexOutOfRange))
      && ((co.nicknameMatches(p.name) && GetAvatarState(states, p.avatarAddress).None? && 0 <= p.index < SlotCount
             && p.index in before)
            ==> r == Err(AvatarIndexAlreadyUsed))
      && (r.Ok? <==>
            && co.nicknameMatches(p.name)
            && GetAvatarState(states, p.avatarAddress).None?
            && 0 <= p.index < SlotCount
            && p.index !in before
            && GetRankingState(states).Some?
            && Units(co.goldCurrency, StartingGold) <= Balance(states, GoldCurrencyAddress, co.goldCurrency))
    ensures r.Ok? ==>
      var states := ctx.previousStates;
      var funded := r.value.funded;
      && r.value.agent.avatarAddresses == AgentOrNew(states, ctx.signer).avatarAddresses[p.index as int := p.avatarAddress]
      && funded.updatedStates == states.updatedStates
      && funded.updatedBalances == states.updatedBalances + {(GoldCurrencyAddress, co.goldCurrency), (ctx.miner, co.goldCurrency)}
      && (ctx.miner != GoldCurrencyAddress ==>
            && Balance(funded, ctx.miner, co.goldCurrency) ==
                 Balance(states, ctx.miner, co.goldCurrency) + Units(co.goldCurrency, StartingGold)
            && Balance(funded, GoldCurrencyAddress, co.goldCurrency) ==
                 Balance(states, GoldCurrencyAddress, co.goldCurrency) - Units(co.goldCurrency, StartingGold))
  {
    var _ :- Need(co.nicknameMatches(p.name), InvalidNamePattern);
    var states := ctx.previousStates;
    var agent := AgentOrNew(states, ctx.signer);
    var _ :- Need(GetAvatarState(states, p.avatarAddress).None?, InvalidAddress);
    var _ :- Need(0 <= p.index < SlotCount, AvatarIndexOutOfRange);
    var _ :- Need(p.index !in agent.avatarAddresses, AvatarIndexAlreadyUsed);
    var registered := agent.(avatarAddresses := agent.avatarAddresses[p.index as int := p.avatarAddress]);
    var ranking := GetRankingState(states);
    var _ :- Need(ranking.Some?, NullReference);
    var (ranking', rankingMapAddress) := co.updateRankingMap(ranking.value, p.avatarAddress);
    var funded :- Transfer(states, GoldCurrencyAddress, ctx.miner, co.goldCurrency, Units(co.goldCurrency, StartingGold));
    Ok(Admission(registered, ranking', rankingMapAddress, funded))
  }

  /** The writes of the real path: a fresh slot record at each crafting
      slot, then the agent, the ranking and the avatar. */
  function Commit(ctx: Context, p: Parameters, co: Collaborators, adm: Admission): (r: World)
    ensures r.updatedStates == adm.funded.updatedStates + WrittenAddresses(p, ctx.signer)
    ensures r.balances == adm.funded.balances && r.updatedBalances == adm.funded.updatedBalances
    ensures GetState(r, p.avatarAddress) == Some(AvatarValue(NewAvatar(ctx, p, co, adm.rankingMapAddress)))
    ensures ctx.signer != p.avatarAddress && ctx.signer != RankingAddress ==>
      GetState(r, ctx.signer) == Some(AgentValue(adm.agent))
    ensures forall i :: 0 <= i < CombinationSlotCapacity
                        && SlotAddress(p.avatarAddress, i) != ctx.signer && SlotAddress(p.avatarAddress, i) != RankingAddress ==>
      GetState(r, SlotAddress(p.avatarAddress, i)) ==
        Some(SlotValue(NewSlot(SlotAddress(p.avatarAddress, i), co.combinationUnlockStage)))
  {
    var avatar := NewAvatar(ctx, p, co, adm.rankingMapAddress);
    var value := (a: Address) => SlotValue(NewSlot(a, co.combinationUnlockStage));
    var slots := SetEach(adm.funded, avatar.combinationSlotAddresses, value);
    WrittenAddressesSplit(p, ctx.signer);
    assert forall i :: 0 <= i < CombinationSlotCapacity ==>
      SlotAddress(p.avatarAddress, i) == avatar.combinationSlotAddresses[i] &&
      GetState(slots, SlotAddress(p.avatarAddress, i)) == Some(value(SlotAddress(p.avatarAddress, i)));
    SetState(SetState(SetState(slots,
      ctx.signer, AgentValue(adm.agent)),
      RankingAddress, RankingValue(adm.ranking)),
      p.avatarAddress, AvatarValue(avatar))
  }

  /** The real path: admission, then the writes. It writes exactly the
      addresses the rehearsal marks. */
  function Create(ctx: Context, p: Parameters, co: Collaborators): (r: Result<World>)
    ensures r.Err? <==> Admit(ctx, p, co).Err?
    ensures r.Ok? ==> r.value.updatedStates == ctx.previousStates.updatedStates + WrittenAddresses(p, ctx.signer)
  {
    var adm :- Admit(ctx, p, co);
    Ok(Commit(ctx, p, co, adm))
  }

  /** `Execute`: the rehearsal path, which never fails, or the real path;
      whichever runs, the states written are exactly the signer, the four
      crafting slots, the avatar and the ranking. */
  function Execute(ctx: Context, p: Parameters, co: Collaborators): (r: Result<World>)
    ensures ctx.rehearsal ==> r.Ok?
    ensures !ctx.rehearsal ==> (r.Err? <==> Admit(ctx, p, co).Err?)
    ensures r.Ok? ==> r.value.updatedStates == ctx.previousStates.updatedStates + WrittenAddresses(p, ctx.signer)
  {
    if ctx.rehearsal then Ok(Rehearsal(ctx, p, co)) else Create(ctx, p, co)
  }

  /** A successful creation registers the avatar under the requested index
      and leaves every other registration as it was, so the agent gains
      exactly one avatar. */
  lemma AgentGainsOneAvatar(ctx: Context, p: Parameters, co: Collaborators)
    requires Create(ctx, p, co).Ok?
    requires ctx.signer != p.avatarAddress && ctx.signer != RankingAddress
    ensures
      var before := AgentOrNew(ctx.previousStates, ctx.signer).avatarAddresses;
      var w := Create(ctx, p, co).value;
      && GetAgentState(w, ctx.signer).Some?
      && var after := GetAgentState(w, ctx.signer).value.avatarAddresses;
      && p.index as int !in before
      && after.Keys == before.Keys + {p.index as int}
      && after[p.index as int] == p.avatarAddress
      && (forall i :: i in before ==> after[i] == before[i])
      && |after| == |before| + 1
  {
    var adm := Admit(ctx, p, co).value;
    assert Create(ctx, p, co).value == Commit(ctx, p, co, adm);
  }

  /** The stored avatar carries the requested name and signer, the requested
      cosmetics with negative indices raised to zero, and its four crafting
      slot addresses. */
  lemma AvatarAsRequested(ctx: Context, p: Parameters, co: Collaborators)
    requires Create(ctx, p, co).Ok?
    ensures
      var w := Create(ctx, p, co).value;
      && GetAvatarState(w, p.avatarAddress).Some?
      && var avatar := GetAvatarState(w, p.avatarAddress).value;
      && avatar.name == p.name && avatar.agentAddress == ctx.signer
      && 0 <= avatar.hair && 0 <= avatar.lens && 0 <= avatar.ear && 0 <= avatar.tail
      && (0 <= p.hair ==> avatar.hair == p.hair)
      && (0 <= p.lens ==> avatar.lens == p.lens)
      && (0 <= p.ear ==> avatar.ear == p.ear)
      && (0 <= p.tail ==> avatar.tail == p.tail)
      && (p.hair < 0 ==> avatar.hair == 0)
      && (p.lens < 0 ==> avatar.lens == 0)
      && (p.ear < 0 ==> avatar.ear == 0)
      && (p.tail < 0 ==> avatar.tail == 0)
      && avatar.combinationSlotAddresses == SlotAddresses(p.avatarAddress)
  {
    var adm := Admit(ctx, p, co).value;
    assert Create(ctx, p, co).value == Commit(ctx, p, co, adm);
  }

  /** Each crafting slot of the new avatar holds a fresh, empty slot record
      that unlocks at the crafting stage (the signer being an ordinary
      account, its record cannot overwrite one). */
  lemma SlotsInitialised(ctx: Context, p: Parameters, co: Collaborators, i: int)
    requires Create(ctx, p, co).Ok?
    requires 0 <= i < CombinationSlotCapacity
    requires ctx.signer.Account?
    ensures GetSlotState(Create(ctx, p, co).value, SlotAddress(p.avatarAddress, i)) ==
      Some(NewSlot(SlotAddress(p.avatarAddress, i), co.combinationUnlockStage))
  {
    var adm := Admit(ctx, p, co).value;
    assert Create(ctx, p, co).value == Commit(ctx, p, co, adm);
  }

  /** The real path writes exactly the addresses the rehearsal marks. */
  lemma StatesWithinRehearsal(ctx: Context, p: Parameters, co: Collaborators)
    requires !ctx.rehearsal
    requires Execute(ctx, p, co).Ok?
    ensures Execute(ctx, p, co).value.updatedStates == Execute(ctx.(rehearsal := true), p, co).value.updatedStates
  {
  }

  /** The real path touches the balances of the gold treasury and of the
      miner, and of no one else; a miner other than the treasury gains the
      starting gold that the treasury loses. */
  lemma RealBalanceChanges(ctx: Context, p: Parameters, co: Collaborators)
    requires Create(ctx, p, co).Ok?
    ensures Create(ctx, p, co).value.updatedBalances ==
      ctx.previousStates.updatedBalances + {(GoldCurrencyAddress, co.goldCurrency), (ctx.miner, co.goldCurrency)}
    ensures ctx.miner != GoldCurrencyAddress ==>
      && Balance(Create(ctx, p, co).value, ctx.miner, co.goldCurrency) ==
           Balance(ctx.previousStates, ctx.miner, co.goldCurrency) + Units(co.goldCurrency, StartingGold)
      && Balance(Create(ctx, p, co).value, GoldCurrencyAddress, co.goldCurrency) ==
           Balance(ctx.previousStates, GoldCurrencyAddress, co.goldCurrency) - Units(co.goldCurrency, StartingGold)
  {
    var adm := Admit(ctx, p, co).value;
    assert Create(ctx, p, co).value == Commit(ctx, p, co, adm);
  }

  /** As written, the rehearsal marks the signer's balance, while the real
      path credits the miner: a miner that is an ordinary account distinct
      from the signer, and untouched before the action, is updated by the
      real path but not reported by the rehearsal. */
  lemma RehearsalMissesMiner(ctx: Context, p: Parameters, co: Collaborators)
    requires Create(ctx, p, co).Ok?
    requires ctx.miner.Account? && ctx.miner != GoldCurrencyAddress && ctx.miner != RankingAddress
    requires ctx.miner != ctx.signer && ctx.miner != p.avatarAddress
    requires ctx.miner !in UpdatedAddresses(ctx.previousStates)
    ensures ctx.miner in UpdatedAddresses(Create(ctx, p, co).value)
    ensures ctx.miner !in UpdatedAddresses(Rehearsal(ctx, p, co))
  {
    RealBalanceChanges(ctx, p, co);
    AccountNotPredicted(ctx, p, co, ctx.miner);
  }

  /** An ordinary account other than the signer, the treasury and the
      ranking, untouched before the action, is not among the rehearsal's
      addresses. */
  lemma AccountNotPredicted(ctx: Context, p: Parameters, co: Collaborators, a: Address)
    requires a.Account? && a != GoldCurrencyAddress && a != RankingAddress
    requires a != ctx.signer && a != p.avatarAddress
    requires a !in UpdatedAddresses(ctx.previousStates)
    ensures a !in UpdatedAddresses(Rehearsal(ctx, p, co))
  {
    var slots := SlotAddresses(p.avatarAddress);
    forall i | 0 <= i < |slots| ensures slots[i] != a {
      assert slots[i] == SlotAddress(p.avatarAddress, i);
    }
    assert a !in RehearsalWrites(p, ctx.signer);
  }

  /** The rehearsal with the balance marks the real path needs: the gold
      treasury and the miner. */
  function CorrectedRehearsal(ctx: Context, p: Parameters, co: Collaborators): (r: World)
    ensures r.updatedStates == ctx.previousStates.updatedStates + WrittenAddresses(p, ctx.signer)
    ensures r.balances == ctx.previousStates.balances
    ensures UpdatedAddresses(r) ==
      UpdatedAddresses(ctx.previousStates) + WrittenAddresses(p, ctx.signer) + {GoldCurrencyAddress, ctx.miner}
  {
    MarkWritesUpdatedAddresses(ctx, p, co, {GoldCurrencyAddress, ctx.miner});
    MarkWrites(ctx, p, co, {GoldCurrencyAddress, ctx.miner})
  }

  /** With the corrected marks, every address the real path touches is
      reported by the rehearsal. */
  lemma CorrectedRehearsalCovers(ctx: Context, p: Parameters, co: Collaborators)
    requires Create(ctx, p, co).Ok?
    ensures UpdatedAddresses(Create(ctx, p, co).value) <= UpdatedAddresses(CorrectedRehearsal(ctx, p, co))
  {
    RealBalanceChanges(ctx, p, co);
    PaymentCovered(ctx.previousStates, Create(ctx, p, co).value, CorrectedRehearsal(ctx, p, co),
                   WrittenAddresses(p, ctx.signer), GoldCurrencyAddress, ctx.miner, co.goldCurrency);
  }

  /** A view that adds `written` to the touched states and two holders of
      one currency to the touched balances is covered by any view reporting
      those addresses. */
  lemma PaymentCovered<V>(prev: View<V>, actual: View<V>, predicted: View<V>,
                          written: set<Address>, from: Address, to: Address, c: Currency)
    requires actual.updatedStates == prev.updatedStates + written
    requires actual.updatedBalances == prev.updatedBalances + {(from, c), (to, c)}
    requires UpdatedAddresses(predicted) == UpdatedAddresses(prev) + written + {from, to}
    ensures UpdatedAddresses(actual) <= UpdatedAddresses(predicted)
  {
    forall q | q in actual.updatedBalances
      ensures q.0 in UpdatedAddresses(predicted)
    {
    }
    UpdatedAddressesCovered(actual, predicted);
  }

  // ----- parameters ----------------------------------------------------

  /** `PlainValueInternal`: one entry per parameter, under its field name. */
  function PlainValue(p: Parameters): (r: PlainDictionary)
    ensures r.Keys == {"avatarAddress", "index", "hair", "lens", "ear", "tail", "name"}
    ensures r["name"].Text? && r["index"].Integer? && r["avatarAddress"].AddressBytes?
  {
    map[
      "avatarAddress" := AddressBytes(p.avatarAddress),
      "index" := Integer(p.index),
      "hair" := Integer(p.hair),
      "lens" := Integer(p.lens),
      "ear" := Integer(p.ear),
      "tail" := Integer(p.tail),
      "name" := Text(p.name)]
  }

  /** `LoadPlainValueInternal`: every field is required, and an integer
      outside the 32-bit range is refused. */
  function LoadPlainValue(plain: PlainDictionary): (r: Result<Parameters>)
    ensures r.Ok? ==>
      && "avatarAddress" in plain && "index" in plain && "name" in plain
      && "hair" in plain && "lens" in plain && "ear" in plain && "tail" in plain
      && plain["avatarAddress"] == AddressBytes(r.value.avatarAddress)
      && plain["index"] == Integer(r.value.index)
      && plain["hair"] == Integer(r.value.hair)
      && plain["lens"] == Integer(r.value.lens)
      && plain["ear"] == Integer(r.value.ear)
      && plain["tail"] == Integer(r.value.tail)
      && plain["name"] == Text(r.value.name)
    ensures "name" in plain && !plain["name"].Text? ==> r.Err?
  {
    var address :- Lookup(plain, "avatarAddress");
    var index :- Lookup(plain, "index");
    var hair :- Lookup(plain, "hair");
    var lens :- Lookup(plain, "lens");
    var ear :- Lookup(plain, "ear");
    var tail :- Lookup(plain, "tail");
    var name :- Lookup(plain, "name");
    var a :- ToAddress(address);
    var i :- ToInt32(index);
    var h :- ToInt32(hair);
    var l :- ToInt32(lens);
    var e :- ToInt32(ear);
    var t :- ToInt32(tail);
    var n :- ToText(name);
    Ok(Parameters(a, i, h, l, e, t, n))
  }

  lemma PlainValueRoundTrip(p: Parameters)
    ensures LoadPlainValue(PlainValue(p)) == Ok(p)
  {
  }
}
