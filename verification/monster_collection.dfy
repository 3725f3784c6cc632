/** The monster-collection (staking) commitment record of one signer and
    round: when it started and expires, the staked level, the reward list
    unlocked at each of the four tiers, and which tiers were already claimed.
    Every operation is a pure transition; a failing one returns the error and
    the caller keeps the record it had. */
module MonsterCollection {
  import opened Base
  import opened Addresses
  import opened Values
  import Sorting

  const DeriveFormat: string := "monster-collection-"
  const RewardCapacity: int := 4
  const RewardInterval: int := 40000
  const ExpirationIndex: int := RewardInterval * RewardCapacity

  /** The record's address: the signer's address derived with the salt
      `"monster-collection-{round}"`. */
  function DeriveAddress(baseAddress: Address, collectRound: Int32): (r: Address)
    ensures r != baseAddress
    ensures r.Derived? && r.parent == baseAddress
  {
    Derive(baseAddress, DeriveFormat + FormatInt(collectRound))
  }

  /** Distinct signers or rounds never share a record. */
  lemma DeriveAddressInjective(a: Address, i: Int32, b: Address, j: Int32)
    ensures DeriveAddress(a, i) == DeriveAddress(b, j) <==> a == b && i == j
  {
    if DeriveAddress(a, i) == DeriveAddress(b, j) {
      PrefixedFormatInjective(DeriveFormat, i, j);
    }
  }

  datatype RewardInfo = RewardInfo(itemId: Int32, quantity: Int32)

  function ItemIdOf(r: RewardInfo): int { r.itemId }

  /** `MonsterCollectionRewardSheet`: the reward list of each level. */
  type RewardSheet = map<int, seq<RewardInfo>>

  /** The record of one claim; kept as the dictionary it serialises to, since
      its own fields play no part in the state machine. */
  datatype MonsterCollectionResult = MonsterCollectionResult(fields: map<Key, Value>)

  datatype MonsterCollectionState = MonsterCollectionState(
    address: Address,
    level: Int32,
    expiredBlockIndex: Int64,
    startedBlockIndex: Int64,
    receivedBlockIndex: Int64,
    rewardLevel: Int64,                                  // the tier claimed last
    rewardMap: map<Int64, MonsterCollectionResult>,       // claimed tiers
    end: bool,
    rewardLevelMap: map<Int64, seq<RewardInfo>>)          // tier -> rewards

  /** The shape every constructed record has: tier keys exactly 1..Count,
      with Count a .NET `int`. */
  ghost predicate DenseTiers(m: map<Int64, seq<RewardInfo>>)
  {
    && |m| < Int32Bound
    && forall k: Int64 :: k in m <==> 1 <= k <= |m|
  }

  /** The constructor: starts the commitment at `blockIndex` and unlocks the
      level's reward list at all four tiers. The sheet indexer throws for an
      unknown level. */
  function New(address: Address, level: Int32, blockIndex: Int64, sheet: RewardSheet): (r: Result<MonsterCollectionState>)
    ensures r.Err? <==> level !in sheet
    ensures r.Err? ==> r.error == KeyNotFound
    ensures r.Ok? ==>
      var s := r.value;
      && s.address == address && s.level == level
      && s.startedBlockIndex == blockIndex
      && s.expiredBlockIndex == Wrap64(blockIndex + ExpirationIndex)
      && (blockIndex + ExpirationIndex < Int64Bound ==> s.expiredBlockIndex == blockIndex + 160000)
      && s.receivedBlockIndex == 0 && s.rewardLevel == 0
      && s.rewardMap == map[] && !s.end
      && s.rewardLevelMap.Keys == {1, 2, 3, 4}
      && (forall k :: k in s.rewardLevelMap ==> s.rewardLevelMap[k] == sheet[level])
  {
    if level !in sheet then Err(KeyNotFound)
    else
      var rewards := sheet[level];
      Ok(MonsterCollectionState(
        address, level, Wrap64(blockIndex + ExpirationIndex), blockIndex, 0, 0, map[], false,
        map[1 := rewards, 2 := rewards, 3 := rewards, 4 := rewards]))
  }

  /** A constructed record's tier map has keys exactly 1..4, the shape
      `Update` relies on. */
  lemma FourTiersDense(address: Address, level: Int32, blockIndex: Int64, sheet: RewardSheet)
    ensures New(address, level, blockIndex, sheet).Ok? ==>
      DenseTiers(New(address, level, blockIndex, sheet).value.rewardLevelMap)
  {
    if level in sheet {
      var m := New(address, level, blockIndex, sheet).value.rewardLevelMap;
      var k1: set<Int64> := {1};
      var k2 := k1 + {2};
      var k3 := k2 + {3};
      var k4 := k3 + {4};
      assert |k4| == 4;
      assert m.Keys == k4;
      KeysOneToFourDense(m);
    }
  }

  lemma KeysOneToFourDense(m: map<Int64, seq<RewardInfo>>)
    requires m.Keys == {1, 2, 3, 4} && |m| == 4
    ensures DenseTiers(m)
  {
  }

  /** The tier reached at `blockIndex`: whole reward intervals since the
      start, never below 0 and saturating at `RewardCapacity`. The
      subtraction is a `long` one. */
  function GetRewardLevel(s: MonsterCollectionState, blockIndex: Int64): (r: Int64)
    ensures 0 <= r <= RewardCapacity
  {
    var diff := Max(0, Wrap64(blockIndex - s.startedBlockIndex));
    Min(RewardCapacity, diff / RewardInterval)
  }

  /** On the ledger's non-negative block indices the tier is 0 during the
      first interval and `min(4, elapsed / 40000)` afterwards. */
  lemma RewardLevelByElapsedBlocks(s: MonsterCollectionState, blockIndex: Int64)
    requires 0 <= s.startedBlockIndex && 0 <= blockIndex
    ensures blockIndex < s.startedBlockIndex + RewardInterval ==> GetRewardLevel(s, blockIndex) == 0
    ensures s.startedBlockIndex <= blockIndex ==>
      GetRewardLevel(s, blockIndex) == Min(RewardCapacity, (blockIndex - s.startedBlockIndex) / RewardInterval)
  {
  }

  /** Time only moves tiers forward. */
  lemma RewardLevelMonotonic(s: MonsterCollectionState, b1: Int64, b2: Int64)
    requires 0 <= s.startedBlockIndex && 0 <= b1 <= b2
    ensures GetRewardLevel(s, b1) <= GetRewardLevel(s, b2)
  {
    var d1 := Max(0, b1 - s.startedBlockIndex);
    var d2 := Max(0, b2 - s.startedBlockIndex);
    assert d1 <= d2;
    assert d1 / RewardInterval <= d2 / RewardInterval;
  }

  /** Whether a full interval has passed since the later of the start and the
      last claim (a `long` subtraction). */
  function CanReceive(s: MonsterCollectionState, blockIndex: Int64): (r: bool)
    ensures 0 <= s.startedBlockIndex && 0 <= s.receivedBlockIndex && 0 <= blockIndex ==>
      (r <==> blockIndex - Max(s.startedBlockIndex, s.receivedBlockIndex) >= RewardInterval)
    ensures r && 0 <= s.startedBlockIndex && 0 <= s.receivedBlockIndex && 0 <= blockIndex ==>
      1 <= GetRewardLevel(s, blockIndex)
  {
    Wrap64(blockIndex - Max(s.startedBlockIndex, s.receivedBlockIndex)) >= RewardInterval
  }

  lemma CanReceiveAfterInterval(s: MonsterCollectionState, blockIndex: Int64)
    requires 0 <= s.startedBlockIndex && 0 <= s.receivedBlockIndex && 0 <= blockIndex
    ensures CanReceive(s, blockIndex) <==>
      blockIndex - Max(s.startedBlockIndex, s.receivedBlockIndex) >= RewardInterval
  {
  }

  /** Records the claim of tier `rewardLevel` at `blockIndex`. Refuses a tier
      outside 0..4 and a tier claimed before; `end` reflects whether the
      claimed tier is the last one. */
  function UpdateRewardMap(s: MonsterCollectionState, rewardLevel: Int64, result: MonsterCollectionResult, blockIndex: Int64)
    : (r: Result<MonsterCollectionState>)
    ensures r == Err(RewardLevelOutOfRange) <==> rewardLevel < 0 || RewardCapacity < rewardLevel
    ensures r == Err(AlreadyReceived) <==> 0 <= rewardLevel <= RewardCapacity && rewardLevel in s.rewardMap
    ensures r.Ok? ==>
      var t := r.value;
      && rewardLevel !in s.rewardMap
      && t.rewardMap.Keys == s.rewardMap.Keys + {rewardLevel}
      && t.rewardMap[rewardLevel] == result
      && (forall k :: k in s.rewardMap ==> t.rewardMap[k] == s.rewardMap[k])
      && t.rewardLevel == rewardLevel
      && t.receivedBlockIndex == blockIndex
      && (t.end <==> rewardLevel == RewardCapacity)
      && t.(rewardMap := s.rewardMap, rewardLevel := s.rewardLevel,
            receivedBlockIndex := s.receivedBlockIndex, end := s.end) == s
  {
    if rewardLevel < 0 || RewardCapacity < rewardLevel then Err(RewardLevelOutOfRange)
    else if rewardLevel in s.rewardMap then Err(AlreadyReceived)
    else Ok(s.(rewardMap := s.rewardMap[rewardLevel := result], rewardLevel := rewardLevel,
               receivedBlockIndex := blockIndex, end := rewardLevel == RewardCapacity))
  }

  /** A tier can be claimed at most once: replaying a successful claim, with
      any result and at any block, is refused. */
  lemma ClaimTwiceRejected(s: MonsterCollectionState, tier: Int64, first: MonsterCollectionResult, b1: Int64,
                           second: MonsterCollectionResult, b2: Int64)
    requires UpdateRewardMap(s, tier, first, b1).Ok?
    ensures UpdateRewardMap(UpdateRewardMap(s, tier, first, b1).value, tier, second, b2) == Err(AlreadyReceived)
  {
  }

  /** After a claim at block b no further claim is possible before b + 40000. */
  lemma ClaimRestartsInterval(s: MonsterCollectionState, tier: Int64, result: MonsterCollectionResult,
                              b: Int64, later: Int64)
    requires 0 <= s.startedBlockIndex && 0 <= b <= later < b + RewardInterval
    requires UpdateRewardMap(s, tier, result, b).Ok?
    ensures !CanReceive(UpdateRewardMap(s, tier, result, b).value, later)
  {
  }

  /** Claiming tiers 1, 2, 3, 4 in turn from a fresh record claims them all
      and ends the commitment. */
  lemma ClaimingAllTiersEnds(s: MonsterCollectionState, results: seq<MonsterCollectionResult>, blockIndex: Int64)
    requires s.rewardMap == map[] && |results| == 4
    ensures
      var s1 := UpdateRewardMap(s, 1, results[0], blockIndex);
      var s2 := UpdateRewardMap(s1.value, 2, results[1], blockIndex);
      var s3 := UpdateRewardMap(s2.value, 3, results[2], blockIndex);
      var s4 := UpdateRewardMap(s3.value, 4, results[3], blockIndex);
      && s4.Ok? && s4.value.end && s4.value.rewardMap.Keys == {1, 2, 3, 4}
  {
  }

  /** Raises the record to `level` and refreshes the reward list of every
      tier above `rewardLevel` to that level's rewards; the tiers up to
      `rewardLevel` keep theirs. The loop bound is re-read on every pass as
      in the source, so it is only known to stop on dense tiers with a
      non-negative start. */
  method Update(s: MonsterCollectionState, level: Int32, rewardLevel: Int64, sheet: RewardSheet)
    returns (r: Result<MonsterCollectionState>)
    requires 0 <= rewardLevel
    requires DenseTiers(s.rewardLevelMap)
    ensures r.Err? <==> level !in sheet
    ensures r.Err? ==> r.error == KeyNotFound
    ensures r.Ok? ==>
      var t := r.value;
      && t.level == level
      && t.rewardLevelMap.Keys == s.rewardLevelMap.Keys
      && (forall k :: k in s.rewardLevelMap && rewardLevel < k ==> t.rewardLevelMap[k] == sheet[level])
      && (forall k :: k in s.rewardLevelMap && k <= rewardLevel ==> t.rewardLevelMap[k] == s.rewardLevelMap[k])
      && t.(level := s.level, rewardLevelMap := s.rewardLevelMap) == s
  {
    if level !in sheet {
      return Err(KeyNotFound);
    }
    var rewards := sheet[level];
    var m := s.rewardLevelMap;
    var i: int := rewardLevel;
    while i < |m|
      invariant m.Keys == s.rewardLevelMap.Keys
      invariant rewardLevel <= i
      invariant i <= |m| || i == rewardLevel
      invariant forall k :: k in m ==> m[k] == if rewardLevel < k <= i then rewards else s.rewardLevelMap[k]
      decreases |m| - i
    {
      m := m[(i + 1) := rewards];
      i := i + 1;
    }
    return Ok(s.(level := level, rewardLevelMap := m));
  }

  /** `Equals`: the eight recorded fields agree; the address is not compared. */
  function SameRecord(a: MonsterCollectionState, b: MonsterCollectionState): (r: bool)
    ensures r <==> a.(address := b.address) == b
  {
    && a.level == b.level
    && a.expiredBlockIndex == b.expiredBlockIndex
    && a.startedBlockIndex == b.startedBlockIndex
    && a.receivedBlockIndex == b.receivedBlockIndex
    && a.rewardLevel == b.rewardLevel
    && a.rewardMap == b.rewardMap
    && a.end == b.end
    && a.rewardLevelMap == b.rewardLevelMap
  }

  // Field names of the serialised record (the `SerializeKeys` constants are
  // not part of this model; any pairwise distinct names behave the same).
  const AddressKey: string := "address"
  const LevelKey: string := "level"
  const ExpiredBlockIndexKey: string := "expiredBlockIndex"
  const StartedBlockIndexKey: string := "startedBlockIndex"
  const ReceivedBlockIndexKey: string := "receivedBlockIndex"
  const RewardLevelKey: string := "rewardLevel"
  const RewardMapKey: string := "rewardMap"
  const EndKey: string := "end"
  const RewardLevelMapKey: string := "rewardLevelMap"
  const ItemIdKey: string := "itemId"
  const QuantityKey: string := "quantity"

  /** The fields a serialised record must carry. */
  const RecordKeys: set<string> := {AddressKey, LevelKey, ExpiredBlockIndexKey, StartedBlockIndexKey,
    ReceivedBlockIndexKey, RewardLevelKey, RewardMapKey, EndKey, RewardLevelMapKey}

  function SerializeRewardInfo(info: RewardInfo): Value
  {
    Dict(map[TextKey(ItemIdKey) := Integer(info.itemId), TextKey(QuantityKey) := Integer(info.quantity)])
  }

  function DeserializeRewardInfo(v: Value): Result<RewardInfo>
  {
    var entries :- ToDict(v);
    var itemId :- Field(entries, ItemIdKey);
    var quantity :- Field(entries, QuantityKey);
    var i :- ToInt32(itemId);
    var q :- ToInt32(quantity);
    Ok(RewardInfo(i, q))
  }

  function DeserializeRewardInfos(vs: seq<Value>): (r: Result<seq<RewardInfo>>)
    ensures r.Ok? <==> forall i :: 0 <= i < |vs| ==> DeserializeRewardInfo(vs[i]).Ok?
    ensures r.Ok? ==> |r.value| == |vs| && forall i :: 0 <= i < |vs| ==> DeserializeRewardInfo(vs[i]) == Ok(r.value[i])
  {
    if vs == [] then Ok([])
    else
      var head :- DeserializeRewardInfo(vs[0]);
      var tail :- DeserializeRewardInfos(vs[1..]);
      Ok([head] + tail)
  }

  function SerializeRewardInfos(infos: seq<RewardInfo>): (r: seq<Value>)
    ensures |r| == |infos| && forall i :: 0 <= i < |infos| ==> r[i] == SerializeRewardInfo(infos[i])
  {
    seq(|infos|, i requires 0 <= i < |infos| => SerializeRewardInfo(infos[i]))
  }

  function SerializeRewardMap(m: map<Int64, MonsterCollectionResult>): map<Key, Value>
  {
    map k | k in m :: IntKey(k) := Dict(m[k].fields)
  }

  function SerializeRewardLevelMap(m: map<Int64, seq<RewardInfo>>): map<Key, Value>
  {
    map k | k in m :: IntKey(k) := List(SerializeRewardInfos(m[k]))
  }

  /** The record as a field-keyed dictionary, the base state's address
      included. */
  function Serialize(s: MonsterCollectionState): (r: Value)
    ensures r.Dict?
    ensures TextKey(AddressKey) in r.entries && TextKey(LevelKey) in r.entries
    ensures TextKey(ExpiredBlockIndexKey) in r.entries && TextKey(StartedBlockIndexKey) in r.entries
    ensures TextKey(ReceivedBlockIndexKey) in r.entries && TextKey(RewardLevelKey) in r.entries
    ensures TextKey(RewardMapKey) in r.entries && TextKey(EndKey) in r.entries
    ensures TextKey(RewardLevelMapKey) in r.entries
  {
    Dict(map[
      TextKey(AddressKey) := AddressBytes(s.address),
      TextKey(LevelKey) := Integer(s.level),
      TextKey(ExpiredBlockIndexKey) := Integer(s.expiredBlockIndex),
      TextKey(StartedBlockIndexKey) := Integer(s.startedBlockIndex),
      TextKey(ReceivedBlockIndexKey) := Integer(s.receivedBlockIndex),
      TextKey(RewardLevelKey) := Integer(s.rewardLevel),
      TextKey(RewardMapKey) := Dict(SerializeRewardMap(s.rewardMap)),
      TextKey(EndKey) := Boolean(s.end),
      TextKey(RewardLevelMapKey) := Dict(SerializeRewardLevelMap(s.rewardLevelMap))])
  }

  predicate ClaimEntryDecodes(entries: map<Key, Value>, k: Key)
    requires k in entries
  {
    k.IntKey? && IsInt64(k.n) && entries[k].Dict?
  }

  function DeserializeRewardMap(entries: map<Key, Value>): (r: Result<map<Int64, MonsterCollectionResult>>)
    ensures r.Ok? <==> forall k :: k in entries ==> ClaimEntryDecodes(entries, k)
    ensures r.Ok? ==> forall k :: k in entries ==>
      k.n in r.value && r.value[k.n] == MonsterCollectionResult(entries[k].entries)
    ensures r.Ok? ==> forall n :: n in r.value ==> IntKey(n) in entries
  {
    if forall k :: k in entries ==> ClaimEntryDecodes(entries, k) then
      Ok(map k | k in entries :: (k.n as Int64) := MonsterCollectionResult(entries[k].entries))
    else Err(DecodeError)
  }

  predicate TierEntryDecodes(entries: map<Key, Value>, k: Key)
    requires k in entries
  {
    k.IntKey? && IsInt64(k.n) && entries[k].List? && DeserializeRewardInfos(entries[k].items).Ok?
  }

  /** Tier lists are decoded and then put in item-id order. */
  function DeserializeRewardLevelMap(entries: map<Key, Value>): (r: Result<map<Int64, seq<RewardInfo>>>)
    ensures r.Ok? <==> forall k :: k in entries ==> TierEntryDecodes(entries, k)
    ensures r.Ok? ==> forall k :: k in entries ==>
      k.n in r.value && r.value[k.n] == Sorting.SortBy(DeserializeRewardInfos(entries[k].items).value, ItemIdOf)
    ensures r.Ok? ==> forall n :: n in r.value ==> IntKey(n) in entries
  {
    if forall k :: k in entries ==> TierEntryDecodes(entries, k) then
      Ok(map k | k in entries ::
           (k.n as Int64) := Sorting.SortBy(DeserializeRewardInfos(entries[k].items).value, ItemIdOf))
    else Err(DecodeError)
  }

  ghost predicate RewardsOrdered(m: map<Int64, seq<RewardInfo>>)
  {
    forall k :: k in m ==> Sorting.SortedBy(m[k], ItemIdOf)
  }

  /** The dictionary constructor: every field is required, and every decoded
      tier list comes out in item-id order. */
  function Deserialize(v: Value): (r: Result<MonsterCollectionState>)
    ensures r.Ok? ==> RewardsOrdered(r.value.rewardLevelMap)
    ensures !v.Dict? ==> r == Err(DecodeError)
    ensures v.Dict? && TextKey(LevelKey) !in v.entries ==> r == Err(DecodeError)
  {
    var entries :- ToDict(v);
    var address :- Field(entries, AddressKey);
    var level :- Field(entries, LevelKey);
    var expired :- Field(entries, ExpiredBlockIndexKey);
    var started :- Field(entries, StartedBlockIndexKey);
    var received :- Field(entries, ReceivedBlockIndexKey);
    var rewardLevel :- Field(entries, RewardLevelKey);
    var rewardMap :- Field(entries, RewardMapKey);
    var end :- Field(entries, EndKey);
    var rewardLevelMap :- Field(entries, RewardLevelMapKey);
    var a :- ToAddress(address);
    var l :- ToInt32(level);
    var e :- ToInt64(expired);
    var st :- ToInt64(started);
    var rc :- ToInt64(received);
    var rl :- ToInt64(rewardLevel);
    var claims :- ToDict(rewardMap);
    var rm :- DeserializeRewardMap(claims);
    var en :- ToBool(end);
    var tiers :- ToDict(rewardLevelMap);
    var tm :- DeserializeRewardLevelMap(tiers);
    Ok(MonsterCollectionState(a, l, e, st, rc, rl, rm, en, tm))
  }

  /** A dictionary missing any one of the record's fields is refused. */
  lemma MissingFieldRefused(v: Value, name: string)
    requires v.Dict? && name in RecordKeys && TextKey(name) !in v.entries
    ensures Deserialize(v) == Err(DecodeError)
  {
    assert Field(v.entries, name).Err?;
  }

  lemma RewardInfosRoundTrip(infos: seq<RewardInfo>)
    ensures DeserializeRewardInfos(SerializeRewardInfos(infos)) == Ok(infos)
  {
    var vs := SerializeRewardInfos(infos);
    forall i | 0 <= i < |vs|
      ensures DeserializeRewardInfo(vs[i]) == Ok(infos[i])
    {
      RewardInfoRoundTrip(infos[i]);
    }
    var r := DeserializeRewardInfos(vs);
    assert r.value == infos;
  }

  lemma RewardInfoRoundTrip(info: RewardInfo)
    ensures DeserializeRewardInfo(SerializeRewardInfo(info)) == Ok(info)
  {
    var entries := SerializeRewardInfo(info).entries;
    assert Field(entries, ItemIdKey) == Ok(Integer(info.itemId));
    assert Field(entries, QuantityKey) == Ok(Integer(info.quantity));
  }

  lemma RewardMapRoundTrip(m: map<Int64, MonsterCollectionResult>)
    ensures DeserializeRewardMap(SerializeRewardMap(m)) == Ok(m)
  {
    var entries := SerializeRewardMap(m);
    forall k | k in entries
      ensures ClaimEntryDecodes(entries, k)
    {
    }
    var r := DeserializeRewardMap(entries);
    assert r.Ok?;
    forall n | n in m
      ensures n in r.value && r.value[n] == m[n]
    {
      assert IntKey(n) in entries && entries[IntKey(n)] == Dict(m[n].fields);
    }
    forall n | n in r.value
      ensures n in m
    {
      assert IntKey(n) in entries;
    }
    assert r.value.Keys == m.Keys;
    assert r.value == m;
  }

  lemma TierEntryRoundTrip(m: map<Int64, seq<RewardInfo>>, n: Int64)
    requires RewardsOrdered(m) && n in m
    ensures IntKey(n) in SerializeRewardLevelMap(m)
    ensures TierEntryDecodes(SerializeRewardLevelMap(m), IntKey(n))
    ensures Sorting.SortBy(DeserializeRewardInfos(SerializeRewardLevelMap(m)[IntKey(n)].items).value, ItemIdOf) == m[n]
  {
    var entries := SerializeRewardLevelMap(m);
    assert entries[IntKey(n)] == List(SerializeRewardInfos(m[n]));
    RewardInfosRoundTrip(m[n]);
    Sorting.SortByOfSorted(m[n], ItemIdOf);
  }

  lemma TierEntriesDecode(m: map<Int64, seq<RewardInfo>>)
    requires RewardsOrdered(m)
    ensures forall k :: k in SerializeRewardLevelMap(m) ==> TierEntryDecodes(SerializeRewardLevelMap(m), k)
  {
    var entries := SerializeRewardLevelMap(m);
    forall k | k in entries
      ensures TierEntryDecodes(entries, k)
    {
      assert k.IntKey? && k.n in m;
      TierEntryRoundTrip(m, k.n);
    }
  }

  lemma RewardLevelMapRoundTrip(m: map<Int64, seq<RewardInfo>>)
    requires RewardsOrdered(m)
    ensures DeserializeRewardLevelMap(SerializeRewardLevelMap(m)) == Ok(m)
  {
    var entries := SerializeRewardLevelMap(m);
    TierEntriesDecode(m);
    var r := DeserializeRewardLevelMap(entries);
    forall n | n in m
      ensures n in r.value && r.value[n] == m[n]
    {
      TierEntryRoundTrip(m, n);
    }
    forall n | n in r.value
      ensures n in m
    {
      assert IntKey(n) in entries;
    }
    MapsEqual(r.value, m);
  }

  /** The scalar fields of the serialised record hold their encodings. */
  lemma ScalarFieldsEncoded(s: MonsterCollectionState)
    ensures Serialize(s).Dict?
    ensures
      var e := Serialize(s).entries;
      && Field(e, AddressKey) == Ok(AddressBytes(s.address))
      && Field(e, LevelKey) == Ok(Integer(s.level))
      && Field(e, ExpiredBlockIndexKey) == Ok(Integer(s.expiredBlockIndex))
      && Field(e, StartedBlockIndexKey) == Ok(Integer(s.startedBlockIndex))
      && Field(e, ReceivedBlockIndexKey) == Ok(Integer(s.receivedBlockIndex))
      && Field(e, RewardLevelKey) == Ok(Integer(s.rewardLevel))
  {
    var e := Serialize(s).entries;
    assert Field(e, AddressKey) == Ok(AddressBytes(s.address));
    assert Field(e, LevelKey) == Ok(Integer(s.level));
    assert Field(e, ExpiredBlockIndexKey) == Ok(Integer(s.expiredBlockIndex));
  }

  /** The claim map, the end flag and the tier map of the serialised record
      hold their encodings. */
  lemma NestedFieldsEncoded(s: MonsterCollectionState)
    ensures Serialize(s).Dict?
    ensures
      var e := Serialize(s).entries;
      && Field(e, RewardMapKey) == Ok(Dict(SerializeRewardMap(s.rewardMap)))
      && Field(e, EndKey) == Ok(Boolean(s.end))
      && Field(e, RewardLevelMapKey) == Ok(Dict(SerializeRewardLevelMap(s.rewardLevelMap)))
  {
  }

  /** Decoding the serialised record gives the record back, provided each
      tier's reward list is already in item-id order (the decoder re-sorts
      them). */
  lemma {:induction false} SerializeRoundTrip(s: MonsterCollectionState)
    requires RewardsOrdered(s.rewardLevelMap)
    ensures Deserialize(Serialize(s)) == Ok(s)
  {
    var e := Serialize(s).entries;
    ScalarFieldsEncoded(s);
    NestedFieldsEncoded(s);
    RewardMapRoundTrip(s.rewardMap);
    RewardLevelMapRoundTrip(s.rewardLevelMap);
    assert ToDict(Serialize(s)) == Ok(e);
    assert ToInt32(Integer(s.level)) == Ok(s.level);
    assert ToInt64(Integer(s.expiredBlockIndex)) == Ok(s.expiredBlockIndex);
    assert ToInt64(Integer(s.startedBlockIndex)) == Ok(s.startedBlockIndex);
    assert ToInt64(Integer(s.receivedBlockIndex)) == Ok(s.receivedBlockIndex);
    assert ToInt64(Integer(s.rewardLevel)) == Ok(s.rewardLevel);
  }
}
