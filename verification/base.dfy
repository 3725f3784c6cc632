/** Shared vocabulary of the model: the error taxonomy of the actions, the
    failure-compatible Result/Option types, and the fixed-width integer types
    the C# code stores (`int` is 32 bits, `long` is 64 bits). */
module Base {

  const Int32Min: int := -0x8000_0000
  const Int32Bound: int := 0x8000_0000
  const Int64Min: int := -0x8000_0000_0000_0000
  const Int64Bound: int := 0x8000_0000_0000_0000
  const Int64Modulus: int := 0x1_0000_0000_0000_0000

  /** A C# `int`. */
  type Int32 = x: int | Int32Min <= x < Int32Bound

  /** A C# `long`. */
  type Int64 = x: int | Int64Min <= x < Int64Bound

  predicate IsInt32(x: int) { Int32Min <= x < Int32Bound }

  predicate IsInt64(x: int) { Int64Min <= x < Int64Bound }

  /** The value an unchecked C# `long` computation leaves behind: the
      mathematical result reduced into the signed 64-bit range. */
  function Wrap64(x: int): (r: Int64)
    ensures IsInt64(x) ==> r == x
  {
    ((x - Int64Min) % Int64Modulus) + Int64Min
  }

  /** The tables a failed lookup can name. */
  datatype Sheet =
    | EquipmentItemRecipeSheet
    | EquipmentItemSubRecipeSheet
    | MaterialItemSheet
    | EquipmentItemSheet
    | MonsterCollectionRewardSheet

  /** The exceptions the modelled code raises. Each aborts the action and
      leaves the ledger as it was. */
  datatype Error =
    | FailedLoadState                       // a required record is absent
    | InvalidAddress                        // an avatar already lives at the address
    | CombinationSlotUnlock                 // the crafting slot is not usable yet
    | SheetRowNotFound(sheet: Sheet, id: int)
    | SheetRowColumn                        // sub-recipe not listed by the recipe
    | NotEnoughClearedStageLevel
    | NotEnoughMaterial
    | InsufficientBalance
    | NotEnoughActionPoint
    | NonPositiveTransfer                   // a transfer of zero or less
    | InvalidNamePattern
    | AvatarIndexOutOfRange
    | AvatarIndexAlreadyUsed
    | RewardLevelOutOfRange                 // ArgumentOutOfRangeException of a claim
    | AlreadyReceived
    | KeyNotFound                           // a dictionary indexer missed
    | NullReference                         // a method called on an absent record
    | DecodeError                           // malformed structured value

  datatype Option<+T> = None | Some(value: T)

  /** Either the new value or the error that aborted the computation;
      usable with `:-`. */
  datatype Result<+T> = Ok(value: T) | Err(error: Error) {
    predicate IsFailure() { Err? }

    function PropagateFailure<U>(): Result<U>
      requires Err?
    {
      Err(error)
    }

    function Extract(): T
      requires Ok?
    {
      value
    }
  }

  /** Fails with `e` unless `condition` holds. */
  function Need(condition: bool, e: Error): (r: Result<()>)
    ensures r.Ok? <==> condition
    ensures r.Err? ==> r.error == e
  {
    if condition then Ok(()) else Err(e)
  }

  function Max(a: int, b: int): int { if a < b then b else a }

  function Min(a: int, b: int): int { if a < b then a else b }

  /** Two maps with the same keys and the same value at every key are equal. */
  lemma MapsEqual<K, V>(a: map<K, V>, b: map<K, V>)
    requires forall k :: k in b ==> k in a && a[k] == b[k]
    requires forall k :: k in a ==> k in b
    ensures a == b
  {
  }
}
