/** Ledger addresses and their deterministic derivation from a parent
    address and a salt string. Derivation is a hash in the ledger; here it is
    the free constructor `Derived`, so two derivations agree exactly when
    their parents and salts agree. The salts the actions use are formatted
    integers, and this module proves the formatting injective, so derived
    record addresses are determined by, and determine, their parameters. */
module Addresses {

  datatype Address =
    | Account(key: nat)                        // a key-pair address
    | Derived(parent: Address, salt: string)   // parent.Derive(salt)

  /** `Address.Derive(salt)`. */
  function Derive(parent: Address, salt: string): (a: Address)
    ensures a != parent
  {
    Derived(parent, salt)
  }

  /** Well-known fixed addresses (`Addresses.Ranking`,
      `GoldCurrencyState.Address`, `BlacksmithAddress`). Their concrete hex
      values are not part of this model; only their identity matters. */
  const RankingAddress: Address := Account(1)
  const GoldCurrencyAddress: Address := Account(2)
  const BlacksmithAddress: Address := Account(3)

  function DigitChar(d: nat): (c: char)
    requires d < 10
    ensures '0' <= c <= '9'
  {
    (('0' as int) + d) as char
  }

  /** Decimal digits of `n`, most significant first, no leading zeros. */
  function NatDigits(n: nat): (s: string)
    ensures 1 <= |s|
    ensures forall i :: 0 <= i < |s| ==> '0' <= s[i] <= '9'
    ensures (|s| == 1) <==> (n < 10)
    decreases n
  {
    if n < 10 then [DigitChar(n)] else NatDigits(n / 10) + [DigitChar(n % 10)]
  }

  /** `n.ToString(CultureInfo.InvariantCulture)` for an integer. */
  function FormatInt(n: int): (s: string)
    ensures 1 <= |s|
    ensures (s[0] == '-') <==> (n < 0)
  {
    if n < 0 then "-" + NatDigits(-n) else NatDigits(n)
  }

  lemma DigitCharInjective(a: nat, b: nat)
    requires a < 10 && b < 10
    requires DigitChar(a) == DigitChar(b)
    ensures a == b
  {
    assert DigitChar(a) as int == '0' as int + a;
  }

  lemma {:induction false} NatDigitsInjective(a: nat, b: nat)
    requires NatDigits(a) == NatDigits(b)
    ensures a == b
    decreases a
  {
    var s := NatDigits(a);
    if a < 10 {
      assert b < 10;
      DigitCharInjective(a, b);
    } else {
      assert 10 <= b;
      var n := |s|;
      assert s == NatDigits(a / 10) + [DigitChar(a % 10)];
      assert s == NatDigits(b / 10) + [DigitChar(b % 10)];
      assert s[n - 1] == DigitChar(a % 10) == DigitChar(b % 10);
      DigitCharInjective(a % 10, b % 10);
      assert NatDigits(a / 10) == s[..n - 1] == NatDigits(b / 10);
      NatDigitsInjective(a / 10, b / 10);
    }
  }

  /** Formatting an integer loses nothing: equal texts come from equal numbers. */
  lemma FormatIntInjective(a: int, b: int)
    requires FormatInt(a) == FormatInt(b)
    ensures a == b
  {
    if a < 0 {
      assert b < 0;
      assert NatDigits(-a) == FormatInt(a)[1..] == FormatInt(b)[1..] == NatDigits(-b);
      NatDigitsInjective(-a, -b);
    } else {
      assert 0 <= b;
      NatDigitsInjective(a, b);
    }
  }

  /** A salt formatted as `prefix + n`: equal salts with the same prefix carry
      the same number. */
  lemma PrefixedFormatInjective(prefix: string, a: int, b: int)
    requires prefix + FormatInt(a) == prefix + FormatInt(b)
    ensures a == b
  {
    var s := prefix + FormatInt(a);
    assert FormatInt(a) == s[|prefix|..] == FormatInt(b);
    FormatIntInjective(a, b);
  }

  /** The salt `"combination-slot-{i}"` of a crafting slot
      (`CombinationSlotState.DeriveFormat`, whose text is not modelled; any
      fixed prefix behaves the same here). */
  const SlotDeriveFormat: string := "combination-slot-"

  function SlotAddress(avatarAddress: Address, slotIndex: int): Address
  {
    Derive(avatarAddress, SlotDeriveFormat + FormatInt(slotIndex))
  }

  /** A slot address is determined by, and determines, the avatar address and
      the slot index it was derived from. */
  lemma SlotAddressInjective(a: Address, i: int, b: Address, j: int)
    ensures SlotAddress(a, i) == SlotAddress(b, j) <==> a == b && i == j
  {
    if SlotAddress(a, i) == SlotAddress(b, j) {
      PrefixedFormatInjective(SlotDeriveFormat, i, j);
    }
  }
}
