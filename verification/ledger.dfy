/** The account-state delta an action reads and produces: an immutable view
    of address-keyed states and per-(address, currency) balances, together
    with the addresses its own write layer touched. Producing a new view never
    changes the old one, so a failed action simply leaves the old view. */
module Ledger {
  import opened Base
  import opened Addresses

  datatype Currency = Currency(ticker: string, decimalPlaces: nat)

  function Pow10(n: nat): (r: nat)
    ensures 1 <= r
  {
    if n == 0 then 1 else 10 * Pow10(n - 1)
  }

  /** `currency * amount`: `amount` whole units in the currency's smallest
      unit. */
  function Units(c: Currency, amount: int): int
  {
    amount * Pow10(c.decimalPlaces)
  }

  datatype View<V> = View(
    states: map<Address, V>,
    balances: map<(Address, Currency), nat>,
    updatedStates: set<Address>,
    updatedBalances: set<(Address, Currency)>)

  function GetState<V>(v: View<V>, a: Address): Option<V>
  {
    if a in v.states then Some(v.states[a]) else None
  }

  function SetState<V>(v: View<V>, a: Address, x: V): (r: View<V>)
    ensures r.updatedStates == v.updatedStates + {a}
    ensures r.balances == v.balances && r.updatedBalances == v.updatedBalances
    ensures forall b :: b != a ==> GetState(r, b) == GetState(v, b)
  {
    v.(states := v.states[a := x], updatedStates := v.updatedStates + {a})
  }

  /** A read after a write sees the newest write to that key and falls
      through to the older view for every other key. */
  lemma LastWriteWins<V>(v: View<V>, a: Address, x: V, b: Address)
    ensures GetState(SetState(v, a, x), b) == if a == b then Some(x) else GetState(v, b)
  {
  }

  /** `GetBalance`: an address that never held the currency holds zero. */
  function Balance<V>(v: View<V>, a: Address, c: Currency): nat
  {
    if (a, c) in v.balances then v.balances[(a, c)] else 0
  }

  /** `UpdatedAddresses`: the addresses whose state or balance this view's
      write layer touched. */
  function UpdatedAddresses<V>(v: View<V>): (r: set<Address>)
    ensures v.updatedStates <= r
    ensures forall p :: p in v.updatedBalances ==> p.0 in r
    ensures forall a :: a in r ==> a in v.updatedStates || exists c :: (a, c) in v.updatedBalances
  {
    v.updatedStates + set p | p in v.updatedBalances :: p.0
  }

  /** A view whose touched states and balance holders are all reported by
      another view touches no address that one does not report. */
  lemma UpdatedAddressesCovered<V>(v: View<V>, w: View<V>)
    requires v.updatedStates <= UpdatedAddresses(w)
    requires forall p :: p in v.updatedBalances ==> p.0 in UpdatedAddresses(w)
    ensures UpdatedAddresses(v) <= UpdatedAddresses(w)
  {
  }

  /** `MarkBalanceChanged(currency, addresses)`: records the pairs as touched
      without changing any amount. */
  function MarkBalanceChanged<V>(v: View<V>, c: Currency, accounts: set<Address>): (r: View<V>)
    ensures r.states == v.states && r.balances == v.balances && r.updatedStates == v.updatedStates
    ensures forall a :: a in accounts ==> (a, c) in r.updatedBalances
    ensures forall p :: p in r.updatedBalances <==> p in v.updatedBalances || (p.1 == c && p.0 in accounts)
  {
    v.(updatedBalances := v.updatedBalances + set a | a in accounts :: (a, c))
  }

  function Credit(balances: map<(Address, Currency), nat>, a: Address, c: Currency, amount: int): map<(Address, Currency), nat>
    requires 0 <= (if (a, c) in balances then balances[(a, c)] else 0) + amount
  {
    balances[(a, c) := (if (a, c) in balances then balances[(a, c)] else 0) + amount]
  }

  /** `TransferAsset(sender, recipient, amount)` in smallest units: refuses a
      non-positive amount and an amount above the sender's balance;
      otherwise debits the sender, credits the recipient and marks both. */
  function Transfer<V>(v: View<V>, sender: Address, recipient: Address, c: Currency, amount: int): (r: Result<View<V>>)
    ensures r.Err? <==> amount <= 0 || Balance(v, sender, c) < amount
    ensures amount <= 0 ==> r == Err(NonPositiveTransfer)
    ensures 0 < amount && Balance(v, sender, c) < amount ==> r == Err(InsufficientBalance)
    ensures r.Ok? ==> r.value.states == v.states && r.value.updatedStates == v.updatedStates
    ensures r.Ok? ==> r.value.updatedBalances == v.updatedBalances + {(sender, c), (recipient, c)}
    ensures r.Ok? && sender != recipient ==>
      && Balance(r.value, sender, c) == Balance(v, sender, c) - amount
      && Balance(r.value, recipient, c) == Balance(v, recipient, c) + amount
    ensures r.Ok? && sender == recipient ==> Balance(r.value, sender, c) == Balance(v, sender, c)
    ensures r.Ok? ==> forall a, d :: (a, d) != (sender, c) && (a, d) != (recipient, c) ==>
      Balance(r.value, a, d) == Balance(v, a, d)
  {
    if amount <= 0 then Err(NonPositiveTransfer)
    else if Balance(v, sender, c) < amount then Err(InsufficientBalance)
    else
      var debited := Credit(v.balances, sender, c, -amount);
      var credited := Credit(debited, recipient, c, amount);
      Ok(v.(balances := credited, updatedBalances := v.updatedBalances + {(sender, c), (recipient, c)}))
  }

  /** The sum of the balances in currency `c` over the addresses `accounts`. */
  ghost function Total<V>(v: View<V>, accounts: set<Address>, c: Currency): int
    decreases accounts
  {
    if accounts == {} then 0
    else
      var a :| a in accounts;
      Balance(v, a, c) + Total(v, accounts - {a}, c)
  }

  /** Any element may be split off first: the total does not depend on the
      order in which the addresses are summed. */
  lemma {:induction false} TotalSplit<V>(v: View<V>, accounts: set<Address>, c: Currency, a: Address)
    requires a in accounts
    ensures Total(v, accounts, c) == Balance(v, a, c) + Total(v, accounts - {a}, c)
    decreases accounts
  {
    var b :| b in accounts && Total(v, accounts, c) == Balance(v, b, c) + Total(v, accounts - {b}, c);
    if b != a {
      TotalSplit(v, accounts - {b}, c, a);
      TotalSplit(v, accounts - {a}, c, b);
      assert accounts - {b} - {a} == accounts - {a} - {b};
    }
  }

  /** Views that agree on every balance of `accounts` have the same total. */
  lemma {:induction false} TotalAgrees<V>(v: View<V>, w: View<V>, accounts: set<Address>, c: Currency)
    requires forall a :: a in accounts ==> Balance(v, a, c) == Balance(w, a, c)
    ensures Total(v, accounts, c) == Total(w, accounts, c)
    decreases accounts
  {
    if accounts != {} {
      var a :| a in accounts && Total(v, accounts, c) == Balance(v, a, c) + Total(v, accounts - {a}, c);
      TotalSplit(w, accounts, c, a);
      TotalAgrees(v, w, accounts - {a}, c);
    }
  }

  /** A transfer conserves supply: over any set of addresses holding both
      parties, the total in the transferred currency is unchanged. */
  lemma TransferConservesTotal<V>(v: View<V>, sender: Address, recipient: Address, c: Currency, amount: int, accounts: set<Address>)
    requires Transfer(v, sender, recipient, c, amount).Ok?
    requires sender in accounts && recipient in accounts
    ensures Total(Transfer(v, sender, recipient, c, amount).value, accounts, c) == Total(v, accounts, c)
  {
    var w := Transfer(v, sender, recipient, c, amount).value;
    if sender == recipient {
      TotalAgrees(v, w, accounts, c);
    } else {
      var rest := accounts - {sender} - {recipient};
      TotalSplit(v, accounts, c, sender);
      TotalSplit(v, accounts - {sender}, c, recipient);
      TotalSplit(w, accounts, c, sender);
      TotalSplit(w, accounts - {sender}, c, recipient);
      TotalAgrees(v, w, rest, c);
    }
  }
}
