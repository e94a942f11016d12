/*
 * The farmer token: balances, allowances and total supply kept in contract
 * storage, with transfers, approvals and the three kinds of burn.
 *
 * Storage is sparse: writing a zero balance or allowance removes its key and
 * reading a missing key gives 0. The model keeps that representation (maps
 * without zero entries) and proves that the sum of all balances always equals
 * the recorded total supply.
 */
module FarmerToken {
  import opened Common

  datatype TokenError =
    | AlreadyInitialized | NotInitialized | InsufficientBalance
    | InsufficientAllowance | InvalidAmount | Paused | Unauthorized

  datatype BurnError = BurnUnauthorized | BurnInvalidAmount | BurnInsufficientBalance | BurnPaused

  datatype TokenMetadata = TokenMetadata(name: string, symbol: string, decimals: nat, totalSupply: int)

  /** What `token_metadata` reads before the token is initialized. */
  const DEFAULT_METADATA: TokenMetadata := TokenMetadata("Unknown", "UNK", 7, 0)

  /** A storage read: a missing key reads as 0. */
  function Get<K>(m: map<K, int>, k: K): int
  {
    if k in m then m[k] else 0
  }

  /** A storage write that removes the key instead of storing 0. */
  function Stored<K(!new)>(m: map<K, int>, k: K, v: int): (m': map<K, int>)
    ensures Get(m', k) == v
    ensures forall j :: j != k ==> Get(m', j) == Get(m, j)
    ensures k !in m' <==> v == 0
    ensures forall j :: j in m' && j != k ==> j in m && m'[j] == m[j]
  {
    if v == 0 then m - {k} else m[k := v]
  }

  /** No stored value is zero. */
  predicate Sparse<K(!new)>(m: map<K, int>)
  {
    forall k :: k in m ==> m[k] != 0
  }

  lemma StoredKeepsSparse<K(!new)>(m: map<K, int>, k: K, v: int)
    requires Sparse(m)
    ensures Sparse(Stored(m, k, v))
  {
  }

  // ---------------------------------------------------------------------
  // The sum of all balances
  // ---------------------------------------------------------------------

  /** Writing `v` under `k` changes the sum by `v` minus the value read before. */
  lemma StoredTotal(m: map<Address, int>, k: Address, v: int)
    ensures MapSum(Stored(m, k, v)) == MapSum(m) - Get(m, k) + v
  {
    if v == 0 {
      MapSumDelete(m, k);
    } else {
      MapSumUpdate(m, k, v);
    }
  }

  // ---------------------------------------------------------------------
  // Transfers
  // ---------------------------------------------------------------------

  /** The two balance writes of a transfer: `from` is debited first and `to`
      is credited from a fresh read, so a transfer to oneself nets to zero. */
  function Moved(m: map<Address, int>, from: Address, to: Address, amount: int): (m': map<Address, int>)
    ensures from != to ==> Get(m', from) == Get(m, from) - amount && Get(m', to) == Get(m, to) + amount
    ensures from == to ==> Get(m', from) == Get(m, from)
    ensures forall a :: a != from && a != to ==> Get(m', a) == Get(m, a)
  {
    var m1 := Stored(m, from, Get(m, from) - amount);
    Stored(m1, to, Get(m1, to) + amount)
  }

  /** A transfer neither creates nor destroys tokens. */
  lemma MovedConserves(m: map<Address, int>, from: Address, to: Address, amount: int)
    ensures MapSum(Moved(m, from, to, amount)) == MapSum(m)
  {
    var m1 := Stored(m, from, Get(m, from) - amount);
    StoredTotal(m, from, Get(m, from) - amount);
    StoredTotal(m1, to, Get(m1, to) + amount);
  }

  lemma MovedKeepsPositive(m: map<Address, int>, from: Address, to: Address, amount: int)
    requires forall a :: a in m ==> m[a] > 0
    requires 0 < amount <= Get(m, from)
    ensures forall a :: a in Moved(m, from, to, amount) ==> Moved(m, from, to, amount)[a] > 0
  {
    var m' := Moved(m, from, to, amount);
    forall a | a in m'
      ensures m'[a] > 0
    {
      assert Get(m', a) == m'[a];
    }
  }

  function TransferCheck(amount: int, paused: bool, fromBalance: int): (e: Option<TokenError>)
    ensures e.None? <==> 0 < amount && !paused && amount <= fromBalance
    ensures amount <= 0 ==> e == Some(InvalidAmount)
    ensures 0 < amount && paused ==> e == Some(Paused)
  {
    if amount <= 0 then Some(InvalidAmount)
    else if paused then Some(Paused)
    else if fromBalance < amount then Some(InsufficientBalance)
    else None
  }

  function TransferFromCheck(amount: int, paused: bool, allowance: int, fromBalance: int): (e: Option<TokenError>)
    ensures e.None? <==> 0 < amount && !paused && amount <= allowance && amount <= fromBalance
    ensures 0 < amount && !paused && allowance < amount ==> e == Some(InsufficientAllowance)
    ensures TransferCheck(amount, paused, fromBalance).Some? && e != Some(InsufficientAllowance)
            ==> e == TransferCheck(amount, paused, fromBalance)
  {
    if amount <= 0 then Some(InvalidAmount)
    else if paused then Some(Paused)
    else if allowance < amount then Some(InsufficientAllowance)
    else if fromBalance < amount then Some(InsufficientBalance)
    else None
  }

  // ---------------------------------------------------------------------
  // Burns
  // ---------------------------------------------------------------------

  /** `burn_tokens`: a burner other than the holder first needs an allowance
      of at least `amount`; then pause, amount and balance are checked. */
  function BurnCheck(byHolder: bool, allowance: int, paused: bool, amount: int, balance: int): (e: Option<BurnError>)
    ensures e.None? <==> (byHolder || amount <= allowance) && !paused && 0 < amount <= balance
    ensures !byHolder && allowance < amount ==> e == Some(BurnUnauthorized)
    ensures (byHolder || amount <= allowance) && !paused && amount <= 0 ==> e == Some(BurnInvalidAmount)
  {
    if !byHolder && allowance < amount then Some(BurnUnauthorized)
    else if paused then Some(BurnPaused)
    else if amount <= 0 then Some(BurnInvalidAmount)
    else if balance < amount then Some(BurnInsufficientBalance)
    else None
  }

  /** `burn_for_redemption`: the holder burns its own tokens. */
  function RedemptionCheck(paused: bool, amount: int, balance: int): (e: Option<BurnError>)
    ensures e.None? <==> !paused && 0 < amount <= balance
    ensures e.None? <==> BurnCheck(true, 0, paused, amount, balance).None?
  {
    if paused then Some(BurnPaused)
    else if amount <= 0 then Some(BurnInvalidAmount)
    else if balance < amount then Some(BurnInsufficientBalance)
    else None
  }

  /** `burn_as_penalty` as the source writes it: only the stored admin may
      call it and the balance must cover `amount`, but neither the sign of
      `amount` nor the pause flag is checked. */
  function PenaltyCheckAsWritten(storedAdmin: Option<Address>, caller: Address, amount: int, balance: int)
    : (e: Option<BurnError>)
    ensures e.None? <==> storedAdmin == Some(caller) && amount <= balance
  {
    if storedAdmin.None? || storedAdmin.value != caller then Some(BurnUnauthorized)
    else if balance < amount then Some(BurnInsufficientBalance)
    else None
  }

  /** With a negative amount the penalty "burn" passes its checks and the
      balance write `balance - amount` raises the holder's balance (and the
      total supply) by `-amount`: the admin can mint without being a minter. */
  lemma PenaltyAsWrittenMints(admin: Address, balance: int, amount: int)
    requires amount < 0 <= balance
    ensures PenaltyCheckAsWritten(Some(admin), admin, amount, balance).None?
    ensures balance - amount > balance
  {
  }

  /** The corrected penalty check rejects a non-positive amount, as the other
      two burns do. It does not add a pause check. */
  function PenaltyCheck(storedAdmin: Option<Address>, caller: Address, amount: int, balance: int)
    : (e: Option<BurnError>)
    ensures e.None? <==> storedAdmin == Some(caller) && 0 < amount <= balance
    ensures storedAdmin != Some(caller) ==> e == Some(BurnUnauthorized)
    ensures e.None? ==> PenaltyCheckAsWritten(storedAdmin, caller, amount, balance).None?
  {
    if storedAdmin.None? || storedAdmin.value != caller then Some(BurnUnauthorized)
    else if amount <= 0 then Some(BurnInvalidAmount)
    else if balance < amount then Some(BurnInsufficientBalance)
    else None
  }

  // ---------------------------------------------------------------------
  // The token contract's storage
  // ---------------------------------------------------------------------

  class Token {
    var admin: Option<Address>
    var metadata: Option<TokenMetadata>
    var totalSupply: int
    var balances: map<Address, int>
    var allowances: map<(Address, Address), int>
    var minters: map<Address, bool>
    var paused: bool

    /** Every stored balance is positive, allowances are never stored as 0,
        the balances add up to the total supply, the metadata copy of the
        supply agrees with it, and nothing is held before initialization. */
    ghost predicate Valid()
      reads this`admin, this`metadata, this`totalSupply, this`balances, this`allowances
    {
      (forall a :: a in balances ==> balances[a] > 0) &&
      Sparse(allowances) &&
      MapSum(balances) == totalSupply &&
      CurrentMetadata().totalSupply == totalSupply &&
      (admin.None? ==> balances == map[])
    }

    /** `token_metadata`: the stored metadata or the default. */
    function CurrentMetadata(): TokenMetadata
      reads this`metadata
    {
      if metadata.Some? then metadata.value else DEFAULT_METADATA
    }

    function BalanceOf(a: Address): int
      reads this`balances
    {
      Get(balances, a)
    }

    function AllowanceOf(owner: Address, spender: Address): int
      reads this`allowances
    {
      Get(allowances, (owner, spender))
    }

    /** A fresh deployment: no keys are stored. */
    constructor ()
      ensures admin.None? && metadata.None? && totalSupply == 0 && !paused
      ensures balances == map[] && allowances == map[] && minters == map[]
      ensures Valid()
    {
      admin := None;
      metadata := None;
      totalSupply := 0;
      balances := map[];
      allowances := map[];
      minters := map[];
      paused := false;
    }

    method Initialize(newAdmin: Address, name: string, symbol: string, decimals: nat)
      returns (r: Result<(), TokenError>)
      requires Valid()
      modifies this`admin, this`metadata, this`totalSupply, this`minters, this`paused
      ensures Valid()
      ensures old(admin).Some? ==> r == Err(AlreadyInitialized) && unchanged(this)
      ensures old(admin).None? ==>
        (r.Ok? && admin == Some(newAdmin) && metadata == Some(TokenMetadata(name, symbol, decimals, 0)) &&
         totalSupply == 0 && minters == map[newAdmin := true] && !paused)
    {
      if admin.Some? {
        return Err(AlreadyInitialized);
      }
      admin := Some(newAdmin);
      metadata := Some(TokenMetadata(name, symbol, decimals, 0));
      totalSupply := 0;
      minters := map[newAdmin := true];
      paused := false;
      r := Ok(());
    }

    /** `update_total_supply`: the supply and the metadata copy move together. */
    method UpdateTotalSupply(newSupply: int)
      modifies this`totalSupply, this`metadata
      ensures totalSupply == newSupply
      ensures metadata == Some(old(CurrentMetadata()).(totalSupply := newSupply))
      ensures CurrentMetadata().totalSupply == totalSupply
    {
      var m := CurrentMetadata();
      totalSupply := newSupply;
      metadata := Some(m.(totalSupply := newSupply));
    }

    method Transfer(from: Address, to: Address, amount: int) returns (r: Result<(), TokenError>)
      requires Valid()
      modifies this`balances
      ensures Valid()
      ensures var e := TransferCheck(amount, paused, old(BalanceOf(from)));
        if e.Some? then r == Err(e.value) && balances == old(balances)
        else r.Ok? && balances == Moved(old(balances), from, to, amount)
    {
      var e := TransferCheck(amount, paused, BalanceOf(from));
      if e.Some? {
        return Err(e.value);
      }
      MovedConserves(balances, from, to, amount);
      MovedKeepsPositive(balances, from, to, amount);
      balances := Moved(balances, from, to, amount);
      r := Ok(());
    }

    method TransferFrom(spender: Address, from: Address, to: Address, amount: int)
      returns (r: Result<(), TokenError>)
      requires Valid()
      modifies this`balances, this`allowances
      ensures Valid()
      ensures var allowance := old(AllowanceOf(from, spender));
        var e := TransferFromCheck(amount, paused, allowance, old(BalanceOf(from)));
        if e.Some? then r == Err(e.value) && balances == old(balances) && allowances == old(allowances)
        else r.Ok? && balances == Moved(old(balances), from, to, amount) &&
             allowances == Stored(old(allowances), (from, spender), allowance - amount)
    {
      var allowance := AllowanceOf(from, spender);
      var e := TransferFromCheck(amount, paused, allowance, BalanceOf(from));
      if e.Some? {
        return Err(e.value);
      }
      MovedConserves(balances, from, to, amount);
      MovedKeepsPositive(balances, from, to, amount);
      StoredKeepsSparse(allowances, (from, spender), allowance - amount);
      balances := Moved(balances, from, to, amount);
      allowances := Stored(allowances, (from, spender), allowance - amount);
      r := Ok(());
    }

    method Approve(owner: Address, spender: Address, amount: int) returns (r: Result<(), TokenError>)
      requires Valid()
      modifies this`allowances
      ensures Valid()
      ensures amount < 0 ==> r == Err(InvalidAmount) && allowances == old(allowances)
      ensures amount >= 0 ==> r.Ok? && allowances == Stored(old(allowances), (owner, spender), amount)
    {
      if amount < 0 {
        return Err(InvalidAmount);
      }
      StoredKeepsSparse(allowances, (owner, spender), amount);
      allowances := Stored(allowances, (owner, spender), amount);
      r := Ok(());
    }

    /** The balance and supply update shared by the three burns. */
    method Debit(holder: Address, amount: int)
      requires Valid()
      requires 0 < amount <= BalanceOf(holder)
      modifies this`balances, this`totalSupply, this`metadata
      ensures Valid()
      ensures balances == Stored(old(balances), holder, old(BalanceOf(holder)) - amount)
      ensures totalSupply == old(totalSupply) - amount
      ensures metadata == Some(old(CurrentMetadata()).(totalSupply := totalSupply))
    {
      var b := BalanceOf(holder);
      StoredTotal(balances, holder, b - amount);
      balances := Stored(balances, holder, b - amount);
      UpdateTotalSupply(totalSupply - amount);
    }

    method BurnTokens(burner: Address, from: Address, amount: int) returns (r: Result<(), BurnError>)
      requires Valid()
      modifies this`balances, this`allowances, this`totalSupply, this`metadata
      ensures Valid()
      ensures var allowance := old(AllowanceOf(from, burner));
        var e := BurnCheck(burner == from, allowance, paused, amount, old(BalanceOf(from)));
        if e.Some? then r == Err(e.value) && unchanged(this)
        else r.Ok? &&
             balances == Stored(old(balances), from, old(BalanceOf(from)) - amount) &&
             totalSupply == old(totalSupply) - amount &&
             allowances == (if burner == from then old(allowances)
                            else Stored(old(allowances), (from, burner), allowance - amount))
    {
      var allowance := AllowanceOf(from, burner);
      var e := BurnCheck(burner == from, allowance, paused, amount, BalanceOf(from));
      if e.Some? {
        return Err(e.value);
      }
      if burner != from {
        StoredKeepsSparse(allowances, (from, burner), allowance - amount);
        allowances := Stored(allowances, (from, burner), allowance - amount);
      }
      Debit(from, amount);
      r := Ok(());
    }

    method BurnForRedemption(farmer: Address, amount: int) returns (r: Result<(), BurnError>)
      requires Valid()
      modifies this`balances, this`totalSupply, this`metadata
      ensures Valid()
      ensures var e := RedemptionCheck(paused, amount, old(BalanceOf(farmer)));
        if e.Some? then r == Err(e.value) && unchanged(this)
        else r.Ok? &&
             balances == Stored(old(balances), farmer, old(BalanceOf(farmer)) - amount) &&
             totalSupply == old(totalSupply) - amount
    {
      var e := RedemptionCheck(paused, amount, BalanceOf(farmer));
      if e.Some? {
        return Err(e.value);
      }
      Debit(farmer, amount);
      r := Ok(());
    }

    /** `burn_as_penalty` with the corrected check (see `PenaltyCheck`). */
    method BurnAsPenalty(caller: Address, from: Address, amount: int) returns (r: Result<(), BurnError>)
      requires Valid()
      modifies this`balances, this`totalSupply, this`metadata
      ensures Valid()
      ensures var e := PenaltyCheck(admin, caller, amount, old(BalanceOf(from)));
        if e.Some? then r == Err(e.value) && unchanged(this)
        else r.Ok? &&
             balances == Stored(old(balances), from, old(BalanceOf(from)) - amount) &&
             totalSupply == old(totalSupply) - amount
    {
      var e := PenaltyCheck(admin, caller, amount, BalanceOf(from));
      if e.Some? {
        return Err(e.value);
      }
      Debit(from, amount);
      r := Ok(());
    }
  }

  /** A successful burn of any kind lowers the holder's balance and the total
      supply by exactly `amount`, and no other balance moves. */
  lemma BurnAccounting(m: map<Address, int>, holder: Address, amount: int)
    requires 0 < amount <= Get(m, holder)
    ensures Get(Stored(m, holder, Get(m, holder) - amount), holder) == Get(m, holder) - amount >= 0
    ensures MapSum(Stored(m, holder, Get(m, holder) - amount)) == MapSum(m) - amount
  {
    StoredTotal(m, holder, Get(m, holder) - amount);
  }
}
