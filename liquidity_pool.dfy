/*
 * The farmer liquidity pool: a two-token constant-product pool with a fee.
 * Providers deposit both tokens for pool shares and redeem shares for a
 * proportional part of both reserves; traders buy one token with the other
 * at a price that keeps the fee-adjusted product of the reserves from
 * falling. All arithmetic is i128; Rust's `/` truncates toward zero, which
 * `Quot` models.
 */
module LiquidityPool {
  import opened Common

  /** Fees are in basis points. */
  const FEE_DENOMINATOR: int := 10000

  /** Fee debts are kept at this scale. */
  const FEE_SCALE: int := 1000000000

  datatype Position = Position(provider: Address, liquidity: int, shares: int, feeDebtA: int, feeDebtB: int)

  /** The panics of the pool, and those of the token and integer operations
      it relies on, each of which reverts the call. */
  datatype PoolError =
    | TokensOutOfOrder
    | InvalidFeeRate
    | NegativeAmount
    | DivisionByZero
    | InMaxExceeded
    | InvariantViolated
    | InsufficientBalance
    | NoPosition
    | InsufficientShares
    | MinNotSatisfied

  // ---------------------------------------------------------------------
  // Initialization

  /** `initialize` needs the tokens in strictly increasing order and a
      positive fee rate. */
  function InitCheck(tokenA: Address, tokenB: Address, feeRate: int): (e: Option<PoolError>)
    ensures e.None? <==> tokenA < tokenB && feeRate > 0
    ensures tokenA >= tokenB ==> e == Some(TokensOutOfOrder)
  {
    if tokenA >= tokenB then Some(TokensOutOfOrder)
    else if feeRate <= 0 then Some(InvalidFeeRate)
    else None
  }

  // ---------------------------------------------------------------------
  // Deposits

  /** The integer square root, rounded down. */
  function ISqrt(n: nat): (r: nat)
    ensures r * r <= n < (r + 1) * (r + 1)
    decreases n
  {
    if n == 0 then 0
    else
      var h := ISqrt(n / 4);
      ISqrtStep(n, h);
      var r := 2 * h;
      if (r + 1) * (r + 1) <= n then r + 1 else r
  }

  /** Doubling the root of n / 4 gives the root of n, or one less. */
  lemma ISqrtStep(n: nat, h: nat)
    requires h * h <= n / 4 < (h + 1) * (h + 1)
    ensures (2 * h) * (2 * h) <= n < (2 * h + 2) * (2 * h + 2)
  {
    var q := n / 4;
    assert 4 * q <= n < 4 * q + 4;
    assert (2 * h) * (2 * h) == 4 * (h * h);
    assert (2 * h + 2) * (2 * h + 2) == 4 * ((h + 1) * (h + 1));
  }

  /** The share total after a deposit of `amountA` and `amountB` into
      reserves `reserveA` and `reserveB`: the geometric mean of the new
      balances while either reserve is empty, otherwise the smaller of the
      two proportional totals. A negative amount is refused by the token,
      and a negative mint by the share token. */
  function DepositResult(reserveA: int, reserveB: int, totalShares: int, amountA: int, amountB: int)
    : (r: Result<int, PoolError>)
    requires reserveA >= 0 && reserveB >= 0
    ensures amountA < 0 || amountB < 0 ==> r == Err(NegativeAmount)
    ensures r.Ok? ==> amountA >= 0 && amountB >= 0 && r.value >= totalShares
  {
    if amountA < 0 || amountB < 0 then Err(NegativeAmount)
    else
      var balanceA, balanceB := reserveA + amountA, reserveB + amountB;
      var newTotal :=
        if reserveA > 0 && reserveB > 0 then
          Min(Quot(balanceA * totalShares, reserveA), Quot(balanceB * totalShares, reserveB))
        else ISqrt(balanceA * balanceB);
      if newTotal - totalShares < 0 then Err(NegativeAmount) else Ok(newTotal)
  }

  /** The first deposit into an empty pool mints the integer square root of
      the product of the two amounts. */
  lemma FirstDepositShares(amountA: nat, amountB: nat)
    ensures var r := DepositResult(0, 0, 0, amountA, amountB);
      && r.Ok?
      && r.value * r.value <= amountA * amountB < (r.value + 1) * (r.value + 1)
  {
  }

  /** A later deposit never dilutes existing holders: the new share total
      grows by no larger a fraction than either reserve does. */
  lemma DepositDoesNotDilute(reserveA: nat, reserveB: nat, totalShares: nat, amountA: nat, amountB: nat)
    requires reserveA > 0 && reserveB > 0
    ensures var r := DepositResult(reserveA, reserveB, totalShares, amountA, amountB);
      && r.Ok? && r.value >= totalShares
      && r.value * reserveA <= (reserveA + amountA) * totalShares
      && r.value * reserveB <= (reserveB + amountB) * totalShares
  {
    ProportionalShares(reserveA, amountA, totalShares);
    ProportionalShares(reserveB, amountB, totalShares);
    var sa := Quot((reserveA + amountA) * totalShares, reserveA);
    var sb := Quot((reserveB + amountB) * totalShares, reserveB);
    var m := Min(sa, sb);
    MulMonotone(m, sa, reserveA);
    MulMonotone(m, sb, reserveB);
  }

  /** One side of a later deposit: the total scaled by the reserve's growth,
      rounded down, is at least the old total and at most the exact value. */
  lemma ProportionalShares(reserve: nat, amount: nat, totalShares: nat)
    requires reserve > 0
    ensures var s := Quot((reserve + amount) * totalShares, reserve);
      s >= totalShares && s * reserve <= (reserve + amount) * totalShares
  {
    var balance := reserve + amount;
    QuotOfNonNegative(balance * totalShares, reserve);
    var s := (balance * totalShares) / reserve;
    assert s * reserve <= balance * totalShares;
    MulMonotone(reserve, balance, totalShares);
    DivMonotone(reserve * totalShares, balance * totalShares, reserve);
    assert reserve * totalShares == totalShares * reserve;
    DivOfMultiple(totalShares, reserve);
  }

  // ---------------------------------------------------------------------
  // Swaps

  /** The amount a trader must sell to buy `out` from the other reserve:
      reserveSell * out * 10000 / ((reserveBuy - out) * (10000 - fee)),
      truncated, plus one. */
  function SellAmount(reserveSell: int, reserveBuy: int, out: int, feeRate: int): (r: Result<int, PoolError>)
    ensures r.Err? <==> (reserveBuy - out) * (FEE_DENOMINATOR - feeRate) == 0
  {
    var n := reserveSell * out * FEE_DENOMINATOR;
    var d := (reserveBuy - out) * (FEE_DENOMINATOR - feeRate);
    if d == 0 then Err(DivisionByZero) else Ok(Quot(n, d) + 1)
  }

  /** One side of the fee-adjusted invariant after a swap: growth of a
      reserve counts only net of the fee, shrinkage counts in full. */
  function InvariantFactor(balance: int, reserve: int, out: int, feeRate: int): int
  {
    var delta := balance - reserve - out;
    FEE_DENOMINATOR * reserve + (if delta > 0 then (FEE_DENOMINATOR - feeRate) * delta else FEE_DENOMINATOR * delta)
  }

  /** `swap`: the new reserves (A, B) when a trader buys `out` of token A
      (`buyA`) or token B, paying at most `inMax`. */
  function SwapResult(reserveA: int, reserveB: int, feeRate: int, buyA: bool, out: int, inMax: int)
    : (r: Result<(int, int), PoolError>)
    ensures r.Ok? && buyA ==> r.value.1 >= reserveB && r.value.0 == reserveA - out
    ensures r.Ok? && !buyA ==> r.value.0 >= reserveA && r.value.1 == reserveB - out
  {
    var reserveSell, reserveBuy := if buyA then reserveB else reserveA, if buyA then reserveA else reserveB;
    var sell := SellAmount(reserveSell, reserveBuy, out, feeRate);
    if sell.Err? then Err(sell.error)
    else if sell.value > inMax then Err(InMaxExceeded)
    else if sell.value < 0 then Err(NegativeAmount)
    else
      var balanceA := if buyA then reserveA else reserveA + sell.value;
      var balanceB := if buyA then reserveB + sell.value else reserveB;
      var outA, outB := if buyA then out else 0, if buyA then 0 else out;
      if InvariantFactor(balanceA, reserveA, outA, feeRate) * InvariantFactor(balanceB, reserveB, outB, feeRate) <
         (FEE_DENOMINATOR * reserveA) * (FEE_DENOMINATOR * reserveB)
      then Err(InvariantViolated)
      else if out < 0 then Err(NegativeAmount)
      else if out > (if buyA then balanceA else balanceB) then Err(InsufficientBalance)
      else Ok((balanceA - outA, balanceB - outB))
  }

  lemma MulLeft(x: int, y: int, k: nat)
    requires x <= y
    ensures x * k <= y * k
  {
    assert y * k - x * k == (y - x) * k;
  }

  lemma ProductCancel(x: int, y: int)
    requires FEE_DENOMINATOR * FEE_DENOMINATOR * x >= FEE_DENOMINATOR * FEE_DENOMINATOR * y
    ensures x >= y
  {
  }

  /** The fee-adjusted check, once passed, bounds the raw product: growth
      net of a positive fee is at most the growth itself. */
  lemma AdjustedBoundsRaw(reserveSell: nat, reserveBuy: int, sell: nat, out: nat, feeRate: int)
    requires feeRate > 0 && out <= reserveBuy
    requires InvariantFactor(reserveSell + sell, reserveSell, 0, feeRate) * InvariantFactor(reserveBuy, reserveBuy, out, feeRate)
             >= (FEE_DENOMINATOR * reserveSell) * (FEE_DENOMINATOR * reserveBuy)
    ensures (reserveSell + sell) * (reserveBuy - out) >= reserveSell * reserveBuy
  {
    var left := InvariantFactor(reserveSell + sell, reserveSell, 0, feeRate);
    var right := InvariantFactor(reserveBuy, reserveBuy, out, feeRate);
    var remaining: nat := reserveBuy - out;
    assert right == FEE_DENOMINATOR * remaining;
    assert left <= FEE_DENOMINATOR * (reserveSell + sell) by {
      if sell > 0 {
        assert feeRate * sell >= 0;
        assert (FEE_DENOMINATOR - feeRate) * sell == FEE_DENOMINATOR * sell - feeRate * sell;
      }
    }
    MulLeft(left, FEE_DENOMINATOR * (reserveSell + sell), right);
    assert FEE_DENOMINATOR * (reserveSell + sell) * (FEE_DENOMINATOR * remaining) ==
           FEE_DENOMINATOR * FEE_DENOMINATOR * ((reserveSell + sell) * remaining);
    assert (FEE_DENOMINATOR * reserveSell) * (FEE_DENOMINATOR * reserveBuy) ==
           FEE_DENOMINATOR * FEE_DENOMINATOR * (reserveSell * reserveBuy);
    ProductCancel((reserveSell + sell) * remaining, reserveSell * reserveBuy);
  }

  /** A successful swap never shrinks the product of the reserves. */
  lemma SwapKeepsProduct(reserveA: nat, reserveB: nat, feeRate: int, buyA: bool, out: int, inMax: int)
    requires feeRate > 0
    requires SwapResult(reserveA, reserveB, feeRate, buyA, out, inMax).Ok?
    ensures var r := SwapResult(reserveA, reserveB, feeRate, buyA, out, inMax).value;
      r.0 >= 0 && r.1 >= 0 && r.0 * r.1 >= reserveA * reserveB
  {
    if buyA {
      BuyAKeepsProduct(reserveA, reserveB, feeRate, out, inMax);
    } else {
      var sell := SellAmount(reserveA, reserveB, out, feeRate).value;
      AdjustedBoundsRaw(reserveA, reserveB, sell, out, feeRate);
    }
  }

  /** The case of buying token A, where the factors come in the other
      order. */
  lemma BuyAKeepsProduct(reserveA: nat, reserveB: nat, feeRate: int, out: int, inMax: int)
    requires feeRate > 0
    requires SwapResult(reserveA, reserveB, feeRate, true, out, inMax).Ok?
    ensures var r := SwapResult(reserveA, reserveB, feeRate, true, out, inMax).value;
      r.0 >= 0 && r.1 >= 0 && r.0 * r.1 >= reserveA * reserveB
  {
    var r := SwapResult(reserveA, reserveB, feeRate, true, out, inMax).value;
    var sell := SellAmount(reserveB, reserveA, out, feeRate).value;
    var x := InvariantFactor(reserveA, reserveA, out, feeRate);
    var y := InvariantFactor(reserveB + sell, reserveB, 0, feeRate);
    var oldA, oldB := FEE_DENOMINATOR * reserveA, FEE_DENOMINATOR * reserveB;
    assert x * y >= oldA * oldB;
    assert y * x == x * y && oldB * oldA == oldA * oldB;
    AdjustedBoundsRaw(reserveB, reserveA, sell, out, feeRate);
    assert r == (reserveA - out, reserveB + sell);
    assert (reserveB + sell) * (reserveA - out) == r.0 * r.1;
    assert reserveB * reserveA == reserveA * reserveB;
  }

  /** The quoted sell amount always passes the fee-adjusted check when the
      trade takes less than the whole reserve and the fee is below 100%. */
  lemma QuoteMeetsInvariant(reserveSell: nat, reserveBuy: int, out: int, feeRate: int)
    requires 0 < out < reserveBuy && 0 < feeRate < FEE_DENOMINATOR
    ensures var sell := SellAmount(reserveSell, reserveBuy, out, feeRate);
      && sell.Ok? && sell.value >= 1
      && InvariantFactor(reserveSell + sell.value, reserveSell, 0, feeRate) *
         InvariantFactor(reserveBuy, reserveBuy, out, feeRate)
         >= (FEE_DENOMINATOR * reserveSell) * (FEE_DENOMINATOR * reserveBuy)
  {
    var n: nat := reserveSell * out * FEE_DENOMINATOR;
    var remaining: nat := reserveBuy - out;
    var keep: nat := FEE_DENOMINATOR - feeRate;
    var d: nat := remaining * keep;
    assert d > 0;
    var q := Quot(n, d);
    QuotOfNonNegative(n, d);
    var sell := q + 1;
    assert n < sell * d;
    assert keep * sell * remaining == sell * d;
    var left := FEE_DENOMINATOR * reserveSell + keep * sell;
    var right := FEE_DENOMINATOR * remaining;
    assert InvariantFactor(reserveSell + sell, reserveSell, 0, feeRate) == left;
    assert InvariantFactor(reserveBuy, reserveBuy, out, feeRate) == right;
    QuoteArithmetic(reserveSell, remaining, out, keep * sell * remaining, keep * sell);
  }

  /** The algebra behind the quote: once the fee-adjusted payment times the
      remaining reserve exceeds the value taken out, the adjusted product
      is at least the old one. */
  lemma QuoteArithmetic(reserveSell: nat, remaining: nat, out: nat, paid: int, adjusted: int)
    requires paid == adjusted * remaining && paid > reserveSell * out * FEE_DENOMINATOR
    ensures (FEE_DENOMINATOR * reserveSell + adjusted) * (FEE_DENOMINATOR * remaining)
            >= (FEE_DENOMINATOR * reserveSell) * (FEE_DENOMINATOR * (remaining + out))
  {
    calc {
      (FEE_DENOMINATOR * reserveSell + adjusted) * (FEE_DENOMINATOR * remaining);
      FEE_DENOMINATOR * (FEE_DENOMINATOR * (reserveSell * remaining) + paid);
      >=
      FEE_DENOMINATOR * (FEE_DENOMINATOR * (reserveSell * remaining) + FEE_DENOMINATOR * (reserveSell * out));
      (FEE_DENOMINATOR * reserveSell) * (FEE_DENOMINATOR * (remaining + out));
    }
  }

  /** A trade for less than the whole reserve, at a fee below 100% and with
      `inMax` at least the quote, goes through at the quoted price. */
  lemma SwapAtQuoteSucceeds(reserveA: nat, reserveB: nat, feeRate: int, buyA: bool, out: int, inMax: int)
    requires 0 < feeRate < FEE_DENOMINATOR
    requires 0 < out < (if buyA then reserveA else reserveB)
    requires var sell := SellAmount(if buyA then reserveB else reserveA, if buyA then reserveA else reserveB, out, feeRate);
             sell.Ok? && sell.value <= inMax
    ensures var sell := SellAmount(if buyA then reserveB else reserveA, if buyA then reserveA else reserveB, out, feeRate).value;
      SwapResult(reserveA, reserveB, feeRate, buyA, out, inMax) ==
        Ok(if buyA then (reserveA - out, reserveB + sell) else (reserveA + sell, reserveB - out))
  {
    if buyA {
      QuoteMeetsInvariant(reserveB, reserveA, out, feeRate);
      var sell := SellAmount(reserveB, reserveA, out, feeRate).value;
      var x := InvariantFactor(reserveA, reserveA, out, feeRate);
      var y := InvariantFactor(reserveB + sell, reserveB, 0, feeRate);
      assert x * y == y * x;
    } else {
      QuoteMeetsInvariant(reserveA, reserveB, out, feeRate);
    }
  }

  // ---------------------------------------------------------------------
  // Removal

  /** `remove_liquidity`'s amounts: the provider needs a position holding
      at least the shares redeemed, and receives each reserve times the
      shares over the total, truncated, if that meets both minimums. */
  function RemoveResult(positions: map<Address, Position>, totalShares: int, reserveA: int, reserveB: int,
                        to: Address, shareAmount: int, minA: int, minB: int): (r: Result<(int, int), PoolError>)
    ensures to !in positions ==> r == Err(NoPosition)
    ensures r.Ok? ==> to in positions && 0 <= shareAmount <= positions[to].shares
    ensures r.Ok? ==> r.value.0 >= minA && r.value.1 >= minB
  {
    if to !in positions then Err(NoPosition)
    else if positions[to].shares < shareAmount then Err(InsufficientShares)
    else if shareAmount < 0 then Err(NegativeAmount)
    else if totalShares == 0 then Err(DivisionByZero)
    else
      var outA := Quot(reserveA * shareAmount, totalShares);
      var outB := Quot(reserveB * shareAmount, totalShares);
      if outA < minA || outB < minB then Err(MinNotSatisfied) else Ok((outA, outB))
  }

  /** A redemption of shares out of the total pays the floor of its
      proportional part of a reserve, which never exceeds the reserve. */
  lemma ProportionalPayout(reserve: nat, shareAmount: nat, totalShares: nat)
    requires 0 < totalShares && shareAmount <= totalShares
    ensures var out := Quot(reserve * shareAmount, totalShares);
      && out * totalShares <= reserve * shareAmount < (out + 1) * totalShares
      && 0 <= out <= reserve
  {
    QuotOfNonNegative(reserve * shareAmount, totalShares);
    MulMonotone(shareAmount, totalShares, reserve);
    DivMonotone(reserve * shareAmount, reserve * totalShares, totalShares);
    DivOfMultiple(reserve, totalShares);
    assert reserve * totalShares == totalShares * reserve;
  }

  // ---------------------------------------------------------------------
  // Positions

  ghost function SharesOf(positions: map<Address, Position>): map<Address, int>
  {
    map a | a in positions :: positions[a].shares
  }

  /** Each position is keyed by its provider and holds no negative shares,
      and together they hold all the shares. */
  ghost predicate PositionsOk(positions: map<Address, Position>, totalShares: int)
  {
    && (forall a :: a in positions ==> positions[a].provider == a && positions[a].shares >= 0)
    && totalShares == MapSum(SharesOf(positions))
  }

  /** The position after a deposit minting `minted` shares: shares and
      liquidity grow and the fee debts are taken at the current fee per
      share. */
  function Deposited(positions: map<Address, Position>, to: Address, amountA: int, amountB: int, minted: int,
                     feePerShareA: int, feePerShareB: int): map<Address, Position>
  {
    var p :=
      if to in positions then
        var s := positions[to].shares + minted;
        positions[to].(shares := s, liquidity := positions[to].liquidity + (amountA + amountB),
                       feeDebtA := Quot(s * feePerShareA, FEE_SCALE), feeDebtB := Quot(s * feePerShareB, FEE_SCALE))
      else
        Position(to, amountA + amountB, minted, Quot(minted * feePerShareA, FEE_SCALE),
                 Quot(minted * feePerShareB, FEE_SCALE));
    positions[to := p]
  }

  /** The positions after a redemption: the provider's position loses the
      shares and the amounts paid out, and is deleted at zero shares. */
  function Withdrawn(positions: map<Address, Position>, to: Address, shareAmount: int, outA: int, outB: int,
                     feePerShareA: int, feePerShareB: int): (r: map<Address, Position>)
    requires to in positions
    ensures positions[to].shares == shareAmount ==> to !in r
    ensures positions[to].shares != shareAmount ==> to in r && r[to].shares == positions[to].shares - shareAmount
  {
    var s := positions[to].shares - shareAmount;
    if s == 0 then positions - {to}
    else
      positions[to := positions[to].(shares := s, liquidity := positions[to].liquidity - (outA + outB),
                                     feeDebtA := Quot(s * feePerShareA, FEE_SCALE),
                                     feeDebtB := Quot(s * feePerShareB, FEE_SCALE))]
  }

  lemma SharesOfUpdate(positions: map<Address, Position>, a: Address, p: Position)
    ensures SharesOf(positions[a := p]) == SharesOf(positions)[a := p.shares]
  {
  }

  lemma SharesOfRemove(positions: map<Address, Position>, a: Address)
    ensures SharesOf(positions - {a}) == SharesOf(positions) - {a}
  {
  }

  /** A deposit that mints `minted` shares to its provider keeps the
      positions holding all the shares. */
  lemma DepositKeepsPositions(positions: map<Address, Position>, totalShares: int, to: Address, amountA: int,
                              amountB: int, minted: nat, feePerShareA: int, feePerShareB: int)
    requires PositionsOk(positions, totalShares)
    ensures PositionsOk(Deposited(positions, to, amountA, amountB, minted, feePerShareA, feePerShareB),
                        totalShares + minted)
  {
    var after := Deposited(positions, to, amountA, amountB, minted, feePerShareA, feePerShareB);
    SharesOfUpdate(positions, to, after[to]);
    MapSumUpdate(SharesOf(positions), to, after[to].shares);
  }

  /** A redemption of shares the provider holds keeps the positions
      holding all the shares that remain. */
  lemma WithdrawKeepsPositions(positions: map<Address, Position>, totalShares: int, to: Address, shareAmount: int,
                               outA: int, outB: int, feePerShareA: int, feePerShareB: int)
    requires PositionsOk(positions, totalShares)
    requires to in positions && 0 <= shareAmount <= positions[to].shares
    ensures PositionsOk(Withdrawn(positions, to, shareAmount, outA, outB, feePerShareA, feePerShareB),
                        totalShares - shareAmount)
  {
    var after := Withdrawn(positions, to, shareAmount, outA, outB, feePerShareA, feePerShareB);
    if positions[to].shares == shareAmount {
      SharesOfRemove(positions, to);
      MapSumDelete(SharesOf(positions), to);
    } else {
      SharesOfUpdate(positions, to, after[to]);
      MapSumUpdate(SharesOf(positions), to, after[to].shares);
    }
  }

  /** No position holds more than all the shares. */
  lemma PositionWithinTotal(positions: map<Address, Position>, totalShares: int, a: Address)
    requires PositionsOk(positions, totalShares) && a in positions
    ensures 0 <= positions[a].shares <= totalShares
  {
    MapSumBoundsEntry(SharesOf(positions), a);
  }

  // ---------------------------------------------------------------------
  // The pool

  class Pool {
    const tokenA: Address
    const tokenB: Address
    const feeRate: int
    var reserveA: int
    var reserveB: int
    var totalShares: int
    var positions: map<Address, Position>
    /** Fees per share, scaled by FEE_SCALE; fee distribution is not part of
        this model, so they keep their initial value. */
    var feePerShareA: int
    var feePerShareB: int

    ghost predicate Valid()
      reads this
    {
      reserveA >= 0 && reserveB >= 0 && feeRate > 0 && PositionsOk(positions, totalShares)
    }

    /** `initialize`: the pool starts empty, with no shares and no fees. */
    constructor Initialize(a: Address, b: Address, fee: int)
      requires InitCheck(a, b, fee) == None
      ensures Valid()
      ensures tokenA == a && tokenB == b && feeRate == fee
      ensures reserveA == 0 && reserveB == 0 && totalShares == 0 && positions == map[]
      ensures feePerShareA == 0 && feePerShareB == 0
    {
      tokenA, tokenB, feeRate := a, b, fee;
      reserveA, reserveB, totalShares := 0, 0, 0;
      positions := map[];
      feePerShareA, feePerShareB := 0, 0;
    }

    /** `add_liquidity` for amounts already settled by the deposit rule:
        the pool takes both amounts, mints the new shares to the provider
        and records them in the provider's position. */
    method AddLiquidity(to: Address, amountA: int, amountB: int) returns (r: Result<(), PoolError>)
      requires Valid()
      modifies this
      ensures Valid()
      ensures var d := DepositResult(old(reserveA), old(reserveB), old(totalShares), amountA, amountB);
        && (d.Err? ==> r == Err(d.error) && unchanged(this))
        && (d.Ok? ==>
              && r.Ok?
              && reserveA == old(reserveA) + amountA && reserveB == old(reserveB) + amountB
              && totalShares == d.value
              && positions == Deposited(old(positions), to, amountA, amountB, d.value - old(totalShares),
                                        feePerShareA, feePerShareB))
      ensures unchanged(this`feePerShareA, this`feePerShareB)
    {
      var d := DepositResult(reserveA, reserveB, totalShares, amountA, amountB);
      if d.Err? {
        return Err(d.error);
      }
      var minted := d.value - totalShares;
      DepositKeepsPositions(positions, totalShares, to, amountA, amountB, minted, feePerShareA, feePerShareB);
      positions := Deposited(positions, to, amountA, amountB, minted, feePerShareA, feePerShareB);
      totalShares := d.value;
      reserveA, reserveB := reserveA + amountA, reserveB + amountB;
      return Ok(());
    }

    /** `swap`: on success the reserves become the balances after the
        trader's payment and the payout. */
    method Swap(to: Address, buyA: bool, out: int, inMax: int) returns (r: Result<(), PoolError>)
      requires Valid()
      modifies this`reserveA, this`reserveB
      ensures Valid()
      ensures var s := SwapResult(old(reserveA), old(reserveB), feeRate, buyA, out, inMax);
        && (s.Err? ==> r == Err(s.error) && unchanged(this))
        && (s.Ok? ==> r.Ok? && (reserveA, reserveB) == s.value)
    {
      var s := SwapResult(reserveA, reserveB, feeRate, buyA, out, inMax);
      if s.Err? {
        return Err(s.error);
      }
      SwapKeepsProduct(reserveA, reserveB, feeRate, buyA, out, inMax);
      reserveA, reserveB := s.value.0, s.value.1;
      return Ok(());
    }

    /** `remove_liquidity`: the provider redeems shares for proportional
        amounts of both reserves; the shares are burnt. */
    method RemoveLiquidity(to: Address, shareAmount: int, minA: int, minB: int) returns (r: Result<(int, int), PoolError>)
      requires Valid()
      modifies this`reserveA, this`reserveB, this`totalShares, this`positions
      ensures Valid()
      ensures var w := RemoveResult(old(positions), old(totalShares), old(reserveA), old(reserveB), to, shareAmount,
                                    minA, minB);
        && r == w
        && (w.Err? ==> unchanged(this))
        && (w.Ok? ==>
              && reserveA == old(reserveA) - w.value.0 && reserveB == old(reserveB) - w.value.1
              && totalShares == old(totalShares) - shareAmount
              && positions == Withdrawn(old(positions), to, shareAmount, w.value.0, w.value.1, feePerShareA,
                                        feePerShareB))
    {
      var w := RemoveResult(positions, totalShares, reserveA, reserveB, to, shareAmount, minA, minB);
      if w.Err? {
        return w;
      }
      PositionWithinTotal(positions, totalShares, to);
      ProportionalPayout(reserveA, shareAmount, totalShares);
      ProportionalPayout(reserveB, shareAmount, totalShares);
      var (outA, outB) := w.value;
      WithdrawKeepsPositions(positions, totalShares, to, shareAmount, outA, outB, feePerShareA, feePerShareB);
      positions := Withdrawn(positions, to, shareAmount, outA, outB, feePerShareA, feePerShareB);
      totalShares := totalShares - shareAmount;
      reserveA, reserveB := reserveA - outA, reserveB - outB;
      return Ok((outA, outB));
    }
  }
}
