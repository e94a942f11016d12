/*
 * The farmer yield-farming contract: farms pay a per-block reward, boosted
 * by the farm's and a global multiplier, to the LP tokens staked in them.
 * Rewards are accounted MasterChef style: the farm keeps an accumulated
 * reward per staked unit, and each farmer's reward debt is the part of
 * that accumulator already paid out. Pending rewards are further boosted
 * by the farmer's tier (by stake size) and loyalty (by time staked).
 */
module YieldFarming {
  import opened Common

  /** The tuning constants of the contract (base and maximum multiplier,
      fixed-point precision, minimum stake, default cool-down period). Their
      values are not part of this model, so they are a parameter; the model
      takes them to be positive, with a non-empty multiplier range. */
  datatype Config = Config(baseMultiplier: nat, maxMultiplier: nat, precision: nat,
                           minStakeAmount: nat, cooldownPeriod: nat)

  predicate ConfigValid(c: Config)
  {
    0 < c.baseMultiplier <= c.maxMultiplier && 0 < c.precision && 0 < c.minStakeAmount
  }

  /** Ledger sequence numbers per day (5-second blocks). */
  const BLOCKS_PER_DAY: nat := 17280
  const SMALLHOLDER_LIMIT: nat := 1_000_0000000
  const COOPERATIVE_LIMIT: nat := 10_000_0000000

  /** `Panic` stands for the `unwrap` of a missing admin, farm or farmer
      record, which aborts the call like an error does. */
  datatype ContractError =
    | AlreadyInitialized
    | InvalidParameters
    | InvalidBlockRange
    | AmountBelowMinimum
    | FarmPaused
    | FarmNotActive
    | InvalidAmount
    | InsufficientStake
    | NoRewards
    | EmergencyNotEnabled
    | InvalidMultiplier
    | Panic

  datatype FarmPool = FarmPool(lpToken: Address, rewardToken: Address, rewardPerBlock: nat,
                               totalStaked: nat, multiplier: nat, accRewardPerShare: nat,
                               lastRewardBlock: nat, startBlock: nat, endBlock: nat, isActive: bool)

  datatype UserFarm = UserFarm(farmer: Address, amount: nat, rewardDebt: nat, stakeTime: nat, lastHarvest: nat)

  datatype FarmerTier = Smallholder | Cooperative | Enterprise

  // ---------------------------------------------------------------------
  // Tier and loyalty boosts
  // ---------------------------------------------------------------------

  function Tier(amount: int): FarmerTier
  {
    if amount < SMALLHOLDER_LIMIT then Smallholder
    else if amount < COOPERATIVE_LIMIT then Cooperative
    else Enterprise
  }

  /** The tier boost in percent: smaller farmers get the larger boost. */
  function TierMultiplier(t: FarmerTier): (m: nat)
    ensures 100 <= m <= 120
    ensures m == 100 <==> t == Enterprise
  {
    match t
    case Smallholder => 120
    case Cooperative => 110
    case Enterprise => 100
  }

  /** A larger stake never earns a larger tier boost. */
  lemma TierBoostNonIncreasing(a: int, b: int)
    requires a <= b
    ensures TierMultiplier(Tier(b)) <= TierMultiplier(Tier(a))
  {
  }

  /** The loyalty boost in basis points, by blocks staked. */
  function LoyaltyBonus(time: nat): (b: nat)
    ensures b <= 2000
    ensures b == 0 <==> time < 7 * BLOCKS_PER_DAY
    ensures b == 2000 <==> time >= 180 * BLOCKS_PER_DAY
  {
    if time < BLOCKS_PER_DAY * 7 then 0
    else if time < BLOCKS_PER_DAY * 30 then 500
    else if time < BLOCKS_PER_DAY * 90 then 1000
    else if time < BLOCKS_PER_DAY * 180 then 1500
    else 2000
  }

  /** Staying longer never lowers the loyalty boost. */
  lemma LoyaltyBonusMonotone(t1: nat, t2: nat)
    requires t1 <= t2
    ensures LoyaltyBonus(t1) <= LoyaltyBonus(t2)
  {
  }

  // ---------------------------------------------------------------------
  // Reward accumulation
  // ---------------------------------------------------------------------

  /** The reward a farm emits from its last update up to `current`, capped at
      its end block, boosted by the farm's and the global multiplier. The
      block count is a saturating difference (the source's `u64` subtraction
      would abort instead). */
  function BlockReward(farm: FarmPool, current: nat, globalMult: nat, c: Config): nat
    requires ConfigValid(c)
  {
    var endBlock := if current > farm.endBlock then farm.endBlock else current;
    var blocks: nat := SatSub(endBlock, farm.lastRewardBlock);
    var boosted: nat := farm.multiplier * globalMult;
    var totalMult: nat := boosted / c.baseMultiplier;
    var base: nat := blocks * farm.rewardPerBlock;
    var gross: nat := base * totalMult;
    gross / c.baseMultiplier
  }

  /** The accumulated reward per staked unit as `calc_pending` sees it at
      block `current`, without storing anything. */
  function AccAt(farm: FarmPool, current: nat, globalMult: nat, c: Config): (acc: nat)
    requires ConfigValid(c)
    ensures acc >= farm.accRewardPerShare
    ensures current <= farm.lastRewardBlock || farm.totalStaked == 0 ==> acc == farm.accRewardPerShare
  {
    if current > farm.lastRewardBlock && farm.totalStaked > 0 then
      farm.accRewardPerShare + BlockReward(farm, current, globalMult, c) * c.precision / farm.totalStaked
    else
      farm.accRewardPerShare
  }

  /** `update_pool_internal`: brings the farm's accumulator up to `current`.
      The stored accumulator is exactly what `calc_pending` computes lazily,
      and only the accumulator and the last reward block change. */
  function UpdatePool(farm: FarmPool, current: nat, globalMult: nat, c: Config): (f: FarmPool)
    requires ConfigValid(c)
    ensures f == farm.(accRewardPerShare := f.accRewardPerShare, lastRewardBlock := f.lastRewardBlock)
    ensures f.accRewardPerShare == AccAt(farm, current, globalMult, c)
    ensures f.lastRewardBlock <= current
    ensures current <= farm.endBlock ==> f.lastRewardBlock == current
  {
    if current <= farm.lastRewardBlock || farm.totalStaked == 0 then
      farm.(lastRewardBlock := current)
    else
      var endBlock := if current > farm.endBlock then farm.endBlock else current;
      farm.(accRewardPerShare := farm.accRewardPerShare + BlockReward(farm, current, globalMult, c) * c.precision / farm.totalStaked,
            lastRewardBlock := endBlock)
  }

  /** Once updated, the farm accrues nothing more within the same block,
      whatever is staked in it afterwards. */
  lemma AccAtAfterUpdate(farm: FarmPool, total: nat, current: nat, globalMult: nat, c: Config)
    requires ConfigValid(c)
    ensures var f := UpdatePool(farm, current, globalMult, c);
      AccAt(f.(totalStaked := total), current, globalMult, c) == f.accRewardPerShare
  {
    var f := UpdatePool(farm, current, globalMult, c);
    var g := f.(totalStaked := total);
    if current > g.lastRewardBlock && total > 0 {
      assert g.lastRewardBlock == farm.endBlock && current > farm.endBlock;
      assert BlockReward(g, current, globalMult, c) == 0;
    }
  }

  /** Updating the pool twice in one block is the same as once. */
  lemma UpdatePoolIdempotent(farm: FarmPool, current: nat, globalMult: nat, c: Config)
    requires ConfigValid(c)
    ensures var f := UpdatePool(farm, current, globalMult, c);
      UpdatePool(f, current, globalMult, c) == f
  {
    var f := UpdatePool(farm, current, globalMult, c);
    AccAtAfterUpdate(farm, f.totalStaked, current, globalMult, c);
    assert f.(totalStaked := f.totalStaked) == f;
  }

  /** The share of an accumulator that `amount` staked units are owed. */
  function Accrued(amount: nat, acc: nat, c: Config): nat
    requires ConfigValid(c)
  {
    amount * acc / c.precision
  }

  lemma AccruedMonotone(amount: nat, acc0: nat, acc1: nat, c: Config)
    requires ConfigValid(c) && acc0 <= acc1
    ensures Accrued(amount, acc0, c) <= Accrued(amount, acc1, c)
  {
    MulMonotone(acc0, acc1, amount);
    DivMonotone(amount * acc0, amount * acc1, c.precision);
  }

  // ---------------------------------------------------------------------
  // Pending rewards
  // ---------------------------------------------------------------------

  /** A base reward boosted by the tier (percent) and loyalty (basis points)
      bonuses, with Rust's truncating division. */
  function Boosted(base: int, tierMult: nat, loyalty: nat): (p: int)
    requires tierMult >= 100
    ensures base > 0 ==> p >= base
    ensures base <= 0 ==> p <= 0
    ensures base == 0 ==> p == 0
  {
    BoostSign(base, tierMult);
    var withTier := Quot(base * tierMult, 100);
    withTier + Quot(withTier * loyalty, 10000)
  }

  lemma BoostSign(base: int, tierMult: nat)
    requires tierMult >= 100
    ensures base > 0 ==> Quot(base * tierMult, 100) >= base
    ensures base <= 0 ==> Quot(base * tierMult, 100) <= 0
  {
    if base > 0 {
      MulMonotone(100, tierMult, base);
      DivMonotone(base * 100, base * tierMult, 100);
      QuotOfNonNegative(base * tierMult, 100);
    } else {
      MulMonotone(0, -base, tierMult);
      assert base * tierMult <= 0;
    }
  }

  /** `calc_pending`: what a farmer could harvest at block `current`. It is
      zero without a stake, and positive exactly when the farmer's share of
      the accumulator exceeds the reward debt, in which case the boosts only
      add to that difference. */
  function CalcPending(farm: FarmPool, user: UserFarm, current: nat, globalMult: nat, c: Config): (p: int)
    requires ConfigValid(c)
    ensures user.amount == 0 ==> p == 0
    ensures p > 0 <==> Accrued(user.amount, AccAt(farm, current, globalMult, c), c) > user.rewardDebt
    ensures p > 0 ==> p >= Accrued(user.amount, AccAt(farm, current, globalMult, c), c) - user.rewardDebt
    ensures Accrued(user.amount, AccAt(farm, current, globalMult, c), c) == user.rewardDebt ==> p == 0
  {
    if user.amount == 0 then 0
    else
      var base := Accrued(user.amount, AccAt(farm, current, globalMult, c), c) - user.rewardDebt;
      Boosted(base, TierMultiplier(Tier(user.amount)), LoyaltyBonus(SatSub(current, user.stakeTime)))
  }

  /** Updating the pool first does not change what a farmer is owed: the
      lazy view of `calc_pending` and the stored update agree. */
  lemma PendingUnchangedByUpdate(farm: FarmPool, user: UserFarm, current: nat, globalMult: nat, c: Config)
    requires ConfigValid(c)
    ensures CalcPending(UpdatePool(farm, current, globalMult, c), user, current, globalMult, c)
         == CalcPending(farm, user, current, globalMult, c)
  {
    var f := UpdatePool(farm, current, globalMult, c);
    AccAtAfterUpdate(farm, farm.totalStaked, current, globalMult, c);
    assert f.(totalStaked := farm.totalStaked) == f;
  }

  // ---------------------------------------------------------------------
  // State transitions of staking, unstaking and harvesting
  // ---------------------------------------------------------------------

  /** The record of a farmer with no stake yet in the farm. */
  function NewUser(farmer: Address, current: nat): UserFarm
  {
    UserFarm(farmer, 0, 0, current, current)
  }

  function UserOrNew(m: map<Address, UserFarm>, farmer: Address, current: nat): UserFarm
  {
    if farmer in m then m[farmer] else NewUser(farmer, current)
  }

  /** `stake_lp` as intended: the farm is updated, then the stake is added
      and the debt taken against the updated accumulator. */
  function Staked(farm: FarmPool, user: UserFarm, amount: nat, current: nat, globalMult: nat, c: Config)
    : (r: (FarmPool, UserFarm))
    requires ConfigValid(c)
    ensures r.0.totalStaked == farm.totalStaked + amount && r.1.amount == user.amount + amount
    ensures r.1 == user.(amount := r.1.amount, rewardDebt := r.1.rewardDebt, stakeTime := current)
    ensures r.0.(totalStaked := farm.totalStaked) == UpdatePool(farm, current, globalMult, c)
  {
    var f := UpdatePool(farm, current, globalMult, c);
    var a := user.amount + amount;
    (f.(totalStaked := f.totalStaked + amount),
     user.(amount := a, rewardDebt := Accrued(a, f.accRewardPerShare, c), stakeTime := current))
  }

  /** `stake_lp` as written: the farm read before `update_pool_internal` is
      stored back, so the update is lost, and the debt is taken against the
      old accumulator. */
  function StakedAsWritten(farm: FarmPool, user: UserFarm, amount: nat, current: nat, c: Config)
    : (r: (FarmPool, UserFarm))
    requires ConfigValid(c)
    ensures r.0 == farm.(totalStaked := farm.totalStaked + amount)
    ensures r.1.amount == user.amount + amount && r.1.stakeTime == current
  {
    var a := user.amount + amount;
    (farm.(totalStaked := farm.totalStaked + amount),
     user.(amount := a, rewardDebt := Accrued(a, farm.accRewardPerShare, c), stakeTime := current))
  }

  /** Right after staking, nothing is pending: a farmer earns only for
      blocks after the stake. */
  lemma StakeLeavesNothingPending(farm: FarmPool, user: UserFarm, amount: nat, current: nat,
                                  globalMult: nat, c: Config)
    requires ConfigValid(c)
    ensures var r := Staked(farm, user, amount, current, globalMult, c);
      CalcPending(r.0, r.1, current, globalMult, c) == 0
  {
    var r := Staked(farm, user, amount, current, globalMult, c);
    AccAtAfterUpdate(farm, r.0.totalStaked, current, globalMult, c);
  }

  /** As written, a newcomer is paid for blocks before the stake: one unit
      staked alone for two blocks at one reward per block, then a second
      farmer stakes one unit and can at once claim a positive reward. */
  lemma StakeAsWrittenPaysNewcomer(c: Config)
    requires ConfigValid(c)
    ensures var farm := FarmPool(0, 0, 1, 1, c.baseMultiplier, 0, 0, 0, 10, true);
      var r := StakedAsWritten(farm, NewUser(1, 2), 1, 2, c);
      CalcPending(r.0, r.1, 2, c.baseMultiplier, c) > 0
  {
    var b, p := c.baseMultiplier, c.precision;
    var farm := FarmPool(0, 0, 1, 1, b, 0, 0, 0, 10, true);
    var r := StakedAsWritten(farm, NewUser(1, 2), 1, 2, c);
    assert r.0.totalStaked == 2 && r.1.rewardDebt == 0 && r.1.amount == 1;
    TwoBlocksReward(r.0, c);
    MulDivCancel(p, 2);
    assert AccAt(r.0, 2, b, c) == p;
    MulDivCancel(1, p);
    assert Accrued(1, p, c) == 1;
  }

  /** Two blocks with both multipliers at the base emit twice the reward
      per block. */
  lemma TwoBlocksReward(farm: FarmPool, c: Config)
    requires ConfigValid(c)
    requires farm.multiplier == c.baseMultiplier
    requires farm.lastRewardBlock == 0 && farm.endBlock >= 2
    ensures BlockReward(farm, 2, c.baseMultiplier, c) == 2 * farm.rewardPerBlock
  {
    var b := c.baseMultiplier;
    MulDivCancel(b, b);
    MulDivCancel(2 * farm.rewardPerBlock, b);
  }

  lemma MulDivCancel(a: nat, b: nat)
    requires b > 0
    ensures a * b / b == a && b * a / b == a
  {
    var q := a * b / b;
    assert q * b <= a * b;
    MulCancel(q, a, b);
    assert a * b < (q + 1) * b;
    MulCancelStrict(a, q + 1, b);
    assert b * a == a * b;
  }

  /** `unstake_lp` as intended: the farm is updated, the stake reduced and
      the debt taken against the updated accumulator. */
  function Unstaked(farm: FarmPool, user: UserFarm, amount: nat, current: nat, globalMult: nat, c: Config)
    : (r: (FarmPool, UserFarm))
    requires ConfigValid(c) && amount <= user.amount && amount <= farm.totalStaked
    ensures r.0.totalStaked == farm.totalStaked - amount && r.1.amount == user.amount - amount
    ensures r.1 == user.(amount := r.1.amount, rewardDebt := r.1.rewardDebt)
    ensures r.0.(totalStaked := farm.totalStaked) == UpdatePool(farm, current, globalMult, c)
  {
    var f := UpdatePool(farm, current, globalMult, c);
    var a := user.amount - amount;
    (f.(totalStaked := f.totalStaked - amount), user.(amount := a, rewardDebt := Accrued(a, f.accRewardPerShare, c)))
  }

  lemma UnstakeLeavesNothingPending(farm: FarmPool, user: UserFarm, amount: nat, current: nat,
                                    globalMult: nat, c: Config)
    requires ConfigValid(c) && amount <= user.amount && amount <= farm.totalStaked
    ensures var r := Unstaked(farm, user, amount, current, globalMult, c);
      CalcPending(r.0, r.1, current, globalMult, c) == 0
  {
    var r := Unstaked(farm, user, amount, current, globalMult, c);
    AccAtAfterUpdate(farm, r.0.totalStaked, current, globalMult, c);
  }

  /** `unstake_lp` as written: the farm read before `update_pool_internal`
      is stored back with the smaller total, so the update is lost, and the
      remaining stake's debt is taken against the old accumulator. */
  function UnstakedAsWritten(farm: FarmPool, user: UserFarm, amount: nat, c: Config)
    : (r: (FarmPool, UserFarm))
    requires ConfigValid(c) && amount <= user.amount && amount <= farm.totalStaked
    ensures r.0 == farm.(totalStaked := farm.totalStaked - amount)
    ensures r.1 == user.(amount := user.amount - amount, rewardDebt := r.1.rewardDebt)
    ensures r.1.rewardDebt == Accrued(user.amount - amount, farm.accRewardPerShare, c)
  {
    var a := user.amount - amount;
    (farm.(totalStaked := farm.totalStaked - amount), user.(amount := a, rewardDebt := Accrued(a, farm.accRewardPerShare, c)))
  }

  /** As written, rewards stay pending after an unstake: two units staked
      alone for two blocks at one reward per block; the farmer unstakes
      one, is paid for the two blocks, and can at once claim again for
      the same blocks on the unit left. */
  lemma UnstakeAsWrittenLeavesPending(c: Config)
    requires ConfigValid(c)
    ensures var farm := FarmPool(0, 0, 1, 2, c.baseMultiplier, 0, 0, 0, 10, true);
      var user := UserFarm(1, 2, 0, 0, 0);
      var r := UnstakedAsWritten(farm, user, 1, c);
      CalcPending(farm, user, 2, c.baseMultiplier, c) > 0 &&
      CalcPending(r.0, r.1, 2, c.baseMultiplier, c) > 0
  {
    var b, p := c.baseMultiplier, c.precision;
    var farm := FarmPool(0, 0, 1, 2, b, 0, 0, 0, 10, true);
    var user := UserFarm(1, 2, 0, 0, 0);
    var r := UnstakedAsWritten(farm, user, 1, c);
    assert r.0.totalStaked == 1 && r.1.rewardDebt == 0 && r.1.amount == 1;
    TwoBlocksReward(farm, c);
    TwoBlocksReward(r.0, c);
    MulDivCancel(p, 2);
    assert AccAt(farm, 2, b, c) == p;
    MulDivCancel(1, p);
    assert Accrued(2, p, c) == 2 by { MulDivCancel(2, p); }
    MulDivCancel(2 * p, 1);
    assert AccAt(r.0, 2, b, c) == 2 * p;
    MulDivCancel(2, p);
    assert Accrued(1, 2 * p, c) == 2;
  }

  /** The reward paid on unstaking: half (rounded down) of a positive
      pending reward when the stake is younger than the minimum period,
      all of it otherwise, and nothing when nothing is pending. */
  function UnstakeReward(pending: int, timeStaked: nat, minPeriod: nat): (r: int)
    ensures pending <= 0 ==> r == 0
    ensures pending > 0 && timeStaked >= minPeriod ==> r == pending
    ensures pending > 0 && timeStaked < minPeriod ==> 0 <= 2 * r <= pending <= 2 * r + 1
  {
    if pending <= 0 then 0
    else if timeStaked < minPeriod then pending / 2
    else pending
  }

  /** The farmer's record after a harvest whose debt is taken against the
      accumulator `acc`. */
  function Harvested(user: UserFarm, acc: nat, current: nat, c: Config): (u: UserFarm)
    requires ConfigValid(c)
    ensures u == user.(rewardDebt := u.rewardDebt, lastHarvest := current)
  {
    user.(rewardDebt := Accrued(user.amount, acc, c), lastHarvest := current)
  }

  /** A harvest whose debt uses the updated accumulator leaves nothing to
      harvest again in the same block. */
  lemma HarvestClearsPending(farm: FarmPool, user: UserFarm, current: nat, globalMult: nat, c: Config)
    requires ConfigValid(c)
    ensures var f := UpdatePool(farm, current, globalMult, c);
      CalcPending(f, Harvested(user, f.accRewardPerShare, current, c), current, globalMult, c) == 0
  {
    var f := UpdatePool(farm, current, globalMult, c);
    AccAtAfterUpdate(farm, f.totalStaked, current, globalMult, c);
    assert f.(totalStaked := f.totalStaked) == f;
  }

  /** `harvest` as written takes the debt against the accumulator read
      before the update, while the update itself is stored: a farmer whose
      debt matches that old accumulator can harvest again in the same block
      and is paid the same amount again. */
  lemma HarvestAsWrittenPaysAgain(farm: FarmPool, user: UserFarm, current: nat, globalMult: nat, c: Config)
    requires ConfigValid(c)
    requires user.rewardDebt == Accrued(user.amount, farm.accRewardPerShare, c)
    ensures var f := UpdatePool(farm, current, globalMult, c);
      CalcPending(f, Harvested(user, farm.accRewardPerShare, current, c), current, globalMult, c)
        == CalcPending(farm, user, current, globalMult, c)
  {
    var f := UpdatePool(farm, current, globalMult, c);
    AccAtAfterUpdate(farm, f.totalStaked, current, globalMult, c);
    assert f.(totalStaked := f.totalStaked) == f;
  }

  /** The double harvest pays something: one unit staked alone for two
      blocks at one reward per block is owed a positive reward. */
  lemma HarvestAsWrittenExample(c: Config)
    requires ConfigValid(c)
    ensures var farm := FarmPool(0, 0, 1, 1, c.baseMultiplier, 0, 0, 0, 10, true);
      var user := UserFarm(1, 1, 0, 0, 0);
      CalcPending(farm, user, 2, c.baseMultiplier, c) > 0 &&
      CalcPending(UpdatePool(farm, 2, c.baseMultiplier, c), Harvested(user, 0, 2, c), 2, c.baseMultiplier, c)
        == CalcPending(farm, user, 2, c.baseMultiplier, c)
  {
    var b, p := c.baseMultiplier, c.precision;
    var farm := FarmPool(0, 0, 1, 1, b, 0, 0, 0, 10, true);
    var user := UserFarm(1, 1, 0, 0, 0);
    TwoBlocksReward(farm, c);
    MulDivCancel(2 * p, 1);
    assert AccAt(farm, 2, b, c) == 2 * p;
    MulDivCancel(2, p);
    assert Accrued(1, 2 * p, c) == 2;
    assert Accrued(1, 0, c) == 0;
    HarvestAsWrittenPaysAgain(farm, user, 2, b, c);
  }

  /** `update_farm` as intended: the pool is updated under the old
      parameters, then a positive reward rate and an in-range multiplier
      replace the current ones (other values are ignored). */
  function Retuned(farm: FarmPool, rewardPerBlock: int, multiplier: int, current: nat, globalMult: nat, c: Config)
    : (f: FarmPool)
    requires ConfigValid(c)
    ensures f == UpdatePool(farm, current, globalMult, c).(rewardPerBlock := f.rewardPerBlock, multiplier := f.multiplier)
    ensures f.rewardPerBlock == if rewardPerBlock > 0 then rewardPerBlock else farm.rewardPerBlock
    ensures f.multiplier == if c.baseMultiplier <= multiplier <= c.maxMultiplier then multiplier else farm.multiplier
  {
    var f := UpdatePool(farm, current, globalMult, c);
    var f1 := if rewardPerBlock > 0 then f.(rewardPerBlock := rewardPerBlock) else f;
    if c.baseMultiplier <= multiplier <= c.maxMultiplier then f1.(multiplier := multiplier) else f1
  }

  /** `update_farm` as written: the farm read before `update_pool_internal`
      is stored back with the new parameters, so the update is lost and
      the new rate is paid for the blocks since the last update. */
  function RetunedAsWritten(farm: FarmPool, rewardPerBlock: int, multiplier: int, c: Config)
    : (f: FarmPool)
    requires ConfigValid(c)
    ensures f == farm.(rewardPerBlock := f.rewardPerBlock, multiplier := f.multiplier)
    ensures f.rewardPerBlock == if rewardPerBlock > 0 then rewardPerBlock else farm.rewardPerBlock
    ensures f.multiplier == if c.baseMultiplier <= multiplier <= c.maxMultiplier then multiplier else farm.multiplier
  {
    var f1 := if rewardPerBlock > 0 then farm.(rewardPerBlock := rewardPerBlock) else farm;
    if c.baseMultiplier <= multiplier <= c.maxMultiplier then f1.(multiplier := multiplier) else f1
  }

  /** As written, raising the rate reprices the past: one unit staked alone
      for two blocks at one reward per block; doubling the rate at block 2
      doubles what those two blocks pay, while the intended update keeps
      them at the old rate. */
  lemma RetuneAsWrittenRepricesPast(c: Config)
    requires ConfigValid(c)
    ensures var farm := FarmPool(0, 0, 1, 1, c.baseMultiplier, 0, 0, 0, 10, true);
      AccAt(Retuned(farm, 2, 0, 2, c.baseMultiplier, c), 2, c.baseMultiplier, c) == 2 * c.precision &&
      AccAt(RetunedAsWritten(farm, 2, 0, c), 2, c.baseMultiplier, c) == 4 * c.precision
  {
    var b, p := c.baseMultiplier, c.precision;
    var farm := FarmPool(0, 0, 1, 1, b, 0, 0, 0, 10, true);
    TwoBlocksReward(farm, c);
    MulDivCancel(2 * p, 1);
    var w := RetunedAsWritten(farm, 2, 0, c);
    assert w == farm.(rewardPerBlock := 2);
    TwoBlocksReward(w, c);
    MulDivCancel(4 * p, 1);
  }

  // ---------------------------------------------------------------------
  // The farmers of one farm
  // ---------------------------------------------------------------------

  function Amounts(m: map<Address, UserFarm>): map<Address, int>
  {
    map a | a in m :: m[a].amount
  }

  /** The LP tokens staked in one farm. */
  ghost function UserSum(m: map<Address, UserFarm>): int
  {
    MapSum(Amounts(m))
  }

  lemma UserSumPut(m: map<Address, UserFarm>, a: Address, u: UserFarm)
    ensures UserSum(m[a := u]) == UserSum(m) - (if a in m then m[a].amount else 0) + u.amount
  {
    assert Amounts(m[a := u]) == Amounts(m)[a := u.amount];
    MapSumUpdate(Amounts(m), a, u.amount);
  }

  lemma UserSumRemove(m: map<Address, UserFarm>, a: Address)
    requires a in m
    ensures UserSum(m - {a}) == UserSum(m) - m[a].amount
  {
    assert Amounts(m - {a}) == Amounts(m) - {a};
    MapSumDelete(Amounts(m), a);
  }

  lemma UserWithinSum(m: map<Address, UserFarm>, a: Address)
    requires a in m
    ensures m[a].amount <= UserSum(m)
  {
    MapSumBoundsEntry(Amounts(m), a);
  }

  /** Each record is filed under its farmer and holds a positive stake (a
      stake that reaches zero is deleted), and no reward debt exceeds the
      farmer's share of the farm's accumulator, so nothing pending is ever
      negative. */
  ghost predicate UsersValid(m: map<Address, UserFarm>, acc: nat, c: Config)
  {
    ConfigValid(c) &&
    forall a :: a in m ==> m[a].farmer == a && m[a].amount > 0 && m[a].rewardDebt <= Accrued(m[a].amount, acc, c)
  }

  /** The accumulator only grows, which keeps every debt within bounds. */
  lemma UsersValidRaise(m: map<Address, UserFarm>, acc0: nat, acc1: nat, c: Config)
    requires UsersValid(m, acc0, c) && acc0 <= acc1
    ensures UsersValid(m, acc1, c)
  {
    forall a | a in m
      ensures m[a].rewardDebt <= Accrued(m[a].amount, acc1, c)
    {
      AccruedMonotone(m[a].amount, acc0, acc1, c);
    }
  }

  /** With every debt within bounds, no farmer's pending reward is negative. */
  lemma PendingNonNegative(m: map<Address, UserFarm>, a: Address, farm: FarmPool,
                           current: nat, globalMult: nat, c: Config)
    requires UsersValid(m, farm.accRewardPerShare, c) && a in m
    ensures CalcPending(farm, m[a], current, globalMult, c) >= 0
  {
    AccruedMonotone(m[a].amount, farm.accRewardPerShare, AccAt(farm, current, globalMult, c), c);
  }

  function UsersOf(users: map<nat, map<Address, UserFarm>>, id: nat): map<Address, UserFarm>
  {
    if id in users then users[id] else map[]
  }

  ghost predicate FarmEntryValid(id: nat, farms: map<nat, FarmPool>, users: map<nat, map<Address, UserFarm>>, c: Config)
  {
    id in farms ==>
      UsersValid(UsersOf(users, id), farms[id].accRewardPerShare, c) &&
      farms[id].totalStaked == UserSum(UsersOf(users, id))
  }

  lemma ReplaceFarmKeepsValid(id: nat, c: Config,
                              farms: map<nat, FarmPool>, users: map<nat, map<Address, UserFarm>>,
                              farms': map<nat, FarmPool>, users': map<nat, map<Address, UserFarm>>)
    requires forall q :: FarmEntryValid(q, farms, users, c)
    requires forall q :: q != id ==> (q in farms' <==> q in farms)
    requires forall q :: q != id && q in farms ==> farms'[q] == farms[q]
    requires forall q :: q != id ==> UsersOf(users', q) == UsersOf(users, q)
    requires FarmEntryValid(id, farms', users', c)
    ensures forall q :: FarmEntryValid(q, farms', users', c)
  {
    forall q
      ensures FarmEntryValid(q, farms', users', c)
    {
      if q != id {
        assert FarmEntryValid(q, farms, users, c);
      }
    }
  }

  // ---------------------------------------------------------------------
  // Checks of the entry points, in the order the source makes them
  // ---------------------------------------------------------------------

  function CreateFarmCheck(initialized: bool, rewardPerBlock: int, multiplier: int, startBlock: nat,
                           endBlock: nat, current: nat, c: Config): (e: Option<ContractError>)
    ensures e.None? <==> initialized && rewardPerBlock > 0 && c.baseMultiplier <= multiplier <= c.maxMultiplier &&
                         current <= startBlock < endBlock
    ensures !initialized ==> e == Some(Panic)
    ensures (initialized && (rewardPerBlock <= 0 || multiplier < c.baseMultiplier || multiplier > c.maxMultiplier))
              ==> e == Some(InvalidParameters)
  {
    if !initialized then Some(Panic)
    else if rewardPerBlock <= 0 || multiplier < c.baseMultiplier || multiplier > c.maxMultiplier then
      Some(InvalidParameters)
    else if startBlock >= endBlock || startBlock < current then Some(InvalidBlockRange)
    else None
  }

  function StakeCheck(amount: int, paused: bool, farm: Option<FarmPool>, current: nat, c: Config)
    : (e: Option<ContractError>)
    ensures e.None? <==> amount >= c.minStakeAmount && !paused && farm.Some? &&
                         farm.value.startBlock <= current < farm.value.endBlock
    ensures amount < c.minStakeAmount ==> e == Some(AmountBelowMinimum)
    ensures amount >= c.minStakeAmount && paused ==> e == Some(FarmPaused)
  {
    if amount < c.minStakeAmount then Some(AmountBelowMinimum)
    else if paused then Some(FarmPaused)
    else if farm.None? then Some(Panic)
    else if current < farm.value.startBlock || current >= farm.value.endBlock then Some(FarmNotActive)
    else None
  }

  function UnstakeCheck(amount: int, farm: Option<FarmPool>, user: Option<UserFarm>): (e: Option<ContractError>)
    ensures e.None? <==> 0 < amount && farm.Some? && user.Some? && amount <= user.value.amount
    ensures amount <= 0 ==> e == Some(InvalidAmount)
    ensures amount > 0 && farm.Some? && user.Some? && amount > user.value.amount ==> e == Some(InsufficientStake)
  {
    if amount <= 0 then Some(InvalidAmount)
    else if farm.None? || user.None? then Some(Panic)
    else if amount > user.value.amount then Some(InsufficientStake)
    else None
  }

  function HarvestCheck(farm: Option<FarmPool>, user: Option<UserFarm>, current: nat, globalMult: nat, c: Config)
    : (e: Option<ContractError>)
    requires ConfigValid(c)
    ensures e.None? <==> farm.Some? && user.Some? && CalcPending(farm.value, user.value, current, globalMult, c) > 0
    ensures (farm.Some? && user.Some? && CalcPending(farm.value, user.value, current, globalMult, c) <= 0)
              ==> e == Some(NoRewards)
  {
    if farm.None? || user.None? then Some(Panic)
    else if CalcPending(farm.value, user.value, current, globalMult, c) <= 0 then Some(NoRewards)
    else None
  }

  function EmergencyCheck(enabled: bool, farm: Option<FarmPool>, user: Option<UserFarm>): (e: Option<ContractError>)
    ensures e.None? <==> enabled && farm.Some? && user.Some?
    ensures !enabled ==> e == Some(EmergencyNotEnabled)
  {
    if !enabled then Some(EmergencyNotEnabled)
    else if farm.None? || user.None? then Some(Panic)
    else None
  }

  // ---------------------------------------------------------------------
  // The contract's storage and entry points
  // ---------------------------------------------------------------------

  class FarmingContract {
    const cfg: Config
    var ledgerSequence: nat
    var admin: Option<Address>
    var farmCount: nat
    var globalMultiplier: nat
    var minStakePeriod: nat
    var emergencyWithdraw: bool
    var farms: map<nat, FarmPool>
    var paused: map<nat, bool>
    var users: map<nat, map<Address, UserFarm>>

    /** Farm ids are below the farm count, farms exist only once the
        contract is initialized, every farmer record belongs to a farm, and
        each farm's total is the sum of its farmers' stakes. */
    ghost predicate Valid()
      reads this`admin, this`farmCount, this`farms, this`users
    {
      ConfigValid(cfg) &&
      (admin.None? ==> farmCount == 0 && farms == map[]) &&
      (forall id :: id in farms ==> id < farmCount) &&
      (forall id :: id in users ==> id in farms) &&
      (forall id :: FarmEntryValid(id, farms, users, cfg))
    }

    function FarmAt(id: nat): Option<FarmPool>
      reads this`farms
    {
      if id in farms then Some(farms[id]) else None
    }

    function UserAt(farmer: Address, id: nat): Option<UserFarm>
      reads this`users
    {
      var m := UsersOf(users, id);
      if farmer in m then Some(m[farmer]) else None
    }

    function IsPaused(id: nat): bool
      reads this`paused
    {
      id in paused && paused[id]
    }

    /** `get_pending_rewards`: zero for a missing farm or farmer. */
    function PendingRewards(farmer: Address, id: nat): (p: int)
      requires Valid()
      reads this`ledgerSequence, this`globalMultiplier, this`admin, this`farmCount, this`farms, this`users
      ensures p >= 0
      ensures FarmAt(id).None? || UserAt(farmer, id).None? ==> p == 0
    {
      if id !in farms then 0
      else
        var m := UsersOf(users, id);
        if farmer !in m then 0
        else
          assert FarmEntryValid(id, farms, users, cfg);
          PendingNonNegative(m, farmer, farms[id], ledgerSequence, globalMultiplier, cfg);
          CalcPending(farms[id], m[farmer], ledgerSequence, globalMultiplier, cfg)
    }

    /** Before `initialize`, every setting reads as its default. */
    constructor (c: Config, now: nat)
      requires ConfigValid(c)
      ensures cfg == c && ledgerSequence == now && admin.None? && farmCount == 0
      ensures globalMultiplier == c.baseMultiplier && minStakePeriod == c.cooldownPeriod && !emergencyWithdraw
      ensures farms == map[] && paused == map[] && users == map[]
      ensures Valid()
    {
      cfg := c;
      ledgerSequence := now;
      admin := None;
      farmCount := 0;
      globalMultiplier := c.baseMultiplier;
      minStakePeriod := c.cooldownPeriod;
      emergencyWithdraw := false;
      farms := map[];
      paused := map[];
      users := map[];
    }

    /** The ledger sequence never goes backwards. */
    method Tick(now: nat)
      requires ledgerSequence <= now
      modifies this`ledgerSequence
      ensures ledgerSequence == now
    {
      ledgerSequence := now;
    }

    method Initialize(caller: Address) returns (r: Result<bool, ContractError>)
      requires Valid()
      modifies this`admin, this`farmCount, this`globalMultiplier, this`minStakePeriod, this`emergencyWithdraw
      ensures Valid()
      ensures old(admin).Some? ==> r == Err(AlreadyInitialized) && unchanged(this)
      ensures old(admin).None? ==>
        r == Ok(true) && admin == Some(caller) && farmCount == 0 && globalMultiplier == cfg.baseMultiplier &&
        minStakePeriod == cfg.cooldownPeriod && !emergencyWithdraw
    {
      if admin.Some? {
        return Err(AlreadyInitialized);
      }
      admin := Some(caller);
      farmCount := 0;
      globalMultiplier := cfg.baseMultiplier;
      minStakePeriod := cfg.cooldownPeriod;
      emergencyWithdraw := false;
      r := Ok(true);
    }

    /** Stores one farm with its farmers' records. */
    method WriteFarm(id: nat, farm: FarmPool, m: map<Address, UserFarm>)
      requires Valid() && id in farms
      requires UsersValid(m, farm.accRewardPerShare, cfg) && farm.totalStaked == UserSum(m)
      modifies this`farms, this`users
      ensures Valid()
      ensures farms == old(farms)[id := farm] && users == old(users)[id := m]
    {
      var farms', users' := farms[id := farm], users[id := m];
      assert UsersOf(users', id) == m;
      assert FarmEntryValid(id, farms', users', cfg);
      ReplaceFarmKeepsValid(id, cfg, farms, users, farms', users');
      farms, users := farms', users';
    }

    /** Stores a new version of one farm whose farmers' records do not change. */
    method WriteFarmOnly(id: nat, farm: FarmPool)
      requires Valid() && id in farms
      requires UsersValid(UsersOf(users, id), farm.accRewardPerShare, cfg) && farm.totalStaked == farms[id].totalStaked
      modifies this`farms
      ensures Valid()
      ensures farms == old(farms)[id := farm]
    {
      assert FarmEntryValid(id, farms, users, cfg);
      var farms' := farms[id := farm];
      assert FarmEntryValid(id, farms', users, cfg);
      ReplaceFarmKeepsValid(id, cfg, farms, users, farms', users);
      farms := farms';
    }

    method CreateFarm(lpToken: Address, rewardToken: Address, rewardPerBlock: int, multiplier: int,
                      startBlock: nat, endBlock: nat)
      returns (r: Result<nat, ContractError>)
      requires Valid()
      modifies this`farms, this`paused, this`farmCount
      ensures Valid()
      ensures var e := CreateFarmCheck(old(admin).Some?, rewardPerBlock, multiplier, startBlock, endBlock,
                                       ledgerSequence, cfg);
        if e.Some? then r == Err(e.value) && unchanged(this)
        else r == Ok(old(farmCount)) && farmCount == old(farmCount) + 1 &&
             farms == old(farms)[old(farmCount) := FarmPool(lpToken, rewardToken, rewardPerBlock, 0, multiplier,
                                                            0, startBlock, startBlock, endBlock, true)] &&
             paused == old(paused)[old(farmCount) := false]
    {
      var e := CreateFarmCheck(admin.Some?, rewardPerBlock, multiplier, startBlock, endBlock, ledgerSequence, cfg);
      if e.Some? {
        return Err(e.value);
      }
      var id := farmCount;
      var farm := FarmPool(lpToken, rewardToken, rewardPerBlock, 0, multiplier, 0, startBlock, startBlock, endBlock, true);
      assert id !in farms && id !in users;
      assert Amounts(map[]) == map[];
      var farms' := farms[id := farm];
      assert FarmEntryValid(id, farms', users, cfg);
      ReplaceFarmKeepsValid(id, cfg, farms, users, farms', users);
      farms := farms';
      paused := paused[id := false];
      farmCount := id + 1;
      r := Ok(id);
    }

    /** `update_farm`, with the pool update kept (see `Retuned`). */
    method UpdateFarm(id: nat, rewardPerBlock: int, multiplier: int) returns (r: Result<(), ContractError>)
      requires Valid()
      modifies this`farms
      ensures Valid()
      ensures old(admin).None? || id !in old(farms) ==> r == Err(Panic) && unchanged(this)
      ensures old(admin).Some? && id in old(farms) ==>
        r.Ok? &&
        farms == old(farms)[id := Retuned(old(farms)[id], rewardPerBlock, multiplier, ledgerSequence, globalMultiplier, cfg)]
    {
      if admin.None? || id !in farms {
        return Err(Panic);
      }
      var farm := farms[id];
      var f := Retuned(farm, rewardPerBlock, multiplier, ledgerSequence, globalMultiplier, cfg);
      assert FarmEntryValid(id, farms, users, cfg);
      UsersValidRaise(UsersOf(users, id), farm.accRewardPerShare, f.accRewardPerShare, cfg);
      WriteFarmOnly(id, f);
      r := Ok(());
    }

    method SetFarmPaused(id: nat, pause: bool) returns (r: Result<(), ContractError>)
      requires Valid()
      modifies this`paused
      ensures Valid()
      ensures old(admin).None? ==> r == Err(Panic) && unchanged(this)
      ensures old(admin).Some? ==> r.Ok? && paused == old(paused)[id := pause]
    {
      if admin.None? {
        return Err(Panic);
      }
      paused := paused[id := pause];
      r := Ok(());
    }

    /** `end_farm`: the farm ends at the current block. */
    method EndFarm(id: nat) returns (r: Result<(), ContractError>)
      requires Valid()
      modifies this`farms
      ensures Valid()
      ensures old(admin).None? || id !in old(farms) ==> r == Err(Panic) && unchanged(this)
      ensures old(admin).Some? && id in old(farms) ==>
        r.Ok? && farms == old(farms)[id := old(farms)[id].(endBlock := ledgerSequence, isActive := false)]
    {
      if admin.None? || id !in farms {
        return Err(Panic);
      }
      assert FarmEntryValid(id, farms, users, cfg);
      WriteFarmOnly(id, farms[id].(endBlock := ledgerSequence, isActive := false));
      r := Ok(());
    }

    /** `update_pool`. */
    method UpdatePoolOf(id: nat) returns (r: Result<(), ContractError>)
      requires Valid()
      modifies this`farms
      ensures Valid()
      ensures id !in old(farms) ==> r == Err(Panic) && unchanged(this)
      ensures id in old(farms) ==>
        r.Ok? && farms == old(farms)[id := UpdatePool(old(farms)[id], ledgerSequence, globalMultiplier, cfg)]
    {
      if id !in farms {
        return Err(Panic);
      }
      var farm := farms[id];
      var f := UpdatePool(farm, ledgerSequence, globalMultiplier, cfg);
      assert FarmEntryValid(id, farms, users, cfg);
      UsersValidRaise(UsersOf(users, id), farm.accRewardPerShare, f.accRewardPerShare, cfg);
      WriteFarmOnly(id, f);
      r := Ok(());
    }

    /** `stake_lp`, with the pool update kept (see `Staked`). A farmer who
        already has a stake is first paid the pending reward, which is the
        result. */
    method StakeLp(farmer: Address, id: nat, amount: int) returns (r: Result<int, ContractError>)
      requires Valid()
      modifies this`farms, this`users
      ensures Valid()
      ensures var e := StakeCheck(amount, IsPaused(id), old(FarmAt(id)), ledgerSequence, cfg);
        if e.Some? then r == Err(e.value) && unchanged(this)
        else
          var user := UserOrNew(old(UsersOf(users, id)), farmer, ledgerSequence);
          var s := Staked(old(farms)[id], user, amount, ledgerSequence, globalMultiplier, cfg);
          r == Ok(Max(CalcPending(old(farms)[id], user, ledgerSequence, globalMultiplier, cfg), 0)) &&
          farms == old(farms)[id := s.0] && users == old(users)[id := old(UsersOf(users, id))[farmer := s.1]]
    {
      var e := StakeCheck(amount, IsPaused(id), FarmAt(id), ledgerSequence, cfg);
      if e.Some? {
        return Err(e.value);
      }
      var farm := farms[id];
      var m := UsersOf(users, id);
      var user := UserOrNew(m, farmer, ledgerSequence);
      var pending := CalcPending(farm, user, ledgerSequence, globalMultiplier, cfg);
      var s := Staked(farm, user, amount, ledgerSequence, globalMultiplier, cfg);
      assert FarmEntryValid(id, farms, users, cfg);
      UsersValidRaise(m, farm.accRewardPerShare, s.0.accRewardPerShare, cfg);
      UserSumPut(m, farmer, s.1);
      WriteFarm(id, s.0, m[farmer := s.1]);
      r := Ok(Max(pending, 0));
    }

    /** `unstake_lp`, with the pool update kept (see `Unstaked`). The result
        is the reward paid, halved for a stake younger than the minimum
        period; a record whose stake reaches zero is deleted. */
    method UnstakeLp(farmer: Address, id: nat, amount: int) returns (r: Result<int, ContractError>)
      requires Valid()
      modifies this`farms, this`users
      ensures Valid()
      ensures UnstakeCheck(amount, old(FarmAt(id)), old(UserAt(farmer, id))).None? ==>
        amount <= old(farms)[id].totalStaked
      ensures var e := UnstakeCheck(amount, old(FarmAt(id)), old(UserAt(farmer, id)));
        if e.Some? then r == Err(e.value) && unchanged(this)
        else
          var m := old(UsersOf(users, id));
          var s := Unstaked(old(farms)[id], m[farmer], amount, ledgerSequence, globalMultiplier, cfg);
          r == Ok(UnstakeReward(CalcPending(old(farms)[id], m[farmer], ledgerSequence, globalMultiplier, cfg),
                                SatSub(ledgerSequence, m[farmer].stakeTime), minStakePeriod)) &&
          farms == old(farms)[id := s.0] &&
          users == old(users)[id := if s.1.amount == 0 then m - {farmer} else m[farmer := s.1]]
    {
      var e := UnstakeCheck(amount, FarmAt(id), UserAt(farmer, id));
      if e.Some? {
        return Err(e.value);
      }
      var farm := farms[id];
      var m := UsersOf(users, id);
      var user := m[farmer];
      assert FarmEntryValid(id, farms, users, cfg);
      UserWithinSum(m, farmer);
      var pending := CalcPending(farm, user, ledgerSequence, globalMultiplier, cfg);
      var s := Unstaked(farm, user, amount, ledgerSequence, globalMultiplier, cfg);
      UsersValidRaise(m, farm.accRewardPerShare, s.0.accRewardPerShare, cfg);
      if s.1.amount == 0 {
        UserSumRemove(m, farmer);
        WriteFarm(id, s.0, m - {farmer});
      } else {
        UserSumPut(m, farmer, s.1);
        WriteFarm(id, s.0, m[farmer := s.1]);
      }
      r := Ok(UnstakeReward(pending, SatSub(ledgerSequence, user.stakeTime), minStakePeriod));
    }

    /** `harvest`, with the debt taken against the updated accumulator (see
        `HarvestClearsPending`); the result is the reward paid. */
    method Harvest(farmer: Address, id: nat) returns (r: Result<int, ContractError>)
      requires Valid()
      modifies this`farms, this`users
      ensures Valid()
      ensures var e := HarvestCheck(old(FarmAt(id)), old(UserAt(farmer, id)), ledgerSequence, globalMultiplier, cfg);
        if e.Some? then r == Err(e.value) && unchanged(this)
        else
          var m := old(UsersOf(users, id));
          var f := UpdatePool(old(farms)[id], ledgerSequence, globalMultiplier, cfg);
          r == Ok(CalcPending(old(farms)[id], m[farmer], ledgerSequence, globalMultiplier, cfg)) &&
          farms == old(farms)[id := f] &&
          users == old(users)[id := m[farmer := Harvested(m[farmer], f.accRewardPerShare, ledgerSequence, cfg)]]
    {
      var e := HarvestCheck(FarmAt(id), UserAt(farmer, id), ledgerSequence, globalMultiplier, cfg);
      if e.Some? {
        return Err(e.value);
      }
      var farm := farms[id];
      var m := UsersOf(users, id);
      var user := m[farmer];
      var f := UpdatePool(farm, ledgerSequence, globalMultiplier, cfg);
      var u := Harvested(user, f.accRewardPerShare, ledgerSequence, cfg);
      assert FarmEntryValid(id, farms, users, cfg);
      UsersValidRaise(m, farm.accRewardPerShare, f.accRewardPerShare, cfg);
      UserSumPut(m, farmer, u);
      WriteFarm(id, f, m[farmer := u]);
      r := Ok(CalcPending(farm, user, ledgerSequence, globalMultiplier, cfg));
    }

    /** `emergency_withdraw`: the whole stake is returned (the result) and
        its rewards forfeited; the farm is not updated. */
    method EmergencyWithdraw(farmer: Address, id: nat) returns (r: Result<nat, ContractError>)
      requires Valid()
      modifies this`farms, this`users
      ensures Valid()
      ensures EmergencyCheck(emergencyWithdraw, old(FarmAt(id)), old(UserAt(farmer, id))).None? ==>
        old(UsersOf(users, id))[farmer].amount <= old(farms)[id].totalStaked
      ensures var e := EmergencyCheck(emergencyWithdraw, old(FarmAt(id)), old(UserAt(farmer, id)));
        if e.Some? then r == Err(e.value) && unchanged(this)
        else
          var m := old(UsersOf(users, id));
          var farm := old(farms)[id];
          r == Ok(m[farmer].amount) &&
          farms == old(farms)[id := farm.(totalStaked := farm.totalStaked - m[farmer].amount)] &&
          users == old(users)[id := m - {farmer}]
    {
      var e := EmergencyCheck(emergencyWithdraw, FarmAt(id), UserAt(farmer, id));
      if e.Some? {
        return Err(e.value);
      }
      var farm := farms[id];
      var m := UsersOf(users, id);
      var amount := m[farmer].amount;
      assert FarmEntryValid(id, farms, users, cfg);
      UserWithinSum(m, farmer);
      UserSumRemove(m, farmer);
      WriteFarm(id, farm.(totalStaked := farm.totalStaked - amount), m - {farmer});
      r := Ok(amount);
    }

    method SetGlobalMultiplier(multiplier: int) returns (r: Result<(), ContractError>)
      requires Valid()
      modifies this`globalMultiplier
      ensures old(admin).None? ==> r == Err(Panic) && unchanged(this)
      ensures old(admin).Some? && (multiplier < cfg.baseMultiplier || multiplier > cfg.maxMultiplier) ==>
        r == Err(InvalidMultiplier) && unchanged(this)
      ensures old(admin).Some? && cfg.baseMultiplier <= multiplier <= cfg.maxMultiplier ==>
        r.Ok? && globalMultiplier == multiplier
    {
      if admin.None? {
        return Err(Panic);
      }
      if multiplier < cfg.baseMultiplier || multiplier > cfg.maxMultiplier {
        return Err(InvalidMultiplier);
      }
      globalMultiplier := multiplier;
      r := Ok(());
    }

    method SetEmergencyWithdraw(enabled: bool) returns (r: Result<(), ContractError>)
      requires Valid()
      modifies this`emergencyWithdraw
      ensures old(admin).None? ==> r == Err(Panic) && unchanged(this)
      ensures old(admin).Some? ==> r.Ok? && emergencyWithdraw == enabled
    {
      if admin.None? {
        return Err(Panic);
      }
      emergencyWithdraw := enabled;
      r := Ok(());
    }
  }
}
