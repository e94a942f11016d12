/*
 * The farmer staking contract: reward pools, per-farmer stakes with lock
 * periods, epoch-based reward accrual and the lock-period bonus.
 *
 * The ledger clock is a field that only moves forward (`Tick`); token
 * transfers to and from the contract are not modelled. The contract keeps
 * each pool's `totalStaked` equal to the sum of its stakes, and the model
 * proves that every entry point preserves this.
 */
module FarmerStaking {
  import opened Common

  /** Pool ids are the SHA-256 of the pool count and the creation time; the
      model receives the id from the caller and keeps the collision check. */
  type PoolId = nat

  const EPOCH_DURATION: nat := 86400
  const PRECISION: nat := 1_000_000
  const ONE_WEEK: nat := 604800
  const ONE_MONTH: nat := 2592000
  const THREE_MONTHS: nat := 7776000
  const SIX_MONTHS: nat := 15552000
  const ONE_YEAR: nat := 31536000
  const EMERGENCY_PENALTY_PERCENT: nat := 10

  datatype PoolError =
    | NotInitialized | AlreadyInitialized | Unauthorized | InvalidRewardRate
    | InvalidMinStake | InvalidLockPeriod | PoolNotFound | PoolPaused | PoolNotPaused

  datatype StakeError =
    | PoolNotFound | InsufficientAmount | BelowMinimumStake | ExceedsMaxLockPeriod
    | StakeLocked | NoStakeFound | InsufficientStake | Unauthorized | PoolPaused
    | TransferFailed | PoolError

  datatype RewardError = PoolNotFound | StakeNotFound | NoRewardsToClaim | TransferFailed | CalculationError

  datatype RewardPool = RewardPool(
    poolId: PoolId,
    admin: Address,
    tokenAddress: Address,
    totalStaked: nat,
    rewardRate: nat,
    currentEpoch: nat,
    minStakeAmount: nat,
    maxLockPeriod: nat,
    isPaused: bool,
    createdAt: nat,
    lastRewardUpdate: nat)

  datatype Stake = Stake(
    farmer: Address,
    poolId: PoolId,
    amount: nat,
    stakeTime: nat,
    lockPeriod: nat,
    unlockTime: nat,
    rewardDebt: nat)

  // ---------------------------------------------------------------------
  // Reward arithmetic
  // ---------------------------------------------------------------------

  /** The bonus for locking, in percent of the base reward. */
  function LockMultiplier(lockPeriod: nat): (m: nat)
    ensures 100 <= m <= 175
    ensures m == 100 <==> lockPeriod == 0
    ensures lockPeriod >= ONE_YEAR <==> m == 175
  {
    if lockPeriod == 0 then 100
    else if lockPeriod < ONE_WEEK then 105
    else if lockPeriod < ONE_MONTH then 110
    else if lockPeriod < THREE_MONTHS then 120
    else if lockPeriod < SIX_MONTHS then 135
    else if lockPeriod < ONE_YEAR then 150
    else 175
  }

  /** A longer lock never earns a smaller bonus. */
  lemma LockMultiplierMonotone(a: nat, b: nat)
    requires a <= b
    ensures LockMultiplier(a) <= LockMultiplier(b)
  {
  }

  /** Rewards earned by a stake since it was last deposited into, before the
      reward debt (what was already claimed) is subtracted. */
  function GrossRewards(s: Stake, pool: RewardPool, now: nat): nat
  {
    if s.amount == 0 || pool.totalStaked == 0 then 0
    else
      var share: nat := s.amount * PRECISION / pool.totalStaked;
      var epochs: nat := SatSub(now, s.stakeTime) / EPOCH_DURATION;
      var base: nat := pool.rewardRate * share * epochs / PRECISION;
      base * LockMultiplier(s.lockPeriod) / 100
  }

  /** `calculate_pending_rewards`. */
  function PendingRewards(s: Stake, pool: RewardPool, now: nat): (p: nat)
    ensures s.amount == 0 || pool.totalStaked == 0 ==> p == 0
    ensures p <= GrossRewards(s, pool, now)
    ensures p + s.rewardDebt >= GrossRewards(s, pool, now)
    ensures p > 0 ==> p + s.rewardDebt == GrossRewards(s, pool, now)
  {
    Max(GrossRewards(s, pool, now) - s.rewardDebt, 0)
  }

  lemma GrossRewardsMonotoneInTime(s: Stake, pool: RewardPool, t1: nat, t2: nat)
    requires t1 <= t2
    ensures GrossRewards(s, pool, t1) <= GrossRewards(s, pool, t2)
  {
    if s.amount > 0 && pool.totalStaked > 0 {
      var share: nat := s.amount * PRECISION / pool.totalStaked;
      var e1: nat := SatSub(t1, s.stakeTime) / EPOCH_DURATION;
      var e2: nat := SatSub(t2, s.stakeTime) / EPOCH_DURATION;
      DivMonotone(SatSub(t1, s.stakeTime), SatSub(t2, s.stakeTime), EPOCH_DURATION);
      MulMonotone(e1, e2, pool.rewardRate * share);
      var b1: nat := pool.rewardRate * share * e1 / PRECISION;
      var b2: nat := pool.rewardRate * share * e2 / PRECISION;
      DivMonotone(pool.rewardRate * share * e1, pool.rewardRate * share * e2, PRECISION);
      MulMonotone(b1, b2, LockMultiplier(s.lockPeriod));
      DivMonotone(b1 * LockMultiplier(s.lockPeriod), b2 * LockMultiplier(s.lockPeriod), 100);
    }
  }

  /** Pending rewards only grow while nothing is claimed. */
  lemma PendingRewardsMonotoneInTime(s: Stake, pool: RewardPool, t1: nat, t2: nat)
    requires t1 <= t2
    ensures PendingRewards(s, pool, t1) <= PendingRewards(s, pool, t2)
  {
    GrossRewardsMonotoneInTime(s, pool, t1, t2);
  }

  /** The stake after `claim_rewards`: what was pending is added to the
      reward debt, so nothing is left to claim at the same moment. */
  function Claimed(s: Stake, pool: RewardPool, now: nat): (s': Stake)
    ensures s'.rewardDebt == s.rewardDebt + PendingRewards(s, pool, now)
    ensures PendingRewards(s', pool, now) == 0
    ensures s' == s.(rewardDebt := s'.rewardDebt)
  {
    s.(rewardDebt := s.rewardDebt + PendingRewards(s, pool, now))
  }

  /** The stake after `compound_rewards`: what was pending is added to the
      stake, and the reward debt is recomputed for the larger stake. */
  function Compounded(s: Stake, pool: RewardPool, now: nat): (s': Stake)
    ensures s'.amount == s.amount + PendingRewards(s, pool, now)
    ensures s'.rewardDebt == RewardDebt(s'.amount, pool)
    ensures s' == s.(amount := s'.amount, rewardDebt := s'.rewardDebt)
  {
    var amount := s.amount + PendingRewards(s, pool, now);
    s.(amount := amount, rewardDebt := RewardDebt(amount, pool))
  }

  /** `update_reward_debt`: the stake times the rewards per share so far. */
  function RewardDebt(amount: nat, pool: RewardPool): (d: nat)
    ensures pool.totalStaked == 0 || amount == 0 ==> d == 0
  {
    var perShare: nat :=
      if pool.totalStaked > 0 then pool.rewardRate * pool.currentEpoch * PRECISION / pool.totalStaked else 0;
    amount * perShare / PRECISION
  }

  lemma RewardDebtMonotone(a: nat, b: nat, pool: RewardPool)
    requires a <= b
    ensures RewardDebt(a, pool) <= RewardDebt(b, pool)
  {
    var perShare: nat :=
      if pool.totalStaked > 0 then pool.rewardRate * pool.currentEpoch * PRECISION / pool.totalStaked else 0;
    MulMonotone(a, b, perShare);
    DivMonotone(a * perShare, b * perShare, PRECISION);
  }

  /** `calculate_apr`: the yearly reward rate in basis points, with the lock bonus. */
  function Apr(pool: RewardPool, lockPeriod: nat): (apr: nat)
    ensures pool.totalStaked == 0 ==> apr == 0
  {
    if pool.totalStaked == 0 then 0
    else
      var baseApr: nat := pool.rewardRate * 365 * 10000 / pool.totalStaked;
      baseApr * LockMultiplier(lockPeriod) / 100
  }

  lemma AprMonotoneInLock(pool: RewardPool, a: nat, b: nat)
    requires a <= b
    ensures Apr(pool, a) <= Apr(pool, b)
  {
    if pool.totalStaked > 0 {
      var baseApr: nat := pool.rewardRate * 365 * 10000 / pool.totalStaked;
      LockMultiplierMonotone(a, b);
      MulMonotone(LockMultiplier(a), LockMultiplier(b), baseApr);
      DivMonotone(baseApr * LockMultiplier(a), baseApr * LockMultiplier(b), 100);
    }
  }

  /** What `emergency_unstake` pays out: the amount less a 10% penalty.
      The penalty multiplies in `i128` with `checked_mul`, and an overflow
      counts as no penalty at all, so a huge amount is paid out whole. */
  function EmergencyPayout(amount: nat): (p: nat)
    ensures p <= amount
    ensures amount * EMERGENCY_PENALTY_PERCENT <= I128_MAX ==> 10 * p >= 9 * amount && 10 * p < 9 * amount + 10
    ensures amount * EMERGENCY_PENALTY_PERCENT > I128_MAX ==> p == amount
  {
    var product := amount * EMERGENCY_PENALTY_PERCENT;
    var penalty := if product > I128_MAX then 0 else product / 100;
    amount - penalty
  }

  // ---------------------------------------------------------------------
  // Epochs
  // ---------------------------------------------------------------------

  /** `update_epoch`: whole days since the last update become epochs, and the
      update time moves only when at least one epoch passed. */
  function EpochAdvanced(pool: RewardPool, now: nat): (p: RewardPool)
    requires pool.lastRewardUpdate <= now
    ensures p.currentEpoch == pool.currentEpoch + (now - pool.lastRewardUpdate) / EPOCH_DURATION
    ensures pool.lastRewardUpdate <= p.lastRewardUpdate <= now
    ensures now - p.lastRewardUpdate < EPOCH_DURATION
    ensures p == pool.(currentEpoch := p.currentEpoch, lastRewardUpdate := p.lastRewardUpdate)
  {
    var epochs := (now - pool.lastRewardUpdate) / EPOCH_DURATION;
    if epochs > 0 then pool.(currentEpoch := pool.currentEpoch + epochs, lastRewardUpdate := now)
    else pool
  }

  /** Updating twice at the same time is updating once. */
  lemma EpochAdvancedIdempotent(pool: RewardPool, now: nat)
    requires pool.lastRewardUpdate <= now
    ensures EpochAdvanced(EpochAdvanced(pool, now), now) == EpochAdvanced(pool, now)
  {
  }

  /** A pool's stored configuration: positive rate, minimum and lock cap, and
      epochs that never run ahead of the time since creation. */
  ghost predicate PoolValid(id: PoolId, pool: RewardPool, now: nat)
  {
    pool.poolId == id && pool.rewardRate > 0 && pool.minStakeAmount > 0 && pool.maxLockPeriod > 0 &&
    pool.createdAt <= pool.lastRewardUpdate <= now &&
    pool.currentEpoch * EPOCH_DURATION <= pool.lastRewardUpdate - pool.createdAt
  }

  lemma EpochAdvancedKeepsValid(id: PoolId, pool: RewardPool, now: nat)
    requires PoolValid(id, pool, now)
    ensures PoolValid(id, EpochAdvanced(pool, now), now)
  {
    var e := now - pool.lastRewardUpdate;
    assert (e / EPOCH_DURATION) * EPOCH_DURATION <= e;
  }

  // ---------------------------------------------------------------------
  // Stakes of one pool
  // ---------------------------------------------------------------------

  function Amounts(m: map<Address, Stake>): map<Address, int>
  {
    map a | a in m :: m[a].amount
  }

  /** The sum of the stakes held in one pool. */
  ghost function StakedSum(m: map<Address, Stake>): int
  {
    MapSum(Amounts(m))
  }

  lemma StakedSumPut(m: map<Address, Stake>, a: Address, s: Stake)
    ensures StakedSum(m[a := s]) == StakedSum(m) - (if a in m then m[a].amount else 0) + s.amount
  {
    assert Amounts(m[a := s]) == Amounts(m)[a := s.amount];
    MapSumUpdate(Amounts(m), a, s.amount);
  }

  lemma StakedSumRemove(m: map<Address, Stake>, a: Address)
    requires a in m
    ensures StakedSum(m - {a}) == StakedSum(m) - m[a].amount
  {
    assert Amounts(m - {a}) == Amounts(m) - {a};
    MapSumDelete(Amounts(m), a);
  }

  /** No single stake exceeds the pool's sum. */
  lemma StakeWithinSum(m: map<Address, Stake>, a: Address)
    requires a in m
    ensures m[a].amount <= StakedSum(m)
  {
    MapSumBoundsEntry(Amounts(m), a);
  }

  /** Each stake is filed under its farmer and pool, is positive (a stake that
      reaches zero is deleted), and its farmer is on the pool's staker list,
      which has no duplicates. */
  ghost predicate StakesValid(id: PoolId, m: map<Address, Stake>, stakers: seq<Address>)
  {
    NoDuplicates(stakers) &&
    forall a :: a in m ==> m[a].farmer == a && m[a].poolId == id && m[a].amount > 0 && a in stakers
  }

  lemma StakesValidPut(id: PoolId, m: map<Address, Stake>, stakers: seq<Address>, a: Address, s: Stake)
    requires StakesValid(id, m, stakers)
    requires s.farmer == a && s.poolId == id && s.amount > 0 && a in stakers
    ensures StakesValid(id, m[a := s], stakers)
  {
  }

  lemma StakesValidRemove(id: PoolId, m: map<Address, Stake>, stakers: seq<Address>, a: Address)
    requires StakesValid(id, m, stakers)
    ensures StakesValid(id, m - {a}, stakers)
  {
  }

  /** Appending a farmer not yet listed keeps the list free of duplicates. */
  lemma StakesValidEnlist(id: PoolId, m: map<Address, Stake>, stakers: seq<Address>, a: Address)
    requires StakesValid(id, m, stakers) && a !in stakers
    ensures StakesValid(id, m, stakers + [a])
  {
    var l := stakers + [a];
    forall i, j | 0 <= i < j < |l|
      ensures l[i] != l[j]
    {
      if j == |stakers| {
        assert l[i] == stakers[i];
      } else {
        assert l[i] == stakers[i] && l[j] == stakers[j];
      }
    }
    forall b | b in m
      ensures b in l
    {
      assert b in stakers;
      var k :| 0 <= k < |stakers| && stakers[k] == b;
      assert l[k] == b;
    }
  }

  function StakesOf(stakes: map<PoolId, map<Address, Stake>>, id: PoolId): map<Address, Stake>
  {
    if id in stakes then stakes[id] else map[]
  }

  function StakersOf(lists: map<PoolId, seq<Address>>, id: PoolId): seq<Address>
  {
    if id in lists then lists[id] else []
  }

  ghost predicate PoolEntryValid(id: PoolId, now: nat, pools: map<PoolId, RewardPool>,
                                 stakes: map<PoolId, map<Address, Stake>>, lists: map<PoolId, seq<Address>>)
  {
    id in pools ==>
      PoolValid(id, pools[id], now) &&
      StakesValid(id, StakesOf(stakes, id), StakersOf(lists, id)) &&
      pools[id].totalStaked == StakedSum(StakesOf(stakes, id))
  }

  lemma ReplacePoolKeepsValid(id: PoolId, now: nat,
                              pools: map<PoolId, RewardPool>, stakes: map<PoolId, map<Address, Stake>>,
                              lists: map<PoolId, seq<Address>>,
                              pools': map<PoolId, RewardPool>, stakes': map<PoolId, map<Address, Stake>>,
                              lists': map<PoolId, seq<Address>>)
    requires forall q :: PoolEntryValid(q, now, pools, stakes, lists)
    requires forall q :: q != id ==> (q in pools' <==> q in pools)
    requires forall q :: q != id && q in pools ==> pools'[q] == pools[q]
    requires forall q :: q != id ==> StakesOf(stakes', q) == StakesOf(stakes, q)
    requires forall q :: q != id ==> StakersOf(lists', q) == StakersOf(lists, q)
    requires PoolEntryValid(id, now, pools', stakes', lists')
    ensures forall q :: PoolEntryValid(q, now, pools', stakes', lists')
  {
    forall q
      ensures PoolEntryValid(q, now, pools', stakes', lists')
    {
      if q != id {
        assert PoolEntryValid(q, now, pools, stakes, lists);
      }
    }
  }

  // ---------------------------------------------------------------------
  // Checks of the entry points, in the order the source makes them
  // ---------------------------------------------------------------------

  function InitializePoolCheck(rewardRate: int, minStake: int, maxLockPeriod: nat, taken: bool)
    : (e: Option<PoolError>)
    ensures e.None? <==> rewardRate > 0 && minStake > 0 && maxLockPeriod > 0 && !taken
    ensures rewardRate <= 0 ==> e == Some(PoolError.InvalidRewardRate)
  {
    if rewardRate <= 0 then Some(PoolError.InvalidRewardRate)
    else if minStake <= 0 then Some(PoolError.InvalidMinStake)
    else if maxLockPeriod == 0 then Some(PoolError.InvalidLockPeriod)
    else if taken then Some(PoolError.AlreadyInitialized)
    else None
  }

  function StakeCheck(pool: Option<RewardPool>, amount: int, lockPeriod: nat): (e: Option<StakeError>)
    ensures e.None? <==>
      (pool.Some? && !pool.value.isPaused && amount > 0 && amount >= pool.value.minStakeAmount &&
       lockPeriod <= pool.value.maxLockPeriod)
    ensures pool.Some? && pool.value.isPaused ==> e == Some(StakeError.PoolPaused)
    ensures pool.Some? && !pool.value.isPaused && amount <= 0 ==> e == Some(StakeError.InsufficientAmount)
  {
    if pool.None? then Some(StakeError.PoolNotFound)
    else if pool.value.isPaused then Some(StakeError.PoolPaused)
    else if amount <= 0 then Some(StakeError.InsufficientAmount)
    else if amount < pool.value.minStakeAmount then Some(StakeError.BelowMinimumStake)
    else if lockPeriod > pool.value.maxLockPeriod then Some(StakeError.ExceedsMaxLockPeriod)
    else None
  }

  /** `unstake` (with `checkLock`) and `emergency_unstake` (without). */
  function UnstakeCheck(pool: Option<RewardPool>, stake: Option<Stake>, amount: int, now: nat, checkLock: bool)
    : (e: Option<StakeError>)
    ensures e.None? <==>
      (pool.Some? && stake.Some? && 0 < amount <= stake.value.amount &&
       (checkLock ==> now >= stake.value.unlockTime))
    ensures (pool.Some? && stake.Some? && 0 < amount <= stake.value.amount && checkLock &&
             now < stake.value.unlockTime) ==> e == Some(StakeError.StakeLocked)
  {
    if pool.None? then Some(StakeError.PoolNotFound)
    else if stake.None? then Some(StakeError.NoStakeFound)
    else if amount <= 0 || amount > stake.value.amount then Some(StakeError.InsufficientStake)
    else if checkLock && now < stake.value.unlockTime then Some(StakeError.StakeLocked)
    else None
  }

  /** `claim_rewards` and `compound_rewards`: the epoch update fails first
      when the pool is missing, which surfaces as a calculation error. */
  function ClaimCheck(pool: Option<RewardPool>, stake: Option<Stake>, now: nat): (e: Option<RewardError>)
    requires pool.Some? ==> pool.value.lastRewardUpdate <= now
    ensures e.None? <==>
      (pool.Some? && stake.Some? && PendingRewards(stake.value, EpochAdvanced(pool.value, now), now) > 0)
    ensures pool.None? ==> e == Some(RewardError.CalculationError)
  {
    if pool.None? then Some(RewardError.CalculationError)
    else if stake.None? then Some(RewardError.StakeNotFound)
    else if PendingRewards(stake.value, EpochAdvanced(pool.value, now), now) == 0 then Some(RewardError.NoRewardsToClaim)
    else None
  }

  /** The stake after a deposit: the amount grows, the clock restarts, the
      lock is replaced only by one that ends later, and the reward debt is
      recomputed against the pool as it was before the deposit. */
  function Deposited(s: Stake, amount: nat, lockPeriod: nat, unlockTime: nat, now: nat, pool: RewardPool)
    : (s': Stake)
    ensures s'.amount == s.amount + amount && s'.stakeTime == now
    ensures s'.unlockTime == Max(s.unlockTime, unlockTime)
    ensures s'.unlockTime > s.unlockTime ==> s'.lockPeriod == lockPeriod
    ensures s'.unlockTime == s.unlockTime ==> s'.lockPeriod == s.lockPeriod
    ensures s'.farmer == s.farmer && s'.poolId == s.poolId
  {
    var longer := unlockTime > s.unlockTime;
    s.(amount := s.amount + amount,
       stakeTime := now,
       lockPeriod := if longer then lockPeriod else s.lockPeriod,
       unlockTime := if longer then unlockTime else s.unlockTime,
       rewardDebt := RewardDebt(s.amount + amount, pool))
  }

  /** A pool's stakes after `farmer` withdraws `amount`: the stake is
      deleted when it reaches zero, otherwise its reward debt is recomputed. */
  function Withdrawn(m: map<Address, Stake>, farmer: Address, amount: nat, pool: RewardPool)
    : (m': map<Address, Stake>)
    requires farmer in m && amount <= m[farmer].amount
    ensures farmer in m' <==> amount < m[farmer].amount
    ensures farmer in m' ==>
      m'[farmer] == m[farmer].(amount := m[farmer].amount - amount,
                               rewardDebt := RewardDebt(m[farmer].amount - amount, pool))
    ensures forall f :: f != farmer ==> (f in m' <==> f in m)
    ensures forall f :: f != farmer && f in m ==> m'[f] == m[f]
  {
    var left: nat := m[farmer].amount - amount;
    if left == 0 then m - {farmer}
    else m[farmer := m[farmer].(amount := left, rewardDebt := RewardDebt(left, pool))]
  }

  lemma WithdrawnKeepsValid(id: PoolId, m: map<Address, Stake>, stakers: seq<Address>,
                            farmer: Address, amount: nat, pool: RewardPool)
    requires StakesValid(id, m, stakers) && farmer in m && 0 < amount <= m[farmer].amount
    ensures amount <= StakedSum(m)
    ensures StakesValid(id, Withdrawn(m, farmer, amount, pool), stakers)
    ensures StakedSum(Withdrawn(m, farmer, amount, pool)) == StakedSum(m) - amount
  {
    StakeWithinSum(m, farmer);
    var left: nat := m[farmer].amount - amount;
    if left == 0 {
      StakedSumRemove(m, farmer);
      StakesValidRemove(id, m, stakers, farmer);
    } else {
      var s' := m[farmer].(amount := left, rewardDebt := RewardDebt(left, pool));
      StakedSumPut(m, farmer, s');
      StakesValidPut(id, m, stakers, farmer, s');
    }
  }

  /** The staker list after `farmer` stakes: appended only when absent. */
  function Enlisted(stakers: seq<Address>, farmer: Address): (l: seq<Address>)
    ensures farmer in l
    ensures farmer in stakers ==> l == stakers
    ensures farmer !in stakers ==> l == stakers + [farmer]
  {
    if farmer in stakers then stakers else stakers + [farmer]
  }

  /** Depositing keeps the stakes valid and adds the amount to their sum. */
  lemma DepositKeepsValid(id: PoolId, m: map<Address, Stake>, stakers: seq<Address>, farmer: Address, s': Stake)
    requires StakesValid(id, m, stakers)
    requires s'.farmer == farmer && s'.poolId == id && s'.amount > 0
    ensures StakesValid(id, m[farmer := s'], Enlisted(stakers, farmer))
    ensures StakedSum(m[farmer := s']) == StakedSum(m) - (if farmer in m then m[farmer].amount else 0) + s'.amount
  {
    if farmer !in stakers {
      StakesValidEnlist(id, m, stakers, farmer);
    }
    StakesValidPut(id, m, Enlisted(stakers, farmer), farmer, s');
    StakedSumPut(m, farmer, s');
  }

  /** A stake of a positive amount keeps one pool's entry valid: the new
      total is the sum of the new stakes. */
  lemma StakeKeepsEntry(id: PoolId, now: nat, pool: RewardPool, m: map<Address, Stake>, stakers: seq<Address>,
                        farmer: Address, amount: nat, lockPeriod: nat)
    requires PoolValid(id, pool, now) && StakesValid(id, m, stakers) && pool.totalStaked == StakedSum(m)
    requires amount > 0
    ensures var pool' := EpochAdvanced(pool.(totalStaked := pool.totalStaked + amount), now);
      var m' := m[farmer := NewStake(m, farmer, id, amount, lockPeriod, now, pool)];
      PoolValid(id, pool', now) && StakesValid(id, m', Enlisted(stakers, farmer)) &&
      pool'.totalStaked == StakedSum(m')
  {
    var s1 := NewStake(m, farmer, id, amount, lockPeriod, now, pool);
    DepositKeepsValid(id, m, stakers, farmer, s1);
    EpochAdvancedKeepsValid(id, pool.(totalStaked := pool.totalStaked + amount), now);
  }

  /** The stake `farmer` holds after staking `amount` more at time `now`:
      a new stake starts empty with the requested lock. */
  function NewStake(m: map<Address, Stake>, farmer: Address, id: PoolId, amount: nat, lockPeriod: nat,
                    now: nat, pool: RewardPool): (s: Stake)
    ensures s.farmer == (if farmer in m then m[farmer].farmer else farmer)
    ensures s.poolId == (if farmer in m then m[farmer].poolId else id)
    ensures s.amount == (if farmer in m then m[farmer].amount else 0) + amount
    ensures s.stakeTime == now
    ensures farmer in m ==> s.unlockTime >= m[farmer].unlockTime
    ensures s.unlockTime >= Min(now + lockPeriod, U64_MAX)
  {
    var unlock := Min(now + lockPeriod, U64_MAX);
    var s0 := if farmer in m then m[farmer] else Stake(farmer, id, 0, now, lockPeriod, unlock, 0);
    Deposited(s0, amount, lockPeriod, unlock, now, pool)
  }

  /** `stake`'s scan of the staker list. */
  method IsListed(list: seq<Address>, farmer: Address) returns (found: bool)
    ensures found <==> farmer in list
  {
    found := false;
    var i := 0;
    while i < |list| && !found
      invariant 0 <= i <= |list|
      invariant found <==> farmer in list[..i]
    {
      if list[i] == farmer {
        found := true;
      }
      assert list[..i + 1] == list[..i] + [list[i]];
      i := i + 1;
    }
    if !found {
      assert list[..i] == list;
    }
  }

  // ---------------------------------------------------------------------
  // The contract's storage
  // ---------------------------------------------------------------------

  class StakingContract {
    var ledgerTime: nat
    var pools: map<PoolId, RewardPool>
    var poolList: seq<PoolId>
    var poolCount: nat
    var stakes: map<PoolId, map<Address, Stake>>
    var stakerLists: map<PoolId, seq<Address>>

    ghost predicate Valid()
      reads this`ledgerTime, this`pools, this`poolList, this`poolCount, this`stakes, this`stakerLists
    {
      |poolList| == poolCount && NoDuplicates(poolList) &&
      (forall id :: id in pools <==> id in poolList) &&
      (forall id :: id in stakes ==> id in pools) &&
      (forall id :: id in stakerLists ==> id in pools) &&
      (forall id :: id in pools ==> pools[id].lastRewardUpdate <= ledgerTime) &&
      (forall id :: PoolEntryValid(id, ledgerTime, pools, stakes, stakerLists))
    }

    function PoolAt(id: PoolId): Option<RewardPool>
      reads this`pools
    {
      if id in pools then Some(pools[id]) else None
    }

    function StakeAt(farmer: Address, id: PoolId): Option<Stake>
      reads this`stakes
    {
      var m := StakesOf(stakes, id);
      if farmer in m then Some(m[farmer]) else None
    }

    constructor (now: nat)
      ensures ledgerTime == now && pools == map[] && poolList == [] && poolCount == 0
      ensures stakes == map[] && stakerLists == map[]
      ensures Valid()
    {
      ledgerTime := now;
      pools := map[];
      poolList := [];
      poolCount := 0;
      stakes := map[];
      stakerLists := map[];
    }

    /** The ledger clock never goes backwards. */
    method Tick(now: nat)
      requires Valid() && ledgerTime <= now
      modifies this`ledgerTime
      ensures ledgerTime == now
      ensures Valid()
    {
      ledgerTime := now;
      forall id | id in pools
        ensures PoolEntryValid(id, now, pools, stakes, stakerLists)
      {
        assert PoolEntryValid(id, old(ledgerTime), pools, stakes, stakerLists);
      }
    }

    /** Stores one pool together with its stakes and staker list. */
    method WritePool(id: PoolId, pool: RewardPool, m: map<Address, Stake>, list: seq<Address>)
      requires Valid() && id in pools
      requires PoolValid(id, pool, ledgerTime) && StakesValid(id, m, list)
      requires pool.totalStaked == StakedSum(m)
      modifies this`pools, this`stakes, this`stakerLists
      ensures Valid()
      ensures pools == old(pools)[id := pool] && stakes == old(stakes)[id := m]
      ensures stakerLists == if list == old(StakersOf(stakerLists, id)) then old(stakerLists)
                             else old(stakerLists)[id := list]
    {
      var pools', stakes' := pools[id := pool], stakes[id := m];
      var lists' := if list == StakersOf(stakerLists, id) then stakerLists else stakerLists[id := list];
      assert PoolEntryValid(id, ledgerTime, pools', stakes', lists');
      ReplacePoolKeepsValid(id, ledgerTime, pools, stakes, stakerLists, pools', stakes', lists');
      pools, stakes, stakerLists := pools', stakes', lists';
    }

    /** Stores a new version of one pool whose stakes do not change. */
    method WritePoolOnly(id: PoolId, pool: RewardPool)
      requires Valid() && id in pools
      requires PoolValid(id, pool, ledgerTime) && pool.totalStaked == pools[id].totalStaked
      modifies this`pools
      ensures Valid()
      ensures pools == old(pools)[id := pool]
    {
      assert PoolEntryValid(id, ledgerTime, pools, stakes, stakerLists);
      var pools' := pools[id := pool];
      assert PoolEntryValid(id, ledgerTime, pools', stakes, stakerLists);
      ReplacePoolKeepsValid(id, ledgerTime, pools, stakes, stakerLists, pools', stakes, stakerLists);
      pools := pools';
    }

    method InitializePool(admin: Address, tokenAddress: Address, rewardRate: int, minStake: int,
                          maxLockPeriod: nat, id: PoolId)
      returns (r: Result<PoolId, PoolError>)
      requires Valid()
      modifies this`pools, this`poolList, this`poolCount
      ensures Valid()
      ensures var e := InitializePoolCheck(rewardRate, minStake, maxLockPeriod, id in old(pools));
        if e.Some? then r == Err(e.value) && unchanged(this)
        else r == Ok(id) &&
             pools == old(pools)[id := RewardPool(id, admin, tokenAddress, 0, rewardRate, 0, minStake,
                                                  maxLockPeriod, false, ledgerTime, ledgerTime)] &&
             poolList == old(poolList) + [id] && poolCount == old(poolCount) + 1
    {
      var e := InitializePoolCheck(rewardRate, minStake, maxLockPeriod, id in pools);
      if e.Some? {
        return Err(e.value);
      }
      var pool := RewardPool(id, admin, tokenAddress, 0, rewardRate, 0, minStake,
                             maxLockPeriod, false, ledgerTime, ledgerTime);
      assert StakesOf(stakes, id) == map[] && StakersOf(stakerLists, id) == [];
      assert Amounts(map[]) == map[];
      var pools' := pools[id := pool];
      assert PoolEntryValid(id, ledgerTime, pools', stakes, stakerLists);
      ReplacePoolKeepsValid(id, ledgerTime, pools, stakes, stakerLists, pools', stakes, stakerLists);
      pools := pools';
      poolList := poolList + [id];
      poolCount := poolCount + 1;
      r := Ok(id);
    }

    method UpdateRewardRate(admin: Address, id: PoolId, newRate: int) returns (r: Result<(), PoolError>)
      requires Valid()
      modifies this`pools
      ensures Valid()
      ensures newRate <= 0 ==> r == Err(PoolError.InvalidRewardRate) && pools == old(pools)
      ensures newRate > 0 && id !in old(pools) ==> r == Err(PoolError.PoolNotFound) && pools == old(pools)
      ensures newRate > 0 && id in old(pools) && old(pools)[id].admin != admin ==>
        r == Err(PoolError.Unauthorized) && pools == old(pools)
      ensures r.Ok? <==> newRate > 0 && id in old(pools) && old(pools)[id].admin == admin
      ensures r.Ok? ==> pools == old(pools)[id := old(pools)[id].(rewardRate := newRate, lastRewardUpdate := ledgerTime)]
    {
      if newRate <= 0 {
        return Err(PoolError.InvalidRewardRate);
      }
      if id !in pools {
        return Err(PoolError.PoolNotFound);
      }
      var pool := pools[id];
      if pool.admin != admin {
        return Err(PoolError.Unauthorized);
      }
      assert PoolEntryValid(id, ledgerTime, pools, stakes, stakerLists);
      WritePoolOnly(id, pool.(rewardRate := newRate, lastRewardUpdate := ledgerTime));
      r := Ok(());
    }

    /** `pause_pool` (`pause`) and `unpause_pool` (`!pause`). */
    method SetPaused(admin: Address, id: PoolId, pause: bool) returns (r: Result<(), PoolError>)
      requires Valid()
      modifies this`pools
      ensures Valid()
      ensures id !in old(pools) ==> r == Err(PoolError.PoolNotFound) && pools == old(pools)
      ensures id in old(pools) && old(pools)[id].admin != admin ==> r == Err(PoolError.Unauthorized) && pools == old(pools)
      ensures id in old(pools) && old(pools)[id].admin == admin && old(pools)[id].isPaused == pause ==>
        r == Err(if pause then PoolError.PoolPaused else PoolError.PoolNotPaused) && pools == old(pools)
      ensures r.Ok? <==> id in old(pools) && old(pools)[id].admin == admin && old(pools)[id].isPaused != pause
      ensures r.Ok? ==> pools == old(pools)[id := old(pools)[id].(isPaused := pause)]
    {
      if id !in pools {
        return Err(PoolError.PoolNotFound);
      }
      var pool := pools[id];
      if pool.admin != admin {
        return Err(PoolError.Unauthorized);
      }
      if pool.isPaused == pause {
        return Err(if pause then PoolError.PoolPaused else PoolError.PoolNotPaused);
      }
      assert PoolEntryValid(id, ledgerTime, pools, stakes, stakerLists);
      WritePoolOnly(id, pool.(isPaused := pause));
      r := Ok(());
    }

    method UpdateEpoch(id: PoolId) returns (r: Result<(), PoolError>)
      requires Valid()
      modifies this`pools
      ensures Valid()
      ensures id !in old(pools) ==> r == Err(PoolError.PoolNotFound) && pools == old(pools)
      ensures id in old(pools) ==> r.Ok? && pools == old(pools)[id := EpochAdvanced(old(pools)[id], ledgerTime)]
    {
      if id !in pools {
        return Err(PoolError.PoolNotFound);
      }
      assert PoolEntryValid(id, ledgerTime, pools, stakes, stakerLists);
      EpochAdvancedKeepsValid(id, pools[id], ledgerTime);
      WritePoolOnly(id, EpochAdvanced(pools[id], ledgerTime));
      r := Ok(());
    }

    method StakeTokens(farmer: Address, id: PoolId, amount: int, lockPeriod: nat) returns (r: Result<(), StakeError>)
      requires Valid()
      modifies this`pools, this`stakes, this`stakerLists
      ensures Valid()
      ensures var e := StakeCheck(old(PoolAt(id)), amount, lockPeriod);
        if e.Some? then r == Err(e.value) && unchanged(this)
        else
          var pool := old(pools)[id];
          var m := old(StakesOf(stakes, id));
          r.Ok? &&
          pools == old(pools)[id := EpochAdvanced(pool.(totalStaked := pool.totalStaked + amount), ledgerTime)] &&
          stakes == old(stakes)[id := m[farmer := NewStake(m, farmer, id, amount, lockPeriod, ledgerTime, pool)]] &&
          StakersOf(stakerLists, id) == Enlisted(old(StakersOf(stakerLists, id)), farmer)
    {
      var e := StakeCheck(PoolAt(id), amount, lockPeriod);
      if e.Some? {
        return Err(e.value);
      }
      ApplyStake(farmer, id, amount, lockPeriod);
      r := Ok(());
    }

    /** The stores of a stake that passed `StakeCheck`. */
    method ApplyStake(farmer: Address, id: PoolId, amount: int, lockPeriod: nat)
      requires Valid() && StakeCheck(PoolAt(id), amount, lockPeriod).None?
      modifies this`pools, this`stakes, this`stakerLists
      ensures Valid()
      ensures var pool := old(pools)[id];
        var m := old(StakesOf(stakes, id));
        pools == old(pools)[id := EpochAdvanced(pool.(totalStaked := pool.totalStaked + amount), ledgerTime)] &&
        stakes == old(stakes)[id := m[farmer := NewStake(m, farmer, id, amount, lockPeriod, ledgerTime, pool)]] &&
        StakersOf(stakerLists, id) == Enlisted(old(StakersOf(stakerLists, id)), farmer)
    {
      var pool := pools[id];
      assert PoolEntryValid(id, ledgerTime, pools, stakes, stakerLists);
      var m := StakesOf(stakes, id);
      var list := StakersOf(stakerLists, id);
      StakeKeepsEntry(id, ledgerTime, pool, m, list, farmer, amount, lockPeriod);
      var listed := IsListed(list, farmer);
      var list' := if listed then list else list + [farmer];
      WritePool(id, EpochAdvanced(pool.(totalStaked := pool.totalStaked + amount), ledgerTime),
                m[farmer := NewStake(m, farmer, id, amount, lockPeriod, ledgerTime, pool)], list');
    }

    /** The withdrawal shared by `unstake` and `emergency_unstake`. */
    method Withdraw(farmer: Address, id: PoolId, amount: nat)
      requires Valid() && id in pools && farmer in StakesOf(stakes, id)
      requires 0 < amount <= StakesOf(stakes, id)[farmer].amount
      modifies this`pools, this`stakes, this`stakerLists
      ensures Valid()
      ensures amount <= old(pools)[id].totalStaked
      ensures var pool := old(pools)[id];
        pools == old(pools)[id := EpochAdvanced(pool.(totalStaked := pool.totalStaked - amount), ledgerTime)] &&
        stakes == old(stakes)[id := Withdrawn(old(StakesOf(stakes, id)), farmer, amount, pool)] &&
        stakerLists == old(stakerLists)
    {
      var pool := pools[id];
      assert PoolEntryValid(id, ledgerTime, pools, stakes, stakerLists);
      var m := StakesOf(stakes, id);
      var list := StakersOf(stakerLists, id);
      WithdrawnKeepsValid(id, m, list, farmer, amount, pool);
      var pool' := EpochAdvanced(pool.(totalStaked := pool.totalStaked - amount), ledgerTime);
      EpochAdvancedKeepsValid(id, pool.(totalStaked := pool.totalStaked - amount), ledgerTime);
      WritePool(id, pool', Withdrawn(m, farmer, amount, pool), list);
    }

    method Unstake(farmer: Address, id: PoolId, amount: int) returns (r: Result<(), StakeError>)
      requires Valid()
      modifies this`pools, this`stakes, this`stakerLists
      ensures Valid()
      ensures var e := UnstakeCheck(old(PoolAt(id)), old(StakeAt(farmer, id)), amount, ledgerTime, true);
        if e.Some? then r == Err(e.value) && unchanged(this)
        else r.Ok? && old(pools)[id].totalStaked - amount == pools[id].totalStaked &&
             (if StakeAt(farmer, id).Some? then StakeAt(farmer, id).value.amount else 0)
               == old(StakeAt(farmer, id)).value.amount - amount &&
             pools == old(pools)[id := EpochAdvanced(old(pools)[id].(totalStaked := old(pools)[id].totalStaked - amount), ledgerTime)] &&
             stakes == old(stakes)[id := Withdrawn(old(StakesOf(stakes, id)), farmer, amount, old(pools)[id])] &&
             stakerLists == old(stakerLists)
    {
      var e := UnstakeCheck(PoolAt(id), StakeAt(farmer, id), amount, ledgerTime, true);
      if e.Some? {
        return Err(e.value);
      }
      Withdraw(farmer, id, amount);
      r := Ok(());
    }

    method EmergencyUnstake(farmer: Address, id: PoolId, amount: int) returns (r: Result<nat, StakeError>)
      requires Valid()
      modifies this`pools, this`stakes, this`stakerLists
      ensures Valid()
      ensures var e := UnstakeCheck(old(PoolAt(id)), old(StakeAt(farmer, id)), amount, ledgerTime, false);
        if e.Some? then r == Err(e.value) && unchanged(this)
        else r == Ok(EmergencyPayout(amount)) && old(pools)[id].totalStaked - amount == pools[id].totalStaked &&
             (if StakeAt(farmer, id).Some? then StakeAt(farmer, id).value.amount else 0)
               == old(StakeAt(farmer, id)).value.amount - amount &&
             pools == old(pools)[id := EpochAdvanced(old(pools)[id].(totalStaked := old(pools)[id].totalStaked - amount), ledgerTime)] &&
             stakes == old(stakes)[id := Withdrawn(old(StakesOf(stakes, id)), farmer, amount, old(pools)[id])] &&
             stakerLists == old(stakerLists)
    {
      var e := UnstakeCheck(PoolAt(id), StakeAt(farmer, id), amount, ledgerTime, false);
      if e.Some? {
        return Err(e.value);
      }
      Withdraw(farmer, id, amount);
      r := Ok(EmergencyPayout(amount));
    }

    /** Replaces the stake of a farmer who already has one. */
    method RewriteStake(farmer: Address, id: PoolId, pool: RewardPool, s': Stake)
      requires Valid() && id in pools && farmer in StakesOf(stakes, id)
      requires PoolValid(id, pool, ledgerTime)
      requires s'.farmer == farmer && s'.poolId == id && s'.amount > 0
      requires pool.totalStaked == pools[id].totalStaked - StakesOf(stakes, id)[farmer].amount + s'.amount
      modifies this`pools, this`stakes, this`stakerLists
      ensures Valid()
      ensures pools == old(pools)[id := pool]
      ensures stakes == old(stakes)[id := old(StakesOf(stakes, id))[farmer := s']]
      ensures stakerLists == old(stakerLists)
    {
      assert PoolEntryValid(id, ledgerTime, pools, stakes, stakerLists);
      var m := StakesOf(stakes, id);
      var list := StakersOf(stakerLists, id);
      assert Enlisted(list, farmer) == list;
      DepositKeepsValid(id, m, list, farmer, s');
      WritePool(id, pool, m[farmer := s'], list);
    }

    method ClaimRewards(farmer: Address, id: PoolId) returns (r: Result<nat, RewardError>)
      requires Valid()
      modifies this`pools, this`stakes, this`stakerLists
      ensures Valid()
      ensures old(PoolAt(id)).Some? ==> old(pools)[id].lastRewardUpdate <= ledgerTime
      ensures var e := ClaimCheck(old(PoolAt(id)), old(StakeAt(farmer, id)), ledgerTime);
        if e.Some? then r == Err(e.value) && unchanged(this)
        else
          var pool := EpochAdvanced(old(pools)[id], ledgerTime);
          var s := old(StakeAt(farmer, id)).value;
          r == Ok(PendingRewards(s, pool, ledgerTime)) &&
          pools == old(pools)[id := pool] &&
          stakes == old(stakes)[id := old(StakesOf(stakes, id))[farmer := Claimed(s, pool, ledgerTime)]] &&
          stakerLists == old(stakerLists)
    {
      var e := ClaimCheck(PoolAt(id), StakeAt(farmer, id), ledgerTime);
      if e.Some? {
        return Err(e.value);
      }
      assert PoolEntryValid(id, ledgerTime, pools, stakes, stakerLists);
      var pool := EpochAdvanced(pools[id], ledgerTime);
      EpochAdvancedKeepsValid(id, pools[id], ledgerTime);
      var s := StakesOf(stakes, id)[farmer];
      var pending := PendingRewards(s, pool, ledgerTime);
      RewriteStake(farmer, id, pool, Claimed(s, pool, ledgerTime));
      r := Ok(pending);
    }

    method CompoundRewards(farmer: Address, id: PoolId) returns (r: Result<nat, RewardError>)
      requires Valid()
      modifies this`pools, this`stakes, this`stakerLists
      ensures Valid()
      ensures old(PoolAt(id)).Some? ==> old(pools)[id].lastRewardUpdate <= ledgerTime
      ensures var e := ClaimCheck(old(PoolAt(id)), old(StakeAt(farmer, id)), ledgerTime);
        if e.Some? then r == Err(e.value) && unchanged(this)
        else
          var pool := EpochAdvanced(old(pools)[id], ledgerTime);
          var s := old(StakeAt(farmer, id)).value;
          r == Ok(PendingRewards(s, pool, ledgerTime)) &&
          pools == old(pools)[id := pool.(totalStaked := pool.totalStaked + r.value)] &&
          stakes == old(stakes)[id := old(StakesOf(stakes, id))[farmer := Compounded(s, pool, ledgerTime)]] &&
          stakerLists == old(stakerLists)
    {
      var e := ClaimCheck(PoolAt(id), StakeAt(farmer, id), ledgerTime);
      if e.Some? {
        return Err(e.value);
      }
      var pending := ApplyCompound(farmer, id);
      r := Ok(pending);
    }

    /** The stores of a compounding that passed `ClaimCheck`. */
    method ApplyCompound(farmer: Address, id: PoolId) returns (pending: nat)
      requires Valid() && ClaimCheck(PoolAt(id), StakeAt(farmer, id), ledgerTime).None?
      modifies this`pools, this`stakes, this`stakerLists
      ensures Valid()
      ensures old(pools)[id].lastRewardUpdate <= ledgerTime
      ensures var pool := EpochAdvanced(old(pools)[id], ledgerTime);
        var s := old(StakeAt(farmer, id)).value;
        pending == PendingRewards(s, pool, ledgerTime) &&
        pools == old(pools)[id := pool.(totalStaked := pool.totalStaked + pending)] &&
        stakes == old(stakes)[id := old(StakesOf(stakes, id))[farmer := Compounded(s, pool, ledgerTime)]] &&
        stakerLists == old(stakerLists)
    {
      assert PoolEntryValid(id, ledgerTime, pools, stakes, stakerLists);
      var pool := EpochAdvanced(pools[id], ledgerTime);
      EpochAdvancedKeepsValid(id, pools[id], ledgerTime);
      var s := StakesOf(stakes, id)[farmer];
      pending := PendingRewards(s, pool, ledgerTime);
      RewriteStake(farmer, id, pool.(totalStaked := pool.totalStaked + pending), Compounded(s, pool, ledgerTime));
    }

    /** `calculate_apr` for a stored pool. */
    function AprOf(id: PoolId, lockPeriod: nat): (r: Result<nat, RewardError>)
      reads this`pools
      ensures id !in pools ==> r == Err(RewardError.PoolNotFound)
      ensures id in pools ==> r.Ok? && (pools[id].totalStaked == 0 ==> r.value == 0)
    {
      if id in pools then Ok(Apr(pools[id], lockPeriod)) else Err(RewardError.PoolNotFound)
    }
  }
}
