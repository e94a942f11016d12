/*
 * The price-stabilisation contract: funds collect contributions for one
 * crop; oracles report market prices; when a crop's price falls below a
 * fund's threshold, the fund pays every eligible farmer the shortfall per
 * unit of production capacity.
 */
module PriceStabilization {
  import opened Common

  /** Fund ids are hashes of the ledger time and sequence, compared only for
      equality. */
  type FundId = nat
  type Crop = string

  /** How old a reported price may be, in seconds. */
  const MAX_PRICE_AGE: nat := 3600
  /** The staleness period for Chainlink answers, in seconds. */
  const CHAINLINK_STALENESS: nat := 3600
  /** Chainlink answers are normalised to this many decimals. */
  const CHAINLINK_DECIMALS: nat := 8

  datatype Fund = Fund(fundId: FundId, name: string, admin: Address, totalBalance: int, priceThreshold: int,
                       crop: Crop, active: bool, creationTime: nat, lastPayoutTime: Option<nat>)

  datatype Contributor = Contributor(address: Address, totalContribution: int, lastContributionTime: nat)

  datatype PriceData = PriceData(price: int, timestamp: nat, oracle: Address)

  datatype Farmer = Farmer(address: Address, registeredTime: nat, totalReceivedPayouts: int, active: bool)

  datatype Payout = Payout(farmer: Address, fundId: FundId, amount: int, timestamp: nat, marketPrice: int,
                           thresholdPrice: int)

  datatype ChainlinkFeed = ChainlinkFeed(feedAddress: Address, decimals: nat, description: string, crop: Crop,
                                         registeredTime: nat, active: bool)

  datatype ChainlinkPrice = ChainlinkPrice(price: int, timestamp: nat, feedAddress: Address, roundId: nat,
                                           decimals: nat)

  datatype FundStatus = FundStatus(totalBalance: int, priceThreshold: int, creationTime: nat,
                                   lastPayoutTime: Option<nat>)

  datatype StabilizationError =
    | Unauthorized
    | InvalidInput
    | FundAlreadyExists
    | FundNotFound
    | PriceDataNotAvailable
    | OracleNotRegistered
    | ThresholdNotReached
    | FarmerNotRegistered
    | FarmerAlreadyRegistered
    | CropAlreadyRegistered
    | InsufficientFunds
    | ChainlinkFeedNotFound
    | ChainlinkFeedNotRegistered
    | InvalidChainlinkResponse
    | StalePriceData
    /** An `unwrap` of the contract admin before initialisation. */
    | Panic

  // ---------------------------------------------------------------------
  // Price utilities
  // ---------------------------------------------------------------------

  /** `validate_timestamp`: not in the future and at most an hour old. */
  function RecentTimestamp(ts: nat, now: nat): (ok: bool)
    ensures ok <==> ts <= now && now - ts <= MAX_PRICE_AGE
  {
    if ts > now then false else now - ts <= MAX_PRICE_AGE
  }

  /** `calculate_price_difference`: the shortfall of the price below the
      threshold, and 0 when the price is at or above it. */
  function PriceDifference(threshold: int, price: int): (d: int)
    ensures d >= 0
    ensures d > 0 <==> price < threshold
    ensures d > 0 ==> price + d == threshold
  {
    var difference := threshold - price;
    if difference <= 0 then 0 else difference
  }

  /** `check_price_threshold`: the price is below the fund's threshold. */
  function BelowThreshold(price: int, threshold: int): (b: bool)
    ensures b <==> PriceDifference(threshold, price) > 0
  {
    price < threshold
  }

  /** `validate_chainlink_response`: a positive price, not from the future,
      no older than the staleness period, from a non-zero round. */
  function ChainlinkCheck(price: int, ts: nat, roundId: nat, staleness: nat, now: nat)
    : (e: Option<StabilizationError>)
    ensures e.None? <==> price > 0 && ts <= now && now - ts <= staleness && roundId != 0
    ensures e == Some(StalePriceData) <==> price > 0 && ts <= now && now - ts > staleness
  {
    if price <= 0 then Some(InvalidChainlinkResponse)
    else if ts > now then Some(InvalidChainlinkResponse)
    else if now - ts > staleness then Some(StalePriceData)
    else if roundId == 0 then Some(InvalidChainlinkResponse)
    else None
  }

  function Pow10(n: nat): (p: nat)
    ensures p >= 1
  {
    if n == 0 then 1 else 10 * Pow10(n - 1)
  }

  /** `convert_chainlink_price`: a price with `decimals` decimals rescaled
      to eight; more than eight decimals are refused. */
  function ConvertChainlinkPrice(price: int, decimals: nat): (r: Result<int, StabilizationError>)
    ensures r.Err? <==> decimals > CHAINLINK_DECIMALS
    ensures r.Err? ==> r.error == InvalidChainlinkResponse
  {
    if decimals > CHAINLINK_DECIMALS then Err(InvalidChainlinkResponse)
    else Ok(price * Pow10(CHAINLINK_DECIMALS - decimals))
  }

  /** Multiplying by a positive factor and dividing by it again is exact. */
  lemma MulDivExact(a: int, k: int)
    requires k > 0
    ensures (a * k) / k == a
  {
    var q, r := (a * k) / k, (a * k) % k;
    assert (a - q) * k == r;
    if a - q >= 1 {
      MulMonotone(1, a - q, k);
    } else if a - q <= -1 {
      var y := q - a;
      assert (a - q) * k == -(y * k);
      MulMonotone(1, y, k);
    }
  }

  /** The conversion is exact: dividing by the scale gives the price back,
      so it keeps the sign and the order of prices. */
  lemma ConvertChainlinkExact(price: int, decimals: nat)
    requires decimals <= CHAINLINK_DECIMALS
    ensures ConvertChainlinkPrice(price, decimals).Ok?
    ensures ConvertChainlinkPrice(price, decimals).value / Pow10(CHAINLINK_DECIMALS - decimals) == price
    ensures ConvertChainlinkPrice(price, decimals).value > 0 <==> price > 0
    ensures decimals == CHAINLINK_DECIMALS ==> ConvertChainlinkPrice(price, decimals).value == price
  {
    var k := Pow10(CHAINLINK_DECIMALS - decimals);
    MulDivExact(price, k);
    if price > 0 {
      MulMonotone(1, price, k);
    } else {
      MulMonotone(0, -price, k);
      assert price * k == -((-price) * k);
    }
  }

  /** Rescaling keeps the order of two prices with the same decimals. */
  lemma ConvertChainlinkMonotone(p1: int, p2: int, decimals: nat)
    requires decimals <= CHAINLINK_DECIMALS && p1 <= p2
    ensures ConvertChainlinkPrice(p1, decimals).value <= ConvertChainlinkPrice(p2, decimals).value
  {
    var k := Pow10(CHAINLINK_DECIMALS - decimals);
    MulMonotone(0, p2 - p1, k);
    assert p2 * k - p1 * k == (p2 - p1) * k;
  }

  // ---------------------------------------------------------------------
  // Payout arithmetic
  // ---------------------------------------------------------------------

  type FarmerCrops = map<(Address, Crop), int>

  /** A farmer `trigger_payout` pays: registered, active and growing the
      fund's crop. */
  predicate Eligible(f: Address, farmers: map<Address, Farmer>, crops: FarmerCrops, crop: Crop)
  {
    f in farmers && farmers[f].active && (f, crop) in crops
  }

  /** The listed farmers that are eligible, in order and with repeats. */
  function EligibleFarmers(list: seq<Address>, farmers: map<Address, Farmer>, crops: FarmerCrops, crop: Crop)
    : seq<Address>
  {
    if list == [] then []
    else
      var f := list[|list| - 1];
      EligibleFarmers(list[..|list| - 1], farmers, crops, crop) +
      (if Eligible(f, farmers, crops, crop) then [f] else [])
  }

  /** Exactly the eligible listed farmers are paid. */
  lemma {:induction false} EligibleFarmersExact(list: seq<Address>, farmers: map<Address, Farmer>,
                                                crops: FarmerCrops, crop: Crop, f: Address)
    ensures f in EligibleFarmers(list, farmers, crops, crop) <==> f in list && Eligible(f, farmers, crops, crop)
  {
    if list != [] {
      EligibleFarmersExact(list[..|list| - 1], farmers, crops, crop, f);
      assert list == list[..|list| - 1] + [list[|list| - 1]];
    }
  }

  function CapacityOf(crops: FarmerCrops, f: Address, crop: Crop): int
  {
    if (f, crop) in crops then crops[(f, crop)] else 0
  }

  /** The payout of each listed farmer, the shortfall times the farmer's
      capacity, summed. */
  function PayoutTotal(paid: seq<Address>, crops: FarmerCrops, crop: Crop, diff: int): int
  {
    if paid == [] then 0
    else PayoutTotal(paid[..|paid| - 1], crops, crop, diff) + diff * CapacityOf(crops, paid[|paid| - 1], crop)
  }

  /** The summed capacity of the listed farmers that grow the crop, as
      `check_fund_sufficiency` counts it. */
  function CapacitySum(list: seq<Address>, crops: FarmerCrops, crop: Crop): int
  {
    if list == [] then 0 else CapacitySum(list[..|list| - 1], crops, crop) + CapacityOf(crops, list[|list| - 1], crop)
  }

  ghost predicate CapacitiesPositive(crops: FarmerCrops)
  {
    forall k :: k in crops ==> crops[k] > 0
  }

  /** A sufficiency check that passes covers the payout to the eligible
      farmers of the same list. */
  lemma {:induction false} EligiblePayoutCovered(list: seq<Address>, farmers: map<Address, Farmer>,
                                                 crops: FarmerCrops, crop: Crop, diff: int)
    requires CapacitiesPositive(crops) && diff > 0
    ensures PayoutTotal(EligibleFarmers(list, farmers, crops, crop), crops, crop, diff) <=
            diff * CapacitySum(list, crops, crop)
  {
    if list != [] {
      var init, f := list[..|list| - 1], list[|list| - 1];
      EligiblePayoutCovered(init, farmers, crops, crop, diff);
      var e := EligibleFarmers(init, farmers, crops, crop);
      var c := CapacityOf(crops, f, crop);
      assert c >= 0;
      assert CapacitySum(list, crops, crop) == CapacitySum(init, crops, crop) + c;
      assert diff * (CapacitySum(init, crops, crop) + c) == diff * CapacitySum(init, crops, crop) + diff * c;
      if Eligible(f, farmers, crops, crop) {
        var e' := e + [f];
        assert e'[..|e'| - 1] == e;
        assert PayoutTotal(e', crops, crop, diff) == PayoutTotal(e, crops, crop, diff) + diff * c;
      } else {
        assert EligibleFarmers(list, farmers, crops, crop) == e;
        MulMonotone(0, c, diff);
      }
    }
  }

  /** Each paid farmer's total grows by their payout, once per listing. */
  function Credited(farmers: map<Address, Farmer>, paid: seq<Address>, crops: FarmerCrops, crop: Crop, diff: int)
    : (m: map<Address, Farmer>)
    ensures m.Keys == farmers.Keys
  {
    if paid == [] then farmers
    else
      var m := Credited(farmers, paid[..|paid| - 1], crops, crop, diff);
      var f := paid[|paid| - 1];
      if f in m then m[f := m[f].(totalReceivedPayouts := m[f].totalReceivedPayouts + diff * CapacityOf(crops, f, crop))]
      else m
  }

  /** The farmers' received totals, as a ledger. */
  ghost function Received(farmers: map<Address, Farmer>): map<Address, int>
  {
    map f | f in farmers :: farmers[f].totalReceivedPayouts
  }

  /** Rewriting one farmer's record rewrites that farmer's ledger entry. */
  lemma ReceivedUpdate(m: map<Address, Farmer>, f: Address, v: Farmer)
    ensures Received(m[f := v]) == Received(m)[f := v.totalReceivedPayouts]
  {
    var a, b := Received(m[f := v]), Received(m)[f := v.totalReceivedPayouts];
    assert a.Keys == b.Keys;
    forall g | g in a.Keys
      ensures a[g] == b[g]
    {
    }
  }

  /** What the farmers receive together is exactly the payout total: the
      payout moves value from the fund to the farmers and creates none. */
  lemma {:induction false} CreditedConserves(farmers: map<Address, Farmer>, paid: seq<Address>, crops: FarmerCrops,
                                             crop: Crop, diff: int)
    requires forall i :: 0 <= i < |paid| ==> paid[i] in farmers
    ensures MapSum(Received(Credited(farmers, paid, crops, crop, diff))) ==
            MapSum(Received(farmers)) + PayoutTotal(paid, crops, crop, diff)
  {
    if paid != [] {
      var init, f := paid[..|paid| - 1], paid[|paid| - 1];
      CreditedConserves(farmers, init, crops, crop, diff);
      var m := Credited(farmers, init, crops, crop, diff);
      assert f in m;
      var amount := diff * CapacityOf(crops, f, crop);
      var v := m[f].(totalReceivedPayouts := m[f].totalReceivedPayouts + amount);
      assert Credited(farmers, paid, crops, crop, diff) == m[f := v];
      ReceivedUpdate(m, f, v);
      assert Received(m)[f] == m[f].totalReceivedPayouts;
      MapSumUpdate(Received(m), f, v.totalReceivedPayouts);
    }
  }

  /** A farmer that is not paid keeps their record. */
  lemma {:induction false} CreditedOthersUnchanged(farmers: map<Address, Farmer>, paid: seq<Address>,
                                                   crops: FarmerCrops, crop: Crop, diff: int, g: Address)
    requires g in farmers && g !in paid
    ensures Credited(farmers, paid, crops, crop, diff)[g] == farmers[g]
  {
    if paid != [] {
      CreditedOthersUnchanged(farmers, paid[..|paid| - 1], crops, crop, diff, g);
    }
  }

  /** A farmer listed twice is paid twice: the list is not deduplicated. */
  lemma ListedTwicePaidTwice(farmers: map<Address, Farmer>, crops: FarmerCrops, crop: Crop, diff: int, f: Address)
    requires Eligible(f, farmers, crops, crop)
    ensures EligibleFarmers([f, f], farmers, crops, crop) == [f, f]
    ensures Credited(farmers, [f, f], crops, crop, diff)[f].totalReceivedPayouts ==
            farmers[f].totalReceivedPayouts + 2 * (diff * crops[(f, crop)])
  {
    assert [f, f][..1] == [f];
    assert [f][..0] == [];
    assert EligibleFarmers([f], farmers, crops, crop) == [f];
    assert Credited(farmers, [], crops, crop, diff) == farmers;
    assert CapacityOf(crops, f, crop) == crops[(f, crop)];
    var m := Credited(farmers, [f], crops, crop, diff);
    assert m == farmers[f := farmers[f].(totalReceivedPayouts := farmers[f].totalReceivedPayouts + diff * crops[(f, crop)])];
  }

  /** The payout records written for the paid farmers, keyed by fund,
      farmer and time. */
  function Recorded(payouts: map<(FundId, Address, nat), Payout>, paid: seq<Address>, fund: Fund, price: int,
                    crops: FarmerCrops, diff: int, now: nat): map<(FundId, Address, nat), Payout>
  {
    if paid == [] then payouts
    else
      var f := paid[|paid| - 1];
      Recorded(payouts, paid[..|paid| - 1], fund, price, crops, diff, now)
        [(fund.fundId, f, now) := Payout(f, fund.fundId, diff * CapacityOf(crops, f, fund.crop), now, price,
                                         fund.priceThreshold)]
  }

  /** The payout checks before any farmer is looked at. */
  function PayoutCheck(fund: Option<Fund>, caller: Address, listed: nat, price: Option<PriceData>)
    : (e: Option<StabilizationError>)
    ensures e.None? <==> fund.Some? && caller == fund.value.admin && listed > 0 && price.Some? &&
                         price.value.price < fund.value.priceThreshold
    ensures (fund.Some? && caller == fund.value.admin && listed > 0 && price.Some? &&
             price.value.price >= fund.value.priceThreshold) ==> e == Some(ThresholdNotReached)
  {
    if fund.None? then Some(FundNotFound)
    else if caller != fund.value.admin then Some(Unauthorized)
    else if listed == 0 then Some(InvalidInput)
    else if price.None? then Some(PriceDataNotAvailable)
    else if price.value.price >= fund.value.priceThreshold then Some(ThresholdNotReached)
    else None
  }

  class StabilizationContract {
    /** The contract admin, set at initialisation. */
    const admin: Option<Address>
    var now: nat
    var funds: map<FundId, Fund>
    var contributors: map<(FundId, Address), Contributor>
    var oracles: map<Crop, Address>
    var prices: map<Crop, PriceData>
    var feeds: map<Crop, ChainlinkFeed>
    var chainlinkPrices: map<Crop, ChainlinkPrice>
    var farmers: map<Address, Farmer>
    var crops: FarmerCrops
    var payouts: map<(FundId, Address, nat), Payout>

    /** Funds are stored under their ids with a positive threshold and a
        balance that never goes negative; stored prices are positive;
        registered capacities are positive. */
    ghost predicate Valid()
      reads this`funds, this`prices, this`crops
    {
      (forall id :: id in funds ==> FundValid(funds[id], id)) &&
      (forall c :: c in prices ==> prices[c].price > 0) &&
      CapacitiesPositive(crops)
    }

    static predicate FundValid(f: Fund, id: FundId)
    {
      f.fundId == id && f.priceThreshold > 0 && f.totalBalance >= 0
    }

    constructor (adminAddress: Option<Address>, time: nat)
      ensures admin == adminAddress && now == time
      ensures funds == map[] && contributors == map[] && oracles == map[] && prices == map[]
      ensures feeds == map[] && chainlinkPrices == map[] && farmers == map[] && crops == map[] && payouts == map[]
      ensures Valid()
    {
      admin := adminAddress;
      now := time;
      funds := map[];
      contributors := map[];
      oracles := map[];
      prices := map[];
      feeds := map[];
      chainlinkPrices := map[];
      farmers := map[];
      crops := map[];
      payouts := map[];
    }

    method Tick(time: nat)
      requires now <= time
      modifies this`now
      ensures now == time
    {
      now := time;
    }

    /** The contract-admin check: a missing admin is a panic. */
    function AdminCheck(caller: Address): (e: Option<StabilizationError>)
      ensures e.None? <==> admin == Some(caller)
      ensures admin.None? ==> e == Some(Panic)
    {
      if admin.None? then Some(Panic) else if caller != admin.value then Some(Unauthorized) else None
    }

    function FundOf(id: FundId): Option<Fund>
      reads this`funds
    {
      if id in funds then Some(funds[id]) else None
    }

    function PriceOf(crop: Crop): Option<PriceData>
      reads this`prices
    {
      if crop in prices then Some(prices[crop]) else None
    }

    // -------------------------------------------------------------------
    // Funds
    // -------------------------------------------------------------------

    /** `create_fund`: the admin opens an active, empty fund for a crop
        with a positive threshold, under the id derived from the ledger. */
    method CreateFund(caller: Address, name: string, threshold: int, crop: Crop, id: FundId)
      returns (r: Result<FundId, StabilizationError>)
      requires Valid()
      modifies this`funds
      ensures Valid()
      ensures r.Err? ==> unchanged(this)
      ensures r.Ok? <==> admin == Some(caller) && threshold > 0 && |name| > 0 && |crop| > 0 && id !in old(funds)
      ensures admin == Some(caller) && threshold > 0 && |name| > 0 && |crop| > 0 && id in old(funds) ==>
                r == Err(FundAlreadyExists)
      ensures r.Ok? ==> r.value == id &&
                        funds == old(funds)[id := Fund(id, name, caller, 0, threshold, crop, true, now, None)]
    {
      var e := AdminCheck(caller);
      if e.Some? {
        return Err(e.value);
      }
      if threshold <= 0 || |name| == 0 || |crop| == 0 {
        return Err(InvalidInput);
      }
      if id in funds {
        return Err(FundAlreadyExists);
      }
      funds := funds[id := Fund(id, name, caller, 0, threshold, crop, true, now, None)];
      r := Ok(id);
    }

    /** `contribute_fund`: a positive amount to an active fund raises both
        the fund's balance and the contributor's total. */
    method ContributeFund(contributor: Address, id: FundId, amount: int) returns (r: Result<(), StabilizationError>)
      requires Valid()
      modifies this`funds, this`contributors
      ensures Valid()
      ensures r.Err? ==> unchanged(this)
      ensures amount <= 0 ==> r == Err(InvalidInput)
      ensures r.Ok? <==> amount > 0 && id in old(funds) && old(funds)[id].active
      ensures r.Ok? ==>
        funds == old(funds)[id := old(funds)[id].(totalBalance := old(funds)[id].totalBalance + amount)] &&
        var key := (id, contributor);
        contributors == old(contributors)[key :=
          if key in old(contributors)
          then old(contributors)[key].(totalContribution := old(contributors)[key].totalContribution + amount,
                                       lastContributionTime := now)
          else Contributor(contributor, amount, now)]
    {
      if amount <= 0 {
        return Err(InvalidInput);
      }
      if id !in funds || !funds[id].active {
        return Err(FundNotFound);
      }
      funds := funds[id := funds[id].(totalBalance := funds[id].totalBalance + amount)];
      var key := (id, contributor);
      var record := if key in contributors
                    then contributors[key].(totalContribution := contributors[key].totalContribution + amount,
                                            lastContributionTime := now)
                    else Contributor(contributor, amount, now);
      contributors := contributors[key := record];
      r := Ok(());
    }

    /** `get_fund_status`: the fund's balance, threshold and times. */
    method FundStatusOf(id: FundId) returns (r: Result<FundStatus, StabilizationError>)
      ensures id !in funds <==> r == Err(FundNotFound)
      ensures r.Ok? ==> r.value.totalBalance == funds[id].totalBalance &&
                        r.value.priceThreshold == funds[id].priceThreshold &&
                        r.value.creationTime == funds[id].creationTime &&
                        r.value.lastPayoutTime == funds[id].lastPayoutTime
    {
      if id !in funds {
        return Err(FundNotFound);
      }
      var f := funds[id];
      r := Ok(FundStatus(f.totalBalance, f.priceThreshold, f.creationTime, f.lastPayoutTime));
    }

    /** `update_price_threshold`: the fund's own admin sets a positive
        threshold. */
    method UpdatePriceThreshold(caller: Address, id: FundId, threshold: int) returns (r: Result<(), StabilizationError>)
      requires Valid()
      modifies this`funds
      ensures Valid()
      ensures r.Err? ==> unchanged(this)
      ensures r.Ok? <==> threshold > 0 && id in old(funds) && old(funds)[id].admin == caller
      ensures threshold > 0 && id in old(funds) && old(funds)[id].admin != caller ==> r == Err(Unauthorized)
      ensures r.Ok? ==> funds == old(funds)[id := old(funds)[id].(priceThreshold := threshold)]
    {
      if threshold <= 0 {
        return Err(InvalidInput);
      }
      if id !in funds {
        return Err(FundNotFound);
      }
      if caller != funds[id].admin {
        return Err(Unauthorized);
      }
      funds := funds[id := funds[id].(priceThreshold := threshold)];
      r := Ok(());
    }

    // -------------------------------------------------------------------
    // Prices
    // -------------------------------------------------------------------

    /** `register_price_oracle`: the admin names a crop's oracle. */
    method RegisterPriceOracle(caller: Address, oracle: Address, crop: Crop) returns (r: Result<(), StabilizationError>)
      modifies this`oracles
      ensures r.Err? ==> unchanged(this)
      ensures r.Ok? <==> admin == Some(caller) && |crop| > 0
      ensures r.Ok? ==> oracles == old(oracles)[crop := oracle]
    {
      var e := AdminCheck(caller);
      if e.Some? {
        return Err(e.value);
      }
      if |crop| == 0 {
        return Err(InvalidInput);
      }
      oracles := oracles[crop := oracle];
      r := Ok(());
    }

    /** `update_market_price`: the crop's registered oracle stores a
        positive, recent price. */
    method UpdateMarketPrice(oracle: Address, crop: Crop, price: int, ts: nat) returns (r: Result<(), StabilizationError>)
      requires Valid()
      modifies this`prices
      ensures Valid()
      ensures r.Err? ==> unchanged(this)
      ensures price <= 0 || |crop| == 0 || !RecentTimestamp(ts, now) ==> r == Err(InvalidInput)
      ensures price > 0 && |crop| > 0 && RecentTimestamp(ts, now) && crop !in oracles ==> r == Err(OracleNotRegistered)
      ensures r.Ok? <==> price > 0 && |crop| > 0 && RecentTimestamp(ts, now) && crop in oracles && oracles[crop] == oracle
      ensures r.Ok? ==> prices == old(prices)[crop := PriceData(price, ts, oracle)]
    {
      if price <= 0 || |crop| == 0 {
        return Err(InvalidInput);
      }
      if !RecentTimestamp(ts, now) {
        return Err(InvalidInput);
      }
      if crop !in oracles {
        return Err(OracleNotRegistered);
      }
      if oracle != oracles[crop] {
        return Err(Unauthorized);
      }
      prices := prices[crop := PriceData(price, ts, oracle)];
      r := Ok(());
    }

    /** `check_price_threshold`: whether the fund's crop trades below the
        fund's threshold. */
    method CheckPriceThreshold(id: FundId) returns (r: Result<bool, StabilizationError>)
      ensures id !in funds ==> r == Err(FundNotFound)
      ensures id in funds && funds[id].crop !in prices ==> r == Err(PriceDataNotAvailable)
      ensures r.Ok? <==> id in funds && funds[id].crop in prices
      ensures r.Ok? ==> (r.value <==> prices[funds[id].crop].price < funds[id].priceThreshold)
    {
      if id !in funds {
        return Err(FundNotFound);
      }
      var fund := funds[id];
      if fund.crop !in prices {
        return Err(PriceDataNotAvailable);
      }
      r := Ok(BelowThreshold(prices[fund.crop].price, fund.priceThreshold));
    }

    /** `register_chainlink_feed`: the admin registers one active feed per
        crop; a second registration for the crop is refused. */
    method RegisterChainlinkFeed(caller: Address, crop: Crop, feedAddress: Address, decimals: nat, description: string)
      returns (r: Result<(), StabilizationError>)
      modifies this`feeds
      ensures r.Err? ==> unchanged(this)
      ensures admin == Some(caller) && |crop| > 0 && |description| > 0 && crop in old(feeds) ==>
                r == Err(FundAlreadyExists)
      ensures r.Ok? <==> admin == Some(caller) && |crop| > 0 && |description| > 0 && crop !in old(feeds)
      ensures r.Ok? ==> feeds == old(feeds)[crop := ChainlinkFeed(feedAddress, decimals, description, crop, now, true)]
    {
      var e := AdminCheck(caller);
      if e.Some? {
        return Err(e.value);
      }
      if |crop| == 0 || |description| == 0 {
        return Err(InvalidInput);
      }
      if crop in feeds {
        return Err(FundAlreadyExists);
      }
      feeds := feeds[crop := ChainlinkFeed(feedAddress, decimals, description, crop, now, true)];
      r := Ok(());
    }

    /** `update_chainlink_price`: the feed's own address stores a validated
        answer (one hour staleness). */
    method UpdateChainlinkPrice(oracle: Address, crop: Crop, price: int, ts: nat, roundId: nat, decimals: nat)
      returns (r: Result<(), StabilizationError>)
      modifies this`chainlinkPrices
      ensures r.Err? ==> unchanged(this)
      ensures r.Ok? <==> price > 0 && |crop| > 0 && crop in feeds && feeds[crop].feedAddress == oracle &&
                         ChainlinkCheck(price, ts, roundId, CHAINLINK_STALENESS, now).None?
      ensures price > 0 && |crop| > 0 && crop !in feeds ==> r == Err(ChainlinkFeedNotFound)
      ensures r.Ok? ==> chainlinkPrices == old(chainlinkPrices)[crop := ChainlinkPrice(price, ts, oracle, roundId, decimals)]
    {
      if price <= 0 || |crop| == 0 {
        return Err(InvalidInput);
      }
      if crop !in feeds {
        return Err(ChainlinkFeedNotFound);
      }
      if oracle != feeds[crop].feedAddress {
        return Err(Unauthorized);
      }
      var e := ChainlinkCheck(price, ts, roundId, CHAINLINK_STALENESS, now);
      if e.Some? {
        return Err(e.value);
      }
      chainlinkPrices := chainlinkPrices[crop := ChainlinkPrice(price, ts, oracle, roundId, decimals)];
      r := Ok(());
    }

    /** `get_chainlink_price`: the stored answer of an active feed, rescaled
        to eight decimals. */
    method ChainlinkPriceOf(crop: Crop) returns (r: Result<(int, nat), StabilizationError>)
      ensures |crop| == 0 ==> r == Err(InvalidInput)
      ensures |crop| > 0 && crop !in feeds ==> r == Err(ChainlinkFeedNotFound)
      ensures |crop| > 0 && crop in feeds && !feeds[crop].active ==> r == Err(ChainlinkFeedNotRegistered)
      ensures r.Ok? <==> |crop| > 0 && crop in feeds && feeds[crop].active && crop in chainlinkPrices &&
                         chainlinkPrices[crop].decimals <= CHAINLINK_DECIMALS
      ensures r.Ok? ==>
        var p := chainlinkPrices[crop];
        r.value == (ConvertChainlinkPrice(p.price, p.decimals).value, p.timestamp)
    {
      if |crop| == 0 {
        return Err(InvalidInput);
      }
      if crop !in feeds {
        return Err(ChainlinkFeedNotFound);
      }
      if !feeds[crop].active {
        return Err(ChainlinkFeedNotRegistered);
      }
      if crop !in chainlinkPrices {
        return Err(PriceDataNotAvailable);
      }
      var p := chainlinkPrices[crop];
      var converted := ConvertChainlinkPrice(p.price, p.decimals);
      if converted.Err? {
        return Err(converted.error);
      }
      r := Ok((converted.value, p.timestamp));
    }

    // -------------------------------------------------------------------
    // Distribution
    // -------------------------------------------------------------------

    /** `register_farmer`: the admin registers a new, active farmer with
        nothing received. */
    method RegisterFarmer(caller: Address, farmer: Address) returns (r: Result<(), StabilizationError>)
      modifies this`farmers
      ensures r.Err? ==> unchanged(this)
      ensures admin != Some(caller) ==> r == Err(Unauthorized)
      ensures r.Ok? <==> admin == Some(caller) && farmer !in old(farmers)
      ensures r.Ok? ==> farmers == old(farmers)[farmer := Farmer(farmer, now, 0, true)]
    {
      if admin.None? || caller != admin.value {
        return Err(Unauthorized);
      }
      if farmer in farmers {
        return Err(FarmerAlreadyRegistered);
      }
      farmers := farmers[farmer := Farmer(farmer, now, 0, true)];
      r := Ok(());
    }

    /** `register_farmer_crop`: a registered farmer's positive capacity for
        a crop, once per crop. */
    method RegisterFarmerCrop(farmer: Address, crop: Crop, capacity: int) returns (r: Result<(), StabilizationError>)
      requires Valid()
      modifies this`crops
      ensures Valid()
      ensures r.Err? ==> unchanged(this)
      ensures r.Ok? <==> |crop| > 0 && capacity > 0 && farmer in farmers && (farmer, crop) !in old(crops)
      ensures |crop| > 0 && capacity > 0 && farmer in farmers && (farmer, crop) in old(crops) ==>
                r == Err(CropAlreadyRegistered)
      ensures r.Ok? ==> crops == old(crops)[(farmer, crop) := capacity]
    {
      if |crop| == 0 || capacity <= 0 {
        return Err(InvalidInput);
      }
      if farmer !in farmers {
        return Err(FarmerNotRegistered);
      }
      if (farmer, crop) in crops {
        return Err(CropAlreadyRegistered);
      }
      crops := crops[(farmer, crop) := capacity];
      r := Ok(());
    }

    /** `check_fund_sufficiency`: whether the fund's balance covers the
        shortfall for the summed capacity of the listed farmers. */
    method CheckFundSufficiency(id: FundId, list: seq<Address>) returns (r: Result<bool, StabilizationError>)
      ensures id !in funds ==> r == Err(FundNotFound)
      ensures r.Ok? <==> id in funds && funds[id].crop in prices
      ensures r.Ok? ==>
        var fund := funds[id];
        var diff := PriceDifference(fund.priceThreshold, prices[fund.crop].price);
        (r.value <==> diff == 0 || fund.totalBalance >= diff * CapacitySum(list, crops, fund.crop))
    {
      if id !in funds {
        return Err(FundNotFound);
      }
      var fund := funds[id];
      if fund.crop !in prices {
        return Err(PriceDataNotAvailable);
      }
      var diff := PriceDifference(fund.priceThreshold, prices[fund.crop].price);
      if diff <= 0 {
        return Ok(true);
      }
      var total := 0;
      var i := 0;
      while i < |list|
        invariant 0 <= i <= |list|
        invariant total == CapacitySum(list[..i], crops, fund.crop)
      {
        assert list[..i + 1][..i] == list[..i];
        if (list[i], fund.crop) in crops {
          total := total + crops[(list[i], fund.crop)];
        }
        i := i + 1;
      }
      assert list[..|list|] == list;
      r := Ok(fund.totalBalance >= diff * total);
    }

    /** The eligible farmers of a list, computed as `trigger_payout`'s
        first pass does. */
    method CollectEligible(list: seq<Address>, crop: Crop) returns (paid: seq<Address>)
      ensures paid == EligibleFarmers(list, farmers, crops, crop)
    {
      paid := [];
      var i := 0;
      while i < |list|
        invariant 0 <= i <= |list|
        invariant paid == EligibleFarmers(list[..i], farmers, crops, crop)
      {
        assert list[..i + 1][..i] == list[..i];
        var f := list[i];
        if f in farmers && farmers[f].active && (f, crop) in crops {
          paid := paid + [f];
        }
        i := i + 1;
      }
      assert list[..|list|] == list;
    }

    /** The total `trigger_payout` needs for the paid farmers. */
    method SumPayouts(paid: seq<Address>, crop: Crop, diff: int) returns (total: int)
      ensures total == PayoutTotal(paid, crops, crop, diff)
    {
      total := 0;
      var i := 0;
      while i < |paid|
        invariant 0 <= i <= |paid|
        invariant total == PayoutTotal(paid[..i], crops, crop, diff)
      {
        assert paid[..i + 1][..i] == paid[..i];
        total := total + diff * CapacityOf(crops, paid[i], crop);
        i := i + 1;
      }
      assert paid[..|paid|] == paid;
    }

    /** The payout pass of `trigger_payout`: each paid farmer's payout is
        recorded and added to the farmer's total. */
    method PayFarmers(paid: seq<Address>, fund: Fund, price: int, diff: int)
      modifies this`farmers, this`payouts
      ensures farmers == Credited(old(farmers), paid, crops, fund.crop, diff)
      ensures payouts == Recorded(old(payouts), paid, fund, price, crops, diff, now)
    {
      var i := 0;
      while i < |paid|
        invariant 0 <= i <= |paid|
        invariant farmers == Credited(old(farmers), paid[..i], crops, fund.crop, diff)
        invariant payouts == Recorded(old(payouts), paid[..i], fund, price, crops, diff, now)
      {
        assert paid[..i + 1][..i] == paid[..i];
        var f := paid[i];
        var amount := diff * CapacityOf(crops, f, fund.crop);
        payouts := payouts[(fund.fundId, f, now) := Payout(f, fund.fundId, amount, now, price, fund.priceThreshold)];
        if f in farmers {
          farmers := farmers[f := farmers[f].(totalReceivedPayouts := farmers[f].totalReceivedPayouts + amount)];
        }
        i := i + 1;
      }
      assert paid[..|paid|] == paid;
    }

    /** `trigger_payout`: the fund's admin pays the eligible listed farmers
        the shortfall times their capacity, provided the fund covers the
        total; the balance drops by the total and every payout is recorded
        and credited. */
    method TriggerPayout(caller: Address, id: FundId, list: seq<Address>) returns (r: Result<(), StabilizationError>)
      requires Valid()
      modifies this`funds, this`farmers, this`payouts
      ensures Valid()
      ensures r.Err? ==> unchanged(this)
      ensures var fund := old(FundOf(id));
        var e := PayoutCheck(fund, caller, |list|, if fund.Some? then old(PriceOf(fund.value.crop)) else None);
        if e.Some? then r == Err(e.value)
        else
          var f := fund.value;
          var price := old(prices)[f.crop].price;
          var diff := PriceDifference(f.priceThreshold, price);
          var paid := EligibleFarmers(list, old(farmers), crops, f.crop);
          var total := PayoutTotal(paid, crops, f.crop, diff);
          if paid == [] then r == Err(FarmerNotRegistered)
          else if f.totalBalance < total then r == Err(InsufficientFunds)
          else
            r.Ok? &&
            funds == old(funds)[id := f.(totalBalance := f.totalBalance - total, lastPayoutTime := Some(now))] &&
            farmers == Credited(old(farmers), paid, crops, f.crop, diff) &&
            payouts == Recorded(old(payouts), paid, f, price, crops, diff, now)
    {
      var e := PayoutCheck(FundOf(id), caller, |list|, if id in funds then PriceOf(funds[id].crop) else None);
      if e.Some? {
        return Err(e.value);
      }
      var fund := funds[id];
      var price := prices[fund.crop].price;
      var diff := PriceDifference(fund.priceThreshold, price);
      var paid := CollectEligible(list, fund.crop);
      if paid == [] {
        return Err(FarmerNotRegistered);
      }
      var total := SumPayouts(paid, fund.crop, diff);
      if fund.totalBalance < total {
        return Err(InsufficientFunds);
      }
      PayFarmers(paid, fund, price, diff);
      funds := funds[id := fund.(totalBalance := fund.totalBalance - total, lastPayoutTime := Some(now))];
      r := Ok(());
    }
  }
}
