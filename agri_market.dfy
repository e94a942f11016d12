/*
 * Agricultural auction contract, value level: the product and auction
 * records, the freshness and quality scales, and the price arithmetic of
 * product listing, time management and the price oracle. Prices are u64
 * amounts in the source; here they are naturals (overflow of the
 * percentage products is not modelled). Soroban symbols are strings.
 */
module AgriMarket {
  import opened Common

  datatype FreshnessRating = Premium | Excellent | Good | Fair | Poor | Expired

  datatype QualityGrade = Premium | GradeA | GradeB | GradeC | Substandard | Rejected

  datatype SeasonalStatus = InSeason | EarlySeason | LateSeason | OutOfSeason | YearRound

  datatype StorageCondition =
    Refrigerated | FreezerStorage | RoomTemperature | ControlledAtmosphere | Humidity

  datatype Product = Product(
    id: nat, farmer: Address, name: string, description: string,
    basePrice: nat, currentPrice: nat, weightKg: nat, quantity: nat,
    harvestDate: nat, expiryDate: nat, images: seq<string>,
    freshness: FreshnessRating, grade: QualityGrade, verified: bool,
    certifications: seq<string>, storageCondition: StorageCondition,
    productType: string, region: string, seasonalStatus: SeasonalStatus)

  datatype ProductDetails = ProductDetails(
    name: string, description: string, basePrice: nat, weightKg: nat, quantity: nat,
    harvestDate: nat, images: seq<string>, certifications: seq<string>,
    storageCondition: StorageCondition, productType: string, region: string)

  datatype Auction = Auction(
    productId: nat, highestBid: nat, highestBidder: Option<Address>, reservePrice: nat,
    endTime: nat, farmer: Address, quantityAvailable: nat, minQuantity: nat,
    bulkDiscountThreshold: nat, bulkDiscountPercentage: nat, dynamicPricing: bool)

  datatype MarketPrice = MarketPrice(productType: string, region: string, price: nat,
                                     timestamp: nat, trend: int, volume: nat)

  /** AuctionError, plus Panic for a u64 underflow that aborts the call. */
  datatype AuctionError =
    | BidTooLow | AuctionEnded | AuctionAlreadyExists | InvalidBidder | AuctionNotFound
    | TooLateToExtend | InvalidAuctionEndTime | AuctionNotYetEnded | NoBidsPlaced
    | ProductNotFound | OutOfStock | ProductExpired | BulkPurchaseUnavailable
    | QuantityUnavailable | Panic

  datatype ProductError =
    | InvalidDescription | InvalidPrice | InvalidWeight | OutOfStock | InvalidImageCount
    | ProductNotFound | Unauthorized | InvalidHarvestDate | FreshnessNotVerified
    | OutOfSeason | InvalidCertification | SeasonalDataNotAvailable

  datatype OracleError = PriceDataNotAvailable | RegionNotSupported | InvalidPriceData

  datatype TimeError = ProductExpired | HarvestDateInFuture | InvalidTimeframe

  /** `x * k / 100` on u64: k percent of x, rounded down. */
  function Pct(x: nat, k: nat): nat
  {
    x * k / 100
  }

  lemma PctMonotone(x: nat, k1: nat, k2: nat)
    requires k1 <= k2
    ensures Pct(x, k1) <= Pct(x, k2)
  {
    MulMonotone(k1, k2, x);
    DivMonotone(x * k1, x * k2, 100);
  }

  lemma PctAtMost(x: nat, k: nat)
    requires k <= 100
    ensures Pct(x, k) <= x
  {
    MulMonotone(k, 100, x);
    DivMonotone(x * k, x * 100, 100);
  }

  // ---------------------------------------------------------------------
  // Product listing

  /** Freshness from best to worst. */
  function FreshnessRank(f: FreshnessRating): nat
  {
    match f
    case Premium => 0
    case Excellent => 1
    case Good => 2
    case Fair => 3
    case Poor => 4
    case Expired => 5
  }

  /** Whole days since harvest (a harvest in the future counts as age 0). */
  function AgeDays(harvestDate: nat, now: nat): nat
  {
    SatSub(now, harvestDate) / SECONDS_PER_DAY
  }

  /** calculate_freshness: buckets of age in days, 0-2 Premium, 3-5
      Excellent, 6-10 Good, 11-15 Fair, 16-30 Poor, older Expired. */
  function CalculateFreshness(harvestDate: nat, now: nat): (f: FreshnessRating)
    ensures f == FreshnessRating.Premium <==> AgeDays(harvestDate, now) <= 2
    ensures f == Expired <==> AgeDays(harvestDate, now) > 30
  {
    var age := AgeDays(harvestDate, now);
    if age <= 2 then FreshnessRating.Premium
    else if age <= 5 then Excellent
    else if age <= 10 then Good
    else if age <= 15 then Fair
    else if age <= 30 then Poor
    else Expired
  }

  /** Produce only ever gets older: freshness never improves as time passes. */
  lemma FreshnessNeverImproves(harvestDate: nat, t1: nat, t2: nat)
    requires t1 <= t2
    ensures FreshnessRank(CalculateFreshness(harvestDate, t1)) <= FreshnessRank(CalculateFreshness(harvestDate, t2))
  {
    assert SatSub(t1, harvestDate) <= SatSub(t2, harvestDate);
    assert AgeDays(harvestDate, t1) <= AgeDays(harvestDate, t2);
  }

  /** adjust_price_by_freshness: +20%, +10%, 0, -10%, -25%, -50% of base. */
  function AdjustPriceByFreshness(basePrice: nat, f: FreshnessRating): (p: nat)
    ensures f == Good ==> p == basePrice
    ensures 2 * p >= basePrice && 100 * p <= 120 * basePrice
  {
    PctAtMost(basePrice, 10);
    PctAtMost(basePrice, 25);
    PctAtMost(basePrice, 50);
    match f
    case Premium => basePrice + Pct(basePrice, 20)
    case Excellent => basePrice + Pct(basePrice, 10)
    case Good => basePrice
    case Fair => basePrice - Pct(basePrice, 10)
    case Poor => basePrice - Pct(basePrice, 25)
    case Expired => basePrice - Pct(basePrice, 50)
  }

  /** A fresher rating never gets a lower price. */
  lemma FresherIsDearer(basePrice: nat, a: FreshnessRating, b: FreshnessRating)
    requires FreshnessRank(a) <= FreshnessRank(b)
    ensures AdjustPriceByFreshness(basePrice, b) <= AdjustPriceByFreshness(basePrice, a)
  {
    PctMonotone(basePrice, 10, 20);
    PctMonotone(basePrice, 10, 25);
    PctMonotone(basePrice, 25, 50);
  }

  /** The listed price of a product derived from its age decays over time. */
  lemma FreshnessPriceDecays(basePrice: nat, harvestDate: nat, t1: nat, t2: nat)
    requires t1 <= t2
    ensures AdjustPriceByFreshness(basePrice, CalculateFreshness(harvestDate, t2))
         <= AdjustPriceByFreshness(basePrice, CalculateFreshness(harvestDate, t1))
  {
    FreshnessNeverImproves(harvestDate, t1, t2);
    FresherIsDearer(basePrice, CalculateFreshness(harvestDate, t1), CalculateFreshness(harvestDate, t2));
  }

  /** Quality from best to worst. */
  function QualityRank(g: QualityGrade): nat
  {
    match g
    case Premium => 0
    case GradeA => 1
    case GradeB => 2
    case GradeC => 3
    case Substandard => 4
    case Rejected => 5
  }

  /** adjust_price_by_quality: +30%, +15%, 0, -15%, -30%, -80% of the
      current price. */
  function AdjustPriceByQuality(price: nat, g: QualityGrade): (p: nat)
    ensures g == GradeB ==> p == price
    ensures 5 * p >= price && 100 * p <= 130 * price
  {
    PctAtMost(price, 15);
    PctAtMost(price, 30);
    PctAtMost(price, 80);
    match g
    case Premium => price + Pct(price, 30)
    case GradeA => price + Pct(price, 15)
    case GradeB => price
    case GradeC => price - Pct(price, 15)
    case Substandard => price - Pct(price, 30)
    case Rejected => price - Pct(price, 80)
  }

  /** A better grade never gets a lower price. */
  lemma BetterGradeIsDearer(price: nat, a: QualityGrade, b: QualityGrade)
    requires QualityRank(a) <= QualityRank(b)
    ensures AdjustPriceByQuality(price, b) <= AdjustPriceByQuality(price, a)
  {
    PctMonotone(price, 15, 30);
    PctMonotone(price, 30, 80);
  }

  /** The shelf life, in seconds, calculate_expiry_date assigns to a
      product type; unknown types get 14 days. */
  function ShelfLife(productType: string): (s: nat)
    ensures 5 * SECONDS_PER_DAY <= s <= 180 * SECONDS_PER_DAY
  {
    if productType == "Leafy_Greens" then 7 * SECONDS_PER_DAY
    else if productType == "Berries" then 5 * SECONDS_PER_DAY
    else if productType == "Root_Vegetables" then 30 * SECONDS_PER_DAY
    else if productType == "Citrus" then 21 * SECONDS_PER_DAY
    else if productType == "Grains" then 180 * SECONDS_PER_DAY
    else 14 * SECONDS_PER_DAY
  }

  /** calculate_expiry_date: harvest plus the type's shelf life; a harvest
      date in the future is an error. */
  function CalculateExpiryDate(harvestDate: nat, productType: string, now: nat): (r: Result<nat, TimeError>)
    ensures r.Err? <==> harvestDate > now
    ensures r.Err? ==> r.error == HarvestDateInFuture
    ensures r.Ok? ==> r.value - harvestDate == ShelfLife(productType)
  {
    if harvestDate > now then Err(HarvestDateInFuture) else Ok(harvestDate + ShelfLife(productType))
  }

  /** add_product's input checks, in order: description of 10 to 500
      bytes, non-zero price, 1 to 10 images, non-zero weight, harvest
      not in the future. */
  function ProductDetailsCheck(d: ProductDetails, now: nat): (e: Option<ProductError>)
    ensures e.None? <==> 10 <= ByteLength(d.description) <= 500 && d.basePrice > 0 && 1 <= |d.images| <= 10
                         && d.weightKg > 0 && d.harvestDate <= now
    ensures e == Some(InvalidDescription) <==> !(10 <= ByteLength(d.description) <= 500)
  {
    if ByteLength(d.description) < 10 || ByteLength(d.description) > 500 then Some(InvalidDescription)
    else if d.basePrice == 0 then Some(InvalidPrice)
    else if |d.images| == 0 || |d.images| > 10 then Some(InvalidImageCount)
    else if d.weightKg == 0 then Some(InvalidWeight)
    else if d.harvestDate > now then Some(ProductError.InvalidHarvestDate)
    else None
  }

  /** So a description of 300 accented characters, 600 bytes, is refused
      although it has fewer than 500 characters; and one of 5 such
      characters, 10 bytes, is long enough. */
  lemma AccentedDescriptionLengths(d: ProductDetails, now: nat)
    ensures |seq(300, _ => '\U{e9}')| <= 500 &&
      ProductDetailsCheck(d.(description := seq(300, _ => '\U{e9}')), now) == Some(InvalidDescription)
    ensures |seq(5, _ => '\U{e9}')| < 10 &&
      ProductDetailsCheck(d.(description := seq(5, _ => '\U{e9}')), now) != Some(InvalidDescription)
  {
    ByteLengthOfTwoByteText(300);
    ByteLengthOfTwoByteText(5);
  }

  /** The record add_product stores: current price equal to base price,
      grade GradeB until verified, freshness from the harvest date. */
  function NewProduct(id: nat, farmer: Address, d: ProductDetails, expiryDate: nat,
                      status: SeasonalStatus, now: nat): (p: Product)
    ensures p.currentPrice == p.basePrice == d.basePrice && p.grade == GradeB && !p.verified
    ensures p.id == id && p.farmer == farmer && p.expiryDate == expiryDate && p.seasonalStatus == status
    ensures p.freshness == CalculateFreshness(d.harvestDate, now)
  {
    Product(id, farmer, d.name, d.description, d.basePrice, d.basePrice, d.weightKg, d.quantity,
            d.harvestDate, expiryDate, d.images, CalculateFreshness(d.harvestDate, now), GradeB,
            false, d.certifications, d.storageCondition, d.productType, d.region, status)
  }

  // ---------------------------------------------------------------------
  // Time management

  /** The remaining shelf life as a whole percentage of the total; 0 when
      the total is 0. */
  function RemainingPercentage(harvestDate: nat, expiryDate: nat, now: nat): (pct: nat)
    ensures SatSub(expiryDate, harvestDate) == 0 ==> pct == 0
    ensures now >= harvestDate ==> pct <= 100
    ensures now >= expiryDate ==> pct == 0
  {
    var total := SatSub(expiryDate, harvestDate);
    var remaining := SatSub(expiryDate, now);
    if total == 0 then 0
    else
      PercentAtMost100(remaining, total);
      remaining * 100 / total
  }

  lemma RemainingPercentageNonIncreasing(harvestDate: nat, expiryDate: nat, t1: nat, t2: nat)
    requires t1 <= t2
    ensures RemainingPercentage(harvestDate, expiryDate, t2) <= RemainingPercentage(harvestDate, expiryDate, t1)
  {
    var total := SatSub(expiryDate, harvestDate);
    if total > 0 {
      var r1, r2 := SatSub(expiryDate, t1), SatSub(expiryDate, t2);
      assert r2 * 100 <= r1 * 100;
      DivMonotone(r2 * 100, r1 * 100, total);
    }
  }

  /** calculate_time_based_price: +10% with at least 80% of shelf life
      left, base from 60%, -10% from 40%, -25% from 20%, else -50%. */
  function TimeBasedPrice(basePrice: nat, pct: nat): (p: nat)
    ensures pct >= 60 && pct < 80 ==> p == basePrice
    ensures 2 * p >= basePrice && 100 * p <= 110 * basePrice
  {
    PctAtMost(basePrice, 10);
    PctAtMost(basePrice, 25);
    PctAtMost(basePrice, 50);
    if pct >= 80 then basePrice + Pct(basePrice, 10)
    else if pct >= 60 then basePrice
    else if pct >= 40 then basePrice - Pct(basePrice, 10)
    else if pct >= 20 then basePrice - Pct(basePrice, 25)
    else basePrice - Pct(basePrice, 50)
  }

  /** More shelf life left never lowers the time-based price ... */
  lemma TimeBasedPriceMonotone(basePrice: nat, pct1: nat, pct2: nat)
    requires pct1 <= pct2
    ensures TimeBasedPrice(basePrice, pct1) <= TimeBasedPrice(basePrice, pct2)
  {
    PctMonotone(basePrice, 10, 25);
    PctMonotone(basePrice, 25, 50);
  }

  /** ... so for a fixed product the price only falls as time passes. */
  lemma TimeBasedPriceDecays(basePrice: nat, harvestDate: nat, expiryDate: nat, t1: nat, t2: nat)
    requires t1 <= t2
    ensures TimeBasedPrice(basePrice, RemainingPercentage(harvestDate, expiryDate, t2))
         <= TimeBasedPrice(basePrice, RemainingPercentage(harvestDate, expiryDate, t1))
  {
    RemainingPercentageNonIncreasing(harvestDate, expiryDate, t1, t2);
    TimeBasedPriceMonotone(basePrice, RemainingPercentage(harvestDate, expiryDate, t2),
                           RemainingPercentage(harvestDate, expiryDate, t1));
  }

  // ---------------------------------------------------------------------
  // Price oracle

  /** compare_with_market as written: the difference in percent computed in
      i64, cast to i32 (wrapping), then divided by the market price cast to
      i32. None is a panic: division by a cast that wrapped to 0, or the
      overflowing i32::MIN / -1. */
  function CompareWithMarketAsWritten(currentPrice: nat, marketPrice: nat): Option<int>
  {
    if marketPrice == 0 then Some(0)
    else
      var numerator := WrapI32((currentPrice - marketPrice) * 100);
      var divisor := WrapI32(marketPrice);
      if divisor == 0 || (numerator == -0x8000_0000 && divisor == -1) then None
      else Some(Quot(numerator, divisor))
  }

  /** A product priced at 30,000,000 against a market price of 1 is
      reported as far cheaper than the market: the i32 cast wraps the
      positive difference of 2,999,999,900 percent to a negative number. */
  lemma CompareWithMarketWrapsSign()
    ensures CompareWithMarketAsWritten(30_000_000, 1) == Some(-1_294_967_396)
  {
    assert WrapI32(2_999_999_900) == -1_294_967_396;
    assert WrapI32(1) == 1;
  }

  /** A market price of 2^32 wraps to 0 in the i32 cast and the division
      panics. */
  lemma CompareWithMarketDividesByZero()
    ensures CompareWithMarketAsWritten(100, 0x1_0000_0000) == None
  {
    assert WrapI32(0x1_0000_0000) == 0;
  }

  /** The comparison evidently intended: the difference in percent of the
      market price, truncated toward zero, without narrowing casts. */
  function CompareWithMarket(currentPrice: nat, marketPrice: nat): (d: int)
    ensures marketPrice == 0 ==> d == 0
    ensures marketPrice > 0 ==> (d > 0 ==> currentPrice > marketPrice) && (d < 0 ==> currentPrice < marketPrice)
    ensures marketPrice > 0 ==> Abs(d) == Abs(currentPrice - marketPrice) * 100 / marketPrice
  {
    if marketPrice == 0 then 0
    else
      Quot((currentPrice - marketPrice) * 100, marketPrice)
  }

  /** Within the i32 range the corrected comparison agrees with the code. */
  lemma CompareAgreesWhenSmall(currentPrice: nat, marketPrice: nat)
    requires 0 < marketPrice < 0x8000_0000
    requires -0x8000_0000 < (currentPrice - marketPrice) * 100 < 0x8000_0000
    ensures CompareWithMarketAsWritten(currentPrice, marketPrice) == Some(CompareWithMarket(currentPrice, marketPrice))
  {
  }

  /** The suggest_price quality step, keyed by grade symbol; an unknown
      symbol leaves the price unchanged. */
  function QualityAdjusted(price: nat, grade: string): (p: nat)
    ensures grade == "Grade_B" ==> p == price
    ensures 5 * p >= price && 100 * p <= 130 * price
  {
    if grade == "Premium" then AdjustPriceByQuality(price, QualityGrade.Premium)
    else if grade == "Grade_A" then AdjustPriceByQuality(price, GradeA)
    else if grade == "Grade_B" then AdjustPriceByQuality(price, GradeB)
    else if grade == "Grade_C" then AdjustPriceByQuality(price, GradeC)
    else if grade == "Substandard" then AdjustPriceByQuality(price, Substandard)
    else if grade == "Rejected" then AdjustPriceByQuality(price, Rejected)
    else price
  }

  /** The suggest_price freshness step, keyed by rating symbol. */
  function FreshnessAdjusted(price: nat, rating: string): (p: nat)
    ensures rating == "Good" ==> p == price
    ensures 2 * p >= price && 100 * p <= 120 * price
  {
    if rating == "Premium" then AdjustPriceByFreshness(price, FreshnessRating.Premium)
    else if rating == "Excellent" then AdjustPriceByFreshness(price, Excellent)
    else if rating == "Good" then AdjustPriceByFreshness(price, Good)
    else if rating == "Fair" then AdjustPriceByFreshness(price, Fair)
    else if rating == "Poor" then AdjustPriceByFreshness(price, Poor)
    else if rating == "Expired" then AdjustPriceByFreshness(price, FreshnessRating.Expired)
    else price
  }

  /** The seasonal step: -5% in season, +10% early, -10% late, +30% out of
      season, unchanged all year round. */
  function SeasonAdjusted(price: nat, status: SeasonalStatus): (p: nat)
    ensures status == YearRound ==> p == price
    ensures 100 * p >= 90 * price && 100 * p <= 130 * price
  {
    PctAtMost(price, 5);
    PctAtMost(price, 10);
    match status
    case InSeason => price - Pct(price, 5)
    case EarlySeason => price + Pct(price, 10)
    case LateSeason => price - Pct(price, 10)
    case OutOfSeason => price + Pct(price, 30)
    case YearRound => price
  }

  /** The trend step in i64: price + price * trend / 100 (truncated toward
      zero), then clamped at 0. */
  function TrendAdjusted(price: nat, trend: int): (p: nat)
    ensures trend == 0 ==> p == price
    ensures trend >= 0 ==> p >= price
    ensures trend <= 0 ==> p <= price
    ensures trend <= -100 ==> p == 0
  {
    var adjusted := price + Quot(price * trend, 100);
    assert trend <= -100 ==> price * trend <= price * -100;
    assert trend >= -100 ==> price * trend >= price * -100;
    if adjusted < 0 then 0 else adjusted
  }

  /** suggest_price: the market price adjusted for quality, then freshness,
      then season, then trend, never below 0. */
  function SuggestPrice(market: MarketPrice, seasonal: SeasonalStatus, grade: string, rating: string): nat
  {
    TrendAdjusted(SeasonAdjusted(FreshnessAdjusted(QualityAdjusted(market.price, grade), rating), seasonal), market.trend)
  }

  /** With neutral inputs (Grade_B, Good, year round, no trend) the
      suggestion is the market price itself. */
  lemma SuggestPriceNeutral(market: MarketPrice)
    requires market.trend == 0
    ensures SuggestPrice(market, YearRound, "Grade_B", "Good") == market.price
  {
    var q := QualityAdjusted(market.price, "Grade_B");
    var f := FreshnessAdjusted(q, "Good");
    assert f == market.price;
  }

  /** Without a rising trend the suggestion never exceeds the market price
      times the largest quality, freshness and season factors. */
  lemma SuggestPriceCap(market: MarketPrice, seasonal: SeasonalStatus, grade: string, rating: string)
    ensures market.trend <= 0 ==>
      1_000_000 * SuggestPrice(market, seasonal, grade, rating) <= 130 * 120 * 130 * market.price
  {
    var q := QualityAdjusted(market.price, grade);
    var f := FreshnessAdjusted(q, rating);
    var s := SeasonAdjusted(f, seasonal);
    ChainedPercentages(s, f, q, market.price);
    if market.trend <= 0 {
      assert SuggestPrice(market, seasonal, grade, rating) <= s;
    }
  }

  lemma ChainedPercentages(s: int, f: int, q: int, p: int)
    requires 100 * s <= 130 * f && 100 * f <= 120 * q && 100 * q <= 130 * p
    ensures 1_000_000 * s <= 130 * 120 * 130 * p
  {
  }
}
