/*
 * Agricultural auction contract, storage level: products listed by
 * farmers, one auction per (farmer, product), market prices per (product
 * type, region), and the operations of auction_core, product_listing,
 * time_management and price_oracle over them. Caller authorisation,
 * events and the pseudo-random product id (a parameter here) are outside
 * the model. Every error return leaves storage unchanged.
 */
module AgriAuction {
  import opened Common
  import opened AgriMarket

  /** The stored shape of an auction: a minimum bid quantity of at least 1,
      a highest bid exactly when there is a highest bidder, and that bidder
      never the farmer. */
  predicate AuctionValid(a: Auction)
  {
    && a.minQuantity >= 1
    && (a.highestBidder.None? <==> a.highestBid == 0)
    && (a.highestBidder.Some? ==> a.highestBidder.value != a.farmer)
  }

  predicate AuctionEntryValid(k: (Address, nat), auctions: map<(Address, nat), Auction>)
  {
    k in auctions ==> AuctionValid(auctions[k]) && auctions[k].farmer == k.0 && auctions[k].productId == k.1
  }

  /** create_auction's checks, in order: no auction yet, product stored and
      unexpired, end time before expiry and after now, minimum quantity in
      1..=product quantity. */
  function CreateAuctionCheck(auctionExists: bool, product: Option<Product>, endTime: nat,
                              minQuantity: nat, now: nat): (e: Option<AuctionError>)
    ensures e.None? <==> !auctionExists && product.Some? && now < endTime < product.value.expiryDate
                         && 1 <= minQuantity <= product.value.quantity
    ensures auctionExists ==> e == Some(AuctionAlreadyExists)
    ensures !auctionExists && product.None? ==> e == Some(AuctionError.ProductNotFound)
    ensures !auctionExists && product.Some? && product.value.expiryDate <= now ==> e == Some(AuctionError.ProductExpired)
  {
    if auctionExists then Some(AuctionAlreadyExists)
    else if product.None? then Some(AuctionError.ProductNotFound)
    else if product.value.expiryDate <= now then Some(AuctionError.ProductExpired)
    else if endTime >= product.value.expiryDate then Some(InvalidAuctionEndTime)
    else if endTime <= now then Some(InvalidAuctionEndTime)
    else if minQuantity == 0 || minQuantity > product.value.quantity then Some(QuantityUnavailable)
    else None
  }

  /** The bid after the bulk discount: amount minus pct% of it when the
      quantity reaches the threshold and the percentage is positive. It is
      negative (a u64 underflow) only for a percentage above 100. */
  function EffectiveBid(a: Auction, amount: nat, quantity: nat): (b: int)
    ensures !(quantity >= a.bulkDiscountThreshold && a.bulkDiscountPercentage > 0) ==> b == amount
    ensures a.bulkDiscountPercentage <= 100 ==> 0 <= b <= amount
  {
    if quantity >= a.bulkDiscountThreshold && a.bulkDiscountPercentage > 0 then
      PctAtMost(amount, if a.bulkDiscountPercentage <= 100 then a.bulkDiscountPercentage else 100);
      PctMonotone(amount, 100, if a.bulkDiscountPercentage <= 100 then 100 else a.bulkDiscountPercentage);
      amount - Pct(amount, a.bulkDiscountPercentage)
    else amount
  }

  /** A percentage above 100 makes the discounted bid negative: creation
      accepts any u32 percentage, and a bulk bid then underflows. */
  lemma DiscountAbove100Underflows()
    ensures EffectiveBid(Auction(1, 0, None, 0, 10, 1, 10, 1, 1, 150, false), 100, 1) == -50
  {
  }

  /** place_bid's checks, in order. A zero quantity (only possible with a
      zero minimum) would divide by zero and panic. */
  function BidCheck(auction: Option<Auction>, product: Option<Product>, bidder: Address,
                    amount: nat, quantity: nat, now: nat): (e: Option<AuctionError>)
    ensures e.None? <==>
      && auction.Some? && product.Some? && bidder != auction.value.farmer
      && now <= auction.value.endTime && now < product.value.expiryDate
      && auction.value.minQuantity <= quantity <= auction.value.quantityAvailable && quantity > 0
      && EffectiveBid(auction.value, amount, quantity) > auction.value.highestBid
      && amount / quantity >= auction.value.reservePrice
    ensures auction.Some? && product.Some? && bidder == auction.value.farmer ==> e == Some(InvalidBidder)
  {
    if auction.None? then Some(AuctionNotFound)
    else if product.None? then Some(AuctionError.ProductNotFound)
    else if bidder == auction.value.farmer then Some(InvalidBidder)
    else if auction.value.endTime < now then Some(AuctionEnded)
    else if product.value.expiryDate <= now then Some(AuctionError.ProductExpired)
    else if quantity > auction.value.quantityAvailable || quantity < auction.value.minQuantity then Some(QuantityUnavailable)
    else if quantity == 0 then Some(Panic)
    else if EffectiveBid(auction.value, amount, quantity) < 0 then Some(Panic)
    else if EffectiveBid(auction.value, amount, quantity) <= auction.value.highestBid
         || amount / quantity < auction.value.reservePrice then Some(BidTooLow)
    else None
  }

  /** extend_auction's checks, in order. */
  function ExtendCheck(auction: Option<Auction>, product: Option<Product>, newEndTime: nat, now: nat)
    : (e: Option<AuctionError>)
    ensures e.None? <==> auction.Some? && product.Some? &&
                         now < auction.value.endTime < newEndTime < product.value.expiryDate
    ensures (auction.Some? && now < auction.value.endTime && product.Some? && now < product.value.expiryDate
             && newEndTime <= auction.value.endTime) ==> e == Some(InvalidAuctionEndTime)
  {
    if auction.None? then Some(AuctionNotFound)
    else if auction.value.endTime < now then Some(AuctionEnded)
    else if product.None? then Some(AuctionError.ProductNotFound)
    else if product.value.expiryDate <= now then Some(AuctionError.ProductExpired)
    else if auction.value.endTime <= now then Some(TooLateToExtend)
    else if newEndTime <= auction.value.endTime then Some(InvalidAuctionEndTime)
    else if newEndTime >= product.value.expiryDate then Some(InvalidAuctionEndTime)
    else None
  }

  /** finalize_auction's checks, in order. */
  function FinalizeCheck(auction: Option<Auction>, product: Option<Product>, now: nat): (e: Option<AuctionError>)
    ensures e.None? <==> auction.Some? && auction.value.endTime <= now && auction.value.highestBidder.Some? && product.Some?
    ensures auction.Some? && now < auction.value.endTime ==> e == Some(AuctionNotYetEnded)
  {
    if auction.None? then Some(AuctionNotFound)
    else if auction.value.endTime > now then Some(AuctionNotYetEnded)
    else if auction.value.highestBidder.None? then Some(NoBidsPlaced)
    else if product.None? then Some(AuctionError.ProductNotFound)
    else None
  }

  /** An accepted bid raises the highest bid and keeps the auction valid. */
  lemma AcceptedBidKeepsAuctionValid(a: Auction, product: Option<Product>, bidder: Address,
                                     amount: nat, quantity: nat, now: nat)
    requires AuctionValid(a)
    requires BidCheck(Some(a), product, bidder, amount, quantity, now).None?
    ensures var b := EffectiveBid(a, amount, quantity);
      b > a.highestBid && AuctionValid(a.(highestBid := b, highestBidder := Some(bidder)))
  {
  }

  /** The market-price entries update_regional_prices writes, applied in
      list order: each region gets the new price and time and keeps the
      trend and volume already stored (0 and 0 when none). */
  function RegionalEntry(m: map<(string, string), MarketPrice>, productType: string, region: string,
                         price: nat, now: nat): MarketPrice
  {
    var key := (productType, region);
    MarketPrice(productType, region, price, now,
                if key in m then m[key].trend else 0, if key in m then m[key].volume else 0)
  }

  function RegionalPrices(m: map<(string, string), MarketPrice>, productType: string,
                          regions: seq<string>, prices: seq<nat>, now: nat): map<(string, string), MarketPrice>
    requires |regions| == |prices|
    decreases |regions|
  {
    if |regions| == 0 then m
    else
      var n := |regions| - 1;
      var prev := RegionalPrices(m, productType, regions[..n], prices[..n], now);
      prev[(productType, regions[n]) := RegionalEntry(prev, productType, regions[n], prices[n], now)]
  }

  function RegionalHistory(h: map<(string, string, nat), nat>, productType: string,
                           regions: seq<string>, prices: seq<nat>, now: nat): map<(string, string, nat), nat>
    requires |regions| == |prices|
    decreases |regions|
  {
    if |regions| == 0 then h
    else
      var n := |regions| - 1;
      RegionalHistory(h, productType, regions[..n], prices[..n], now)[(productType, regions[n], now) := prices[n]]
  }

  /** update_regional_prices only touches the given product type's listed
      regions, and never changes a stored trend or volume (new entries get
      0 and 0). */
  lemma {:induction false} RegionalPricesKeepTrendAndVolume(
    m: map<(string, string), MarketPrice>, productType: string, regions: seq<string>, prices: seq<nat>, now: nat)
    requires |regions| == |prices|
    ensures var r := RegionalPrices(m, productType, regions, prices, now);
      forall key :: key in r <==> key in m || (key.0 == productType && key.1 in regions)
    ensures var r := RegionalPrices(m, productType, regions, prices, now);
      forall key :: key in r ==>
        && (key in m ==> r[key].trend == m[key].trend && r[key].volume == m[key].volume)
        && (key !in m ==> r[key].trend == 0 && r[key].volume == 0)
        && (!(key.0 == productType && key.1 in regions) ==> r[key] == m[key])
    decreases |regions|
  {
    if |regions| > 0 {
      var n := |regions| - 1;
      RegionalPricesKeepTrendAndVolume(m, productType, regions[..n], prices[..n], now);
      assert forall x :: x in regions <==> x in regions[..n] || x == regions[n] by {
        assert regions == regions[..n] + [regions[n]];
      }
    }
  }

  class Marketplace {
    var admin: Option<Address>
    var products: map<(Address, nat), Product>
    var productLists: map<Address, seq<Product>>
    var seasonal: map<(string, string), SeasonalStatus>
    var auctions: map<(Address, nat), Auction>
    var marketPrices: map<(string, string), MarketPrice>
    var priceHistory: map<(string, string, nat), nat>

    ghost predicate Valid()
      reads this`auctions
    {
      forall k :: AuctionEntryValid(k, auctions)
    }

    constructor (admin: Address)
      ensures Valid() && this.admin == Some(admin)
      ensures products == map[] && auctions == map[] && marketPrices == map[]
    {
      this.admin := Some(admin);
      products := map[];
      productLists := map[];
      seasonal := map[];
      auctions := map[];
      marketPrices := map[];
      priceHistory := map[];
    }

    function ProductAt(farmer: Address, id: nat): Option<Product>
      reads this`products
    {
      if (farmer, id) in products then Some(products[(farmer, id)]) else None
    }

    function AuctionAt(farmer: Address, id: nat): Option<Auction>
      reads this`auctions
    {
      if (farmer, id) in auctions then Some(auctions[(farmer, id)]) else None
    }

    function ProductListOf(farmer: Address): seq<Product>
      reads this`productLists
    {
      if farmer in productLists then productLists[farmer] else []
    }

    function SeasonalOrDefault(productType: string, region: string): SeasonalStatus
      reads this`seasonal
    {
      if (productType, region) in seasonal then seasonal[(productType, region)] else YearRound
    }

    // -------------------------------------------------------------------
    // auction_core

    /** create_auction: opens an auction with no bids for the whole
        product quantity. */
    method CreateAuction(farmer: Address, productId: nat, reservePrice: nat, endTime: nat,
                         minQuantity: nat, threshold: nat, percentage: nat, dynamicPricing: bool, now: nat)
      returns (r: Result<(), AuctionError>)
      requires Valid()
      modifies this`auctions
      ensures Valid()
      ensures var e := CreateAuctionCheck(old(AuctionAt(farmer, productId)).Some?, old(ProductAt(farmer, productId)),
                                          endTime, minQuantity, now);
        && (e.Some? ==> r == Err(e.value) && auctions == old(auctions))
        && (e.None? ==> r == Ok(()) && auctions == old(auctions)[(farmer, productId) :=
              Auction(productId, 0, None, reservePrice, endTime, farmer, old(products)[(farmer, productId)].quantity,
                      minQuantity, threshold, percentage, dynamicPricing)])
    {
      var e := CreateAuctionCheck(AuctionAt(farmer, productId).Some?, ProductAt(farmer, productId),
                                  endTime, minQuantity, now);
      if e.Some? {
        return Err(e.value);
      }
      var a := Auction(productId, 0, None, reservePrice, endTime, farmer, products[(farmer, productId)].quantity,
                       minQuantity, threshold, percentage, dynamicPricing);
      auctions := auctions[(farmer, productId) := a];
      forall k ensures AuctionEntryValid(k, auctions) {
        if k != (farmer, productId) {
          assert AuctionEntryValid(k, old(auctions));
        }
      }
      r := Ok(());
    }

    /** place_bid: records the discounted bid as the highest, with its
        bidder. Returns true. */
    method PlaceBid(productId: nat, amount: nat, quantity: nat, bidder: Address, farmer: Address, now: nat)
      returns (r: Result<bool, AuctionError>)
      requires Valid()
      modifies this`auctions
      ensures Valid()
      ensures var e := BidCheck(old(AuctionAt(farmer, productId)), old(ProductAt(farmer, productId)),
                                bidder, amount, quantity, now);
        && (e.Some? ==> r == Err(e.value) && auctions == old(auctions))
        && (e.None? ==>
              var a := old(auctions)[(farmer, productId)];
              var b := EffectiveBid(a, amount, quantity);
              && r == Ok(true) && b > a.highestBid
              && auctions == old(auctions)[(farmer, productId) := a.(highestBid := b, highestBidder := Some(bidder))])
    {
      var e := BidCheck(AuctionAt(farmer, productId), ProductAt(farmer, productId), bidder, amount, quantity, now);
      if e.Some? {
        return Err(e.value);
      }
      var a := auctions[(farmer, productId)];
      assert AuctionEntryValid((farmer, productId), auctions);
      AcceptedBidKeepsAuctionValid(a, ProductAt(farmer, productId), bidder, amount, quantity, now);
      var b := EffectiveBid(a, amount, quantity);
      auctions := auctions[(farmer, productId) := a.(highestBid := b, highestBidder := Some(bidder))];
      forall k ensures AuctionEntryValid(k, auctions) {
        if k != (farmer, productId) {
          assert AuctionEntryValid(k, old(auctions));
        }
      }
      r := Ok(true);
    }

    /** extend_auction: moves the end time later, still before expiry. */
    method ExtendAuction(farmer: Address, productId: nat, newEndTime: nat, now: nat)
      returns (r: Result<(), AuctionError>)
      requires Valid()
      modifies this`auctions
      ensures Valid()
      ensures var e := ExtendCheck(old(AuctionAt(farmer, productId)), old(ProductAt(farmer, productId)), newEndTime, now);
        && (e.Some? ==> r == Err(e.value) && auctions == old(auctions))
        && (e.None? ==> r == Ok(()) && auctions == old(auctions)[(farmer, productId) :=
              old(auctions)[(farmer, productId)].(endTime := newEndTime)])
    {
      var e := ExtendCheck(AuctionAt(farmer, productId), ProductAt(farmer, productId), newEndTime, now);
      if e.Some? {
        return Err(e.value);
      }
      var a := auctions[(farmer, productId)];
      assert AuctionEntryValid((farmer, productId), auctions);
      auctions := auctions[(farmer, productId) := a.(endTime := newEndTime)];
      forall k ensures AuctionEntryValid(k, auctions) {
        if k != (farmer, productId) {
          assert AuctionEntryValid(k, old(auctions));
        }
      }
      r := Ok(());
    }

    /** finalize_auction: after the end, with a winner, takes the auctioned
        quantity off the product (saturating) and removes the auction. */
    method FinalizeAuction(farmer: Address, productId: nat, now: nat) returns (r: Result<(), AuctionError>)
      requires Valid()
      modifies this`auctions, this`products
      ensures Valid()
      ensures var e := FinalizeCheck(old(AuctionAt(farmer, productId)), old(ProductAt(farmer, productId)), now);
        && (e.Some? ==> r == Err(e.value) && auctions == old(auctions) && products == old(products))
        && (e.None? ==>
              var p := old(products)[(farmer, productId)];
              && r == Ok(())
              && products == old(products)[(farmer, productId) :=
                   p.(quantity := SatSub(p.quantity, old(auctions)[(farmer, productId)].quantityAvailable))]
              && auctions == old(auctions) - {(farmer, productId)})
    {
      var e := FinalizeCheck(AuctionAt(farmer, productId), ProductAt(farmer, productId), now);
      if e.Some? {
        return Err(e.value);
      }
      var a := auctions[(farmer, productId)];
      var p := products[(farmer, productId)];
      products := products[(farmer, productId) := p.(quantity := SatSub(p.quantity, a.quantityAvailable))];
      auctions := auctions - {(farmer, productId)};
      forall k ensures AuctionEntryValid(k, auctions) {
        assert AuctionEntryValid(k, old(auctions));
      }
      r := Ok(());
    }

    // -------------------------------------------------------------------
    // product_listing

    /** verify_seasonal_status: the stored status, or YearRound, which is
        then stored. */
    method VerifySeasonalStatus(productType: string, region: string) returns (s: SeasonalStatus)
      modifies this`seasonal
      ensures s == old(SeasonalOrDefault(productType, region))
      ensures seasonal == old(seasonal)[(productType, region) := s]
    {
      s := SeasonalOrDefault(productType, region);
      seasonal := seasonal[(productType, region) := s];
    }

    /** add_product: validates the details, refuses out-of-season produce,
        and stores the new product under its id and in the farmer's list. */
    method AddProduct(farmer: Address, d: ProductDetails, productId: nat, now: nat)
      returns (r: Result<nat, ProductError>)
      modifies this`products, this`productLists, this`seasonal
      ensures var e := ProductDetailsCheck(d, now);
        && (e.Some? ==> r == Err(e.value) && unchanged(this))
        && (e.None? && old(SeasonalOrDefault(d.productType, d.region)) == SeasonalStatus.OutOfSeason ==>
              r == Err(ProductError.OutOfSeason) && unchanged(this))
        && (e.None? && old(SeasonalOrDefault(d.productType, d.region)) != SeasonalStatus.OutOfSeason ==>
              var p := NewProduct(productId, farmer, d, d.harvestDate + ShelfLife(d.productType),
                                  old(SeasonalOrDefault(d.productType, d.region)), now);
              && r == Ok(productId)
              && seasonal == old(seasonal)[(d.productType, d.region) := p.seasonalStatus]
              && productLists == old(productLists)[farmer := old(ProductListOf(farmer)) + [p]]
              && products == old(products)[(farmer, productId) := p])
    {
      var e := ProductDetailsCheck(d, now);
      if e.Some? {
        return Err(e.value);
      }
      if SeasonalOrDefault(d.productType, d.region) == SeasonalStatus.OutOfSeason {
        return Err(ProductError.OutOfSeason);
      }
      var status := VerifySeasonalStatus(d.productType, d.region);
      var expiry := CalculateExpiryDate(d.harvestDate, d.productType, now);
      var p := NewProduct(productId, farmer, d, expiry.value, status, now);
      productLists := productLists[farmer := ProductListOf(farmer) + [p]];
      products := products[(farmer, productId) := p];
      r := Ok(productId);
    }

    /** update_freshness: sets the rating and prices the product from its
        base price for that rating. */
    method UpdateFreshness(farmer: Address, productId: nat, rating: FreshnessRating)
      returns (r: Result<(), ProductError>)
      modifies this`products
      ensures (farmer, productId) !in old(products) ==> r == Err(ProductError.ProductNotFound) && products == old(products)
      ensures (farmer, productId) in old(products) ==>
        var p := old(products)[(farmer, productId)];
        r == Ok(()) && products == old(products)[(farmer, productId) :=
          p.(freshness := rating, currentPrice := AdjustPriceByFreshness(p.basePrice, rating))]
    {
      if (farmer, productId) !in products {
        return Err(ProductError.ProductNotFound);
      }
      var p := products[(farmer, productId)];
      products := products[(farmer, productId) := p.(freshness := rating, currentPrice := AdjustPriceByFreshness(p.basePrice, rating))];
      r := Ok(());
    }

    /** update_quantity: overwrites the stored quantity. */
    method UpdateQuantity(farmer: Address, productId: nat, quantity: nat) returns (r: Result<(), ProductError>)
      modifies this`products
      ensures (farmer, productId) !in old(products) ==> r == Err(ProductError.ProductNotFound) && products == old(products)
      ensures (farmer, productId) in old(products) ==>
        r == Ok(()) && products == old(products)[(farmer, productId) := old(products)[(farmer, productId)].(quantity := quantity)]
    {
      if (farmer, productId) !in products {
        return Err(ProductError.ProductNotFound);
      }
      products := products[(farmer, productId) := products[(farmer, productId)].(quantity := quantity)];
      r := Ok(());
    }

    /** update_quality_grade: sets the grade and scales the current price
        (not the base price) for it. */
    method UpdateQualityGrade(farmer: Address, productId: nat, grade: QualityGrade)
      returns (r: Result<(), ProductError>)
      modifies this`products
      ensures (farmer, productId) !in old(products) ==> r == Err(ProductError.ProductNotFound) && products == old(products)
      ensures (farmer, productId) in old(products) ==>
        var p := old(products)[(farmer, productId)];
        r == Ok(()) && products == old(products)[(farmer, productId) :=
          p.(grade := grade, currentPrice := AdjustPriceByQuality(p.currentPrice, grade))]
    {
      if (farmer, productId) !in products {
        return Err(ProductError.ProductNotFound);
      }
      var p := products[(farmer, productId)];
      products := products[(farmer, productId) := p.(grade := grade, currentPrice := AdjustPriceByQuality(p.currentPrice, grade))];
      r := Ok(());
    }

    // -------------------------------------------------------------------
    // time_management

    /** update_product_freshness: re-rates the product by its age and
        prices it from its base price for that rating. */
    method UpdateProductFreshness(farmer: Address, productId: nat, now: nat)
      returns (r: Result<FreshnessRating, ProductError>)
      modifies this`products
      ensures (farmer, productId) !in old(products) ==> r == Err(ProductError.ProductNotFound) && products == old(products)
      ensures (farmer, productId) in old(products) ==>
        var p := old(products)[(farmer, productId)];
        var f := CalculateFreshness(p.harvestDate, now);
        r == Ok(f) && products == old(products)[(farmer, productId) :=
          p.(freshness := f, currentPrice := AdjustPriceByFreshness(p.basePrice, f))]
    {
      if (farmer, productId) !in products {
        return Err(ProductError.ProductNotFound);
      }
      var p := products[(farmer, productId)];
      var f := CalculateFreshness(p.harvestDate, now);
      products := products[(farmer, productId) := p.(freshness := f, currentPrice := AdjustPriceByFreshness(p.basePrice, f))];
      r := Ok(f);
    }

    /** check_product_expiry: expired exactly when the expiry date is not
        after now. */
    function CheckProductExpiry(farmer: Address, productId: nat, now: nat): (r: Result<bool, ProductError>)
      reads this`products
      ensures r.Err? <==> (farmer, productId) !in products
      ensures r.Err? ==> r.error == ProductError.ProductNotFound
      ensures r.Ok? ==> (r.value <==> products[(farmer, productId)].expiryDate <= now)
    {
      if (farmer, productId) !in products then Err(ProductError.ProductNotFound)
      else Ok(products[(farmer, productId)].expiryDate <= now)
    }

    /** extend_expiry_date: a still-fresh product's expiry moves by whole
        days. A missing product is reported as InvalidTimeframe. */
    method ExtendExpiryDate(farmer: Address, productId: nat, days: nat, now: nat)
      returns (r: Result<nat, TimeError>)
      modifies this`products
      ensures (farmer, productId) !in old(products) ==> r == Err(InvalidTimeframe) && products == old(products)
      ensures (farmer, productId) in old(products) && old(products)[(farmer, productId)].expiryDate <= now ==>
        r == Err(TimeError.ProductExpired) && products == old(products)
      ensures (farmer, productId) in old(products) && old(products)[(farmer, productId)].expiryDate > now ==>
        var p := old(products)[(farmer, productId)];
        && r == Ok(p.expiryDate + days * SECONDS_PER_DAY) && r.value > now
        && products == old(products)[(farmer, productId) := p.(expiryDate := r.value)]
    {
      if (farmer, productId) !in products {
        return Err(InvalidTimeframe);
      }
      var p := products[(farmer, productId)];
      if p.expiryDate <= now {
        return Err(TimeError.ProductExpired);
      }
      var expiry := p.expiryDate + days * SECONDS_PER_DAY;
      products := products[(farmer, productId) := p.(expiryDate := expiry)];
      r := Ok(expiry);
    }

    /** calculate_time_based_price: prices the product from its base price
        by the share of shelf life left, and stores that price. */
    method CalculateTimeBasedPrice(farmer: Address, productId: nat, now: nat)
      returns (r: Result<nat, ProductError>)
      modifies this`products
      ensures (farmer, productId) !in old(products) ==> r == Err(ProductError.ProductNotFound) && products == old(products)
      ensures (farmer, productId) in old(products) ==>
        var p := old(products)[(farmer, productId)];
        var price := TimeBasedPrice(p.basePrice, RemainingPercentage(p.harvestDate, p.expiryDate, now));
        r == Ok(price) && products == old(products)[(farmer, productId) := p.(currentPrice := price)]
    {
      if (farmer, productId) !in products {
        return Err(ProductError.ProductNotFound);
      }
      var p := products[(farmer, productId)];
      var price := TimeBasedPrice(p.basePrice, RemainingPercentage(p.harvestDate, p.expiryDate, now));
      products := products[(farmer, productId) := p.(currentPrice := price)];
      r := Ok(price);
    }

    // -------------------------------------------------------------------
    // price_oracle

    /** update_market_price: only the stored admin may set the current price
        for a product type and region; the price is also kept in the history
        under the current time. */
    method UpdateMarketPrice(caller: Address, productType: string, region: string, price: nat,
                             trend: int, volume: nat, now: nat) returns (r: Result<(), OracleError>)
      modifies this`marketPrices, this`priceHistory
      ensures admin != Some(caller) ==> r == Err(InvalidPriceData) && unchanged(this)
      ensures admin == Some(caller) ==>
        && r == Ok(())
        && marketPrices == old(marketPrices)[(productType, region) := MarketPrice(productType, region, price, now, trend, volume)]
        && priceHistory == old(priceHistory)[(productType, region, now) := price]
    {
      if admin.None? || admin.value != caller {
        return Err(InvalidPriceData);
      }
      marketPrices := marketPrices[(productType, region) := MarketPrice(productType, region, price, now, trend, volume)];
      priceHistory := priceHistory[(productType, region, now) := price];
      r := Ok(());
    }

    function FetchMarketPrice(productType: string, region: string): (r: Result<MarketPrice, OracleError>)
      reads this`marketPrices
      ensures r.Err? <==> (productType, region) !in marketPrices
      ensures r.Ok? ==> r.value == marketPrices[(productType, region)]
    {
      if (productType, region) in marketPrices then Ok(marketPrices[(productType, region)])
      else Err(PriceDataNotAvailable)
    }

    /** compare_with_market, with the corrected arithmetic: the product's
        current price against the market price of its type and region. */
    function CompareWithMarketOf(farmer: Address, productId: nat): (r: Result<int, ProductError>)
      reads this`products, this`marketPrices
      ensures (farmer, productId) !in products ==> r == Err(ProductError.ProductNotFound)
      ensures r.Ok? ==>
        var p := products[(farmer, productId)];
        (p.productType, p.region) in marketPrices &&
        var m := marketPrices[(p.productType, p.region)].price;
        (r.value > 0 ==> p.currentPrice > m) && (r.value < 0 ==> p.currentPrice < m)
    {
      if (farmer, productId) !in products then Err(ProductError.ProductNotFound)
      else
        var p := products[(farmer, productId)];
        if (p.productType, p.region) !in marketPrices then Err(SeasonalDataNotAvailable)
        else Ok(CompareWithMarket(p.currentPrice, marketPrices[(p.productType, p.region)].price))
    }

    /** suggest_price over storage: needs a market price; a missing
        seasonal status counts as YearRound. */
    function SuggestPriceFor(productType: string, region: string, grade: string, rating: string)
      : (r: Result<nat, OracleError>)
      reads this`marketPrices, this`seasonal
      ensures r.Err? <==> (productType, region) !in marketPrices
      ensures r.Ok? && marketPrices[(productType, region)].trend <= 0 ==>
        1_000_000 * r.value <= 130 * 120 * 130 * marketPrices[(productType, region)].price
    {
      if (productType, region) !in marketPrices then Err(PriceDataNotAvailable)
      else
        var m := marketPrices[(productType, region)];
        SuggestPriceCap(m, SeasonalOrDefault(productType, region), grade, rating);
        Ok(SuggestPrice(m, SeasonalOrDefault(productType, region), grade, rating))
    }

    /** update_regional_prices: admin only, one price per region; each
        region's entry gets the new price and keeps its trend and volume. */
    method UpdateRegionalPrices(caller: Address, productType: string, regions: seq<string>,
                                prices: seq<nat>, now: nat) returns (r: Result<(), OracleError>)
      modifies this`marketPrices, this`priceHistory
      ensures (admin != Some(caller) || |regions| != |prices|) ==> r == Err(InvalidPriceData) && unchanged(this)
      ensures admin == Some(caller) && |regions| == |prices| ==>
        && r == Ok(())
        && marketPrices == RegionalPrices(old(marketPrices), productType, regions, prices, now)
        && priceHistory == RegionalHistory(old(priceHistory), productType, regions, prices, now)
    {
      if admin.None? || admin.value != caller || |regions| != |prices| {
        return Err(InvalidPriceData);
      }
      var i := 0;
      while i < |regions|
        invariant 0 <= i <= |regions|
        invariant marketPrices == RegionalPrices(old(marketPrices), productType, regions[..i], prices[..i], now)
        invariant priceHistory == RegionalHistory(old(priceHistory), productType, regions[..i], prices[..i], now)
      {
        var key := (productType, regions[i]);
        var trend, volume := 0, 0;
        if key in marketPrices {
          trend, volume := marketPrices[key].trend, marketPrices[key].volume;
        }
        marketPrices := marketPrices[key := MarketPrice(productType, regions[i], prices[i], now, trend, volume)];
        priceHistory := priceHistory[(productType, regions[i], now) := prices[i]];
        assert regions[..i + 1][..i] == regions[..i] && prices[..i + 1][..i] == prices[..i];
        i := i + 1;
      }
      assert regions[..|regions|] == regions && prices[..|prices|] == prices;
      r := Ok(());
    }
  }
}
