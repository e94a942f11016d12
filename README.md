# ContractsRevo core, modelled in Dafny

This project models the core of the ContractsRevo Soroban smart contracts (Rust) in Dafny 4 and proves properties of the model. Each contract is a single-writer state machine over keyed contract storage, together with integer arithmetic for prices, shares, rewards and scores. The model has one module per contract (one file each):

| file | contract | what is modelled |
|---|---|---|
| `common.dfy` | — | option/result wrappers, accounts, Rust integer semantics (truncating `/`, saturating subtraction, the `as i32` wrap), map sums, the UTF-8 byte length of contract strings |
| `microlending.dfy` | microlending | loan requests, funding in contributions, repayment and pro-rata distribution to lenders |
| `supply_chain.dfy` | supply-chain tracking | the ten-tier stage lifecycle of a product |
| `agri_market.dfy`, `agri_auction.dfy` | agricultural auction | product listing, freshness and expiry, time-based and suggested prices, the price oracle, and auctions with bulk discounts |
| `farmer_token.dfy` | farmer token | balances, allowances, total supply, transfers and the three burns |
| `farmer_staking.dfy` | farmer staking | reward pools, locked stakes, epochs, claims, compounding and emergency unstaking |
| `yield_farming.dfy` | yield farming | farms, LP staking, MasterChef-style reward accounting, tiers and loyalty |
| `equipment_rental.dfy` | equipment rental | the rental lifecycle |
| `land_leasing.dfy` | land leasing | the lease lifecycle and active-lease queries |
| `water.dfy` | water management | usage records and reports, incentives, thresholds and alerts |
| `price_stabilization.dfy` | price stabilisation | funds, contributions, oracle prices, Chainlink conversion and threshold payouts |
| `agri_quality.dfy` | agricultural quality | certification, inspection, metrics and compliance scoring, disputes, resolution, appeals and compensation |
| `cooperative.dfy` | cooperative management | resource sharing: register, borrow, return, schedule and maintain |
| `product_auction.dfy` | product auction | create, bid, extend and finalize |
| `purchase_review.dfy` | purchase review | purchase verification, review marking, reporting and editing |
| `certification.dfy` | certification | issuance, the verified-issuer list and audit queries |
| `crop_prediction.dfy`, `crop_reporting.dfy` | crop-yield prediction | the yield prediction arithmetic, and the farmer and buyer reports |
| `liquidity_pool.dfy` | farmer liquidity pool | deposits for shares, fee-adjusted constant-product swaps and redemptions |

Conventions throughout:

- Where the source changes stored state, a contract is a `class` whose fields are its storage maps, and each entry point is a `method` that modifies them.
- Each entry point's checks are a pure function returning the first error, `None` when all pass. The method's contract says that an error changes nothing (a Soroban error or panic reverts the call) and that success happens exactly when the check passes. It then states the whole new state.
- Invariants, such as "balances add up to the total supply", "pool totals equal the sum of stakes" and "every index lists exactly the stored records", are class predicates that every method preserves. Lemmas about the state functions prove them.
- Loops in the source (summing, filtering, lookups) are `while` loops with invariants, proved against a specification function.
- Amounts are unbounded integers. Rust's truncating division is `Common.Quot`. A wrap-around or a saturating subtraction is written out where it matters.
- Callers, the ledger time and fresh identifiers (hashes, pseudo-random ids) are parameters. Token transfers, authorisation and events are not modelled: only the stored state and the arithmetic are.

Where a source file's behaviour differs from the repository's description or from the record types it uses, the model follows the code of the function. For example, the agricultural-quality dispute functions build `DisputeData` with fields (a plain mediator address, a `Pending` resolution, a numeric appeal deadline) that differ from `datatypes.rs`, and the model uses the functions' fields.

## Model

| member | source | states |
|---|---|---|
| Microlending.ValidateLoanInputs | ContractsRevo/microlending-contract/src/request.rs:190-213 | no error exactly when amount > 0, 1 ≤ duration ≤ 1095 days, 1 ≤ rate ≤ 10000 bp, collateral value > 0 and asset type non-empty; the amount is checked first, then the duration |
| Microlending.TotalRepaymentDueBounds | ContractsRevo/microlending-contract/src/repay.rs:175-179 | the interest part of the total due is floor(principal × rate / 10000); at a rate of at most 100% the total lies between the principal and twice the principal |
| Microlending.DueTimestamp | ContractsRevo/microlending-contract/src/fund.rs:94-108 | without instalments the due date is the funding time plus the duration in days, and never precedes the funding time |
| Microlending.LenderShareAtMostTotal | ContractsRevo/microlending-contract/src/fund.rs:180-189 | a lender's share never exceeds the loan's total contributions |
| Microlending.LenderShareOfSoleContribution | ContractsRevo/microlending-contract/src/fund.rs:180-189 | a lender with exactly one contribution is credited exactly that amount |
| Microlending.LenderShareOfAbsent | ContractsRevo/microlending-contract/src/fund.rs:180-189 | an address that never contributed has a share of 0 |
| Microlending.SharePercentage | ContractsRevo/microlending-contract/src/fund.rs:191-198 | 0 for a zero loan amount; for a share of at most the amount, the result is at most 10000 and is floor(share × 10000 / amount) |
| Microlending.PayoutScaled | ContractsRevo/microlending-contract/src/repay.rs:80-93 | one payout floor(amount × pct / 10000), scaled by the loan amount, never exceeds the repayment scaled by the contribution |
| Microlending.PayTransferScaled | ContractsRevo/microlending-contract/src/repay.rs:80-93 | the same bound for the transfer made for one contribution (none when claimed or zero) |
| Microlending.ProRataPayoutsScaled | ContractsRevo/microlending-contract/src/repay.rs:80-93 | over all contributions, the pro-rata transfers scaled by the loan amount stay within the repayment scaled by the contributions |
| Microlending.ProRataPayoutsBounded | ContractsRevo/microlending-contract/src/repay.rs:80-93 | when the contributions do not exceed the loan, the lenders never receive more than the repayment |
| Microlending.PayoutsAgreeForDistinctLenders | ContractsRevo/microlending-contract/src/repay.rs:80-93 | when every lender contributed once, the distribution as written equals the pro-rata one |
| Microlending.AsWrittenOverpaysRepeatLender | ContractsRevo/microlending-contract/src/repay.rs:80-93 | two contributions of 500 by one lender to a loan of 1000: a repayment of 100 pays that lender 200 as written, 100 pro rata |
| Microlending.NewLoanInvariant | ContractsRevo/microlending-contract/src/request.rs:22-35 | a Pending loan with nothing funded or repaid satisfies the loan invariant |
| Microlending.LenderEnlistKeepsValid | ContractsRevo/microlending-contract/src/fund.rs:77-85 | adding a loan to a lender's list only when absent keeps every lender list free of duplicates |
| Microlending.AddLoanKeepsValid | ContractsRevo/microlending-contract/src/request.rs:37-63 | storing a new loan under the next id with empty funding and repayment lists, and appending it to the borrower's list, keeps the storage invariants |
| Microlending.AfterFunding | ContractsRevo/microlending-contract/src/fund.rs:87-108 | the funded amount grows by the accepted amount; the status becomes Funded, with funding time and due date set, exactly when the requested amount is reached; nothing else changes |
| Microlending.FundKeepsInvariant | ContractsRevo/microlending-contract/src/fund.rs:32-108 | a contribution of at most the remaining amount keeps funded = sum of contributions ≤ requested amount, and Funded exactly when fully funded |
| Microlending.RepayKeepsInvariant | ContractsRevo/microlending-contract/src/repay.rs:39-99 | a repayment within what is due keeps repaid ≤ total due, Repaying while short of it, Completed exactly when it is reached |
| Microlending.FundCheck | ContractsRevo/microlending-contract/src/fund.rs:9-55 | no error exactly when amount > 0, the loan exists, is not fully funded, is Pending or Funded, the lender is not the borrower and holds min(amount, remaining); errors in the source's order |
| Microlending.RepayCheck | ContractsRevo/microlending-contract/src/repay.rs:10-54 | no error exactly when amount > 0, the loan exists, the caller is its borrower, it is Funded or Repaying, the repayment fits within what is still due and the borrower can pay it |
| Microlending.Lending.CreateLoanRequest | ContractsRevo/microlending-contract/src/request.rs:4-98 | invalid inputs fail with ValidateLoanInputs' error and change nothing; otherwise the next id (never used before, ids increase by one) gets a Pending loan with funded 0 and no timestamps, empty lists, the borrower's list gains the id and the counters grow by one |
| Microlending.Lending.CancelLoanRequest | ContractsRevo/microlending-contract/src/request.rs:114-141 | succeeds exactly for the borrower of a Pending loan and sets it to Cancelled; errors LoanNotFound, NotLoanCreator, NotPendingLoan leave storage unchanged |
| Microlending.Lending.UpdateLoanRequest | ContractsRevo/microlending-contract/src/request.rs:143-188 | succeeds exactly for the borrower of a Pending, unfunded loan with valid new terms, and replaces only those terms |
| Microlending.Lending.ApplyFunding | ContractsRevo/microlending-contract/src/fund.rs:57-150 | an accepted contribution is appended, the loan is listed under the lender once, the loan follows AfterFunding and the funded counter and stats grow accordingly |
| Microlending.Lending.FundLoan | ContractsRevo/microlending-contract/src/fund.rs:5-164 | FundCheck's error changes nothing; otherwise accepts min(amount, remaining) > 0 from a Pending loan and applies it as ApplyFunding states |
| Microlending.Lending.CalculateLenderShare | ContractsRevo/microlending-contract/src/fund.rs:180-189 | the loop's result is the sum of the lender's contributions |
| Microlending.Lending.CalculateLenderSharePercentage | ContractsRevo/microlending-contract/src/fund.rs:191-198 | LoanNotFound for a missing loan, else SharePercentage of the lender's share, at most 10000 |
| Microlending.Lending.DistributeRepayment | ContractsRevo/microlending-contract/src/repay.rs:77-96 | corrected (Findings, ContractsRevo/microlending-contract/src/repay.rs:80-93): the loop's transfers are the pro-rata payouts of the contributions |
| Microlending.Lending.ApplyRepayment | ContractsRevo/microlending-contract/src/repay.rs:57-160 | the repayment is appended; the loan becomes Repaying, or Completed when everything due is repaid; borrower metrics, completed counter and stats follow |
| Microlending.Lending.RepayLoan | ContractsRevo/microlending-contract/src/repay.rs:6-166 | corrected (Findings, ContractsRevo/microlending-contract/src/repay.rs:80-93): RepayCheck's error changes nothing; otherwise the transfers are the pro-rata payouts, they total at most the repayment, and the state is as ApplyRepayment states |
| SupplyChain.TierIndex | ContractsRevo/supply-chain-tracking-contract/src/test.rs:1066-1077 | tiers are numbered 0..9 in lifecycle order, Planting first and Consumer last |
| SupplyChain.Next | ContractsRevo/supply-chain-tracking-contract/src/tracking.rs:172-182 | every tier but Consumer has a successor, exactly one step later in the order; Consumer has none |
| SupplyChain.NextExpectedTier | ContractsRevo/supply-chain-tracking-contract/src/tracking.rs:188-204 | Planting for a product without stages; otherwise the successor of the last stage's tier, none after Consumer |
| SupplyChain.CurrentTier | ContractsRevo/supply-chain-tracking-contract/src/tracking.rs:207-223 | none exactly when there are no stages, otherwise a tier the product has reached |
| SupplyChain.CurrentStage | ContractsRevo/supply-chain-tracking-contract/src/tracking.rs:78-94 | StageNotFound exactly when there are no stages, otherwise a stored stage at the current tier |
| SupplyChain.StageTransition | ContractsRevo/supply-chain-tracking-contract/src/tracking.rs:108-145 | false unless to = from + 1; true only when stage from exists and stage to does not |
| SupplyChain.AcceptedIffNextExpected | ContractsRevo/supply-chain-tracking-contract/src/tracking.rs:148-185 | on a well-ordered history, a tier passes validate_tier_progression exactly when it is the next expected tier |
| SupplyChain.AddStageKeepsOrder | ContractsRevo/supply-chain-tracking-contract/src/tracking.rs:29-45 | appending an accepted tier with id = stage count + 1 keeps the stages numbered 1..n in tier order |
| SupplyChain.CompletedLifecycle | ContractsRevo/supply-chain-tracking-contract/src/tracking.rs:172-182 | a product has at most 10 stages, and when no tier is expected any more it has all 10, ending at Consumer |
| SupplyChain.TransitionOnlyFromLast | ContractsRevo/supply-chain-tracking-contract/src/tracking.rs:108-145 | on a well-ordered history a transition is valid exactly from the last stage id to the next one |
| SupplyChain.ValidateTierProgression | ContractsRevo/supply-chain-tracking-contract/src/tracking.rs:148-185 | the loop over the stages returns DuplicateStageTier, InvalidStageTransition or nothing exactly as TierProgression does |
| SupplyChain.StageById | ContractsRevo/supply-chain-tracking-contract/src/tracking.rs:226-244 | StageNotFound exactly when no stage has the id; otherwise the first stage carrying it |
| SupplyChain.StageByIdIsPosition | ContractsRevo/supply-chain-tracking-contract/src/tracking.rs:226-244 | on a well-ordered history, stage id k exists exactly for 1 ≤ k ≤ n and is at position k - 1 |
| SupplyChain.AddStageCheck | ContractsRevo/supply-chain-tracking-contract/src/tracking.rs:16-29 | no error exactly when name and location are non-empty, the product exists and the tier is accepted; InvalidInput first, then ProductNotFound |
| SupplyChain.Tracking.AddStage | ContractsRevo/supply-chain-tracking-contract/src/tracking.rs:5-59 | AddStageCheck's error changes nothing; otherwise the new stage with id n + 1, the next expected tier, is appended and its id returned |
| SupplyChain.Tracking.StageHistory | ContractsRevo/supply-chain-tracking-contract/src/tracking.rs:97-105 | ProductNotFound exactly for an unknown product, else its stored stages |
| AgriAuction.CreateAuctionCheck | ContractsRevo/agricultural-auction-contract/src/auction_core.rs:54-89 | creation succeeds exactly when no auction exists for the product, the product exists and is unexpired, the end time lies strictly between now and expiry and the minimum quantity is between 1 and the stock; each failure yields the source's error in source order |
| AgriAuction.EffectiveBid | ContractsRevo/agricultural-auction-contract/src/auction_core.rs:173-180 | without a bulk discount the bid is the amount; with a percentage of at most 100 the discounted bid lies between 0 and the amount |
| AgriAuction.DiscountAbove100Underflows | ContractsRevo/agricultural-auction-contract/src/auction_core.rs:173-180 | a bulk percentage above 100, which creation accepts, makes the discounted bid negative (the u64 subtraction underflows) |
| AgriAuction.BidCheck | ContractsRevo/agricultural-auction-contract/src/auction_core.rs:122-185 | a bid is accepted exactly when the auction and product exist, the bidder is not the farmer, the auction has not ended, the product is unexpired, the quantity is within bounds, the effective bid beats the highest bid and the per-unit bid meets the reserve |
| AgriAuction.ExtendCheck | ContractsRevo/agricultural-auction-contract/src/auction_core.rs:204-250 | an extension is accepted exactly when now < current end < new end < expiry; a new end not after the current one gives InvalidAuctionEndTime |
| AgriAuction.FinalizeCheck | ContractsRevo/agricultural-auction-contract/src/auction_core.rs:273-303 | finalisation is accepted exactly when the auction has ended, has a highest bidder and its product exists; an early call gives AuctionNotYetEnded |
| AgriAuction.AcceptedBidKeepsAuctionValid | ContractsRevo/agricultural-auction-contract/src/auction_core.rs:183-189 | an accepted bid strictly raises the highest bid and leaves the auction well formed |
| AgriAuction.RegionalPricesKeepTrendAndVolume | ContractsRevo/agricultural-auction-contract/src/price_oracle.rs:286-314 | a regional update touches only the given product type's listed regions, keeps stored trend and volume, and gives new entries trend 0 and volume 0 |
| AgriAuction.Marketplace.CreateAuction | ContractsRevo/agricultural-auction-contract/src/auction_core.rs:42-120 | on the check's error nothing changes; otherwise the auction is stored with no bids for the whole product quantity |
| AgriAuction.Marketplace.PlaceBid | ContractsRevo/agricultural-auction-contract/src/auction_core.rs:122-202 | on the check's error nothing changes; otherwise the highest bid becomes the effective bid and the bidder becomes the highest bidder |
| AgriAuction.Marketplace.ExtendAuction | ContractsRevo/agricultural-auction-contract/src/auction_core.rs:204-271 | on the check's error nothing changes; otherwise only the end time changes |
| AgriAuction.Marketplace.FinalizeAuction | ContractsRevo/agricultural-auction-contract/src/auction_core.rs:273-324 | on the check's error nothing changes; otherwise the product quantity drops by the auctioned quantity (saturating) and the auction is removed |
| AgriAuction.Marketplace.VerifySeasonalStatus | ContractsRevo/agricultural-auction-contract/src/product_listing.rs:251-271 | returns the stored seasonal status or YearRound, and stores what it returns |
| AgriAuction.Marketplace.AddProduct | ContractsRevo/agricultural-auction-contract/src/product_listing.rs:68-178 | invalid details or an out-of-season product give the source's error and change nothing; otherwise the new product is stored under the farmer and appended to the farmer's list |
| AgriAuction.Marketplace.UpdateFreshness | ContractsRevo/agricultural-auction-contract/src/product_listing.rs:180-215 | a missing product gives ProductNotFound; otherwise the rating is set and the current price is the base price adjusted for it |
| AgriAuction.Marketplace.UpdateQuantity | ContractsRevo/agricultural-auction-contract/src/product_listing.rs:217-249 | a missing product gives ProductNotFound; otherwise only the quantity changes |
| AgriAuction.Marketplace.UpdateQualityGrade | ContractsRevo/agricultural-auction-contract/src/product_listing.rs:309-344 | a missing product gives ProductNotFound; otherwise the grade is set and the current price is adjusted for it |
| AgriAuction.Marketplace.UpdateProductFreshness | ContractsRevo/agricultural-auction-contract/src/time_management.rs:38-86 | a missing product gives ProductNotFound; otherwise the freshness recomputed from the harvest date is stored and returned |
| AgriAuction.Marketplace.CheckProductExpiry | ContractsRevo/agricultural-auction-contract/src/time_management.rs:88-108 | fails exactly for a missing product; otherwise true exactly when the expiry date has passed |
| AgriAuction.Marketplace.ExtendExpiryDate | ContractsRevo/agricultural-auction-contract/src/time_management.rs:110-156 | a missing or expired product gives an error and changes nothing; otherwise the expiry moves by the given days |
| AgriAuction.Marketplace.CalculateTimeBasedPrice | ContractsRevo/agricultural-auction-contract/src/time_management.rs:158-219 | a missing product gives ProductNotFound; otherwise the price from the remaining shelf-life percentage is stored as the current price and returned |
| AgriAuction.Marketplace.UpdateMarketPrice | ContractsRevo/agricultural-auction-contract/src/price_oracle.rs:48-104 | a caller other than the stored admin gives InvalidPriceData and changes nothing; otherwise the market price and the history entry are written |
| AgriAuction.Marketplace.FetchMarketPrice | ContractsRevo/agricultural-auction-contract/src/price_oracle.rs:106-117 | fails exactly when no price is stored for the product type and region, else returns it |
| AgriAuction.Marketplace.CompareWithMarketOf | ContractsRevo/agricultural-auction-contract/src/price_oracle.rs:119-152 | corrected (Findings, ContractsRevo/agricultural-auction-contract/src/price_oracle.rs:143-149): a missing product gives ProductNotFound; a positive result means the product is dearer than the market, a negative one cheaper, with no `i32` wrap-around |
| AgriAuction.Marketplace.SuggestPriceFor | ContractsRevo/agricultural-auction-contract/src/price_oracle.rs:154-251 | fails exactly when no market price is stored; with a non-rising trend the suggestion is at most 130%·120%·130% of the market price |
| AgriAuction.Marketplace.UpdateRegionalPrices | ContractsRevo/agricultural-auction-contract/src/price_oracle.rs:253-322 | a non-admin caller or mismatched lengths give InvalidPriceData and change nothing; otherwise every listed region is updated |
| AgriMarket.PctMonotone | ContractsRevo/agricultural-auction-contract/src/product_listing.rs:361-381 | a larger percentage of the same price is never smaller (the rounding of x·k/100 is monotone in k) |
| AgriMarket.PctAtMost | ContractsRevo/agricultural-auction-contract/src/product_listing.rs:361-381 | a percentage of at most 100 never exceeds the price, so the discount subtractions never underflow |
| AgriMarket.CalculateFreshness | ContractsRevo/agricultural-auction-contract/src/product_listing.rs:347-359 | Premium exactly for an age of at most 2 whole days, Expired exactly for an age above 30 days |
| AgriMarket.FreshnessNeverImproves | ContractsRevo/agricultural-auction-contract/src/product_listing.rs:347-359 | as time passes the rating never moves towards Premium |
| AgriMarket.AdjustPriceByFreshness | ContractsRevo/agricultural-auction-contract/src/product_listing.rs:361-370 | Good keeps the base price; every rating keeps the price between 50% and 120% of the base |
| AgriMarket.FresherIsDearer | ContractsRevo/agricultural-auction-contract/src/product_listing.rs:361-370 | a fresher rating never gives a lower price |
| AgriMarket.FreshnessPriceDecays | ContractsRevo/agricultural-auction-contract/src/product_listing.rs:347-370 | the freshness-adjusted price of a product never rises over time |
| AgriMarket.AdjustPriceByQuality | ContractsRevo/agricultural-auction-contract/src/product_listing.rs:372-381 | GradeB keeps the price; every grade keeps it between 20% and 130% |
| AgriMarket.BetterGradeIsDearer | ContractsRevo/agricultural-auction-contract/src/product_listing.rs:372-381 | a better grade never gives a lower price |
| AgriMarket.ShelfLife | ContractsRevo/agricultural-auction-contract/src/product_listing.rs:283-302 | every product type's shelf life lies between 5 and 180 days |
| AgriMarket.CalculateExpiryDate | ContractsRevo/agricultural-auction-contract/src/product_listing.rs:273-307 | fails with HarvestDateInFuture exactly when the harvest date is after now; otherwise expiry is harvest plus the type's shelf life |
| AgriMarket.ProductDetailsCheck | ContractsRevo/agricultural-auction-contract/src/product_listing.rs:75-99 | details pass exactly when the description has 10 to 500 UTF-8 bytes, the price and weight are positive, there are 1 to 10 images and the harvest date is not in the future; a bad description is reported first |
| AgriMarket.AccentedDescriptionLengths | ContractsRevo/agricultural-auction-contract/src/product_listing.rs:76-78 | a description of 300 two-byte characters (600 bytes) is refused and one of 5 (10 bytes) is long enough, although their character counts say the opposite |
| AgriMarket.NewProduct | ContractsRevo/agricultural-auction-contract/src/product_listing.rs:120-147 | a new product starts at its base price, grade B, unverified, with freshness computed from the harvest date |
| AgriMarket.RemainingPercentage | ContractsRevo/agricultural-auction-contract/src/time_management.rs:174-182 | 0 for a zero shelf life or once expired, and at most 100 after harvest |
| AgriMarket.RemainingPercentageNonIncreasing | ContractsRevo/agricultural-auction-contract/src/time_management.rs:174-182 | the remaining shelf-life percentage never rises over time |
| AgriMarket.TimeBasedPrice | ContractsRevo/agricultural-auction-contract/src/time_management.rs:184-201 | 60–79% remaining keeps the base price; every band keeps the price between 50% and 110% of the base |
| AgriMarket.TimeBasedPriceMonotone | ContractsRevo/agricultural-auction-contract/src/time_management.rs:184-201 | more remaining shelf life never gives a lower price |
| AgriMarket.TimeBasedPriceDecays | ContractsRevo/agricultural-auction-contract/src/time_management.rs:174-201 | the time-based price of a product never rises over time |
| AgriMarket.CompareWithMarketWrapsSign | ContractsRevo/agricultural-auction-contract/src/price_oracle.rs:143-149 | as written, a product 30,000,000 against a market price of 1 is reported as far cheaper: the i32 cast wraps |
| AgriMarket.CompareWithMarketDividesByZero | ContractsRevo/agricultural-auction-contract/src/price_oracle.rs:143-149 | as written, a market price of 2^32 casts to an i32 divisor of 0 and the call panics |
| AgriMarket.CompareWithMarket | ContractsRevo/agricultural-auction-contract/src/price_oracle.rs:140-149 | the intended comparison: 0 for a zero market price, otherwise the sign of the price difference and its size in whole percent of the market price |
| AgriMarket.CompareAgreesWhenSmall | ContractsRevo/agricultural-auction-contract/src/price_oracle.rs:143-149 | when the values fit in i32 the as-written computation equals the intended one |
| AgriMarket.QualityAdjusted | ContractsRevo/agricultural-auction-contract/src/price_oracle.rs:182-196 | Grade_B keeps the price; every grade keeps it between 20% and 130% |
| AgriMarket.FreshnessAdjusted | ContractsRevo/agricultural-auction-contract/src/price_oracle.rs:206-220 | Good keeps the price; every rating keeps it between 50% and 120% |
| AgriMarket.SeasonAdjusted | ContractsRevo/agricultural-auction-contract/src/price_oracle.rs:223-229 | YearRound keeps the price; every season keeps it between 90% and 130% |
| AgriMarket.TrendAdjusted | ContractsRevo/agricultural-auction-contract/src/price_oracle.rs:232-241 | a zero trend keeps the price, a rising one never lowers it, a falling one never raises it, and a trend of -100 or below clamps it to 0 |
| AgriMarket.SuggestPriceNeutral | ContractsRevo/agricultural-auction-contract/src/price_oracle.rs:154-251 | Grade_B, Good, year round and no trend suggest exactly the market price |
| AgriMarket.SuggestPriceCap | ContractsRevo/agricultural-auction-contract/src/price_oracle.rs:154-251 | without a rising trend the suggestion is at most the market price times the largest quality, freshness and season factors |
| FarmerToken.Stored | ContractsRevo/farmer-token-contract/src/token.rs:231-260 | writing a balance or allowance sets exactly that key, leaves every other key alone, and removes the entry exactly when the value is 0 |
| FarmerToken.StoredKeepsSparse | ContractsRevo/farmer-token-contract/src/token.rs:231-260 | storage never holds a zero entry after a write |
| FarmerToken.StoredTotal | ContractsRevo/farmer-token-contract/src/token.rs:231-241 | overwriting one balance changes the sum of balances by exactly the difference |
| FarmerToken.Moved | ContractsRevo/farmer-token-contract/src/token.rs:107-108 | a transfer debits the sender and credits the recipient by the amount (a self-transfer changes nothing) and no other balance changes |
| FarmerToken.MovedConserves | ContractsRevo/farmer-token-contract/src/token.rs:107-108 | a transfer keeps the sum of all balances |
| FarmerToken.MovedKeepsPositive | ContractsRevo/farmer-token-contract/src/token.rs:100-108 | a transfer of a positive amount covered by the sender's balance leaves every stored balance positive |
| FarmerToken.TransferCheck | ContractsRevo/farmer-token-contract/src/token.rs:92-104 | a transfer is accepted exactly for a positive amount, an unpaused token and a covering balance; the amount is checked first, then the pause |
| FarmerToken.TransferFromCheck | ContractsRevo/farmer-token-contract/src/token.rs:129-146 | accepted exactly when additionally the allowance covers the amount; the allowance is checked before the balance |
| FarmerToken.BurnCheck | ContractsRevo/farmer-token-contract/src/burn.rs:23-77 | a burn is accepted exactly when the burner is the holder or has allowance for the amount, the token is unpaused and 0 < amount <= balance, with the allowance checked first |
| FarmerToken.RedemptionCheck | ContractsRevo/farmer-token-contract/src/burn.rs:112-145 | redemption is accepted exactly as a holder's own burn would be |
| FarmerToken.PenaltyCheckAsWritten | ContractsRevo/farmer-token-contract/src/burn.rs:190-220 | as written, a penalty burn passes for the admin whenever the amount does not exceed the balance: the amount is never checked to be positive |
| FarmerToken.PenaltyAsWrittenMints | ContractsRevo/farmer-token-contract/src/burn.rs:190-242 | as written, a negative penalty passes and raises the holder's balance |
| FarmerToken.PenaltyCheck | ContractsRevo/farmer-token-contract/src/burn.rs:190-220 | the corrected check accepts exactly the stored admin with 0 < amount <= balance, and only accepts what the written check accepts |
| FarmerToken.Token.Initialize | ContractsRevo/farmer-token-contract/src/token.rs:41-86 | a second call gives AlreadyInitialized and changes nothing; the first stores the admin, the metadata with supply 0 and the admin as a minter |
| FarmerToken.Token.UpdateTotalSupply | ContractsRevo/farmer-token-contract/src/token.rs:269-280 | the total supply and the metadata's copy of it both become the new supply |
| FarmerToken.Token.Transfer | ContractsRevo/farmer-token-contract/src/token.rs:89-117 | on the check's error nothing changes; otherwise the balances are moved by the amount; stored balances stay positive and add up to the total supply |
| FarmerToken.Token.TransferFrom | ContractsRevo/farmer-token-contract/src/token.rs:120-165 | on the check's error nothing changes; otherwise the balances are moved and the allowance drops by the amount; stored balances stay positive and add up to the total supply |
| FarmerToken.Token.Approve | ContractsRevo/farmer-token-contract/src/token.rs:168-189 | a negative amount gives InvalidAmount; otherwise the allowance is set to the amount |
| FarmerToken.Token.BurnTokens | ContractsRevo/farmer-token-contract/src/burn.rs:16-108 | on the check's error nothing changes; otherwise the holder's balance and the total supply both drop by the amount and a delegated burn spends the allowance; stored balances stay positive and add up to the total supply |
| FarmerToken.Token.BurnForRedemption | ContractsRevo/farmer-token-contract/src/burn.rs:112-186 | on the check's error nothing changes; otherwise the balance and total supply drop by the amount; stored balances stay positive and add up to the total supply |
| FarmerToken.Token.BurnAsPenalty | ContractsRevo/farmer-token-contract/src/burn.rs:190-256 | with the corrected check: on error nothing changes; otherwise the balance and total supply drop by the amount; stored balances stay positive and add up to the total supply |
| FarmerToken.BurnAccounting | ContractsRevo/farmer-token-contract/src/burn.rs:70-99 | a burn of a covered amount leaves a non-negative balance and lowers the sum of balances by exactly the amount |
| FarmerStaking.LockMultiplier | ContractsRevo/farmer-staking-contract/src/rewards.rs:64-90 | the multiplier lies between 100 and 175 percent, is 100 exactly without a lock and 175 exactly for a lock of a year or more |
| FarmerStaking.LockMultiplierMonotone | ContractsRevo/farmer-staking-contract/src/rewards.rs:64-90 | a longer lock never earns a smaller multiplier |
| FarmerStaking.PendingRewards | ContractsRevo/farmer-staking-contract/src/rewards.rs:20-60 | nothing is pending for an empty stake or an empty pool; the pending amount never exceeds the gross accrual and, when positive, is exactly the accrual minus what was already credited |
| FarmerStaking.GrossRewardsMonotoneInTime | ContractsRevo/farmer-staking-contract/src/rewards.rs:34-52 | the gross accrual of a stake never falls as time passes |
| FarmerStaking.PendingRewardsMonotoneInTime | ContractsRevo/farmer-staking-contract/src/rewards.rs:20-60 | the pending reward never falls as time passes |
| FarmerStaking.Claimed | ContractsRevo/farmer-staking-contract/src/rewards.rs:93-103 | a claim credits the pending amount to the reward debt, leaves nothing pending and changes no other field |
| FarmerStaking.Compounded | ContractsRevo/farmer-staking-contract/src/rewards.rs:158-210 | compounding adds the pending amount to the stake and resets the reward debt for the new amount, changing no other field |
| FarmerStaking.RewardDebt | ContractsRevo/farmer-staking-contract/src/rewards.rs:93-103 | the reward debt is 0 for an empty pool or stake |
| FarmerStaking.RewardDebtMonotone | ContractsRevo/farmer-staking-contract/src/rewards.rs:93-103 | a larger stake never has a smaller reward debt |
| FarmerStaking.Apr | ContractsRevo/farmer-staking-contract/src/rewards.rs:214-230 | the APR of an empty pool is 0 |
| FarmerStaking.AprMonotoneInLock | ContractsRevo/farmer-staking-contract/src/rewards.rs:214-230 | a longer lock never gives a lower APR |
| FarmerStaking.EmergencyPayout | ContractsRevo/farmer-staking-contract/src/staking.rs:288-298 | an emergency withdrawal pays 90% of the amount, rounded in the farmer's favour, never more than the amount; when `amount * 10` overflows `i128` the penalty is 0 and the whole amount is paid |
| FarmerStaking.EpochAdvanced | ContractsRevo/farmer-staking-contract/src/pool.rs:207-229 | the epoch advances by the whole days elapsed, the update time moves forward by whole days and lands less than a day before now, and nothing else changes |
| FarmerStaking.EpochAdvancedIdempotent | ContractsRevo/farmer-staking-contract/src/pool.rs:207-229 | advancing the epoch twice at the same time is the same as once |
| FarmerStaking.EpochAdvancedKeepsValid | ContractsRevo/farmer-staking-contract/src/pool.rs:207-229 | advancing the epoch keeps a pool well formed |
| FarmerStaking.StakedSumPut | ContractsRevo/farmer-staking-contract/src/staking.rs:140-144 | replacing one stake changes the staked sum by the difference |
| FarmerStaking.StakedSumRemove | ContractsRevo/farmer-staking-contract/src/staking.rs:237-241 | removing a stake lowers the staked sum by its amount |
| FarmerStaking.StakeWithinSum | ContractsRevo/farmer-staking-contract/src/staking.rs:220-232 | a single stake never exceeds the pool's staked sum, so the pool total never underflows |
| FarmerStaking.StakesValidPut | ContractsRevo/farmer-staking-contract/src/staking.rs:140-144 | writing a positive stake for a listed farmer keeps the pool's stakes well formed |
| FarmerStaking.StakesValidRemove | ContractsRevo/farmer-staking-contract/src/staking.rs:237-241 | removing a stake keeps the pool's stakes well formed |
| FarmerStaking.StakesValidEnlist | ContractsRevo/farmer-staking-contract/src/staking.rs:146-166 | appending a new farmer to the staker list keeps the stakes well formed |
| FarmerStaking.ReplacePoolKeepsValid | ContractsRevo/farmer-staking-contract/src/staking.rs:168-172 | rewriting one pool's record, stakes and list with well-formed values keeps every pool entry well formed |
| FarmerStaking.InitializePoolCheck | ContractsRevo/farmer-staking-contract/src/pool.rs:57-88 | a pool is created exactly for a positive reward rate, positive minimum stake, positive maximum lock and an unused id; a bad rate is reported first |
| FarmerStaking.StakeCheck | ContractsRevo/farmer-staking-contract/src/staking.rs:63-81 | a stake is accepted exactly for an existing unpaused pool, a positive amount of at least the minimum and a lock within the maximum, with the pause checked first |
| FarmerStaking.UnstakeCheck | ContractsRevo/farmer-staking-contract/src/staking.rs:187-216 | an unstake is accepted exactly for an existing pool and stake, 0 < amount <= stake and, for the normal path, an expired lock; a locked stake gives StakeLocked |
| FarmerStaking.ClaimCheck | ContractsRevo/farmer-staking-contract/src/rewards.rs:106-130 | a claim is accepted exactly when the pool and stake exist and something is pending after the epoch update |
| FarmerStaking.Deposited | ContractsRevo/farmer-staking-contract/src/staking.rs:111-140 | a top-up adds the amount, restarts the stake time and only ever lengthens the lock, taking the new lock period when it does |
| FarmerStaking.Withdrawn | ContractsRevo/farmer-staking-contract/src/staking.rs:220-241 | a partial withdrawal lowers the stake and recomputes its debt; a full one removes the stake; other farmers are untouched |
| FarmerStaking.WithdrawnKeepsValid | ContractsRevo/farmer-staking-contract/src/staking.rs:220-241 | a withdrawal keeps the stakes well formed and lowers the staked sum by exactly the amount |
| FarmerStaking.Enlisted | ContractsRevo/farmer-staking-contract/src/staking.rs:146-166 | after staking the farmer is in the staker list, which is unchanged if it was already there and otherwise gains the farmer at the end |
| FarmerStaking.DepositKeepsValid | ContractsRevo/farmer-staking-contract/src/staking.rs:111-172 | writing a positive stake keeps the stakes well formed and changes the staked sum by the difference |
| FarmerStaking.StakeKeepsEntry | ContractsRevo/farmer-staking-contract/src/staking.rs:84-172 | the full stake update keeps the pool entry well formed, with the pool total equal to the sum of stakes |
| FarmerStaking.NewStake | ContractsRevo/farmer-staking-contract/src/staking.rs:84-140 | the stake after a deposit keeps the farmer and pool, adds the amount, restarts the stake time and never shortens the unlock time |
| FarmerStaking.IsListed | ContractsRevo/farmer-staking-contract/src/staking.rs:150-160 | the loop reports true exactly when the farmer is already in the staker list |
| FarmerStaking.StakingContract.InitializePool | ContractsRevo/farmer-staking-contract/src/pool.rs:46-132 | on the check's error nothing changes; otherwise the new pool is stored with nothing staked and appended to the pool list |
| FarmerStaking.StakingContract.UpdateRewardRate | ContractsRevo/farmer-staking-contract/src/pool.rs:151-182 | a non-positive rate, a missing pool or a non-admin caller give the source's error and change nothing; otherwise the pool's rate becomes the new rate and its last reward update becomes now, nothing else changing |
| FarmerStaking.StakingContract.SetPaused | ContractsRevo/farmer-staking-contract/src/pool.rs:232-281 | a missing pool, a non-admin caller or a pool already in the requested state give the source's error; otherwise only the pause flag changes |
| FarmerStaking.StakingContract.UpdateEpoch | ContractsRevo/farmer-staking-contract/src/pool.rs:207-229 | a missing pool gives PoolNotFound; otherwise the epoch advances |
| FarmerStaking.StakingContract.StakeTokens | ContractsRevo/farmer-staking-contract/src/staking.rs:50-184 | on the check's error nothing changes; otherwise the pool total rises by the amount, the farmer's stake becomes the new stake and the farmer is listed; the pool total stays the sum of the stakes |
| FarmerStaking.StakingContract.Unstake | ContractsRevo/farmer-staking-contract/src/staking.rs:187-261 | on the check's error nothing changes; otherwise the pool total drops by the amount and the pool's epoch advances, the farmer's stake is the withdrawn stake (lowered by the amount, removed when emptied), no other pool or stake changes and the staker lists stay |
| FarmerStaking.StakingContract.EmergencyUnstake | ContractsRevo/farmer-staking-contract/src/staking.rs:264-329 | like unstake but ignoring the lock, with the same new pools, stakes and staker lists, and it returns 90% of the amount as the payout |
| FarmerStaking.StakingContract.ClaimRewards | ContractsRevo/farmer-staking-contract/src/rewards.rs:106-155 | on the check's error nothing changes; otherwise the pending reward is returned and credited to the stake's debt, and the staker lists stay |
| FarmerStaking.StakingContract.CompoundRewards | ContractsRevo/farmer-staking-contract/src/rewards.rs:158-210 | on the check's error nothing changes; otherwise the pending reward is added to the stake and to the pool total, and the staker lists stay |
| FarmerStaking.StakingContract.AprOf | ContractsRevo/farmer-staking-contract/src/rewards.rs:214-230 | a missing pool gives PoolNotFound; an empty pool's APR is 0 |
| YieldFarming.TierMultiplier | ContractsRevo/farmer-yield-farming-contract/src/lib.rs:298-306 | a tier boosts pending rewards by 100 to 120 percent, with no boost exactly for the Enterprise tier |
| YieldFarming.TierBoostNonIncreasing | ContractsRevo/farmer-yield-farming-contract/src/lib.rs:298-306 | a larger stake never gets a larger tier boost (the boost favours small farmers) |
| YieldFarming.LoyaltyBonus | ContractsRevo/farmer-yield-farming-contract/src/lib.rs:308-315 | the loyalty bonus is at most 2000, zero exactly before 7 days and 2000 exactly from 180 days |
| YieldFarming.LoyaltyBonusMonotone | ContractsRevo/farmer-yield-farming-contract/src/lib.rs:308-315 | a longer stake never earns a smaller loyalty bonus |
| YieldFarming.AccAt | ContractsRevo/farmer-yield-farming-contract/src/lib.rs:322-342 | the accumulated reward per share never falls, and is unchanged when no block has passed or nothing is staked |
| YieldFarming.UpdatePool | ContractsRevo/farmer-yield-farming-contract/src/lib.rs:322-342 | updating a farm changes only its accumulator and last reward block, the accumulator becomes the current accrual and the last reward block never passes now (it is now while the farm runs) |
| YieldFarming.AccAtAfterUpdate | ContractsRevo/farmer-yield-farming-contract/src/lib.rs:265-287 | after an update, the accrual computed at the same block (whatever is staked) is the stored accumulator |
| YieldFarming.UpdatePoolIdempotent | ContractsRevo/farmer-yield-farming-contract/src/lib.rs:322-342 | updating a farm twice in the same block is the same as once |
| YieldFarming.AccruedMonotone | ContractsRevo/farmer-yield-farming-contract/src/lib.rs:289 | a larger accumulator never accrues a smaller amount for the same stake |
| YieldFarming.Boosted | ContractsRevo/farmer-yield-farming-contract/src/lib.rs:289-295 | boosting keeps a positive base at least as large and a non-positive base non-positive |
| YieldFarming.BoostSign | ContractsRevo/farmer-yield-farming-contract/src/lib.rs:290 | the tier step alone (truncating division) keeps the sign and never shrinks a positive base |
| YieldFarming.CalcPending | ContractsRevo/farmer-yield-farming-contract/src/lib.rs:265-296 | an empty stake has nothing pending; something is pending exactly when the accrual exceeds the reward debt, and then it is at least the difference |
| YieldFarming.PendingUnchangedByUpdate | ContractsRevo/farmer-yield-farming-contract/src/lib.rs:265-296 | computing the pending reward against the updated farm gives the same value as against the stale one |
| YieldFarming.Staked | ContractsRevo/farmer-yield-farming-contract/src/lib.rs:125-151 | the corrected stake writes back the updated farm with the total raised by the amount, adds the amount to the farmer and restarts the stake time |
| YieldFarming.StakedAsWritten | ContractsRevo/farmer-yield-farming-contract/src/lib.rs:118-151 | as written, stake_lp writes back the farm it loaded before update_pool_internal, so the accumulator update is lost; only the total and the farmer's amount change |
| YieldFarming.StakeLeavesNothingPending | ContractsRevo/farmer-yield-farming-contract/src/lib.rs:125-151 | with the corrected write-back, nothing is pending right after a stake |
| YieldFarming.StakeAsWrittenPaysNewcomer | ContractsRevo/farmer-yield-farming-contract/src/lib.rs:118-151 | as written, a farmer who just staked already has a positive pending reward (the stale write-back lets rewards accrue a second time) |
| YieldFarming.TwoBlocksReward | ContractsRevo/farmer-yield-farming-contract/src/lib.rs:332-337 | at the base multipliers, a farm started at block 0 emits twice its reward per block over the first two blocks |
| YieldFarming.Unstaked | ContractsRevo/farmer-yield-farming-contract/src/lib.rs:173-199 | the corrected unstake (Findings): the farm total and the farmer's stake drop by the amount, the reward debt is recomputed from the updated accumulator and the updated farm is written back; as written the stale farm is stored (`UnstakedAsWritten`) |
| YieldFarming.UnstakeLeavesNothingPending | ContractsRevo/farmer-yield-farming-contract/src/lib.rs:173-199 | with the corrected write-back, nothing is pending right after an unstake |
| YieldFarming.UnstakedAsWritten | ContractsRevo/farmer-yield-farming-contract/src/lib.rs:158-201 | as written, unstake_lp stores the farm loaded before update_pool_internal with only the total lowered, and takes the remaining stake's debt against the old accumulator |
| YieldFarming.UnstakeAsWrittenLeavesPending | ContractsRevo/farmer-yield-farming-contract/src/lib.rs:158-201 | as written, two units staked alone for two blocks at one reward per block, one unstaked at block 2: a reward is still pending afterwards, for blocks already paid |
| YieldFarming.UnstakeReward | ContractsRevo/farmer-yield-farming-contract/src/lib.rs:180-181 | nothing is paid without pending rewards; the full pending reward after the minimum stake period, otherwise half of it rounded down |
| YieldFarming.Harvested | ContractsRevo/farmer-yield-farming-contract/src/lib.rs:217-220 | a harvest changes only the farmer's reward debt and last harvest block |
| YieldFarming.HarvestClearsPending | ContractsRevo/farmer-yield-farming-contract/src/lib.rs:207-220 | the corrected harvest, which sets the debt from the updated accumulator, leaves nothing pending |
| YieldFarming.HarvestAsWrittenPaysAgain | ContractsRevo/farmer-yield-farming-contract/src/lib.rs:203-225 | as written, the debt is set from the farm loaded before the update, so the same reward stays pending and a second harvest in the same block pays it again |
| YieldFarming.HarvestAsWrittenExample | ContractsRevo/farmer-yield-farming-contract/src/lib.rs:203-225 | a concrete farm and farmer for which the as-written harvest leaves the paid reward pending |
| YieldFarming.Retuned | ContractsRevo/farmer-yield-farming-contract/src/lib.rs:69-85 | the corrected update_farm (Findings): the pool is updated first and the updated farm stored with a positive reward rate and an in-range multiplier, other values ignored; as written the stale farm is stored (`RetunedAsWritten`) |
| YieldFarming.RetunedAsWritten | ContractsRevo/farmer-yield-farming-contract/src/lib.rs:69-85 | as written, update_farm stores the farm loaded before update_pool_internal with the new parameters, so the accumulator and last reward block stay stale |
| YieldFarming.RetuneAsWrittenRepricesPast | ContractsRevo/farmer-yield-farming-contract/src/lib.rs:69-85 | as written, doubling the rate at block 2 of a farm staked since block 0 doubles what those two blocks pay (4 instead of 2 per unit of precision) |
| YieldFarming.UserSumPut | ContractsRevo/farmer-yield-farming-contract/src/lib.rs:145-150 | replacing one farmer's record changes the sum of stakes by the difference |
| YieldFarming.UserSumRemove | ContractsRevo/farmer-yield-farming-contract/src/lib.rs:192-193 | removing a farmer's record lowers the sum of stakes by its amount |
| YieldFarming.UserWithinSum | ContractsRevo/farmer-yield-farming-contract/src/lib.rs:169-189 | a farmer's stake never exceeds the farm total, so the farm total never underflows |
| YieldFarming.UsersValidRaise | ContractsRevo/farmer-yield-farming-contract/src/lib.rs:322-342 | raising the accumulator keeps every farmer's reward debt within the accrual |
| YieldFarming.PendingNonNegative | ContractsRevo/farmer-yield-farming-contract/src/lib.rs:265-296 | for well-formed records the pending reward is never negative |
| YieldFarming.ReplaceFarmKeepsValid | ContractsRevo/farmer-yield-farming-contract/src/lib.rs:149-152 | rewriting one farm's record and users with well-formed values keeps every farm entry well formed |
| YieldFarming.CreateFarmCheck | ContractsRevo/farmer-yield-farming-contract/src/lib.rs:28-67 | creation succeeds exactly after initialization with a positive reward rate, an in-range multiplier and now <= start < end; parameters are checked before the block range |
| YieldFarming.StakeCheck | ContractsRevo/farmer-yield-farming-contract/src/lib.rs:109-123 | a stake is accepted exactly for an amount of at least the minimum on an unpaused farm within its block range, in that order |
| YieldFarming.UnstakeCheck | ContractsRevo/farmer-yield-farming-contract/src/lib.rs:161-171 | an unstake is accepted exactly for a positive amount within the farmer's stake; a non-positive amount is reported first |
| YieldFarming.HarvestCheck | ContractsRevo/farmer-yield-farming-contract/src/lib.rs:203-215 | a harvest is accepted exactly when the farm and farmer exist and something is pending; otherwise NoRewards |
| YieldFarming.EmergencyCheck | ContractsRevo/farmer-yield-farming-contract/src/lib.rs:227-233 | an emergency withdrawal is accepted exactly when enabled and the farm and farmer exist |
| YieldFarming.FarmingContract.PendingRewards | ContractsRevo/farmer-yield-farming-contract/src/lib.rs:251-263 | the pending reward is never negative, and is 0 for a missing farm or farmer |
| YieldFarming.FarmingContract.Initialize | ContractsRevo/farmer-yield-farming-contract/src/lib.rs:13-25 | a second call gives AlreadyInitialized and changes nothing; the first stores the admin and the default settings |
| YieldFarming.FarmingContract.CreateFarm | ContractsRevo/farmer-yield-farming-contract/src/lib.rs:28-67 | on the check's error nothing changes; otherwise a new farm with the next id is stored, unpaused and with nothing staked |
| YieldFarming.FarmingContract.UpdateFarm | ContractsRevo/farmer-yield-farming-contract/src/lib.rs:69-85 | without an admin or farm the call aborts and nothing changes; otherwise the farm is retuned with the corrected order (Findings) |
| YieldFarming.FarmingContract.SetFarmPaused | ContractsRevo/farmer-yield-farming-contract/src/lib.rs:87-92 | only the farm's pause flag changes |
| YieldFarming.FarmingContract.EndFarm | ContractsRevo/farmer-yield-farming-contract/src/lib.rs:94-103 | the farm's end block becomes now and it is marked inactive |
| YieldFarming.FarmingContract.UpdatePoolOf | ContractsRevo/farmer-yield-farming-contract/src/lib.rs:318-342 | a missing farm aborts; otherwise the farm is updated to the current block |
| YieldFarming.FarmingContract.StakeLp | ContractsRevo/farmer-yield-farming-contract/src/lib.rs:106-156 | on the check's error nothing changes; otherwise the farm and farmer records are the corrected stake's, the pending reward is returned as paid, and the farm total stays the sum of stakes |
| YieldFarming.FarmingContract.UnstakeLp | ContractsRevo/farmer-yield-farming-contract/src/lib.rs:158-201 | on the check's error nothing changes; otherwise, with the corrected write-back (Findings), the stake drops by the amount, an emptied record is removed and the possibly halved reward is returned |
| YieldFarming.FarmingContract.Harvest | ContractsRevo/farmer-yield-farming-contract/src/lib.rs:203-225 | corrected (Findings, ContractsRevo/farmer-yield-farming-contract/src/lib.rs:203-225): on the check's error nothing changes; otherwise the pending reward is returned and the farmer's debt is set from the updated accumulator |
| YieldFarming.FarmingContract.EmergencyWithdraw | ContractsRevo/farmer-yield-farming-contract/src/lib.rs:227-248 | if not enabled or the farm or farmer is missing, nothing changes; otherwise the farmer's whole stake is returned without rewards and the record removed |
| YieldFarming.FarmingContract.SetGlobalMultiplier | ContractsRevo/farmer-yield-farming-contract/src/lib.rs:370-376 | an out-of-range multiplier gives InvalidMultiplier and changes nothing; otherwise it is stored |
| YieldFarming.FarmingContract.SetEmergencyWithdraw | ContractsRevo/farmer-yield-farming-contract/src/lib.rs:378-382 | the emergency flag becomes the given value |
| EquipmentRental.NextStatus | ContractsRevo/equipment-rental-contract/src/rental.rs:98-153 | the lifecycle allows exactly Pending to Active (confirm), Pending to Cancelled (cancel) and Active to Completed (complete) |
| EquipmentRental.FinalStatesAreTerminal | ContractsRevo/equipment-rental-contract/src/rental.rs:98-153 | no move leaves Completed or Cancelled, and no move leads back to Pending |
| EquipmentRental.CreateCheckAsWritten | ContractsRevo/equipment-rental-contract/src/rental.rs:49-63 | as written, a rental is created exactly for available equipment in good repair that has never had a rental record |
| EquipmentRental.CreateCheck | ContractsRevo/equipment-rental-contract/src/rental.rs:49-63 | the corrected check accepts exactly available equipment in good repair without an open (pending or active) rental; it accepts everything the written check accepts and never a second open rental |
| EquipmentRental.ReRentalAsWrittenRefused | ContractsRevo/equipment-rental-contract/src/rental.rs:61-63 | as written, equipment whose rental has completed can never be rented again; the corrected check allows it |
| EquipmentRental.RentalRegistry.CreateRental | ContractsRevo/equipment-rental-contract/src/rental.rs:41-95 | corrected (Findings, ContractsRevo/equipment-rental-contract/src/rental.rs:61-63): on the check's error nothing changes, and only an open (Pending or Active) rental blocks the equipment; otherwise a Pending rental is stored for the equipment and appended to the equipment's and the renter's histories |
| EquipmentRental.RentalRegistry.Move | ContractsRevo/equipment-rental-contract/src/rental.rs:98-153 | a missing rental gives RentalNotFound; otherwise the status follows the lifecycle, and an illegal move changes nothing |
| EquipmentRental.RentalRegistry.ConfirmRental | ContractsRevo/equipment-rental-contract/src/rental.rs:98-113 | succeeds exactly for a Pending rental, which becomes Active; otherwise nothing changes |
| EquipmentRental.RentalRegistry.CompleteRental | ContractsRevo/equipment-rental-contract/src/rental.rs:116-135 | succeeds exactly for an Active rental of registered equipment, which becomes Completed while the equipment becomes available again; otherwise nothing changes |
| EquipmentRental.RentalRegistry.CancelRental | ContractsRevo/equipment-rental-contract/src/rental.rs:138-153 | succeeds exactly for a Pending rental, which becomes Cancelled; otherwise nothing changes |
| LandLeasing.AsU32 | ContractsRevo/land-leasing-contract/src/leasing.rs:177 | the u32 cast of the extension lands below 2^32 and keeps any value that fits |
| LandLeasing.CreateCheck | ContractsRevo/land-leasing-contract/src/leasing.rs:51-55 | a lease is created exactly for a positive duration, payment and size between two different parties; a zero duration is reported first |
| LandLeasing.PartyCheck | ContractsRevo/land-leasing-contract/src/leasing.rs:115-129 | terminate and extend proceed exactly for an existing Active lease and a caller who is its lessor or lessee; another caller gets the operation's unauthorized error |
| LandLeasing.Extended | ContractsRevo/land-leasing-contract/src/leasing.rs:176-177 | an extension adds the months to the duration and their u32 cast to the required payments, and changes nothing else |
| LandLeasing.ExtendedTwice | ContractsRevo/land-leasing-contract/src/leasing.rs:176-177 | extending by m1 then m2 months equals extending once by m1 + m2 while the sum fits in u32 |
| LandLeasing.ActiveLeasesExact | ContractsRevo/land-leasing-contract/src/leasing.rs:243-262 | the listing holds exactly the user's listed leases that are stored and Active |
| LandLeasing.ActiveLeasesShorter | ContractsRevo/land-leasing-contract/src/leasing.rs:243-262 | the listing is never longer than the user's list |
| LandLeasing.SamePartiesKeepValid | ContractsRevo/land-leasing-contract/src/leasing.rs:130-134 | rewriting leases without changing their ids or parties keeps the lease bookkeeping well formed |
| LandLeasing.NewLeaseKeepsValid | ContractsRevo/land-leasing-contract/src/leasing.rs:58-98 | storing the next-numbered lease and listing it under both parties keeps the lease bookkeeping well formed |
| LandLeasing.LeasingContract.CreateLease | ContractsRevo/land-leasing-contract/src/leasing.rs:37-107 | on the check's error nothing changes; otherwise the counter advances, the new Active lease, first payment due a month from now, no payments made and the duration (cast to u32) required, is stored under the new id, the land is marked leased and the id is appended to both parties' lists |
| LandLeasing.LeasingContract.TerminateLease | ContractsRevo/land-leasing-contract/src/leasing.rs:109-150 | on the check's error nothing changes; otherwise the lease becomes Terminated and its land, if registered, becomes available |
| LandLeasing.LeasingContract.ExtendLease | ContractsRevo/land-leasing-contract/src/leasing.rs:152-189 | on the check's error nothing changes; otherwise the lease is extended by the months |
| LandLeasing.LeasingContract.IncrementPaymentsMade | ContractsRevo/land-leasing-contract/src/leasing.rs:221-230 | a missing lease gives LeaseNotFound; otherwise only its payment count rises by one |
| LandLeasing.LeasingContract.UserActiveLeases | ContractsRevo/land-leasing-contract/src/leasing.rs:243-262 | the loop returns exactly the filtered listing of the user's active leases, in order |
| WaterManagement.AppendFresh | ContractsRevo/water-management-contract/src/water_usage.rs:5-79 | appending a new usage id keeps a farmer's and a parcel's usage lists free of duplicates |
| WaterManagement.PeriodCountAtMost | ContractsRevo/water-management-contract/src/water_usage.rs:121-148 | the report never counts more records than the listed ids |
| WaterManagement.NothingCountedNoVolume | ContractsRevo/water-management-contract/src/water_usage.rs:121-148 | a report that counts no record reports no volume |
| WaterManagement.PeriodVolumeFrame | ContractsRevo/water-management-contract/src/water_usage.rs:121-148 | storing a record whose id is not listed does not change a report over the listed ids |
| WaterManagement.RecordedUsageCounted | ContractsRevo/water-management-contract/src/water_usage.rs:5-79 | after a new record is stored and listed, the report's volume grows by exactly its volume when it falls in the period and parcel, and otherwise stays |
| WaterManagement.FloorAverage | ContractsRevo/water-management-contract/src/water_usage.rs:150-154 | the efficiency score is the floor of the mean: score·count <= sum < (score+1)·count |
| WaterManagement.PeriodRewardsNonNegative | ContractsRevo/water-management-contract/src/incentives.rs:117-137 | with every stored reward positive, a period's rewards total is never negative |
| WaterManagement.ThresholdCheck | ContractsRevo/water-management-contract/src/incentives.rs:181-188 | limits are accepted exactly when the daily limit is positive, the weekly at least 7 daily limits and the monthly at least 4 weekly limits; every failure is InvalidThreshold |
| WaterManagement.AutomaticOutcome | ContractsRevo/water-management-contract/src/incentives.rs:140-164 | the automatic incentive succeeds exactly when issuing succeeded or failed only for insufficient efficiency or an existing incentive; any other error is passed on |
| WaterManagement.FarmerAlertsExact | ContractsRevo/water-management-contract/src/alerts.rs:217-237 | the listing holds exactly the stored alerts listed under the farmer, resolved ones only when asked for |
| WaterManagement.AlertsFor | ContractsRevo/water-management-contract/src/alerts.rs:97-170 | a daily alert exactly when the day's total exceeds the daily limit, a weekly alert exactly when the week's total exceeds the weekly limit, a single-usage alert exactly when the record exceeds half the daily limit, each kind at most once |
| WaterManagement.MessageOf | ContractsRevo/water-management-contract/src/alerts.rs:97-170 | every alert kind has a non-empty message, so generating it never fails for an empty message |
| WaterManagement.WaterContract.RecordUsage | ContractsRevo/water-management-contract/src/water_usage.rs:5-79 | invalid input gives ValidationFailed and an existing id UsageAlreadyExists, changing nothing; otherwise the record is stored and its id appended to the farmer's and parcel's lists |
| WaterManagement.WaterContract.UsageReportOf | ContractsRevo/water-management-contract/src/water_usage.rs:90-169 | an empty or reversed period gives InvalidTimestamp; otherwise the report carries the volume, count and mean efficiency of the listed records in the period and parcel |
| WaterManagement.WaterContract.PeriodTotals | ContractsRevo/water-management-contract/src/water_usage.rs:121-148 | the loop computes exactly the period's total volume, record count and efficiency sum |
| WaterManagement.WaterContract.IssueIncentive | ContractsRevo/water-management-contract/src/incentives.rs:5-84 | a missing usage or an existing incentive give their errors and change nothing; otherwise an incentive is issued exactly when a threshold exists, the usage qualifies and the reward is positive |
| WaterManagement.WaterContract.FarmerRewards | ContractsRevo/water-management-contract/src/incentives.rs:117-137 | an empty or reversed period gives InvalidTimestamp; otherwise the result is the non-negative sum of the farmer's rewards in the period |
| WaterManagement.WaterContract.ProcessAutomaticIncentive | ContractsRevo/water-management-contract/src/incentives.rs:140-164 | an already-rewarded usage succeeds without change; a missing usage gives UsageNotFound and a missing threshold ThresholdNotFound; a usage that does not qualify succeeds without change; a qualifying one with a non-positive reward gives InvalidRewardAmount; otherwise the incentive is stored and listed exactly as issuing stores it; errors change nothing |
| WaterManagement.WaterContract.SetThreshold | ContractsRevo/water-management-contract/src/incentives.rs:167-209 | a non-admin caller gives Unauthorized; a threshold is stored exactly for the admin, a valid parcel and accepted limits |
| WaterManagement.WaterContract.GenerateAlert | ContractsRevo/water-management-contract/src/alerts.rs:5-68 | an existing alert id gives AlertAlreadyExists; an alert is stored unresolved and listed under the farmer exactly for valid ids and a non-empty message |
| WaterManagement.WaterContract.ResolveAlert | ContractsRevo/water-management-contract/src/alerts.rs:176-206 | a missing alert gives AlertNotFound; otherwise the alert is marked resolved and an already resolved one stays as it is |
| WaterManagement.WaterContract.FarmerAlertsOf | ContractsRevo/water-management-contract/src/alerts.rs:217-237 | the loop returns exactly the farmer's alert listing |
| WaterManagement.WaterContract.CheckUsageAndAlert | ContractsRevo/water-management-contract/src/alerts.rs:71-173 | a missing usage gives UsageNotFound and without a threshold nothing happens; otherwise the kinds the usage calls for are raised in order until the first whose parcel or alert id fails validation: the alerts are the earlier ones plus a new unresolved alert for each raised kind whose id was not stored, the farmer's list gains exactly those ids, and the call succeeds exactly when no kind failed (ValidationFailed otherwise, keeping what was raised) |
| WaterManagement.ValidPrefix | ContractsRevo/water-management-contract/src/alerts.rs:13-15 | the kinds raised before the first failing identifier check all pass it, the next one fails, and every kind is raised exactly when all pass |
| WaterManagement.WaterContract.RaiseAlerts | ContractsRevo/water-management-contract/src/alerts.rs:97-170 | the stored ids become the earlier ones plus each kind's id; earlier alerts are unchanged, each new one is the generated alert, and the farmer's list gains exactly the new ids in order |
| WaterManagement.WaterContract.RaiseAlert | ContractsRevo/water-management-contract/src/alerts.rs:97-115 | an already stored id changes nothing; otherwise the generated alert is stored under its id and the id appended to the farmer's list, nothing else changing |
| WaterManagement.SuffixCode | ContractsRevo/water-management-contract/src/alerts.rs:240-269 | each kind's suffix contributes eight bytes, below 2^64 |
| WaterManagement.AlertIdsDistinct | ContractsRevo/water-management-contract/src/alerts.rs:240-269 | the alerts of different kinds raised by one call get different ids |
| WaterManagement.NewAlert | ContractsRevo/water-management-contract/src/alerts.rs:97-170 | a generated alert carries its derived id, the usage's farmer and parcel, the type of its kind, a non-empty message and the time, unresolved |
| WaterManagement.FreshIdsExact | ContractsRevo/water-management-contract/src/alerts.rs:97-170 | the farmer's list gains exactly the ids of the raised kinds not stored before, each once |
| WaterManagement.RaisedKeys | ContractsRevo/water-management-contract/src/alerts.rs:97-170 | raising kinds adds exactly their ids to the stored alerts |
| WaterManagement.RaisedKeepsStored | ContractsRevo/water-management-contract/src/alerts.rs:5-68 | raising never changes an alert already stored (an existing id is refused) |
| WaterManagement.RaisedNew | ContractsRevo/water-management-contract/src/alerts.rs:97-170 | each kind raised whose id was free is stored as the generated alert |
| WaterManagement.ListedAfter | ContractsRevo/water-management-contract/src/alerts.rs:50-57 | appending ids to one farmer's list leaves every other farmer's list unchanged |
| PriceStabilization.RecentTimestamp | ContractsRevo/price-stabilization-contract/src/utils.rs:100-111 | a price timestamp is accepted exactly when it is not in the future and at most an hour old |
| PriceStabilization.PriceDifference | ContractsRevo/price-stabilization-contract/src/utils.rs:24-51 | the difference is never negative, positive exactly when the price is below the threshold, and then closes the gap exactly |
| PriceStabilization.BelowThreshold | ContractsRevo/price-stabilization-contract/src/pricing.rs:103-129 | the threshold check reports a price below the threshold exactly when the payout difference is positive |
| PriceStabilization.ChainlinkCheck | ContractsRevo/price-stabilization-contract/src/utils.rs:136-165 | a Chainlink round is accepted exactly for a positive price, a timestamp not in the future and within the staleness period, and a non-zero round id; only an old timestamp gives StalePriceData |
| PriceStabilization.Pow10 | ContractsRevo/price-stabilization-contract/src/utils.rs:175 | the conversion factor is at least 1 |
| PriceStabilization.ConvertChainlinkPrice | ContractsRevo/price-stabilization-contract/src/utils.rs:168-181 | conversion fails with InvalidChainlinkResponse exactly for more than 8 decimals |
| PriceStabilization.MulDivExact | ContractsRevo/price-stabilization-contract/src/utils.rs:175-179 | scaling up by a positive factor and back down is exact |
| PriceStabilization.ConvertChainlinkExact | ContractsRevo/price-stabilization-contract/src/utils.rs:168-181 | a conversion with at most 8 decimals succeeds, loses nothing (dividing by the factor gives the original price back), keeps the sign and is the identity at 8 decimals |
| PriceStabilization.ConvertChainlinkMonotone | ContractsRevo/price-stabilization-contract/src/utils.rs:168-181 | conversion preserves the order of prices |
| PriceStabilization.EligibleFarmersExact | ContractsRevo/price-stabilization-contract/src/distribution.rs:61-83 | a farmer is paid exactly when listed, registered, active and growing the fund's crop |
| PriceStabilization.EligiblePayoutCovered | ContractsRevo/price-stabilization-contract/src/distribution.rs:61-106 | the total paid to the eligible farmers never exceeds the difference times the capacity summed over the whole list |
| PriceStabilization.Credited | ContractsRevo/price-stabilization-contract/src/distribution.rs:111-135 | crediting the payouts keeps the set of registered farmers |
| PriceStabilization.ReceivedUpdate | ContractsRevo/price-stabilization-contract/src/distribution.rs:120-130 | updating one farmer changes only that farmer's received total |
| PriceStabilization.CreditedConserves | ContractsRevo/price-stabilization-contract/src/distribution.rs:92-135 | the farmers' received totals grow by exactly the total paid |
| PriceStabilization.CreditedOthersUnchanged | ContractsRevo/price-stabilization-contract/src/distribution.rs:111-135 | a farmer who is not paid is unchanged |
| PriceStabilization.ListedTwicePaidTwice | ContractsRevo/price-stabilization-contract/src/distribution.rs:61-135 | the farmer list is not deduplicated: an eligible farmer listed twice is paid twice |
| PriceStabilization.PayoutCheck | ContractsRevo/price-stabilization-contract/src/distribution.rs:20-50 | the payout proceeds exactly for an existing fund, its admin as caller, a non-empty list and a stored price below the threshold; a price at or above the threshold gives ThresholdNotReached |
| PriceStabilization.StabilizationContract.AdminCheck | ContractsRevo/price-stabilization-contract/src/fund.rs:16-23 | an admin-only call proceeds exactly for the stored admin; with no admin stored it aborts |
| PriceStabilization.StabilizationContract.CreateFund | ContractsRevo/price-stabilization-contract/src/fund.rs:9-77 | a fund is created exactly for the admin, a positive threshold, non-empty name and crop, and an unused id; a used id gives FundAlreadyExists; errors change nothing |
| PriceStabilization.StabilizationContract.ContributeFund | ContractsRevo/price-stabilization-contract/src/fund.rs:79-134 | a non-positive amount gives InvalidInput; a contribution succeeds exactly for an existing active fund, raising its balance and the contributor's total by the amount |
| PriceStabilization.StabilizationContract.FundStatusOf | ContractsRevo/price-stabilization-contract/src/fund.rs:136-170 | fails exactly for a missing fund; otherwise reports its balance, threshold, creation time and last payout time |
| PriceStabilization.StabilizationContract.UpdatePriceThreshold | ContractsRevo/price-stabilization-contract/src/fund.rs:172-207 | succeeds exactly for a positive threshold on an existing fund by its admin, changing only the threshold |
| PriceStabilization.StabilizationContract.RegisterPriceOracle | ContractsRevo/price-stabilization-contract/src/pricing.rs:9-34 | succeeds exactly for the admin and a non-empty crop, recording the oracle for the crop |
| PriceStabilization.StabilizationContract.UpdateMarketPrice | ContractsRevo/price-stabilization-contract/src/pricing.rs:36-80 | bad price, crop or timestamp give InvalidInput, a crop without oracle OracleNotRegistered; a price is stored exactly when it comes from the crop's oracle |
| PriceStabilization.StabilizationContract.CheckPriceThreshold | ContractsRevo/price-stabilization-contract/src/pricing.rs:103-129 | fails for a missing fund or price; otherwise reports whether the price is below the fund's threshold |
| PriceStabilization.StabilizationContract.RegisterChainlinkFeed | ContractsRevo/price-stabilization-contract/src/pricing.rs:131-173 | a feed is registered exactly for the admin, non-empty crop and description and an unregistered crop; a registered crop gives FundAlreadyExists |
| PriceStabilization.StabilizationContract.UpdateChainlinkPrice | ContractsRevo/price-stabilization-contract/src/pricing.rs:201-250 | a round is stored exactly for a positive price from the crop's registered feed that passes the Chainlink checks |
| PriceStabilization.StabilizationContract.ChainlinkPriceOf | ContractsRevo/price-stabilization-contract/src/pricing.rs:175-199 | fails for an empty crop, an unknown feed, an inactive feed or a missing or unconvertible round, in that order; otherwise returns the converted price |
| PriceStabilization.StabilizationContract.RegisterFarmer | ContractsRevo/price-stabilization-contract/src/distribution.rs:155-190 | a non-admin gets Unauthorized; registration succeeds exactly for a new farmer, who starts active with nothing received |
| PriceStabilization.StabilizationContract.RegisterFarmerCrop | ContractsRevo/price-stabilization-contract/src/distribution.rs:192-231 | succeeds exactly for a non-empty crop, positive capacity, a registered farmer and a new farmer-crop pair; an existing pair gives CropAlreadyRegistered |
| PriceStabilization.StabilizationContract.CheckFundSufficiency | ContractsRevo/price-stabilization-contract/src/utils.rs:54-97 | fails for a missing fund or price; otherwise reports sufficient exactly when no payout is due or the balance covers the difference times the listed farmers' capacity |
| PriceStabilization.StabilizationContract.CollectEligible | ContractsRevo/price-stabilization-contract/src/distribution.rs:61-83 | the loop collects exactly the eligible farmers, in list order |
| PriceStabilization.StabilizationContract.SumPayouts | ContractsRevo/price-stabilization-contract/src/distribution.rs:92-102 | the loop computes exactly the total payout |
| PriceStabilization.StabilizationContract.PayFarmers | ContractsRevo/price-stabilization-contract/src/distribution.rs:111-140 | the loop credits each paid farmer and records each payout |
| PriceStabilization.StabilizationContract.TriggerPayout | ContractsRevo/price-stabilization-contract/src/distribution.rs:11-153 | on the check's error nothing changes; no eligible farmer gives FarmerNotRegistered and a short balance InsufficientFunds; otherwise the fund pays the total, records the payout time, and every eligible farmer is credited |
| AgriQuality.ConditionsCheck | ContractsRevo/agricultural-quality-contract/src/verification.rs:66-69 | a submission is accepted exactly with 1 to 8 conditions, else InvalidInput |
| AgriQuality.InspectionOverall | ContractsRevo/agricultural-quality-contract/src/verification.rs:143-149 | the overall inspection score is 0 without metrics and otherwise the floor of the mean score |
| AgriQuality.ScoreSumAtMost | ContractsRevo/agricultural-quality-contract/src/verification.rs:143-149 | scores bounded by b sum to at most b times their number |
| AgriQuality.InspectionOverallAtMost | ContractsRevo/agricultural-quality-contract/src/verification.rs:143-149 | the overall score never exceeds the largest possible metric score |
| AgriQuality.MetricCheck | ContractsRevo/agricultural-quality-contract/src/quality_metrics.rs:20-25 | a metric is valid exactly when its minimum score and weight are at most 100 |
| AgriQuality.ScoreOf | ContractsRevo/agricultural-quality-contract/src/quality_metrics.rs:350-361 | a metric's score is the first reported score with its name, or 0 when none is reported |
| AgriQuality.TimeFactorAsWritten | ContractsRevo/agricultural-quality-contract/src/quality_metrics.rs:363-374 | as written, the decay days·(1/100) is computed in integers, so 1/100 is 0 and the score never decays |
| AgriQuality.TimeFactor | ContractsRevo/agricultural-quality-contract/src/quality_metrics.rs:363-374 | the intended 1%-per-day decay: never above the base, unchanged at day 0, zero from day 100, and strictly lower for a positive base after a day |
| AgriQuality.TimeFactorMonotone | ContractsRevo/agricultural-quality-contract/src/quality_metrics.rs:363-374 | an older certification never scores higher |
| AgriQuality.AdjustedScore | ContractsRevo/agricultural-quality-contract/src/quality_metrics.rs:376-394 | the standard-specific score is at most 100; Organic and NonGMO fail to 0 below 95% of the minimum, Kosher is 100 or 0 by the minimum |
| AgriQuality.MetricScoreAsWritten | ContractsRevo/agricultural-quality-contract/src/quality_metrics.rs:332-398 | the metric score as written is at most 100 |
| AgriQuality.MetricScore | ContractsRevo/agricultural-quality-contract/src/quality_metrics.rs:332-398 | the corrected metric score (with decay) is at most 100 |
| AgriQuality.MetricScoreAsWrittenIgnoresAge | ContractsRevo/agricultural-quality-contract/src/quality_metrics.rs:363-374 | as written, a certification's age has no effect on any metric score |
| AgriQuality.DecayIgnoredExample | ContractsRevo/agricultural-quality-contract/src/quality_metrics.rs:363-374 | a 30-day-old GlobalGAP score of 80 stays 80 as written, where the intended decay gives 56 |
| AgriQuality.Scores | ContractsRevo/agricultural-quality-contract/src/quality_metrics.rs:285-288 | one score per metric, each the metric's score and at most 100 |
| AgriQuality.Named | ContractsRevo/agricultural-quality-contract/src/quality_metrics.rs:285-300 | the report pairs each metric's name with its score, in order |
| AgriQuality.WeightedTotalBetween | ContractsRevo/agricultural-quality-contract/src/quality_metrics.rs:285-310 | with every score between lo and hi, the weighted total lies between lo and hi times the total weight |
| AgriQuality.WeightedStep | ContractsRevo/agricultural-quality-contract/src/quality_metrics.rs:285-300 | adding one weighted score keeps the running total between lo and hi times the running weight |
| AgriQuality.MeanBetween | ContractsRevo/agricultural-quality-contract/src/quality_metrics.rs:306-310 | a weighted mean of values between lo and hi lies between lo and hi |
| AgriQuality.WeightedMeanBetween | ContractsRevo/agricultural-quality-contract/src/quality_metrics.rs:306-310 | the compliance score never exceeds the highest metric score, and with positive weight is at least the lowest |
| AgriQuality.NoFindingsIffCompliant | ContractsRevo/agricultural-quality-contract/src/quality_metrics.rs:285-300 | there are no findings exactly when every metric meets its minimum, and never more findings than metrics |
| AgriQuality.BelowMinimumSameLength | ContractsRevo/agricultural-quality-contract/src/quality_metrics.rs:289-298 | findings and recommendations come in equal number |
| AgriQuality.ScoringStep | ContractsRevo/agricultural-quality-contract/src/quality_metrics.rs:285-300 | one loop step adds the metric's weighted score, weight, named score and, when below minimum, one finding and one recommendation |
| AgriQuality.ScoreMetrics | ContractsRevo/agricultural-quality-contract/src/quality_metrics.rs:278-310 | the scoring loop computes exactly the weighted total, the total weight, the named scores, the findings and the recommendations |
| AgriQuality.LookUpMetrics | ContractsRevo/agricultural-quality-contract/src/quality_metrics.rs:225-247 | the lookup loop returns exactly the stored metrics of the listed names, in order |
| AgriQuality.ListedAllFound | ContractsRevo/agricultural-quality-contract/src/quality_metrics.rs:225-247 | when every listed name is stored, the lookup returns one metric per name |
| AgriQuality.NewMetricListed | ContractsRevo/agricultural-quality-contract/src/quality_metrics.rs:161-175 | registering a metric keeps every stored metric listed under its standard |
| AgriQuality.NewMetricResolves | ContractsRevo/agricultural-quality-contract/src/quality_metrics.rs:161-175 | registering a new metric keeps every listed name resolvable and unique |
| AgriQuality.NewMetricKeepsValid | ContractsRevo/agricultural-quality-contract/src/quality_metrics.rs:132-181 | registering a new valid metric keeps the metric store well formed |
| AgriQuality.ChangedMetricKeepsValid | ContractsRevo/agricultural-quality-contract/src/quality_metrics.rs:207-214 | updating a metric's minimum and weight and bumping its version keeps the store well formed |
| AgriQuality.ListedOfValid | ContractsRevo/agricultural-quality-contract/src/quality_metrics.rs:225-247 | in a well-formed store a standard's listing returns exactly its metrics, all of that standard |
| AgriQuality.SameHoldersKeepValid | ContractsRevo/agricultural-quality-contract/src/verification.rs:214-232 | rewriting certifications without changing holders keeps the holder lists well formed |
| AgriQuality.HistoryOfHolder | ContractsRevo/agricultural-quality-contract/src/verification.rs:240-262 | the history of a holder's listed ids is exactly their certifications, in order |
| AgriQuality.ValidateEvidence | ContractsRevo/agricultural-quality-contract/src/dispute_handling.rs:37-50 | evidence is accepted exactly when non-empty with no all-zero hash, else InvalidEvidence |
| AgriQuality.ResolvedStatus | ContractsRevo/agricultural-quality-contract/src/resolution.rs:76-97 | Revoked revokes the certification, RequireReinspection makes it Pending again, Upheld, Modified and Dismissed keep it Active, and Pending is refused |
| AgriQuality.ModifiedScore | ContractsRevo/agricultural-quality-contract/src/resolution.rs:83-87 | a Modified outcome lowers the audit score to 90%, rounded down, strictly lower when positive |
| AgriQuality.Compensation | ContractsRevo/agricultural-quality-contract/src/resolution.rs:18-43 | no compensation for Upheld, Dismissed or Pending; 1000 per audit point when Revoked, 500 when Modified, 25000 for reinspection |
| AgriQuality.CompensationBounded | ContractsRevo/agricultural-quality-contract/src/resolution.rs:18-43 | with an audit score of at most 100 compensation is at most 100000, and revocation never pays less than modification |
| AgriQuality.FileAsWritten | ContractsRevo/agricultural-quality-contract/src/dispute_handling.rs:105-110 | as written, file_dispute stores the dispute in persistent storage and leaves instance storage unchanged |
| AgriQuality.AssignLookupAsWritten | ContractsRevo/agricultural-quality-contract/src/dispute_handling.rs:218-224 | as written, assign_mediator finds a dispute only in instance storage |
| AgriQuality.FiledDisputeNotFoundAsWritten | ContractsRevo/agricultural-quality-contract/src/dispute_handling.rs:52-248 | as written, a freshly filed dispute is never found by assign_mediator, so no dispute can reach review or resolution |
| AgriQuality.QualityContract.RecordInspectionCheck | ContractsRevo/agricultural-quality-contract/src/verification.rs:120-141 | an inspection is accepted exactly from a registered inspector for a stored Pending certification, with the inspector checked first |
| AgriQuality.QualityContract.ProcessCheck | ContractsRevo/agricultural-quality-contract/src/verification.rs:174-199 | processing is accepted exactly for a registered issuer and a stored Pending certification with an inspection |
| AgriQuality.QualityContract.SubmitForCertification | ContractsRevo/agricultural-quality-contract/src/verification.rs:53-118 | bad conditions give InvalidInput and a used id AlreadyExists, changing nothing; otherwise a Pending certification is stored and listed under the holder |
| AgriQuality.QualityContract.RecordInspection | ContractsRevo/agricultural-quality-contract/src/verification.rs:120-172 | errors are the check's and change nothing; succeeds exactly when the check passes, storing the inspection with its mean score |
| AgriQuality.QualityContract.ProcessCertification | ContractsRevo/agricultural-quality-contract/src/verification.rs:174-238 | errors are the check's and change nothing; otherwise the certification becomes Active when approved and Revoked when not, takes the inspection's score, and is listed under the issuer; it cannot be processed again |
| AgriQuality.QualityContract.CertificationHistory | ContractsRevo/agricultural-quality-contract/src/verification.rs:240-262 | the loop returns the holder's certifications in listing order, one per listed id, all held by the holder |
| AgriQuality.QualityContract.UpdateCheck | ContractsRevo/agricultural-quality-contract/src/quality_metrics.rs:183-206 | an update is accepted exactly from a registered authority with valid values for an existing metric it registered |
| AgriQuality.QualityContract.RegisterMetric | ContractsRevo/agricultural-quality-contract/src/quality_metrics.rs:132-181 | a non-authority gets Unauthorized, invalid values InvalidInput and an existing metric AlreadyExists; otherwise version 1 is stored and listed under the standard |
| AgriQuality.QualityContract.UpdateMetric | ContractsRevo/agricultural-quality-contract/src/quality_metrics.rs:183-223 | errors are the check's and change nothing; otherwise minimum and weight change and the version rises by one |
| AgriQuality.QualityContract.StandardMetrics | ContractsRevo/agricultural-quality-contract/src/quality_metrics.rs:225-247 | returns exactly the standard's stored metrics in listing order |
| AgriQuality.QualityContract.CheckCompliance | ContractsRevo/agricultural-quality-contract/src/quality_metrics.rs:249-329 | corrected (Findings, ContractsRevo/agricultural-quality-contract/src/quality_metrics.rs:363-374): a non-inspector gets Unauthorized and a missing certification NotFound; otherwise the report carries the named scores, decayed by 1% per day of inspection age, the weighted mean (at most 100) and one finding and recommendation per metric below its minimum |
| AgriQuality.QualityContract.AssignCheck | ContractsRevo/agricultural-quality-contract/src/dispute_handling.rs:198-229 | corrected (Findings, ContractsRevo/agricultural-quality-contract/src/dispute_handling.rs:93-120): with filed disputes in the one dispute store, assignment is accepted exactly for a registered authority and mediator and a Filed dispute |
| AgriQuality.QualityContract.ResolveCheck | ContractsRevo/agricultural-quality-contract/src/resolution.rs:45-97 | with the corrected single certification store (Findings), resolution is accepted exactly for the dispute's registered mediator, an UnderReview dispute with a stored certification and a non-Pending outcome |
| AgriQuality.QualityContract.AppealCheck | ContractsRevo/agricultural-quality-contract/src/resolution.rs:116-145 | an appeal is accepted exactly from a party to a Resolved dispute with an appeal deadline that has not passed |
| AgriQuality.QualityContract.FileDispute | ContractsRevo/agricultural-quality-contract/src/dispute_handling.rs:52-129 | bad evidence gives InvalidEvidence and a missing certification NotFound; otherwise a Filed dispute against the holder is stored where mediator assignment finds it, and listed by holder and standard |
| AgriQuality.QualityContract.SubmitEvidence | ContractsRevo/agricultural-quality-contract/src/dispute_handling.rs:131-196 | a missing dispute gives NotFound and a non-party Unauthorized; otherwise the evidence is recorded and its hash added to the dispute |
| AgriQuality.QualityContract.AssignMediator | ContractsRevo/agricultural-quality-contract/src/dispute_handling.rs:198-248 | corrected (Findings, ContractsRevo/agricultural-quality-contract/src/dispute_handling.rs:93-120): with filed disputes in the one dispute store, errors are the check's; otherwise the dispute goes UnderReview with the mediator and a 7-day appeal deadline |
| AgriQuality.QualityContract.ResolveDispute | ContractsRevo/agricultural-quality-contract/src/resolution.rs:45-114 | with the corrected single certification store (Findings): errors are the check's; otherwise the dispute is Resolved with the outcome, the certification takes the outcome's status (Pending for RequireReinspection) and a Modified outcome lowers its score |
| AgriQuality.QualityContract.ProcessAppeal | ContractsRevo/agricultural-quality-contract/src/resolution.rs:116-162 | errors are the check's; otherwise the dispute is Appealed with the new evidence added and cannot be appealed again |
| AgriQuality.QualityContract.CompensationOf | ContractsRevo/agricultural-quality-contract/src/resolution.rs:164-187 | with the corrected single certification store (Findings): a missing dispute gives NotFound and an unresolved one InvalidStatus; Upheld and Dismissed pay nothing, and for an audit score of at most 100 the amount never exceeds 100000 |
| AgriQuality.StoreCertAsWritten | ContractsRevo/agricultural-quality-contract/src/verification.rs:95-99 | as written, the verification code stores a certification in persistent storage only |
| AgriQuality.ResolutionCertAsWritten | ContractsRevo/agricultural-quality-contract/src/resolution.rs:71-73 | as written, the resolution code finds a certification only in instance storage |
| AgriQuality.ResolutionStoreAsWritten | ContractsRevo/agricultural-quality-contract/src/resolution.rs:104 | as written, the resolution code writes the certification to instance storage, leaving the persistent copy |
| AgriQuality.CertNotFoundAsWritten | ContractsRevo/agricultural-quality-contract/src/resolution.rs:71-104 | as written, a certification stored by the verification code is not found by resolve_dispute, and a resolution write leaves the persistent copy record_inspection reads unchanged |
| AgriQuality.QualityContract.TrackEnforcementCheck | ContractsRevo/agricultural-quality-contract/src/resolution.rs:189-223 | enforcement is recorded exactly for a registered authority and a Resolved dispute |
| Cooperative.IncreasingHasNoDuplicates | ContractsRevo/cooperative-management-contract/src/resource_sharing.rs:54-55 | owner lists built from an increasing counter hold no id twice |
| Cooperative.RegisterKeepsConsistent | ContractsRevo/cooperative-management-contract/src/resource_sharing.rs:20-58 | registering under the next counter value uses a fresh key and keeps resources, counter and owner lists consistent |
| Cooperative.RegisterKeepsStored | ContractsRevo/cooperative-management-contract/src/resource_sharing.rs:25-44 | a freshly registered resource never overwrites a stored one, and every stored id stays within the counter |
| Cooperative.RegisterKeepsComplete | ContractsRevo/cooperative-management-contract/src/resource_sharing.rs:46-55 | after registration every stored resource is still listed under its owner |
| Cooperative.RegisterKeepsSound | ContractsRevo/cooperative-management-contract/src/resource_sharing.rs:46-55 | after registration every listed id still names a stored resource of that owner |
| Cooperative.ReplaceKeepsConsistent | ContractsRevo/cooperative-management-contract/src/resource_sharing.rs:68-160 | rewriting a stored resource without changing its owner keeps the store consistent |
| Cooperative.BorrowCheck | ContractsRevo/cooperative-management-contract/src/resource_sharing.rs:68-97 | borrowing is accepted exactly for a member and a stored available resource; a member who is refused gets ResourceNotAvailable, also for a missing resource |
| Cooperative.ReturnCheck | ContractsRevo/cooperative-management-contract/src/resource_sharing.rs:99-123 | returning is accepted exactly for a stored resource by its owner or its current borrower; a missing resource gives ResourceNotAvailable |
| Cooperative.ScheduleCheck | ContractsRevo/cooperative-management-contract/src/resource_sharing.rs:125-160 | scheduling is accepted exactly for a member, a stored available resource and a free slot; TimeSlotConflict exactly when the slot is already booked |
| Cooperative.MaintenanceCheck | ContractsRevo/cooperative-management-contract/src/resource_sharing.rs:162-192 | maintenance is accepted exactly for a stored resource recorded with the caller as owner; a missing one gives ResourceNotFound |
| Cooperative.MaintenanceOnlyByOwner | ContractsRevo/cooperative-management-contract/src/resource_sharing.rs:162-192 | in a consistent store only the owner in the key may log maintenance |
| Cooperative.RegisteredCanBeBorrowed | ContractsRevo/cooperative-management-contract/src/resource_sharing.rs:20-97 | a newly registered resource can be borrowed by any member |
| Cooperative.LentUntilReturned | ContractsRevo/cooperative-management-contract/src/resource_sharing.rs:68-160 | once lent, the borrower may return it while no member can borrow or schedule it |
| Cooperative.ReturnedCanBeBorrowed | ContractsRevo/cooperative-management-contract/src/resource_sharing.rs:99-123 | once returned, any member can borrow the resource again |
| Cooperative.BookedSlotConflicts | ContractsRevo/cooperative-management-contract/src/resource_sharing.rs:125-160 | once a slot is booked, booking it again gives TimeSlotConflict |
| Cooperative.LendKeepsConsistent | ContractsRevo/cooperative-management-contract/src/resource_sharing.rs:81-90 | lending keeps the store consistent |
| Cooperative.ReleaseKeepsConsistent | ContractsRevo/cooperative-management-contract/src/resource_sharing.rs:106-118 | returning keeps the store consistent |
| Cooperative.BookKeepsConsistent | ContractsRevo/cooperative-management-contract/src/resource_sharing.rs:139-153 | booking a free slot keeps the store consistent |
| Cooperative.CooperativeContract.RegisterResource | ContractsRevo/cooperative-management-contract/src/resource_sharing.rs:20-58 | always succeeds: the counter rises by one, an available unborrowed resource is stored under a fresh key and its id appended to the owner's list |
| Cooperative.CooperativeContract.ResourcesByOwner | ContractsRevo/cooperative-management-contract/src/resource_sharing.rs:60-66 | an id is listed for an owner exactly when that owner has a stored resource with it, increasing and without duplicates |
| Cooperative.CooperativeContract.BorrowResource | ContractsRevo/cooperative-management-contract/src/resource_sharing.rs:68-97 | errors are the check's and change nothing; otherwise the resource is marked unavailable with the borrower |
| Cooperative.CooperativeContract.ReturnResource | ContractsRevo/cooperative-management-contract/src/resource_sharing.rs:99-123 | errors are the check's and change nothing; otherwise the resource is available again with no borrower |
| Cooperative.CooperativeContract.ScheduleResource | ContractsRevo/cooperative-management-contract/src/resource_sharing.rs:125-160 | errors are the check's and change nothing; otherwise the slot is appended to the resource's schedule |
| Cooperative.CooperativeContract.TrackMaintenance | ContractsRevo/cooperative-management-contract/src/resource_sharing.rs:162-192 | errors are the check's and change nothing; otherwise the details are appended to the owner's maintenance log |
| ProductAuction.NewAuction | ContractsRevo/product-auction-contract/src/product_auction.rs:26-39 | a new auction belongs to the seller and product, keeps the reserve price and end time, and has no bid yet |
| ProductAuction.BidCheck | ContractsRevo/product-auction-contract/src/product_auction.rs:45-75 | a bid is accepted exactly on a stored auction, from someone other than the seller, not after the end time, above the highest bid and at least the reserve price; the seller gets InvalidBidder and a bid not above the highest gets BidTooLow |
| ProductAuction.AcceptedBidRaises | ContractsRevo/product-auction-contract/src/product_auction.rs:45-90 | an accepted bid keeps the auction well formed, strictly raises the highest bid, and the same amount cannot be bid again |
| ProductAuction.ExtendCheck | ContractsRevo/product-auction-contract/src/product_auction.rs:92-125 | an extension is accepted exactly on a stored auction ending more than the minimum extension time from now and moved strictly later; one ending within that time gets TooLateToExtend |
| ProductAuction.ExtensionKeepsBidsOpen | ContractsRevo/product-auction-contract/src/product_auction.rs:92-138 | an extension strictly postpones the end, and every bid accepted before it is still accepted |
| ProductAuction.FinalizeCheck | ContractsRevo/product-auction-contract/src/product_auction.rs:140-175 | finalization is accepted exactly on an ended auction with a bidder and a product in stock; before the end AuctionNotYetEnded, without bids NoBidsPlaced |
| ProductAuction.FinalizedWinnerMetReserve | ContractsRevo/product-auction-contract/src/product_auction.rs:140-175 | the winner of a finalized auction is not the seller and paid a positive bid of at least the reserve price |
| ProductAuction.BidAndFinalizeBothOpenAtEnd | ContractsRevo/product-auction-contract/src/product_auction.rs:66-160 | at exactly the end time a higher bid is still accepted and finalization is also accepted |
| ProductAuction.AuctionHouse.CreateAuction | ContractsRevo/product-auction-contract/src/product_auction.rs:11-43 | an existing auction gives AuctionAlreadyExists and changes nothing; otherwise a new auction with no bid is stored |
| ProductAuction.AuctionHouse.PlaceBid | ContractsRevo/product-auction-contract/src/product_auction.rs:45-90 | errors are the check's and change nothing; otherwise the bidder becomes the highest bidder with the amount |
| ProductAuction.AuctionHouse.ExtendAuction | ContractsRevo/product-auction-contract/src/product_auction.rs:92-138 | errors are the check's and change nothing; otherwise only the end time changes |
| ProductAuction.AuctionHouse.FinalizeAuction | ContractsRevo/product-auction-contract/src/product_auction.rs:140-190 | errors are the check's and change nothing; otherwise the product's stock falls by one and the auction is removed |
| PurchaseReview.Editable | ContractsRevo/purchase-review-contract/src/verification.rs:196-211 | a missing review gives ReviewNotFound; a review not dated in the future is editable exactly while the elapsed time is within the edit window |
| PurchaseReview.EditWindowStaysClosed | ContractsRevo/purchase-review-contract/src/verification.rs:196-211 | once the edit window has closed it stays closed |
| PurchaseReview.PreReviewCheck | ContractsRevo/purchase-review-contract/src/verification.rs:24-47 | marking is accepted exactly for a stored purchase of the user not yet reviewed; missing gives PurchaseNotFound, already reviewed AlreadyReviewed |
| PurchaseReview.ReportCheck | ContractsRevo/purchase-review-contract/src/verification.rs:60-100 | a report is accepted exactly with a reason of 1 to 500 UTF-8 bytes, no earlier report by the reporter and a stored review; a bad reason gives InvalidReportReason, a repeat AlreadyReported |
| Common.Utf8Width | ContractsRevo/purchase-review-contract/src/verification.rs:71 | a character takes 1 to 4 bytes, exactly 1 for ASCII |
| Common.ByteLength | ContractsRevo/purchase-review-contract/src/verification.rs:71 | the byte length `String::len` reports lies between the character count and four times it, and is 0 exactly for the empty string |
| Common.ByteLengthOfTwoByteText | ContractsRevo/purchase-review-contract/src/verification.rs:71 | k two-byte characters are 2k bytes long |
| PurchaseReview.LongAccentedReasonRefused | ContractsRevo/purchase-review-contract/src/verification.rs:71-73 | a reason of 300 accented characters, under 500 characters but 600 bytes, is refused with InvalidReportReason |
| PurchaseReview.EditCheck | ContractsRevo/purchase-review-contract/src/verification.rs:150-173 | an edit is accepted exactly by the review's author within the edit window; after the window EditWindowExpired |
| PurchaseReview.Edited | ContractsRevo/purchase-review-contract/src/verification.rs:175-182 | an edited review keeps its author and timestamp and takes the new text, responses, votes and verification flag |
| PurchaseReview.EditKeepsWindowAndAuthor | ContractsRevo/purchase-review-contract/src/verification.rs:150-185 | editing changes neither who may edit nor until when |
| PurchaseReview.ReviewContract.IsReviewEditable | ContractsRevo/purchase-review-contract/src/verification.rs:196-211 | a missing review gives ReviewNotFound; otherwise the review is editable exactly while now is within the window of its timestamp |
| PurchaseReview.ReviewContract.PurchaseLinkVerification | ContractsRevo/purchase-review-contract/src/verification.rs:113-137 | a verified purchase gives AlreadyVerified and changes nothing; otherwise it is stored as verified and unreviewed, ready to be marked |
| PurchaseReview.ReviewContract.PreReviewPurchase | ContractsRevo/purchase-review-contract/src/verification.rs:24-47 | errors are the check's and change nothing (the purchase key includes the user, so UnauthorizedAccess never occurs); otherwise the purchase is marked reviewed and a second mark gives AlreadyReviewed |
| PurchaseReview.ReviewContract.ReportReview | ContractsRevo/purchase-review-contract/src/verification.rs:60-100 | errors are the check's and change nothing; otherwise the report replaces the review's earlier one, the reporter is recorded and a second report by them is refused |
| PurchaseReview.ReviewContract.EditReview | ContractsRevo/purchase-review-contract/src/verification.rs:150-185 | errors are the check's and change nothing; otherwise the review is replaced by its edited form; the elapsed-time subtraction never underflows |
| Certification.IdAsWritten | ContractsRevo/certification-contract/src/issuance.rs:5-23 | as written, the certification id is built from the document hash and the ledger time only |
| Certification.CertificationId | ContractsRevo/certification-contract/src/issuance.rs:5-23 | the corrected id determines issuer, holder, document hash and time, so distinct issuers or holders never share an id |
| Certification.IdCollisionAsWritten | ContractsRevo/certification-contract/src/issuance.rs:5-23 | as written, two verified issuers certifying the same document in the same ledger second get the same id and the second issue fails with AlreadyInitialized; with the corrected id both succeed |
| Certification.ValidateMetadata | ContractsRevo/certification-contract/src/issuance.rs:34-36 | metadata is valid exactly when it has 1 to 99 entries |
| Certification.IssueCheck | ContractsRevo/certification-contract/src/issuance.rs:39-79 | issuing is accepted exactly for a verified issuer, a validity interval starting now or later and ending after it starts, valid metadata and an unused id; InvalidIssuer first, then InvalidValidity |
| Certification.NewCertification | ContractsRevo/certification-contract/src/issuance.rs:81-99 | a new certification is Valid, unrevoked, issued and updated now, and keeps the id's parties and hash and the given type, interval and metadata |
| Certification.Appended | ContractsRevo/certification-contract/src/issuance.rs:103-121 | appending to one index list leaves every other list unchanged |
| Certification.AppendKeepsSound | ContractsRevo/certification-contract/src/issuance.rs:103-121 | appending an id to an index under which the certification belongs keeps every listed id pointing to a matching certification |
| Certification.IssueKeepsSound | ContractsRevo/certification-contract/src/issuance.rs:99-121 | storing a fresh certification and indexing it by holder, issuer and type keeps every index sound |
| Certification.IssueKeepsComplete | ContractsRevo/certification-contract/src/issuance.rs:99-121 | after issuing every stored certification is listed under its holder, its issuer and its type |
| Certification.IssueKeepsStore | ContractsRevo/certification-contract/src/issuance.rs:39-146 | issuing a fresh certification keeps the store and its three indexes consistent and duplicate-free |
| Certification.ResolvedMembers | ContractsRevo/certification-contract/src/audit.rs:5-22 | a looked-up list contains exactly the stored certifications of its listed ids |
| Certification.ResolvedAllStored | ContractsRevo/certification-contract/src/audit.rs:5-22 | when every listed id is stored, the lookup returns one certification per id |
| Certification.ResolveIds | ContractsRevo/certification-contract/src/audit.rs:15-19 | the lookup loop returns exactly the stored certifications of the ids in order, skipping missing ones |
| Certification.FilteredMembers | ContractsRevo/certification-contract/src/audit.rs:95-111 | the filter keeps exactly the certifications matching the type and status filters |
| Certification.ReportOverMembers | ContractsRevo/certification-contract/src/audit.rs:91-112 | the report over some issuers contains exactly the filtered certifications of one of them |
| Certification.UnverifiedIssuerEmptyReport | ContractsRevo/certification-contract/src/audit.rs:76-82 | a report filtered on an unverified issuer is empty |
| Certification.IssuerListResolves | ContractsRevo/certification-contract/src/audit.rs:25-42 | in a consistent store an issuer's list resolves to exactly the stored certifications of that issuer |
| Certification.AuditReportExact | ContractsRevo/certification-contract/src/audit.rs:65-117 | a certification is in the audit report exactly when stored, matching the filters, issued by a verified issuer and by the filtered issuer if any |
| Certification.FilterCertifications | ContractsRevo/certification-contract/src/audit.rs:95-111 | the filter loop computes the filtered list in order |
| Certification.ReportIssuers | ContractsRevo/certification-contract/src/audit.rs:91-112 | the issuer loop concatenates each issuer's filtered certifications in order |
| Certification.DistinctCount | ContractsRevo/certification-contract/src/audit.rs:139-142 | a list without duplicates has as many distinct elements as entries |
| Certification.TypeCountExact | ContractsRevo/certification-contract/src/audit.rs:120-148 | in a consistent store the count for a type is the number of stored certifications of that type |
| Certification.CertificationContract.AddVerifiedIssuer | ContractsRevo/certification-contract/src/issuance.rs:149-175 | only the admin may add, others get UnauthorizedAccess and change nothing; the issuer ends up verified and is not listed twice |
| Certification.CertificationContract.IssueCertification | ContractsRevo/certification-contract/src/issuance.rs:39-146 | corrected (Findings, ContractsRevo/certification-contract/src/issuance.rs:5-23): with an id that also determines issuer and holder, errors are the check's and change nothing; otherwise the new certification is stored under its id, indexed by holder, issuer and type, and an issuance event is logged |
| Certification.CertificationContract.GetHolderCertifications | ContractsRevo/certification-contract/src/audit.rs:5-22 | returns the stored certifications listed for the holder |
| Certification.CertificationContract.GetIssuerCertifications | ContractsRevo/certification-contract/src/audit.rs:25-42 | returns the stored certifications listed for the issuer |
| Certification.CertificationContract.GetCertificationsByType | ContractsRevo/certification-contract/src/audit.rs:45-62 | returns the stored certifications listed for the type |
| Certification.CertificationContract.GenerateAuditReport | ContractsRevo/certification-contract/src/audit.rs:65-117 | returns the audit report over the verified issuers (or only the filtered one when verified) with the type and status filters |
| Certification.CertificationContract.CountCertificationsByType | ContractsRevo/certification-contract/src/audit.rs:120-148 | one pair per standard type, in order, with that type's count |
| CropPrediction.SumAppend | ContractsRevo/crop-yield-prediction/src/prediction.rs:126-128 | the sum of yields grows by each appended yield |
| CropPrediction.Mean | ContractsRevo/crop-yield-prediction/src/prediction.rs:126-130 | the historical average is 0 without yields and otherwise the truncated mean: for a non-negative total, the largest value whose product with the count does not exceed the total |
| CropPrediction.SumBounds | ContractsRevo/crop-yield-prediction/src/prediction.rs:126-128 | yields between lo and hi sum to between count·lo and count·hi |
| CropPrediction.MeanWithinRange | ContractsRevo/crop-yield-prediction/src/prediction.rs:126-130 | the average of non-negative yields lies between the smallest and largest bound of the yields |
| CropPrediction.WeatherImpact | ContractsRevo/crop-yield-prediction/src/prediction.rs:145-164 | fewer than four readings give 0; otherwise the factor lies between -23 and 38 and is 38 exactly when temperature, humidity, rainfall and sunshine are all in their optimal ranges |
| CropPrediction.SoilImpact | ContractsRevo/crop-yield-prediction/src/prediction.rs:166-187 | fewer than five readings give 0; otherwise the factor lies between -27 and 53 and is 53 exactly when pH, nitrogen, phosphorus, potassium and organic matter are all in their optimal ranges |
| CropPrediction.PredictedYield | ContractsRevo/crop-yield-prediction/src/prediction.rs:120-143 | the prediction is never negative, equals the average adjusted by both factors whenever positive, and equals the average when no weather or soil readings count |
| CropPrediction.AdjustmentBounds | ContractsRevo/crop-yield-prediction/src/prediction.rs:139 | a truncated percentage adjustment by a factor between lo and hi stays between lo and hi percent of the average |
| CropPrediction.PredictionNearAverage | ContractsRevo/crop-yield-prediction/src/prediction.rs:120-143 | for non-negative historical yields the prediction is never clamped and lies between 50% and 191% of the average |
| CropPrediction.SumNonNegative | ContractsRevo/crop-yield-prediction/src/prediction.rs:126-128 | non-negative yields have a non-negative sum |
| CropReporting.ListedMembers | ContractsRevo/crop-yield-prediction/src/reporting.rs:27-62 | a prediction is listed exactly when it is stored and, under the region filter, from that region; every other filter keeps all |
| CropReporting.ListPredictions | ContractsRevo/crop-yield-prediction/src/reporting.rs:27-62 | the listing loop returns the selected predictions in storage order |
| CropReporting.Square | ContractsRevo/crop-yield-prediction/src/reporting.rs:176-178 | a squared deviation is the deviation times itself and never negative |
| CropReporting.SquaredDeviationStep | ContractsRevo/crop-yield-prediction/src/reporting.rs:174-180 | each prediction adds its squared deviation from the expected yield to the running variance |
| CropReporting.AssessRiskLevel | ContractsRevo/crop-yield-prediction/src/reporting.rs:165-195 | the loop computes the risk level of the specification: High for a zero expected yield, Medium without predictions, otherwise Low, Medium or High by the mean squared deviation against 1000000 and 5000000 |
| CropReporting.SquareBelowMillion | ContractsRevo/crop-yield-prediction/src/reporting.rs:188 | a deviation under 1000 in size squares to at most 998001 |
| CropReporting.SquaredDeviationAtMost | ContractsRevo/crop-yield-prediction/src/reporting.rs:174-186 | deviations all under 1000 in size add up to at most 998001 per prediction |
| CropReporting.SquaredDeviationAtLeast | ContractsRevo/crop-yield-prediction/src/reporting.rs:174-186 | the variance total is at least any one prediction's squared deviation |
| CropReporting.CloseToExpectedIsLow | ContractsRevo/crop-yield-prediction/src/reporting.rs:165-195 | when every prediction is within 1000 of a non-zero expected yield the risk is Low |
| CropReporting.FarFromExpectedIsHigh | ContractsRevo/crop-yield-prediction/src/reporting.rs:165-195 | one prediction whose squared deviation reaches 5000000 times the count makes the risk High |
| CropReporting.RiskAdviceIsDifferent | ContractsRevo/crop-yield-prediction/src/reporting.rs:197-222 | the risk advice never repeats the low-yield soil and irrigation advice |
| CropReporting.Recommendations | ContractsRevo/crop-yield-prediction/src/reporting.rs:197-222 | soil and irrigation advice appear exactly when the expected yield is below 1000, followed by the two pieces of advice for the risk level |
| CropReporting.PriceTrendOf | ContractsRevo/crop-yield-prediction/src/reporting.rs:224-237 | Unknown exactly without predictions; otherwise Decreasing above 10000, Stable above 5000 and Increasing at or below 5000 |
| CropReporting.PriceTrendAntitone | ContractsRevo/crop-yield-prediction/src/reporting.rs:224-237 | a larger predicted supply never gives a more increasing price trend |
| CropReporting.QualityScore | ContractsRevo/crop-yield-prediction/src/reporting.rs:244-250 | the quality score lies in 0..100, is 5 points per prediction up to 10 plus 50 for a positive supply, and is 100 exactly with at least 10 predictions and a positive supply |
| CropReporting.RecentYieldsStep | ContractsRevo/crop-yield-prediction/src/reporting.rs:78-86 | each prediction of the crop from the last 30 days adds its yield to the recent yields |
| CropReporting.GetFarmerRecommendations | ContractsRevo/crop-yield-prediction/src/reporting.rs:65-111 | the expected yield is the truncated mean of the crop's yields from the last 30 days in the region, the risk and advice follow it, and planting is advised 30 days from now |
| CropReporting.NoRecentPredictionAdvice | ContractsRevo/crop-yield-prediction/src/reporting.rs:65-111 | without recent predictions the expected yield is 0, the risk High and the advice is soil, irrigation, insurance and diversification |
| CropReporting.WindowYieldsStep | ContractsRevo/crop-yield-prediction/src/reporting.rs:127-135 | each prediction of the crop dated from now to now plus the timeframe adds its yield to the supply |
| CropReporting.GetBuyerInsights | ContractsRevo/crop-yield-prediction/src/reporting.rs:114-161 | the supply is the total yield of the crop's predictions in the region dated within the timeframe from now; the trend and quality score follow it and availability is six months from now |
| CropReporting.OlderPredictionsOutsideWindow | ContractsRevo/crop-yield-prediction/src/reporting.rs:127-135 | predictions dated before now never count toward buyer insights, giving an Unknown trend and a quality score of 0 |
| LiquidityPool.InitCheck | ContractsRevo/farmer-liquidity-pool-contract/src/contract.rs:18-23 | initialization is accepted exactly when token A orders before token B and the fee rate is positive; misordered tokens are refused first |
| LiquidityPool.ISqrt | ContractsRevo/farmer-liquidity-pool-contract/src/contract.rs:74 | the integer square root is the largest value whose square does not exceed the input |
| LiquidityPool.DepositResult | ContractsRevo/farmer-liquidity-pool-contract/src/contract.rs:62-77 | a negative amount is refused; an accepted deposit never lowers the share total |
| LiquidityPool.FirstDepositShares | ContractsRevo/farmer-liquidity-pool-contract/src/contract.rs:69-75 | the first deposit into an empty pool mints the integer square root of the product of the amounts |
| LiquidityPool.DepositDoesNotDilute | ContractsRevo/farmer-liquidity-pool-contract/src/contract.rs:69-77 | a deposit into a funded pool always succeeds and, per share, holds at most the new balance of each reserve, so existing holders are not diluted |
| LiquidityPool.ProportionalShares | ContractsRevo/farmer-liquidity-pool-contract/src/contract.rs:70-71 | the proportional share total never falls below the old total and never exceeds the reserve's growth ratio |
| LiquidityPool.SellAmount | ContractsRevo/farmer-liquidity-pool-contract/src/contract.rs:121-125 | the quote fails exactly when its divisor, the remaining reserve times the fee complement, is zero |
| LiquidityPool.SwapResult | ContractsRevo/farmer-liquidity-pool-contract/src/contract.rs:109-180 | an accepted swap lowers the bought reserve by exactly the amount bought and never lowers the sold reserve |
| LiquidityPool.SwapKeepsProduct | ContractsRevo/farmer-liquidity-pool-contract/src/contract.rs:141-166 | with a positive fee, every accepted swap leaves non-negative reserves whose product is at least the old product |
| LiquidityPool.AdjustedBoundsRaw | ContractsRevo/farmer-liquidity-pool-contract/src/contract.rs:141-166 | passing the fee-adjusted invariant check implies the raw constant product does not fall |
| LiquidityPool.QuoteMeetsInvariant | ContractsRevo/farmer-liquidity-pool-contract/src/contract.rs:119-166 | for a fee below 100% and an amount strictly inside the reserve, the quoted sell amount is at least 1 and passes the fee-adjusted invariant check |
| LiquidityPool.SwapAtQuoteSucceeds | ContractsRevo/farmer-liquidity-pool-contract/src/contract.rs:109-180 | a swap whose quote is within the trader's maximum succeeds, moving exactly the quote in and the amount bought out |
| LiquidityPool.RemoveResult | ContractsRevo/farmer-liquidity-pool-contract/src/contract.rs:182-216 | a provider without a position gets NoPosition; an accepted redemption spends shares the provider holds and pays at least both minimums |
| LiquidityPool.ProportionalPayout | ContractsRevo/farmer-liquidity-pool-contract/src/contract.rs:211-212 | a redemption pays the truncated proportional part of each reserve, never more than the reserve |
| LiquidityPool.Withdrawn | ContractsRevo/farmer-liquidity-pool-contract/src/contract.rs:218-234 | the position loses the redeemed shares and is deleted when none remain |
| LiquidityPool.DepositKeepsPositions | ContractsRevo/farmer-liquidity-pool-contract/src/contract.rs:79-103 | a deposit keeps positions keyed by provider, non-negative, and adding up to the new share total |
| LiquidityPool.WithdrawKeepsPositions | ContractsRevo/farmer-liquidity-pool-contract/src/contract.rs:218-234 | a redemption keeps positions keyed by provider, non-negative, and adding up to the new share total |
| LiquidityPool.PositionWithinTotal | ContractsRevo/farmer-liquidity-pool-contract/src/contract.rs:288-294 | no provider holds more than the total shares |
| LiquidityPool.Pool.Initialize | ContractsRevo/farmer-liquidity-pool-contract/src/contract.rs:11-44 | a pool is created with the ordered tokens and fee, empty reserves, no shares and no positions |
| LiquidityPool.Pool.AddLiquidity | ContractsRevo/farmer-liquidity-pool-contract/src/contract.rs:46-107 | a refused deposit changes nothing; otherwise the reserves grow by the amounts, the total becomes the new share total and the provider's position gains the minted shares |
| LiquidityPool.Pool.Swap | ContractsRevo/farmer-liquidity-pool-contract/src/contract.rs:109-180 | a refused swap changes nothing; otherwise the reserves become the swap's result |
| LiquidityPool.Pool.RemoveLiquidity | ContractsRevo/farmer-liquidity-pool-contract/src/contract.rs:182-242 | a refused redemption changes nothing; otherwise the provider receives the amounts, the reserves and total fall by them and the position loses the shares |

## Left out

General:
- Token transfers (`token::Client`, `invoke_contract`), `require_auth` and events are not modelled. Balances the source reads from a token contract are parameters, and transfers a call would make are either returned or dropped.
- Storage time-to-live extensions and the split between instance and persistent storage are not modelled. The exceptions are the two agricultural-quality findings below (disputes and certifications), where that split is the bug.
- Hashes and pseudo-random identifiers (certification, dispute, alert and product ids) are caller-supplied values. Hashing is taken to be injective.
- Fixed-width overflow (`i128`, `u64`, `u32` arithmetic, `checked_*` and `overflow-checks` panics) is not modelled: amounts are unbounded integers. The exceptions are the places where an overflow visibly changes the result: the `as i32` casts of `compare_with_market`, the `as u32` cast of the lender share percentage, and the `checked_mul(..).unwrap_or(0)` of the emergency-unstake penalty.
- Constructors stand for the deployment plus any initialisation outside the core files (an admin set by another entry point, products or reviews created by other operations). They are not counted as modelled operations.

Per contract:
- `Microlending`: `datatypes.rs` is not part of this model. The loan's repayment schedule field is read by `fund_loan` but never set by `request.rs`, so new loans carry no instalments and the due date is the funding time plus the duration.
- `SupplyChain`: `StageTier`'s order is not part of this model's sources and is taken from the order the tests exercise. Product registration (`product.rs`) and the certificate cross-checks (`validation.rs`) are not part of this model. `Tracking.RegisterProduct` only creates an empty stage list.
- `AgriAuction`: the admin used by `update_market_price` is set by an entry point outside the core files, so the constructor takes it. The pseudo-random product id of `add_product` is a parameter.
- `AgriMarket`: prices are naturals, and the `u64` overflow of the percentage products is not modelled.
- `FarmerToken`: `balance`, `allowance` and `token_metadata` are plain reads (`Token.BalanceOf`, `Token.AllowanceOf`, `Token.CurrentMetadata`), giving 0 or the default metadata when nothing is stored. Minting and minter management are outside the core files. The model starts from the state `initialize` creates and proves that burns and transfers keep the balances summing to the total supply.
- `FarmerStaking`: token transfers of stake and rewards are not modelled. Other `i128` overflows are not modelled; the one in the emergency penalty is, because `checked_mul(..).unwrap_or(0)` turns it into a zero penalty rather than a panic (`EmergencyPayout`).
- `UnstakeLeavesNothingPending`: holds of the corrected unstake only; as written, `unstake_lp` stores the stale farm and rewards stay pending (Findings, `UnstakeAsWrittenLeavesPending`).
- `YieldFarming`: the tuning constants (base and maximum multiplier, precision, minimum stake, cool-down) are defined outside the core files. They are a `Config` parameter, assumed positive, with base ≤ maximum.
- `WaterManagement`: `utils.rs` (validators, efficiency score, incentive rule and amount, day and week starts) is not part of this model. Those helpers are the fields of a `Helpers` parameter, and validation failures share one error. The alert ids of `generate_alert_id` (`alerts.rs`) are modelled as big-endian numbers (`AlertIdOf`). The contract's `record_usage` entry point (`lib.rs`) runs the usage recording, then `check_usage_and_alert` and `process_automatic_incentive`, ignoring their errors; the model has these as three separate methods (`RecordUsage`, `CheckUsageAndAlert`, `ProcessAutomaticIncentive`). Because the error is ignored, `CheckUsageAndAlert` keeps the alerts raised before a failing identifier check.
- `PriceStabilization`: reading a Chainlink feed contract is not modelled. The round data is a parameter to the validation and conversion functions. `trigger_payout` does not deduplicate its farmer list, so a farmer listed twice is paid twice (`ListedTwicePaidTwice`).
- `AgriQuality`: `get_standard_requirements` is not modelled, because its values never reach `check_compliance`'s result. `get_dispute_details` is a plain read. The authority, inspector and mediator sets are fixed at creation, because the source has no setter for them. `track_enforcement` stores nothing, so only its check is modelled.
- `Cooperative`: the `u32` resource counter's overflow is not modelled.
- `ProductAuction`: products are created by operations outside the core files, so the constructor takes them. No funds move in the source either.
- `PurchaseReview`: reviews are written by `submit_review`, outside the core files, so the constructor takes them, none dated in the future.
- `Certification`: `validation.rs` (verification, revocation and expiry of a certification) is not part of this model, so stored certifications keep their issued status.
- `CropPrediction`: the pure arithmetic is modelled, but `generate_prediction`, `register_crop`, `get_prediction`, `get_crop` and the off-chain data helpers are not. They only store records, or compute identifiers by hashing, or (`create_off_chain_data`) do not compile.
- `CropReporting`: the `PREDICTIONS` storage constant is ill-formed in the source, so the stored predictions are a sequence parameter in storage-key order. The `"crop"` filter of `list_predictions` accepts every prediction, as written.
- `LiquidityPool`: `get_deposit_amounts` (`liquidity.rs`) is not part of this model, so the deposited amounts are inputs. The pool's token balances are its reserves plus the incoming transfer. Fee accrual and claims (`claim_fees`, `get_pending_fees`, `collected_fees` and the fee distribution of `swap`) are not modelled, so the fee per share stays 0. Re-initialisation is not modelled: the constructor requires `InitCheck` to pass. `get_reserves` and `get_provider_position` are plain reads.

## Findings

| source | as written | input that shows it | evidently intended | confidence | as-written member | corrected member |
|---|---|---|---|---|---|---|
| ContractsRevo/microlending-contract/src/repay.rs:80-93 | each unclaimed contribution pays its lender the lender's whole share percentage of the repayment | two contributions of 500 by one lender to a loan of 1000, repaying 100: the lender is paid 100 twice, 200 in all | each contribution paid in proportion to itself, so payouts never exceed the repayment | not executed | Microlending.AsWrittenOverpaysRepeatLender | Microlending.ProRataPayoutsBounded |
| ContractsRevo/agricultural-auction-contract/src/price_oracle.rs:143-149 | the difference times 100 and the market price are cast to `i32` before dividing | current price 30,000,000 against market 1 reports -1,294,967,396; a market price of 2^32 divides by zero | the percentage difference computed without wrap-around | not executed | AgriMarket.CompareWithMarketWrapsSign | AgriMarket.CompareWithMarket |
| ContractsRevo/farmer-token-contract/src/burn.rs:190-242 | `burn_as_penalty` checks the balance but not that the amount is positive | the admin burns a negative amount from a holder: the check passes and the balance rises | a penalty amount must be positive, as in the other burns | not executed | FarmerToken.PenaltyAsWrittenMints | FarmerToken.PenaltyCheck |
| ContractsRevo/farmer-yield-farming-contract/src/lib.rs:203-225 | `harvest` sets the reward debt from the farm loaded before `update_pool_internal` | one unit staked alone for two blocks at one reward per block: after the harvest at block 2 the same positive reward is still pending, so a second harvest pays it again | the debt taken from the updated accumulator, leaving nothing pending | not executed | YieldFarming.HarvestAsWrittenExample | YieldFarming.HarvestClearsPending |
| ContractsRevo/farmer-yield-farming-contract/src/lib.rs:118-151 | `stake_lp` writes back the farm loaded before `update_pool_internal`, losing the accumulator update | one unit staked alone for two blocks at one reward per block, then a second farmer stakes one unit at block 2 and is at once owed a positive reward | the updated farm written back, so nothing is pending right after a stake | not executed | YieldFarming.StakeAsWrittenPaysNewcomer | YieldFarming.StakeLeavesNothingPending |
| ContractsRevo/farmer-yield-farming-contract/src/lib.rs:158-201 | `unstake_lp` writes back the farm loaded before `update_pool_internal` and takes the new reward debt from its old accumulator | two units staked alone for two blocks at one reward per block; the farmer unstakes one at block 2, is paid for both blocks, and a positive reward for those blocks is still pending | the updated farm written back and the debt taken from it, so nothing is pending right after an unstake | not executed | YieldFarming.UnstakeAsWrittenLeavesPending | YieldFarming.UnstakeLeavesNothingPending |
| ContractsRevo/farmer-yield-farming-contract/src/lib.rs:69-85 | `update_farm` writes back the farm loaded before `update_pool_internal`, with the new reward rate | one unit staked alone from block 0 at one reward per block; doubling the rate at block 2 makes those two blocks pay 4 instead of 2 | the pool updated at the old rate and the updated farm stored, so a new rate applies only from now on | not executed | YieldFarming.RetuneAsWrittenRepricesPast | YieldFarming.Retuned |
| ContractsRevo/equipment-rental-contract/src/rental.rs:61-63 | `create_rental` refuses any equipment that has a rental record, whatever its status | equipment whose only rental is Completed and which is available again can never be rented | only an open (Pending or Active) rental blocks a new one | not executed | EquipmentRental.ReRentalAsWrittenRefused | EquipmentRental.CreateCheck |
| ContractsRevo/agricultural-quality-contract/src/quality_metrics.rs:363-374 | the decay factor is `days * (1 / 100)` in integers, which is always 0 | a 30-day-old GlobalGAP score of 80 stays 80 | a 1% decay per day (56 after 30 days), 0 after 100 days | not executed | AgriQuality.DecayIgnoredExample | AgriQuality.TimeFactorMonotone |
| ContractsRevo/agricultural-quality-contract/src/dispute_handling.rs:93-120 | `file_dispute` stores the dispute in persistent storage, while `assign_mediator` and the resolution functions read instance storage | any freshly filed dispute: `assign_mediator` answers NotFound, so no dispute can be mediated | one storage for disputes, so a filed dispute can be assigned | not executed | AgriQuality.FiledDisputeNotFoundAsWritten | AgriQuality.QualityContract.FileDispute |
| ContractsRevo/agricultural-quality-contract/src/resolution.rs:66-114 | `resolve_dispute` and `calculate_compensation` read and write certifications in instance storage, while the verification code stores them in persistent storage | any certification stored by `process_certification`: its dispute's resolution fails with NotFound, and a resolution write would stay invisible to `record_inspection` | one storage for certifications, so a resolution finds and updates the stored certification | not executed | AgriQuality.CertNotFoundAsWritten | AgriQuality.QualityContract.ResolveDispute |
| ContractsRevo/certification-contract/src/issuance.rs:5-23 | the certification id hashes only the document hash and the ledger time, ignoring issuer and holder | two verified issuers certifying the same document in the same second: the second issue fails with AlreadyInitialized | an id that also determines issuer and holder | not executed | Certification.IdCollisionAsWritten | Certification.CertificationId |
