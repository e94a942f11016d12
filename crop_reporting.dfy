/*
 * Reports in the crop-yield prediction contract. Farmers get an expected
 * yield from the recent predictions for their crop in their region, a risk
 * level from how widely the region's predictions vary around it, and advice
 * that follows from both. Buyers get the predicted supply in a time window,
 * a price trend and a quality score. The stored predictions are a sequence
 * in storage-key order; reading them never changes state.
 */
module CropReporting {
  import opened Common
  import opened CropPrediction

  const THIRTY_DAYS: nat := 2592000
  const SIX_MONTHS: nat := 15552000

  /** The only filter type `list_predictions` acts on. */
  const REGION_FILTER: string := "region"

  const SOIL_ADVICE: string := "Consider soil improvement"
  const IRRIGATION_ADVICE: string := "Evaluate irrigation systems"

  datatype RiskLevel = Low | Medium | High

  datatype PriceTrend = Unknown | Decreasing | Stable | Increasing

  datatype FarmerRecommendation = FarmerRecommendation(
    cropId: nat, region: string, recommendedPlantingDate: nat, expectedYield: int, riskLevel: RiskLevel,
    recommendations: seq<string>)

  datatype BuyerInsight = BuyerInsight(
    cropId: nat, region: string, predictedSupply: int, priceTrend: PriceTrend, availabilityWindow: nat,
    qualityScore: int)

  // ---------------------------------------------------------------------
  // Listing

  /** A region filter keeps the predictions for that region; any other
      filter type, "crop" included, keeps everything. */
  predicate Selected(p: YieldPrediction, filterType: string, filterValue: string)
  {
    filterType != REGION_FILTER || p.region == filterValue
  }

  function Listed(stored: seq<YieldPrediction>, filterType: string, filterValue: string): seq<YieldPrediction>
  {
    if |stored| == 0 then []
    else
      var p := stored[|stored| - 1];
      Listed(stored[..|stored| - 1], filterType, filterValue) + (if Selected(p, filterType, filterValue) then [p] else [])
  }

  lemma {:induction false} ListedMembers(stored: seq<YieldPrediction>, filterType: string, filterValue: string,
                                         p: YieldPrediction)
    ensures p in Listed(stored, filterType, filterValue) <==>
            p in stored && (filterType == REGION_FILTER ==> p.region == filterValue)
    decreases |stored|
  {
    if |stored| > 0 {
      var front := stored[..|stored| - 1];
      ListedMembers(front, filterType, filterValue, p);
      assert stored == front + [stored[|stored| - 1]];
    }
  }

  lemma ListedStep(stored: seq<YieldPrediction>, filterType: string, filterValue: string, i: nat)
    requires i < |stored|
    ensures Listed(stored[..i + 1], filterType, filterValue) ==
            Listed(stored[..i], filterType, filterValue) +
            (if Selected(stored[i], filterType, filterValue) then [stored[i]] else [])
  {
    assert stored[..i + 1][..i] == stored[..i];
  }

  /** `list_predictions`. */
  method ListPredictions(stored: seq<YieldPrediction>, filterType: string, filterValue: string)
    returns (r: seq<YieldPrediction>)
    ensures r == Listed(stored, filterType, filterValue)
  {
    r := [];
    var i := 0;
    while i < |stored|
      invariant 0 <= i <= |stored|
      invariant r == Listed(stored[..i], filterType, filterValue)
    {
      ListedStep(stored, filterType, filterValue, i);
      var matches := if filterType == REGION_FILTER then stored[i].region == filterValue else true;
      if matches {
        r := r + [stored[i]];
      }
      i := i + 1;
    }
    assert stored[..i] == stored;
  }

  // ---------------------------------------------------------------------
  // Risk

  function Square(d: int): (s: nat)
    ensures s == d * d
  {
    var a := Abs(d);
    assert d * d == a * a;
    a * a
  }

  /** The sum of squared differences between each prediction and the
      expected yield. */
  function SquaredDeviation(predictions: seq<YieldPrediction>, expected: int): nat
  {
    if |predictions| == 0 then 0
    else
      SquaredDeviation(predictions[..|predictions| - 1], expected) +
      Square(predictions[|predictions| - 1].predictedYield - expected)
  }

  /** `assess_risk_level`: HIGH for an expected yield of 0, MEDIUM when
      there are no predictions, and otherwise by the average squared
      deviation: below 1,000,000 LOW, below 5,000,000 MEDIUM, else HIGH. */
  function RiskOf(expected: int, predictions: seq<YieldPrediction>): RiskLevel
  {
    if expected == 0 then High
    else if |predictions| == 0 then Medium
    else
      var avgVariance := SquaredDeviation(predictions, expected) / |predictions|;
      if avgVariance < 1000000 then Low else if avgVariance < 5000000 then Medium else High
  }

  lemma SquaredDeviationStep(predictions: seq<YieldPrediction>, expected: int, i: nat)
    requires i < |predictions|
    ensures SquaredDeviation(predictions[..i + 1], expected) ==
            SquaredDeviation(predictions[..i], expected) + Square(predictions[i].predictedYield - expected)
  {
    assert predictions[..i + 1][..i] == predictions[..i];
  }

  /** The loop of `assess_risk_level`. */
  method AssessRiskLevel(expected: int, predictions: seq<YieldPrediction>) returns (risk: RiskLevel)
    ensures risk == RiskOf(expected, predictions)
  {
    if expected == 0 {
      return High;
    }
    var variance := 0;
    var count := 0;
    var i := 0;
    while i < |predictions|
      invariant 0 <= i <= |predictions| && count == i
      invariant variance == SquaredDeviation(predictions[..i], expected)
    {
      SquaredDeviationStep(predictions, expected, i);
      var diff := predictions[i].predictedYield - expected;
      variance := variance + diff * diff;
      count := count + 1;
      i := i + 1;
    }
    assert predictions[..i] == predictions;
    if count == 0 {
      return Medium;
    }
    var avgVariance := variance / count;
    if avgVariance < 1000000 {
      risk := Low;
    } else if avgVariance < 5000000 {
      risk := Medium;
    } else {
      risk := High;
    }
  }

  lemma SquareBelowMillion(d: int)
    requires -1000 < d < 1000
    ensures Square(d) <= 998001
  {
    var a := Abs(d);
    MulMonotone(a, 999, a);
    MulMonotone(a, 999, 999);
  }

  lemma {:induction false} SquaredDeviationAtMost(predictions: seq<YieldPrediction>, expected: int)
    requires forall i :: 0 <= i < |predictions| ==> -1000 < predictions[i].predictedYield - expected < 1000
    ensures SquaredDeviation(predictions, expected) <= |predictions| * 998001
    decreases |predictions|
  {
    if |predictions| > 0 {
      var n := |predictions|;
      SquaredDeviationAtMost(predictions[..n - 1], expected);
      SquareBelowMillion(predictions[n - 1].predictedYield - expected);
    }
  }

  lemma {:induction false} SquaredDeviationAtLeast(predictions: seq<YieldPrediction>, expected: int, j: nat)
    requires j < |predictions|
    ensures SquaredDeviation(predictions, expected) >= Square(predictions[j].predictedYield - expected)
    decreases |predictions|
  {
    var n := |predictions|;
    if j < n - 1 {
      SquaredDeviationAtLeast(predictions[..n - 1], expected, j);
    }
  }

  /** Predictions that all lie within 1000 of a non-zero expected yield
      mean LOW risk. */
  lemma CloseToExpectedIsLow(expected: int, predictions: seq<YieldPrediction>)
    requires expected != 0 && |predictions| > 0
    requires forall i :: 0 <= i < |predictions| ==> -1000 < predictions[i].predictedYield - expected < 1000
    ensures RiskOf(expected, predictions) == Low
  {
    var n := |predictions|;
    SquaredDeviationAtMost(predictions, expected);
    DivMonotone(SquaredDeviation(predictions, expected), 998001 * n, n);
    DivOfMultiple(998001, n);
  }

  /** A single prediction whose squared distance from a non-zero expected
      yield reaches 5,000,000 times the number of predictions means HIGH
      risk. */
  lemma FarFromExpectedIsHigh(expected: int, predictions: seq<YieldPrediction>, j: nat)
    requires expected != 0 && j < |predictions|
    requires Square(predictions[j].predictedYield - expected) >= 5000000 * |predictions|
    ensures RiskOf(expected, predictions) == High
  {
    var n := |predictions|;
    SquaredDeviationAtLeast(predictions, expected, j);
    var sd := SquaredDeviation(predictions, expected);
    assert 5000000 * n <= sd;
    DivMonotone(5000000 * n, sd, n);
    DivOfMultiple(5000000, n);
  }

  // ---------------------------------------------------------------------
  // Advice, trend and score

  function RiskAdvice(risk: RiskLevel): seq<string>
  {
    match risk
    case High => ["Consider crop insurance", "Diversify crop selection"]
    case Medium => ["Monitor weather patterns", "Prepare contingency plans"]
    case Low => ["Optimal conditions expected", "Consider expanding acreage"]
  }

  lemma RiskAdviceIsDifferent(risk: RiskLevel)
    ensures SOIL_ADVICE !in RiskAdvice(risk) && IRRIGATION_ADVICE !in RiskAdvice(risk)
  {
    var advice := RiskAdvice(risk);
    assert SOIL_ADVICE[9] == 's' && IRRIGATION_ADVICE[0] == 'E';
    assert advice[0][0] != 'E' && (advice[0][0] != 'C' || advice[0][9] != 's');
    assert advice[1][0] != 'E' && (advice[1][0] != 'C' || advice[1][9] != 's');
  }

  /** `generate_farming_recommendations`: an expected yield below 1000
      puts soil and irrigation advice first; the advice for the risk level
      always follows. */
  function Recommendations(expectedYield: int, risk: RiskLevel): (r: seq<string>)
    ensures |r| == (if expectedYield < 1000 then 4 else 2)
    ensures SOIL_ADVICE in r <==> expectedYield < 1000
    ensures IRRIGATION_ADVICE in r <==> expectedYield < 1000
    ensures r[|r| - 2..] == RiskAdvice(risk)
  {
    var lowYield := if expectedYield < 1000 then [SOIL_ADVICE, IRRIGATION_ADVICE] else [];
    RiskAdviceIsDifferent(risk);
    lowYield + RiskAdvice(risk)
  }

  /** `analyze_price_trend`: UNKNOWN without predictions; otherwise more
      than 10000 DECREASING, more than 5000 STABLE, else INCREASING. */
  function PriceTrendOf(predictedSupply: int, predictionCount: nat): (t: PriceTrend)
    ensures t == Unknown <==> predictionCount == 0
    ensures predictionCount > 0 ==>
      && (t == Decreasing <==> predictedSupply > 10000)
      && (t == Stable <==> 5000 < predictedSupply <= 10000)
      && (t == Increasing <==> predictedSupply <= 5000)
  {
    if predictionCount == 0 then Unknown
    else if predictedSupply > 10000 then Decreasing
    else if predictedSupply > 5000 then Stable
    else Increasing
  }

  /** How strongly a trend points to rising prices. */
  function TrendRank(t: PriceTrend): nat
  {
    match t
    case Decreasing => 0
    case Stable => 1
    case Increasing => 2
    case Unknown => 0
  }

  /** More predicted supply never points to higher prices. */
  lemma PriceTrendAntitone(s1: int, s2: int, count: nat)
    requires count > 0 && s1 <= s2
    ensures TrendRank(PriceTrendOf(s2, count)) <= TrendRank(PriceTrendOf(s1, count))
  {
  }

  /** `calculate_quality_score`: five points per prediction up to fifty,
      and fifty more for a positive predicted supply. */
  function QualityScore(predictionCount: nat, predictedSupply: int): (q: int)
    ensures 0 <= q <= 100
    ensures q == 100 <==> predictionCount >= 10 && predictedSupply > 0
    ensures q == 5 * Min(predictionCount, 10) + (if predictedSupply > 0 then 50 else 0)
  {
    var dataScore := if predictionCount > 10 then 50 else predictionCount * 5;
    var supplyScore := if predictedSupply > 0 then 50 else 0;
    dataScore + supplyScore
  }

  // ---------------------------------------------------------------------
  // Farmer recommendations

  predicate Recent(p: YieldPrediction, cropId: nat, now: nat)
  {
    p.cropId == cropId && now - p.timestamp <= THIRTY_DAYS
  }

  /** The predicted yields of the crop's predictions from the last thirty
      days. */
  function RecentYields(predictions: seq<YieldPrediction>, cropId: nat, now: nat): seq<int>
  {
    if |predictions| == 0 then []
    else
      var p := predictions[|predictions| - 1];
      var front := RecentYields(predictions[..|predictions| - 1], cropId, now);
      if Recent(p, cropId, now) then front + [p.predictedYield] else front
  }

  lemma RecentYieldsStep(predictions: seq<YieldPrediction>, cropId: nat, now: nat, i: nat)
    requires i < |predictions|
    ensures RecentYields(predictions[..i + 1], cropId, now) ==
            if Recent(predictions[i], cropId, now)
            then RecentYields(predictions[..i], cropId, now) + [predictions[i].predictedYield]
            else RecentYields(predictions[..i], cropId, now)
  {
    assert predictions[..i + 1][..i] == predictions[..i];
  }

  /** `get_farmer_recommendations`. Stored predictions carry the ledger time
      they were generated at, which is never later than now (the elapsed
      time is a u64 subtraction). */
  method GetFarmerRecommendations(stored: seq<YieldPrediction>, cropId: nat, region: string, now: nat)
    returns (r: FarmerRecommendation)
    requires forall i :: 0 <= i < |stored| ==> stored[i].timestamp <= now
    ensures var regional := Listed(stored, REGION_FILTER, region);
      && r.expectedYield == Mean(RecentYields(regional, cropId, now))
      && r.riskLevel == RiskOf(r.expectedYield, regional)
      && r.recommendations == Recommendations(r.expectedYield, r.riskLevel)
    ensures r.cropId == cropId && r.region == region && r.recommendedPlantingDate == now + THIRTY_DAYS
  {
    var predictions := ListPredictions(stored, REGION_FILTER, region);
    var totalYield := 0;
    var count := 0;
    var i := 0;
    while i < |predictions|
      invariant 0 <= i <= |predictions|
      invariant totalYield == Sum(RecentYields(predictions[..i], cropId, now))
      invariant count == |RecentYields(predictions[..i], cropId, now)|
    {
      RecentYieldsStep(predictions, cropId, now, i);
      if predictions[i].cropId == cropId && now - predictions[i].timestamp <= THIRTY_DAYS {
        SumAppend(RecentYields(predictions[..i], cropId, now), predictions[i].predictedYield);
        totalYield := totalYield + predictions[i].predictedYield;
        count := count + 1;
      }
      i := i + 1;
    }
    assert predictions[..i] == predictions;
    var expectedYield := if count > 0 then Quot(totalYield, count) else 0;
    var riskLevel := AssessRiskLevel(expectedYield, predictions);
    var recommendations := Recommendations(expectedYield, riskLevel);
    r := FarmerRecommendation(cropId, region, now + THIRTY_DAYS, expectedYield, riskLevel, recommendations);
  }

  /** With no recent prediction for the crop the expected yield is 0, the
      risk HIGH, and all four low-yield and high-risk items are advised. */
  lemma NoRecentPredictionAdvice(predictions: seq<YieldPrediction>, cropId: nat, now: nat)
    requires RecentYields(predictions, cropId, now) == []
    ensures var expected := Mean(RecentYields(predictions, cropId, now));
      && expected == 0
      && RiskOf(expected, predictions) == High
      && Recommendations(expected, High) ==
         [SOIL_ADVICE, IRRIGATION_ADVICE, "Consider crop insurance", "Diversify crop selection"]
  {
  }

  // ---------------------------------------------------------------------
  // Buyer insights

  /** The window `get_buyer_insights` applies: the crop's predictions
      stamped from now to now plus the timeframe. */
  predicate InWindow(p: YieldPrediction, cropId: nat, now: nat, timeframe: nat)
  {
    p.cropId == cropId && now <= p.timestamp <= now + timeframe
  }

  function WindowYields(predictions: seq<YieldPrediction>, cropId: nat, now: nat, timeframe: nat): seq<int>
  {
    if |predictions| == 0 then []
    else
      var p := predictions[|predictions| - 1];
      var front := WindowYields(predictions[..|predictions| - 1], cropId, now, timeframe);
      if InWindow(p, cropId, now, timeframe) then front + [p.predictedYield] else front
  }

  lemma WindowYieldsStep(predictions: seq<YieldPrediction>, cropId: nat, now: nat, timeframe: nat, i: nat)
    requires i < |predictions|
    ensures WindowYields(predictions[..i + 1], cropId, now, timeframe) ==
            if InWindow(predictions[i], cropId, now, timeframe)
            then WindowYields(predictions[..i], cropId, now, timeframe) + [predictions[i].predictedYield]
            else WindowYields(predictions[..i], cropId, now, timeframe)
  {
    assert predictions[..i + 1][..i] == predictions[..i];
  }

  /** `get_buyer_insights`: the predicted supply is the sum of the yields in
      the window, and the trend and score follow from it and their count. */
  method GetBuyerInsights(stored: seq<YieldPrediction>, cropId: nat, region: string, now: nat, timeframe: nat)
    returns (r: BuyerInsight)
    ensures var w := WindowYields(Listed(stored, REGION_FILTER, region), cropId, now, timeframe);
      && r.predictedSupply == Sum(w)
      && r.priceTrend == PriceTrendOf(Sum(w), |w|)
      && r.qualityScore == QualityScore(|w|, Sum(w))
    ensures r.cropId == cropId && r.region == region && r.availabilityWindow == now + SIX_MONTHS
  {
    var predictions := ListPredictions(stored, REGION_FILTER, region);
    var totalSupply := 0;
    var count := 0;
    var i := 0;
    while i < |predictions|
      invariant 0 <= i <= |predictions|
      invariant totalSupply == Sum(WindowYields(predictions[..i], cropId, now, timeframe))
      invariant count == |WindowYields(predictions[..i], cropId, now, timeframe)|
    {
      WindowYieldsStep(predictions, cropId, now, timeframe, i);
      var p := predictions[i];
      if p.cropId == cropId && p.timestamp >= now && p.timestamp <= now + timeframe {
        SumAppend(WindowYields(predictions[..i], cropId, now, timeframe), p.predictedYield);
        totalSupply := totalSupply + p.predictedYield;
        count := count + 1;
      }
      i := i + 1;
    }
    assert predictions[..i] == predictions;
    var predictedSupply := if count > 0 then totalSupply else 0;
    var priceTrend := PriceTrendOf(predictedSupply, count);
    var qualityScore := QualityScore(count, predictedSupply);
    r := BuyerInsight(cropId, region, predictedSupply, priceTrend, now + SIX_MONTHS, qualityScore);
  }

  /** Predictions are stamped when they are generated, so the window only
      ever holds those stamped in the current second: when all are older,
      it is empty whatever the timeframe, and the insight reports no supply,
      an UNKNOWN trend and a score of 0. */
  lemma {:induction false} OlderPredictionsOutsideWindow(predictions: seq<YieldPrediction>, cropId: nat, now: nat,
                                                         timeframe: nat)
    requires forall i :: 0 <= i < |predictions| ==> predictions[i].timestamp < now
    ensures WindowYields(predictions, cropId, now, timeframe) == []
    ensures PriceTrendOf(Sum(WindowYields(predictions, cropId, now, timeframe)), 0) == Unknown
    ensures QualityScore(0, Sum(WindowYields(predictions, cropId, now, timeframe))) == 0
    decreases |predictions|
  {
    if |predictions| > 0 {
      OlderPredictionsOutsideWindow(predictions[..|predictions| - 1], cropId, now, timeframe);
    }
  }
}
