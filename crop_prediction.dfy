/*
 * Yield prediction in the crop-yield prediction contract. A prediction
 * starts from the crop's historical average yield and adjusts it by a
 * weather factor and a soil factor, both percentages built from fixed
 * bonuses and penalties for readings inside or outside their optimal ranges.
 * All arithmetic is i128; Rust's `/` truncates toward zero, which `Quot`
 * models.
 */
module CropPrediction {
  import opened Common

  /** A stored prediction, as the reporting functions read it. */
  datatype YieldPrediction = YieldPrediction(predictionId: nat, cropId: nat, region: string,
                                             predictedYield: int, timestamp: nat)

  function Sum(s: seq<int>): int
  {
    if |s| == 0 then 0 else Sum(s[..|s| - 1]) + s[|s| - 1]
  }

  lemma SumAppend(s: seq<int>, x: int)
    ensures Sum(s + [x]) == Sum(s) + x
  {
    assert (s + [x])[..|s|] == s;
  }

  /** The mean as the contract computes it: the sum divided by the count,
      truncated, and 0 for an empty sequence. For a non-negative sum it is
      the floor of the mean. It gives the historical average of a crop's
      yields here and the expected yield of recent predictions in
      reporting. */
  function Mean(values: seq<int>): (avg: int)
    ensures |values| == 0 ==> avg == 0
    ensures |values| > 0 && Sum(values) >= 0 ==> 0 <= avg * |values| <= Sum(values) < (avg + 1) * |values|
  {
    if |values| > 0 then
      var q := Quot(Sum(values), |values|);
      if Sum(values) >= 0 then
        QuotOfNonNegative(Sum(values), |values|);
        q
      else q
    else 0
  }

  lemma {:induction false} SumBounds(s: seq<int>, lo: int, hi: int)
    requires forall i :: 0 <= i < |s| ==> lo <= s[i] <= hi
    ensures |s| * lo <= Sum(s) <= |s| * hi
    decreases |s|
  {
    if |s| > 0 {
      SumBounds(s[..|s| - 1], lo, hi);
    }
  }

  /** When every value lies in [lo, hi] with lo non-negative, so does the
      mean. */
  lemma MeanWithinRange(values: seq<int>, lo: nat, hi: int)
    requires |values| > 0
    requires forall i :: 0 <= i < |values| ==> lo <= values[i] <= hi
    ensures lo <= Mean(values) <= hi
  {
    var n := |values|;
    SumBounds(values, lo, hi);
    SumNonNegative(values);
    var s := Sum(values);
    QuotOfNonNegative(s, n);
    DivNonNegative(s, n);
    var avg := Mean(values);
    assert 0 <= lo <= values[0] <= hi;
    MulCancel(avg, hi, n);
    MulCancelStrict(lo, avg + 1, n);
  }

  /** One reading's contribution: `good` inside [lo, hi], `bad` outside. */
  function Bonus(x: int, lo: int, hi: int, good: int, bad: int): int
  {
    if lo <= x <= hi then good else bad
  }

  /** `calculate_weather_impact` over temperature, humidity, rainfall and
      sunshine hours. */
  function WeatherImpact(weather: seq<int>): (f: int)
    ensures |weather| < 4 ==> f == 0
    ensures |weather| >= 4 ==> -23 <= f <= 38
    ensures f == 38 <==>
      |weather| >= 4 && 18 <= weather[0] <= 25 && 60 <= weather[1] <= 80 && 500 <= weather[2] <= 1000 &&
      6 <= weather[3] <= 8
  {
    if |weather| < 4 then 0
    else
      Bonus(weather[0], 18, 25, 10, -5) + Bonus(weather[1], 60, 80, 5, -3) + Bonus(weather[2], 500, 1000, 15, -10) +
      Bonus(weather[3], 6, 8, 8, -5)
  }

  /** `calculate_soil_impact` over pH (scaled by 10), nitrogen, phosphorus,
      potassium and organic matter. */
  function SoilImpact(soil: seq<int>): (f: int)
    ensures |soil| < 5 ==> f == 0
    ensures |soil| >= 5 ==> -27 <= f <= 53
    ensures f == 53 <==>
      |soil| >= 5 && 60 <= soil[0] <= 75 && 20 <= soil[1] <= 40 && 15 <= soil[2] <= 30 && 100 <= soil[3] <= 200 &&
      25 <= soil[4] <= 50
  {
    if |soil| < 5 then 0
    else
      Bonus(soil[0], 60, 75, 8, -4) + Bonus(soil[1], 20, 40, 12, -6) + Bonus(soil[2], 15, 30, 8, -4) +
      Bonus(soil[3], 100, 200, 10, -5) + Bonus(soil[4], 25, 50, 15, -8)
  }

  /** The unclamped prediction: the average plus its weather and soil
      percentages, each truncated. */
  function RawPrediction(avg: int, weatherFactor: int, soilFactor: int): int
  {
    avg + Quot(avg * weatherFactor, 100) + Quot(avg * soilFactor, 100)
  }

  /** `calculate_yield_prediction`: never negative, and with too few
      readings of either kind that factor contributes nothing. */
  function PredictedYield(historicalYields: seq<int>, weather: seq<int>, soil: seq<int>): (y: int)
    ensures y >= 0
    ensures y > 0 ==> y == RawPrediction(Mean(historicalYields), WeatherImpact(weather), SoilImpact(soil))
    ensures |weather| < 4 && |soil| < 5 && Mean(historicalYields) >= 0 ==>
              y == Mean(historicalYields)
  {
    var y := RawPrediction(Mean(historicalYields), WeatherImpact(weather), SoilImpact(soil));
    if y < 0 then 0 else y
  }

  /** A percentage adjustment of a non-negative amount by a factor in
      [lo, hi] lies between lo% and hi% of the amount. */
  lemma AdjustmentBounds(a: nat, f: int, lo: int, hi: nat)
    requires lo <= 0 && lo <= f <= hi
    ensures lo * a <= Quot(a * f, 100) * 100 <= hi * a
  {
    var q := Quot(a * f, 100);
    if f >= 0 {
      MulMonotone(f, hi, a);
      assert q == Abs(a * f) / 100;
    } else {
      assert a * f <= 0;
      assert Abs(a * f) == a * (-f);
      MulMonotone(-f, -lo, a);
      assert -q == Abs(a * f) / 100;
    }
  }

  /** For a crop with non-negative values the clamp never bites, and the
      prediction lies between half and 191% of the historical average. */
  lemma PredictionNearAverage(historicalYields: seq<int>, weather: seq<int>, soil: seq<int>)
    requires forall i :: 0 <= i < |historicalYields| ==> historicalYields[i] >= 0
    ensures var avg := Mean(historicalYields);
      var y := PredictedYield(historicalYields, weather, soil);
      && y == RawPrediction(avg, WeatherImpact(weather), SoilImpact(soil))
      && avg * 50 <= y * 100 <= avg * 191
  {
    var avg := Mean(historicalYields);
    SumNonNegative(historicalYields);
    if |historicalYields| > 0 {
      QuotOfNonNegative(Sum(historicalYields), |historicalYields|);
      DivNonNegative(Sum(historicalYields), |historicalYields|);
    }
    AdjustmentBounds(avg, WeatherImpact(weather), -23, 38);
    AdjustmentBounds(avg, SoilImpact(soil), -27, 53);
  }

  lemma {:induction false} SumNonNegative(values: seq<int>)
    requires forall i :: 0 <= i < |values| ==> values[i] >= 0
    ensures Sum(values) >= 0
    decreases |values|
  {
    if |values| > 0 {
      SumNonNegative(values[..|values| - 1]);
    }
  }
}
