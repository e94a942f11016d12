/*
 * The agricultural-quality contract: certifications submitted by their
 * holders, inspected by registered inspectors and issued by registered
 * authorities; quality metrics per standard and compliance scoring of an
 * inspection against them; disputes filed against a certification, their
 * mediation, resolution, appeal and compensation.
 *
 * Certification and dispute ids are 32-byte hashes in the contract; here
 * they are supplied by the caller.  The sets of authorities, inspectors
 * and mediators are fixed when the contract is created.
 */
module AgriQuality {
  import opened Common

  type CertId = nat
  type DisputeId = nat

  /** A 32-byte hash (evidence hashes are checked byte by byte). */
  type Hash = seq<bv8>

  const MAX_CONDITIONS: nat := 8
  /** The window `assign_mediator` opens for an appeal: seven days. */
  const APPEAL_WINDOW: nat := 7 * SECONDS_PER_DAY
  /** The placeholder issuer of a certification that was not yet processed. */
  const UNSET_ISSUER: Address := 0
  const BELOW_MIN_FINDING: string := "Score below minimum required threshold"
  const BELOW_MIN_RECOMMENDATION: string := "Improve metric score to meet minimum requirements"

  datatype QualityStandard =
    | GlobalGAP | Organic | Fairtrade | UTZ | NonGMO | PDO | PGI | Kosher | GOTS | Demeter
    | Custom(symbol: string)

  datatype CertificationStatus = Pending | Active | Suspended | Revoked | Expired

  datatype DisputeStatus = Filed | UnderReview | InMediation | Resolved | Appealed | Closed

  /** The outcomes the dispute and resolution code use, `Pending` included. */
  datatype ResolutionOutcome = Upheld | Revoked | Modified | RequireReinspection | Dismissed | Pending

  datatype Certification = Certification(holder: Address, standard: QualityStandard,
                                         status: CertificationStatus, issueDate: nat, expiryDate: nat,
                                         issuer: Address, auditScore: nat, conditions: seq<string>)

  datatype Metric = Metric(name: string, standard: QualityStandard, minScore: nat, weight: nat,
                           version: nat, authority: Address)

  datatype Inspection = Inspection(inspector: Address, timestamp: nat, metrics: seq<(string, nat)>,
                                   overallScore: nat, findings: seq<string>,
                                   recommendations: seq<string>)

  /** A dispute; before a mediator is assigned its mediator is the contract
      itself and its appeal deadline 0. */
  datatype Dispute = Dispute(id: DisputeId, certification: CertId, description: string,
                             complainant: Address, respondent: Address, timestamp: nat,
                             status: DisputeStatus, evidence: seq<Hash>, mediator: Address,
                             resolution: ResolutionOutcome, appealDeadline: nat)

  datatype Evidence = Evidence(hash: Hash, handler: Address, timestamp: nat, description: string,
                               dataType: string, metadata: seq<(string, string)>)

  datatype AgricQualityError =
    | AlreadyExists
    | NotFound
    | Unauthorized
    | InvalidInput
    | Expired
    | InsufficientScore
    | InvalidStatus
    | InvalidEvidence
    | DeadlinePassed
    | NotEligible
    | CapacityExceeded
    | StandardMismatch
    | InsufficientAuthority
    | InvalidTimestamp
    | DuplicateSubmission

  function ListAt<K, V>(m: map<K, seq<V>>, k: K): seq<V>
  {
    if k in m then m[k] else []
  }

  // ---------------------------------------------------------------------
  // Certification
  // ---------------------------------------------------------------------

  /** A submission carries between one and eight conditions. */
  function ConditionsCheck(conditions: seq<string>): (e: Option<AgricQualityError>)
    ensures e == None <==> 1 <= |conditions| <= MAX_CONDITIONS
    ensures e != None ==> e == Some(InvalidInput)
  {
    if |conditions| < 1 || |conditions| > MAX_CONDITIONS then Some(InvalidInput) else None
  }

  function ScoreSum(metrics: seq<(string, nat)>): nat
  {
    if |metrics| == 0 then 0 else ScoreSum(metrics[..|metrics| - 1]) + metrics[|metrics| - 1].1
  }

  /** The overall score of an inspection: the mean metric score rounded
      down, 0 when no metric was scored. */
  function InspectionOverall(metrics: seq<(string, nat)>): (r: nat)
    ensures |metrics| == 0 ==> r == 0
    ensures |metrics| > 0 ==> r * |metrics| <= ScoreSum(metrics) < (r + 1) * |metrics|
  {
    if |metrics| == 0 then 0 else ScoreSum(metrics) / |metrics|
  }

  lemma {:induction false} ScoreSumAtMost(metrics: seq<(string, nat)>, bound: nat)
    requires forall i :: 0 <= i < |metrics| ==> metrics[i].1 <= bound
    ensures ScoreSum(metrics) <= bound * |metrics|
  {
    if |metrics| > 0 {
      ScoreSumAtMost(metrics[..|metrics| - 1], bound);
    }
  }

  /** The overall score never exceeds the best metric score. */
  lemma InspectionOverallAtMost(metrics: seq<(string, nat)>, bound: nat)
    requires forall i :: 0 <= i < |metrics| ==> metrics[i].1 <= bound
    ensures InspectionOverall(metrics) <= bound
  {
    if |metrics| > 0 {
      ScoreSumAtMost(metrics, bound);
      var r := InspectionOverall(metrics);
      assert r * |metrics| <= bound * |metrics|;
      MulCancel(r, bound, |metrics|);
    }
  }

  // ---------------------------------------------------------------------
  // Quality metrics
  // ---------------------------------------------------------------------

  /** A metric's minimum score and weight are percentages. */
  function MetricCheck(minScore: nat, weight: nat): (e: Option<AgricQualityError>)
    ensures e == None <==> minScore <= 100 && weight <= 100
    ensures e != None ==> e == Some(InvalidInput)
  {
    if minScore > 100 || weight > 100 then Some(InvalidInput) else None
  }

  /** The score an inspection gave the metric named `name`: the first entry
      with that name, 0 when there is none. */
  function ScoreOf(metrics: seq<(string, nat)>, name: string): (r: nat)
    ensures (forall i :: 0 <= i < |metrics| ==> metrics[i].0 != name) ==> r == 0
    ensures forall i :: (0 <= i < |metrics| && metrics[i].0 == name &&
                        (forall j :: 0 <= j < i ==> metrics[j].0 != name)) ==> r == metrics[i].1
  {
    if |metrics| == 0 then 0
    else if metrics[0].0 == name then metrics[0].1
    else
      var rest := metrics[1..];
      assert forall i :: 1 <= i < |metrics| ==> metrics[i] == rest[i - 1];
      ScoreOf(rest, name)
  }

  /** How much of a score is left after `days` days, as written: the decay
      `days * (1 / 100)` is computed in integers, where `1 / 100` is 0, so
      the score is never reduced. */
  function TimeFactorAsWritten(base: nat, days: nat): (r: int)
    ensures r == base
  {
    if days > 0 then
      var decay := days * (1 / 100);
      if decay >= 1 then 0 else (1 - decay) * base
    else
      base
  }

  /** How much of a score is left after `days` days when it loses one
      percent of its value per day, nothing once a hundred days have
      passed. */
  function TimeFactor(base: nat, days: nat): (r: nat)
    ensures r <= base
    ensures days == 0 ==> r == base
    ensures days >= 100 ==> r == 0
    ensures 0 < days && 0 < base ==> r < base
  {
    if days >= 100 then 0
    else
      MulMonotone(100 - days, 100, base);
      assert (100 - days) * base <= 100 * base;
      base * (100 - days) / 100
  }

  /** An older inspection is worth no more than a newer one. */
  lemma TimeFactorMonotone(base: nat, d1: nat, d2: nat)
    requires d1 <= d2
    ensures TimeFactor(base, d2) <= TimeFactor(base, d1)
  {
    if d2 < 100 {
      MulMonotone(100 - d2, 100 - d1, base);
      assert base * (100 - d2) <= base * (100 - d1);
      DivMonotone(base * (100 - d2), base * (100 - d1), 100);
    }
  }

  /** The standard-specific adjustment: Organic and NonGMO scores below 95%
      of the minimum fail outright, Kosher scoring is pass (100) or fail
      (0), and no score exceeds 100. */
  function AdjustedScore(standard: QualityStandard, score: nat, minScore: nat): (r: nat)
    ensures r <= 100
    ensures (standard.Organic? || standard.NonGMO?) && score < minScore * 95 / 100 ==> r == 0
    ensures (standard.Organic? || standard.NonGMO?) && score >= minScore * 95 / 100 ==>
              r == Min(score, 100)
    ensures standard.Kosher? ==> (r == 100 <==> score >= minScore) && (r == 0 <==> score < minScore)
    ensures !(standard.Organic? || standard.NonGMO? || standard.Kosher?) ==> r == Min(score, 100)
  {
    var adjusted :=
      match standard
      case Organic | NonGMO => if score < minScore * 95 / 100 then 0 else score
      case Kosher => if score >= minScore then 100 else 0
      case _ => score;
    Min(adjusted, 100)
  }

  /** What `calculate_metric_score` needs besides the metric: the
      certification's standard, its latest inspection (if any), and the
      whole days since the certification was issued. */
  datatype Scoring = Scoring(standard: QualityStandard, inspection: Option<Inspection>, days: nat)

  function BaseScore(ctx: Scoring, name: string): nat
  {
    if ctx.inspection.Some? then ScoreOf(ctx.inspection.value.metrics, name) else 0
  }

  /** A metric's score as written: the time decay never applies. */
  function MetricScoreAsWritten(ctx: Scoring, m: Metric): (r: nat)
    ensures r <= 100
  {
    AdjustedScore(ctx.standard, TimeFactorAsWritten(BaseScore(ctx, m.name), ctx.days), m.minScore)
  }

  /** A metric's score with the one-percent-per-day decay applied. */
  function MetricScore(ctx: Scoring, m: Metric): (r: nat)
    ensures r <= 100
  {
    AdjustedScore(ctx.standard, TimeFactor(BaseScore(ctx, m.name), ctx.days), m.minScore)
  }

  /** As written, the age of the certification has no effect on a score. */
  lemma MetricScoreAsWrittenIgnoresAge(ctx: Scoring, m: Metric, days: nat)
    ensures MetricScoreAsWritten(ctx.(days := days), m) == MetricScoreAsWritten(ctx, m)
  {
  }

  /** A certification inspected with 80 points on one metric still scores
      80 a month later as written; with the decay it scores 56. */
  lemma DecayIgnoredExample()
    ensures var insp := Inspection(1, 0, [("soil", 80)], 80, [], []);
            var m := Metric("soil", GlobalGAP, 50, 10, 1, 2);
            var ctx := Scoring(GlobalGAP, Some(insp), 30);
            MetricScoreAsWritten(ctx, m) == 80 && MetricScore(ctx, m) == 56
  {
    var insp := Inspection(1, 0, [("soil", 80)], 80, [], []);
    assert ScoreOf(insp.metrics, "soil") == 80;
  }

  /** The scores of a metric list, in order. */
  function Scores(ctx: Scoring, ms: seq<Metric>): (r: seq<nat>)
    ensures |r| == |ms|
    ensures forall i :: 0 <= i < |ms| ==> r[i] == MetricScore(ctx, ms[i]) && r[i] <= 100
  {
    if |ms| == 0 then [] else Scores(ctx, ms[..|ms| - 1]) + [MetricScore(ctx, ms[|ms| - 1])]
  }

  /** Each metric's name paired with its score. */
  function Named(ms: seq<Metric>, ss: seq<nat>): (r: seq<(string, nat)>)
    requires |ss| == |ms|
    ensures |r| == |ms|
    ensures forall i :: 0 <= i < |ms| ==> r[i] == (ms[i].name, ss[i])
  {
    if |ms| == 0 then [] else Named(ms[..|ms| - 1], ss[..|ss| - 1]) + [(ms[|ms| - 1].name, ss[|ss| - 1])]
  }

  /** The sum of score times weight. */
  function WeightedTotal(ms: seq<Metric>, ss: seq<nat>): nat
    requires |ss| == |ms|
  {
    if |ms| == 0 then 0 else WeightedTotal(ms[..|ms| - 1], ss[..|ss| - 1]) + ss[|ss| - 1] * ms[|ms| - 1].weight
  }

  function WeightTotal(ms: seq<Metric>): nat
  {
    if |ms| == 0 then 0 else WeightTotal(ms[..|ms| - 1]) + ms[|ms| - 1].weight
  }

  /** One copy of `note` per metric scoring below its minimum. */
  function BelowMinimum(ms: seq<Metric>, ss: seq<nat>, note: string): seq<string>
    requires |ss| == |ms|
  {
    if |ms| == 0 then []
    else
      BelowMinimum(ms[..|ms| - 1], ss[..|ss| - 1], note) +
      (if ss[|ss| - 1] < ms[|ms| - 1].minScore then [note] else [])
  }

  /** The weighted mean, 0 when no weight was counted. */
  function WeightedMean(total: nat, weight: nat): nat
  {
    if weight > 0 then total / weight else 0
  }

  lemma {:induction false} WeightedTotalBetween(ms: seq<Metric>, ss: seq<nat>, lo: nat, hi: nat)
    requires |ss| == |ms|
    requires forall i :: 0 <= i < |ss| ==> lo <= ss[i] <= hi
    ensures lo * WeightTotal(ms) <= WeightedTotal(ms, ss) <= hi * WeightTotal(ms)
  {
    if |ms| > 0 {
      var init, rest := ms[..|ms| - 1], ss[..|ss| - 1];
      assert forall i :: 0 <= i < |rest| ==> rest[i] == ss[i];
      WeightedTotalBetween(init, rest, lo, hi);
      WeightedStep(lo, hi, ss[|ss| - 1], ms[|ms| - 1].weight, WeightTotal(init), WeightedTotal(init, rest));
    }
  }

  /** One step of a weighted sum stays between the bounds. */
  lemma WeightedStep(lo: nat, hi: nat, s: nat, w: nat, w0: nat, t0: nat)
    requires lo <= s <= hi && lo * w0 <= t0 <= hi * w0
    ensures lo * (w0 + w) <= t0 + s * w <= hi * (w0 + w)
  {
    MulMonotone(lo, s, w);
    MulMonotone(s, hi, w);
    assert lo * (w0 + w) == lo * w0 + lo * w;
    assert hi * (w0 + w) == hi * w0 + hi * w;
  }

  /** A quotient of a total lying between lo and hi times the divisor lies
      between lo and hi. */
  lemma MeanBetween(t: nat, w: nat, lo: nat, hi: nat)
    requires w > 0 && lo * w <= t <= hi * w
    ensures lo <= t / w <= hi
  {
    var q := t / w;
    assert q * w <= t < (q + 1) * w;
    MulCancel(q, hi, w);
    MulCancelStrict(lo, q + 1, w);
  }

  /** The overall compliance score lies between the lowest and the highest
      metric score. */
  lemma WeightedMeanBetween(ms: seq<Metric>, ss: seq<nat>, lo: nat, hi: nat)
    requires |ss| == |ms|
    requires forall i :: 0 <= i < |ss| ==> lo <= ss[i] <= hi
    ensures WeightedMean(WeightedTotal(ms, ss), WeightTotal(ms)) <= hi
    ensures WeightTotal(ms) > 0 ==> lo <= WeightedMean(WeightedTotal(ms, ss), WeightTotal(ms))
  {
    var t, w := WeightedTotal(ms, ss), WeightTotal(ms);
    if w > 0 {
      WeightedTotalBetween(ms, ss, lo, hi);
      MeanBetween(t, w, lo, hi);
    }
  }

  /** No finding is written exactly when every metric meets its minimum;
      there is at most one finding per metric. */
  lemma {:induction false} NoFindingsIffCompliant(ms: seq<Metric>, ss: seq<nat>, note: string)
    requires |ss| == |ms|
    ensures |BelowMinimum(ms, ss, note)| <= |ms|
    ensures BelowMinimum(ms, ss, note) == [] <==> forall i :: 0 <= i < |ms| ==> ss[i] >= ms[i].minScore
  {
    if |ms| > 0 {
      var init, rest := ms[..|ms| - 1], ss[..|ss| - 1];
      NoFindingsIffCompliant(init, rest, note);
      assert forall i :: 0 <= i < |init| ==> init[i] == ms[i] && rest[i] == ss[i];
    }
  }

  lemma {:induction false} BelowMinimumSameLength(ms: seq<Metric>, ss: seq<nat>, a: string, b: string)
    requires |ss| == |ms|
    ensures |BelowMinimum(ms, ss, a)| == |BelowMinimum(ms, ss, b)|
  {
    if |ms| > 0 {
      BelowMinimumSameLength(ms[..|ms| - 1], ss[..|ss| - 1], a, b);
    }
  }

  /** Extending the scored prefix by one metric. */
  lemma ScoringStep(ms: seq<Metric>, ss: seq<nat>, i: nat)
    requires |ss| == |ms| && i < |ms|
    ensures WeightedTotal(ms[..i + 1], ss[..i + 1]) == WeightedTotal(ms[..i], ss[..i]) + ss[i] * ms[i].weight
    ensures WeightTotal(ms[..i + 1]) == WeightTotal(ms[..i]) + ms[i].weight
    ensures Named(ms[..i + 1], ss[..i + 1]) == Named(ms[..i], ss[..i]) + [(ms[i].name, ss[i])]
    ensures forall note :: BelowMinimum(ms[..i + 1], ss[..i + 1], note) ==
                           BelowMinimum(ms[..i], ss[..i], note) + (if ss[i] < ms[i].minScore then [note] else [])
  {
    assert ms[..i + 1][..i] == ms[..i] && ss[..i + 1][..i] == ss[..i];
  }

  /** The scoring loop of `check_compliance`: one score per metric, a
      finding and a recommendation for each metric below its minimum, and
      the running totals of weighted scores and weights. */
  method ScoreMetrics(ctx: Scoring, ms: seq<Metric>)
    returns (total: nat, weight: nat, named: seq<(string, nat)>, findings: seq<string>,
             recommendations: seq<string>)
    ensures var ss := Scores(ctx, ms);
            total == WeightedTotal(ms, ss) && weight == WeightTotal(ms) && named == Named(ms, ss) &&
            findings == BelowMinimum(ms, ss, BELOW_MIN_FINDING) &&
            recommendations == BelowMinimum(ms, ss, BELOW_MIN_RECOMMENDATION)
  {
    ghost var ss := Scores(ctx, ms);
    total, weight := 0, 0;
    named, findings, recommendations := [], [], [];
    var i := 0;
    while i < |ms|
      invariant 0 <= i <= |ms|
      invariant total == WeightedTotal(ms[..i], ss[..i]) && weight == WeightTotal(ms[..i])
      invariant named == Named(ms[..i], ss[..i])
      invariant findings == BelowMinimum(ms[..i], ss[..i], BELOW_MIN_FINDING)
      invariant recommendations == BelowMinimum(ms[..i], ss[..i], BELOW_MIN_RECOMMENDATION)
    {
      var m := ms[i];
      var score := MetricScore(ctx, m);
      ScoringStep(ms, ss, i);
      if score < m.minScore {
        findings := findings + [BELOW_MIN_FINDING];
        recommendations := recommendations + [BELOW_MIN_RECOMMENDATION];
      }
      total := total + score * m.weight;
      weight := weight + m.weight;
      named := named + [(m.name, score)];
      i := i + 1;
    }
    assert ms[..|ms|] == ms && ss[..|ss|] == ss;
  }

  /** The metrics listed for a standard, in listing order, skipping names
      with no metric stored. */
  function Listed(names: seq<string>, standard: QualityStandard,
                  metrics: map<(QualityStandard, string), Metric>): seq<Metric>
  {
    if |names| == 0 then []
    else
      var key := (standard, names[|names| - 1]);
      Listed(names[..|names| - 1], standard, metrics) + (if key in metrics then [metrics[key]] else [])
  }

  /** The lookup loop of `get_standard_metrics`. */
  method LookUpMetrics(names: seq<string>, standard: QualityStandard,
                       metrics: map<(QualityStandard, string), Metric>)
    returns (r: seq<Metric>)
    ensures r == Listed(names, standard, metrics)
  {
    r := [];
    var i := 0;
    while i < |names|
      invariant 0 <= i <= |names|
      invariant r == Listed(names[..i], standard, metrics)
    {
      if (standard, names[i]) in metrics {
        r := r + [metrics[(standard, names[i])]];
      }
      assert names[..i + 1][..i] == names[..i];
      i := i + 1;
    }
    assert names[..|names|] == names;
  }

  /** When every listed name has a metric, nothing is skipped. */
  lemma {:induction false} ListedAllFound(names: seq<string>, standard: QualityStandard,
                                          metrics: map<(QualityStandard, string), Metric>)
    requires forall i :: 0 <= i < |names| ==> (standard, names[i]) in metrics
    ensures |Listed(names, standard, metrics)| == |names|
    ensures forall i :: 0 <= i < |names| ==> Listed(names, standard, metrics)[i] == metrics[(standard, names[i])]
  {
    if |names| > 0 {
      var init := names[..|names| - 1];
      ListedAllFound(init, standard, metrics);
      assert forall i :: 0 <= i < |init| ==> init[i] == names[i];
    }
  }

  /** Every stored metric sits under its own key, has percentage minimum
      and weight and a version from 1 on; each standard lists exactly the
      names of its metrics, once each. */
  ghost predicate MetricsValid(metrics: map<(QualityStandard, string), Metric>,
                               lists: map<QualityStandard, seq<string>>)
  {
    MetricEntriesValid(metrics) && MetricsListed(metrics, lists) && ListsResolve(metrics, lists)
  }

  ghost predicate MetricEntriesValid(metrics: map<(QualityStandard, string), Metric>)
  {
    forall k {:trigger metrics[k]} :: k in metrics ==>
      metrics[k].standard == k.0 && metrics[k].name == k.1 &&
      metrics[k].minScore <= 100 && metrics[k].weight <= 100 && metrics[k].version >= 1
  }

  ghost predicate MetricsListed(metrics: map<(QualityStandard, string), Metric>,
                                lists: map<QualityStandard, seq<string>>)
  {
    forall k :: k in metrics ==> k.1 in ListAt(lists, k.0)
  }

  ghost predicate ListsResolve(metrics: map<(QualityStandard, string), Metric>,
                               lists: map<QualityStandard, seq<string>>)
  {
    forall s :: s in lists ==>
      NoDuplicates(lists[s]) && forall i :: 0 <= i < |lists[s]| ==> (s, lists[s][i]) in metrics
  }

  lemma NewMetricListed(metrics: map<(QualityStandard, string), Metric>,
                        lists: map<QualityStandard, seq<string>>, m: Metric)
    requires MetricsListed(metrics, lists)
    ensures MetricsListed(metrics[(m.standard, m.name) := m],
                          lists[m.standard := ListAt(lists, m.standard) + [m.name]])
  {
    var s, n := m.standard, m.name;
    var lists' := lists[s := ListAt(lists, s) + [n]];
    forall k | k in metrics[(s, n) := m]
      ensures k.1 in ListAt(lists', k.0)
    {
      if k != (s, n) {
        assert k.1 in ListAt(lists, k.0);
      }
    }
  }

  lemma NewMetricResolves(metrics: map<(QualityStandard, string), Metric>,
                          lists: map<QualityStandard, seq<string>>, m: Metric)
    requires ListsResolve(metrics, lists)
    requires (m.standard, m.name) !in metrics
    ensures ListsResolve(metrics[(m.standard, m.name) := m],
                         lists[m.standard := ListAt(lists, m.standard) + [m.name]])
  {
    var s, n := m.standard, m.name;
    var l := ListAt(lists, s);
    var metrics', lists' := metrics[(s, n) := m], lists[s := l + [n]];
    assert n !in l;
    forall t | t in lists'
      ensures NoDuplicates(lists'[t]) && forall i :: 0 <= i < |lists'[t]| ==> (t, lists'[t][i]) in metrics'
    {
      if t == s {
        forall i | 0 <= i < |l|
          ensures (s, (l + [n])[i]) in metrics'
        {
          assert (l + [n])[i] == l[i];
        }
      }
    }
  }

  lemma NewMetricKeepsValid(metrics: map<(QualityStandard, string), Metric>,
                            lists: map<QualityStandard, seq<string>>, m: Metric)
    requires MetricsValid(metrics, lists)
    requires (m.standard, m.name) !in metrics
    requires m.minScore <= 100 && m.weight <= 100 && m.version >= 1
    ensures MetricsValid(metrics[(m.standard, m.name) := m],
                         lists[m.standard := ListAt(lists, m.standard) + [m.name]])
  {
    NewMetricListed(metrics, lists, m);
    NewMetricResolves(metrics, lists, m);
  }

  /** Giving a stored metric new percentage values and the next version
      keeps the store valid. */
  lemma ChangedMetricKeepsValid(metrics: map<(QualityStandard, string), Metric>,
                                lists: map<QualityStandard, seq<string>>, k: (QualityStandard, string),
                                minScore: nat, weight: nat)
    requires MetricsValid(metrics, lists) && k in metrics && minScore <= 100 && weight <= 100
    ensures MetricsValid(metrics[k := metrics[k].(minScore := minScore, weight := weight,
                                                   version := metrics[k].version + 1)], lists)
  {
    var metrics' := metrics[k := metrics[k].(minScore := minScore, weight := weight,
                                             version := metrics[k].version + 1)];
    assert metrics'.Keys == metrics.Keys;
  }

  /** Under a valid store, the metrics listed for a standard are all found,
      belong to that standard and have distinct names. */
  lemma ListedOfValid(metrics: map<(QualityStandard, string), Metric>,
                      lists: map<QualityStandard, seq<string>>, standard: QualityStandard)
    requires MetricsValid(metrics, lists)
    ensures var names := ListAt(lists, standard);
            var r := Listed(names, standard, metrics);
            |r| == |names| &&
            (forall i :: 0 <= i < |r| ==> r[i] == metrics[(standard, names[i])] && r[i].standard == standard) &&
            (forall i, j :: 0 <= i < j < |r| ==> r[i].name != r[j].name)
  {
    var names := ListAt(lists, standard);
    assert forall i :: 0 <= i < |names| ==> (standard, names[i]) in metrics;
    ListedAllFound(names, standard, metrics);
    var r := Listed(names, standard, metrics);
    forall i, j | 0 <= i < j < |r|
      ensures r[i].name != r[j].name
    {
      assert r[i].name == names[i] && r[j].name == names[j];
    }
  }

  /** Every certification id listed for a holder is a certification of that
      holder. */
  ghost predicate HoldersValid(lists: map<Address, seq<CertId>>, certs: map<CertId, Certification>)
  {
    forall h, i :: h in lists && 0 <= i < |lists[h]| ==> lists[h][i] in certs && certs[lists[h][i]].holder == h
  }

  lemma SameHoldersKeepValid(lists: map<Address, seq<CertId>>, certs: map<CertId, Certification>,
                             certs': map<CertId, Certification>)
    requires HoldersValid(lists, certs)
    requires forall id :: id in certs ==>
      id in certs' && certs'[id].holder == certs[id].holder
    ensures HoldersValid(lists, certs')
  {
  }

  /** The certifications found for a list of ids, in order, skipping ids
      with no certification. */
  function History(ids: seq<CertId>, certs: map<CertId, Certification>): seq<Certification>
  {
    if |ids| == 0 then []
    else
      var last := ids[|ids| - 1];
      History(ids[..|ids| - 1], certs) + (if last in certs then [certs[last]] else [])
  }

  lemma {:induction false} HistoryOfHolder(ids: seq<CertId>, certs: map<CertId, Certification>, h: Address)
    requires forall i :: 0 <= i < |ids| ==> ids[i] in certs && certs[ids[i]].holder == h
    ensures |History(ids, certs)| == |ids|
    ensures forall i :: 0 <= i < |ids| ==> History(ids, certs)[i] == certs[ids[i]]
  {
    if |ids| > 0 {
      var init := ids[..|ids| - 1];
      HistoryOfHolder(init, certs, h);
      assert forall i :: 0 <= i < |init| ==> init[i] == ids[i];
    }
  }

  // ---------------------------------------------------------------------
  // Disputes and resolution
  // ---------------------------------------------------------------------

  predicate AllZero(h: Hash)
  {
    forall j :: 0 <= j < |h| ==> h[j] == 0
  }

  /** Evidence is a non-empty list of hashes, none of them all zero. */
  predicate EvidenceValid(evidence: seq<Hash>)
  {
    |evidence| > 0 && forall i :: 0 <= i < |evidence| ==> !AllZero(evidence[i])
  }

  /** `validate_evidence`: scans the hashes and stops at the first all-zero
      one. */
  method ValidateEvidence(evidence: seq<Hash>) returns (e: Option<AgricQualityError>)
    ensures e == None <==> EvidenceValid(evidence)
    ensures e != None ==> e == Some(InvalidEvidence)
  {
    if |evidence| == 0 {
      return Some(InvalidEvidence);
    }
    var i := 0;
    while i < |evidence|
      invariant 0 <= i <= |evidence|
      invariant forall k :: 0 <= k < i ==> !AllZero(evidence[k])
    {
      var h := evidence[i];
      var j := 0;
      while j < |h| && h[j] == 0
        invariant 0 <= j <= |h|
        invariant forall k :: 0 <= k < j ==> h[k] == 0
      {
        j := j + 1;
      }
      if j == |h| {
        return Some(InvalidEvidence);
      }
      i := i + 1;
    }
    return None;
  }

  /** The certification status an outcome leaves behind; a `Pending`
      outcome is refused. */
  function ResolvedStatus(outcome: ResolutionOutcome): (s: Option<CertificationStatus>)
    ensures s == None <==> outcome == ResolutionOutcome.Pending
    ensures outcome == ResolutionOutcome.Revoked ==> s == Some(CertificationStatus.Revoked)
    ensures outcome == RequireReinspection ==> s == Some(CertificationStatus.Pending)
    ensures outcome == Upheld || outcome == Modified || outcome == Dismissed ==> s == Some(Active)
  {
    match outcome
    case Upheld => Some(Active)
    case Revoked => Some(CertificationStatus.Revoked)
    case Modified => Some(Active)
    case RequireReinspection => Some(CertificationStatus.Pending)
    case Dismissed => Some(Active)
    case Pending => None
  }

  /** A `Modified` outcome keeps 90% of the audit score, rounded down. */
  function ModifiedScore(score: nat): (r: nat)
    ensures r * 100 <= score * 90 < (r + 1) * 100
    ensures score > 0 ==> r < score
  {
    score * 90 / 100
  }

  /** Compensation for a resolved dispute: a thousand per audit point when
      the certification is revoked, half that when it is modified, a flat
      25 000 for a reinspection, nothing otherwise. */
  function Compensation(outcome: ResolutionOutcome, auditScore: nat): (r: nat)
    ensures outcome == Upheld || outcome == Dismissed || outcome == ResolutionOutcome.Pending ==> r == 0
    ensures outcome == ResolutionOutcome.Revoked ==> r == 1000 * auditScore
    ensures outcome == Modified ==> r == 500 * auditScore
    ensures outcome == RequireReinspection ==> r == 25000
  {
    match outcome
    case Upheld => 0
    case Revoked => (100000 * auditScore) / 100
    case Modified => (50000 * auditScore) / 100
    case RequireReinspection => 25000
    case Dismissed => 0
    case Pending => 0
  }

  /** With an audit score of at most 100 no compensation exceeds 100 000,
      and revoking never pays less than modifying. */
  lemma CompensationBounded(outcome: ResolutionOutcome, auditScore: nat)
    requires auditScore <= 100
    ensures Compensation(outcome, auditScore) <= 100000
    ensures Compensation(ResolutionOutcome.Revoked, auditScore) >= Compensation(Modified, auditScore)
  {
    MulMonotone(auditScore, 100, 1000);
  }

  /** Soroban keeps a contract's instance entries and its persistent
      entries apart: a key written to one is not found in the other. */
  datatype Tiers = Tiers(persistent: map<DisputeId, Dispute>, instance: map<DisputeId, Dispute>)

  /** As written, `file_dispute` stores the new dispute in persistent
      storage ... */
  function FileAsWritten(t: Tiers, d: Dispute): (t': Tiers)
    ensures t'.instance == t.instance && d.id in t'.persistent
  {
    t.(persistent := t.persistent[d.id := d])
  }

  /** ... while `assign_mediator` (and every function of the resolution
      code) looks disputes up in instance storage. */
  function AssignLookupAsWritten(t: Tiers, id: DisputeId): (r: Option<Dispute>)
    ensures r.Some? <==> id in t.instance
  {
    if id in t.instance then Some(t.instance[id]) else None
  }

  /** So, as written, a freshly filed dispute is never found by
      `assign_mediator`, which fails with `NotFound`. */
  lemma FiledDisputeNotFoundAsWritten(t: Tiers, d: Dispute)
    requires d.id !in t.instance
    ensures AssignLookupAsWritten(FileAsWritten(t, d), d.id) == None
  {
  }

  /** The same split for certifications: `submit_for_certification` and
      `process_certification` store them in persistent storage, where
      `record_inspection` and `file_dispute` read them ... */
  datatype CertTiers = CertTiers(persistent: map<CertId, Certification>, instance: map<CertId, Certification>)

  function StoreCertAsWritten(t: CertTiers, id: CertId, c: Certification): (t': CertTiers)
    ensures t'.instance == t.instance && id in t'.persistent && t'.persistent[id] == c
  {
    t.(persistent := t.persistent[id := c])
  }

  /** ... while `resolve_dispute` and `calculate_compensation` read them
      from instance storage ... */
  function ResolutionCertAsWritten(t: CertTiers, id: CertId): (r: Option<Certification>)
    ensures r.Some? <==> id in t.instance
  {
    if id in t.instance then Some(t.instance[id]) else None
  }

  /** ... and `resolve_dispute` writes its update there. */
  function ResolutionStoreAsWritten(t: CertTiers, id: CertId, c: Certification): (t': CertTiers)
    ensures t'.persistent == t.persistent && id in t'.instance
  {
    t.(instance := t.instance[id := c])
  }

  /** So, as written, a certification stored by the verification code is
      not found by the resolution code, which fails with `NotFound`; and an
      update it did write would stay invisible to `record_inspection`,
      which keeps seeing the stored status. */
  lemma CertNotFoundAsWritten(t: CertTiers, id: CertId, c: Certification, c': Certification)
    requires id !in t.instance
    ensures ResolutionCertAsWritten(StoreCertAsWritten(t, id, c), id) == None
    ensures var t' := ResolutionStoreAsWritten(StoreCertAsWritten(t, id, c), id, c');
      id in t'.persistent && t'.persistent[id] == c
  {
  }

  class QualityContract {
    const contractAddress: Address
    const authorities: set<Address>
    const inspectors: set<Address>
    const mediators: set<Address>
    var now: nat
    var certifications: map<CertId, Certification>
    var inspections: map<CertId, Inspection>
    var holderCerts: map<Address, seq<CertId>>
    var issuerCerts: map<Address, seq<CertId>>
    var metrics: map<(QualityStandard, string), Metric>
    var standardMetrics: map<QualityStandard, seq<string>>
    var disputes: map<DisputeId, Dispute>
    var evidenceRecords: map<Hash, Evidence>
    var disputesByHolder: map<Address, seq<DisputeId>>
    var disputesByStandard: map<QualityStandard, seq<DisputeId>>

    /** No certification is dated in the future, and every certification
        listed for a holder is one of that holder's. */
    ghost predicate Valid()
      reads this`certifications, this`now, this`holderCerts
    {
      (forall id :: id in certifications ==> certifications[id].issueDate <= now) &&
      HoldersValid(holderCerts, certifications)
    }

    /** The metric store is consistent with the per-standard name lists. */
    ghost predicate MetricsOk()
      reads this`metrics, this`standardMetrics
    {
      MetricsValid(metrics, standardMetrics)
    }

    constructor (self: Address, auths: set<Address>, insps: set<Address>, meds: set<Address>, time: nat)
      ensures contractAddress == self && authorities == auths && inspectors == insps && mediators == meds
      ensures now == time
      ensures certifications == map[] && inspections == map[] && holderCerts == map[] && issuerCerts == map[]
      ensures metrics == map[] && standardMetrics == map[]
      ensures disputes == map[] && evidenceRecords == map[] && disputesByHolder == map[] && disputesByStandard == map[]
      ensures Valid() && MetricsOk()
    {
      contractAddress := self;
      authorities := auths;
      inspectors := insps;
      mediators := meds;
      now := time;
      certifications := map[];
      inspections := map[];
      holderCerts := map[];
      issuerCerts := map[];
      metrics := map[];
      standardMetrics := map[];
      disputes := map[];
      evidenceRecords := map[];
      disputesByHolder := map[];
      disputesByStandard := map[];
    }

    method Tick(time: nat)
      requires Valid() && now <= time
      modifies this`now
      ensures now == time && Valid()
    {
      now := time;
    }

    // --- certification ---------------------------------------------------

    /** Who may record an inspection of `id`: a registered inspector, on a
        certification that is still pending. */
    function RecordInspectionCheck(inspector: Address, id: CertId): (e: Option<AgricQualityError>)
      reads this`certifications
      ensures e == None <==>
        inspector in inspectors && id in certifications && certifications[id].status == CertificationStatus.Pending
      ensures inspector !in inspectors ==> e == Some(Unauthorized)
      ensures inspector in inspectors && id !in certifications ==> e == Some(NotFound)
      ensures (inspector in inspectors && id in certifications &&
              certifications[id].status != CertificationStatus.Pending) ==> e == Some(InvalidStatus)
    {
      if inspector !in inspectors then Some(Unauthorized)
      else if id !in certifications then Some(NotFound)
      else if certifications[id].status != CertificationStatus.Pending then Some(InvalidStatus)
      else None
    }

    /** Who may process `id`: a registered authority, on a pending
        certification that has an inspection report. */
    function ProcessCheck(issuer: Address, id: CertId): (e: Option<AgricQualityError>)
      reads this`certifications, this`inspections
      ensures e == None <==>
        issuer in authorities && id in certifications &&
        certifications[id].status == CertificationStatus.Pending && id in inspections
      ensures issuer !in authorities ==> e == Some(Unauthorized)
      ensures issuer in authorities && id !in certifications ==> e == Some(NotFound)
      ensures (issuer in authorities && id in certifications &&
              certifications[id].status != CertificationStatus.Pending) ==> e == Some(InvalidStatus)
      ensures (issuer in authorities && id in certifications &&
              certifications[id].status == CertificationStatus.Pending && id !in inspections) ==> e == Some(NotFound)
    {
      if issuer !in authorities then Some(Unauthorized)
      else if id !in certifications then Some(NotFound)
      else if certifications[id].status != CertificationStatus.Pending then Some(InvalidStatus)
      else if id !in inspections then Some(NotFound)
      else None
    }

    /** `submit_for_certification`: a new pending certification, issued now,
        without expiry, issuer or score, listed under its holder. */
    method SubmitForCertification(holder: Address, standard: QualityStandard, conditions: seq<string>,
                                  id: CertId)
      returns (r: Result<CertId, AgricQualityError>)
      requires Valid()
      modifies this`certifications, this`holderCerts
      ensures Valid()
      ensures r.Err? ==> unchanged(this)
      ensures ConditionsCheck(conditions).Some? ==> r == Err(InvalidInput)
      ensures ConditionsCheck(conditions).None? && id in old(certifications) ==> r == Err(AlreadyExists)
      ensures r.Ok? <==> ConditionsCheck(conditions).None? && id !in old(certifications)
      ensures r.Ok? ==>
        r.value == id &&
        certifications == old(certifications)[id := Certification(holder, standard, CertificationStatus.Pending,
                                                                    now, 0, UNSET_ISSUER, 0, conditions)] &&
        holderCerts == old(holderCerts)[holder := old(ListAt(holderCerts, holder)) + [id]]
      ensures r.Ok? ==> forall i :: i in inspectors ==> RecordInspectionCheck(i, id) == None
    {
      if ConditionsCheck(conditions).Some? {
        return Err(InvalidInput);
      }
      if id in certifications {
        return Err(AlreadyExists);
      }
      var c := Certification(holder, standard, CertificationStatus.Pending, now, 0, UNSET_ISSUER, 0, conditions);
      var certs' := certifications[id := c];
      SameHoldersKeepValid(holderCerts, certifications, certs');
      certifications := certs';
      holderCerts := holderCerts[holder := ListAt(holderCerts, holder) + [id]];
      return Ok(id);
    }

    /** `record_inspection`: stores (replacing any earlier one) the report
        of a pending certification, its overall score being the mean of the
        metric scores. */
    method RecordInspection(inspector: Address, id: CertId, scores: seq<(string, nat)>,
                            findings: seq<string>, recommendations: seq<string>)
      returns (r: Result<(), AgricQualityError>)
      requires Valid()
      modifies this`inspections
      ensures Valid()
      ensures r.Err? ==> unchanged(this) && Some(r.error) == RecordInspectionCheck(inspector, id)
      ensures r.Ok? <==> RecordInspectionCheck(inspector, id) == None
      ensures r.Ok? ==>
        inspections == old(inspections)[id := Inspection(inspector, now, scores, InspectionOverall(scores),
                                                         findings, recommendations)]
      ensures r.Ok? ==> forall a :: a in authorities ==> ProcessCheck(a, id) == None
    {
      var e := RecordInspectionCheck(inspector, id);
      if e.Some? {
        return Err(e.value);
      }
      inspections := inspections[id := Inspection(inspector, now, scores, InspectionOverall(scores),
                                                  findings, recommendations)];
      return Ok(());
    }

    /** `process_certification`: an approved certification becomes active
        until `now + validityPeriod`, a rejected one revoked with its expiry
        untouched; either way it records the issuer and takes the
        inspection's overall score as its audit score, and is listed under
        the issuer. */
    method ProcessCertification(issuer: Address, id: CertId, approved: bool, validityPeriod: nat)
      returns (r: Result<(), AgricQualityError>)
      requires Valid()
      modifies this`certifications, this`issuerCerts
      ensures Valid()
      ensures r.Err? ==> unchanged(this) && Some(r.error) == old(ProcessCheck(issuer, id))
      ensures r.Ok? <==> old(ProcessCheck(issuer, id)) == None
      ensures r.Ok? ==>
        var c := old(certifications)[id];
        certifications == old(certifications)[id := c.(
          status := if approved then Active else CertificationStatus.Revoked,
          issuer := issuer,
          auditScore := inspections[id].overallScore,
          expiryDate := if approved then now + validityPeriod else c.expiryDate)] &&
        issuerCerts == old(issuerCerts)[issuer := old(ListAt(issuerCerts, issuer)) + [id]]
      ensures r.Ok? ==> ProcessCheck(issuer, id) == Some(InvalidStatus)
      ensures r.Ok? ==> forall i :: i in inspectors ==> RecordInspectionCheck(i, id) == Some(InvalidStatus)
    {
      var e := ProcessCheck(issuer, id);
      if e.Some? {
        return Err(e.value);
      }
      var c := certifications[id];
      var c' := c.(status := if approved then Active else CertificationStatus.Revoked,
                   issuer := issuer,
                   auditScore := inspections[id].overallScore,
                   expiryDate := if approved then now + validityPeriod else c.expiryDate);
      var certs' := certifications[id := c'];
      SameHoldersKeepValid(holderCerts, certifications, certs');
      certifications := certs';
      issuerCerts := issuerCerts[issuer := ListAt(issuerCerts, issuer) + [id]];
      return Ok(());
    }

    /** `get_certification_history`: the holder's certifications in
        submission order. */
    method CertificationHistory(holder: Address) returns (r: seq<Certification>)
      requires Valid()
      ensures r == History(ListAt(holderCerts, holder), certifications)
      ensures |r| == |ListAt(holderCerts, holder)|
      ensures forall i :: 0 <= i < |r| ==> r[i].holder == holder
    {
      var ids := ListAt(holderCerts, holder);
      r := [];
      var i := 0;
      while i < |ids|
        invariant 0 <= i <= |ids|
        invariant r == History(ids[..i], certifications)
      {
        if ids[i] in certifications {
          r := r + [certifications[ids[i]]];
        }
        assert ids[..i + 1][..i] == ids[..i];
        i := i + 1;
      }
      assert ids[..|ids|] == ids;
      HistoryOfHolder(ids, certifications, holder);
    }

    // --- quality metrics -------------------------------------------------

    /** Who may change the metric `name` of `standard` to the given values:
        a registered authority, with percentage values, on an existing
        metric it registered itself. */
    function UpdateCheck(authority: Address, standard: QualityStandard, name: string, minScore: nat,
                         weight: nat): (e: Option<AgricQualityError>)
      reads this`metrics
      ensures e == None <==>
        authority in authorities && MetricCheck(minScore, weight) == None &&
        (standard, name) in metrics && metrics[(standard, name)].authority == authority
      ensures authority !in authorities ==> e == Some(Unauthorized)
      ensures authority in authorities && MetricCheck(minScore, weight) != None ==> e == Some(InvalidInput)
      ensures (authority in authorities && MetricCheck(minScore, weight) == None &&
              (standard, name) !in metrics) ==> e == Some(NotFound)
    {
      if authority !in authorities then Some(Unauthorized)
      else if MetricCheck(minScore, weight).Some? then MetricCheck(minScore, weight)
      else if (standard, name) !in metrics then Some(NotFound)
      else if metrics[(standard, name)].authority != authority then Some(Unauthorized)
      else None
    }

    /** `register_metric`: a new metric at version 1, appended to its
        standard's list. */
    method RegisterMetric(authority: Address, standard: QualityStandard, name: string, minScore: nat,
                          weight: nat)
      returns (r: Result<(), AgricQualityError>)
      requires MetricsOk()
      modifies this`metrics, this`standardMetrics
      ensures MetricsOk()
      ensures r.Err? ==> unchanged(this)
      ensures authority !in authorities ==> r == Err(Unauthorized)
      ensures authority in authorities && MetricCheck(minScore, weight) != None ==> r == Err(InvalidInput)
      ensures (authority in authorities && MetricCheck(minScore, weight) == None &&
              (standard, name) in old(metrics)) ==> r == Err(AlreadyExists)
      ensures r.Ok? <==>
        authority in authorities && MetricCheck(minScore, weight) == None && (standard, name) !in old(metrics)
      ensures r.Ok? ==>
        metrics == old(metrics)[(standard, name) := Metric(name, standard, minScore, weight, 1, authority)] &&
        standardMetrics == old(standardMetrics)[standard := old(ListAt(standardMetrics, standard)) + [name]]
      ensures r.Ok? ==> forall m, w :: m <= 100 && w <= 100 ==> UpdateCheck(authority, standard, name, m, w) == None
    {
      if authority !in authorities {
        return Err(Unauthorized);
      }
      if MetricCheck(minScore, weight).Some? {
        return Err(InvalidInput);
      }
      if (standard, name) in metrics {
        return Err(AlreadyExists);
      }
      var m := Metric(name, standard, minScore, weight, 1, authority);
      NewMetricKeepsValid(metrics, standardMetrics, m);
      metrics := metrics[(standard, name) := m];
      standardMetrics := standardMetrics[standard := ListAt(standardMetrics, standard) + [name]];
      return Ok(());
    }

    /** `update_metric`: the registering authority sets new values and the
        version goes up by one. */
    method UpdateMetric(authority: Address, standard: QualityStandard, name: string, minScore: nat,
                        weight: nat)
      returns (r: Result<(), AgricQualityError>)
      requires MetricsOk()
      modifies this`metrics
      ensures MetricsOk()
      ensures r.Err? ==> unchanged(this) && Some(r.error) == UpdateCheck(authority, standard, name, minScore, weight)
      ensures r.Ok? <==> old(UpdateCheck(authority, standard, name, minScore, weight)) == None
      ensures r.Ok? ==>
        var m := old(metrics)[(standard, name)];
        metrics == old(metrics)[(standard, name) := m.(minScore := minScore, weight := weight,
                                                       version := m.version + 1)] &&
        metrics[(standard, name)].version > m.version
    {
      var e := UpdateCheck(authority, standard, name, minScore, weight);
      if e.Some? {
        return Err(e.value);
      }
      var k := (standard, name);
      var m := metrics[k];
      var m' := m.(minScore := minScore, weight := weight, version := m.version + 1);
      ChangedMetricKeepsValid(metrics, standardMetrics, k, minScore, weight);
      metrics := metrics[k := m'];
      assert metrics == old(metrics)[k := m'];
      r := Ok(());
    }

    /** `get_standard_metrics`: the metrics of a standard in registration
        order, each registered metric exactly once. */
    method StandardMetrics(standard: QualityStandard) returns (r: seq<Metric>)
      requires MetricsOk()
      ensures r == Listed(ListAt(standardMetrics, standard), standard, metrics)
      ensures |r| == |ListAt(standardMetrics, standard)|
      ensures forall i :: 0 <= i < |r| ==> r[i] == metrics[(standard, ListAt(standardMetrics, standard)[i])]
      ensures forall i :: 0 <= i < |r| ==> r[i].standard == standard
      ensures forall i, j :: 0 <= i < j < |r| ==> r[i].name != r[j].name
    {
      r := LookUpMetrics(ListAt(standardMetrics, standard), standard, metrics);
      ListedOfValid(metrics, standardMetrics, standard);
    }

    /** `check_compliance`: scores every metric of the certification's
        standard against its latest inspection, one finding and one
        recommendation per metric below its minimum, and an overall score
        that is the weight-averaged metric score (0 with no weight).  The
        report is returned, not stored. */
    method CheckCompliance(id: CertId, inspector: Address) returns (r: Result<Inspection, AgricQualityError>)
      requires Valid() && MetricsOk()
      ensures inspector !in inspectors ==> r == Err(Unauthorized)
      ensures (inspector in inspectors && id !in certifications) ==> r == Err(NotFound)
      ensures r.Ok? <==> inspector in inspectors && id in certifications
      ensures r.Ok? ==>
        var ctx := ScoringOf(id);
        var ms := Listed(ListAt(standardMetrics, ctx.standard), ctx.standard, metrics);
        var ss := Scores(ctx, ms);
        r.value == Inspection(inspector, now, Named(ms, ss), WeightedMean(WeightedTotal(ms, ss), WeightTotal(ms)),
                              BelowMinimum(ms, ss, BELOW_MIN_FINDING), BelowMinimum(ms, ss, BELOW_MIN_RECOMMENDATION))
      ensures r.Ok? ==> r.value.overallScore <= 100 && |r.value.findings| == |r.value.recommendations|
    {
      if inspector !in inspectors {
        return Err(Unauthorized);
      }
      if id !in certifications {
        return Err(NotFound);
      }
      var ctx := ScoringOf(id);
      var ms := StandardMetrics(ctx.standard);
      var total, weight, named, findings, recommendations := ScoreMetrics(ctx, ms);
      ghost var ss := Scores(ctx, ms);
      WeightedMeanBetween(ms, ss, 0, 100);
      BelowMinimumSameLength(ms, ss, BELOW_MIN_FINDING, BELOW_MIN_RECOMMENDATION);
      return Ok(Inspection(inspector, now, named, WeightedMean(total, weight), findings, recommendations));
    }

    /** What scoring a certification depends on: its standard, its latest
        inspection and the whole days since it was issued. */
    function ScoringOf(id: CertId): Scoring
      requires Valid() && id in certifications
      reads this
    {
      var c := certifications[id];
      Scoring(c.standard, if id in inspections then Some(inspections[id]) else None,
              (now - c.issueDate) / SECONDS_PER_DAY)
    }

    // --- disputes --------------------------------------------------------

    /** Who may assign `mediator` to dispute `id`: a registered authority
        assigning a registered mediator to a dispute that is still filed. */
    function AssignCheck(authority: Address, id: DisputeId, mediator: Address): (e: Option<AgricQualityError>)
      reads this`disputes
      ensures e == None <==>
        authority in authorities && mediator in mediators && id in disputes && disputes[id].status == Filed
      ensures authority !in authorities || mediator !in mediators ==> e == Some(Unauthorized)
      ensures authority in authorities && mediator in mediators && id !in disputes ==> e == Some(NotFound)
      ensures (authority in authorities && mediator in mediators && id in disputes &&
              disputes[id].status != Filed) ==> e == Some(InvalidStatus)
    {
      if authority !in authorities || mediator !in mediators then Some(Unauthorized)
      else if id !in disputes then Some(NotFound)
      else if disputes[id].status != Filed then Some(InvalidStatus)
      else None
    }

    /** Who may resolve dispute `id` with `outcome`: its assigned mediator,
        while the dispute is under review and its certification exists, with
        an outcome other than `Pending`. */
    function ResolveCheck(mediator: Address, id: DisputeId, outcome: ResolutionOutcome): (e: Option<AgricQualityError>)
      reads this`disputes, this`certifications
      ensures e == None <==>
        mediator in mediators && id in disputes && disputes[id].mediator == mediator &&
        disputes[id].status == UnderReview && disputes[id].certification in certifications &&
        outcome != ResolutionOutcome.Pending
      ensures mediator !in mediators ==> e == Some(Unauthorized)
      ensures mediator in mediators && id !in disputes ==> e == Some(NotFound)
      ensures mediator in mediators && id in disputes && disputes[id].mediator != mediator ==> e == Some(Unauthorized)
      ensures (mediator in mediators && id in disputes && disputes[id].mediator == mediator &&
              disputes[id].status != UnderReview) ==> e == Some(InvalidStatus)
    {
      if mediator !in mediators then Some(Unauthorized)
      else if id !in disputes then Some(NotFound)
      else if disputes[id].mediator != mediator then Some(Unauthorized)
      else if disputes[id].status != UnderReview then Some(InvalidStatus)
      else if disputes[id].certification !in certifications then Some(NotFound)
      else if outcome == ResolutionOutcome.Pending then Some(InvalidStatus)
      else None
    }

    /** Who may appeal dispute `id`: one of its parties, once a mediator
        set a deadline that has not passed, on a resolved dispute. */
    function AppealCheck(appellant: Address, id: DisputeId): (e: Option<AgricQualityError>)
      reads this`disputes, this`now
      ensures e == None <==>
        id in disputes && (disputes[id].complainant == appellant || disputes[id].respondent == appellant) &&
        disputes[id].appealDeadline != 0 && now <= disputes[id].appealDeadline && disputes[id].status == Resolved
      ensures id !in disputes ==> e == Some(NotFound)
      ensures id in disputes && disputes[id].complainant != appellant && disputes[id].respondent != appellant ==>
              e == Some(Unauthorized)
      ensures id in disputes && (disputes[id].complainant == appellant || disputes[id].respondent == appellant) ==>
              (disputes[id].appealDeadline == 0 ==> e == Some(NotEligible)) &&
              (disputes[id].appealDeadline != 0 && now > disputes[id].appealDeadline ==> e == Some(DeadlinePassed))
    {
      if id !in disputes then Some(NotFound)
      else
        var d := disputes[id];
        if d.complainant != appellant && d.respondent != appellant then Some(Unauthorized)
        else if d.appealDeadline == 0 then Some(NotEligible)
        else if now > d.appealDeadline then Some(DeadlinePassed)
        else if d.status != Resolved then Some(InvalidStatus)
        else None
    }

    /** `file_dispute`: after the evidence and the certification are
        checked, a filed dispute against the certification's holder,
        mediated by the contract itself and with no appeal deadline, listed
        under the holder and the standard.  An existing dispute with the
        same id is replaced. */
    method FileDispute(complainant: Address, cert: CertId, description: string, evidence: seq<Hash>,
                       id: DisputeId)
      returns (r: Result<DisputeId, AgricQualityError>)
      requires Valid()
      modifies this`disputes, this`disputesByHolder, this`disputesByStandard
      ensures Valid()
      ensures r.Err? ==> unchanged(this)
      ensures !EvidenceValid(evidence) ==> r == Err(InvalidEvidence)
      ensures EvidenceValid(evidence) && cert !in certifications ==> r == Err(NotFound)
      ensures r.Ok? <==> EvidenceValid(evidence) && cert in certifications
      ensures r.Ok? ==>
        var c := certifications[cert];
        r.value == id &&
        disputes == old(disputes)[id := Dispute(id, cert, description, complainant, c.holder, now, Filed,
                                                evidence, contractAddress, ResolutionOutcome.Pending, 0)] &&
        disputesByHolder == old(disputesByHolder)[c.holder := old(ListAt(disputesByHolder, c.holder)) + [id]] &&
        disputesByStandard == old(disputesByStandard)[c.standard := old(ListAt(disputesByStandard, c.standard)) + [id]]
      ensures r.Ok? ==> forall a, m :: a in authorities && m in mediators ==> AssignCheck(a, id, m) == None
      ensures r.Ok? ==> AppealCheck(complainant, id) == Some(NotEligible)
    {
      var e := ValidateEvidence(evidence);
      if e.Some? {
        return Err(e.value);
      }
      if cert !in certifications {
        return Err(NotFound);
      }
      var c := certifications[cert];
      disputes := disputes[id := Dispute(id, cert, description, complainant, c.holder, now, Filed,
                                         evidence, contractAddress, ResolutionOutcome.Pending, 0)];
      disputesByHolder := disputesByHolder[c.holder := ListAt(disputesByHolder, c.holder) + [id]];
      disputesByStandard := disputesByStandard[c.standard := ListAt(disputesByStandard, c.standard) + [id]];
      return Ok(id);
    }

    /** `submit_evidence`: a party to the dispute stores an evidence record
        and its hash is appended to the dispute's evidence, whatever the
        dispute's status. */
    method SubmitEvidence(handler: Address, id: DisputeId, description: string, dataType: string,
                          metadata: seq<(string, string)>, hash: Hash)
      returns (r: Result<Hash, AgricQualityError>)
      requires Valid()
      modifies this`disputes, this`evidenceRecords
      ensures Valid()
      ensures r.Err? ==> unchanged(this)
      ensures id !in old(disputes) ==> r == Err(NotFound)
      ensures (id in old(disputes) && old(disputes)[id].complainant != handler &&
              old(disputes)[id].respondent != handler) ==> r == Err(Unauthorized)
      ensures r.Ok? <==>
        id in old(disputes) && (old(disputes)[id].complainant == handler || old(disputes)[id].respondent == handler)
      ensures r.Ok? ==>
        var d := old(disputes)[id];
        r.value == hash &&
        evidenceRecords == old(evidenceRecords)[hash := Evidence(hash, handler, now, description, dataType, metadata)] &&
        disputes == old(disputes)[id := d.(evidence := d.evidence + [hash])]
    {
      if id !in disputes {
        return Err(NotFound);
      }
      var d := disputes[id];
      if d.complainant != handler && d.respondent != handler {
        return Err(Unauthorized);
      }
      evidenceRecords := evidenceRecords[hash := Evidence(hash, handler, now, description, dataType, metadata)];
      disputes := disputes[id := d.(evidence := d.evidence + [hash])];
      return Ok(hash);
    }

    /** `assign_mediator`: the dispute goes under review by `mediator`, and
        the appeal deadline is set seven days from now. */
    method AssignMediator(authority: Address, id: DisputeId, mediator: Address)
      returns (r: Result<(), AgricQualityError>)
      requires Valid()
      modifies this`disputes
      ensures Valid()
      ensures r.Err? ==> unchanged(this) && Some(r.error) == AssignCheck(authority, id, mediator)
      ensures r.Ok? <==> old(AssignCheck(authority, id, mediator)) == None
      ensures r.Ok? ==>
        disputes == old(disputes)[id := old(disputes)[id].(status := UnderReview, mediator := mediator,
                                                          appealDeadline := now + APPEAL_WINDOW)]
      ensures r.Ok? ==> forall o :: o != ResolutionOutcome.Pending && disputes[id].certification in certifications ==>
                          ResolveCheck(mediator, id, o) == None
    {
      var e := AssignCheck(authority, id, mediator);
      if e.Some? {
        return Err(e.value);
      }
      var d := disputes[id];
      disputes := disputes[id := d.(status := UnderReview, mediator := mediator,
                                    appealDeadline := now + APPEAL_WINDOW)];
      return Ok(());
    }

    /** `resolve_dispute`: the certification takes the status the outcome
        calls for (a `Modified` one also keeps 90% of its audit score), and
        the dispute becomes resolved with that outcome. */
    method ResolveDispute(mediator: Address, id: DisputeId, outcome: ResolutionOutcome)
      returns (r: Result<(), AgricQualityError>)
      requires Valid()
      modifies this`disputes, this`certifications
      ensures Valid()
      ensures r.Err? ==> unchanged(this) && Some(r.error) == ResolveCheck(mediator, id, outcome)
      ensures r.Ok? <==> old(ResolveCheck(mediator, id, outcome)) == None
      ensures r.Ok? ==>
        var d := old(disputes)[id];
        var c := old(certifications)[d.certification];
        ResolvedStatus(outcome).Some? &&
        certifications == old(certifications)[d.certification := c.(
          status := ResolvedStatus(outcome).value,
          auditScore := if outcome == Modified then ModifiedScore(c.auditScore) else c.auditScore)] &&
        disputes == old(disputes)[id := d.(status := Resolved, resolution := outcome)]
      ensures r.Ok? && outcome == RequireReinspection ==>
        forall i :: i in inspectors ==> RecordInspectionCheck(i, disputes[id].certification) == None
    {
      var e := ResolveCheck(mediator, id, outcome);
      if e.Some? {
        return Err(e.value);
      }
      var d := disputes[id];
      var c := certifications[d.certification];
      var c' := c.(status := ResolvedStatus(outcome).value,
                   auditScore := if outcome == Modified then ModifiedScore(c.auditScore) else c.auditScore);
      var certs' := certifications[d.certification := c'];
      SameHoldersKeepValid(holderCerts, certifications, certs');
      certifications := certs';
      disputes := disputes[id := d.(status := Resolved, resolution := outcome)];
      return Ok(());
    }

    /** `process_appeal`: a party appeals a resolved dispute before its
        deadline; the new evidence is appended without being validated. */
    method ProcessAppeal(appellant: Address, id: DisputeId, newEvidence: seq<Hash>)
      returns (r: Result<(), AgricQualityError>)
      requires Valid()
      modifies this`disputes
      ensures Valid()
      ensures r.Err? ==> unchanged(this) && Some(r.error) == AppealCheck(appellant, id)
      ensures r.Ok? <==> old(AppealCheck(appellant, id)) == None
      ensures r.Ok? ==>
        var d := old(disputes)[id];
        disputes == old(disputes)[id := d.(status := Appealed, evidence := d.evidence + newEvidence)]
      ensures r.Ok? ==> AppealCheck(appellant, id) == Some(InvalidStatus)
    {
      var e := AppealCheck(appellant, id);
      if e.Some? {
        return Err(e.value);
      }
      var d := disputes[id];
      disputes := disputes[id := d.(status := Appealed, evidence := d.evidence + newEvidence)];
      return Ok(());
    }

    /** `calculate_compensation`: the compensation owed for a resolved
        dispute, by its outcome and its certification's audit score. */
    function CompensationOf(id: DisputeId): (r: Result<nat, AgricQualityError>)
      reads this`disputes, this`certifications
      ensures id !in disputes ==> r == Err(NotFound)
      ensures id in disputes && disputes[id].status != Resolved ==> r == Err(InvalidStatus)
      ensures r.Ok? <==> id in disputes && disputes[id].status == Resolved && disputes[id].certification in certifications
      ensures r.Ok? && disputes[id].resolution in {Upheld, Dismissed} ==> r.value == 0
      ensures r.Ok? && certifications[disputes[id].certification].auditScore <= 100 ==> r.value <= 100000
    {
      if id !in disputes then Err(NotFound)
      else if disputes[id].status != Resolved then Err(InvalidStatus)
      else if disputes[id].certification !in certifications then Err(NotFound)
      else
        var score := certifications[disputes[id].certification].auditScore;
        CompensationBoundedIf(disputes[id].resolution, score);
        Ok(Compensation(disputes[id].resolution, score))
    }

    static lemma CompensationBoundedIf(outcome: ResolutionOutcome, score: nat)
      ensures score <= 100 ==> Compensation(outcome, score) <= 100000
    {
      if score <= 100 {
        CompensationBounded(outcome, score);
      }
    }

    /** `track_enforcement`: a registered authority may record the
        enforcement of a resolved dispute; nothing is stored. */
    function TrackEnforcementCheck(authority: Address, id: DisputeId): (e: Option<AgricQualityError>)
      reads this`disputes
      ensures e == None <==> authority in authorities && id in disputes && disputes[id].status == Resolved
      ensures authority !in authorities ==> e == Some(Unauthorized)
      ensures authority in authorities && id !in disputes ==> e == Some(NotFound)
    {
      if authority !in authorities then Some(Unauthorized)
      else if id !in disputes then Some(NotFound)
      else if disputes[id].status != Resolved then Some(InvalidStatus)
      else None
    }
  }
}
