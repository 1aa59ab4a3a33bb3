/**
 * Batch risk metrics (`calculate_risk_metrics`): counts, the fraud rate as
 * a percentage, the batch risk tier and, when probabilities are given, their
 * mean, maximum and minimum. Floats are modelled as exact reals.
 */
module RiskMetrics {
  import opened Wrappers

  /** A value of the metrics dictionary. `NaN` is what `0 / 0` gives for an empty batch. */
  datatype Value = Int(n: int) | Real(x: real) | NaN | Label(s: string)

  /** The metrics dictionary, keyed as in the source. */
  type Metrics = map<string, Value>

  const TotalKey := "total_transactions"
  const LegitimateKey := "legitimate_count"
  const FraudKey := "fraud_count"
  const RateKey := "fraud_rate"
  const LevelKey := "risk_level"
  const IconKey := "risk_icon"
  const AvgKey := "avg_fraud_probability"
  const MaxKey := "max_fraud_probability"
  const MinKey := "min_fraud_probability"

  /** The keys every metrics dictionary has. */
  const BaseKeys: set<string> := {TotalKey, LegitimateKey, FraudKey, RateKey, LevelKey, IconKey}
  /** The keys added when probabilities are supplied. */
  const ProbabilityKeys: set<string> := {AvgKey, MaxKey, MinKey}

  /** The message numpy raises when asked for the maximum of an empty array. */
  const EmptyReductionMessage := "zero-size array to reduction operation maximum which has no identity"

  datatype RiskLevel = High | Medium | Low

  /** Position of a tier in the order LOW < MEDIUM < HIGH. */
  function Rank(l: RiskLevel): nat
  {
    match l
    case Low => 0
    case Medium => 1
    case High => 2
  }

  function LevelName(l: RiskLevel): string
  {
    match l
    case High => "HIGH"
    case Medium => "MEDIUM"
    case Low => "LOW"
  }

  function LevelIcon(l: RiskLevel): string
  {
    match l
    case High => "\U{26A0}\U{FE0F}"
    case Medium => "\U{26A1}"
    case Low => "\U{2705}"
  }

  /** The batch tier of a fraud rate given in percent: strictly above 5 is HIGH, strictly above 2 is MEDIUM. */
  function Tier(rate: real): RiskLevel
  {
    if rate > 5.0 then High else if rate > 2.0 then Medium else Low
  }

  /** The tier of the computed rate; every comparison with NaN is false, so NaN falls through to LOW. */
  function LevelOf(rate: Value): RiskLevel
  {
    if rate.Real? then Tier(rate.x) else Low
  }

  /** `np.sum(predictions == v)`. */
  function Occurrences(s: seq<int>, v: int): (n: nat)
    ensures n <= |s|
  {
    if s == [] then 0 else (if s[0] == v then 1 else 0) + Occurrences(s[1..], v)
  }

  function Sum(s: seq<real>): real
  {
    if s == [] then 0.0 else s[0] + Sum(s[1..])
  }

  /** `np.mean`. */
  function Mean(s: seq<real>): (m: real)
    requires |s| > 0
    ensures m * |s| as real == Sum(s)
  {
    Sum(s) / |s| as real
  }

  /** `np.max`: an element of `s` that no element exceeds. */
  function Max(s: seq<real>): (m: real)
    requires |s| > 0
    ensures m in s
    ensures forall i :: 0 <= i < |s| ==> s[i] <= m
  {
    if |s| == 1 then s[0]
    else
      var rest := Max(s[1..]);
      assert forall i :: 1 <= i < |s| ==> s[i] == s[1..][i - 1];
      if s[0] >= rest then s[0] else rest
  }

  /** `np.min`: an element of `s` that exceeds no element. */
  function Min(s: seq<real>): (m: real)
    requires |s| > 0
    ensures m in s
    ensures forall i :: 0 <= i < |s| ==> m <= s[i]
  {
    if |s| == 1 then s[0]
    else
      var rest := Min(s[1..]);
      assert forall i :: 1 <= i < |s| ==> s[i] == s[1..][i - 1];
      if s[0] <= rest then s[0] else rest
  }

  /** The fraud rate in percent; `NaN` when there are no predictions. */
  function FraudRate(fraud: nat, total: nat): (r: Value)
    ensures total == 0 <==> r.NaN?
    ensures total > 0 ==> r.Real? && r.x * total as real == 100.0 * fraud as real
    ensures total > 0 && fraud <= total ==> 0.0 <= r.x <= 100.0
  {
    if total == 0 then NaN else Real((fraud as real / total as real) * 100.0)
  }

  /**
   * `calculate_risk_metrics`. It fails only as numpy does when it is handed
   * an empty probability array.
   */
  function CalculateRiskMetrics(predictions: seq<int>, probabilities: Option<seq<real>>): (r: Result<Metrics, string>)
    ensures r.Err? <==> probabilities == Some([])
    ensures r.Ok? ==> r.value.Keys == BaseKeys + (if probabilities.Some? then ProbabilityKeys else {})
    ensures r.Ok? ==>
      && r.value[TotalKey] == Int(|predictions|)
      && r.value[FraudKey] == Int(Occurrences(predictions, 1))
      && r.value[LegitimateKey] == Int(Occurrences(predictions, 0))
    ensures r.Ok? ==> r.value[RateKey] == FraudRate(Occurrences(predictions, 1), |predictions|)
    ensures r.Ok? ==>
      var level := LevelOf(r.value[RateKey]);
      r.value[LevelKey] == Label(LevelName(level)) && r.value[IconKey] == Label(LevelIcon(level))
    ensures r.Ok? && probabilities.Some? ==>
      && r.value[AvgKey] == Real(Mean(probabilities.value))
      && r.value[MaxKey] == Real(Max(probabilities.value))
      && r.value[MinKey] == Real(Min(probabilities.value))
    ensures r.Ok? && probabilities.Some? ==>
      && r.value[AvgKey].Real? && r.value[MaxKey].Real? && r.value[MinKey].Real?
      && r.value[MinKey].x <= r.value[AvgKey].x <= r.value[MaxKey].x
  {
    var total := |predictions|;
    var fraud := Occurrences(predictions, 1);
    var legitimate := Occurrences(predictions, 0);
    var rate := FraudRate(fraud, total);
    var level := LevelOf(rate);
    var metrics := map[
      TotalKey := Int(total),
      LegitimateKey := Int(legitimate),
      FraudKey := Int(fraud),
      RateKey := rate,
      LevelKey := Label(LevelName(level)),
      IconKey := Label(LevelIcon(level))];
    match probabilities
    case None => Ok(metrics)
    case Some(p) =>
      if |p| == 0 then Err(EmptyReductionMessage)
      else
        MeanBetweenMinAndMax(p);
        Ok(metrics[AvgKey := Real(Mean(p))][MaxKey := Real(Max(p))][MinKey := Real(Min(p))])
  }

  lemma ScaleMonotone(k: real, a: real, b: real)
    requires k >= 0.0 && a <= b
    ensures k * a <= k * b
  {
  }

  lemma ScaleCompare(x: real, t: real, c: real)
    requires t > 0.0
    ensures x * t > c * t <==> x > c
  {
  }

  /** `n` copies of `x` added up: `n * x` without multiplication, so that sums stay linear. */
  function Times(n: nat, x: real): real
  {
    if n == 0 then 0.0 else x + Times(n - 1, x)
  }

  lemma {:induction false} TimesMonotone(n: nat, a: real, b: real)
    requires a <= b
    ensures Times(n, a) <= Times(n, b)
  {
    if n > 0 {
      TimesMonotone(n - 1, a, b);
    }
  }

  lemma {:induction false} TimesIsProduct(n: nat, x: real)
    ensures Times(n, x) == n as real * x
  {
    if n > 0 {
      TimesIsProduct(n - 1, x);
      assert n as real * x == (n - 1) as real * x + x;
    }
  }

  lemma {:induction false} SumBounds(s: seq<real>)
    requires |s| > 0
    ensures Times(|s|, Min(s)) <= Sum(s) <= Times(|s|, Max(s))
  {
    if |s| > 1 {
      var tail := s[1..];
      SumBounds(tail);
      assert forall i :: 0 <= i < |tail| ==> tail[i] == s[i + 1];
      assert Max(tail) <= Max(s) && Min(s) <= Min(tail);
      TimesMonotone(|tail|, Max(tail), Max(s));
      TimesMonotone(|tail|, Min(s), Min(tail));
    }
  }

  lemma DivideBounds(sum: real, n: real, lo: real, hi: real)
    requires n > 0.0 && n * lo <= sum <= n * hi
    ensures lo <= sum / n <= hi
  {
    var q := sum / n;
    assert q * n == sum;
    if q < lo {
      ScaleMonotone(n, q, lo);
      assert false;
    }
    if q > hi {
      ScaleMonotone(n, hi, q);
      assert false;
    }
  }

  lemma TimesDivide(n: nat, lo: real, hi: real, sum: real)
    requires n > 0 && Times(n, lo) <= sum <= Times(n, hi)
    ensures lo <= sum / n as real <= hi
  {
    TimesIsProduct(n, lo);
    TimesIsProduct(n, hi);
    DivideBounds(sum, n as real, lo, hi);
  }

  /** The mean of a non-empty probability array lies between its minimum and its maximum. */
  lemma MeanBetweenMinAndMax(s: seq<real>)
    requires |s| > 0
    ensures Min(s) <= Mean(s) <= Max(s)
  {
    SumBounds(s);
    TimesDivide(|s|, Min(s), Max(s), Sum(s));
  }

  /** When every prediction is 0 or 1, the legitimate and fraud counts add up to the total. */
  lemma {:induction false} CountsPartition(s: seq<int>)
    requires forall i :: 0 <= i < |s| ==> s[i] == 0 || s[i] == 1
    ensures Occurrences(s, 0) + Occurrences(s, 1) == |s|
  {
    if s != [] {
      assert forall i :: 0 <= i < |s[1..]| ==> s[1..][i] == s[i + 1];
      CountsPartition(s[1..]);
    }
  }

  /** The tier is monotone in the rate. */
  lemma TierMonotone(a: real, b: real)
    requires a <= b
    ensures Rank(Tier(a)) <= Rank(Tier(b))
  {
  }

  /** The thresholds are strict: exactly 5% is MEDIUM and exactly 2% is LOW. */
  lemma TierBoundaries()
    ensures Tier(5.0) == Medium && Tier(2.0) == Low
    ensures forall r: real :: r > 5.0 ==> Tier(r) == High
    ensures forall r: real :: 2.0 < r <= 5.0 ==> Tier(r) == Medium
    ensures forall r: real :: r <= 2.0 ==> Tier(r) == Low
  {
  }

  /** A percentage `x` of `f` in `t` exceeds `c` exactly when `k * f > t`, where `c * k == 100`. */
  lemma RateAbove(x: real, t: real, f: real, c: real, k: real)
    requires t > 0.0 && x * t == 100.0 * f && c * k == 100.0 && k > 0.0
    ensures x > c <==> k * f > t
  {
    ScaleCompare(x, t, c);
    assert k * (x * t) == 100.0 * k * f;
    assert k * (c * t) == 100.0 * t;
    ScaleCompare(x * t, k, c * t);
  }

  /** The tier of a rate computed from counts, stated on the counts alone. */
  lemma TierFromCounts(fraud: nat, total: nat)
    requires total > 0
    ensures LevelOf(FraudRate(fraud, total)) == High <==> 20 * fraud > total
    ensures LevelOf(FraudRate(fraud, total)) == Medium <==> 50 * fraud > total && 20 * fraud <= total
    ensures LevelOf(FraudRate(fraud, total)) == Low <==> 50 * fraud <= total
  {
    var x, t, f := FraudRate(fraud, total).x, total as real, fraud as real;
    RateAbove(x, t, f, 5.0, 20.0);
    RateAbove(x, t, f, 2.0, 50.0);
    assert (20 * fraud) as real == 20.0 * f && (50 * fraud) as real == 50.0 * f;
  }

  /** An empty batch (as numpy computes it) has rate NaN and is rated LOW. */
  lemma EmptyBatchIsLow(probabilities: Option<seq<real>>)
    requires probabilities != Some([])
    ensures CalculateRiskMetrics([], probabilities).value[LevelKey] == Label("LOW")
  {
  }
}
