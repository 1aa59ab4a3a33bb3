/**
 * The text summary (`generate_summary_report`), modelled section by
 * section: the heading block with the batch figures, exactly one advice
 * block chosen by the risk level, and the probability block when the
 * metrics hold probability statistics. Number formatting is not modelled.
 */
module SummaryReport {
  import opened RiskMetrics

  datatype Section =
    | Heading(generated: string, total: Value, legitimate: Value, fraud: Value, rate: Value,
              level: Value, icon: Value, modelUsed: string)
    | Assessment(lines: seq<string>)
    | ProbabilityAnalysis(average: Value, maximum: Value, minimum: Value)

  type Report = seq<Section>

  const HighAdvice := [
    "- HIGH RISK: Fraud rate is above 5%. Immediate attention required.",
    "- Consider implementing additional security measures.",
    "- Review recent system changes and access patterns."]
  const MediumAdvice := [
    "- MEDIUM RISK: Fraud rate is between 2-5%. Monitor closely.",
    "- Review suspicious transactions manually.",
    "- Consider increasing monitoring frequency."]
  const LowAdvice := [
    "- LOW RISK: Fraud rate is below 2%. Normal operations.",
    "- Continue with current security protocols."]

  /** The advice for each tier. */
  function AdviceOf(l: RiskLevel): seq<string>
  {
    match l
    case High => HighAdvice
    case Medium => MediumAdvice
    case Low => LowAdvice
  }

  /** The keys the report reads: the base figures, and the three statistics when the average is present. */
  predicate HasReportKeys(m: Metrics)
  {
    && TotalKey in m && LegitimateKey in m && FraudKey in m && RateKey in m && LevelKey in m && IconKey in m
    && (AvgKey in m ==> MaxKey in m && MinKey in m)
  }

  function AssessmentCount(r: Report): nat
  {
    if r == [] then 0 else (if r[0].Assessment? then 1 else 0) + AssessmentCount(r[1..])
  }

  /** The report for the given metrics, as the sections `GenerateSummaryReport` appends one by one. */
  function SummaryOf(m: Metrics, modelPath: string, generated: string): Report
    requires HasReportKeys(m)
  {
    var advice :=
      if m[LevelKey] == Label("HIGH") then HighAdvice
      else if m[LevelKey] == Label("MEDIUM") then MediumAdvice
      else LowAdvice;
    [Heading(generated, m[TotalKey], m[LegitimateKey], m[FraudKey], m[RateKey], m[LevelKey], m[IconKey], modelPath),
     Assessment(advice)]
    + (if AvgKey in m then [ProbabilityAnalysis(m[AvgKey], m[MaxKey], m[MinKey])] else [])
  }

  /** `generate_summary_report`, with the clock reading passed in as `generated`. */
  method GenerateSummaryReport(m: Metrics, modelPath: string, generated: string) returns (report: Report)
    requires HasReportKeys(m)
    ensures |report| == if AvgKey in m then 3 else 2
    ensures report[0] == Heading(generated, m[TotalKey], m[LegitimateKey], m[FraudKey], m[RateKey],
                                 m[LevelKey], m[IconKey], modelPath)
    ensures AssessmentCount(report) == 1
    ensures report[1].Assessment?
    ensures m[LevelKey] == Label("HIGH") ==> report[1].lines == HighAdvice
    ensures m[LevelKey] == Label("MEDIUM") ==> report[1].lines == MediumAdvice
    ensures m[LevelKey] != Label("HIGH") && m[LevelKey] != Label("MEDIUM") ==> report[1].lines == LowAdvice
    ensures (exists i :: 0 <= i < |report| && report[i].ProbabilityAnalysis?) <==> AvgKey in m
    ensures AvgKey in m ==> report[2] == ProbabilityAnalysis(m[AvgKey], m[MaxKey], m[MinKey])
    ensures report == SummaryOf(m, modelPath, generated)
  {
    report := [Heading(generated, m[TotalKey], m[LegitimateKey], m[FraudKey], m[RateKey],
                       m[LevelKey], m[IconKey], modelPath)];
    var advice: seq<string> := [];
    if m[LevelKey] == Label("HIGH") {
      advice := advice + [HighAdvice[0]];
      advice := advice + [HighAdvice[1]];
      advice := advice + [HighAdvice[2]];
    } else if m[LevelKey] == Label("MEDIUM") {
      advice := advice + [MediumAdvice[0]];
      advice := advice + [MediumAdvice[1]];
      advice := advice + [MediumAdvice[2]];
    } else {
      advice := advice + [LowAdvice[0]];
      advice := advice + [LowAdvice[1]];
    }
    report := report + [Assessment(advice)];
    assert AssessmentCount(report) == 1 by {
      assert report[1..] == [Assessment(advice)];
      assert AssessmentCount(report[1..]) == 1;
    }
    if AvgKey in m {
      var p := ProbabilityAnalysis(m[AvgKey], m[MaxKey], m[MinKey]);
      report := report + [p];
      assert AssessmentCount(report) == 1 by {
        assert report[1..] == [Assessment(advice), p];
        assert report[1..][1..] == [p];
        assert AssessmentCount([p]) == 0;
      }
      assert report[2].ProbabilityAnalysis?;
    } else {
      assert forall i :: 0 <= i < |report| ==> !report[i].ProbabilityAnalysis? by {
        assert report[0].Heading? && report[1].Assessment?;
      }
    }
  }

  /** When the level label is the name of a tier, the report gives that tier's advice. */
  lemma AdviceFollowsLevel(m: Metrics, modelPath: string, generated: string)
    requires HasReportKeys(m)
    ensures m[LevelKey] == Label(LevelName(LevelOf(m[RateKey]))) ==>
      SummaryOf(m, modelPath, generated)[1] == Assessment(AdviceOf(LevelOf(m[RateKey])))
  {
    assert "HIGH" != "MEDIUM" && "HIGH" != "LOW" && "MEDIUM" != "LOW" by {
      assert "HIGH"[0] != "MEDIUM"[0] && "HIGH"[0] != "LOW"[0] && "MEDIUM"[0] != "LOW"[0];
    }
  }

  /**
   * For metrics computed from a batch, the report's advice is the one for
   * the batch tier, and the report can be built from them.
   */
  lemma AdviceMatchesTier(predictions: seq<int>, probabilities: Wrappers.Option<seq<real>>)
    requires probabilities != Wrappers.Some([])
    ensures
      var m := CalculateRiskMetrics(predictions, probabilities).value;
      var level := LevelOf(m[RateKey]);
      && HasReportKeys(m)
      && (m[LevelKey] == Label("HIGH") <==> level == High)
      && (m[LevelKey] == Label("MEDIUM") <==> level == Medium)
      && (AvgKey in m <==> probabilities.Some?)
  {
    var m := CalculateRiskMetrics(predictions, probabilities).value;
    assert "HIGH" != "MEDIUM" && "HIGH" != "LOW" && "MEDIUM" != "LOW" by {
      assert "HIGH"[0] != "MEDIUM"[0] && "HIGH"[0] != "LOW"[0] && "MEDIUM"[0] != "LOW"[0];
    }
  }
}
