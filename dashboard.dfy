/** The dashboard's aggregation helpers: the athlete performance summary, injury alerts, the
    merged gameplay insights and the team analytics. Records arrive as already-fetched lists. */
module Dashboard {
  import opened Seqs
  import opened Models

  /** A performance-metric record; only its value is read here (models/metric.py is not part of
      this model). */
  datatype PerformanceMetric = PerformanceMetric(value: real)

  datatype Trend = Improving | Declining | Neutral

  datatype PerformanceSummary = PerformanceSummary(overallScore: real, trend: Trend, areasToImprove: seq<string>)

  const EmptySummary: PerformanceSummary := PerformanceSummary(0.0, Neutral, [])

  // ---------------------------------------------------------------- performance summary

  function MetricScores(metrics: seq<PerformanceMetric>): (r: seq<real>)
    ensures |r| == |metrics| && forall i :: 0 <= i < |metrics| ==> r[i] == metrics[i].value
  {
    seq(|metrics|, i requires 0 <= i < |metrics| => metrics[i].value)
  }

  function AnalysisScores(analyses: seq<VideoAnalysis>): (r: seq<real>)
    ensures |r| == |analyses| && forall i :: 0 <= i < |analyses| ==> r[i] == analyses[i].skillAssessment.score
  {
    seq(|analyses|, i requires 0 <= i < |analyses| => analyses[i].skillAssessment.score)
  }

  function GameplayScores(gameplay: seq<GameplayAnalysis>): (r: seq<real>)
    ensures |r| == |gameplay| && forall i :: 0 <= i < |gameplay| ==> r[i] == gameplay[i].overallScore
  {
    seq(|gameplay|, i requires 0 <= i < |gameplay| => gameplay[i].overallScore)
  }

  /** Every score the summary averages: metric values, then skill scores, then gameplay scores. */
  function AllScores(metrics: seq<PerformanceMetric>, analyses: seq<VideoAnalysis>, gameplay: seq<GameplayAnalysis>): seq<real>
  {
    MetricScores(metrics) + AnalysisScores(analyses) + GameplayScores(gameplay)
  }

  /** The trend compares last with first: of the metric values when there are at least two,
      otherwise of the gameplay scores when there are at least two, otherwise neutral. */
  function TrendOf(metrics: seq<PerformanceMetric>, gameplay: seq<GameplayAnalysis>): (t: Trend)
    ensures |metrics| > 1 ==> (t == Improving <==> metrics[|metrics| - 1].value > metrics[0].value) && t != Neutral
    ensures |metrics| <= 1 && |gameplay| > 1 ==>
      (t == Improving <==> gameplay[|gameplay| - 1].overallScore > gameplay[0].overallScore) && t != Neutral
    ensures t == Neutral <==> |metrics| <= 1 && |gameplay| <= 1
  {
    if |metrics| > 1 then
      (if metrics[|metrics| - 1].value > metrics[0].value then Improving else Declining)
    else if |gameplay| > 1 then
      (if gameplay[|gameplay| - 1].overallScore > gameplay[0].overallScore then Improving else Declining)
    else Neutral
  }

  /** The improvement areas of the first n analyses, in order. */
  function AnalysisAreas(analyses: seq<VideoAnalysis>, n: nat): seq<string>
    requires n <= |analyses|
  {
    if n == 0 then [] else AnalysisAreas(analyses, n - 1) + analyses[n - 1].skillAssessment.areasForImprovement
  }

  /** The improvements of the first k aspects of one gameplay analysis, in order. */
  function AspectImprovements(aspects: seq<GameplayFeedback>, k: nat): seq<string>
    requires k <= |aspects|
  {
    if k == 0 then [] else AspectImprovements(aspects, k - 1) + aspects[k - 1].improvements
  }

  /** The improvements of every aspect of the first n gameplay analyses, in order. */
  function GameplayAreas(gameplay: seq<GameplayAnalysis>, n: nat): seq<string>
    requires n <= |gameplay|
  {
    if n == 0 then [] else GameplayAreas(gameplay, n - 1) + AspectImprovements(gameplay[n - 1].aspects, |gameplay[n - 1].aspects|)
  }

  function Areas(analyses: seq<VideoAnalysis>, gameplay: seq<GameplayAnalysis>): seq<string>
  {
    AnalysisAreas(analyses, |analyses|) + GameplayAreas(gameplay, |gameplay|)
  }

  lemma {:induction false} AnalysisAreasExact(analyses: seq<VideoAnalysis>, n: nat)
    requires n <= |analyses|
    ensures forall x :: x in AnalysisAreas(analyses, n) <==>
      exists i :: 0 <= i < n && x in analyses[i].skillAssessment.areasForImprovement
  {
    if n > 0 {
      AnalysisAreasExact(analyses, n - 1);
    }
  }

  lemma {:induction false} AspectImprovementsExact(aspects: seq<GameplayFeedback>, k: nat)
    requires k <= |aspects|
    ensures forall x :: x in AspectImprovements(aspects, k) <==> exists j :: 0 <= j < k && x in aspects[j].improvements
  {
    if k > 0 {
      AspectImprovementsExact(aspects, k - 1);
    }
  }

  lemma {:induction false} GameplayAreasExact(gameplay: seq<GameplayAnalysis>, n: nat)
    requires n <= |gameplay|
    ensures forall x :: x in GameplayAreas(gameplay, n) <==>
      exists i, j :: 0 <= i < n && 0 <= j < |gameplay[i].aspects| && x in gameplay[i].aspects[j].improvements
  {
    if n > 0 {
      GameplayAreasExact(gameplay, n - 1);
      AspectImprovementsExact(gameplay[n - 1].aspects, |gameplay[n - 1].aspects|);
    }
  }

  /** An area is a candidate exactly when some analysis lists it for improvement or some aspect
      of some gameplay analysis lists it as an improvement. */
  lemma AreasExact(analyses: seq<VideoAnalysis>, gameplay: seq<GameplayAnalysis>, x: string)
    ensures x in Areas(analyses, gameplay) <==>
      || (exists i :: 0 <= i < |analyses| && x in analyses[i].skillAssessment.areasForImprovement)
      || (exists i, j :: 0 <= i < |gameplay| && 0 <= j < |gameplay[i].aspects| && x in gameplay[i].aspects[j].improvements)
  {
    AnalysisAreasExact(analyses, |analyses|);
    GameplayAreasExact(gameplay, |gameplay|);
  }

  /** calculate_performance_summary's result. With no records (and so no scores) it is the
      empty summary; otherwise the score is the plain mean of all scores, between the lowest and
      the highest of them, and the areas are at most five distinct candidate areas. */
  function Summary(metrics: seq<PerformanceMetric>, analyses: seq<VideoAnalysis>, gameplay: seq<GameplayAnalysis>): (r: PerformanceSummary)
    ensures AllScores(metrics, analyses, gameplay) == [] <==> metrics == [] && analyses == [] && gameplay == []
    ensures AllScores(metrics, analyses, gameplay) == [] ==> r == EmptySummary
    ensures AllScores(metrics, analyses, gameplay) != [] ==>
      var all := AllScores(metrics, analyses, gameplay);
      && r.overallScore == Mean(all)
      && Min(all) <= r.overallScore <= Max(all)
      && r.trend == TrendOf(metrics, gameplay)
      && UniqueSample(r.areasToImprove, Areas(analyses, gameplay), 5)
  {
    var all := AllScores(metrics, analyses, gameplay);
    if metrics == [] && analyses == [] && gameplay == [] then EmptySummary
    else if all == [] then EmptySummary
    else
      MeanBounds(all, Min(all), Max(all));
      DistinctTake(Areas(analyses, gameplay), 5);
      PerformanceSummary(Mean(all), TrendOf(metrics, gameplay), Take(Dedup(Areas(analyses, gameplay)), 5))
  }

  /** calculate_performance_summary: the scores and the trend as expressions, the improvement
      areas gathered by loops over the analyses and over every gameplay aspect. */
  method CalculatePerformanceSummary(metrics: seq<PerformanceMetric>, analyses: seq<VideoAnalysis>, gameplay: seq<GameplayAnalysis>)
    returns (r: PerformanceSummary)
    ensures r == Summary(metrics, analyses, gameplay)
  {
    if metrics == [] && analyses == [] && gameplay == [] {
      return EmptySummary;
    }
    var allScores := MetricScores(metrics) + AnalysisScores(analyses) + GameplayScores(gameplay);
    if allScores == [] {
      return EmptySummary;
    }
    var overallScore := Mean(allScores);
    var trend := TrendOf(metrics, gameplay);
    var areas: seq<string> := [];
    for i := 0 to |analyses|
      invariant areas == AnalysisAreas(analyses, i)
    {
      areas := areas + analyses[i].skillAssessment.areasForImprovement;
    }
    assert areas == AnalysisAreas(analyses, |analyses|) + GameplayAreas(gameplay, 0);
    for g := 0 to |gameplay|
      invariant areas == AnalysisAreas(analyses, |analyses|) + GameplayAreas(gameplay, g)
    {
      var aspects := gameplay[g].aspects;
      ghost var before := areas;
      for k := 0 to |aspects|
        invariant areas == before + AspectImprovements(aspects, k)
      {
        areas := areas + aspects[k].improvements;
      }
    }
    r := PerformanceSummary(overallScore, trend, Take(Dedup(areas), 5));
  }

  // ---------------------------------------------------------------- injury alerts

  datatype InjuryAlert = InjuryAlert(
    riskLevel: RiskLevel,
    riskTenths: nat,
    riskFactors: seq<Tag>,
    recommendations: seq<string>)

  predicate Alerting(a: VideoAnalysis)
  {
    a.injuryRiskPrediction.riskLevel == Medium || a.injuryRiskPrediction.riskLevel == High
  }

  function AlertOf(a: VideoAnalysis): InjuryAlert
  {
    var p := a.injuryRiskPrediction;
    InjuryAlert(p.riskLevel, p.riskTenths, p.riskFactors, p.preventionRecommendations)
  }

  /** The alerts of the first n analyses, in order. */
  function InjuryAlerts(analyses: seq<VideoAnalysis>, n: nat): seq<InjuryAlert>
    requires n <= |analyses|
  {
    if n == 0 then []
    else InjuryAlerts(analyses, n - 1) + (if Alerting(analyses[n - 1]) then [AlertOf(analyses[n - 1])] else [])
  }

  /** One alert per medium- or high-risk analysis, copied from its prediction, and no alert for a
      low-risk one. */
  lemma {:induction false} InjuryAlertsExact(analyses: seq<VideoAnalysis>, n: nat)
    requires n <= |analyses|
    ensures |InjuryAlerts(analyses, n)| <= n
    ensures forall al :: al in InjuryAlerts(analyses, n) ==> al.riskLevel != Low
    ensures forall al :: al in InjuryAlerts(analyses, n) ==> exists i :: 0 <= i < n && Alerting(analyses[i]) && al == AlertOf(analyses[i])
    ensures forall i :: 0 <= i < n && Alerting(analyses[i]) ==> AlertOf(analyses[i]) in InjuryAlerts(analyses, n)
    ensures (forall i :: 0 <= i < n ==> Alerting(analyses[i])) ==> |InjuryAlerts(analyses, n)| == n
    ensures (forall i :: 0 <= i < n ==> !Alerting(analyses[i])) ==> InjuryAlerts(analyses, n) == []
  {
    if n > 0 {
      InjuryAlertsExact(analyses, n - 1);
      var front := InjuryAlerts(analyses, n - 1);
      var last := analyses[n - 1];
      var tail := if Alerting(last) then [AlertOf(last)] else [];
      assert InjuryAlerts(analyses, n) == front + tail;
      forall al | al in front + tail
        ensures exists i :: 0 <= i < n && Alerting(analyses[i]) && al == AlertOf(analyses[i])
      {
        if al in front {
          var i :| 0 <= i < n - 1 && Alerting(analyses[i]) && al == AlertOf(analyses[i]);
        } else {
          assert Alerting(last) && al == AlertOf(last);
        }
      }
    }
  }

  /** The positions of the medium- and high-risk analyses among the first n, in order. */
  function AlertIndices(analyses: seq<VideoAnalysis>, n: nat): seq<nat>
    requires n <= |analyses|
  {
    if n == 0 then [] else AlertIndices(analyses, n - 1) + (if Alerting(analyses[n - 1]) then [n - 1] else [])
  }

  /** The alerts follow the analyses: alert j is the alert of the j-th alerting analysis, the
      positions increase strictly, and they are exactly the alerting positions. So there is one
      alert per alerting analysis, in input order. */
  lemma {:induction false} InjuryAlertsInOrder(analyses: seq<VideoAnalysis>, n: nat)
    requires n <= |analyses|
    ensures var idx := AlertIndices(analyses, n);
      && |InjuryAlerts(analyses, n)| == |idx|
      && (forall j :: 0 <= j < |idx| ==> idx[j] < n && InjuryAlerts(analyses, n)[j] == AlertOf(analyses[idx[j]]))
      && (forall j, k :: 0 <= j < k < |idx| ==> idx[j] < idx[k])
      && (forall i :: 0 <= i < n ==> (i in idx <==> Alerting(analyses[i])))
  {
    if n > 0 {
      InjuryAlertsInOrder(analyses, n - 1);
      var front := AlertIndices(analyses, n - 1);
      var last := analyses[n - 1];
      var idx := front + (if Alerting(last) then [n - 1] else []);
      var al := InjuryAlerts(analyses, n);
      assert AlertIndices(analyses, n) == idx;
      assert al == InjuryAlerts(analyses, n - 1) + (if Alerting(last) then [AlertOf(last)] else []);
      assert n - 1 !in front;
      forall i | 0 <= i < n - 1 ensures (i in idx <==> i in front) {
      }
    }
  }

  /** get_injury_alerts. */
  method GetInjuryAlerts(analyses: seq<VideoAnalysis>) returns (alerts: seq<InjuryAlert>)
    ensures alerts == InjuryAlerts(analyses, |analyses|)
  {
    alerts := [];
    for i := 0 to |analyses|
      invariant alerts == InjuryAlerts(analyses, i)
    {
      var analysis := analyses[i];
      if analysis.injuryRiskPrediction.riskLevel == Medium || analysis.injuryRiskPrediction.riskLevel == High {
        alerts := alerts + [AlertOf(analysis)];
      }
    }
  }

  // ---------------------------------------------------------------- gameplay insights

  /** The key insights of the first n gameplay analyses, in order. */
  function CollectedInsights(gameplay: seq<GameplayAnalysis>, n: nat): seq<Insight>
    requires n <= |gameplay|
  {
    if n == 0 then [] else CollectedInsights(gameplay, n - 1) + gameplay[n - 1].keyInsights
  }

  lemma {:induction false} CollectedInsightsExact(gameplay: seq<GameplayAnalysis>, n: nat)
    requires n <= |gameplay|
    ensures forall x :: x in CollectedInsights(gameplay, n) <==> exists i :: 0 <= i < n && x in gameplay[i].keyInsights
  {
    if n > 0 {
      CollectedInsightsExact(gameplay, n - 1);
    }
  }

  /** get_gameplay_insights: at most five distinct insights, each from some analysis, and all of
      them when there are no more than five distinct ones. */
  method GetGameplayInsights(gameplay: seq<GameplayAnalysis>) returns (insights: seq<Insight>)
    ensures UniqueSample(insights, CollectedInsights(gameplay, |gameplay|), 5)
    ensures |insights| <= 5
    ensures forall x :: x in insights ==> exists i :: 0 <= i < |gameplay| && x in gameplay[i].keyInsights
  {
    var all: seq<Insight> := [];
    for i := 0 to |gameplay|
      invariant all == CollectedInsights(gameplay, i)
    {
      all := all + gameplay[i].keyInsights;
    }
    CollectedInsightsExact(gameplay, |gameplay|);
    DistinctTake(all, 5);
    insights := Take(Dedup(all), 5);
  }

  // ---------------------------------------------------------------- team analytics

  datatype TeamAnalytics = TeamAnalytics(
    teamSize: nat,
    averagePerformance: real,
    topPerformers: seq<string>,
    needsAttention: seq<string>)

  /** get_team_analytics over the athlete ids and the metric values the store returned for them:
      the team size, the mean value (0 for none), the first three ids, and the last two ids when
      the team has more than five members. */
  function TeamAnalyticsOf(athleteIds: seq<string>, values: seq<real>): (r: TeamAnalytics)
    ensures r.teamSize == |athleteIds|
    ensures values == [] ==> r.averagePerformance == 0.0
    ensures values != [] ==> r.averagePerformance == Mean(values)
    ensures values != [] ==> Min(values) <= r.averagePerformance <= Max(values)
    ensures r.topPerformers <= athleteIds && |r.topPerformers| == if |athleteIds| < 3 then |athleteIds| else 3
    ensures |athleteIds| <= 5 ==> r.needsAttention == []
    ensures |athleteIds| > 5 ==> |r.needsAttention| == 2 && r.needsAttention == athleteIds[|athleteIds| - 2..]
    ensures |athleteIds| > 5 ==> forall x :: x in r.topPerformers ==> x in athleteIds[..3]
  {
    var average := if values == [] then 0.0 else (MeanBounds(values, Min(values), Max(values)); Mean(values));
    TeamAnalytics(
      |athleteIds|,
      average,
      Take(athleteIds, 3),
      if |athleteIds| > 5 then athleteIds[|athleteIds| - 2..] else [])
  }
}
