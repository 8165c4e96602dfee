/** Gameplay scoring helpers: the weighted overall score, key insights, drill recommendations,
    the summary text, the per-sport builders over the fixed mock feedback, and the dispatch
    with its default analysis. */
module GameplayAnalysis {
  import opened Seqs
  import opened Models

  datatype SportType = Basketball | Soccer | Tennis | Volleyball | Cricket | Baseball | Football

  // ---------------------------------------------------------------- mock feedback

  const TacticalFeedback: GameplayFeedback := GameplayFeedback(
    TacticalDecision, 75.0, 0.82,
    ["Good shot selection", "Effective use of space"],
    ["Work on decision speed under pressure", "Improve passing choices in transition"],
    [12.5, 45.2, 78.9],
    ["At 12.5s: Excellent drive and kick to open teammate", "At 45.2s: Good decision to take open three-pointer"])

  const PositioningFeedback: GameplayFeedback := GameplayFeedback(
    Positioning, 68.0, 0.78,
    ["Good defensive stance", "Proper spacing in half-court offense"],
    ["Work on transition defense positioning", "Improve weakside help positioning"],
    [15.7, 32.1, 67.8],
    ["At 15.7s: Excellent defensive positioning forced a turnover", "At 32.1s: Good offensive spacing created driving lane"])

  const TeamworkFeedback: GameplayFeedback := GameplayFeedback(
    Teamwork, 82.0, 0.85,
    ["Good communication on defense", "Effective screening for teammates"],
    ["Work on off-ball movement", "Improve timing on pick-and-roll actions"],
    [23.4, 56.7, 89.0],
    ["At 23.4s: Excellent help defense and recovery", "At 56.7s: Good unselfish pass to open teammate"])

  const AwarenessFeedback: GameplayFeedback := GameplayFeedback(
    GameAwareness, 71.0, 0.79,
    ["Good clock management", "Aware of opponent tendencies"],
    ["Work on recognizing defensive schemes faster", "Improve situational awareness in late game"],
    [18.9, 41.3, 72.6],
    ["At 18.9s: Excellent recognition of defensive mismatch", "At 41.3s: Good awareness to call timeout when trapped"])

  const SkillExecutionFeedback: GameplayFeedback := GameplayFeedback(
    SkillExecution, 79.0, 0.83,
    ["Consistent shooting form", "Good ball handling under pressure"],
    ["Work on off-hand finishing", "Improve defensive sliding technique"],
    [10.2, 37.5, 64.8],
    ["At 10.2s: Excellent crossover move created separation", "At 37.5s: Good form on pull-up jumper"])

  // ---------------------------------------------------------------- overall score

  /** The weight table. It lists every aspect, so the default weight 0.15 for an unlisted
      aspect is never used. */
  function Weight(a: GameplayAspect): (w: real)
    ensures 0.15 <= w <= 0.25
    ensures w == 0.25 <==> a == TacticalDecision
    ensures w == 0.15 <==> a == SkillExecution
  {
    match a
    case TacticalDecision => 0.25
    case Positioning => 0.20
    case Teamwork => 0.20
    case GameAwareness => 0.20
    case SkillExecution => 0.15
  }

  function WeightedTotal(aspects: seq<GameplayFeedback>, n: nat): real
    requires n <= |aspects|
  {
    if n == 0 then 0.0 else WeightedTotal(aspects, n - 1) + aspects[n - 1].score * Weight(aspects[n - 1].aspect)
  }

  function WeightTotal(aspects: seq<GameplayFeedback>, n: nat): real
    requires n <= |aspects|
  {
    if n == 0 then 0.0 else WeightTotal(aspects, n - 1) + Weight(aspects[n - 1].aspect)
  }

  /** The aspect scores, in aspect order. */
  function Scores(aspects: seq<GameplayFeedback>): (r: seq<real>)
    ensures |r| == |aspects| && forall i :: 0 <= i < |aspects| ==> r[i] == aspects[i].score
  {
    seq(|aspects|, i requires 0 <= i < |aspects| => aspects[i].score)
  }

  /** With scores in [lo, hi], the weighted total lies between lo and hi times the weight total. */
  lemma {:induction false} WeightedTotalBounds(aspects: seq<GameplayFeedback>, n: nat, lo: real, hi: real)
    requires n <= |aspects|
    requires forall i :: 0 <= i < |aspects| ==> lo <= aspects[i].score <= hi
    ensures WeightTotal(aspects, n) * lo <= WeightedTotal(aspects, n) <= WeightTotal(aspects, n) * hi
    ensures n > 0 ==> WeightTotal(aspects, n) > 0.0
  {
    if n > 0 {
      WeightedTotalBounds(aspects, n - 1, lo, hi);
      var f := aspects[n - 1];
      StepBounds(WeightTotal(aspects, n - 1), WeightTotal(aspects, n), WeightedTotal(aspects, n - 1),
        Weight(f.aspect), f.score, f.score * Weight(f.aspect), lo, hi);
    }
  }

  /** One step of the bound: adding a score s in [lo, hi] with weight w keeps the weighted total
      within lo and hi times the total weight. */
  lemma StepBounds(wt: real, wt1: real, total: real, w: real, s: real, sw: real, lo: real, hi: real)
    requires wt1 == wt + w && sw == s * w
    requires w > 0.0 && lo <= s <= hi
    requires wt * lo <= total <= wt * hi
    ensures wt1 * lo <= total + sw <= wt1 * hi
  {
    assert w * lo <= w * s <= w * hi;
    assert wt1 * lo == wt * lo + w * lo;
    assert wt1 * hi == wt * hi + w * hi;
  }

  /** The weighted mean of non-empty aspects whose scores lie in [lo, hi] lies in [lo, hi]. */
  lemma WeightedMeanBounds(aspects: seq<GameplayFeedback>, lo: real, hi: real)
    requires |aspects| > 0
    requires forall i :: 0 <= i < |aspects| ==> lo <= aspects[i].score <= hi
    ensures WeightTotal(aspects, |aspects|) > 0.0
    ensures lo <= WeightedTotal(aspects, |aspects|) / WeightTotal(aspects, |aspects|) <= hi
  {
    WeightedTotalBounds(aspects, |aspects|, lo, hi);
    DivBounds(WeightedTotal(aspects, |aspects|), WeightTotal(aspects, |aspects|), lo, hi);
  }

  /** The weighted mean of the aspect scores, 0 for no aspects. It lies between the lowest and
      the highest aspect score. */
  function OverallScore(aspects: seq<GameplayFeedback>): (score: real)
    ensures aspects == [] ==> score == 0.0
    ensures aspects != [] ==> Min(Scores(aspects)) <= score <= Max(Scores(aspects))
  {
    if |aspects| == 0 then 0.0
    else
      var w := WeightTotal(aspects, |aspects|);
      WeightedMeanBounds(aspects, Min(Scores(aspects)), Max(Scores(aspects)));
      if w > 0.0 then WeightedTotal(aspects, |aspects|) / w else 0.0
  }

  /** calculate_overall_score: accumulate weighted scores and weights, then divide. */
  method CalculateOverallScore(aspects: seq<GameplayFeedback>) returns (score: real)
    ensures score == OverallScore(aspects)
  {
    if |aspects| == 0 {
      return 0.0;
    }
    var totalScore := 0.0;
    var totalWeight := 0.0;
    for i := 0 to |aspects|
      invariant totalScore == WeightedTotal(aspects, i)
      invariant totalWeight == WeightTotal(aspects, i)
    {
      var weight := Weight(aspects[i].aspect);
      totalScore := totalScore + aspects[i].score * weight;
      totalWeight := totalWeight + weight;
    }
    score := if totalWeight > 0.0 then totalScore / totalWeight else 0.0;
  }

  // ---------------------------------------------------------------- summary

  const NoAnalysisSummary: string := "No gameplay analysis available."

  /** `', '.join(items)`. */
  function JoinComma(items: seq<string>): string
  {
    if |items| == 0 then "" else if |items| == 1 then items[0] else items[0] + ", " + JoinComma(items[1..])
  }

  function SummaryText(sport: string, strengths: seq<string>, improvements: seq<string>): string
  {
    "In your " + sport + " gameplay, you demonstrated strengths in " + JoinComma(strengths) + ". "
      + "Focus on improving " + JoinComma(improvements) + " to elevate your performance to the next level."
  }

  /** The first entry (if any) of the chosen list of each of the first n aspects, in order. */
  function FirstOfEach(aspects: seq<GameplayFeedback>, pick: GameplayFeedback -> seq<string>, n: nat): seq<string>
    requires n <= |aspects|
  {
    if n == 0 then [] else FirstOfEach(aspects, pick, n - 1) + Take(pick(aspects[n - 1]), 1)
  }

  /** At most one entry per aspect, each the first of its aspect's list; exactly the first
      entries, in aspect order, when no aspect's list is empty. */
  lemma {:induction false} FirstOfEachExact(aspects: seq<GameplayFeedback>, pick: GameplayFeedback -> seq<string>, n: nat)
    requires n <= |aspects|
    ensures |FirstOfEach(aspects, pick, n)| <= n
    ensures forall x :: x in FirstOfEach(aspects, pick, n) ==>
      exists i :: 0 <= i < n && |pick(aspects[i])| > 0 && x == pick(aspects[i])[0]
    ensures (forall i :: 0 <= i < n ==> |pick(aspects[i])| > 0) ==>
      |FirstOfEach(aspects, pick, n)| == n &&
      forall i :: 0 <= i < n ==> FirstOfEach(aspects, pick, n)[i] == pick(aspects[i])[0]
  {
    if n > 0 {
      FirstOfEachExact(aspects, pick, n - 1);
      var front := FirstOfEach(aspects, pick, n - 1);
      var t := Take(pick(aspects[n - 1]), 1);
      forall x | x in front + t
        ensures exists i :: 0 <= i < n && |pick(aspects[i])| > 0 && x == pick(aspects[i])[0]
      {
        if x in front {
          var i :| 0 <= i < n - 1 && |pick(aspects[i])| > 0 && x == pick(aspects[i])[0];
        } else {
          assert x == pick(aspects[n - 1])[0];
        }
      }
    }
  }

  function Strengths(f: GameplayFeedback): seq<string>
  {
    f.strengths
  }

  function Improvements(f: GameplayFeedback): seq<string>
  {
    f.improvements
  }

  /** What the summary says about one kind of entry: at most three of them, each the first
      entry of some aspect's list; when no aspect's list is empty, the first entries of the
      first three aspects, in aspect order. */
  predicate TopPicks(picks: seq<string>, aspects: seq<GameplayFeedback>, pick: GameplayFeedback -> seq<string>)
  {
    && |picks| <= 3
    && (forall x :: x in picks ==> exists i :: 0 <= i < |aspects| && |pick(aspects[i])| > 0 && x == pick(aspects[i])[0])
    && ((forall i :: 0 <= i < |aspects| ==> |pick(aspects[i])| > 0) ==>
          && |picks| == (if |aspects| < 3 then |aspects| else 3)
          && forall i :: 0 <= i < |picks| ==> picks[i] == pick(aspects[i])[0])
  }

  /** Cutting the first entries of all aspects to three gives such picks. */
  lemma TopPicksOfFirst(aspects: seq<GameplayFeedback>, pick: GameplayFeedback -> seq<string>)
    ensures TopPicks(Take(FirstOfEach(aspects, pick, |aspects|), 3), aspects, pick)
  {
    var all := FirstOfEach(aspects, pick, |aspects|);
    FirstOfEachExact(aspects, pick, |aspects|);
    var t := Take(all, 3);
    forall x | x in t
      ensures exists i :: 0 <= i < |aspects| && |pick(aspects[i])| > 0 && x == pick(aspects[i])[0]
    {
      var k :| 0 <= k < |t| && t[k] == x;
      assert all[k] == x;
      assert x in all;
    }
    if forall i :: 0 <= i < |aspects| ==> |pick(aspects[i])| > 0 {
      assert |all| == |aspects|;
      forall i | 0 <= i < |t| ensures t[i] == pick(aspects[i])[0] {
        assert t[i] == all[i];
      }
    }
  }

  /** generate_summary's text: the fixed message for no aspects, otherwise the summary sentence
      naming the top strengths and the top improvements. */
  function Summary(aspects: seq<GameplayFeedback>, sport: string): (r: string)
    ensures aspects == [] ==> r == NoAnalysisSummary
    ensures aspects != [] ==> exists st, im ::
      && r == SummaryText(sport, st, im)
      && TopPicks(st, aspects, Strengths)
      && TopPicks(im, aspects, Improvements)
  {
    if |aspects| == 0 then NoAnalysisSummary
    else
      var st := Take(FirstOfEach(aspects, Strengths, |aspects|), 3);
      var im := Take(FirstOfEach(aspects, Improvements, |aspects|), 3);
      TopPicksOfFirst(aspects, Strengths);
      TopPicksOfFirst(aspects, Improvements);
      SummaryText(sport, st, im)
  }

  /** generate_summary: collect the first strength and improvement of each aspect. */
  method GenerateSummary(aspects: seq<GameplayFeedback>, sport: string) returns (text: string)
    ensures text == Summary(aspects, sport)
  {
    if |aspects| == 0 {
      return NoAnalysisSummary;
    }
    var strengths: seq<string> := [];
    var improvements: seq<string> := [];
    for i := 0 to |aspects|
      invariant strengths == FirstOfEach(aspects, Strengths, i)
      invariant improvements == FirstOfEach(aspects, Improvements, i)
    {
      strengths := strengths + Take(aspects[i].strengths, 1);
      improvements := improvements + Take(aspects[i].improvements, 1);
    }
    text := SummaryText(sport, Take(strengths, 3), Take(improvements, 3));
  }

  // ---------------------------------------------------------------- key insights

  const BalancedInsight: Insight :=
    Message("Your gameplay shows balanced skills across all aspects with no major weaknesses")

  /** The insight an aspect raises: a weakness below 70, a strength above 85, otherwise none. */
  function AspectInsight(f: GameplayFeedback): seq<Insight>
  {
    if f.score < 70.0 then [NeedsAttention(f.aspect, f.score)]
    else if f.score > 85.0 then [MajorStrength(f.aspect, f.score)]
    else []
  }

  function FlaggedInsights(aspects: seq<GameplayFeedback>, n: nat): seq<Insight>
    requires n <= |aspects|
  {
    if n == 0 then [] else FlaggedInsights(aspects, n - 1) + AspectInsight(aspects[n - 1])
  }

  /** At most one insight per aspect, and each names an aspect with its score on the right
      side of the thresholds: below 70 for a weakness, above 85 for a strength. */
  lemma {:induction false} FlaggedInsightsSound(aspects: seq<GameplayFeedback>, n: nat)
    requires n <= |aspects|
    ensures |FlaggedInsights(aspects, n)| <= n
    ensures forall x :: x in FlaggedInsights(aspects, n) ==>
      (x.NeedsAttention? && x.score < 70.0) || (x.MajorStrength? && x.score > 85.0)
  {
    if n > 0 {
      FlaggedInsightsSound(aspects, n - 1);
      assert FlaggedInsights(aspects, n) == FlaggedInsights(aspects, n - 1) + AspectInsight(aspects[n - 1]);
    }
  }

  /** An aspect below 70 raises its needs-attention insight, one above 85 its major-strength
      insight. */
  lemma {:induction false} ExtremeAspectFlagged(aspects: seq<GameplayFeedback>, n: nat, i: nat)
    requires i < n <= |aspects|
    ensures aspects[i].score < 70.0 ==> NeedsAttention(aspects[i].aspect, aspects[i].score) in FlaggedInsights(aspects, n)
    ensures aspects[i].score > 85.0 ==> MajorStrength(aspects[i].aspect, aspects[i].score) in FlaggedInsights(aspects, n)
  {
    assert FlaggedInsights(aspects, n) == FlaggedInsights(aspects, n - 1) + AspectInsight(aspects[n - 1]);
    if i < n - 1 {
      ExtremeAspectFlagged(aspects, n - 1, i);
    }
  }

  /** With every score in [70, 85] nothing is flagged. */
  lemma {:induction false} BalancedNoInsights(aspects: seq<GameplayFeedback>, n: nat)
    requires n <= |aspects|
    requires forall i :: 0 <= i < n ==> 70.0 <= aspects[i].score <= 85.0
    ensures FlaggedInsights(aspects, n) == []
  {
    if n > 0 {
      BalancedNoInsights(aspects, n - 1);
      assert AspectInsight(aspects[n - 1]) == [];
    }
  }

  /** extract_key_insights' result: the flagged insights, at most five, or the single balanced
      message when there are none; never empty. */
  function KeyInsights(aspects: seq<GameplayFeedback>): (r: seq<Insight>)
    ensures 1 <= |r| <= 5
    ensures FlaggedInsights(aspects, |aspects|) == [] ==> r == [BalancedInsight]
    ensures var f := FlaggedInsights(aspects, |aspects|);
      && (f != [] ==> r <= f && |r| == (if |f| < 5 then |f| else 5))
      && (0 < |f| <= 5 ==> r == f)
  {
    var insights := FlaggedInsights(aspects, |aspects|);
    if insights == [] then [BalancedInsight] else Take(insights, 5)
  }

  /** extract_key_insights: one pass over the aspects, then the fallback and the cut. */
  method ExtractKeyInsights(aspects: seq<GameplayFeedback>) returns (insights: seq<Insight>)
    ensures insights == KeyInsights(aspects)
  {
    insights := [];
    for i := 0 to |aspects|
      invariant insights == FlaggedInsights(aspects, i)
    {
      var feedback := aspects[i];
      if feedback.score < 70.0 {
        insights := insights + [NeedsAttention(feedback.aspect, feedback.score)];
      } else if feedback.score > 85.0 {
        insights := insights + [MajorStrength(feedback.aspect, feedback.score)];
      }
    }
    if insights == [] {
      insights := insights + [BalancedInsight];
    }
    insights := Take(insights, 5);
  }

  // ---------------------------------------------------------------- drills

  const BasketballPositioningDrills: seq<string> :=
    ["Defensive sliding drills with mirror exercises", "Closeout and recovery drills"]
  const SoccerPositioningDrills: seq<string> :=
    ["Positional awareness drills with cones", "Small-sided games focusing on spacing"]
  const TacticalDrills: seq<string> :=
    ["Video analysis of professional players' decision making", "Decision-making drills under time pressure"]
  const GeneralDrills: seq<string> := [
    "3-man weave for transition decision making",
    "5-on-5 shell drill for defensive positioning",
    "Pick-and-roll read and react drills"]

  /** The drills one aspect calls for: only below 75, positioning drills only for basketball or
      soccer, tactical drills for any sport. */
  function AspectDrills(f: GameplayFeedback, sport: string): seq<string>
  {
    if f.score >= 75.0 then []
    else if f.aspect == Positioning then
      (if sport == "basketball" then BasketballPositioningDrills
       else if sport == "soccer" then SoccerPositioningDrills
       else [])
    else if f.aspect == TacticalDecision then TacticalDrills
    else []
  }

  function SpecificDrills(aspects: seq<GameplayFeedback>, sport: string, n: nat): seq<string>
    requires n <= |aspects|
  {
    if n == 0 then [] else SpecificDrills(aspects, sport, n - 1) + AspectDrills(aspects[n - 1], sport)
  }

  /** Every specific drill is a tactical drill or a positioning drill of the given sport. */
  lemma {:induction false} SpecificDrillsSound(aspects: seq<GameplayFeedback>, sport: string, n: nat)
    requires n <= |aspects|
    ensures forall d :: d in SpecificDrills(aspects, sport, n) ==>
      || d in TacticalDrills
      || (sport == "basketball" && d in BasketballPositioningDrills)
      || (sport == "soccer" && d in SoccerPositioningDrills)
  {
    if n > 0 {
      SpecificDrillsSound(aspects, sport, n - 1);
      assert SpecificDrills(aspects, sport, n) == SpecificDrills(aspects, sport, n - 1) + AspectDrills(aspects[n - 1], sport);
    }
  }

  /** A tactical aspect scoring below 75 brings both tactical drills. */
  lemma {:induction false} WeakTacticsBringDrills(aspects: seq<GameplayFeedback>, sport: string, n: nat, i: nat)
    requires i < n <= |aspects|
    requires aspects[i].aspect == TacticalDecision && aspects[i].score < 75.0
    ensures forall d :: d in TacticalDrills ==> d in SpecificDrills(aspects, sport, n)
  {
    var front := SpecificDrills(aspects, sport, n - 1);
    assert SpecificDrills(aspects, sport, n) == front + AspectDrills(aspects[n - 1], sport);
    if i < n - 1 {
      WeakTacticsBringDrills(aspects, sport, n - 1, i);
    } else {
      assert AspectDrills(aspects[i], sport) == TacticalDrills;
    }
  }

  /** No aspect below 75 means no specific drill. */
  lemma {:induction false} NoWeaknessNoDrills(aspects: seq<GameplayFeedback>, sport: string, n: nat)
    requires n <= |aspects|
    requires forall i :: 0 <= i < n ==> aspects[i].score >= 75.0
    ensures SpecificDrills(aspects, sport, n) == []
  {
    if n > 0 {
      NoWeaknessNoDrills(aspects, sport, n - 1);
      assert AspectDrills(aspects[n - 1], sport) == [];
    }
  }

  /** recommend_drills' result: the specific drills, padded with the three general drills when
      fewer than three, cut to five; always between three and five drills. */
  function Drills(aspects: seq<GameplayFeedback>, sport: string): (r: seq<string>)
    ensures 3 <= |r| <= 5
    ensures var d := SpecificDrills(aspects, sport, |aspects|);
      && (|d| < 3 ==> r == d + GeneralDrills)
      && (|d| >= 3 ==> r <= d && |r| == (if |d| < 5 then |d| else 5))
      && (d == [] ==> r == GeneralDrills)
  {
    var drills := SpecificDrills(aspects, sport, |aspects|);
    var padded := if |drills| < 3 then drills + GeneralDrills else drills;
    Take(padded, 5)
  }

  /** recommend_drills: collect the aspect drills, pad, cut. */
  method RecommendDrills(aspects: seq<GameplayFeedback>, sport: string) returns (drills: seq<string>)
    ensures drills == Drills(aspects, sport)
  {
    drills := [];
    for i := 0 to |aspects|
      invariant drills == SpecificDrills(aspects, sport, i)
    {
      var feedback := aspects[i];
      if feedback.score < 75.0 {
        if feedback.aspect == Positioning {
          if sport == "basketball" {
            drills := drills + [BasketballPositioningDrills[0]];
            drills := drills + [BasketballPositioningDrills[1]];
          } else if sport == "soccer" {
            drills := drills + [SoccerPositioningDrills[0]];
            drills := drills + [SoccerPositioningDrills[1]];
          }
        } else if feedback.aspect == TacticalDecision {
          drills := drills + [TacticalDrills[0]];
          drills := drills + [TacticalDrills[1]];
        }
      }
    }
    if |drills| < 3 {
      drills := drills + GeneralDrills;
    }
    drills := Take(drills, 5);
  }

  // ---------------------------------------------------------------- analyses

  /** The analysis every sport-specific builder assembles from its aspects. */
  function AspectAnalysis(aspects: seq<GameplayFeedback>, sport: string): GameplayAnalysis
  {
    GameplayAnalysis(OverallScore(aspects), aspects, Summary(aspects, sport), KeyInsights(aspects), Drills(aspects, sport))
  }

  const BasketballAspects: seq<GameplayFeedback> :=
    [TacticalFeedback, PositioningFeedback, TeamworkFeedback, AwarenessFeedback]
  const SoccerAspects: seq<GameplayFeedback> :=
    [TacticalFeedback, PositioningFeedback, TeamworkFeedback, AwarenessFeedback, SkillExecutionFeedback]

  /** The basketball figures: overall 62.95 / 0.85, one weakness, two positioning drills. */
  lemma BasketballFigures()
    ensures OverallScore(BasketballAspects) == 1259.0 / 17.0
    ensures KeyInsights(BasketballAspects) == [NeedsAttention(Positioning, 68.0)]
    ensures Drills(BasketballAspects, "basketball") == BasketballPositioningDrills + GeneralDrills
  {
    var a := BasketballAspects;
    assert WeightTotal(a, 4) == 0.85 by {
      assert WeightTotal(a, 1) == 0.25;
      assert WeightTotal(a, 2) == 0.45;
    }
    assert WeightedTotal(a, 4) == 62.95 by {
      assert WeightedTotal(a, 1) == 18.75;
      assert WeightedTotal(a, 2) == 32.35;
    }
    assert FlaggedInsights(a, 4) == [NeedsAttention(Positioning, 68.0)] by {
      assert FlaggedInsights(a, 1) == [];
      assert FlaggedInsights(a, 2) == [NeedsAttention(Positioning, 68.0)];
    }
    assert SpecificDrills(a, "basketball", 4) == BasketballPositioningDrills by {
      assert SpecificDrills(a, "basketball", 1) == [];
      assert SpecificDrills(a, "basketball", 2) == BasketballPositioningDrills;
    }
  }

  /** The soccer figures: overall 74.8 over weights summing to 1, the same single weakness. */
  lemma SoccerFigures()
    ensures OverallScore(SoccerAspects) == 74.8
    ensures KeyInsights(SoccerAspects) == [NeedsAttention(Positioning, 68.0)]
    ensures Drills(SoccerAspects, "soccer") == SoccerPositioningDrills + GeneralDrills
  {
    var a := SoccerAspects;
    assert WeightTotal(a, 5) == 1.0 by {
      assert WeightTotal(a, 1) == 0.25;
      assert WeightTotal(a, 2) == 0.45;
      assert WeightTotal(a, 4) == 0.85;
    }
    assert WeightedTotal(a, 5) == 74.8 by {
      assert WeightedTotal(a, 1) == 18.75;
      assert WeightedTotal(a, 2) == 32.35;
      assert WeightedTotal(a, 4) == 62.95;
    }
    assert FlaggedInsights(a, 5) == [NeedsAttention(Positioning, 68.0)] by {
      assert FlaggedInsights(a, 1) == [];
      assert FlaggedInsights(a, 2) == [NeedsAttention(Positioning, 68.0)];
      assert FlaggedInsights(a, 4) == [NeedsAttention(Positioning, 68.0)];
    }
    assert SpecificDrills(a, "soccer", 5) == SoccerPositioningDrills by {
      assert SpecificDrills(a, "soccer", 1) == [];
      assert SpecificDrills(a, "soccer", 2) == SoccerPositioningDrills;
      assert SpecificDrills(a, "soccer", 4) == SoccerPositioningDrills;
    }
  }

  method BuildAnalysis(aspects: seq<GameplayFeedback>, sport: string) returns (r: GameplayAnalysis)
    ensures r == AspectAnalysis(aspects, sport)
  {
    var overallScore := CalculateOverallScore(aspects);
    var summary := GenerateSummary(aspects, sport);
    var keyInsights := ExtractKeyInsights(aspects);
    var recommendedDrills := RecommendDrills(aspects, sport);
    r := GameplayAnalysis(overallScore, aspects, summary, keyInsights, recommendedDrills);
  }

  /** analyze_basketball_gameplay: four aspects; positioning (68) is the one weakness, so it
      draws one insight and two drills, padded with the three general ones. */
  method AnalyzeBasketballGameplay() returns (r: GameplayAnalysis)
    ensures r == AspectAnalysis(BasketballAspects, "basketball")
    ensures |r.aspects| == 4
    ensures r.overallScore == 1259.0 / 17.0
    ensures r.keyInsights == [NeedsAttention(Positioning, 68.0)]
    ensures r.recommendedDrills == BasketballPositioningDrills + GeneralDrills
  {
    BasketballFigures();
    r := BuildAnalysis(BasketballAspects, "basketball");
  }

  /** analyze_soccer_gameplay: the same four aspects plus skill execution. */
  method AnalyzeSoccerGameplay() returns (r: GameplayAnalysis)
    ensures r == AspectAnalysis(SoccerAspects, "soccer")
    ensures |r.aspects| == 5
    ensures r.overallScore == 74.8
    ensures r.keyInsights == [NeedsAttention(Positioning, 68.0)]
    ensures r.recommendedDrills == SoccerPositioningDrills + GeneralDrills
  {
    SoccerFigures();
    r := BuildAnalysis(SoccerAspects, "soccer");
  }

  /** create_default_analysis: a fixed placeholder analysis. Its overall score of 65 is not the
      score its (empty) aspects would give. */
  function CreateDefaultAnalysis(sport: SportType): (r: GameplayAnalysis)
    ensures r.aspects == [] && r.overallScore == 65.0 && r.overallScore != OverallScore(r.aspects)
  {
    GameplayAnalysis(65.0, [],
      "Basic gameplay analysis completed. Detailed analysis unavailable at this time.",
      [Message("Enable enhanced analysis features for detailed feedback")],
      ["Fundamental skills practice", "Game situation drills"])
  }

  /** analyze_gameplay: basketball and soccer have builders; the tennis and generic handlers it
      calls are not defined, so those calls raise and the default analysis is returned. */
  method AnalyzeGameplay(sport: SportType) returns (r: GameplayAnalysis)
    ensures sport == Basketball ==> r == AspectAnalysis(BasketballAspects, "basketball") && |r.aspects| == 4
    ensures sport == Soccer ==> r == AspectAnalysis(SoccerAspects, "soccer") && |r.aspects| == 5
    ensures sport != Basketball && sport != Soccer ==> r == CreateDefaultAnalysis(sport)
  {
    if sport == Basketball {
      r := AnalyzeBasketballGameplay();
    } else if sport == Soccer {
      r := AnalyzeSoccerGameplay();
    } else {
      r := CreateDefaultAnalysis(sport);
    }
  }
}
