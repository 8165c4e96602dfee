# Sports-video analysis core, modelled in Dafny

This project models the analysis core of a sports-video back end:

- **Cheat detection** (`services/cheat_detection.py`): it samples every fifth decoded frame, then runs two tests.
  - Duplicate frames: consecutive frames whose histogram correlation exceeds 0.95; flagged when they are more than 10 % of the frames.
  - Unnatural motion: consecutive-frame optical-flow magnitudes more than two standard deviations from their mean.
  - The two reports are combined into one verdict, with a fail-open verdict when the download fails.
- **Video analysis** (`services/ai_analysis.py`):
  - storage-URL path extraction;
  - every-tenth-frame sampling;
  - per-frame posture scoring from pose landmarks (base 85, minus 10/10/8 for shoulder/hip/knee imbalance);
  - the clip's posture summary;
  - the skill-assessor dispatch with its default assessment;
  - the injury-risk prediction.
- **Gameplay analysis** (`services/gameplay_analysis.py`):
  - the weighted overall score;
  - summary text, key insights and drill recommendations;
  - the basketball and soccer builders over fixed feedback records;
  - the sport dispatch with its default analysis.
- **Dashboard aggregations** (`routers/dashboard.py`): the athlete performance summary, injury alerts, merged gameplay insights and team analytics.

## How the model is built

Modules:
- `Wrappers`: the `Option` type.
- `Seqs`: sums, means, bounds, Python's `s[:n]` and `list(set(s))`.
- `Models`: the pydantic record shapes.
- `FrameSampling`: the stride sampler shared by both frame extractors.
- `CheatDetection`, `AiAnalysis`, `GameplayAnalysis` and `Dashboard`: one per source file.

How the source's constructs are represented:
- **Loops.** Each loop in the source is a Dafny `method` with a loop. The method's postcondition ties its result to a pure Dafny function, and the source's promises are proved about that function.
- **Frames.** Frames are a type parameter.
- **Vision primitives.** OpenCV histogram correlation, Farneback optical flow and MediaPipe pose are function parameters of the operations that use them. The pose estimator is a pure function of one frame. The source opens MediaPipe in video mode (`static_image_mode=False`), where results can depend on earlier frames; that tracking is not modelled.
- **Decoding.** A recording is given by the sequence of frames it decodes to. A source OpenCV cannot open decodes to no frames.
- **Numbers.** Floating-point values are modelled as exact reals. The injury-risk score only ever takes the values 0.3, 0.4, 0.5, 0.6, 0.7, 0.8 and 0.9 (the float sums agree on the level and on `round(·, 2)`). It is kept in integer tenths.
- **Text.** Anomaly and insight messages are structured values (`Anomaly`, `Insight`) holding the facts each message is formatted from.
- **Dictionaries.** A gameplay analysis's aspect dictionary is a sequence in insertion order, keyed by each feedback's `aspect` field.

Three behaviours of the code that the model keeps as they are:
- An input OpenCV cannot open yields an empty frame list; no error is raised.
- The clip posture score is the sum of per-frame scores divided by the number of all frames, including frames where no pose was detected.
- `detect_cheating` calls `download_video`, which is not defined or imported in its module (see Findings).

## Model

| member | source | states |
|---|---|---|
| FrameSampling.SampleFrames | services/cheat_detection.py:44-64 | keeps exactly the frames whose index is a multiple of the interval; an interval of 0 with at least one frame is the division error (`None`); no frames gives `[]` |
| FrameSampling.SampledFrames | services/cheat_detection.py:55-59 | for a positive interval k the sample has ⌈n/k⌉ frames and its j-th frame is decoded frame j·k |
| CheatDetection.ExtractFrames | services/cheat_detection.py:44-64 | the sample is every fifth frame: (n+4)/5 frames, frame j is decoded frame 5j |
| CheatDetection.FrameSimilarity | services/cheat_detection.py:97-108 | the similarity is the correlation clamped below at 0: non-negative, at least the correlation, and either 0 or the correlation |
| CheatDetection.DuplicatePairsExact | services/cheat_detection.py:79-86 | a pair (i-1, i) is reported exactly when its similarity exceeds the threshold, in increasing order, at most n-1 of them |
| CheatDetection.AllPairsDuplicate | services/cheat_detection.py:79-86 | when every consecutive pair is similar, all n-1 pairs are reported |
| CheatDetection.StillClipFlagged | services/cheat_detection.py:66-95 | a clip of two or more frames whose consecutive pairs are all similar has n-1 duplicates and is flagged as duplicated |
| CheatDetection.Duplication | services/cheat_detection.py:66-95 | fewer than two frames gives the clean report; otherwise the count equals the anomalies; duplicated iff count > 10 % of the frames; confidence count/n, in [0, 1) and positive iff there is an anomaly |
| CheatDetection.DuplicateShare | services/cheat_detection.py:92 | c/n lies in [0, 1) for c ≤ n-1, so the `min(·, 1.0)` never bites |
| CheatDetection.DetectFrameDuplication | services/cheat_detection.py:66-95 | the loop computes the duplication report |
| CheatDetection.OutliersExact | services/cheat_detection.py:127-129 | a flow pair is reported exactly when its magnitude deviates from the mean by more than two standard deviations, in increasing order |
| CheatDetection.SumSqDevNonNegative | services/cheat_detection.py:124 | the variance is non-negative |
| CheatDetection.OutlierMass | services/cheat_detection.py:124-129 | the squared deviations of the outliers carry more than 4·variance each, and together no more than the total |
| CheatDetection.ChebyshevBound | services/cheat_detection.py:122-133 | fewer than a quarter of the flow pairs can be outliers |
| CheatDetection.QuarterShare | services/cheat_detection.py:133 | the motion confidence stays below 0.25 |
| CheatDetection.ConstantMotionHasNoOutliers | services/cheat_detection.py:122-129 | constant flow magnitudes raise no anomaly |
| CheatDetection.Motion | services/cheat_detection.py:110-135 | outliers only when there are at least two magnitudes; unnatural iff some anomaly; confidence anomalies/magnitudes in [0, 0.25), positive iff some anomaly, 0 with no magnitudes |
| CheatDetection.DetectUnnaturalMovement | services/cheat_detection.py:110-135 | the two loops compute the motion report |
| CheatDetection.Verdict | services/cheat_detection.py:9-42 | every verdict is valid (confidence in [0, 1), cheating only with anomalies, duplicates fewer than frames); a failed download gives the fail-open verdict; otherwise cheating iff duplicated or unnatural, confidence the larger of the two, anomalies the duplication ones followed by the motion ones, frames analysed the sample size, duplicates the duplication count, confidence positive iff some anomaly |
| CheatDetection.DetectCheating | services/cheat_detection.py:9-42 | the pipeline computes the verdict over the downloaded frames |
| CheatDetection.DetectCheatingAsWritten | services/cheat_detection.py:9-42 | `detect_cheating` as written: for every URL the verdict of a failed download, no cheating, zero confidence, nothing analysed, the single failure anomaly |
| CheatDetection.AsWrittenMissesStillClip | services/cheat_detection.py:15 | on a clip of identical frames the intended pipeline flags cheating while the function as written returns the fail-open verdict |
| AiAnalysis.ExtractFrames | services/ai_analysis.py:133-150 | the sample is every tenth frame: (n+9)/10 frames, frame j is decoded frame 10j |
| AiAnalysis.ImbalanceIssues | services/ai_analysis.py:186-205 | a tag is reported iff its landmark pair differs in height by more than 0.05, in shoulder, hip, knee order |
| AiAnalysis.FrameScore | services/ai_analysis.py:184-208 | the frame score is in [57, 85] and equals 85 iff no issue is reported |
| AiAnalysis.PenaltyByPair | services/ai_analysis.py:195-205 | a frame's penalty total is the sum of the three pair penalties (10, 10, 8 when imbalanced, else 0) |
| AiAnalysis.IssuePenalties | services/ai_analysis.py:195-205 | the issue penalties total between 0 and 28 |
| AiAnalysis.PenaltySumAppend | services/ai_analysis.py:197-205 | appending an issue adds its penalty |
| AiAnalysis.CalculatePostureMetrics | services/ai_analysis.py:182-211 | on a 33-landmark pose, returns the reported issues, the frame score (in [57, 85]) and the (x, y, z) keypoints of every landmark |
| AiAnalysis.ScoreSumBounds | services/ai_analysis.py:165-171 | the summed frame scores lie between 57 and 85 per detected frame |
| AiAnalysis.AllIssuesExact | services/ai_analysis.py:169-172 | an issue is collected iff some detected frame reports it |
| AiAnalysis.AtMostThreeTags | services/ai_analysis.py:177 | a set of issue tags has at most three elements |
| AiAnalysis.DistinctDedup | services/ai_analysis.py:177 | de-duplicating an already distinct list returns it unchanged |
| AiAnalysis.MeanScoreBounds | services/ai_analysis.py:175-176 | the clip score lies in [0, 85], is at least 57 when every frame has a pose, and is 0 when none has |
| AiAnalysis.AnalyzePosture | services/ai_analysis.py:155-179 | the clip score is the summed frame scores over all frames (0 without frames), within those bounds; the issues are distinct, at most three, exactly those of some detected frame; one keypoint list per detected frame; no corrections |
| AiAnalysis.RiskTenths | services/ai_analysis.py:292-298 | the risk score is 3 to 9 tenths |
| AiAnalysis.AdviceFacts | services/ai_analysis.py:302-312 | the three generic recommendations come first, three to six in all, and each targeted recommendation is present iff its tag is |
| AiAnalysis.PredictInjuryRisk | services/ai_analysis.py:291-319 | the score and level of the thresholds; low iff no risk increment applies; high iff more than two issues and a posture or skill score below 70; factors are the posture issues; the recommendations are the three generic ones followed by exactly one per present tag, in shoulder, hip, knee order |
| AiAnalysis.Split | services/ai_analysis.py:122 | splitting on '/' gives at least one part and no part contains '/' |
| AiAnalysis.JoinSplit | services/ai_analysis.py:122-125 | joining the split parts with '/' rebuilds the URL |
| AiAnalysis.SuffixTransitive | services/ai_analysis.py:125 | a suffix of a suffix is a suffix |
| AiAnalysis.JoinDropIsSuffix | services/ai_analysis.py:125 | joining a tail of the parts gives a suffix of the joined whole |
| AiAnalysis.FirstIndex | services/ai_analysis.py:124 | the index found is the first occurrence; none iff absent |
| AiAnalysis.ExtractFilePathFromUrl | services/ai_analysis.py:120-128 | without an `object` segment the URL is returned unchanged; the path is always a suffix of the URL; it is empty when fewer than two segments follow `object`; otherwise the URL is the segments up to and including the bucket after the first `object`, a `/`, then the path |
| AiAnalysis.AssessSkills | services/ai_analysis.py:216-249 | the sport/skill pairs with a dedicated assessor yield none (those assessors have no body); every other pair yields the default assessment, scoring at least 70 |
| GameplayAnalysis.Weight | services/gameplay_analysis.py:171-183 | every weight lies in [0.15, 0.25]; tactical decisions alone weigh 0.25 and skill execution alone 0.15 |
| GameplayAnalysis.WeightedTotalBounds | services/gameplay_analysis.py:179-185 | with scores in [lo, hi] the weighted total lies between lo and hi times the total weight, which is positive |
| GameplayAnalysis.WeightedMeanBounds | services/gameplay_analysis.py:187 | the weighted mean lies in [lo, hi] |
| GameplayAnalysis.OverallScore | services/gameplay_analysis.py:165-187 | 0 without aspects; otherwise between the lowest and the highest aspect score |
| GameplayAnalysis.CalculateOverallScore | services/gameplay_analysis.py:165-187 | the loop computes the weighted mean |
| GameplayAnalysis.FirstOfEachExact | services/gameplay_analysis.py:197-199 | at most one entry per aspect, each the first of that aspect's list; all of them, in order, when no list is empty |
| GameplayAnalysis.TopPicksOfFirst | services/gameplay_analysis.py:197-202 | the first three of the per-aspect first entries are at most three, each the first entry of some aspect, and exactly the first entries of the first three aspects when no list is empty |
| GameplayAnalysis.Summary | services/gameplay_analysis.py:189-202 | the fixed text without aspects; otherwise the summary sentence whose strengths and improvements are at most three each, each the first entry of some aspect, and the first entries of the first three aspects, in order, when every aspect has one |
| GameplayAnalysis.GenerateSummary | services/gameplay_analysis.py:189-202 | the loop computes the summary |
| GameplayAnalysis.FlaggedInsightsSound | services/gameplay_analysis.py:208-212 | at most one insight per aspect, each a weakness below 70 or a strength above 85 |
| GameplayAnalysis.ExtremeAspectFlagged | services/gameplay_analysis.py:208-212 | an aspect below 70 raises its needs-attention insight and one above 85 its major-strength insight |
| GameplayAnalysis.BalancedNoInsights | services/gameplay_analysis.py:208-215 | with every score in [70, 85] nothing is flagged, so only the balanced message remains |
| GameplayAnalysis.KeyInsights | services/gameplay_analysis.py:204-217 | one to five insights; the balanced message when none is flagged; otherwise the first min(n, 5) of the n flagged ones, so all of them when there are at most five |
| GameplayAnalysis.ExtractKeyInsights | services/gameplay_analysis.py:204-217 | the loop computes the key insights |
| GameplayAnalysis.SpecificDrillsSound | services/gameplay_analysis.py:223-236 | every specific drill is a tactical drill or a positioning drill of the sport at hand (basketball or soccer only) |
| GameplayAnalysis.WeakTacticsBringDrills | services/gameplay_analysis.py:224-236 | a tactical aspect below 75 brings both tactical drills |
| GameplayAnalysis.NoWeaknessNoDrills | services/gameplay_analysis.py:224 | no aspect below 75 means no specific drill |
| GameplayAnalysis.Drills | services/gameplay_analysis.py:219-246 | three to five drills; with fewer than three specific drills, exactly the specific drills followed by the three general ones; otherwise the first min(n, 5) of the n specific drills; exactly the general drills when none is specific |
| GameplayAnalysis.RecommendDrills | services/gameplay_analysis.py:219-246 | the loop computes the drills |
| GameplayAnalysis.BasketballFigures | services/gameplay_analysis.py:42-72 | basketball: overall 1259/17 (62.95 / 0.85), the single positioning weakness, two positioning drills and the general drills |
| GameplayAnalysis.SoccerFigures | services/gameplay_analysis.py:74-95 | soccer: overall 74.8, the same single weakness, two positioning drills and the general drills |
| GameplayAnalysis.BuildAnalysis | services/gameplay_analysis.py:62-72 | an analysis combines the score, the summary, the insights and the drills of its aspects |
| GameplayAnalysis.AnalyzeBasketballGameplay | services/gameplay_analysis.py:42-72 | four aspects with the basketball figures |
| GameplayAnalysis.AnalyzeSoccerGameplay | services/gameplay_analysis.py:74-95 | five aspects with the soccer figures |
| GameplayAnalysis.CreateDefaultAnalysis | services/gameplay_analysis.py:248-257 | no aspects and a fixed score of 65, which is not the score its aspects would give |
| GameplayAnalysis.AnalyzeGameplay | services/gameplay_analysis.py:21-40 | basketball and soccer get their builders; every other sport gets the default analysis, because its handler is undefined and the error is caught |
| Dashboard.TrendOf | routers/dashboard.py:146-151 | with two or more metrics, improving iff the last metric beats the first; otherwise the same for two or more gameplay analyses; neutral iff neither has two |
| Dashboard.AnalysisAreasExact | routers/dashboard.py:155-157 | an area is collected iff some analysis lists it |
| Dashboard.AspectImprovementsExact | routers/dashboard.py:160-161 | an improvement of one analysis is collected iff some aspect lists it |
| Dashboard.GameplayAreasExact | routers/dashboard.py:159-161 | an improvement is collected iff some aspect of some gameplay analysis lists it |
| Dashboard.AreasExact | routers/dashboard.py:153-161 | the candidate areas are exactly the improvement areas of the analyses and the improvements of the gameplay aspects |
| Dashboard.Summary | routers/dashboard.py:128-167 | no scores iff no records, giving the empty summary; otherwise the mean of all scores, between the lowest and the highest; the trend; at most five distinct candidate areas, all of them when no more than five exist |
| Dashboard.CalculatePerformanceSummary | routers/dashboard.py:128-167 | the loops compute the summary |
| Dashboard.InjuryAlertsExact | routers/dashboard.py:173-183 | an alert is present iff it is the copied prediction of some medium- or high-risk analysis; no low-risk alert; at most one per analysis |
| Dashboard.InjuryAlertsInOrder | routers/dashboard.py:173-183 | alert j is the alert of the j-th medium- or high-risk analysis: the positions increase strictly and are exactly the alerting ones, so there is one alert per alerting analysis, in input order |
| Dashboard.GetInjuryAlerts | routers/dashboard.py:169-185 | the loop computes the alerts |
| Dashboard.CollectedInsightsExact | routers/dashboard.py:191-192 | an insight is collected iff some analysis has it |
| Dashboard.GetGameplayInsights | routers/dashboard.py:187-195 | at most five distinct insights, each from some analysis, all of them when no more than five exist |
| Dashboard.TeamAnalyticsOf | routers/dashboard.py:197-216 | the team size; the mean metric value (0 with none), which lies between the lowest and the highest; the first three ids; the last two ids only for teams larger than five |
| Seqs.MeanBounds | routers/dashboard.py:144 | a mean lies between any bounds of its entries |
| Seqs.Take | services/gameplay_analysis.py:217 | Python's `s[:n]`: a prefix of length min(n, length of s) |
| Seqs.DedupProperties | routers/dashboard.py:166 | de-duplication gives distinct elements, the same members, as many as the set |
| Seqs.DistinctTake | routers/dashboard.py:166 | the first n de-duplicated elements are a valid outcome of `list(set(s))[:n]` |

## Left out

- Video decoding, resizing, grayscale conversion, histogram correlation, Farneback optical flow and MediaPipe pose. These are foreign vision primitives and enter as function parameters.
- `CheatDetection.Motion`: the test `|m - mean| > 2·std` is stated as `(m - mean)² > 4·variance`, with the population variance. That is the same test over the reals; float rounding of `np.std` is not modelled.
- Downloading, storage paths, temporary files, the HTTP routers, authentication and the database queries. The dashboard helpers take the records those queries return as inputs.
- `get_team_analytics`' query, its ordering and its 100-row limit: the model takes the metric values the query returned.
- `analyze_video`: the orchestration and the record it stores are not modelled.
- `analyze_movement_speed`: a placeholder whose result is never used.
- The gameplay stubs in `services/ai_analysis.py` (`analyze_gameplay` and its bodiless handlers) are not modelled. The gameplay model is the one in `services/gameplay_analysis.py`.
- Timestamps (`analyzed_at`, `last_updated`) and logging.
- The frames and metadata the mock gameplay analysers receive and ignore.
- The text of anomaly and insight messages (number formatting, `replace('_', ' ')`). The model keeps the indices, similarity, aspect and score each message is formatted from.
- Exceptions raised inside the vision primitives (cv2, numpy). `detect_cheating`'s `except Exception` would turn them into the fail-open verdict as well; the model's primitives are total, so only a failed download reaches that verdict.
- `Models.RiskLevel` and `Models.Insight`: the dashboard reads `risk_level` and `key_insights` back from the database as arbitrary strings. The model assumes only the values the analysers produce appear there. It also assumes that two insights are merged by `set(...)` exactly when they are equal as structured values, that is, that distinct aspect/score pairs render to distinct text.
- `list(set(x))` ordering. Python's set order is unspecified. The model picks first-occurrence order, and every contract states only what holds for any order.
- `hasattr` guards in the dashboard. They always hold for these records, so the model projects the fields directly.
- `Dashboard.PerformanceMetric`: only the `value` field is read. models/metric.py is not part of this model.
- Integer and float widths: Python integers are unbounded, and floats are modelled as exact reals.

## Findings

| source | as written | input that shows it | evidently intended | confidence | as-written member | corrected member |
|---|---|---|---|---|---|---|
| services/cheat_detection.py:15 | `detect_cheating` awaits `download_video`. The module neither defines nor imports it, so every call raises `NameError` and returns the fail-open verdict. | any URL, e.g. a clip of six identical frames | download the video (as `services/ai_analysis.py:99` does), then run the duplication and motion tests; six identical frames are flagged as duplicated | not executed | CheatDetection.AsWrittenMissesStillClip | CheatDetection.DetectCheating |
