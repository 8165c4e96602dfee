/** Record shapes exchanged between the analysis services and the dashboard
    (the pydantic models of the video and gameplay records). */
module Models {

  /** The three posture issue tags, "Shoulder imbalance detected", "Hip imbalance detected"
      and "Knee imbalance detected". */
  datatype Tag = ShoulderImbalance | HipImbalance | KneeImbalance

  /** One (x, y, z) landmark position. */
  type Keypoint = (real, real, real)

  datatype PostureAnalysis = PostureAnalysis(
    postureScore: real,
    alignmentIssues: seq<Tag>,
    recommendedCorrections: seq<string>,
    keypoints: seq<seq<Keypoint>>)

  datatype SkillAssessment = SkillAssessment(
    score: real,
    confidence: real,
    feedback: string,
    strengths: seq<string>,
    areasForImprovement: seq<string>)

  datatype RiskLevel = Low | Medium | High

  /** The risk score is kept in tenths: every reachable value is a multiple of 0.1, so rounding
      it to two decimals leaves it unchanged. */
  datatype InjuryRiskPrediction = InjuryRiskPrediction(
    riskLevel: RiskLevel,
    riskTenths: nat,
    riskFactors: seq<Tag>,
    preventionRecommendations: seq<string>)

  /** A detected integrity anomaly. The source renders these as text; the model keeps the facts
      the text is made of. */
  datatype Anomaly =
    | SimilarFrames(first: nat, second: nat, similarity: real)
    | UnnaturalMotion(first: nat, second: nat)
    | AnalysisFailed

  datatype CheatDetectionResult = CheatDetectionResult(
    isCheatingDetected: bool,
    confidence: real,
    detectedAnomalies: seq<Anomaly>,
    framesAnalyzed: nat,
    duplicateFrames: nat)

  datatype VideoAnalysis = VideoAnalysis(
    skillAssessment: SkillAssessment,
    postureAnalysis: PostureAnalysis,
    injuryRiskPrediction: InjuryRiskPrediction,
    cheatDetection: CheatDetectionResult)

  datatype GameplayAspect = TacticalDecision | Positioning | Teamwork | GameAwareness | SkillExecution

  datatype GameplayFeedback = GameplayFeedback(
    aspect: GameplayAspect,
    score: real,
    confidence: real,
    strengths: seq<string>,
    improvements: seq<string>,
    videoTimestamps: seq<real>,
    examples: seq<string>)

  /** A key insight. The two aspect insights are rendered by the source as text with the
      aspect name and the score; `Message` is a fixed text. */
  datatype Insight =
    | NeedsAttention(aspect: GameplayAspect, score: real)
    | MajorStrength(aspect: GameplayAspect, score: real)
    | Message(text: string)

  /** A gameplay analysis. The aspect dictionary is the sequence of its values in insertion
      order; each feedback's `aspect` field is its key. */
  datatype GameplayAnalysis = GameplayAnalysis(
    overallScore: real,
    aspects: seq<GameplayFeedback>,
    summary: string,
    keyInsights: seq<Insight>,
    recommendedDrills: seq<string>)
}
