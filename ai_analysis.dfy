/** Posture scoring and injury risk: stride sampling of colour frames, the per-frame left/right
    symmetry score from pose landmarks, its aggregation over a clip, the injury-risk score, the
    storage-URL path extractor and the fallback skill assessment. The pose estimator is a
    foreign primitive and enters as a function from a frame to its landmarks, if any. */
module AiAnalysis {
  import opened Wrappers
  import opened Seqs
  import opened Models
  import FrameSampling

  /** The posture path keeps every tenth decoded frame. */
  const FrameInterval: int := 10

  /** extract_frames of the posture path: frames 0, 10, 20, … of the decoded stream. */
  method ExtractFrames<T>(decoded: seq<T>) returns (frames: seq<T>)
    ensures frames == FrameSampling.Kept(decoded, FrameInterval)
    ensures |frames| == (|decoded| + 9) / 10
    ensures forall j :: 0 <= j < |frames| ==> j * 10 < |decoded| && frames[j] == decoded[j * 10]
  {
    var r := FrameSampling.SampleFrames(decoded, FrameInterval);
    frames := r.value;
    FrameSampling.SampledFrames(decoded, 10);
  }

  // ---------------------------------------------------------------- per-frame posture

  /** A pose landmark in normalised image coordinates. */
  datatype Landmark = Landmark(x: real, y: real, z: real, visibility: real)

  /** The pose model reports 33 landmarks; the six used here are at the indices below. */
  const LandmarkCount: nat := 33
  const LeftShoulder: nat := 11
  const RightShoulder: nat := 12
  const LeftHip: nat := 23
  const RightHip: nat := 24
  const LeftKnee: nat := 25
  const RightKnee: nat := 26

  /** A left/right pair is imbalanced when their heights differ by more than this. */
  const ImbalanceThreshold: real := 0.05
  const BaseScore: real := 85.0

  function AbsReal(x: real): real
  {
    if x < 0.0 then -x else x
  }

  /** The landmark indices of the left/right pair a tag is about. */
  function Pair(t: Tag): (nat, nat)
  {
    match t
    case ShoulderImbalance => (LeftShoulder, RightShoulder)
    case HipImbalance => (LeftHip, RightHip)
    case KneeImbalance => (LeftKnee, RightKnee)
  }

  predicate Imbalanced(landmarks: seq<Landmark>, t: Tag)
    requires |landmarks| == LandmarkCount
  {
    AbsReal(landmarks[Pair(t).0].y - landmarks[Pair(t).1].y) > ImbalanceThreshold
  }

  function Penalty(t: Tag): real
  {
    match t
    case ShoulderImbalance => 10.0
    case HipImbalance => 10.0
    case KneeImbalance => 8.0
  }

  /** The fixed reporting order shoulder, hip, knee. */
  function Rank(t: Tag): nat
  {
    match t
    case ShoulderImbalance => 0
    case HipImbalance => 1
    case KneeImbalance => 2
  }

  /** The issues of one landmark set: a tag exactly for each imbalanced pair, in reporting
      order (so without repeats). */
  function ImbalanceIssues(landmarks: seq<Landmark>): (issues: seq<Tag>)
    requires |landmarks| == LandmarkCount
    ensures forall t :: t in issues <==> Imbalanced(landmarks, t)
    ensures forall i, j :: 0 <= i < j < |issues| ==> Rank(issues[i]) < Rank(issues[j])
  {
    (if Imbalanced(landmarks, ShoulderImbalance) then [ShoulderImbalance] else [])
    + (if Imbalanced(landmarks, HipImbalance) then [HipImbalance] else [])
    + (if Imbalanced(landmarks, KneeImbalance) then [KneeImbalance] else [])
  }

  function PenaltySum(issues: seq<Tag>): real
  {
    if |issues| == 0 then 0.0 else PenaltySum(issues[..|issues| - 1]) + Penalty(issues[|issues| - 1])
  }

  /** The per-frame score: the base score less one penalty per issue. It lies in [57, 85], so
      the source's floor at 0 never applies, and it is 85 exactly for a balanced pose. */
  function FrameScore(landmarks: seq<Landmark>): (score: real)
    requires |landmarks| == LandmarkCount
    ensures 57.0 <= score <= 85.0
    ensures score == 85.0 <==> ImbalanceIssues(landmarks) == []
  {
    IssuePenalties(landmarks);
    BaseScore - PenaltySum(ImbalanceIssues(landmarks))
  }

  /** The penalty one pair contributes: its tag's penalty when imbalanced, otherwise 0. */
  function PairPenalty(landmarks: seq<Landmark>, t: Tag): real
    requires |landmarks| == LandmarkCount
  {
    if Imbalanced(landmarks, t) then Penalty(t) else 0.0
  }

  /** The penalties of one frame's issues are the three pair penalties added up. */
  lemma PenaltyByPair(landmarks: seq<Landmark>)
    requires |landmarks| == LandmarkCount
    ensures PenaltySum(ImbalanceIssues(landmarks)) ==
      PairPenalty(landmarks, ShoulderImbalance) + PairPenalty(landmarks, HipImbalance) + PairPenalty(landmarks, KneeImbalance)
  {
    var a := if Imbalanced(landmarks, ShoulderImbalance) then [ShoulderImbalance] else [];
    var b := if Imbalanced(landmarks, HipImbalance) then [HipImbalance] else [];
    var c := if Imbalanced(landmarks, KneeImbalance) then [KneeImbalance] else [];
    assert PenaltySum(a) == PairPenalty(landmarks, ShoulderImbalance);
    assert PenaltySum(b) == PairPenalty(landmarks, HipImbalance);
    assert PenaltySum(c) == PairPenalty(landmarks, KneeImbalance);
    PenaltySumAppend(a, b);
    PenaltySumAppend(a + b, c);
  }

  /** The penalties of one frame's issues add up to between 0 and 28, and to 0 only when there
      are none. */
  lemma IssuePenalties(landmarks: seq<Landmark>)
    requires |landmarks| == LandmarkCount
    ensures 0.0 <= PenaltySum(ImbalanceIssues(landmarks)) <= 28.0
    ensures PenaltySum(ImbalanceIssues(landmarks)) == 0.0 <==> ImbalanceIssues(landmarks) == []
  {
    PenaltyByPair(landmarks);
  }

  lemma {:induction false} PenaltySumAppend(a: seq<Tag>, b: seq<Tag>)
    ensures PenaltySum(a + b) == PenaltySum(a) + PenaltySum(b)
  {
    if |b| > 0 {
      var b' := b[..|b| - 1];
      assert (a + b)[..|a + b| - 1] == a + b';
      PenaltySumAppend(a, b');
    } else {
      assert a + b == a;
    }
  }

  function Keypoints(landmarks: seq<Landmark>): seq<Keypoint>
  {
    seq(|landmarks|, i requires 0 <= i < |landmarks| => (landmarks[i].x, landmarks[i].y, landmarks[i].z))
  }

  datatype PostureMetrics = PostureMetrics(score: real, issues: seq<Tag>, keypoints: seq<Keypoint>)

  /** calculate_posture_metrics: test the three pairs in turn, each adding its tag and
      subtracting its penalty. */
  method CalculatePostureMetrics(landmarks: seq<Landmark>) returns (metrics: PostureMetrics)
    requires |landmarks| == LandmarkCount
    ensures metrics.issues == ImbalanceIssues(landmarks)
    ensures metrics.score == FrameScore(landmarks)
    ensures 57.0 <= metrics.score <= 85.0
    ensures metrics.keypoints == Keypoints(landmarks)
  {
    var issues: seq<Tag> := [];
    var score := BaseScore;
    var shoulder := [landmarks[LeftShoulder], landmarks[RightShoulder]];
    var hip := [landmarks[LeftHip], landmarks[RightHip]];
    var knee := [landmarks[LeftKnee], landmarks[RightKnee]];
    if AbsReal(shoulder[0].y - shoulder[1].y) > ImbalanceThreshold {
      issues := issues + [ShoulderImbalance];
      score := score - 10.0;
    }
    ghost var a := if Imbalanced(landmarks, ShoulderImbalance) then [ShoulderImbalance] else [];
    assert issues == a && score == BaseScore - PairPenalty(landmarks, ShoulderImbalance);
    if AbsReal(hip[0].y - hip[1].y) > ImbalanceThreshold {
      issues := issues + [HipImbalance];
      score := score - 10.0;
    }
    ghost var b := if Imbalanced(landmarks, HipImbalance) then [HipImbalance] else [];
    assert issues == a + b;
    assert score == BaseScore - PairPenalty(landmarks, ShoulderImbalance) - PairPenalty(landmarks, HipImbalance);
    if AbsReal(knee[0].y - knee[1].y) > ImbalanceThreshold {
      issues := issues + [KneeImbalance];
      score := score - 8.0;
    }
    ghost var c := if Imbalanced(landmarks, KneeImbalance) then [KneeImbalance] else [];
    assert issues == a + b + c;
    assert score == BaseScore - PairPenalty(landmarks, ShoulderImbalance) - PairPenalty(landmarks, HipImbalance)
      - PairPenalty(landmarks, KneeImbalance);
    PenaltyByPair(landmarks);
    assert score == FrameScore(landmarks);
    metrics := PostureMetrics(if score > 0.0 then score else 0.0, issues, Keypoints(landmarks));
  }

  // ---------------------------------------------------------------- clip posture

  /** The pose estimator reports either nothing or a full set of landmarks. */
  predicate WellFormedPose<T>(frames: seq<T>, pose: T -> Option<seq<Landmark>>)
  {
    forall i :: 0 <= i < |frames| ==> pose(frames[i]).Some? ==> |pose(frames[i]).value| == LandmarkCount
  }

  /** Sum of the frame scores of the frames with landmarks among the first n. */
  function ScoreSum<T>(frames: seq<T>, pose: T -> Option<seq<Landmark>>, n: nat): real
    requires n <= |frames| && WellFormedPose(frames, pose)
  {
    if n == 0 then 0.0
    else
      var d := pose(frames[n - 1]);
      ScoreSum(frames, pose, n - 1) + (if d.Some? then FrameScore(d.value) else 0.0)
  }

  /** Number of frames with landmarks among the first n. */
  function Detected<T>(frames: seq<T>, pose: T -> Option<seq<Landmark>>, n: nat): nat
    requires n <= |frames|
  {
    if n == 0 then 0 else Detected(frames, pose, n - 1) + (if pose(frames[n - 1]).Some? then 1 else 0)
  }

  /** The issue lists of the frames with landmarks among the first n, concatenated. */
  function AllIssues<T>(frames: seq<T>, pose: T -> Option<seq<Landmark>>, n: nat): seq<Tag>
    requires n <= |frames| && WellFormedPose(frames, pose)
  {
    if n == 0 then []
    else
      var d := pose(frames[n - 1]);
      AllIssues(frames, pose, n - 1) + (if d.Some? then ImbalanceIssues(d.value) else [])
  }

  /** The keypoints of the frames with landmarks among the first n, one entry per such frame. */
  function DetectedKeypoints<T>(frames: seq<T>, pose: T -> Option<seq<Landmark>>, n: nat): seq<seq<Keypoint>>
    requires n <= |frames|
  {
    if n == 0 then []
    else
      var d := pose(frames[n - 1]);
      DetectedKeypoints(frames, pose, n - 1) + (if d.Some? then [Keypoints(d.value)] else [])
  }

  /** Frames with landmarks score between 57 and 85 each; the others add nothing. */
  lemma {:induction false} ScoreSumBounds<T>(frames: seq<T>, pose: T -> Option<seq<Landmark>>, n: nat)
    requires n <= |frames| && WellFormedPose(frames, pose)
    ensures 57.0 * Detected(frames, pose, n) as real <= ScoreSum(frames, pose, n) <= 85.0 * Detected(frames, pose, n) as real
    ensures Detected(frames, pose, n) <= n
    ensures |DetectedKeypoints(frames, pose, n)| == Detected(frames, pose, n)
  {
    if n > 0 {
      ScoreSumBounds(frames, pose, n - 1);
    }
  }

  /** A tag is among the collected issues exactly when some frame with landmarks shows it. */
  lemma {:induction false} AllIssuesExact<T>(frames: seq<T>, pose: T -> Option<seq<Landmark>>, n: nat, t: Tag)
    requires n <= |frames| && WellFormedPose(frames, pose)
    ensures t in AllIssues(frames, pose, n) <==>
      exists i :: 0 <= i < n && pose(frames[i]).Some? && Imbalanced(pose(frames[i]).value, t)
  {
    if n > 0 {
      AllIssuesExact(frames, pose, n - 1, t);
      var d := pose(frames[n - 1]);
      if d.Some? && Imbalanced(d.value, t) {
        assert t in ImbalanceIssues(d.value);
      }
    }
  }

  /** At most the three tags, each once. */
  lemma AtMostThreeTags(issues: seq<Tag>)
    requires Distinct(issues)
    ensures |issues| <= 3
  {
    var all := {ShoulderImbalance, HipImbalance, KneeImbalance};
    var s := set t | t in issues;
    forall t | t in s ensures t in all {
      match t
      case ShoulderImbalance =>
      case HipImbalance =>
      case KneeImbalance =>
    }
    assert |all| == 3;
    assert s - all == {} && all * s == s && all + s == all;
    assert |all - s| + |s| == |all|;
    DedupProperties(issues);
    DistinctDedup(issues);
  }

  lemma {:induction false} DistinctDedup<T>(s: seq<T>)
    requires Distinct(s)
    ensures Dedup(s) == s
  {
    if |s| > 0 {
      var init := s[..|s| - 1];
      assert Distinct(init);
      DistinctDedup(init);
      assert s[|s| - 1] !in init;
      assert s == init + [s[|s| - 1]];
    }
  }

  /** The clip score, the score sum over all frames, lies in [0, 85]; it is 0 when no frame
      has landmarks and at least 57 when every frame has them. */
  lemma MeanScoreBounds<T>(frames: seq<T>, pose: T -> Option<seq<Landmark>>)
    requires |frames| > 0 && WellFormedPose(frames, pose)
    ensures var m := ScoreSum(frames, pose, |frames|) / |frames| as real;
      && 0.0 <= m <= 85.0
      && (Detected(frames, pose, |frames|) == 0 ==> m == 0.0)
      && (Detected(frames, pose, |frames|) == |frames| ==> 57.0 <= m)
  {
    ScoreSumBounds(frames, pose, |frames|);
    var n := |frames| as real;
    var c := Detected(frames, pose, |frames|) as real;
    var total := ScoreSum(frames, pose, |frames|);
    assert 85.0 * c <= 85.0 * n;
    DivBounds(total, n, 0.0, 85.0);
    if c == n {
      DivBounds(total, n, 57.0, 85.0);
    }
  }

  /** analyze_posture: score each frame with landmarks, collect issues and keypoints, then
      divide the score sum by the number of frames (with or without landmarks) and drop
      repeated issues. */
  method AnalyzePosture<T>(frames: seq<T>, pose: T -> Option<seq<Landmark>>) returns (p: PostureAnalysis)
    requires WellFormedPose(frames, pose)
    ensures p.postureScore == if |frames| == 0 then 0.0 else ScoreSum(frames, pose, |frames|) / |frames| as real
    ensures 0.0 <= p.postureScore <= 85.0
    ensures Detected(frames, pose, |frames|) == 0 ==> p.postureScore == 0.0
    ensures 0 < |frames| == Detected(frames, pose, |frames|) ==> 57.0 <= p.postureScore
    ensures Distinct(p.alignmentIssues) && |p.alignmentIssues| <= 3
    ensures forall t :: t in p.alignmentIssues <==> t in AllIssues(frames, pose, |frames|)
    ensures p.keypoints == DetectedKeypoints(frames, pose, |frames|)
    ensures |p.keypoints| == Detected(frames, pose, |frames|)
    ensures p.recommendedCorrections == []
  {
    var postureScore := 0.0;
    var alignmentIssues: seq<Tag> := [];
    var keypoints: seq<seq<Keypoint>> := [];
    for i := 0 to |frames|
      invariant postureScore == ScoreSum(frames, pose, i)
      invariant alignmentIssues == AllIssues(frames, pose, i)
      invariant keypoints == DetectedKeypoints(frames, pose, i)
    {
      var results := pose(frames[i]);
      if results.Some? {
        var metrics := CalculatePostureMetrics(results.value);
        postureScore := postureScore + metrics.score;
        alignmentIssues := alignmentIssues + metrics.issues;
        keypoints := keypoints + [metrics.keypoints];
      }
    }
    ScoreSumBounds(frames, pose, |frames|);
    DedupProperties(alignmentIssues);
    if |frames| > 0 {
      MeanScoreBounds(frames, pose);
      postureScore := postureScore / |frames| as real;
      alignmentIssues := Dedup(alignmentIssues);
      AtMostThreeTags(alignmentIssues);
    }
    p := PostureAnalysis(postureScore, alignmentIssues, [], keypoints);
  }

  // ---------------------------------------------------------------- injury risk

  /** The risk score in tenths: 0.3, plus 0.3 for more than two issues, 0.2 for a posture
      score below 70 and 0.1 for a skill score below 70. */
  function RiskTenths(issueCount: nat, postureScore: real, skillScore: real): (t: nat)
    ensures 3 <= t <= 9
  {
    3 + (if issueCount > 2 then 3 else 0) + (if postureScore < 70.0 then 2 else 0) + (if skillScore < 70.0 then 1 else 0)
  }

  /** The breakpoints 0.4 and 0.7, in tenths. */
  function LevelFor(tenths: nat): RiskLevel
  {
    if tenths < 4 then Low else if tenths < 7 then Medium else High
  }

  const GenericPrevention: seq<string> := [
    "Focus on proper form during exercises",
    "Incorporate balance training",
    "Consider professional coaching for technique improvement"]
  const ShoulderAdvice: string := "Incorporate shoulder stability exercises"
  const HipAdvice: string := "Add hip mobility and strengthening exercises"
  const KneeAdvice: string := "Focus on knee stabilization exercises"

  /** The targeted recommendations: one per tag present, in shoulder, hip, knee order. */
  function TargetedAdvice(issues: seq<Tag>): seq<string>
  {
    (if ShoulderImbalance in issues then [ShoulderAdvice] else [])
    + (if HipImbalance in issues then [HipAdvice] else [])
    + (if KneeImbalance in issues then [KneeAdvice] else [])
  }

  /** The generic recommendations come first; each targeted one is present exactly when its
      tag is, and none of them is one of the generic ones. */
  lemma AdviceFacts(issues: seq<Tag>)
    ensures var p := GenericPrevention + TargetedAdvice(issues);
      && 3 <= |p| <= 6 && p[..3] == GenericPrevention
      && (ShoulderAdvice in p <==> ShoulderImbalance in issues)
      && (HipAdvice in p <==> HipImbalance in issues)
      && (KneeAdvice in p <==> KneeImbalance in issues)
  {
    var p := GenericPrevention + TargetedAdvice(issues);
    assert p[..3] == GenericPrevention;
    var advice := [ShoulderAdvice, HipAdvice, KneeAdvice];
    assert forall i, j :: 0 <= i < 3 && 0 <= j < 3 ==> GenericPrevention[i] != advice[j] by {
      assert GenericPrevention[0][9] != advice[2][9];
    }
  }

  /** predict_injury_risk: accumulate the risk score, pick the level, and append one targeted
      recommendation per issue present. */
  method PredictInjuryRisk(posture: PostureAnalysis, skill: SkillAssessment) returns (r: InjuryRiskPrediction)
    ensures r.riskTenths == RiskTenths(|posture.alignmentIssues|, posture.postureScore, skill.score)
    ensures r.riskLevel == LevelFor(r.riskTenths)
    ensures r.riskLevel == Low <==> |posture.alignmentIssues| <= 2 && posture.postureScore >= 70.0 && skill.score >= 70.0
    ensures r.riskLevel == High <==> |posture.alignmentIssues| > 2 && (posture.postureScore < 70.0 || skill.score < 70.0)
    ensures r.riskFactors == posture.alignmentIssues
    ensures r.preventionRecommendations == GenericPrevention + TargetedAdvice(posture.alignmentIssues)
    ensures 3 <= |r.preventionRecommendations| <= 6
    ensures r.preventionRecommendations[..3] == GenericPrevention
    ensures ShoulderAdvice in r.preventionRecommendations <==> ShoulderImbalance in posture.alignmentIssues
    ensures HipAdvice in r.preventionRecommendations <==> HipImbalance in posture.alignmentIssues
    ensures KneeAdvice in r.preventionRecommendations <==> KneeImbalance in posture.alignmentIssues
  {
    var riskScore := 3;
    if |posture.alignmentIssues| > 2 {
      riskScore := riskScore + 3;
    }
    if posture.postureScore < 70.0 {
      riskScore := riskScore + 2;
    }
    if skill.score < 70.0 {
      riskScore := riskScore + 1;
    }
    var riskLevel := if riskScore < 4 then Low else if riskScore < 7 then Medium else High;
    var prevention := GenericPrevention;
    if ShoulderImbalance in posture.alignmentIssues {
      prevention := prevention + [ShoulderAdvice];
    }
    if HipImbalance in posture.alignmentIssues {
      prevention := prevention + [HipAdvice];
    }
    if KneeImbalance in posture.alignmentIssues {
      prevention := prevention + [KneeAdvice];
    }
    assert prevention == GenericPrevention + TargetedAdvice(posture.alignmentIssues);
    AdviceFacts(posture.alignmentIssues);
    r := InjuryRiskPrediction(riskLevel, riskScore, posture.alignmentIssues, prevention);
  }

  // ---------------------------------------------------------------- storage URLs

  /** Python's `s.split('/')`: the '/'-free pieces between separators, at least one. */
  function Split(s: string): (parts: seq<string>)
    ensures |parts| >= 1
    ensures forall i :: 0 <= i < |parts| ==> '/' !in parts[i]
  {
    if |s| == 0 then [""]
    else
      var rest := Split(s[1..]);
      if s[0] == '/' then [""] + rest else [[s[0]] + rest[0]] + rest[1..]
  }

  /** Python's `'/'.join(parts)`. */
  function Join(parts: seq<string>): string
  {
    if |parts| == 0 then "" else if |parts| == 1 then parts[0] else parts[0] + "/" + Join(parts[1..])
  }

  /** Joining the pieces of a split gives the string back. */
  lemma {:induction false} JoinSplit(s: string)
    ensures Join(Split(s)) == s
  {
    if |s| > 0 {
      JoinSplit(s[1..]);
      var rest := Split(s[1..]);
      if s[0] == '/' {
        assert ([""] + rest)[1..] == rest;
        assert s == "/" + s[1..];
      } else {
        var parts := [[s[0]] + rest[0]] + rest[1..];
        if |rest| == 1 {
          assert s == [s[0]] + rest[0];
        } else {
          assert parts[1..] == rest[1..];
          assert Join(rest) == rest[0] + "/" + Join(rest[1..]);
          assert s == [s[0]] + s[1..];
        }
      }
    }
  }

  predicate IsSuffix(a: string, b: string)
  {
    |a| <= |b| && a == b[|b| - |a|..]
  }

  lemma SuffixTransitive(a: string, b: string, c: string)
    requires IsSuffix(a, b) && IsSuffix(b, c)
    ensures IsSuffix(a, c)
  {
    assert c[|c| - |b|..][|b| - |a|..] == c[|c| - |a|..];
  }

  /** Joining the pieces from position k on gives a suffix of the joined whole. */
  lemma {:induction false} JoinDropIsSuffix(parts: seq<string>, k: nat)
    requires k <= |parts|
    ensures IsSuffix(Join(parts[k..]), Join(parts))
  {
    if k == 0 {
      assert parts[0..] == parts;
    } else if k == |parts| {
      assert Join(parts[k..]) == "";
    } else {
      var tail := parts[1..];
      JoinDropIsSuffix(tail, k - 1);
      assert tail[k - 1..] == parts[k..];
      assert Join(parts) == parts[0] + "/" + Join(tail);
      assert IsSuffix(Join(tail), Join(parts));
      SuffixTransitive(Join(parts[k..]), Join(tail), Join(parts));
    }
  }

  /** Joining splits at any inner position: the front, a separator, then the back. */
  lemma {:induction false} JoinConcat(parts: seq<string>, k: nat)
    requires 0 < k < |parts|
    ensures Join(parts) == Join(parts[..k]) + "/" + Join(parts[k..])
  {
    if k > 1 {
      var tail := parts[1..];
      JoinConcat(tail, k - 1);
      assert tail[..k - 1] == parts[..k][1..];
      assert tail[k - 1..] == parts[k..];
    } else {
      assert parts[..1] == [parts[0]];
      assert parts[1..] == parts[k..];
    }
  }

  /** Position of the first occurrence of x, if any. */
  function FirstIndex(parts: seq<string>, x: string): (r: Option<nat>)
    ensures r.None? <==> x !in parts
    ensures r.Some? ==> r.value < |parts| && parts[r.value] == x && x !in parts[..r.value]
  {
    if |parts| == 0 then None
    else if parts[0] == x then Some(0)
    else
      match FirstIndex(parts[1..], x)
      case None => None
      case Some(i) => assert parts[..i + 1] == [parts[0]] + parts[1..][..i]; Some(i + 1)
  }

  /** extract_file_path_from_url: the path after the bucket segment that follows the first
      "object" segment; the URL itself when there is no such segment. The result is always a
      suffix of the URL, and empty when fewer than two segments follow "object". */
  function ExtractFilePathFromUrl(url: string): (path: string)
    ensures "object" !in Split(url) ==> path == url
    ensures IsSuffix(path, url)
    ensures "object" in Split(url) && FirstIndex(Split(url), "object").value + 2 >= |Split(url)| ==> path == ""
    ensures "object" in Split(url) && FirstIndex(Split(url), "object").value + 2 < |Split(url)| ==>
      url == Join(Split(url)[..FirstIndex(Split(url), "object").value + 2]) + "/" + path
  {
    var parts := Split(url);
    match FirstIndex(parts, "object")
    case None => url
    case Some(i) =>
      var k := if i + 2 <= |parts| then i + 2 else |parts|;
      JoinDropIsSuffix(parts, k);
      JoinSplit(url);
      if k < |parts| then JoinConcat(parts, k); Join(parts[k..]) else Join(parts[k..])
  }

  // ---------------------------------------------------------------- skill dispatch

  datatype SportType = Basketball | Tennis | Soccer | Baseball | GeneralSport
  datatype SkillType = Shooting | Dribbling | Defense | Serving | Swing | Kicking | Throwing | Gameplay | GeneralSkill

  /** The sport/skill combinations routed to a dedicated assessor. */
  predicate HasDedicatedAssessor(sport: SportType, skill: SkillType)
  {
    || (sport == Basketball && skill in {Shooting, Dribbling, Defense})
    || (sport == Tennis && skill in {Serving, Swing})
    || (sport == Soccer && skill == Kicking)
    || (sport == Baseball && skill in {Swing, Throwing})
  }

  function DefaultSkillAssessment(): SkillAssessment
  {
    SkillAssessment(78.0, 0.85, "Good form overall. Focus on follow-through and balance.",
      ["Good acceleration", "Proper grip"], ["Follow-through", "Balance maintenance"])
  }

  /** assess_skills: the dedicated assessors are unfinished stubs that return None; every other
      combination, including a known sport with an unlisted skill, gets the default assessment,
      whose score of 78 never adds to the injury risk. */
  function AssessSkills(sport: SportType, skill: SkillType): (r: Option<SkillAssessment>)
    ensures r.None? <==> HasDedicatedAssessor(sport, skill)
    ensures r.Some? ==> r.value == DefaultSkillAssessment() && r.value.score >= 70.0
  {
    match sport
    case Basketball =>
      if skill == Shooting || skill == Dribbling || skill == Defense then None else Some(DefaultSkillAssessment())
    case Tennis =>
      if skill == Serving || skill == Swing then None else Some(DefaultSkillAssessment())
    case Soccer =>
      if skill == Kicking then None else Some(DefaultSkillAssessment())
    case Baseball =>
      if skill == Swing || skill == Throwing then None else Some(DefaultSkillAssessment())
    case GeneralSport => Some(DefaultSkillAssessment())
  }
}
