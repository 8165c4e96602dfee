/** Video integrity checks: stride sampling of grayscale frames, the consecutive-frame
    duplication detector, the optical-flow outlier detector and the verdict that combines them.
    Histogram correlation and the mean optical-flow magnitude of a frame pair are foreign
    numeric primitives and enter as function parameters. */
module CheatDetection {
  import opened Wrappers
  import opened Seqs
  import opened Models
  import FrameSampling

  /** The integrity path keeps every fifth decoded frame. */
  const FrameInterval: int := 5
  /** A consecutive pair is a duplicate when its similarity exceeds this. */
  const DuplicateThreshold: real := 0.95

  /** extract_frames of the integrity path: frames 0, 5, 10, … of the decoded stream. */
  method ExtractFrames<T>(decoded: seq<T>) returns (frames: seq<T>)
    ensures frames == FrameSampling.Kept(decoded, FrameInterval)
    ensures |frames| == (|decoded| + 4) / 5
    ensures forall j :: 0 <= j < |frames| ==> j * 5 < |decoded| && frames[j] == decoded[j * 5]
  {
    var r := FrameSampling.SampleFrames(decoded, FrameInterval);
    frames := r.value;
    FrameSampling.SampledFrames(decoded, 5);
  }

  // ---------------------------------------------------------------- duplication

  /** calculate_frame_similarity: the histogram correlation clamped below at zero, i.e. the
      least value that is both non-negative and at least the correlation. */
  function FrameSimilarity<T>(correl: (T, T) -> real, a: T, b: T): (s: real)
    ensures s >= 0.0 && s >= correl(a, b)
    ensures s == 0.0 || s == correl(a, b)
  {
    if correl(a, b) > 0.0 then correl(a, b) else 0.0
  }

  datatype DuplicationReport = DuplicationReport(
    isDuplicated: bool,
    confidence: real,
    duplicateCount: nat,
    anomalies: seq<Anomaly>)

  /** The anomalies for the pairs (i-1, i) with i < n whose similarity exceeds `threshold`. */
  function DuplicatePairs<T>(frames: seq<T>, correl: (T, T) -> real, threshold: real, n: nat): seq<Anomaly>
    requires n <= |frames|
  {
    if n < 2 then []
    else
      var s := FrameSimilarity(correl, frames[n - 2], frames[n - 1]);
      DuplicatePairs(frames, correl, threshold, n - 1)
        + (if s > threshold then [SimilarFrames(n - 2, n - 1, s)] else [])
  }

  /** Every entry of the list is a pair (i-1, i) of frames below n whose similarity exceeds the
      threshold, pairs appear in increasing order, and every such pair appears. */
  lemma {:induction false} DuplicatePairsExact<T>(frames: seq<T>, correl: (T, T) -> real, threshold: real, n: nat)
    requires n <= |frames|
    ensures n >= 1 ==> |DuplicatePairs(frames, correl, threshold, n)| <= n - 1
    ensures n < 2 ==> DuplicatePairs(frames, correl, threshold, n) == []
    ensures forall j :: 0 <= j < |DuplicatePairs(frames, correl, threshold, n)| ==>
      var a := DuplicatePairs(frames, correl, threshold, n)[j];
      && a.SimilarFrames?
      && 1 <= a.second < n && a.first == a.second - 1
      && a.similarity == FrameSimilarity(correl, frames[a.first], frames[a.second])
      && a.similarity > threshold
    ensures forall j, j' :: 0 <= j < j' < |DuplicatePairs(frames, correl, threshold, n)| ==>
      DuplicatePairs(frames, correl, threshold, n)[j].second < DuplicatePairs(frames, correl, threshold, n)[j'].second
    ensures forall i :: 1 <= i < n && FrameSimilarity(correl, frames[i - 1], frames[i]) > threshold ==>
      SimilarFrames(i - 1, i, FrameSimilarity(correl, frames[i - 1], frames[i])) in DuplicatePairs(frames, correl, threshold, n)
  {
    if n >= 2 {
      DuplicatePairsExact(frames, correl, threshold, n - 1);
    }
  }

  /** When every consecutive pair among the first n frames is similar enough (a still or looped
      clip), all n-1 pairs are reported. */
  lemma {:induction false} AllPairsDuplicate<T>(frames: seq<T>, correl: (T, T) -> real, threshold: real, n: nat)
    requires 1 <= n <= |frames|
    requires forall i :: 1 <= i < n ==> FrameSimilarity(correl, frames[i - 1], frames[i]) > threshold
    ensures |DuplicatePairs(frames, correl, threshold, n)| == n - 1
  {
    if n >= 2 {
      AllPairsDuplicate(frames, correl, threshold, n - 1);
    }
  }

  /** A clip whose consecutive sampled frames are all similar is flagged: all n-1 pairs are
      duplicates, and n-1 exceeds a tenth of n for every n >= 2. */
  lemma StillClipFlagged<T>(frames: seq<T>, correl: (T, T) -> real, threshold: real)
    requires |frames| >= 2
    requires forall i :: 1 <= i < |frames| ==> FrameSimilarity(correl, frames[i - 1], frames[i]) > threshold
    ensures Duplication(frames, correl, threshold).duplicateCount == |frames| - 1
    ensures Duplication(frames, correl, threshold).isDuplicated
  {
    AllPairsDuplicate(frames, correl, threshold, |frames|);
  }

  /** The report the duplication check produces: with fewer than two frames nothing can be a
      duplicate; otherwise count the duplicate pairs, flag when they exceed 10% of the frames,
      and report their share of the frames as confidence (capped at 1). */
  function Duplication<T>(frames: seq<T>, correl: (T, T) -> real, threshold: real): (r: DuplicationReport)
    ensures |frames| < 2 ==> r == DuplicationReport(false, 0.0, 0, [])
    ensures r.duplicateCount == |r.anomalies| && (|frames| >= 1 ==> r.duplicateCount <= |frames| - 1)
    ensures r.isDuplicated <==> 10 * r.duplicateCount > |frames|
    ensures |frames| >= 2 ==> r.confidence == r.duplicateCount as real / |frames| as real
    ensures 0.0 <= r.confidence < 1.0
    ensures r.confidence > 0.0 <==> r.anomalies != []
  {
    var n := |frames|;
    if n < 2 then DuplicationReport(false, 0.0, 0, [])
    else
      var anomalies := DuplicatePairs(frames, correl, threshold, n);
      DuplicatePairsExact(frames, correl, threshold, n);
      DuplicateShare(|anomalies|, n);
      var ratio := |anomalies| as real / n as real;
      DuplicationReport(|anomalies| as real > n as real * 0.1, if ratio < 1.0 then ratio else 1.0, |anomalies|, anomalies)
  }

  /** Arithmetic of the duplication report: the 10% test on reals is the integer test
      10·c > n, and the share c/n of a count below n lies in [0, 1). */
  lemma DuplicateShare(c: nat, n: nat)
    requires n >= 2 && c <= n - 1
    ensures c as real > n as real * 0.1 <==> 10 * c > n
    ensures 0.0 <= c as real / n as real < 1.0
    ensures c as real / n as real > 0.0 <==> c > 0
  {
    var q := c as real / n as real;
    assert q * n as real == c as real;
    FactorOut(1.0, q, n as real);
    if c > 0 {
      FactorOut(q, 0.0, n as real);
    }
  }

  /** detect_frame_duplication: compare each frame with its predecessor. */
  method DetectFrameDuplication<T>(frames: seq<T>, correl: (T, T) -> real, threshold: real) returns (r: DuplicationReport)
    ensures r == Duplication(frames, correl, threshold)
  {
    if |frames| < 2 {
      return DuplicationReport(false, 0.0, 0, []);
    }
    var duplicates := 0;
    var anomalies: seq<Anomaly> := [];
    for i := 1 to |frames|
      invariant anomalies == DuplicatePairs(frames, correl, threshold, i)
      invariant duplicates == |anomalies|
    {
      var similarity := FrameSimilarity(correl, frames[i - 1], frames[i]);
      if similarity > threshold {
        duplicates := duplicates + 1;
        anomalies := anomalies + [SimilarFrames(i - 1, i, similarity)];
      }
    }
    var isDuplicated := duplicates as real > |frames| as real * 0.1;
    var ratio := duplicates as real / |frames| as real;
    r := DuplicationReport(isDuplicated, if ratio < 1.0 then ratio else 1.0, duplicates, anomalies);
  }

  // ---------------------------------------------------------------- motion

  datatype MotionReport = MotionReport(isUnnatural: bool, confidence: real, anomalies: seq<Anomaly>)

  /** The mean optical-flow magnitude of each consecutive frame pair. */
  function Magnitudes<T>(frames: seq<T>, flowMean: (T, T) -> real): seq<real>
  {
    if |frames| < 2 then []
    else seq(|frames| - 1, i requires 0 <= i < |frames| - 1 => flowMean(frames[i], frames[i + 1]))
  }

  function Sq(x: real): (r: real)
    ensures r >= 0.0
  {
    x * x
  }

  /** Sum over the first n magnitudes of the squared deviation from `mean`. */
  function SumSqDev(m: seq<real>, mean: real, n: nat): real
    requires n <= |m|
  {
    if n == 0 then 0.0 else SumSqDev(m, mean, n - 1) + Sq(m[n - 1] - mean)
  }

  /** Population variance (the square of `np.std`). */
  function Variance(m: seq<real>): real
    requires |m| > 0
  {
    SumSqDev(m, Mean(m), |m|) / |m| as real
  }

  /** |m[i] - mean| > 2·std, squared on both sides (both are non-negative). */
  predicate IsOutlier(m: seq<real>, i: nat)
    requires i < |m|
  {
    Sq(m[i] - Mean(m)) > 4.0 * Variance(m)
  }

  /** The anomalies for the outlying pairs among the first n magnitudes: pair i is frames i, i+1. */
  function Outliers(m: seq<real>, n: nat): seq<Anomaly>
    requires n <= |m|
  {
    if n == 0 then []
    else Outliers(m, n - 1) + (if IsOutlier(m, n - 1) then [UnnaturalMotion(n - 1, n)] else [])
  }

  /** Pair i is reported exactly when it is an outlier, once, in increasing order of i. */
  lemma {:induction false} OutliersExact(m: seq<real>, n: nat)
    requires n <= |m|
    ensures |Outliers(m, n)| <= n
    ensures forall j :: 0 <= j < |Outliers(m, n)| ==>
      var a := Outliers(m, n)[j];
      a.UnnaturalMotion? && a.first < n && a.second == a.first + 1 && IsOutlier(m, a.first)
    ensures forall j, j' :: 0 <= j < j' < |Outliers(m, n)| ==> Outliers(m, n)[j].first < Outliers(m, n)[j'].first
    ensures forall i :: 0 <= i < n && IsOutlier(m, i) ==> UnnaturalMotion(i, i + 1) in Outliers(m, n)
  {
    if n > 0 {
      OutliersExact(m, n - 1);
    }
  }

  lemma {:induction false} SumSqDevNonNegative(m: seq<real>, mean: real, n: nat)
    requires n <= |m|
    ensures SumSqDev(m, mean, n) >= 0.0
  {
    if n > 0 {
      SumSqDevNonNegative(m, mean, n - 1);
    }
  }

  /** Each flagged magnitude contributes more than t to the sum of squared deviations. */
  lemma {:induction false} OutlierMass(m: seq<real>, n: nat, t: real)
    requires n <= |m| && |m| > 0
    requires t == 4.0 * Variance(m) && t >= 0.0
    ensures SumSqDev(m, Mean(m), n) >= t * |Outliers(m, n)| as real
    ensures |Outliers(m, n)| > 0 ==> SumSqDev(m, Mean(m), n) > t * |Outliers(m, n)| as real
  {
    if n > 0 {
      OutlierMass(m, n - 1, t);
      var c := |Outliers(m, n - 1)| as real;
      var d := Sq(m[n - 1] - Mean(m));
      assert d >= 0.0;
      if IsOutlier(m, n - 1) {
        assert t * (c + 1.0) == t * c + t;
      }
    }
  }

  /** Chebyshev: with a strict 2σ test, fewer than a quarter of the magnitudes are flagged. */
  lemma ChebyshevBound(m: seq<real>)
    requires |m| > 0
    ensures 4 * |Outliers(m, |m|)| < |m|
  {
    var n := |m| as real;
    SumSqDevNonNegative(m, Mean(m), |m|);
    var s := SumSqDev(m, Mean(m), |m|);
    var v := Variance(m);
    assert v >= 0.0;
    assert s == n * v;
    OutlierMass(m, |m|, 4.0 * v);
    var c := |Outliers(m, |m|)| as real;
    if c > 0.0 {
      ChebyshevArith(n, v, c, s);
    }
  }

  /** The real arithmetic of the bound: s = n·v and s > 4v·c force n > 4c. */
  lemma ChebyshevArith(n: real, v: real, c: real, s: real)
    requires n > 0.0 && v >= 0.0 && c > 0.0
    requires s == n * v && s > (4.0 * v) * c
    ensures n > 4.0 * c
  {
    assert (4.0 * v) * c == (4.0 * c) * v;
    assert v != 0.0;
    FactorOut(n, 4.0 * c, v);
  }

  lemma FactorOut(a: real, b: real, v: real)
    requires v > 0.0 && a * v > b * v
    ensures a > b
  {
  }

  /** The flagged share of the pairs when fewer than a quarter are flagged. */
  lemma QuarterShare(c: nat, n: nat)
    requires n > 0 && 4 * c < n
    ensures 0.0 <= c as real / n as real < 0.25
    ensures c as real / n as real > 0.0 <==> c > 0
  {
    var q := c as real / n as real;
    assert q * n as real == c as real;
    assert (4.0 * q) * n as real == 4.0 * c as real;
    FactorOut(1.0, 4.0 * q, n as real);
    if c > 0 {
      FactorOut(q, 0.0, n as real);
    }
  }

  /** Constant motion (a static scene) is never an outlier: all deviations are zero. */
  lemma ConstantMotionHasNoOutliers(m: seq<real>)
    requires |m| > 0
    requires forall i :: 0 <= i < |m| ==> m[i] == m[0]
    ensures Outliers(m, |m|) == []
  {
    SumPrefixConstant(m, |m|, m[0]);
    assert Mean(m) == m[0];
    SumSqDevNonNegative(m, Mean(m), |m|);
    OutliersExact(m, |m|);
  }

  /** The report the motion check produces: outliers are sought only among two or more pair
      magnitudes, the clip is unnatural when one is found, and the confidence is the flagged
      share of the pairs (0 when there are no pairs), which the Chebyshev bound keeps below 1/4. */
  function Motion<T>(frames: seq<T>, flowMean: (T, T) -> real): (r: MotionReport)
    ensures var m := Magnitudes(frames, flowMean);
      && r.anomalies == (if |m| > 1 then Outliers(m, |m|) else [])
      && (r.isUnnatural <==> r.anomalies != [])
      && (|m| > 0 ==> r.confidence == |r.anomalies| as real / |m| as real)
      && (|m| == 0 ==> r.confidence == 0.0)
    ensures 0.0 <= r.confidence < 0.25
    ensures r.confidence > 0.0 <==> r.anomalies != []
  {
    var m := Magnitudes(frames, flowMean);
    var anomalies := if |m| > 1 then Outliers(m, |m|) else [];
    if |m| > 0 then
      ChebyshevBound(m);
      QuarterShare(|anomalies|, |m|);
      var ratio := |anomalies| as real / |m| as real;
      MotionReport(|anomalies| > 0, if ratio < 1.0 then ratio else 1.0, anomalies)
    else
      MotionReport(false, 0.0, anomalies)
  }

  /** detect_unnatural_movement: collect the pair magnitudes, then flag outliers. */
  method DetectUnnaturalMovement<T>(frames: seq<T>, flowMean: (T, T) -> real) returns (r: MotionReport)
    ensures r == Motion(frames, flowMean)
  {
    ghost var m := Magnitudes(frames, flowMean);
    var movementChanges: seq<real> := [];
    if |frames| > 1 {
      for i := 1 to |frames|
        invariant movementChanges == m[..i - 1]
      {
        movementChanges := movementChanges + [flowMean(frames[i - 1], frames[i])];
      }
      assert movementChanges == m;
    }
    var anomalies: seq<Anomaly> := [];
    if |movementChanges| > 1 {
      var meanMovement := Sum(movementChanges) / |movementChanges| as real;
      var variance := SumSqDev(movementChanges, meanMovement, |movementChanges|) / |movementChanges| as real;
      assert meanMovement == Mean(m) && variance == Variance(m);
      for i := 0 to |movementChanges|
        invariant anomalies == Outliers(m, i)
      {
        if Sq(movementChanges[i] - meanMovement) > 4.0 * variance {
          anomalies := anomalies + [UnnaturalMotion(i, i + 1)];
        }
      }
    }
    var confidence := 0.0;
    if |movementChanges| > 0 {
      ChebyshevBound(m);
      QuarterShare(|anomalies|, |m|);
      var ratio := |anomalies| as real / |movementChanges| as real;
      confidence := if ratio < 1.0 then ratio else 1.0;
    }
    r := MotionReport(|anomalies| > 0, confidence, anomalies);
  }

  // ---------------------------------------------------------------- verdict

  /** The combined verdict: cheating when either check fires, the larger confidence, the
      duplication anomalies followed by the motion anomalies. */
  function ComposeVerdict(frameCount: nat, dup: DuplicationReport, motion: MotionReport): CheatDetectionResult
  {
    CheatDetectionResult(
      dup.isDuplicated || motion.isUnnatural,
      if dup.confidence >= motion.confidence then dup.confidence else motion.confidence,
      dup.anomalies + motion.anomalies,
      frameCount,
      dup.duplicateCount)
  }

  /** The fail-open verdict returned when any step of the integrity check raises. */
  function FailOpenVerdict(): CheatDetectionResult
  {
    CheatDetectionResult(false, 0.0, [AnalysisFailed], 0, 0)
  }

  /** What a consumer of an integrity verdict may take for granted. */
  predicate ValidVerdict(v: CheatDetectionResult)
  {
    && 0.0 <= v.confidence < 1.0
    && (v.isCheatingDetected ==> v.confidence > 0.0 && v.detectedAnomalies != [])
    && v.duplicateFrames <= |v.detectedAnomalies|
    && (v.framesAnalyzed == 0 ==> v.duplicateFrames == 0)
    && (v.framesAnalyzed > 0 ==> v.duplicateFrames < v.framesAnalyzed)
  }

  /** The verdict of the whole integrity check; `download` is the decoded stream of the
      fetched video, or None when fetching or decoding raised. Every verdict it returns, the
      fail-open one included, is valid; a composed verdict has positive confidence exactly when
      it reports an anomaly, and its duplicate count is the number of duplication anomalies. */
  function Verdict<T>(download: Option<seq<T>>, correl: (T, T) -> real, flowMean: (T, T) -> real): (v: CheatDetectionResult)
    ensures ValidVerdict(v)
    ensures download.None? ==> v == FailOpenVerdict()
    ensures download.Some? ==>
      var frames := FrameSampling.Kept(download.value, FrameInterval);
      && v.framesAnalyzed == |frames|
      && (v.confidence > 0.0 <==> v.detectedAnomalies != [])
      && v.duplicateFrames == |Duplication(frames, correl, DuplicateThreshold).anomalies|
    ensures download.Some? ==>
      var frames := FrameSampling.Kept(download.value, FrameInterval);
      var d := Duplication(frames, correl, DuplicateThreshold);
      var m := Motion(frames, flowMean);
      && (v.isCheatingDetected <==> d.isDuplicated || m.isUnnatural)
      && v.confidence == (if d.confidence >= m.confidence then d.confidence else m.confidence)
      && v.detectedAnomalies == d.anomalies + m.anomalies
  {
    match download
    case None => FailOpenVerdict()
    case Some(decoded) =>
      var frames := FrameSampling.Kept(decoded, FrameInterval);
      ComposeVerdict(|frames|, Duplication(frames, correl, DuplicateThreshold), Motion(frames, flowMean))
  }

  /** detect_cheating with the download step made explicit (the call the source intends). */
  method DetectCheating<T>(download: Option<seq<T>>, correl: (T, T) -> real, flowMean: (T, T) -> real)
    returns (v: CheatDetectionResult)
    ensures v == Verdict(download, correl, flowMean)
  {
    if download.None? {
      return FailOpenVerdict();
    }
    var frames := ExtractFrames(download.value);
    var frameDuplication := DetectFrameDuplication(frames, correl, DuplicateThreshold);
    var unnaturalMovement := DetectUnnaturalMovement(frames, flowMean);
    v := ComposeVerdict(|frames|, frameDuplication, unnaturalMovement);
  }

  /** detect_cheating as written: `download_video` is neither defined nor imported in its
      module, so the first statement of the `try` raises NameError for every input and the
      fail-open branch is taken. */
  function DetectCheatingAsWritten(videoUrl: string): (r: CheatDetectionResult)
    ensures r == Verdict<int>(None, SameFrame, NoFlow)
    ensures ValidVerdict(r) && !r.isCheatingDetected && r.confidence == 0.0
    ensures r.framesAnalyzed == 0 && r.duplicateFrames == 0 && r.detectedAnomalies == [AnalysisFailed]
  {
    FailOpenVerdict()
  }

  function SameFrame(a: int, b: int): real
  {
    if a == b then 1.0 else 0.0
  }

  function NoFlow(a: int, b: int): real
  {
    0.0
  }

  /** A still clip of six identical frames: the intended check samples frames 0 and 5, finds
      them identical and flags the clip; the check as written reports nothing for any clip. */
  lemma AsWrittenMissesStillClip(videoUrl: string)
    ensures Verdict(Some([7, 7, 7, 7, 7, 7]), SameFrame, NoFlow).isCheatingDetected
    ensures !DetectCheatingAsWritten(videoUrl).isCheatingDetected
  {
    var decoded := [7, 7, 7, 7, 7, 7];
    FrameSampling.SampledFrames(decoded, 5);
    var frames := FrameSampling.Kept(decoded, FrameInterval);
    assert |frames| == 2 && frames[0] == 7 && frames[1] == 7;
    assert FrameSimilarity(SameFrame, frames[0], frames[1]) == 1.0;
    StillClipFlagged(frames, SameFrame, DuplicateThreshold);
  }
}
