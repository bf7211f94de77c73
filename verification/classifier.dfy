/**
 * The worker's classifier (backend/model.py): the fallback results, the
 * argmax and confidence gap, the quality-score weighting, the image-quality
 * metrics and the recommendation text.
 *
 * The network's prediction, preprocessing success and the raw gray-level
 * statistics of the decoded image are parameters; numbers are reals.
 */
module Classifier {
  import opened Common
  import opened Json
  import opened Config

  /** The image-quality metrics (brightness, sharpness, blur, contrast, overall). */
  datatype Metrics = Metrics(brightness: real, sharpness: real, blur: real, contrast: real, overall: real)

  /** Raw statistics of the gray image: mean level, Laplacian variance, standard deviation. */
  datatype GrayStats = GrayStats(meanGray: real, laplacianVar: real, std: real)

  predicate Unit(x: real) { 0.0 <= x <= 1.0 }

  predicate MetricsInRange(m: Metrics)
  {
    Unit(m.brightness) && Unit(m.sharpness) && Unit(m.blur) && Unit(m.contrast) && Unit(m.overall)
  }

  /** Statistics an actual 8-bit gray image can have. */
  predicate PlausibleStats(s: GrayStats)
  {
    0.0 <= s.meanGray <= 255.0 && s.laplacianVar >= 0.0 && s.std >= 0.0
  }

  function Abs(x: real): real { if x < 0.0 then -x else x }
  function Min(a: real, b: real): real { if a <= b then a else b }

  const FALLBACK_METRIC: real := 0.5

  /** The weighted average of the four sub-scores. */
  function Overall(brightness: real, sharpness: real, blur: real, contrast: real): real
  {
    brightness * 0.25 + sharpness * 0.35 + blur * 0.25 + contrast * 0.15
  }

  /** The weights sum to one, so the overall score lies between the smallest and largest sub-score. */
  lemma OverallBetweenSubScores(b: real, s: real, l: real, c: real, lo: real, hi: real)
    requires lo <= b <= hi && lo <= s <= hi && lo <= l <= hi && lo <= c <= hi
    ensures lo <= Overall(b, s, l, c) <= hi
    ensures 0.25 + 0.35 + 0.25 + 0.15 == 1.0
  {
  }

  /**
   * _assess_image_quality: sub-scores from the gray statistics, or every
   * metric 0.5 when the image cannot be decoded. Sharpness and blur are the
   * same computation, so they always agree.
   */
  function AssessImageQuality(stats: Option<GrayStats>): (m: Metrics)
    ensures stats.None? ==> m == Metrics(FALLBACK_METRIC, FALLBACK_METRIC, FALLBACK_METRIC, FALLBACK_METRIC, FALLBACK_METRIC)
    ensures stats.Some? && PlausibleStats(stats.value) ==> MetricsInRange(m)
    ensures m.sharpness == m.blur
    ensures stats.Some? ==> m.overall == Overall(m.brightness, m.sharpness, m.blur, m.contrast)
  {
    match stats
    case None => Metrics(FALLBACK_METRIC, FALLBACK_METRIC, FALLBACK_METRIC, FALLBACK_METRIC, FALLBACK_METRIC)
    case Some(s) =>
      var brightness := s.meanGray / 255.0;
      var brightnessScore := 1.0 - Abs(brightness - 0.5) * 2.0;
      var sharpnessScore := Min(s.laplacianVar / 500.0, 1.0);
      var blurScore := Min(s.laplacianVar / 500.0, 1.0);
      var contrastScore := Min(s.std / 128.0, 1.0);
      var overall := Overall(brightnessScore, sharpnessScore, blurScore, contrastScore);
      if PlausibleStats(s) then
        OverallBetweenSubScores(brightnessScore, sharpnessScore, blurScore, contrastScore, 0.0, 1.0);
        Metrics(brightnessScore, sharpnessScore, blurScore, contrastScore, overall)
      else
        Metrics(brightnessScore, sharpnessScore, blurScore, contrastScore, overall)
  }

  /** The fallback metrics are consistent: their weighted average is the fallback overall. */
  lemma FallbackConsistent()
    ensures Overall(FALLBACK_METRIC, FALLBACK_METRIC, FALLBACK_METRIC, FALLBACK_METRIC) == FALLBACK_METRIC
  {
  }

  /** np.argmax: the first index holding the largest value. */
  function Argmax(p: seq<real>): (i: nat)
    requires |p| > 0
    ensures i < |p|
    ensures forall j :: 0 <= j < |p| ==> p[j] <= p[i]
    ensures forall j :: 0 <= j < i ==> p[j] < p[i]
  {
    if |p| == 1 then 0
    else
      var k := Argmax(p[..|p| - 1]);
      if p[|p| - 1] > p[k] then |p| - 1 else k
  }

  /** The largest value of a non-empty list. */
  function MaxOf(s: seq<real>): (m: real)
    requires |s| > 0
    ensures m in s
    ensures forall j :: 0 <= j < |s| ==> s[j] <= m
  {
    if |s| == 1 then s[0]
    else
      var m := MaxOf(s[..|s| - 1]);
      assert m in s[..|s| - 1];
      if s[|s| - 1] > m then s[|s| - 1] else m
  }

  /**
   * The probability at position 1 of the descending argsort: the largest
   * value once one copy of the top value is set aside.
   */
  function SecondBest(p: seq<real>, top: nat): (second: real)
    requires |p| >= 2 && top < |p|
    requires forall j :: 0 <= j < |p| ==> p[j] <= p[top]
    ensures second <= p[top]
    ensures exists j :: 0 <= j < |p| && j != top && p[j] == second
    ensures forall j :: 0 <= j < |p| && j != top ==> p[j] <= second
  {
    var rest := p[..top] + p[top + 1..];
    var m := MaxOf(rest);
    var k :| 0 <= k < |rest| && rest[k] == m;
    assert p[if k < top then k else k + 1] == m;
    forall j | 0 <= j < |p| && j != top
      ensures p[j] <= m
    {
      assert p[j] == rest[if j < top then j else j - 1];
    }
    m
  }

  /** The confidence gap is never negative, and is at most the confidence when probabilities are non-negative. */
  lemma ConfidenceGapBounds(p: seq<real>)
    requires |p| >= 2
    ensures var top := Argmax(p);
      0.0 <= p[top] - SecondBest(p, top)
      && ((forall j :: 0 <= j < |p| ==> Unit(p[j])) ==> p[top] - SecondBest(p, top) <= p[top] <= 1.0)
  {
    var top := Argmax(p);
    var j :| 0 <= j < |p| && j != top && p[j] == SecondBest(p, top);
  }

  /** The quality score: 50 for confidence, 30 for the gap, 20 for image quality. */
  function QualityScore(confidence: real, gap: real, overall: real): real
  {
    confidence * 50.0 + gap * 30.0 + overall * 20.0
  }

  /** With all three inputs in [0, 1] the score lies in [0, 100]. */
  lemma QualityScoreBounds(confidence: real, gap: real, overall: real)
    requires Unit(confidence) && Unit(gap) && Unit(overall)
    ensures 0.0 <= QualityScore(confidence, gap, overall) <= 100.0
    ensures QualityScore(1.0, 1.0, 1.0) == 100.0 && QualityScore(0.0, 0.0, 0.0) == 0.0
  {
  }

  const LOW_CONFIDENCE := "⚠️ Low confidence - verify result manually"
  const MEDIUM_CONFIDENCE := "⚡ Medium confidence - acceptable"
  const HIGH_CONFIDENCE := "✅ High confidence - reliable result"
  const TOO_DARK := "💡 Improve lighting - image too dark"
  const TOO_BRIGHT := "☀️ Reduce lighting - image too bright"
  const NOT_SHARP := "🔍 Improve focus - image not sharp"
  const MOTION_BLUR := "📹 Reduce motion blur - stabilize camera"
  const LOW_CONTRAST := "🎨 Low contrast - adjust camera settings"
  const EXCELLENT_QUALITY := "🌟 Excellent quality"
  const GOOD_QUALITY := "👍 Good quality"
  const FAIR_QUALITY := "⚠️ Fair quality - improvements needed"
  const POOR_QUALITY := "❌ Poor quality - check camera setup"
  const SEPARATOR := " | "

  /** The pieces of advice _generate_recommendation can emit. */
  datatype Advice =
    | LowConfidence | MediumConfidence | HighConfidence
    | TooDark | TooBright | NotSharp | MotionBlur | LowContrast
    | ExcellentQuality | GoodQuality | FairQuality | PoorQuality

  /** The text of each piece of advice. */
  function Text(a: Advice): string
  {
    match a
    case LowConfidence => LOW_CONFIDENCE
    case MediumConfidence => MEDIUM_CONFIDENCE
    case HighConfidence => HIGH_CONFIDENCE
    case TooDark => TOO_DARK
    case TooBright => TOO_BRIGHT
    case NotSharp => NOT_SHARP
    case MotionBlur => MOTION_BLUR
    case LowContrast => LOW_CONTRAST
    case ExcellentQuality => EXCELLENT_QUALITY
    case GoodQuality => GOOD_QUALITY
    case FairQuality => FAIR_QUALITY
    case PoorQuality => POOR_QUALITY
  }

  predicate IsConfidenceBand(a: Advice) { a.LowConfidence? || a.MediumConfidence? || a.HighConfidence? }
  predicate IsOverallBand(a: Advice)
  {
    a.ExcellentQuality? || a.GoodQuality? || a.FairQuality? || a.PoorQuality?
  }

  /** The confidence band: below 0.6 low, below 0.8 medium, else high. */
  function ConfidenceBand(confidence: real): (a: Advice)
    ensures IsConfidenceBand(a)
    ensures a == LowConfidence <==> confidence < 0.6
    ensures a == HighConfidence <==> confidence >= 0.8
  {
    if confidence < 0.6 then LowConfidence
    else if confidence < 0.8 then MediumConfidence
    else HighConfidence
  }

  /** The overall band: above 80 excellent, above 60 good, above 40 fair, else poor. */
  function OverallBand(score: real): (a: Advice)
    ensures IsOverallBand(a)
    ensures a == ExcellentQuality <==> score > 80.0
    ensures a == GoodQuality <==> 60.0 < score <= 80.0
    ensures a == FairQuality <==> 40.0 < score <= 60.0
    ensures a == PoorQuality <==> score <= 40.0
  {
    if score > 80.0 then ExcellentQuality
    else if score > 60.0 then GoodQuality
    else if score > 40.0 then FairQuality
    else PoorQuality
  }

  /** The image advice, in its fixed order: lighting, focus, blur, contrast. */
  function ImageAdvice(m: Metrics): (advice: seq<Advice>)
    ensures forall k :: 0 <= k < |advice| ==> !IsConfidenceBand(advice[k]) && !IsOverallBand(advice[k])
    ensures |advice| <= 4
  {
    (if m.brightness < 0.5 then [TooDark] else if m.brightness > 0.8 then [TooBright] else [])
    + (if m.sharpness < 0.5 then [NotSharp] else [])
    + (if m.blur < 0.5 then [MotionBlur] else [])
    + (if m.contrast < 0.4 then [LowContrast] else [])
  }

  /** Each piece of image advice is present exactly when its threshold is crossed. */
  lemma ImageAdviceMembers(m: Metrics)
    ensures var advice := ImageAdvice(m);
      && (TooDark in advice <==> m.brightness < 0.5)
      && (TooBright in advice <==> m.brightness > 0.8 && !(m.brightness < 0.5))
      && (NotSharp in advice <==> m.sharpness < 0.5)
      && (MotionBlur in advice <==> m.blur < 0.5)
      && (LowContrast in advice <==> m.contrast < 0.4)
  {
    var lighting := if m.brightness < 0.5 then [TooDark] else if m.brightness > 0.8 then [TooBright] else [];
    var focus := if m.sharpness < 0.5 then [NotSharp] else [];
    var blur := if m.blur < 0.5 then [MotionBlur] else [];
    var contrast := if m.contrast < 0.4 then [LowContrast] else [];
    var advice := ImageAdvice(m);
    assert advice == lighting + focus + blur + contrast;
    assert forall a :: a in advice <==> a in lighting || a in focus || a in blur || a in contrast;
  }

  /** The items _generate_recommendation collects, in order. */
  function RecommendationItems(confidence: real, score: real, m: Metrics): seq<Advice>
  {
    [ConfidenceBand(confidence)] + ImageAdvice(m) + [OverallBand(score)]
  }

  /**
   * The recommendation holds exactly one confidence band, first, and exactly
   * one overall band, last; each piece of advice appears exactly when its
   * threshold is crossed; too dark and too bright never appear together;
   * there are between 2 and 6 items.
   */
  lemma RecommendationShape(confidence: real, score: real, m: Metrics)
    ensures var items := RecommendationItems(confidence, score, m);
      && 2 <= |items| <= 6
      && items[0] == ConfidenceBand(confidence) && items[|items| - 1] == OverallBand(score)
      && (forall k :: 0 < k < |items| ==> !IsConfidenceBand(items[k]))
      && (forall k :: 0 <= k < |items| - 1 ==> !IsOverallBand(items[k]))
      && (TooDark in items <==> m.brightness < 0.5)
      && (TooBright in items <==> m.brightness > 0.8)
      && !(TooDark in items && TooBright in items)
      && (NotSharp in items <==> m.sharpness < 0.5)
      && (MotionBlur in items <==> m.blur < 0.5)
      && (LowContrast in items <==> m.contrast < 0.4)
  {
    ItemsBands(confidence, score, m);
    ImageAdviceMembers(m);
    ItemsAdvice(confidence, score, m, TooDark);
    ItemsAdvice(confidence, score, m, TooBright);
    ItemsAdvice(confidence, score, m, NotSharp);
    ItemsAdvice(confidence, score, m, MotionBlur);
    ItemsAdvice(confidence, score, m, LowContrast);
  }

  /** The confidence band opens the items and the overall band closes them; neither appears elsewhere. */
  lemma ItemsBands(confidence: real, score: real, m: Metrics)
    ensures var items := RecommendationItems(confidence, score, m);
      && |items| == |ImageAdvice(m)| + 2
      && items[0] == ConfidenceBand(confidence) && items[|items| - 1] == OverallBand(score)
      && (forall k :: 0 < k < |items| ==> !IsConfidenceBand(items[k]))
      && (forall k :: 0 <= k < |items| - 1 ==> !IsOverallBand(items[k]))
  {
    var items := RecommendationItems(confidence, score, m);
    var advice := ImageAdvice(m);
    assert items == [ConfidenceBand(confidence)] + advice + [OverallBand(score)];
    forall k | 0 < k < |items|
      ensures !IsConfidenceBand(items[k])
    {
      if k <= |advice| {
        assert items[k] == advice[k - 1];
      }
    }
    forall k | 0 <= k < |items| - 1
      ensures !IsOverallBand(items[k])
    {
      if k > 0 {
        assert items[k] == advice[k - 1];
      }
    }
  }

  /** Advice other than a band is among the items exactly when the image advice holds it. */
  lemma ItemsAdvice(confidence: real, score: real, m: Metrics, a: Advice)
    requires !IsConfidenceBand(a) && !IsOverallBand(a)
    ensures a in RecommendationItems(confidence, score, m) <==> a in ImageAdvice(m)
  {
    assert RecommendationItems(confidence, score, m) == [ConfidenceBand(confidence)] + ImageAdvice(m) + [OverallBand(score)];
  }

  /** The texts of a list of advice, in order. */
  function Texts(items: seq<Advice>): (t: seq<string>)
    ensures |t| == |items|
    ensures forall k :: 0 <= k < |items| ==> t[k] == Text(items[k])
  {
    seq(|items|, k requires 0 <= k < |items| => Text(items[k]))
  }

  /** " | ".join(items). */
  function Join(items: seq<string>, sep: string): string
  {
    if items == [] then ""
    else if |items| == 1 then items[0]
    else items[0] + sep + Join(items[1..], sep)
  }

  /** A joined list starts with its first item and ends with its last. */
  lemma {:induction false} JoinEnds(items: seq<string>, sep: string)
    requires |items| > 0
    ensures var j := Join(items, sep);
      |j| >= |items[0]| && j[..|items[0]|] == items[0]
      && |j| >= |items[|items| - 1]| && j[|j| - |items[|items| - 1]|..] == items[|items| - 1]
  {
    if |items| > 1 {
      JoinEnds(items[1..], sep);
      var rest := Join(items[1..], sep);
      var j := Join(items, sep);
      assert j == items[0] + sep + rest;
      assert j[..|items[0]|] == items[0];
      assert items[1..][|items[1..]| - 1] == items[|items| - 1];
      assert j[|j| - |rest|..] == rest;
    }
  }

  /**
   * _generate_recommendation: the texts joined by the separator, so the
   * string starts with the confidence band's text and ends with the overall
   * band's text.
   */
  function Recommendation(confidence: real, score: real, m: Metrics): (r: string)
    ensures |r| >= |Text(ConfidenceBand(confidence))|
    ensures r[..|Text(ConfidenceBand(confidence))|] == Text(ConfidenceBand(confidence))
    ensures |r| >= |Text(OverallBand(score))|
    ensures r[|r| - |Text(OverallBand(score))|..] == Text(OverallBand(score))
  {
    var advice := RecommendationItems(confidence, score, m);
    var items := Texts(advice);
    assert advice[0] == ConfidenceBand(confidence) && advice[|advice| - 1] == OverallBand(score);
    assert items[0] == Text(ConfidenceBand(confidence));
    assert items[|items| - 1] == Text(OverallBand(score));
    JoinEnds(items, SEPARATOR);
    Join(items, SEPARATOR)
  }

  /**
   * zip(classes, probabilities) as a dict: the shorter list decides how many
   * pairs there are, every class of a pair is a key, and a class maps to the
   * probability of its last pair (later pairs overwrite earlier ones).
   */
  function ProbabilityMap(classes: seq<string>, p: seq<real>): (r: map<string, Value>)
    ensures r.Keys == set k | 0 <= k < |classes| && k < |p| :: classes[k]
    ensures forall k :: 0 <= k < |classes| && k < |p| && LastPair(classes, |p|, k) ==> r[classes[k]] == Num(p[k])
    ensures forall c :: c in r ==> r[c].Num?
  {
    var n := if |classes| < |p| then |classes| else |p|;
    PairMapKeys(classes, p, n);
    PairMapLast(classes, p, n);
    PairMap(classes, p, n)
  }

  /** The dict after the first n pairs of the comprehension. */
  function PairMap(classes: seq<string>, p: seq<real>, n: nat): (r: map<string, Value>)
    requires n <= |classes| && n <= |p|
    ensures forall k :: 0 <= k < n ==> classes[k] in r
    ensures forall c :: c in r ==> r[c].Num?
  {
    if n == 0 then map[]
    else PairMap(classes, p, n - 1)[classes[n - 1] := Num(p[n - 1])]
  }

  /** The keys after the first n pairs are those pairs' classes. */
  lemma {:induction false} PairMapKeys(classes: seq<string>, p: seq<real>, n: nat)
    requires n <= |classes| && n <= |p|
    ensures PairMap(classes, p, n).Keys == set k | 0 <= k < n :: classes[k]
  {
    if n > 0 {
      PairMapKeys(classes, p, n - 1);
      assert (set k | 0 <= k < n :: classes[k]) == (set k | 0 <= k < n - 1 :: classes[k]) + {classes[n - 1]};
    }
  }

  /** After the first n pairs, a class maps to the probability of its last pair among them. */
  lemma {:induction false} PairMapLast(classes: seq<string>, p: seq<real>, n: nat)
    requires n <= |classes| && n <= |p|
    ensures forall k :: 0 <= k < n && LastPair(classes, n, k) ==> PairMap(classes, p, n)[classes[k]] == Num(p[k])
  {
    if n > 0 {
      PairMapLast(classes, p, n - 1);
      var rest := PairMap(classes, p, n - 1);
      assert PairMap(classes, p, n) == rest[classes[n - 1] := Num(p[n - 1])];
      forall k | 0 <= k < n && LastPair(classes, n, k)
        ensures PairMap(classes, p, n)[classes[k]] == Num(p[k])
      {
        if k < n - 1 {
          assert classes[n - 1] != classes[k];
          assert LastPair(classes, n - 1, k);
          assert rest[classes[k]] == Num(p[k]);
        }
      }
    }
  }

  /** Pair k is the last of the first `len` pairs with its class. */
  predicate LastPair(classes: seq<string>, len: nat, k: nat)
    requires k < |classes|
  {
    forall j :: k < j < |classes| && j < len ==> classes[j] != classes[k]
  }

  /** With distinct class names every class of a pair maps to its own probability. */
  lemma ProbabilityMapDistinct(classes: seq<string>, p: seq<real>)
    requires forall i, j :: 0 <= i < j < |classes| ==> classes[i] != classes[j]
    ensures forall k :: 0 <= k < |classes| && k < |p| ==> ProbabilityMap(classes, p)[classes[k]] == Num(p[k])
  {
    assert forall k :: 0 <= k < |classes| ==> LastPair(classes, |p|, k);
  }

  function MetricsJson(m: Metrics): Value
  {
    Obj(map["brightness" := Num(m.brightness), "sharpness" := Num(m.sharpness), "blur" := Num(m.blur),
            "contrast" := Num(m.contrast), "overall" := Num(m.overall)])
  }

  /** The result when no model is loaded. */
  function NotLoadedResult(): Value
  {
    Obj(map["classification" := Str(MODEL_CLASSES[2]), "confidence" := Num(0.0),
            "all_probabilities" := Obj(map[]), "quality_score" := Num(0.0),
            "recommendation" := Str("Model not loaded")])
  }

  /** The result when anything inside classification raises. */
  function FailedResult(): Value
  {
    Obj(map["classification" := Str(MODEL_CLASSES[2]), "confidence" := Num(0.0),
            "all_probabilities" := Obj(map[])])
  }

  /** Whether a prediction can be turned into a full result (argmax in the class list, a runner-up exists). */
  predicate Usable(p: seq<real>)
  {
    |p| >= 2 && Argmax(p) < |MODEL_CLASSES|
  }

  /** The full result for a usable prediction. */
  function FullResult(p: seq<real>, stats: Option<GrayStats>): (r: Value)
    requires Usable(p)
    ensures r.Obj? && "quality" !in r.fields
    ensures r.fields.Keys == {"classification", "confidence", "all_probabilities", "quality_score",
                              "confidence_gap", "image_quality", "recommendation"}
    ensures r.fields["classification"] == Str(MODEL_CLASSES[Argmax(p)])
    ensures r.fields["confidence"] == Num(p[Argmax(p)])
    ensures r.fields["confidence_gap"].Num? && r.fields["confidence_gap"].n >= 0.0
    ensures r.fields["quality_score"].Num?
    ensures (forall j :: 0 <= j < |p| ==> Unit(p[j])) && (stats.None? || PlausibleStats(stats.value)) ==>
      0.0 <= r.fields["quality_score"].n <= 100.0
  {
    var metrics := AssessImageQuality(stats);
    var top := Argmax(p);
    var gap := p[top] - SecondBest(p, top);
    ConfidenceGapBounds(p);
    ScoreInRange(p[top], gap, metrics.overall,
                 (forall j :: 0 <= j < |p| ==> Unit(p[j])) && (stats.None? || PlausibleStats(stats.value)));
    ClassifyResult(MODEL_CLASSES[top], p[top], ProbabilityMap(MODEL_CLASSES, p),
                   QualityScore(p[top], gap, metrics.overall), gap, metrics)
  }

  /** QualityScoreBounds under a condition. */
  lemma ScoreInRange(confidence: real, gap: real, overall: real, inputsInRange: bool)
    requires inputsInRange ==> Unit(confidence) && Unit(gap) && Unit(overall)
    ensures inputsInRange ==> 0.0 <= QualityScore(confidence, gap, overall) <= 100.0
  {
    if inputsInRange {
      QualityScoreBounds(confidence, gap, overall);
    }
  }

  /**
   * classify(): the not-loaded result without a model; the failure result
   * when preprocessing fails, prediction raises or the probabilities cannot
   * be indexed; otherwise the top class with its confidence, the gap to the
   * runner-up, the quality score, the metrics and the recommendation.
   */
  function Classify(modelLoaded: bool, stats: Option<GrayStats>, preprocessed: bool, prediction: Option<seq<real>>)
    : (r: Value)
    ensures r.Obj? && "classification" in r.fields && "confidence" in r.fields
    ensures r.fields["classification"].Str? && r.fields["classification"].s in MODEL_CLASSES
    ensures r.fields["confidence"].Num?
    ensures "quality" !in r.fields
    ensures !modelLoaded ==> r == NotLoadedResult()
    ensures modelLoaded && !(preprocessed && prediction.Some? && Usable(prediction.value)) ==> r == FailedResult()
    ensures modelLoaded && preprocessed && prediction.Some? && Usable(prediction.value) ==>
      r == FullResult(prediction.value, stats)
  {
    if !modelLoaded then NotLoadedResult()
    else if !preprocessed || prediction.None? || !Usable(prediction.value) then FailedResult()
    else FullResult(prediction.value, stats)
  }

  /** The full result dictionary. */
  function ClassifyResult(top: string, confidence: real, probs: map<string, Value>, score: real, gap: real, m: Metrics)
    : (r: Value)
    ensures r.Obj? && r.fields.Keys == {"classification", "confidence", "all_probabilities", "quality_score",
                                        "confidence_gap", "image_quality", "recommendation"}
    ensures r.fields["classification"] == Str(top) && r.fields["confidence"] == Num(confidence)
    ensures r.fields["quality_score"] == Num(score) && r.fields["confidence_gap"] == Num(gap)
    ensures "quality" !in r.fields
  {
    Obj(ResultFields(Str(top), Num(confidence), Obj(probs), Num(score), Num(gap), MetricsJson(m),
                     Str(Recommendation(confidence, score, m))))
  }

  /** The seven entries of the result dictionary, in the source's order. */
  function ResultFields(top: Value, confidence: Value, probs: Value, score: Value, gap: Value, metrics: Value,
                        recommendation: Value): (fields: map<string, Value>)
    ensures fields.Keys == {"classification", "confidence", "all_probabilities", "quality_score",
                            "confidence_gap", "image_quality", "recommendation"}
    ensures fields["classification"] == top && fields["confidence"] == confidence
    ensures fields["quality_score"] == score && fields["confidence_gap"] == gap
    ensures "quality" !in fields
  {
    assert "quality" != "quality_score" by {
      assert |"quality"| == 7 && |"quality_score"| == 13;
    }
    map["classification" := top, "confidence" := confidence, "all_probabilities" := probs,
        "quality_score" := score, "confidence_gap" := gap, "image_quality" := metrics,
        "recommendation" := recommendation]
  }
}
