/** `LocalFruitAnalyzer` of `app/lib/localAI.ts`: the on-device analyser with a
    trained six-class model and a feature-based heuristic path. Image decoding, the
    tensors and every floating-point colour statistic are outside the model; their
    outcomes enter as the boolean signals and descriptions they select. */
module LocalAI {
  import opened Wrappers
  import opened Arith
  import Text
  import opened AnalysisTypes

  /** The classes of the trained model, in output order. */
  const FruitTypes: seq<string> := ["apple", "banana", "orange", "strawberry", "grape", "tomato"]

  /** Buy from 75, check from 50, on both paths. */
  function Recommend(freshness: int): (r: Recommendation)
    ensures r == Buy <==> freshness >= 75
    ensures r == Check <==> 50 <= freshness < 75
    ensures r == Avoid <==> freshness < 50
  {
    RecommendationFor(freshness, 75, 50)
  }

  function Bonus(b: bool, points: int): int { if b then points else 0 }

  /** The outcomes of the four floating-point tests of `calculateFreshnessScore`. */
  datatype FeatureSignals = FeatureSignals(colorVaried: bool, goodBrightness: bool,
                                           smoothTexture: bool, consistentTexture: bool)

  /** The heuristic score before the clamp: 75 plus 10, 5, 10 and 5 for the
      signals present, so at most 105. */
  function RawFeatureScore(s: FeatureSignals): int {
    75 + Bonus(s.colorVaried, 10) + Bonus(s.goodBrightness, 5) + Bonus(s.smoothTexture, 10)
    + Bonus(s.consistentTexture, 5)
  }

  function FeatureScore(s: FeatureSignals): int {
    Clamp(0, 100, RawFeatureScore(s))
  }

  /** `calculateFreshnessScore`: the score always lies in [75, 100]; only the
      upper bound of the final clamp can apply. */
  method CalculateFreshnessScore(s: FeatureSignals) returns (score: int)
    ensures score == FeatureScore(s)
    ensures 75 <= score <= 100
  {
    score := 75;
    if s.colorVaried { score := score + 10; }
    assert score == 75 + Bonus(s.colorVaried, 10);
    if s.goodBrightness { score := score + 5; }
    assert score == 75 + Bonus(s.colorVaried, 10) + Bonus(s.goodBrightness, 5);
    if s.smoothTexture { score := score + 10; }
    assert score == 75 + Bonus(s.colorVaried, 10) + Bonus(s.goodBrightness, 5) + Bonus(s.smoothTexture, 10);
    if s.consistentTexture { score := score + 5; }
    assert score == RawFeatureScore(s);
    score := Clamp(0, 100, score);
  }

  /** All four signals reach the cap of 100; none leaves the base 75. */
  lemma FeatureScoreExtremes(s: FeatureSignals)
    ensures s.colorVaried && s.goodBrightness && s.smoothTexture && s.consistentTexture ==> FeatureScore(s) == 100
    ensures !s.colorVaried && !s.goodBrightness && !s.smoothTexture && !s.consistentTexture ==> FeatureScore(s) == 75
  {
  }

  /** More signals present never lower the score. */
  lemma FeatureScoreMonotone(s: FeatureSignals, t: FeatureSignals)
    requires s.colorVaried ==> t.colorVaried
    requires s.goodBrightness ==> t.goodBrightness
    requires s.smoothTexture ==> t.smoothTexture
    requires s.consistentTexture ==> t.consistentTexture
    ensures FeatureScore(s) <= FeatureScore(t)
  {
  }

  /** A score computed from extracted features is always at least 75, so that
      path always recommends buying. */
  lemma FeaturePathAlwaysBuys(s: FeatureSignals)
    ensures Recommend(FeatureScore(s)) == Buy
  {
  }

  /** The outcomes of the colour tests of `calculateFreshnessFromPrediction`:
      brightness above 0.7, saturation above 0.6, variance below 0.3, and the
      fruit's own colour test. */
  datatype ColorSignals = ColorSignals(bright: bool, saturated: bool, uniform: bool, fruitColor: bool)

  /** The fruit-specific adjustment; classes outside the table get 0. */
  function FruitAdjustment(fruitType: string, fruitColor: bool): (r: int)
    ensures fruitType !in FruitTypes ==> r == 0
    ensures fruitType in FruitTypes && fruitColor ==> r == 5
    ensures fruitType in FruitTypes && !fruitColor ==> -10 <= r <= -5
  {
    if fruitType == "banana" || fruitType == "strawberry" then (if fruitColor then 5 else -10)
    else if fruitType in FruitTypes then (if fruitColor then 5 else -5)
    else 0
  }

  /** The score of the trained path for a class predicted with `confidence`
      percent: `round(60 + 35 * confidence)`, adjusted and clamped to [20, 100]. */
  function PredictionScore(fruitType: string, confidence: int, c: ColorSignals): int {
    Clamp(20, 100, RoundDiv(6000 + 35 * confidence, 100) + Bonus(c.bright, 5) + Bonus(c.saturated, 5)
                   + Bonus(c.uniform, 3) + FruitAdjustment(fruitType, c.fruitColor))
  }

  /** `calculateFreshnessFromPrediction`, updating the score step by step. */
  method FreshnessFromPrediction(fruitType: string, confidence: int, c: ColorSignals) returns (score: int)
    ensures score == PredictionScore(fruitType, confidence, c)
    ensures 20 <= score <= 100
  {
    score := RoundDiv(6000 + 35 * confidence, 100);
    if c.bright { score := score + 5; }
    if c.saturated { score := score + 5; }
    if c.uniform { score := score + 3; }
    score := score + FruitAdjustment(fruitType, c.fruitColor);
    score := Clamp(20, 100, score);
  }

  /** With a confidence in [0, 100] the unclamped score is at least 50, so the
      lower clamp never applies and the trained path never recommends avoiding. */
  lemma PredictionScoreAtLeastFifty(fruitType: string, confidence: int, c: ColorSignals)
    requires 0 <= confidence <= 100
    ensures 50 <= PredictionScore(fruitType, confidence, c) <= 100
    ensures Recommend(PredictionScore(fruitType, confidence, c)) != Avoid
  {
    RoundDivBetween(6000 + 35 * confidence, 100, 60, 95);
  }

  /** The index of the first largest probability. */
  function FirstMaxIndex(s: seq<int>): (r: nat)
    requires |s| > 0
    ensures r < |s|
    ensures forall j :: 0 <= j < |s| ==> s[j] <= s[r]
    ensures forall j :: 0 <= j < r ==> s[j] < s[r]
  {
    if |s| == 1 then 0
    else
      var k := FirstMaxIndex(s[..|s| - 1]);
      if s[|s| - 1] > s[k] then |s| - 1 else k
  }

  datatype Tier = FreshTier | GoodTier | FairTier

  /** The characteristic tier: fresh from 80, good from 60, fair below. */
  function TierOf(freshness: int): (t: Tier)
    ensures t == FreshTier <==> freshness >= 80
    ensures t == GoodTier <==> 60 <= freshness < 80
    ensures t == FairTier <==> freshness < 60
  {
    if freshness >= 80 then FreshTier else if freshness >= 60 then GoodTier else FairTier
  }

  /** The per-class characteristic table; `None` for a name outside it. */
  function FruitTable(fruitType: string, t: Tier): (r: Option<Characteristics>)
    ensures r.Some? <==> fruitType in FruitTypes
  {
    if fruitType == "apple" then Some(match t
      case FreshTier => Characteristics("Vibrant red with natural shine", "Firm and crisp", "None visible", "Perfect eating stage")
      case GoodTier => Characteristics("Red with slight dulling", "Still firm", "Few small spots", "Good quality")
      case FairTier => Characteristics("Faded red with brown spots", "Slightly soft", "Several brown spots", "Consume soon"))
    else if fruitType == "banana" then Some(match t
      case FreshTier => Characteristics("Bright yellow", "Firm but yielding", "None visible", "Perfect ripeness")
      case GoodTier => Characteristics("Yellow with few brown spots", "Soft and sweet", "Small brown spots", "Very ripe")
      case FairTier => Characteristics("Yellow-brown with many spots", "Very soft", "Many brown spots", "Overripe but edible"))
    else if fruitType == "orange" then Some(match t
      case FreshTier => Characteristics("Bright orange", "Firm with natural texture", "None detected", "Peak freshness")
      case GoodTier => Characteristics("Orange with slight variations", "Firm", "Minor surface marks", "Good quality")
      case FairTier => Characteristics("Dull orange with soft spots", "Slightly soft", "Some soft areas", "Use quickly"))
    else if fruitType == "strawberry" then Some(match t
      case FreshTier => Characteristics("Deep red", "Plump and firm", "None significant", "Ripe and sweet")
      case GoodTier => Characteristics("Red with good color", "Firm", "Minimal spots", "Good eating condition")
      case FairTier => Characteristics("Red with dark spots", "Slightly soft", "Some dark spots", "Use quickly"))
    else if fruitType == "grape" then Some(match t
      case FreshTier => Characteristics("Deep purple/green", "Plump and firm", "None visible", "Perfect eating condition")
      case GoodTier => Characteristics("Good color with firmness", "Still plump", "Minor imperfections", "Good quality")
      case FairTier => Characteristics("Some wrinkled grapes", "Starting to soften", "Some wrinkled fruit", "Consume soon"))
    else if fruitType == "tomato" then Some(match t
      case FreshTier => Characteristics("Vibrant red", "Firm with slight give", "None visible", "Perfect ripeness")
      case GoodTier => Characteristics("Red with good firmness", "Firm", "Minor surface marks", "Good for eating")
      case FairTier => Characteristics("Red with soft spots", "Some soft areas", "Some soft spots", "Use for cooking"))
    else None
  }

  const GenericCharacteristics := Characteristics("Natural", "Standard", "Minimal", "Good")

  /** `generateCharacteristicsForFruit`: the class's record for the score's tier, or
      the generic record, whatever the score, for a class outside the table. */
  function CharacteristicsForFruit(fruitType: string, freshness: int): (r: Characteristics)
    ensures fruitType !in FruitTypes ==> r == GenericCharacteristics
    ensures fruitType in FruitTypes ==> Some(r) == FruitTable(fruitType, TierOf(freshness))
  {
    match FruitTable(fruitType, TierOf(freshness))
    case None => GenericCharacteristics
    case Some(c) => c
  }

  /** Scores in the same tier get the same characteristics. */
  lemma SameTierSameCharacteristics(fruitType: string, a: int, b: int)
    requires TierOf(a) == TierOf(b)
    ensures CharacteristicsForFruit(fruitType, a) == CharacteristicsForFruit(fruitType, b)
  {
  }

  datatype DetailTier = Excellent | GoodQuality | FairCondition | Aging

  /** The tiers of `generateDetailedAnalysis`: 85, 70 and 50. */
  function DetailTierOf(freshness: int): (t: DetailTier)
    ensures t == Excellent <==> freshness >= 85
    ensures t == GoodQuality <==> 70 <= freshness < 85
    ensures t == FairCondition <==> 50 <= freshness < 70
    ensures t == Aging <==> freshness < 50
  {
    if freshness >= 85 then Excellent
    else if freshness >= 70 then GoodQuality
    else if freshness >= 50 then FairCondition
    else Aging
  }

  /** The fixed sentence parts of the analysis texts. */
  const ExcellentClose: string := " texture indicate peak freshness and optimal eating condition."
  const GoodClose: string := " suggests good freshness. Recommended for consumption within a few days."
  const FairClose: string := " indicates moderate freshness. Consider using soon or checking quality before purchase."
  const AgingOpen: string := " shows signs of aging based on AI analysis. "
  const AgingClose: string := " suggest reduced freshness. Use immediately or avoid if purchasing."
  const FreshFeatureOpen: string := " detected with excellent quality indicators. "
  const FreshFeatureClose: string := " texture suggest optimal ripeness and freshness."
  const GoodFeatureOpen: string := " identified. Decent freshness levels with "
  const GoodFeatureClose: string := " appearance. Best consumed within a few days."
  const AgingFeatureClose: string :=
    " shows signs of aging. Consider checking for quality before purchase or consuming immediately if already owned."
  const FallbackDetails: string :=
    "Local analysis encountered an issue. Basic quality assessment suggests moderate freshness."

  /** `generateDetailedAnalysis`: the text names the capitalised class. */
  function DetailedAnalysis(fruitType: string, freshness: int, c: Characteristics): (r: string)
    ensures Text.Contains(r, Text.Capitalize(fruitType))
  {
    var name := Text.Capitalize(fruitType);
    var texture := Text.Lower(c.texture);
    var (opening, rest) := match DetailTierOf(freshness)
      case Excellent =>
        ("Excellent quality ", " detected using trained AI model. " + c.color + " coloration and " + texture + ExcellentClose)
      case GoodQuality =>
        ("Good quality ", " identified by AI analysis. " + c.color + " appearance with " + texture + GoodClose)
      case FairCondition =>
        ("Fair condition ", " detected. " + c.color + " with " + texture + FairClose)
      case Aging =>
        ("", AgingOpen + Text.Lower(c.color) + " appearance and " + texture + AgingClose);
    Text.ContainsMiddle(opening, name, rest);
    opening + name + rest
  }

  /** `generateCharacteristics` of the feature path: colour and texture come from
      the floating-point colour tests; blemishes and ripeness from strict
      comparisons with 80 and 75. */
  function FeatureCharacteristics(freshness: int, colorDesc: string, textureDesc: string): (r: Characteristics)
    ensures r.color == colorDesc && r.texture == textureDesc
    ensures r.blemishes == (if freshness > 80 then "None visible" else "Some minor spots")
    ensures r.ripeness == (if freshness > 75 then "Perfect eating stage" else "Consume soon")
  {
    Characteristics(colorDesc, textureDesc, if freshness > 80 then "None visible" else "Some minor spots",
                    if freshness > 75 then "Perfect eating stage" else "Consume soon")
  }

  /** `generateDetails` of the feature path: tiers at 80 and 60, the item named in
      lower case in the first two. */
  function FeatureDetails(item: string, freshness: int, c: Characteristics): (r: string)
    ensures freshness >= 60 ==> Text.Contains(r, Text.Lower(item))
    ensures freshness < 60 ==> Text.StartsWith(r, item)
  {
    if freshness >= 80 then
      var rest := FreshFeatureOpen + c.color + " coloration and "
                  + Text.Lower(c.texture) + FreshFeatureClose;
      Text.ContainsMiddle("Fresh ", Text.Lower(item), rest);
      "Fresh " + Text.Lower(item) + rest
    else if freshness >= 60 then
      var rest := GoodFeatureOpen + Text.Lower(c.color)
                  + GoodFeatureClose;
      Text.ContainsMiddle("Good quality ", Text.Lower(item), rest);
      "Good quality " + Text.Lower(item) + rest
    else
      var r := item + AgingFeatureClose;
      assert r[..|item|] == item;
      r
  }

  /** What feature extraction produced: the signals and the colour-derived item
      name and descriptions, or a failure, after which the default features
      (score 70, mean colour 0.5/0.4/0.3, texture 0.2) are used. */
  datatype FeatureOutcome =
    | Extracted(signals: FeatureSignals, item: string, colorDesc: string, textureDesc: string)
    | ExtractionFailed

  /** `analyzeFreshness` for a score: confidence 85. */
  function AnalyzeFreshness(freshness: int, item: string, colorDesc: string, textureDesc: string,
                            timestamp: string, analysisId: string): (r: LocalAnalysis)
    ensures r.freshness == freshness && r.item == item && r.confidence == 85
    ensures r.recommendation == Recommend(freshness)
    ensures r.characteristics == FeatureCharacteristics(freshness, colorDesc, textureDesc)
  {
    var c := FeatureCharacteristics(freshness, colorDesc, textureDesc);
    LocalAnalysis(item, freshness, Recommend(freshness), FeatureDetails(item, freshness, c), 85, c,
                  timestamp, analysisId)
  }

  /** The default features classify as "Mixed Fruit", coloured "Natural" and
      "Smooth", with score 70. */
  function DefaultFeatureAnalysis(timestamp: string, analysisId: string): (r: LocalAnalysis)
    ensures r.freshness == 70 && r.recommendation == Check && r.item == "Mixed Fruit"
  {
    AnalyzeFreshness(70, "Mixed Fruit", "Natural", "Smooth", timestamp, analysisId)
  }

  /** What the trained model produced: one probability per class, in percent,
      and the colour signals of the image; or an exception while decoding or
      predicting. */
  datatype TrainedOutcome = Predicted(probabilities: seq<int>, colors: ColorSignals) | PredictionFailed

  predicate ValidPrediction(p: seq<int>) {
    |p| == |FruitTypes| && forall i :: 0 <= i < |p| ==> 0 <= p[i] <= 100
  }

  /** `analyzeWithTrainedModel` once the score is known. */
  function TrainedAnalysis(fruitType: string, confidence: int, freshness: int,
                           timestamp: string, analysisId: string): (r: LocalAnalysis)
    ensures r.item == Text.Capitalize(fruitType) && r.freshness == freshness && r.confidence == confidence
    ensures r.recommendation == Recommend(freshness)
    ensures r.characteristics == CharacteristicsForFruit(fruitType, freshness)
    ensures Text.Contains(r.details, r.item)
  {
    var c := CharacteristicsForFruit(fruitType, freshness);
    LocalAnalysis(Text.Capitalize(fruitType), freshness, Recommend(freshness), DetailedAnalysis(fruitType, freshness, c),
                  confidence, c, timestamp, analysisId)
  }

  /** `getFallbackAnalysis`: 70, check, confidence 60. */
  function FallbackAnalysis(nowDigits: string, timestamp: string): (r: LocalAnalysis)
    ensures r.freshness == 70 && r.recommendation == Check && r.confidence == 60
    ensures r.recommendation == Recommend(r.freshness)
    ensures r.analysisId == "fallback_" + nowDigits
  {
    LocalAnalysis("Unknown Fruit", 70, Check,
                  FallbackDetails, 60,
                  Characteristics("Natural appearance", "Standard texture", "Unable to determine", "Check manually"),
                  timestamp, "fallback_" + nowDigits)
  }

  class LocalFruitAnalyzer {
    var isModelLoaded: bool

    /** Loading the model is asynchronous; until it finishes the analyser is not ready. */
    constructor ()
      ensures !isModelLoaded
    {
      isModelLoaded := false;
    }

    /** `initializeModel` completed, with or without a model. */
    method InitializeModel(loaded: bool)
      modifies this
      ensures isModelLoaded == loaded
    {
      isModelLoaded := loaded;
    }

    /** `analyzeImage`: the trained path when a model is loaded, the feature path
        otherwise, and the fallback when the trained path throws. Whatever the
        path, the recommendation follows the 75/50 rule for the returned score. */
    method AnalyzeImage(trained: TrainedOutcome, features: FeatureOutcome,
                        nowDigits: string, suffix: string, timestamp: string) returns (r: LocalAnalysis)
      requires trained.Predicted? ==> ValidPrediction(trained.probabilities)
      ensures r.recommendation == Recommend(r.freshness)
      ensures isModelLoaded && trained.PredictionFailed? ==> r == FallbackAnalysis(nowDigits, timestamp)
      ensures isModelLoaded && trained.Predicted? ==>
                var i := FirstMaxIndex(trained.probabilities);
                r == TrainedAnalysis(FruitTypes[i], trained.probabilities[i],
                                     PredictionScore(FruitTypes[i], trained.probabilities[i], trained.colors),
                                     timestamp, "trained_model_" + nowDigits + "_" + suffix)
                && 50 <= r.freshness <= 100
      ensures !isModelLoaded && features.Extracted? ==>
                r == AnalyzeFreshness(FeatureScore(features.signals), features.item, features.colorDesc,
                                      features.textureDesc, timestamp, "local_analysis_" + nowDigits + "_" + suffix)
                && r.recommendation == Buy
      ensures !isModelLoaded && features.ExtractionFailed? ==>
                r == DefaultFeatureAnalysis(timestamp, "local_analysis_" + nowDigits + "_" + suffix)
    {
      if isModelLoaded {
        match trained
        case PredictionFailed =>
          r := FallbackAnalysis(nowDigits, timestamp);
        case Predicted(probabilities, colors) =>
          var i := FirstMaxIndex(probabilities);
          var confidence := probabilities[i];
          var fruitType := FruitTypes[i];
          var score := FreshnessFromPrediction(fruitType, confidence, colors);
          PredictionScoreAtLeastFifty(fruitType, confidence, colors);
          r := TrainedAnalysis(fruitType, confidence, score, timestamp, "trained_model_" + nowDigits + "_" + suffix);
      } else {
        var id := "local_analysis_" + nowDigits + "_" + suffix;
        match features
        case ExtractionFailed =>
          r := DefaultFeatureAnalysis(timestamp, id);
        case Extracted(signals, item, colorDesc, textureDesc) =>
          var score := CalculateFreshnessScore(signals);
          r := AnalyzeFreshness(score, item, colorDesc, textureDesc, timestamp, id);
      }
    }
  }
}
