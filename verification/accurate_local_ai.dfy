/** `AccurateFruitAnalyzer` of `app/lib/accurateLocalAI.ts`: a binary fresh/rotten
    model with a pixel-statistics heuristic behind it. Decoding and resizing are
    outside the model; the pixels of the resized image are an input, and the
    floating-point colour tests that only choose a description enter as the
    outcome they select. */
module AccurateLocalAI {
  import opened Wrappers
  import opened Arith
  import Text
  import opened AnalysisTypes

  /** The model path: buy from 75, check from 50. */
  function ModelRecommend(freshness: int): (r: Recommendation)
    ensures r == Buy <==> freshness >= 75
    ensures r == Check <==> 50 <= freshness < 75
    ensures r == Avoid <==> freshness < 50
  {
    RecommendationFor(freshness, 75, 50)
  }

  /** The heuristic path: buy from 70, check from 45. */
  function HeuristicRecommend(freshness: int): (r: Recommendation)
    ensures r == Buy <==> freshness >= 70
    ensures r == Check <==> 45 <= freshness < 70
    ensures r == Avoid <==> freshness < 45
  {
    RecommendationFor(freshness, 70, 45)
  }

  /** For the same score the heuristic path is never stricter than the model path. */
  lemma HeuristicIsMoreLenient(freshness: int)
    ensures Rank(ModelRecommend(freshness)) <= Rank(HeuristicRecommend(freshness))
  {
  }

  /** The model's sigmoid output, in thousandths: `Math.round(p * 100)`. */
  function ModelFreshness(permille: int): (r: int)
    requires 0 <= permille <= 1000
    ensures 0 <= r <= 100
  {
    RoundDivBetween(permille, 10, 0, 100);
    RoundDiv(permille, 10)
  }

  /** `Math.max(p, 1 - p)`, in thousandths. */
  function Confidence(permille: int): (r: int)
    requires 0 <= permille <= 1000
    ensures 500 <= r <= 1000
    ensures r == permille || r == 1000 - permille
  {
    Max(permille, 1000 - permille)
  }

  /** The reported confidence, in percent, is never below 50. */
  lemma ConfidencePercentAtLeastHalf(permille: int)
    requires 0 <= permille <= 1000
    ensures 50 <= RoundDiv(Confidence(permille), 10) <= 100
  {
    RoundDivBetween(Confidence(permille), 10, 50, 100);
  }

  function ConfidenceText(confidence: int): (r: string)
    ensures confidence > 800 ==> r == "with high confidence"
    ensures 600 < confidence <= 800 ==> r == "with good confidence"
    ensures confidence <= 600 ==> r == "with moderate confidence"
  {
    if confidence > 800 then "with high confidence"
    else if confidence > 600 then "with good confidence"
    else "with moderate confidence"
  }

  /** Which of the colour tests of a fresh item (red, green, golden, orange) held first. */
  datatype ColorCue = RedCue | GreenCue | GoldenCue | OrangeCue | NoCue

  function ColorDescription(freshness: int, cue: ColorCue): (r: string)
    ensures freshness < 60 ==> r == "Dull coloring with brown discoloration"
    ensures 60 <= freshness < 80 ==> r == "Good coloring with slight variation"
    ensures freshness >= 80 && cue == NoCue ==> r == "Vibrant, healthy coloring"
  {
    if freshness >= 80 then
      match cue
      case RedCue => "Vibrant red with healthy appearance"
      case GreenCue => "Fresh green coloration"
      case GoldenCue => "Bright golden-yellow"
      case OrangeCue => "Rich orange hue"
      case NoCue => "Vibrant, healthy coloring"
    else if freshness >= 60 then "Good coloring with slight variation"
    else "Dull coloring with brown discoloration"
  }

  function TextureDescription(freshness: int): (r: string)
    ensures r == "Firm and smooth" <==> freshness >= 85
    ensures r == "Still firm with good structure" <==> 70 <= freshness < 85
    ensures r == "Slightly soft in places" <==> 50 <= freshness < 70
    ensures r == "Soft and potentially mushy" <==> freshness < 50
  {
    if freshness >= 85 then "Firm and smooth"
    else if freshness >= 70 then "Still firm with good structure"
    else if freshness >= 50 then "Slightly soft in places"
    else "Soft and potentially mushy"
  }

  function BlemishDescription(freshness: int): (r: string)
    ensures r == "None visible" <==> freshness >= 90
    ensures r == "Minimal surface marks" <==> 75 <= freshness < 90
    ensures r == "Some spots and marks" <==> 50 <= freshness < 75
    ensures r == "Significant blemishes and spots" <==> freshness < 50
  {
    if freshness >= 90 then "None visible"
    else if freshness >= 75 then "Minimal surface marks"
    else if freshness >= 50 then "Some spots and marks"
    else "Significant blemishes and spots"
  }

  /** The ripeness words; the source repeats the thresholds of the texture tiers
      (85, 70 and 50) here, so the two descriptions always change together. */
  function RipenessDescription(freshness: int): (r: string)
    ensures r == "Perfect eating stage" <==> freshness >= 85
    ensures r == "Good eating condition" <==> 70 <= freshness < 85
    ensures r == "Consume soon" <==> 50 <= freshness < 70
    ensures r == "Overripe, use immediately" <==> freshness < 50
  {
    if freshness >= 85 then "Perfect eating stage"
    else if freshness >= 70 then "Good eating condition"
    else if freshness >= 50 then "Consume soon"
    else "Overripe, use immediately"
  }

  /** `generateCharacteristicsFromAnalysis`. */
  function CharacteristicsFromAnalysis(freshness: int, cue: ColorCue): (r: Characteristics)
    ensures r.color == ColorDescription(freshness, cue)
    ensures r.texture == TextureDescription(freshness) && r.blemishes == BlemishDescription(freshness)
    ensures r.ripeness == RipenessDescription(freshness)
  {
    Characteristics(ColorDescription(freshness, cue), TextureDescription(freshness), BlemishDescription(freshness),
                    RipenessDescription(freshness))
  }

  /** Texture and ripeness share their tiers, and the buy threshold of the model
      path is also where the blemish text improves to "Minimal surface marks". */
  lemma DescriptionsAgree(freshness: int, cue: ColorCue)
    ensures var c := CharacteristicsFromAnalysis(freshness, cue);
            (c.texture == "Firm and smooth" <==> c.ripeness == "Perfect eating stage")
            && (c.texture == "Soft and potentially mushy" <==> c.ripeness == "Overripe, use immediately")
            && (ModelRecommend(freshness) == Buy <==> c.blemishes in {"None visible", "Minimal surface marks"})
            && (ModelRecommend(freshness) == Avoid <==> c.blemishes == "Significant blemishes and spots")
  {
  }

  /** `getDefaultCharacteristics`: tiers at 80 and 60. */
  function DefaultCharacteristics(freshness: int): (r: Characteristics)
    ensures freshness >= 80 ==> r.ripeness == "Good eating condition"
    ensures 60 <= freshness < 80 ==> r.ripeness == "Fair condition"
    ensures freshness < 60 ==> r.ripeness == "Poor condition"
  {
    if freshness >= 80 then
      Characteristics("Good natural coloring", "Firm appearance", "Minimal imperfections", "Good eating condition")
    else if freshness >= 60 then
      Characteristics("Acceptable coloring", "Moderate firmness", "Some surface marks", "Fair condition")
    else
      Characteristics("Dull appearance", "Soft texture", "Visible imperfections", "Poor condition")
  }

  /** `generateAccurateAnalysis`: tiers at 85, 70 and 50; the text names the item. */
  function AccurateDetails(fruitType: string, freshness: int, c: Characteristics, confidence: int): (r: string)
    ensures Text.Contains(r, fruitType)
  {
    var confidenceText := ConfidenceText(confidence);
    var texture := Text.Lower(c.texture);
    if freshness >= 85 then
      var rest := " detected " + confidenceText + ". " + c.color + " and " + texture
                  + " indicate excellent freshness and peak eating condition.";
      Text.ContainsMiddle("High-quality ", fruitType, rest);
      "High-quality " + fruitType + rest
    else if freshness >= 70 then
      var rest := " identified " + confidenceText + ". " + c.color + " with " + texture
                  + " suggests good freshness for immediate consumption.";
      Text.ContainsMiddle("Good quality ", fruitType, rest);
      "Good quality " + fruitType + rest
    else if freshness >= 50 then
      var rest := " detected " + confidenceText + ". " + c.color + " and " + texture
                  + " indicate moderate freshness - consider using soon.";
      Text.ContainsMiddle("Fair condition ", fruitType, rest);
      "Fair condition " + fruitType + rest
    else
      var rest := " identified " + confidenceText + ". " + Text.Lower(c.color) + " and " + texture
                  + " suggest significant deterioration - avoid if purchasing.";
      Text.ContainsMiddle("Poor quality ", fruitType, rest);
      "Poor quality " + fruitType + rest
  }

  /** The fixed pixel count of the 100 x 100 resize; the sums are divided by it
      whatever the length of the pixel data. */
  const PixelCount := 10000

  /** Channel values of one RGB pixel. */
  function R(data: seq<int>, k: nat): int requires 3 * k + 2 < |data| { data[3 * k] }
  function G(data: seq<int>, k: nat): int requires 3 * k + 2 < |data| { data[3 * k + 1] }
  function B(data: seq<int>, k: nat): int requires 3 * k + 2 < |data| { data[3 * k + 2] }

  function Abs(x: int): int { if x < 0 then -x else x }

  /** `r < 0.4 && g < 0.3 && b < 0.2` on values divided by 255. */
  predicate Brownish(r: int, g: int, b: int) {
    r < 102 && 10 * g < 765 && b < 51
  }

  /** Sums over the first `p` pixels of the channel total, of the pairwise channel
      differences, and the count of brownish pixels. */
  function BrightnessSum(data: seq<int>, p: nat): int
    requires 3 * p <= |data|
  {
    if p == 0 then 0 else BrightnessSum(data, p - 1) + R(data, p - 1) + G(data, p - 1) + B(data, p - 1)
  }

  function VariationSum(data: seq<int>, p: nat): int
    requires 3 * p <= |data|
  {
    if p == 0 then 0
    else
      var r, g, b := R(data, p - 1), G(data, p - 1), B(data, p - 1);
      VariationSum(data, p - 1) + Abs(r - g) + Abs(g - b) + Abs(r - b)
  }

  function BrownCount(data: seq<int>, p: nat): (n: nat)
    requires 3 * p <= |data|
    ensures n <= p
  {
    if p == 0 then 0
    else BrownCount(data, p - 1) + (if Brownish(R(data, p - 1), G(data, p - 1), B(data, p - 1)) then 1 else 0)
  }

  /** The indices, among the first `p` pixels, of those that pass the brown test. */
  ghost function BrownPixels(data: seq<int>, p: nat): set<nat>
    requires 3 * p <= |data|
  {
    set k: nat | k < p && Brownish(R(data, k), G(data, k), B(data, k))
  }

  /** The brownish count is the number of pixels that pass the brown test. */
  lemma {:induction false} BrownCountCountsBrownPixels(data: seq<int>, p: nat)
    requires 3 * p <= |data|
    ensures BrownCount(data, p) == |BrownPixels(data, p)|
  {
    if p > 0 {
      BrownCountCountsBrownPixels(data, p - 1);
      if Brownish(R(data, p - 1), G(data, p - 1), B(data, p - 1)) {
        assert BrownPixels(data, p) == BrownPixels(data, p - 1) + {p - 1};
      } else {
        assert BrownPixels(data, p) == BrownPixels(data, p - 1);
      }
    }
  }

  /** The score of `calculateHeuristicFreshness` from the three sums: 80, plus 10
      when the mean brightness exceeds 0.6 or minus 20 below 0.3, plus 5 when the
      mean channel spread exceeds 0.3 or minus 10 below 0.1, minus the brownish
      percentage; rounded and clamped to [15, 95]. The comparisons are those of
      the source multiplied out by 255 * 3 * PixelCount (brightness) and
      255 * PixelCount (spread). */
  function HeuristicScore(brightness: int, variation: int, brown: int): (r: int)
    ensures 15 <= r <= 95
  {
    var brightAdj := if 2 * brightness > 918 * PixelCount then 10
                     else if 2 * brightness < 459 * PixelCount then -20 else 0;
    var variationAdj := if 2 * variation > 153 * PixelCount then 5
                        else if 2 * variation < 51 * PixelCount then -10 else 0;
    Clamp(15, 95, RoundDiv(100 * (80 + brightAdj + variationAdj) - brown, 100))
  }

  /** More brownish pixels never raise the score. */
  lemma BrownPixelsNeverHelp(brightness: int, variation: int, brown1: int, brown2: int)
    requires brown1 <= brown2
    ensures HeuristicScore(brightness, variation, brown2) <= HeuristicScore(brightness, variation, brown1)
  {
    var brightAdj := if 2 * brightness > 918 * PixelCount then 10
                     else if 2 * brightness < 459 * PixelCount then -20 else 0;
    var variationAdj := if 2 * variation > 153 * PixelCount then 5
                        else if 2 * variation < 51 * PixelCount then -10 else 0;
    RoundDivMonotone(100 * (80 + brightAdj + variationAdj) - brown2, 100 * (80 + brightAdj + variationAdj) - brown1, 100);
  }

  /** A bright, colourful image without brownish pixels reaches the cap of 95. */
  lemma BrightVividImageScoresTop(brightness: int, variation: int)
    requires 2 * brightness > 918 * PixelCount && 2 * variation > 153 * PixelCount
    ensures HeuristicScore(brightness, variation, 0) == 95
  {
    RoundDivUnique(9500, 100, 95);
  }

  /** The pixel loop of `calculateHeuristicFreshness`; `None` is an image that
      could not be decoded, which scores 60. */
  method HeuristicFreshness(pixels: Option<seq<int>>) returns (score: int)
    requires pixels.Some? ==> |pixels.value| % 3 == 0
    ensures pixels.None? ==> score == 60
    ensures pixels.Some? ==>
              var data := pixels.value;
              score == HeuristicScore(BrightnessSum(data, |data| / 3), VariationSum(data, |data| / 3),
                                      BrownCount(data, |data| / 3))
    ensures 15 <= score <= 95
  {
    if pixels.None? {
      return 60;
    }
    var data := pixels.value;
    var brightness, colorVariation, brownishPixels := 0, 0, 0;
    var i := 0;
    while i < |data|
      invariant i % 3 == 0 && i <= |data|
      invariant brightness == BrightnessSum(data, i / 3)
      invariant colorVariation == VariationSum(data, i / 3)
      invariant brownishPixels == BrownCount(data, i / 3)
    {
      var r, g, b := data[i], data[i + 1], data[i + 2];
      assert r == R(data, i / 3) && g == G(data, i / 3) && b == B(data, i / 3);
      brightness := brightness + r + g + b;
      colorVariation := colorVariation + Abs(r - g) + Abs(g - b) + Abs(r - b);
      if Brownish(r, g, b) {
        brownishPixels := brownishPixels + 1;
      }
      i := i + 3;
    }
    score := HeuristicScore(brightness, colorVariation, brownishPixels);
  }

  /** The quality word of the heuristic details agrees with the heuristic
      recommendation. */
  function QualityWord(freshness: int): (r: string)
    ensures r == "good" <==> HeuristicRecommend(freshness) == Buy
    ensures r == "fair" <==> HeuristicRecommend(freshness) == Check
    ensures r == "poor" <==> HeuristicRecommend(freshness) == Avoid
  {
    if freshness >= 70 then "good" else if freshness >= 45 then "fair" else "poor"
  }

  const HeuristicDetails: string :=
    " analyzed using enhanced image processing. Estimated freshness based on color and texture analysis. "

  /** `analyzeWithEnhancedHeuristics` once the score is known: confidence 75. */
  function HeuristicAnalysis(fruitType: string, freshness: int, timestamp: string, analysisId: string): (r: LocalAnalysis)
    ensures r.item == fruitType && r.freshness == freshness && r.confidence == 75
    ensures r.recommendation == HeuristicRecommend(freshness)
    ensures r.characteristics == DefaultCharacteristics(freshness)
    ensures Text.StartsWith(r.details, fruitType)
  {
    var c := DefaultCharacteristics(freshness);
    var details := fruitType + HeuristicDetails + c.color + " appearance suggests " + QualityWord(freshness) + " quality.";
    assert details[..|fruitType|] == fruitType;
    LocalAnalysis(fruitType, freshness, HeuristicRecommend(freshness), details, 75, c, timestamp, analysisId)
  }

  /** `analyzeWithAccurateModel` for an output of `permille` thousandths; the
      colour cue is `None` when the characteristics analysis failed. */
  function ModelAnalysis(fruitType: string, permille: int, cue: Option<ColorCue>,
                         timestamp: string, analysisId: string): (r: LocalAnalysis)
    requires 0 <= permille <= 1000
    ensures r.freshness == ModelFreshness(permille) && r.recommendation == ModelRecommend(r.freshness)
    ensures 50 <= r.confidence <= 100
    ensures cue.None? ==> r.characteristics == DefaultCharacteristics(r.freshness)
    ensures cue.Some? ==> r.characteristics == CharacteristicsFromAnalysis(r.freshness, cue.value)
    ensures Text.Contains(r.details, fruitType)
  {
    var freshness := ModelFreshness(permille);
    var confidence := Confidence(permille);
    var c := match cue
             case None => DefaultCharacteristics(freshness)
             case Some(k) => CharacteristicsFromAnalysis(freshness, k);
    ConfidencePercentAtLeastHalf(permille);
    LocalAnalysis(fruitType, freshness, ModelRecommend(freshness), AccurateDetails(fruitType, freshness, c, confidence),
                  RoundDiv(confidence, 10), c, timestamp, analysisId)
  }

  /** `getFallbackAnalysis`: 50, check, confidence 40. */
  const FallbackDetails: string :=
    "Unable to perform detailed analysis. Please manually inspect the item for freshness indicators such as color, texture, and any signs of spoilage."

  function FallbackAnalysis(nowDigits: string, timestamp: string): (r: LocalAnalysis)
    ensures r.freshness == 50 && r.recommendation == Check && r.confidence == 40
    ensures r.recommendation == ModelRecommend(r.freshness)
    ensures r.analysisId == "fallback_" + nowDigits
  {
    LocalAnalysis("Produce Item", 50, Check,
                  FallbackDetails,
                  40, Characteristics("Unable to determine", "Unable to determine", "Check manually", "Inspect visually"),
                  timestamp, "fallback_" + nowDigits)
  }

  /** What the model path produced: the sigmoid output and the colour cue, or an
      exception while decoding or predicting. */
  datatype ModelOutcome = Predicted(permille: int, cue: Option<ColorCue>) | PredictionFailed

  class AccurateFruitAnalyzer {
    var isModelLoaded: bool

    constructor ()
      ensures !isModelLoaded
    {
      isModelLoaded := false;
    }

    method InitializeModel(loaded: bool)
      modifies this
      ensures isModelLoaded == loaded
    {
      isModelLoaded := loaded;
    }

    /** `analyzeImage`. `fruitType` is what `identifyFruitType` returned ("Produce
        Item" when it failed); `pixels` is the 100 x 100 resize for the heuristic. */
    method AnalyzeImage(model: ModelOutcome, fruitType: string, pixels: Option<seq<int>>,
                        nowDigits: string, suffix: string, timestamp: string) returns (r: LocalAnalysis)
      requires model.Predicted? ==> 0 <= model.permille <= 1000
      requires pixels.Some? ==> |pixels.value| % 3 == 0
      ensures isModelLoaded && model.PredictionFailed? ==> r == FallbackAnalysis(nowDigits, timestamp)
      ensures isModelLoaded && model.Predicted? ==>
                r == ModelAnalysis(fruitType, model.permille, model.cue, timestamp, "accurate_model_" + nowDigits + "_" + suffix)
      ensures !isModelLoaded ==>
                r.recommendation == HeuristicRecommend(r.freshness) && 15 <= r.freshness <= 95
                && r.analysisId == "enhanced_heuristic_" + nowDigits + "_" + suffix
      ensures !isModelLoaded && pixels.Some? ==>
                var data := pixels.value;
                r == HeuristicAnalysis(fruitType, HeuristicScore(BrightnessSum(data, |data| / 3),
                                                                 VariationSum(data, |data| / 3),
                                                                 BrownCount(data, |data| / 3)),
                                       timestamp, "enhanced_heuristic_" + nowDigits + "_" + suffix)
      ensures !isModelLoaded && pixels.None? ==>
                r == HeuristicAnalysis(fruitType, 60, timestamp, "enhanced_heuristic_" + nowDigits + "_" + suffix)
    {
      if isModelLoaded {
        match model
        case PredictionFailed =>
          r := FallbackAnalysis(nowDigits, timestamp);
        case Predicted(permille, cue) =>
          r := ModelAnalysis(fruitType, permille, cue, timestamp, "accurate_model_" + nowDigits + "_" + suffix);
      } else {
        var score := HeuristicFreshness(pixels);
        r := HeuristicAnalysis(fruitType, score, timestamp, "enhanced_heuristic_" + nowDigits + "_" + suffix);
      }
    }
  }
}
