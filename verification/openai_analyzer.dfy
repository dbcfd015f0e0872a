/** `app/lib/openaiAnalyzer.ts`: the single-image analyzer. The request itself is an
    input; what is modelled is how its reply becomes a result, the fallback, the
    model choice, and the mapping of labelled samples to fine-tuning records. */
module OpenAIAnalyzer {
  import opened Wrappers
  import opened Text
  import Decimal
  import opened AnalysisTypes
  import MFA = MultiFruitAnalyzer

  datatype OpenAIAnalysis = OpenAIAnalysis(
    item: Option<string>, freshness: int, recommendation: Recommendation, details: string,
    confidence: int, characteristics: Characteristics, timestamp: string, analysisId: string,
    allFruits: Option<seq<MFA.RawFruit>>)

  /** What `JSON.parse` made of the reply: its `fruits` property and its own
      top-level fields (the legacy single-fruit format). */
  datatype Reply = ReplyParseFailed | ReplyNull | ReplyObject(fruits: MFA.FruitsField, single: MFA.RawFruit)

  const DataUrlPrefix := "data:image/jpeg;base64,"

  /** The image URL sent with a request: a data URL is kept, anything else is taken
      to be bare base64 JPEG data. */
  function ImageUrl(image: string): (r: string)
    ensures StartsWith(r, "data:image")
    ensures StartsWith(image, "data:image") ==> r == image
    ensures !StartsWith(image, "data:image") ==> r == DataUrlPrefix + image
  {
    if StartsWith(image, "data:image") then image else DataUrlPrefix + image
  }

  /** Normalising a URL twice changes nothing more. */
  lemma ImageUrlIdempotent(image: string)
    ensures ImageUrl(ImageUrl(image)) == ImageUrl(image)
  {
  }

  /** The details text of the fallback result. */
  const FallbackDetails := "Unable to complete analysis with OpenAI. Please check the image quality and try again."

  /** The fixed result returned whenever the analysis cannot be completed. */
  function FallbackAnalysis(now: nat, timestamp: string): (r: OpenAIAnalysis)
    ensures r.freshness == 60 && r.recommendation == Check && r.confidence == 50
    ensures r.item == Some("Unknown Produce") && r.allFruits.None?
    ensures r.analysisId == "fallback_openai_" + Decimal.NatToString(now)
  {
    OpenAIAnalysis(Some("Unknown Produce"), 60, Check,
      FallbackDetails, 50,
      Characteristics("Unable to determine", "Unable to determine", "Unable to assess", "Manual inspection needed"),
      timestamp, "fallback_openai_" + Decimal.NatToString(now), None)
  }

  /** `['buy', 'check', 'avoid'].includes(x) ? x : 'check'`. */
  function Whitelisted(s: Option<string>): (r: Recommendation)
    ensures s.Some? && ParseRecommendation(s.value).Some? ==> r == ParseRecommendation(s.value).value
    ensures s.None? || ParseRecommendation(s.value).None? ==> r == Check
  {
    match s
    case Some(x) => ParseRecommendation(x).GetOr(Check)
    case None => Check
  }

  /** One entry of the multi-fruit summary line. */
  function FruitInfo(fruit: MFA.RawFruit, index: nat): string {
    MFA.OrElse(fruit.item, "Item #" + Decimal.NatToString(index + 1)) + ": "
      + (if fruit.freshness.Some? && fruit.freshness.value != 0 then MFA.IntToString(fruit.freshness.value) else "N/A")
      + "% fresh (" + MFA.OrElse(fruit.recommendation, "check") + ")"
  }

  function FruitsInfo(fruits: seq<MFA.RawFruit>, from: nat): string
    requires from <= |fruits|
    decreases |fruits| - from
  {
    if from == |fruits| then ""
    else (if from == 0 then "" else "; ") + FruitInfo(fruits[from], from) + FruitsInfo(fruits, from + 1)
  }

  /** The result built from a parsed reply (lines 138-193): the multi-fruit branch
      when `fruits` is a non-empty array, the single-fruit format otherwise.
      `stringify` stands for `JSON.stringify` of the fruit array. */
  function ResultOf(data: Reply, stringify: seq<MFA.RawFruit> -> string, id: string, timestamp: string)
    : (r: OpenAIAnalysis)
    requires data.ReplyObject?
    ensures 0 <= r.freshness <= 100 && 0 <= r.confidence <= 100
    ensures r.allFruits.Some? <==> data.fruits.FruitList? && data.fruits.fruits != []
    ensures data.fruits.FruitList? && |data.fruits.fruits| == 1 ==> r.item == data.fruits.fruits[0].item
    ensures data.fruits.FruitList? && |data.fruits.fruits| > 1 ==>
              r.item == Some(Decimal.NatToString(|data.fruits.fruits|) + " items detected")
    ensures r.allFruits.Some? ==> (r.allFruits.value == data.fruits.fruits
      && r.freshness == MFA.Score(data.fruits.fruits[0].freshness, 50)
      && r.confidence == MFA.Score(data.fruits.fruits[0].confidence, 75)
      && r.recommendation == Whitelisted(data.fruits.fruits[0].recommendation)
      && r.characteristics == MFA.NormalizeCharacteristics(data.fruits.fruits[0].characteristics))
    ensures r.allFruits.None? ==> (r.item == Some(MFA.OrElse(data.single.item, "Unknown"))
      && r.freshness == MFA.Score(data.single.freshness, 50)
      && r.confidence == MFA.Score(data.single.confidence, 75)
      && r.recommendation == Whitelisted(data.single.recommendation)
      && r.characteristics == MFA.NormalizeCharacteristics(data.single.characteristics))
  {
    if data.fruits.FruitList? && data.fruits.fruits != [] then
      var fruits := data.fruits.fruits;
      var first := fruits[0];
      OpenAIAnalysis(
        if |fruits| == 1 then first.item else Some(Decimal.NatToString(|fruits|) + " items detected"),
        MFA.Score(first.freshness, 50), Whitelisted(first.recommendation),
        if |fruits| == 1 then MFA.OrElse(first.details, "Analysis completed")
        else "Multiple items: " + FruitsInfo(fruits, 0) + ". Full analysis: " + stringify(fruits),
        MFA.Score(first.confidence, 75), MFA.NormalizeCharacteristics(first.characteristics),
        timestamp, id, Some(fruits))
    else
      var single := data.single;
      OpenAIAnalysis(
        Some(MFA.OrElse(single.item, "Unknown")), MFA.Score(single.freshness, 50),
        Whitelisted(single.recommendation), MFA.OrElse(single.details, "Analysis completed"),
        MFA.Score(single.confidence, 75), MFA.NormalizeCharacteristics(single.characteristics),
        timestamp, id, None)
  }

  const KeyError := "OpenAI API key is invalid or missing"

  /** `analyzeImage` after the request: `reply` is the reply text (empty when the
      model sent none) or the message the request failed with. A failure whose
      message mentions "API key" is rethrown; every other failure, an empty reply
      and unparsable JSON all give the fallback. `now` and `suffix` make up the id. */
  function AnalyzeReply(reply: Result<string, string>, jsonParse: string -> Reply,
                        stringify: seq<MFA.RawFruit> -> string, now: nat, suffix: string, timestamp: string)
    : (r: Result<OpenAIAnalysis, string>)
    ensures r.Failure? <==> reply.Failure? && Contains(reply.error, "API key")
    ensures r.Failure? ==> r.error == KeyError
    ensures reply.Failure? && !Contains(reply.error, "API key") ==> r == Success(FallbackAnalysis(now, timestamp))
    ensures reply.Success? && reply.value == [] ==> r == Success(FallbackAnalysis(now, timestamp))
    ensures reply.Success? && reply.value != [] && jsonParse(MFA.ExtractJson(reply.value)).ReplyObject? ==>
              r == Success(ResultOf(jsonParse(MFA.ExtractJson(reply.value)), stringify,
                                    "openai_" + Decimal.NatToString(now) + "_" + suffix, timestamp))
    ensures reply.Success? && reply.value != [] && !jsonParse(MFA.ExtractJson(reply.value)).ReplyObject? ==>
              r == Success(FallbackAnalysis(now, timestamp))
    ensures r.Success? ==> 0 <= r.value.freshness <= 100 && 0 <= r.value.confidence <= 100
  {
    match reply
    case Failure(message) =>
      if Contains(message, "API key") then Failure(KeyError) else Success(FallbackAnalysis(now, timestamp))
    case Success(content) =>
      if content == [] then Success(FallbackAnalysis(now, timestamp))
      else
        var data := jsonParse(MFA.ExtractJson(content));
        if data.ReplyObject? then
          Success(ResultOf(data, stringify, "openai_" + Decimal.NatToString(now) + "_" + suffix, timestamp))
        else Success(FallbackAnalysis(now, timestamp))
  }

  /** A request to the vision model. */
  datatype VisionRequest = VisionRequest(model: string, url: string)

  class OpenAIFruitAnalyzer {
    /** The fine-tuned model to use instead of the default one; `Some("")` is
        what `setFineTunedModel("")` stores. */
    var fineTunedModelId: Option<string>

    /** The constructor reads `OPENAI_FINETUNED_MODEL_ID`, empty when unset. */
    constructor (envModelId: string)
      ensures fineTunedModelId == (if envModelId == "" then None else Some(envModelId))
    {
      fineTunedModelId := if envModelId == "" then None else Some(envModelId);
    }

    /** `this.fineTunedModelId || 'gpt-4o'`. */
    function Model(): (m: string)
      reads this
      ensures fineTunedModelId.Some? && fineTunedModelId.value != "" ==> m == fineTunedModelId.value
      ensures fineTunedModelId.None? || fineTunedModelId.value == "" ==> m == "gpt-4o"
    {
      if fineTunedModelId.Some? && fineTunedModelId.value != "" then fineTunedModelId.value else "gpt-4o"
    }

    function Request(image: string): (q: VisionRequest)
      reads this
      ensures q.model == Model() && q.url == ImageUrl(image)
    {
      VisionRequest(Model(), ImageUrl(image))
    }

    method SetFineTunedModel(modelId: string)
      modifies this
      ensures fineTunedModelId == Some(modelId)
      ensures modelId != "" ==> Model() == modelId
    {
      fineTunedModelId := Some(modelId);
    }
  }

  /** Constructing the analyzer fails without an API key. */
  method NewAnalyzer(apiKey: string, envModelId: string) returns (r: Result<OpenAIFruitAnalyzer, string>)
    ensures apiKey == "" ==> r == Failure("OPENAI_API_KEY environment variable is required")
    ensures apiKey != "" ==> (r.Success? && fresh(r.value)
      && r.value.fineTunedModelId == (if envModelId == "" then None else Some(envModelId)))
  {
    if apiKey == "" {
      return Failure("OPENAI_API_KEY environment variable is required");
    }
    var a := new OpenAIFruitAnalyzer(envModelId);
    return Success(a);
  }

  datatype Label = Fresh | Rotten

  function LabelName(l: Label): string {
    match l
    case Fresh => "fresh"
    case Rotten => "rotten"
  }

  datatype TrainingSample = TrainingSample(image: string, quality: Label, item: string, characteristics: Option<Characteristics>)

  /** The assistant answer of a fine-tuning record, before `JSON.stringify`. */
  datatype Answer = Answer(
    item: string, classification: string, freshness: int, recommendation: Recommendation,
    details: string, confidence: int, characteristics: Characteristics)

  datatype TrainingRecord = TrainingRecord(imageUrl: string, answer: Answer)

  /** The record for one labelled sample (lines 219-259). */
  function RecordOf(sample: TrainingSample): (r: TrainingRecord)
    ensures r.imageUrl == ImageUrl(sample.image)
    ensures r.answer.item == sample.item && r.answer.classification == LabelName(sample.quality)
    ensures r.answer.freshness == (if sample.quality == Fresh then 85 else 25)
    ensures r.answer.recommendation == (if sample.quality == Fresh then Buy else Avoid)
    ensures r.answer.confidence == 90
    ensures sample.characteristics.Some? ==> r.answer.characteristics == sample.characteristics.value
    ensures StartsWith(r.answer.details, "This " + Lower(sample.item) + " appears to be ")
  {
    var isFresh := sample.quality == Fresh;
    var details := "This " + Lower(sample.item) + " appears to be " + LabelName(sample.quality) + ". "
      + (if isFresh then "Good quality indicators present." else "Signs of spoilage detected.");
    assert details == ("This " + Lower(sample.item) + " appears to be ")
      + (LabelName(sample.quality) + ". " + (if isFresh then "Good quality indicators present." else "Signs of spoilage detected."));
    TrainingRecord(ImageUrl(sample.image), Answer(
      sample.item, LabelName(sample.quality), if isFresh then 85 else 25, if isFresh then Buy else Avoid,
      details, 90,
      match sample.characteristics
      case Some(c) => c
      case None =>
        if isFresh then Characteristics("Vibrant and natural", "Firm and proper", "None or minimal", "Optimal")
        else Characteristics("Dull or discolored", "Soft or deteriorated", "Visible spoilage", "Overripe or spoiled")))
  }

  /** One record per sample, in order. */
  function FineTuningData(samples: seq<TrainingSample>): (r: seq<TrainingRecord>)
    ensures |r| == |samples| && forall i :: 0 <= i < |r| ==> r[i] == RecordOf(samples[i])
  {
    seq(|samples|, i requires 0 <= i < |samples| => RecordOf(samples[i]))
  }

  /** The answer's score agrees with its recommendation under the 75/50 thresholds
      used by the local analyzers. */
  lemma RecordScoreMatchesRecommendation(sample: TrainingSample)
    ensures RecordOf(sample).answer.freshness >= 75 <==> RecordOf(sample).answer.recommendation == Buy
    ensures RecordOf(sample).answer.freshness < 50 <==> RecordOf(sample).answer.recommendation == Avoid
  {
  }

  /** The name `createFineTuningDataset` returns. */
  function TrainingFileName(now: nat): (r: string)
    ensures StartsWith(r, "training_data_")
  {
    "training_data_" + Decimal.NatToString(now) + ".jsonl"
  }
}
