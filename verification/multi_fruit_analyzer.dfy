/** The post-processing of a batch analysis in `app/lib/multiFruitAnalyzer.ts`
    (`analyzeBatch`): extracting the JSON from the model's reply, normalising each
    detected fruit, and the batch summary. */
module MultiFruitAnalyzer {
  import opened Wrappers
  import opened Text
  import opened Arith
  import Decimal
  import opened AnalysisTypes

  /** The characteristics object of a reply; a missing or empty field is `None`. */
  datatype RawCharacteristics = RawCharacteristics(
    color: Option<string>, texture: Option<string>, blemishes: Option<string>, ripeness: Option<string>)

  /** One element of the reply's `fruits` array. Numeric fields are given as the
      value `parseInt` yields, `None` standing for NaN; a missing field is `None`. */
  datatype RawFruit = RawFruit(
    item: Option<string>, freshness: Option<int>, recommendation: Option<string>,
    details: Option<string>, confidence: Option<int>,
    characteristics: Option<RawCharacteristics>, position: Option<Position>,
    storageRecommendation: Option<string>, daysRemaining: Option<int>)

  /** The reply's `fruits` property. */
  datatype FruitsField = Absent | FruitList(fruits: seq<RawFruit>) | NotAList

  /** What `JSON.parse` made of the extracted text. */
  datatype Parsed = ParseFailed | ParsedNull | ParsedValue(fruits: FruitsField)

  datatype FruitAnalysis = FruitAnalysis(
    item: string, freshness: int, recommendation: Recommendation, details: string,
    confidence: int, characteristics: Characteristics, position: Position,
    storageRecommendation: string, daysRemaining: int)

  datatype BatchResult = BatchResult(
    totalFruits: nat, analyzedFruits: seq<FruitAnalysis>,
    bestFruit: Option<FruitAnalysis>, worstFruit: Option<FruitAnalysis>,
    averageFreshness: int, shoppingRecommendation: string, analysisId: string, timestamp: string)

  /** Why the batch analysis fails: no API key, a failed request, an empty reply, text
      that is not JSON, a `null` reply, or a `fruits` property without `map`. */
  datatype BatchError =
    | ApiKeyMissing | RequestFailed(message: string) | NoResponse | InvalidResponseFormat
    | NullReply | FruitsNotAList

  /** The message of the rethrown error; the engine's own wording of a `TypeError`
      is not modelled, so those two carry only the prefix. */
  function ErrorMessage(e: BatchError): (m: string)
    ensures StartsWith(m, "Batch analysis failed: ")
  {
    "Batch analysis failed: " +
      match e
      case ApiKeyMissing => "OpenAI API key not configured"
      case RequestFailed(message) => message
      case NoResponse => "No response from OpenAI"
      case InvalidResponseFormat => "Invalid response format from AI"
      case NullReply => ""
      case FruitsNotAList => ""
  }

  /** The text between an opening fence and the first closing `\n```` after it,
      when there is one: the capture group of the lazy pattern's leftmost match. */
  function FencedBlock(content: string, opening: string): (r: Option<string>)
    ensures r.None? <==> !exists p, q :: OccursAt(content, opening, p) && p + |opening| <= q
                                        && OccursAt(content, "\n```", q)
    ensures r.Some? ==> exists p, q :: FirstFence(content, opening, p, q) && r.value == content[p + |opening|..q]
  {
    FencedBlockFirst(content, opening);
    match IndexOf(content, opening, 0)
    case None => None
    case Some(p) =>
      match IndexOf(content, "\n```", p + |opening|)
      case None => None
      case Some(q) => Some(content[p + |opening|..q])
  }

  /** `p` is the first occurrence of `opening` and `q` the first closing fence
      after it. */
  predicate FirstFence(content: string, opening: string, p: int, q: int) {
    OccursAt(content, opening, p) && (forall j :: 0 <= j < p ==> !OccursAt(content, opening, j))
    && p + |opening| <= q && OccursAt(content, "\n```", q)
    && (forall j :: p + |opening| <= j < q ==> !OccursAt(content, "\n```", j))
  }

  /** The two searches find a fenced pair exactly when one exists, and then the
      first opening with the first close after it. */
  lemma FencedBlockFirst(content: string, opening: string)
    ensures var first := IndexOf(content, opening, 0);
            var close := if first.Some? then IndexOf(content, "\n```", first.value + |opening|) else None;
            (close.Some? <==> exists p, q :: OccursAt(content, opening, p) && p + |opening| <= q
                                            && OccursAt(content, "\n```", q))
            && (close.Some? ==> FirstFence(content, opening, first.value, close.value))
  {
    var first := IndexOf(content, opening, 0);
    if first.Some? {
      var close := IndexOf(content, "\n```", first.value + |opening|);
      if close.Some? {
        assert OccursAt(content, opening, first.value) && OccursAt(content, "\n```", close.value);
      }
    }
  }

  /** The JSON text of the reply: the ```json block, else the plain ``` block, else
      the whole content. */
  function ExtractJson(content: string): (r: string)
    ensures FencedBlock(content, "```json\n").Some? ==> r == FencedBlock(content, "```json\n").value
    ensures FencedBlock(content, "```json\n").None? && FencedBlock(content, "```\n").Some? ==>
              r == FencedBlock(content, "```\n").value
    ensures FencedBlock(content, "```json\n").None? && FencedBlock(content, "```\n").None? ==> r == content
  {
    match FencedBlock(content, "```json\n")
    case Some(s) => s
    case None =>
      match FencedBlock(content, "```\n")
      case Some(s) => s
      case None => content
  }

  /** Unfenced content is parsed as it is. */
  lemma ExtractJsonUnfenced(content: string)
    requires !Contains(content, "```")
    ensures ExtractJson(content) == content
  {
    if FencedBlock(content, "```json\n").Some? {
      var p := IndexOf(content, "```json\n", 0).value;
      assert content[p..p + 3] == content[p..p + 8][..3];
      assert OccursAt(content, "```", p);
    } else if FencedBlock(content, "```\n").Some? {
      var p := IndexOf(content, "```\n", 0).value;
      assert content[p..p + 3] == content[p..p + 4][..3];
      assert OccursAt(content, "```", p);
    }
  }

  /** `Math.max(0, Math.min(100, parseInt(x) || fallback))`: NaN and 0 are falsy. */
  function Score(parsed: Option<int>, fallback: int): (r: int)
    requires 0 <= fallback <= 100
    ensures 0 <= r <= 100
    ensures parsed.None? || parsed == Some(0) ==> r == fallback
    ensures parsed.Some? && 0 < parsed.value <= 100 ==> r == parsed.value
    ensures parsed.Some? && parsed.value > 100 ==> r == 100
    ensures parsed.Some? && parsed.value < 0 ==> r == 0
  {
    Clamp(0, 100, if parsed.Some? && parsed.value != 0 then parsed.value else fallback)
  }

  /** `s || fallback` for an optional string. */
  function OrElse(s: Option<string>, fallback: string): (r: string)
    ensures s.Some? && s.value != "" ==> r == s.value
    ensures s.None? || s.value == "" ==> r == fallback
    ensures fallback != "" ==> r != ""
  {
    if s.Some? && s.value != "" then s.value else fallback
  }

  /** The characteristics with each missing or empty field defaulted. */
  function NormalizeCharacteristics(c: Option<RawCharacteristics>): (r: Characteristics)
    ensures c.None? ==> r == Characteristics("Natural", "Standard", "None visible", "Good")
    ensures c.Some? && c.value.color.Some? && c.value.color.value != "" ==> r.color == c.value.color.value
    ensures c.Some? && c.value.texture.Some? && c.value.texture.value != "" ==> r.texture == c.value.texture.value
    ensures c.Some? && c.value.blemishes.Some? && c.value.blemishes.value != "" ==>
              r.blemishes == c.value.blemishes.value
    ensures c.Some? && c.value.ripeness.Some? && c.value.ripeness.value != "" ==>
              r.ripeness == c.value.ripeness.value
    ensures r.color != "" && r.texture != "" && r.blemishes != "" && r.ripeness != ""
  {
    var raw := c.GetOr(RawCharacteristics(None, None, None, None));
    Characteristics(
      OrElse(raw.color, "Natural"), OrElse(raw.texture, "Standard"),
      OrElse(raw.blemishes, "None visible"), OrElse(raw.ripeness, "Good"))
  }

  /** The grid slot of the `index`-th fruit when the reply gives no position:
      four columns 20 apart, rows 25 apart. */
  function DefaultPosition(index: nat): (p: Position)
    ensures p.x == 15 + (index % 4) * 20 && p.y == 15 + (index / 4) * 25
    ensures p.width == 12 && p.height == 15
    ensures 15 <= p.x <= 75 && p.y >= 15
  {
    Position(15 + (index % 4) * 20, 15 + (index / 4) * 25, 12, 15)
  }

  /** Different indices get different slots. */
  lemma DefaultPositionsDistinct(i: nat, j: nat)
    requires i != j
    ensures DefaultPosition(i) != DefaultPosition(j)
  {
  }

  /** The normalisation of one fruit (`analysisData.fruits.map`, lines 154-183). */
  function NormalizeFruit(fruit: RawFruit, index: nat): (r: FruitAnalysis)
    ensures 0 <= r.freshness <= 100 && 0 <= r.confidence <= 100
    ensures fruit.freshness.None? || fruit.freshness == Some(0) ==> r.freshness == 50
    ensures fruit.freshness.Some? && fruit.freshness.value != 0 ==>
              r.freshness == Clamp(0, 100, fruit.freshness.value)
    ensures fruit.confidence.None? || fruit.confidence == Some(0) ==> r.confidence == 75
    ensures fruit.confidence.Some? && fruit.confidence.value != 0 ==>
              r.confidence == Clamp(0, 100, fruit.confidence.value)
    ensures fruit.recommendation.Some? && ParseRecommendation(fruit.recommendation.value).Some? ==>
              r.recommendation == ParseRecommendation(fruit.recommendation.value).value
    ensures fruit.recommendation.None? || ParseRecommendation(fruit.recommendation.value).None? ==>
              r.recommendation == Check
    ensures fruit.position.None? ==> r.position == DefaultPosition(index)
    ensures fruit.position.Some? ==> r.position == fruit.position.value
    ensures fruit.daysRemaining.None? || fruit.daysRemaining == Some(0) ==> r.daysRemaining == 7
    ensures fruit.daysRemaining.Some? && fruit.daysRemaining.value != 0 ==> r.daysRemaining == fruit.daysRemaining.value
    ensures fruit.storageRecommendation.None? || fruit.storageRecommendation == Some("") ==>
              r.storageRecommendation == "Store in cool, dry place"
    ensures fruit.storageRecommendation.Some? && fruit.storageRecommendation.value != "" ==>
              r.storageRecommendation == fruit.storageRecommendation.value
    ensures fruit.item.None? || fruit.item == Some("") ==> r.item == "Unknown Fruit"
    ensures fruit.item.Some? && fruit.item.value != "" ==> r.item == fruit.item.value
    ensures fruit.details.None? || fruit.details == Some("") ==> r.details == "Analysis completed"
    ensures fruit.details.Some? && fruit.details.value != "" ==> r.details == fruit.details.value
    ensures r.characteristics == NormalizeCharacteristics(fruit.characteristics)
  {
    FruitAnalysis(
      OrElse(fruit.item, "Unknown Fruit"),
      Score(fruit.freshness, 50),
      match fruit.recommendation
        case Some(s) => ParseRecommendation(s).GetOr(Check)
        case None => Check,
      OrElse(fruit.details, "Analysis completed"),
      Score(fruit.confidence, 75),
      NormalizeCharacteristics(fruit.characteristics),
      fruit.position.GetOr(DefaultPosition(index)),
      OrElse(fruit.storageRecommendation, "Store in cool, dry place"),
      if fruit.daysRemaining.Some? && fruit.daysRemaining.value != 0 then fruit.daysRemaining.value else 7)
  }

  function NormalizeAll(fruits: seq<RawFruit>): (r: seq<FruitAnalysis>)
    ensures |r| == |fruits|
    ensures forall i :: 0 <= i < |r| ==> r[i] == NormalizeFruit(fruits[i], i)
  {
    seq(|fruits|, i requires 0 <= i < |fruits| => NormalizeFruit(fruits[i], i))
  }

  function Freshnesses(fruits: seq<FruitAnalysis>): (r: seq<int>)
    ensures |r| == |fruits| && forall i :: 0 <= i < |r| ==> r[i] == fruits[i].freshness
  {
    seq(|fruits|, i requires 0 <= i < |fruits| => fruits[i].freshness)
  }

  /** The half-up rounded mean freshness, 0 for no fruit. */
  function AverageFreshness(fruits: seq<FruitAnalysis>): (r: int)
    ensures fruits == [] ==> r == 0
    ensures fruits != [] ==>
              2 * |fruits| * r - |fruits| <= 2 * Sum(Freshnesses(fruits)) < 2 * |fruits| * r + |fruits|
  {
    if |fruits| > 0 then RoundDiv(Sum(Freshnesses(fruits)), |fruits|) else 0
  }

  /** Scores in [0, 100] average to a value in [0, 100]. */
  lemma AverageFreshnessInRange(fruits: seq<FruitAnalysis>)
    requires forall i :: 0 <= i < |fruits| ==> 0 <= fruits[i].freshness <= 100
    ensures 0 <= AverageFreshness(fruits) <= 100
  {
    if fruits != [] {
      SumBounds(Freshnesses(fruits), 0, 100);
      RoundDivBetween(Sum(Freshnesses(fruits)), |fruits|, 0, 100);
    }
  }

  /** `reduce((best, current) => current.freshness > best.freshness ? current : best)`
      from index `i` with the running choice `best`, as an index. */
  function BestFrom(fruits: seq<FruitAnalysis>, i: nat, best: nat): (r: nat)
    requires best < |fruits| && i <= |fruits|
    ensures r < |fruits|
    decreases |fruits| - i
  {
    if i == |fruits| then best
    else BestFrom(fruits, i + 1, if fruits[i].freshness > fruits[best].freshness then i else best)
  }

  function WorstFrom(fruits: seq<FruitAnalysis>, i: nat, worst: nat): (r: nat)
    requires worst < |fruits| && i <= |fruits|
    ensures r < |fruits|
    decreases |fruits| - i
  {
    if i == |fruits| then worst
    else WorstFrom(fruits, i + 1, if fruits[i].freshness < fruits[worst].freshness then i else worst)
  }

  /** The reduction keeps the first index of maximal freshness among those seen. */
  lemma {:induction false} BestFromIsFirstMax(fruits: seq<FruitAnalysis>, i: nat, best: nat)
    requires best < |fruits| && best <= i <= |fruits|
    requires forall j :: 0 <= j < i ==> fruits[j].freshness <= fruits[best].freshness
    requires forall j :: 0 <= j < best ==> fruits[j].freshness < fruits[best].freshness
    ensures var r := BestFrom(fruits, i, best);
            (forall j :: 0 <= j < |fruits| ==> fruits[j].freshness <= fruits[r].freshness)
            && (forall j :: 0 <= j < r ==> fruits[j].freshness < fruits[r].freshness)
    decreases |fruits| - i
  {
    if i < |fruits| {
      BestFromIsFirstMax(fruits, i + 1, if fruits[i].freshness > fruits[best].freshness then i else best);
    }
  }

  lemma {:induction false} WorstFromIsFirstMin(fruits: seq<FruitAnalysis>, i: nat, worst: nat)
    requires worst < |fruits| && worst <= i <= |fruits|
    requires forall j :: 0 <= j < i ==> fruits[j].freshness >= fruits[worst].freshness
    requires forall j :: 0 <= j < worst ==> fruits[j].freshness > fruits[worst].freshness
    ensures var r := WorstFrom(fruits, i, worst);
            (forall j :: 0 <= j < |fruits| ==> fruits[j].freshness >= fruits[r].freshness)
            && (forall j :: 0 <= j < r ==> fruits[j].freshness > fruits[r].freshness)
    decreases |fruits| - i
  {
    if i < |fruits| {
      WorstFromIsFirstMin(fruits, i + 1, if fruits[i].freshness < fruits[worst].freshness then i else worst);
    }
  }

  /** `bestFruit`: the first fruit of maximal freshness, undefined for none. */
  function BestFruit(fruits: seq<FruitAnalysis>): (r: Option<nat>)
    ensures fruits == [] <==> r.None?
    ensures r.Some? ==> (r.value < |fruits|
      && (forall j :: 0 <= j < |fruits| ==> fruits[j].freshness <= fruits[r.value].freshness)
      && (forall j :: 0 <= j < r.value ==> fruits[j].freshness < fruits[r.value].freshness))
  {
    if fruits == [] then None
    else
      BestFromIsFirstMax(fruits, 0, 0);
      Some(BestFrom(fruits, 0, 0))
  }

  /** `worstFruit`: the first fruit of minimal freshness, undefined for none. */
  function WorstFruit(fruits: seq<FruitAnalysis>): (r: Option<nat>)
    ensures fruits == [] <==> r.None?
    ensures r.Some? ==> (r.value < |fruits|
      && (forall j :: 0 <= j < |fruits| ==> fruits[j].freshness >= fruits[r.value].freshness)
      && (forall j :: 0 <= j < r.value ==> fruits[j].freshness > fruits[r.value].freshness))
  {
    if fruits == [] then None
    else
      WorstFromIsFirstMin(fruits, 0, 0);
      Some(WorstFrom(fruits, 0, 0))
  }

  function At(fruits: seq<FruitAnalysis>, i: Option<nat>): Option<FruitAnalysis>
    requires i.Some? ==> i.value < |fruits|
  {
    match i
    case None => None
    case Some(k) => Some(fruits[k])
  }

  /** The summary built from the normalised fruits (lines 186-206); `now` and
      `timestamp` stand for `Date.now()` and the ISO time. */
  function Summarize(fruits: seq<FruitAnalysis>, now: nat, timestamp: string): (r: BatchResult)
    ensures r.totalFruits == |fruits| && r.analyzedFruits == fruits
    ensures r.averageFreshness == AverageFreshness(fruits)
    ensures r.bestFruit == At(fruits, BestFruit(fruits)) && r.worstFruit == At(fruits, WorstFruit(fruits))
    ensures r.analysisId == "batch-" + Decimal.NatToString(now)
  {
    var avg := AverageFreshness(fruits);
    BatchResult(|fruits|, fruits, At(fruits, BestFruit(fruits)), At(fruits, WorstFruit(fruits)), avg,
      "Found " + Decimal.NatToString(|fruits|) + " items with " + IntToString(avg)
        + SummaryClose,
      "batch-" + Decimal.NatToString(now), timestamp)
  }

  /** The fixed tail of the summary sentence. */
  const SummaryClose := "% average freshness. Prioritize items with higher freshness scores."

  function IntToString(n: int): string {
    if n < 0 then "-" + Decimal.NatToString(-n) else Decimal.NatToString(n)
  }

  /** Lines 137-206 of `analyzeBatch`: the reply `content` (empty when the model sent
      none), the JSON parser as a parameter, and the clock values. */
  function ProcessBatchReply(content: string, jsonParse: string -> Parsed, now: nat, timestamp: string)
    : (r: Result<BatchResult, BatchError>)
    ensures content == [] ==> r == Failure(NoResponse)
    ensures r.Success? ==> 0 <= r.value.averageFreshness <= 100
    ensures r.Success? ==> forall i :: 0 <= i < |r.value.analyzedFruits| ==>
              0 <= r.value.analyzedFruits[i].freshness <= 100
    ensures content != [] && jsonParse(ExtractJson(content)).ParsedValue?
            && jsonParse(ExtractJson(content)).fruits.Absent? ==>
              r.Success? && r.value.totalFruits == 0 && r.value.averageFreshness == 0
              && r.value.bestFruit.None? && r.value.worstFruit.None?
    ensures content != [] && jsonParse(ExtractJson(content)).ParseFailed? ==> r == Failure(InvalidResponseFormat)
    ensures content != [] && jsonParse(ExtractJson(content)).ParsedNull? ==> r == Failure(NullReply)
    ensures content != [] && jsonParse(ExtractJson(content)).ParsedValue?
            && jsonParse(ExtractJson(content)).fruits.NotAList? ==>
              r == Failure(FruitsNotAList)
    ensures content != [] && jsonParse(ExtractJson(content)).ParsedValue?
            && jsonParse(ExtractJson(content)).fruits.FruitList? ==>
              r == Success(Summarize(NormalizeAll(jsonParse(ExtractJson(content)).fruits.fruits), now, timestamp))
  {
    if content == [] then Failure(NoResponse)
    else
      match jsonParse(ExtractJson(content))
      case ParseFailed => Failure(InvalidResponseFormat)
      case ParsedNull => Failure(NullReply)
      case ParsedValue(field) =>
        match field
        case NotAList => Failure(FruitsNotAList)
        case Absent => Success(Summarize([], now, timestamp))
        case FruitList(raw) =>
          var fruits := NormalizeAll(raw);
          AverageFreshnessInRange(fruits);
          Success(Summarize(fruits, now, timestamp))
  }

  /** The whole of `analyzeBatch`: the API key (empty when unset), and the outcome of
      the request, either its reply text or the message it failed with. */
  function AnalyzeBatch(apiKey: string, reply: Result<string, string>, jsonParse: string -> Parsed,
                        now: nat, timestamp: string): (r: Result<BatchResult, BatchError>)
    ensures apiKey == [] ==> r == Failure(ApiKeyMissing)
    ensures apiKey != [] && reply.Failure? ==> r == Failure(RequestFailed(reply.error))
    ensures apiKey != [] && reply.Success? ==> r == ProcessBatchReply(reply.value, jsonParse, now, timestamp)
  {
    if apiKey == [] then Failure(ApiKeyMissing)
    else match reply
      case Failure(message) => Failure(RequestFailed(message))
      case Success(content) => ProcessBatchReply(content, jsonParse, now, timestamp)
  }
}
