/** The shapes shared by the analysers and the screens: the buy/check/avoid
    recommendation, the four characteristic descriptions and a bounding box. */
module AnalysisTypes {
  import opened Wrappers

  datatype Recommendation = Buy | Check | Avoid

  /** The recommendation spelled as in the JSON the analysers produce. */
  function RecommendationName(r: Recommendation): string {
    match r
    case Buy => "buy"
    case Check => "check"
    case Avoid => "avoid"
  }

  /** Parses a recommendation string; anything but the three names is rejected. */
  function ParseRecommendation(s: string): (r: Option<Recommendation>)
    ensures r.Some? ==> RecommendationName(r.value) == s
    ensures r.None? ==> s !in {"buy", "check", "avoid"}
  {
    if s == "buy" then Some(Buy)
    else if s == "check" then Some(Check)
    else if s == "avoid" then Some(Avoid)
    else None
  }

  lemma ParseRecommendationName(r: Recommendation)
    ensures ParseRecommendation(RecommendationName(r)) == Some(r)
  {
  }

  /** Orders the recommendations from worst to best. */
  function Rank(r: Recommendation): nat {
    match r
    case Avoid => 0
    case Check => 1
    case Buy => 2
  }

  /** The three-tier rule every analyser applies to a freshness score: buy from
      `buyFrom` up, check from `checkFrom` up, avoid below. */
  function RecommendationFor(freshness: int, buyFrom: int, checkFrom: int): (r: Recommendation)
    requires checkFrom <= buyFrom
    ensures r == Buy <==> freshness >= buyFrom
    ensures r == Check <==> checkFrom <= freshness < buyFrom
    ensures r == Avoid <==> freshness < checkFrom
  {
    if freshness >= buyFrom then Buy else if freshness >= checkFrom then Check else Avoid
  }

  /** A fresher item never gets a worse recommendation. */
  lemma RecommendationMonotone(a: int, b: int, buyFrom: int, checkFrom: int)
    requires checkFrom <= buyFrom && a <= b
    ensures Rank(RecommendationFor(a, buyFrom, checkFrom)) <= Rank(RecommendationFor(b, buyFrom, checkFrom))
  {
  }

  /** Colour, texture, blemishes and ripeness, as free text. */
  datatype Characteristics = Characteristics(color: string, texture: string, blemishes: string, ripeness: string)

  /** A bounding box in percent of the frame. */
  datatype Position = Position(x: int, y: int, width: int, height: int)

  /** The result object of the on-device analysers. */
  datatype LocalAnalysis = LocalAnalysis(item: string, freshness: int, recommendation: Recommendation,
                                         details: string, confidence: int, characteristics: Characteristics,
                                         timestamp: string, analysisId: string)
}
