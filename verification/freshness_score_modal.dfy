/** The score tiers of `app/components/FreshnessScoreModal.tsx`. */
module FreshnessScoreModal {
  import opened Arith

  datatype Level = VeryGood | Good | NeedsAttention

  /** `getFreshnessLevel`. */
  function FreshnessLevel(score: int): (r: Level)
    ensures r == VeryGood <==> score >= 80
    ensures r == Good <==> 60 <= score < 80
    ensures r == NeedsAttention <==> score < 60
  {
    if score >= 80 then VeryGood else if score >= 60 then Good else NeedsAttention
  }

  function LevelName(l: Level): string {
    match l
    case VeryGood => "Very Good!"
    case Good => "Good"
    case NeedsAttention => "Needs Attention"
  }

  /** A higher score never gives a worse level. */
  lemma FreshnessLevelMonotone(a: int, b: int)
    requires a <= b
    ensures FreshnessLevel(a) == VeryGood ==> FreshnessLevel(b) == VeryGood
    ensures FreshnessLevel(b) == NeedsAttention ==> FreshnessLevel(a) == NeedsAttention
  {
  }

  /** `processedScore`: `Math.min(10, Math.max(0, Math.round((100 - f) / 10)))`,
      the half-up rounding done exactly on the integer score. */
  function ProcessedScore(freshness: int): (r: int)
    ensures 0 <= r <= 10
    ensures 0 <= freshness <= 100 ==> r == RoundDiv(100 - freshness, 10)
  {
    assert 0 <= freshness <= 100 ==> 0 <= RoundDiv(100 - freshness, 10) <= 10 by {
      if 0 <= freshness <= 100 {
        RoundDivBetween(100 - freshness, 10, 0, 10);
      }
    }
    Min(10, Max(0, RoundDiv(100 - freshness, 10)))
  }

  /** The processed score never rises as freshness rises. */
  lemma ProcessedScoreMonotone(a: int, b: int)
    requires a <= b
    ensures ProcessedScore(b) <= ProcessedScore(a)
  {
    RoundDivMonotone(100 - b, 100 - a, 10);
  }

  /** The tier edges: 96 and above give 0, 95 rounds half up to 1, 5 and below
      give 10. */
  lemma ProcessedScoreEdges(f: int)
    ensures f >= 96 ==> ProcessedScore(f) == 0
    ensures f == 95 ==> ProcessedScore(f) == 1
    ensures f <= 5 ==> ProcessedScore(f) == 10
  {
    if f >= 96 {
      RoundDivMonotone(100 - f, 4, 10);
    } else if f <= 5 {
      RoundDivMonotone(95, 100 - f, 10);
    }
  }
}
