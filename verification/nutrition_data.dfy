/** `getProduceData` of `app/lib/nutritionData.ts`: which record of the produce table
    a free-text item name selects. The records' nutrition figures are not modelled;
    a lookup names the key whose record is returned, or the default record. */
module NutritionData {
  import opened Wrappers
  import opened Text

  /** The keys of `produceData`, in declaration order. */
  const ProduceKeys: seq<string> :=
    ["apple", "banana", "orange", "strawberry", "avocado", "tomato", "lettuce", "broccoli"]

  /** The record returned: the one stored under a key, or the built-in default,
      whose recipe list is empty. */
  datatype Produce = Known(key: string) | Default

  function DefaultRecipes(): (r: seq<string>)
    ensures |r| == 0
  {
    []
  }

  /** `item.toLowerCase().trim()`. */
  function Normalize(item: string): (r: string)
    ensures r == Trim(Lower(item))
    ensures Lower(r) == r
  {
    LowerTrim(Lower(item));
    LowerIdempotent(item);
    Trim(Lower(item))
  }

  lemma NormalizeIdempotent(item: string)
    ensures Normalize(Normalize(item)) == Normalize(item)
  {
    calc {
      Normalize(Normalize(item));
      Trim(Lower(Trim(Lower(item))));
      { LowerTrim(Lower(item)); }
      Trim(Trim(Lower(Lower(item))));
      { LowerIdempotent(item); }
      Trim(Trim(Lower(item)));
      { TrimIdempotent(Lower(item)); }
      Trim(Lower(item));
    }
  }

  /** Either string contains the other. */
  predicate PartiallyMatches(item: string, key: string) {
    Contains(item, key) || Contains(key, item)
  }

  /** The first key from index `from` on that partially matches `item`. */
  function FirstPartial(item: string, from: nat): (r: Option<nat>)
    requires from <= |ProduceKeys|
    ensures r.Some? ==> from <= r.value < |ProduceKeys| && PartiallyMatches(item, ProduceKeys[r.value])
    ensures r.Some? ==> forall j :: from <= j < r.value ==> !PartiallyMatches(item, ProduceKeys[j])
    ensures r.None? ==> forall j :: from <= j < |ProduceKeys| ==> !PartiallyMatches(item, ProduceKeys[j])
    decreases |ProduceKeys| - from
  {
    if from == |ProduceKeys| then None
    else if PartiallyMatches(item, ProduceKeys[from]) then Some(from)
    else FirstPartial(item, from + 1)
  }

  /** Exact match on the normalised name, then the first partial match in
      declaration order, then the default record; never null. */
  function GetProduceData(item: string): (r: Produce)
    ensures Normalize(item) in ProduceKeys ==> r == Known(Normalize(item))
    ensures Normalize(item) !in ProduceKeys ==>
              (r.Known? <==> exists j :: 0 <= j < |ProduceKeys| && PartiallyMatches(Normalize(item), ProduceKeys[j]))
    ensures r.Known? && Normalize(item) !in ProduceKeys ==>
              exists j :: (0 <= j < |ProduceKeys| && r.key == ProduceKeys[j]
                           && PartiallyMatches(Normalize(item), ProduceKeys[j])
                           && forall k :: 0 <= k < j ==> !PartiallyMatches(Normalize(item), ProduceKeys[k]))
    ensures r.Known? ==> r.key in ProduceKeys
  {
    var n := Normalize(item);
    if n in ProduceKeys then Known(n)
    else match FirstPartial(n, 0)
      case Some(j) => Known(ProduceKeys[j])
      case None => Default
  }

  /** Case and surrounding whitespace do not matter: looking up the normalised
      name or the lower-cased name selects the same record. */
  lemma GetProduceDataNormalized(item: string)
    ensures GetProduceData(Normalize(item)) == GetProduceData(item)
    ensures GetProduceData(Lower(item)) == GetProduceData(item)
  {
    NormalizeIdempotent(item);
    LowerIdempotent(item);
  }

  /** Every key contains the empty string, so an empty or blank name selects the
      first key, "apple". */
  lemma BlankItemIsApple(item: string)
    requires forall i :: 0 <= i < |item| ==> IsSpace(item[i])
    ensures GetProduceData(item) == Known("apple")
  {
    var n := Normalize(item);
    assert n == [] by {
      forall i | 0 <= i < |item| ensures IsSpace(Lower(item)[i]) {
        LowerCharSpace(item[i]);
      }
      TrimBlank(Lower(item));
    }
    assert forall j :: 0 <= j < |ProduceKeys| ==> |ProduceKeys[j]| > 0;
    ContainsEmpty(ProduceKeys[0]);
    assert FirstPartial(n, 0) == Some(0);
  }

  /** A name containing a key selects a record, never the default. */
  lemma ContainingKeyIsKnown(item: string, j: nat)
    requires j < |ProduceKeys| && Contains(Normalize(item), ProduceKeys[j])
    ensures GetProduceData(item).Known?
  {
  }
}
