/** `GlobalDatasetCollector` of `scripts/collect-global-dataset.py`: generates
    placeholder training records, `target` fresh and `target` rotten per produce
    type, their metadata, and the chat-format fine-tuning samples. Files are
    modelled as the list of (path, content) pairs written, in order; JSON
    serialisation is left out. */
module CollectGlobalDataset {
  import opened Assoc
  import Text
  import Decimal
  import Seqs

  /** The keys of `global_produce`, in declaration order. */
  const Produce: seq<string> := [
    "apple", "banana", "orange", "strawberry", "grape", "lemon",
    "lime", "kiwi", "pear", "peach", "plum", "cherry",
    "watermelon", "pineapple", "mango", "papaya", "avocado", "pomegranate",
    "lychee", "dragonfruit", "durian", "jackfruit", "rambutan", "persimmon",
    "guava", "fig", "apricot", "nectarine", "blackberry", "raspberry",
    "blueberry", "coconut", "passion_fruit", "star_fruit", "kiwano", "tomato",
    "cucumber", "carrot", "potato", "onion", "bell_pepper", "broccoli",
    "cauliflower", "lettuce", "spinach", "cabbage", "eggplant", "zucchini",
    "corn", "peas", "green_beans", "radish", "turnip", "beet",
    "sweet_potato", "ginger", "garlic", "bok_choy", "napa_cabbage", "daikon",
    "lotus_root", "bamboo_shoots", "basil", "cilantro", "parsley", "mint",
    "kale", "arugula"
  ]

  /** The list the fruits/vegetables split tests membership in. */
  const FruitList: seq<string> := [
    "apple", "banana", "orange", "strawberry", "grape", "lemon",
    "lime", "kiwi", "pear", "peach", "plum", "cherry",
    "watermelon", "pineapple", "mango", "papaya", "avocado", "pomegranate",
    "lychee", "dragonfruit", "durian", "jackfruit", "rambutan", "persimmon",
    "guava", "fig", "apricot", "nectarine", "blackberry", "raspberry",
    "blueberry", "coconut", "passion_fruit", "star_fruit", "kiwano"
  ]

  /** The six descriptive fields of a generated sample. */
  datatype Traits = Traits(color: string, texture: string, blemishes: string,
                           ripeness: string, smell: string, firmness: string)

  const FreshTemplates: seq<(string, Traits)> := [
    ("apple", Traits("Vibrant red with natural shine", "Firm and crisp", "None visible",
                     "Perfect eating stage", "Fresh, sweet aroma", "Very firm")),
    ("banana", Traits("Bright yellow with green tips", "Firm but yielding", "None visible",
                      "Perfect ripeness", "Sweet, tropical aroma", "Firm with slight give")),
    ("tomato", Traits("Deep red, uniform", "Smooth, taut skin", "None visible",
                      "Perfectly ripe", "Fresh, earthy aroma", "Firm with slight give"))
  ]

  const RottenTemplates: seq<(string, Traits)> := [
    ("apple", Traits("Brown spots, dull appearance", "Soft, wrinkled skin", "Multiple dark spots",
                     "Overripe, spoiled", "Sour, fermented odor", "Very soft, mushy")),
    ("banana", Traits("Brown/black with spots", "Very soft, leaking", "Large brown areas",
                      "Severely overripe", "Strong, alcoholic odor", "Mushy, collapsing")),
    ("tomato", Traits("Dark patches, moldy areas", "Wrinkled, soft spots", "Mold growth visible",
                      "Spoiled, inedible", "Sour, putrid odor", "Soft, leaking juice"))
  ]

  const GenericFresh := Traits("Natural, vibrant color", "Firm and proper", "None or minimal",
                               "Optimal freshness", "Fresh, natural aroma", "Proper firmness")

  const GenericRotten := Traits("Discolored, dull", "Soft, deteriorated", "Visible spoilage",
                                "Spoiled, inedible", "Off, unpleasant odor", "Too soft, mushy")

  /** The template for `produce` in `state`, or the generic one; any state other
      than "fresh" takes the rotten templates. */
  function CharacteristicsFor(produce: string, state: string): Traits {
    if state == "fresh" then Lookup(FreshTemplates, produce, GenericFresh)
    else Lookup(RottenTemplates, produce, GenericRotten)
  }

  /** Produce without a template gets the generic characteristics of its state. */
  lemma GenericWithoutTemplate(produce: string, state: string)
    requires produce != "apple" && produce != "banana" && produce != "tomato"
    ensures state == "fresh" ==> CharacteristicsFor(produce, state) == GenericFresh
    ensures state != "fresh" ==> CharacteristicsFor(produce, state) == GenericRotten
  {
    FindKeys(FreshTemplates, produce);
    FindKeys(RottenTemplates, produce);
    assert Keys(FreshTemplates) == ["apple", "banana", "tomato"];
    assert Keys(RottenTemplates) == ["apple", "banana", "tomato"];
  }

  const Regions: seq<(string, string)> := [
    ("mango", "South Asia"), ("pineapple", "Central America"), ("papaya", "Central America"),
    ("coconut", "Southeast Asia"), ("durian", "Southeast Asia"), ("jackfruit", "South Asia"),
    ("dragonfruit", "Southeast Asia"),
    ("fig", "Mediterranean"), ("olive", "Mediterranean"), ("pomegranate", "Mediterranean"),
    ("apple", "Temperate regions"), ("pear", "Temperate regions"), ("cherry", "Temperate regions"),
    ("peach", "Temperate regions"),
    ("bok_choy", "East Asia"), ("daikon", "East Asia"), ("napa_cabbage", "East Asia"),
    ("potato", "South America"), ("sweet_potato", "Central America"), ("carrot", "Central Asia")
  ]

  /** `get_produce_region`: the listed region, else "Global". */
  function Region(produce: string): string {
    Lookup(Regions, produce, "Global")
  }

  /** A produce type missing from the table is "Global"; a listed one gets the
      region of its first entry. */
  lemma RegionDefaultsToGlobal(produce: string)
    ensures produce !in Keys(Regions) ==> Region(produce) == "Global"
    ensures produce in Keys(Regions) ==> (produce, Region(produce)) in Regions
  {
    FindKeys(Regions, produce);
  }

  /** The content of one generated sample file. */
  datatype Sample = Sample(produce: string, state: string, index: nat, characteristics: Traits,
                           freshnessScore: int, confidence: int, recommendation: string,
                           details: string, region: string)

  /** `generate_sample_data`: scores are derived from the index, not drawn. */
  function SampleData(produce: string, state: string, index: nat): (r: Sample)
    ensures r.produce == produce && r.state == state && r.index == index
    ensures state == "fresh" ==> 85 <= r.freshnessScore <= 94
    ensures state != "fresh" ==> 15 <= r.freshnessScore <= 34
    ensures 90 <= r.confidence <= 99
    ensures r.recommendation == "buy" <==> state == "fresh"
    ensures r.recommendation == "buy" || r.recommendation == "avoid"
    ensures r.characteristics == CharacteristicsFor(produce, state)
    ensures Text.StartsWith(r.details, "This " + produce + " appears to be " + state + ". ")
    ensures r.region == Region(produce)
  {
    var c := CharacteristicsFor(produce, state);
    var lead := "This " + produce + " appears to be " + state + ". ";
    var details := lead + c.color + " with " + Text.Lower(c.texture) + ".";
    assert details[..|lead|] == lead;
    Sample(produce, state, index, c,
           if state == "fresh" then 85 + index % 10 else 15 + index % 20,
           90 + index % 10,
           if state == "fresh" then "buy" else "avoid",
           details, Region(produce))
  }

  /** Generated scores sit inside the ranges the metadata's quality standards
      advertise: 80-100 for fresh, 0-40 for rotten. */
  lemma ScoresWithinAdvertisedRanges(produce: string, state: string, index: nat)
    ensures state == "fresh" ==> 80 <= SampleData(produce, state, index).freshnessScore <= 100
    ensures state != "fresh" ==> 0 <= SampleData(produce, state, index).freshnessScore <= 40
    ensures SampleData(produce, "fresh", index).freshnessScore
            > SampleData(produce, "rotten", index).freshnessScore
  {
  }

  /** `{produce}_{state}_{i:02d}.json`. */
  function FileName(produce: string, state: string, i: nat): string {
    produce + "_" + state + "_" + Decimal.Padded(i, 2) + ".json"
  }

  function FilePath(produce: string, state: string, i: nat): string {
    "global-training-data/" + state + "/" + produce + "/" + FileName(produce, state, i)
  }

  lemma PaddedTwoDigits(i: nat)
    requires i < 100
    ensures |Decimal.Padded(i, 2)| == 2
  {
    if i >= 10 {
      assert Decimal.NatToString(i) == Decimal.NatToString(i / 10) + [Decimal.DigitChar(i % 10)];
    }
  }

  /** Distinct (produce, state, index) triples get distinct file names, for the
      two states and two-digit indices. */
  lemma FileNameInjective(p1: string, s1: string, i1: nat, p2: string, s2: string, i2: nat)
    requires s1 == "fresh" || s1 == "rotten"
    requires s2 == "fresh" || s2 == "rotten"
    requires i1 < 100 && i2 < 100
    requires FileName(p1, s1, i1) == FileName(p2, s2, i2)
    ensures p1 == p2 && s1 == s2 && i1 == i2
  {
    var n := FileName(p1, s1, i1);
    PaddedTwoDigits(i1);
    PaddedTwoDigits(i2);
    assert n[|n| - 9] == s1[|s1| - 1];
    assert FileName(p2, s2, i2)[|n| - 9] == s2[|s2| - 1];
    assert s1 == s2;
    assert |p1| == |p2|;
    assert p1 == n[..|p1|];
    assert p2 == FileName(p2, s2, i2)[..|p2|];
    assert Decimal.Padded(i1, 2) == n[|p1| + |s1| + 2..|p1| + |s1| + 4];
    assert Decimal.Padded(i2, 2) == FileName(p2, s2, i2)[|p2| + |s2| + 2..|p2| + |s2| + 4];
    Decimal.PaddedInjective(i1, i2, 2);
  }

  /** Which sample a file holds: `generate_sample_data(produce, state, index)`. */
  datatype Key = Key(produce: string, state: string, index: nat)

  function KeysFor(produce: string, state: string, n: nat): (r: seq<Key>)
    ensures |r| == n
    ensures forall i :: 0 <= i < n ==> r[i] == Key(produce, state, i)
  {
    seq(n, i requires 0 <= i < n => Key(produce, state, i))
  }

  /** The samples `generate_sample_images` writes, in order: per produce, its
      fresh samples, then its rotten samples. */
  function Generated(produce: seq<string>, target: nat): seq<Key> {
    if produce == [] then []
    else
      var p := produce[|produce| - 1];
      Generated(produce[..|produce| - 1], target) + KeysFor(p, "fresh", target) + KeysFor(p, "rotten", target)
  }

  /** One written file: its path and content. */
  function Entry(k: Key): (string, Sample) {
    (FilePath(k.produce, k.state, k.index), SampleData(k.produce, k.state, k.index))
  }

  function Entries(keys: seq<Key>): (r: seq<(string, Sample)>)
    ensures |r| == |keys|
  {
    seq(|keys|, i requires 0 <= i < |keys| => Entry(keys[i]))
  }

  /** An entry of `collected_data`; the truncated placeholder image is left out. */
  datatype Record = Record(produce: string, state: string, file: string, characteristics: Traits)

  function RecordOf(k: Key): (r: Record)
    ensures r.produce == k.produce && r.state == k.state
  {
    Record(k.produce, k.state, FilePath(k.produce, k.state, k.index), CharacteristicsFor(k.produce, k.state))
  }

  function Records(keys: seq<Key>): (r: seq<Record>)
    ensures |r| == |keys|
  {
    seq(|keys|, i requires 0 <= i < |keys| => RecordOf(keys[i]))
  }

  lemma ConcatMaps(a: seq<Key>, b: seq<Key>)
    ensures Entries(a + b) == Entries(a) + Entries(b)
    ensures Records(a + b) == Records(a) + Records(b)
  {
    ConcatEntries(a, b);
    ConcatRecords(a, b);
  }

  lemma ConcatEntries(a: seq<Key>, b: seq<Key>)
    ensures Entries(a + b) == Entries(a) + Entries(b)
  {
    forall i | 0 <= i < |a + b|
      ensures Entries(a + b)[i] == (Entries(a) + Entries(b))[i]
    {
      if i < |a| {
        assert (a + b)[i] == a[i];
      } else {
        assert (a + b)[i] == b[i - |a|];
      }
    }
  }

  lemma ConcatRecords(a: seq<Key>, b: seq<Key>)
    ensures Records(a + b) == Records(a) + Records(b)
  {
    forall i | 0 <= i < |a + b|
      ensures Records(a + b)[i] == (Records(a) + Records(b))[i]
    {
      if i < |a| {
        assert (a + b)[i] == a[i];
      } else {
        assert (a + b)[i] == b[i - |a|];
      }
    }
  }

  /** A listed record names the file that holds its sample, with the
      sample's characteristics. */
  lemma RecordDescribesFile(k: Key)
    ensures RecordOf(k).file == Entry(k).0
    ensures RecordOf(k).characteristics == Entry(k).1.characteristics
    ensures RecordOf(k).produce == Entry(k).1.produce && RecordOf(k).state == Entry(k).1.state
  {
  }

  /** `len([d for d in records if d['state'] == state])`. */
  function CountState(records: seq<Record>, state: string): (n: nat)
    ensures n <= |records|
  {
    if records == [] then 0
    else CountState(records[..|records| - 1], state) + (if records[|records| - 1].state == state then 1 else 0)
  }

  function CountKeys(keys: seq<Key>, state: string): nat {
    if keys == [] then 0
    else CountKeys(keys[..|keys| - 1], state) + (if keys[|keys| - 1].state == state then 1 else 0)
  }

  lemma {:induction false} CountRecords(keys: seq<Key>, state: string)
    ensures CountState(Records(keys), state) == CountKeys(keys, state)
  {
    if keys != [] {
      assert Records(keys)[..|keys| - 1] == Records(keys[..|keys| - 1]);
      CountRecords(keys[..|keys| - 1], state);
    }
  }

  lemma {:induction false} CountKeysConcat(a: seq<Key>, b: seq<Key>, state: string)
    ensures CountKeys(a + b, state) == CountKeys(a, state) + CountKeys(b, state)
  {
    if b != [] {
      assert (a + b)[..|a + b| - 1] == a + b[..|b| - 1];
      CountKeysConcat(a, b[..|b| - 1], state);
    } else {
      assert a + b == a;
    }
  }

  lemma {:induction false} CountKeysFor(produce: string, s: string, n: nat, state: string)
    ensures CountKeys(KeysFor(produce, s, n), state) == if s == state then n else 0
  {
    if n > 0 {
      assert KeysFor(produce, s, n)[..n - 1] == KeysFor(produce, s, n - 1);
      CountKeysFor(produce, s, n - 1, state);
    }
  }

  /** `target` added up `n` times. */
  function Copies(target: nat, n: nat): nat {
    if n == 0 then 0 else Copies(target, n - 1) + target
  }

  lemma {:induction false} CopiesIsProduct(target: nat, n: nat)
    ensures Copies(target, n) == target * n
  {
    if n > 0 {
      CopiesIsProduct(target, n - 1);
      assert target * n == target * (n - 1) + target;
    }
  }

  /** The generated samples are balanced: `target` fresh and `target` rotten
      per produce, and nothing else. */
  lemma {:induction false} GeneratedBalanced(produce: seq<string>, target: nat)
    ensures CountKeys(Generated(produce, target), "fresh") == Copies(target, |produce|)
    ensures CountKeys(Generated(produce, target), "rotten") == Copies(target, |produce|)
    ensures |Generated(produce, target)| == Copies(target, |produce|) + Copies(target, |produce|)
  {
    if produce != [] {
      var init := produce[..|produce| - 1];
      var p := produce[|produce| - 1];
      var a, f, r := Generated(init, target), KeysFor(p, "fresh", target), KeysFor(p, "rotten", target);
      GeneratedBalanced(init, target);
      forall state | state == "fresh" || state == "rotten"
        ensures CountKeys(Generated(produce, target), state) == Copies(target, |init|) + target
      {
        CountKeysConcat(a + f, r, state);
        CountKeysConcat(a, f, state);
        CountKeysFor(p, "fresh", target, state);
        CountKeysFor(p, "rotten", target, state);
      }
    }
  }

  /** Every generated sample belongs to one of the produce types, with one of the
      two states and an index below `target`. */
  lemma {:induction false} GeneratedShape(produce: seq<string>, target: nat, k: nat)
    requires k < |Generated(produce, target)|
    ensures var e := Generated(produce, target)[k];
      && e.produce in produce && (e.state == "fresh" || e.state == "rotten") && e.index < target
  {
    var init := produce[..|produce| - 1];
    var a := Generated(init, target);
    if k < |a| {
      GeneratedShape(init, target, k);
    }
  }

  /** With distinct produce types no sample is generated twice. */
  lemma {:induction false} GeneratedKeysDistinct(produce: seq<string>, target: nat, j: nat, k: nat)
    requires forall a, b :: 0 <= a < b < |produce| ==> produce[a] != produce[b]
    requires j < k < |Generated(produce, target)|
    ensures Generated(produce, target)[j] != Generated(produce, target)[k]
  {
    var g := Generated(produce, target);
    var init := produce[..|produce| - 1];
    var p := produce[|produce| - 1];
    var a := Generated(init, target);
    var tail := KeysFor(p, "fresh", target) + KeysFor(p, "rotten", target);
    assert g == a + tail;
    if k < |a| {
      GeneratedKeysDistinct(init, target, j, k);
      assert g[j] == a[j] && g[k] == a[k];
    } else if j < |a| {
      GeneratedShape(init, target, j);
      assert g[j] == a[j] && g[k] == tail[k - |a|];
      assert g[j].produce in init;
    } else {
      assert g[j] == tail[j - |a|] && g[k] == tail[k - |a|];
    }
  }

  /** With distinct produce types and at most 100 per category, no two generated
      files share a name, so none overwrites another. */
  lemma GeneratedNamesDistinct(produce: seq<string>, target: nat, j: nat, k: nat)
    requires forall a, b :: 0 <= a < b < |produce| ==> produce[a] != produce[b]
    requires target <= 100
    requires j < k < |Generated(produce, target)|
    ensures var g := Generated(produce, target);
      FileName(g[j].produce, g[j].state, g[j].index) != FileName(g[k].produce, g[k].state, g[k].index)
  {
    var g := Generated(produce, target);
    GeneratedKeysDistinct(produce, target, j, k);
    GeneratedShape(produce, target, j);
    GeneratedShape(produce, target, k);
    var x, y := g[j], g[k];
    if FileName(x.produce, x.state, x.index) == FileName(y.produce, y.state, y.index) {
      FileNameInjective(x.produce, x.state, x.index, y.produce, y.state, y.index);
    }
  }

  /** Filters keep the produce order. */
  function Filter(produce: seq<string>, keep: string -> bool): (r: seq<string>)
    ensures forall x :: x in r <==> x in produce && keep(x)
    ensures |r| <= |produce|
  {
    if produce == [] then []
    else Filter(produce[..|produce| - 1], keep)
         + (if keep(produce[|produce| - 1]) then [produce[|produce| - 1]] else [])
  }

  function Fruits(produce: seq<string>): seq<string> {
    Filter(produce, p => p in FruitList)
  }

  function Vegetables(produce: seq<string>): seq<string> {
    Filter(produce, p => p !in FruitList)
  }

  /** Filtering a list with one more element at its end. */
  lemma FilterSnoc(init: seq<string>, last: string, keep: string -> bool)
    ensures Filter(init + [last], keep) == Filter(init, keep) + (if keep(last) then [last] else [])
  {
    assert (init + [last])[..|init|] == init;
  }

  /** Filtering by a test and by its negation splits a list between the two. */
  lemma {:induction false} FilterComplementary(xs: seq<string>, keep: string -> bool, drop: string -> bool)
    requires forall x :: drop(x) == !keep(x)
    ensures multiset(Filter(xs, keep)) + multiset(Filter(xs, drop)) == multiset(xs)
  {
    if xs != [] {
      var init := xs[..|xs| - 1];
      var last := xs[|xs| - 1];
      assert xs == init + [last];
      FilterComplementary(init, keep, drop);
      FilterSnoc(init, last, keep);
      FilterSnoc(init, last, drop);
    }
  }

  /** The fruits and vegetables lists split the produce types between them,
      each exactly once. */
  lemma FruitsVegetablesPartition(produce: seq<string>)
    ensures multiset(Fruits(produce)) + multiset(Vegetables(produce)) == multiset(produce)
    ensures forall p :: p in Fruits(produce) ==> p !in Vegetables(produce)
  {
    FilterComplementary(produce, p => p in FruitList, p => p !in FruitList);
  }

  /** `regional_distribution[region]`. */
  function RegionGroup(produce: seq<string>, region: string): seq<string> {
    Filter(produce, p => Region(p) == region)
  }

  /** Every produce type is listed under its own region and no other. */
  lemma RegionGroupsPartition(produce: seq<string>, p: string, region: string)
    requires p in produce
    ensures p in RegionGroup(produce, Region(p))
    ensures region != Region(p) ==> p !in RegionGroup(produce, region)
  {
  }

  /** The parts of `dataset_metadata.json` that depend on the collection. */
  datatype GlobalMetadata = GlobalMetadata(totalProduces: nat, totalImages: nat, imagesPerCategory: nat,
                                           fruits: seq<string>, vegetables: seq<string>,
                                           totalSamples: nat, freshSamples: nat, rottenSamples: nat)

  /** `create_training_metadata`. */
  function TrainingMetadata(produce: seq<string>, target: nat, collected: seq<Record>): (m: GlobalMetadata)
    ensures m.totalImages == m.totalSamples == |collected|
    ensures m.freshSamples + m.rottenSamples <= m.totalSamples
    ensures m.totalProduces == |produce| == |m.fruits| + |m.vegetables|
  {
    FruitsVegetablesPartition(produce);
    CountStateSplit(collected);
    assert |multiset(Fruits(produce))| + |multiset(Vegetables(produce))| == |multiset(produce)|;
    GlobalMetadata(|produce|, |collected|, target, Fruits(produce), Vegetables(produce),
                   |collected|, CountState(collected, "fresh"), CountState(collected, "rotten"))
  }

  lemma {:induction false} CountStateSplit(records: seq<Record>)
    ensures CountState(records, "fresh") + CountState(records, "rotten") <= |records|
  {
    if records != [] {
      CountStateSplit(records[..|records| - 1]);
    }
  }

  /** After generation from an empty collection the statistics report
      `target * |produce|` fresh and rotten samples, which make up the total. */
  lemma MetadataAfterGeneration(produce: seq<string>, target: nat)
    ensures var m := TrainingMetadata(produce, target, Records(Generated(produce, target)));
      && m.freshSamples == m.rottenSamples == target * |produce|
      && m.totalSamples == m.freshSamples + m.rottenSamples
  {
    GeneratedBalanced(produce, target);
    CountRecords(Generated(produce, target), "fresh");
    CountRecords(Generated(produce, target), "rotten");
    CopiesIsProduct(target, |produce|);
  }

  /** The assistant message of a fine-tuning sample, before JSON encoding. */
  datatype Answer = Answer(item: string, classification: string, freshness: int, recommendation: string,
                           confidence: int, characteristics: Traits, details: string)

  datatype TrainingSample = TrainingSample(userText: string, answer: Answer)

  /** The conversion in `create_openai_training_file`. */
  function TrainingSampleFor(d: Record): TrainingSample
  {
    var name := Text.ReplaceChar(d.produce, '_', ' ');
    var c := d.characteristics;
    TrainingSample(
      "Analyze this " + d.produce + " for freshness and provide classification.",
      Answer(Text.Title(name), d.state, if d.state == "fresh" then 85 else 25,
             if d.state == "fresh" then "buy" else "avoid", 90, c,
             "This " + name + " appears to be " + d.state + ". Analysis shows "
             + Text.Lower(c.color) + " with " + Text.Lower(c.texture) + "."))
  }

  /** The training sample of a record asks about that produce, and its answer names
      the produce title-cased, keeps the state and traits, scores 85 or 25 and
      recommends buying exactly when the record is fresh. */
  lemma TrainingSampleForFields(d: Record)
    ensures var t := TrainingSampleFor(d);
      && t.answer.item == Text.Title(Text.ReplaceChar(d.produce, '_', ' '))
      && t.answer.classification == d.state
      && t.answer.freshness == (if d.state == "fresh" then 85 else 25)
      && (t.answer.recommendation == "buy" <==> d.state == "fresh")
      && t.answer.confidence == 90
      && t.answer.characteristics == d.characteristics
      && Text.Contains(t.userText, d.produce)
  {
    Text.ContainsMiddle("Analyze this ", d.produce, " for freshness and provide classification.");
  }

  /** The fine-tuning answer for a generated record keeps the label of the sample
      it came from, and its score lies in the same band as the sample's. */
  lemma TrainingAnswerMatchesSample(produce: string, state: string, i: nat)
    requires state == "fresh" || state == "rotten"
    ensures var a := TrainingSampleFor(RecordOf(Key(produce, state, i))).answer;
      var s := SampleData(produce, state, i);
      && a.recommendation == s.recommendation
      && (state == "fresh" ==> 80 <= a.freshness && 80 <= s.freshnessScore)
      && (state == "rotten" ==> a.freshness <= 40 && s.freshnessScore <= 40)
  {
    TrainingSampleForFields(RecordOf(Key(produce, state, i)));
  }

  /** One `for i in range(target)` loop of `generate_sample_images`: writes the
      files of one produce in one state and lists them. */
  method WriteSamples(files: seq<(string, Sample)>, records: seq<Record>, p: string, state: string, n: nat)
    returns (files': seq<(string, Sample)>, records': seq<Record>)
    ensures files' == files + Entries(KeysFor(p, state, n))
    ensures records' == records + Records(KeysFor(p, state, n))
  {
    files', records' := files, records;
    for i := 0 to n
      invariant files' == files + Entries(KeysFor(p, state, i))
      invariant records' == records + Records(KeysFor(p, state, i))
    {
      var k := Key(p, state, i);
      KeysForStep(p, state, i);
      Seqs.ConcatAssociative(files, Entries(KeysFor(p, state, i)), [Entry(k)]);
      Seqs.ConcatAssociative(records, Records(KeysFor(p, state, i)), [RecordOf(k)]);
      files' := files' + [Entry(k)];
      records' := records' + [RecordOf(k)];
    }
  }

  /** One more sample adds its file and its record at the end. */
  lemma KeysForStep(p: string, state: string, i: nat)
    ensures Entries(KeysFor(p, state, i + 1)) == Entries(KeysFor(p, state, i)) + [Entry(Key(p, state, i))]
    ensures Records(KeysFor(p, state, i + 1)) == Records(KeysFor(p, state, i)) + [RecordOf(Key(p, state, i))]
  {
    assert KeysFor(p, state, i + 1) == KeysFor(p, state, i) + [Key(p, state, i)];
    ConcatMaps(KeysFor(p, state, i), [Key(p, state, i)]);
    assert Entries([Key(p, state, i)]) == [Entry(Key(p, state, i))];
    assert Records([Key(p, state, i)]) == [RecordOf(Key(p, state, i))];
  }

  class GlobalDatasetCollector {
    var globalProduce: seq<string>
    var target: nat
    var collectedData: seq<Record>
    /** The sample files written, in order. */
    var written: seq<(string, Sample)>

    constructor ()
      ensures globalProduce == Produce && target == 10
      ensures collectedData == [] && written == []
    {
      globalProduce := Produce;
      target := 10;
      collectedData := [];
      written := [];
    }

    /** `generate_sample_images`. */
    method GenerateSampleImages()
      modifies this
      ensures globalProduce == old(globalProduce) && target == old(target)
      ensures written == old(written) + Entries(Generated(globalProduce, target))
      ensures collectedData == old(collectedData) + Records(Generated(globalProduce, target))
    {
      var ps, t := globalProduce, target;
      var files, records := written, collectedData;
      var k := 0;
      while k < |ps|
        invariant k <= |ps|
        invariant unchanged(this)
        invariant files == old(written) + Entries(Generated(ps[..k], t))
        invariant records == old(collectedData) + Records(Generated(ps[..k], t))
      {
        var p := ps[k];
        ghost var done := Generated(ps[..k], t);
        ghost var freshKeys, rottenKeys := KeysFor(p, "fresh", t), KeysFor(p, "rotten", t);
        files, records := WriteSamples(files, records, p, "fresh", t);
        files, records := WriteSamples(files, records, p, "rotten", t);
        assert ps[..k + 1][..k] == ps[..k];
        assert Generated(ps[..k + 1], t) == done + freshKeys + rottenKeys;
        ConcatMaps(done + freshKeys, rottenKeys);
        ConcatMaps(done, freshKeys);
        Seqs.ConcatAssociative(old(written), Entries(done), Entries(freshKeys));
        Seqs.ConcatAssociative(old(written), Entries(done) + Entries(freshKeys), Entries(rottenKeys));
        Seqs.ConcatAssociative(old(collectedData), Records(done), Records(freshKeys));
        Seqs.ConcatAssociative(old(collectedData), Records(done) + Records(freshKeys), Records(rottenKeys));
        k := k + 1;
      }
      assert ps[..k] == ps;
      written, collectedData := files, records;
    }

    function Metadata(): (m: GlobalMetadata)
      reads this
      ensures m.totalSamples == |collectedData|
      ensures m.freshSamples == CountState(collectedData, "fresh")
      ensures m.rottenSamples == CountState(collectedData, "rotten")
    {
      TrainingMetadata(globalProduce, target, collectedData)
    }

    /** `create_openai_training_file`: one sample per collected record, in order. */
    method CreateOpenAITrainingFile() returns (samples: seq<TrainingSample>)
      ensures |samples| == |collectedData|
      ensures forall k :: 0 <= k < |samples| ==> samples[k] == TrainingSampleFor(collectedData[k])
    {
      var data := collectedData;
      samples := [];
      for k := 0 to |data|
        invariant |samples| == k
        invariant forall j :: 0 <= j < k ==> samples[j] == TrainingSampleFor(data[j])
      {
        samples := samples + [TrainingSampleFor(data[k])];
      }
    }
  }
}
