/** `DatasetOrganizer` of `scripts/organize-datasets.py`: classifies downloaded
    images by fruit and quality from substrings of their paths, copies the
    classified ones under `organized/<quality>/<fruit>/` with numbered names, and
    counts them per quality and fruit. The file system and the image conversion
    are inputs: each file comes with its path, its path parts, and whether the
    conversion succeeded. */
module OrganizeDatasets {
  import opened Wrappers
  import opened Assoc
  import Text
  import Decimal
  import Arith
  import Seqs

  /** Class names with the spellings that identify them, in declaration order. */
  type Mappings = seq<(string, seq<string>)>

  const FruitMappings: Mappings := [
    ("apple", ["apple", "apples"]),
    ("banana", ["banana", "bananas"]),
    ("orange", ["orange", "oranges"]),
    ("tomato", ["tomato", "tomatoes"]),
    ("cucumber", ["cucumber", "cucumbers"]),
    ("bell_pepper", ["bell_pepper", "capsicum", "pepper", "peppers"]),
    ("strawberry", ["strawberry", "strawberries"]),
    ("grape", ["grape", "grapes"]),
    ("lime", ["lime", "limes"]),
    ("lemon", ["lemon", "lemons"]),
    ("onion", ["onion", "onions"]),
    ("potato", ["potato", "potatoes"]),
    ("bitter_gourd", ["bitter_gourd", "bittergourd"]),
    ("brinjal", ["brinjal", "eggplant", "aubergine"]),
    ("guava", ["guava"]),
    ("chili", ["chili", "chilli", "pepper"])
  ]

  const QualityMappings: Mappings := [
    ("fresh", ["fresh", "good", "healthy", "pure-fresh", "pure_fresh"]),
    ("rotten", ["rotten", "bad", "stale", "spoiled", "rotten_diseased", "medium-fresh", "medium_fresh"])
  ]

  const Unknown := "unknown"

  /** Some spelling in `variations` is a substring of `s`. */
  predicate Matches(variations: seq<string>, s: string) {
    exists k :: 0 <= k < |variations| && Text.Contains(s, variations[k])
  }

  /** The index of the first mapping with a spelling contained in `s`. */
  function FirstMatch(mappings: Mappings, s: string): (r: Option<nat>)
    ensures r.Some? ==> r.value < |mappings| && Matches(mappings[r.value].1, s)
    ensures r.Some? ==> forall j :: 0 <= j < r.value ==> !Matches(mappings[j].1, s)
    ensures r.None? <==> forall j :: 0 <= j < |mappings| ==> !Matches(mappings[j].1, s)
  {
    if |mappings| == 0 then None
    else if Matches(mappings[0].1, s) then Some(0)
    else
      match FirstMatch(mappings[1..], s)
      case None => None
      case Some(i) => Some(i + 1)
  }

  /** The class of the first matching mapping of the lower-cased path, or "unknown". */
  function Classify(mappings: Mappings, path: string): string {
    match FirstMatch(mappings, Text.Lower(path))
    case None => Unknown
    case Some(i) => mappings[i].0
  }

  /** No class is named "unknown". */
  predicate NamesKnown(mappings: Mappings) {
    forall i :: 0 <= i < |mappings| ==> mappings[i].0 != Unknown
  }

  /** With no class named "unknown", classification yields "unknown" exactly when
      no spelling matches. */
  lemma ClassifyUnknown(mappings: Mappings, path: string)
    requires NamesKnown(mappings)
    ensures Classify(mappings, path) == Unknown
            <==> forall j :: 0 <= j < |mappings| ==> !Matches(mappings[j].1, Text.Lower(path))
  {
  }

  /** `identify_fruit_type`. */
  function IdentifyFruitType(path: string): (r: string)
    ensures r == Unknown <==> forall j :: 0 <= j < |FruitMappings| ==> !Matches(FruitMappings[j].1, Text.Lower(path))
  {
    assert NamesKnown(FruitMappings);
    ClassifyUnknown(FruitMappings, path);
    Classify(FruitMappings, path)
  }

  /** `identify_quality` as written: the fresh spellings are tried first, so the
      rotten spellings "medium-fresh" and "medium_fresh" can never decide. */
  function IdentifyQualityAsWritten(path: string): (r: string)
    ensures r == Unknown <==> forall j :: 0 <= j < |QualityMappings| ==> !Matches(QualityMappings[j].1, Text.Lower(path))
    ensures Text.Contains(Text.Lower(path), "fresh") ==> r == "fresh"
  {
    assert Text.Contains(Text.Lower(path), "fresh") ==> Matches(QualityMappings[0].1, Text.Lower(path)) by {
      assert QualityMappings[0].1[0] == "fresh";
    }
    assert NamesKnown(QualityMappings);
    ClassifyUnknown(QualityMappings, path);
    Classify(QualityMappings, path)
  }

  /** A folder of medium-fresh produce, which the mapping lists as rotten, is
      classified fresh. */
  lemma MediumFreshClassifiedFresh()
    ensures IdentifyQualityAsWritten("medium-fresh") == "fresh"
    ensures "medium-fresh" in QualityMappings[1].1 && QualityMappings[1].0 == "rotten"
  {
    var path := "medium-fresh";
    assert Text.Lower(path) == path;
    assert Text.OccursAt(path, "fresh", 7);
  }

  /** A path naming one of the medium-fresh spellings. */
  predicate NamesMediumFresh(path: string) {
    Text.Contains(Text.Lower(path), "medium-fresh") || Text.Contains(Text.Lower(path), "medium_fresh")
  }

  /** `identify_quality` as its mapping intends it: a medium-fresh path is rotten;
      every other path is classified as before. */
  function IdentifyQuality(path: string): (r: string)
    ensures NamesMediumFresh(path) ==> r == "rotten"
    ensures !NamesMediumFresh(path) ==> r == IdentifyQualityAsWritten(path)
  {
    if NamesMediumFresh(path) then "rotten" else IdentifyQualityAsWritten(path)
  }

  /** The mapping order makes "bell_pepper" win over "chili" for any path that
      contains "pepper". */
  lemma PepperIsNeverChili(path: string)
    requires Text.Contains(Text.Lower(path), "pepper")
    ensures IdentifyFruitType(path) != "chili"
    ensures IdentifyFruitType(path) != Unknown
  {
    var s := Text.Lower(path);
    assert FruitMappings[5].1[2] == "pepper";
    assert Matches(FruitMappings[5].1, s);
    var r := FirstMatch(FruitMappings, s);
    assert r.Some? && r.value <= 5;
  }

  /** "pineapple" contains "apple", the first mapping. */
  lemma PineappleIsApple(path: string)
    requires Text.Contains(Text.Lower(path), "pineapple")
    ensures IdentifyFruitType(path) == "apple"
  {
    var s := Text.Lower(path);
    assert Text.OccursAt("pineapple", "apple", 4);
    Text.ContainsTransitive(s, "pineapple", "apple");
    assert FruitMappings[0].1[0] == "apple";
    assert Matches(FruitMappings[0].1, s);
  }

  /** A part of a path that classifies as "unknown" also classifies as "unknown",
      so the per-part retry of `organize_dataset_folder` never changes a result. */
  lemma UnknownForPart(mappings: Mappings, path: string, part: string)
    requires Text.Contains(path, part)
    requires Classify(mappings, path) == Unknown
    requires NamesKnown(mappings)
    ensures Classify(mappings, part) == Unknown
  {
    ClassifyUnknown(mappings, path);
    ClassifyUnknown(mappings, part);
    forall j | 0 <= j < |mappings|
      ensures !Matches(mappings[j].1, Text.Lower(part))
    {
      MatchesWithin(mappings[j].1, path, part);
    }
  }

  /** A spelling found in a part of a path is found in the path. */
  lemma MatchesWithin(variations: seq<string>, path: string, part: string)
    requires Text.Contains(path, part)
    ensures Matches(variations, Text.Lower(part)) ==> Matches(variations, Text.Lower(path))
  {
    Text.ContainsLower(path, part);
    if Matches(variations, Text.Lower(part)) {
      var k :| 0 <= k < |variations| && Text.Contains(Text.Lower(part), variations[k]);
      Text.ContainsTransitive(Text.Lower(path), Text.Lower(part), variations[k]);
    }
  }

  lemma QualityUnknownForPart(path: string, part: string)
    requires Text.Contains(path, part)
    requires IdentifyQualityAsWritten(path) == Unknown
    ensures IdentifyQualityAsWritten(part) == Unknown
  {
    UnknownForPart(QualityMappings, path, part);
  }


  const ImageSuffixes: seq<string> := [".jpg", ".jpeg", ".png", ".bmp"]

  /** One entry of `rglob('*')`: its path, its parts (each a substring of the
      path), whether it is a file, its suffix, and whether converting and saving
      it would succeed. */
  datatype FileEntry = FileEntry(path: string, parts: seq<string>, isFile: bool, suffix: string, converts: bool)

  predicate PartsOfPath(f: FileEntry) {
    forall i :: 0 <= i < |f.parts| ==> Text.Contains(f.path, f.parts[i])
  }

  /** A copied image: its quality and fruit directory and its file name. */
  datatype Output = Output(quality: string, fruit: string, fileName: string)

  /** The name of the `count`-th copy from a folder: `{folder}_{count:04d}.jpg`. */
  function OutputName(folder: string, count: nat): string {
    folder + "_" + Decimal.Padded(count, 4) + ".jpg"
  }

  /** A file's labels, when it is an image file with both labels known. */
  function Labels(f: FileEntry): Option<(string, string)> {
    if !f.isFile || Text.Lower(f.suffix) !in ImageSuffixes then None
    else
      var fruit := IdentifyFruitType(f.path);
      var quality := IdentifyQualityAsWritten(f.path);
      if fruit == Unknown || quality == Unknown then None else Some((quality, fruit))
  }

  /** The labels of the files that are copied, in order. */
  function Picked(files: seq<FileEntry>): (r: seq<(string, string)>)
    ensures |r| <= |files|
  {
    if files == [] then []
    else
      var f := files[|files| - 1];
      Picked(files[..|files| - 1]) + (if Labels(f).Some? && f.converts then [Labels(f).value] else [])
  }

  /** The copies for `picked`: the `k`-th is numbered `k`. */
  function Numbered(folder: string, picked: seq<(string, string)>): (r: seq<Output>)
    ensures |r| == |picked|
    ensures forall k :: 0 <= k < |r| ==> r[k] == Output(picked[k].0, picked[k].1, OutputName(folder, k))
  {
    seq(|picked|, k requires 0 <= k < |picked| => Output(picked[k].0, picked[k].1, OutputName(folder, k)))
  }

  /** The copies made from a folder's files. */
  function Organized(folder: string, files: seq<FileEntry>): seq<Output> {
    Numbered(folder, Picked(files))
  }

  /** Copies from one folder never overwrite each other. */
  lemma OrganizedNamesDistinct(folder: string, files: seq<FileEntry>, i: nat, j: nat)
    requires i < j < |Organized(folder, files)|
    ensures Organized(folder, files)[i].fileName != Organized(folder, files)[j].fileName
  {
    if OutputName(folder, i) == OutputName(folder, j) {
      Decimal.AffixInjective(folder + "_", Decimal.Padded(i, 4), Decimal.Padded(j, 4), ".jpg");
      Decimal.PaddedInjective(i, j, 4);
    }
  }

  /** Every copy is an image with both labels known. */
  lemma {:induction false} PickedAreLabelled(files: seq<FileEntry>, k: nat)
    requires k < |Picked(files)|
    ensures Picked(files)[k].0 in {"fresh", "rotten"}
    ensures Picked(files)[k].1 != Unknown
  {
    var prev := Picked(files[..|files| - 1]);
    if k < |prev| {
      PickedAreLabelled(files[..|files| - 1], k);
    } else {
      var f := files[|files| - 1];
      var m := FirstMatch(QualityMappings, Text.Lower(f.path));
      assert m.Some? && IdentifyQualityAsWritten(f.path) == QualityMappings[m.value].0;
    }
  }

  /** A Python dict of counts: its entries in insertion order. */
  type Counter = seq<(string, nat)>

  /** `counter[key]` with the zero default of `defaultdict(int)`. */
  function Count(c: Counter, key: string): nat {
    match Find(c, key)
    case None => 0
    case Some(i) => c[i].1
  }

  /** `counter[key] += 1`: a new key is appended. */
  function Bump(c: Counter, key: string): (r: Counter)
    ensures Count(r, key) == Count(c, key) + 1
    ensures forall k :: k != key ==> Count(r, k) == Count(c, k)
  {
    match Find(c, key)
    case None =>
      var r := c + [(key, 1)];
      assert forall k :: k != key ==> Find(r, k) == Find(c, k) by {
        forall k | k != key ensures Find(r, k) == Find(c, k) {
          FindAppend(c, key, 1, k);
        }
      }
      assert Find(r, key) == Some(|c|) by {
        FindAppend(c, key, 1, key);
      }
      r
    case Some(i) =>
      var r := c[i := (key, c[i].1 + 1)];
      assert forall k :: Find(r, k) == Find(c, k) by {
        forall k ensures Find(r, k) == Find(c, k) {
          FindUpdate(c, i, (key, c[i].1 + 1), k);
        }
      }
      r
  }

  function Values(c: Counter): seq<int> {
    seq(|c|, i requires 0 <= i < |c| => c[i].1 as int)
  }

  /** The sum of a counter's values. */
  function SumOf(c: Counter): int {
    Arith.Sum(Values(c))
  }

  lemma SumOfBump(c: Counter, key: string)
    ensures SumOf(Bump(c, key)) == SumOf(c) + 1
  {
    match Find(c, key)
    case None =>
      assert Values(c + [(key, 1)]) == Values(c) + [1];
      assert (Values(c) + [1])[..|c|] == Values(c);
    case Some(i) =>
      assert Values(c[i := (key, c[i].1 + 1)]) == Values(c)[i := c[i].1 + 1];
      Arith.SumUpdate(Values(c), i, c[i].1 + 1);
  }

  /** `defaultdict(lambda: defaultdict(int))`: a counter per quality. */
  type Stats = seq<(string, Counter)>

  function Inner(stats: Stats, quality: string): Counter {
    match Find(stats, quality)
    case None => []
    case Some(i) => stats[i].1
  }

  /** `stats[quality][fruit]`. */
  function Get(stats: Stats, quality: string, fruit: string): nat {
    Count(Inner(stats, quality), fruit)
  }

  /** `stats[quality][fruit] += 1`. */
  function Increment(stats: Stats, quality: string, fruit: string): (r: Stats)
    ensures Inner(r, quality) == Bump(Inner(stats, quality), fruit)
    ensures forall q :: q != quality ==> Inner(r, q) == Inner(stats, q)
    ensures Get(r, quality, fruit) == Get(stats, quality, fruit) + 1
    ensures forall q, f :: (q, f) != (quality, fruit) ==> Get(r, q, f) == Get(stats, q, f)
  {
    match Find(stats, quality)
    case None =>
      var r := stats + [(quality, Bump([], fruit))];
      assert forall q :: Find(r, q) == (if q == quality then Some(|stats|) else Find(stats, q)) by {
        forall q ensures Find(r, q) == (if q == quality then Some(|stats|) else Find(stats, q)) {
          FindAppend(stats, quality, Bump([], fruit), q);
        }
      }
      r
    case Some(i) =>
      var r := stats[i := (quality, Bump(stats[i].1, fruit))];
      assert forall q :: Find(r, q) == Find(stats, q) by {
        forall q ensures Find(r, q) == Find(stats, q) {
          FindUpdate(stats, i, (quality, Bump(stats[i].1, fruit)), q);
        }
      }
      r
  }

  function Sums(stats: Stats): seq<int> {
    seq(|stats|, i requires 0 <= i < |stats| => SumOf(stats[i].1))
  }

  /** `total_images`: the sum over qualities of the sums over fruits. */
  function Total(stats: Stats): int {
    Arith.Sum(Sums(stats))
  }

  lemma TotalIncrement(stats: Stats, quality: string, fruit: string)
    ensures Total(Increment(stats, quality, fruit)) == Total(stats) + 1
  {
    match Find(stats, quality)
    case None =>
      var x := (quality, Bump([], fruit));
      assert Increment(stats, quality, fruit) == stats + [x];
      SumOfBump([], fruit);
      TotalAppend(stats, x);
    case Some(i) =>
      var x := (quality, Bump(stats[i].1, fruit));
      assert Increment(stats, quality, fruit) == stats[i := x];
      SumOfBump(stats[i].1, fruit);
      TotalUpdate(stats, i, x);
  }

  /** A new quality adds its counter's sum to the total. */
  lemma TotalAppend(stats: Stats, x: (string, Counter))
    ensures Total(stats + [x]) == Total(stats) + SumOf(x.1)
  {
    assert Sums(stats + [x]) == Sums(stats) + [SumOf(x.1)];
    assert (Sums(stats) + [SumOf(x.1)])[..|stats|] == Sums(stats);
  }

  /** Replacing a quality's counter changes the total by the change of its sum. */
  lemma TotalUpdate(stats: Stats, i: nat, x: (string, Counter))
    requires i < |stats|
    ensures Total(stats[i := x]) == Total(stats) - SumOf(stats[i].1) + SumOf(x.1)
  {
    assert Sums(stats[i := x]) == Sums(stats)[i := SumOf(x.1)];
    Arith.SumUpdate(Sums(stats), i, SumOf(x.1));
  }

  /** The number of outputs with the given labels. */
  function CountOf(outputs: seq<Output>, quality: string, fruit: string): nat {
    if outputs == [] then 0
    else CountOf(outputs[..|outputs| - 1], quality, fruit)
         + (if outputs[|outputs| - 1].quality == quality && outputs[|outputs| - 1].fruit == fruit then 1 else 0)
  }

  /** `stats` after counting `outputs` one after the other. */
  function StatsAfter(base: Stats, outputs: seq<Output>): Stats {
    if outputs == [] then base
    else
      var last := outputs[|outputs| - 1];
      Increment(StatsAfter(base, outputs[..|outputs| - 1]), last.quality, last.fruit)
  }

  /** Each counter grows by the number of outputs with its labels. */
  lemma {:induction false} StatsAfterCounts(base: Stats, outputs: seq<Output>, quality: string, fruit: string)
    ensures Get(StatsAfter(base, outputs), quality, fruit) == Get(base, quality, fruit) + CountOf(outputs, quality, fruit)
  {
    if outputs != [] {
      StatsAfterCounts(base, outputs[..|outputs| - 1], quality, fruit);
    }
  }

  lemma {:induction false} StatsAfterConcat(base: Stats, xs: seq<Output>, ys: seq<Output>)
    ensures StatsAfter(StatsAfter(base, xs), ys) == StatsAfter(base, xs + ys)
  {
    if ys != [] {
      assert (xs + ys)[..|xs + ys| - 1] == xs + ys[..|ys| - 1];
      StatsAfterConcat(base, xs, ys[..|ys| - 1]);
    } else {
      assert xs + ys == xs;
    }
  }

  /** `total_images` grows by the number of outputs. */
  lemma {:induction false} StatsAfterTotal(base: Stats, outputs: seq<Output>)
    ensures Total(StatsAfter(base, outputs)) == Total(base) + |outputs|
  {
    if outputs != [] {
      var last := outputs[|outputs| - 1];
      StatsAfterTotal(base, outputs[..|outputs| - 1]);
      TotalIncrement(StatsAfter(base, outputs[..|outputs| - 1]), last.quality, last.fruit);
    }
  }

  /** The metadata the training script reads. */
  datatype Metadata = Metadata(totalImages: int, classes: nat, fruits: set<string>, qualityLabels: map<string, nat>)

  /** `create_training_metadata`, apart from the sorted fruit labels. */
  function MetadataOf(stats: Stats): (r: Metadata)
    ensures r.totalImages == Total(stats) && r.classes == |stats|
    ensures forall f :: f in r.fruits <==> exists i, j :: 0 <= i < |stats| && 0 <= j < |stats[i].1| && stats[i].1[j].0 == f
    ensures r.qualityLabels == map["fresh" := 1, "rotten" := 0]
  {
    Metadata(Total(stats), |stats|, set i, j | 0 <= i < |stats| && 0 <= j < |stats[i].1| :: stats[i].1[j].0,
             map["fresh" := 1, "rotten" := 0])
  }

  /** `fruit_labels` for the fruits in the given order: each name maps to its
      position, so the labels are exactly 0 .. n - 1. */
  function FruitLabels(names: seq<string>): (r: map<string, nat>)
    requires forall i, j :: 0 <= i < j < |names| ==> names[i] != names[j]
    ensures forall i :: 0 <= i < |names| ==> names[i] in r && r[names[i]] == i
    ensures forall k :: k in r ==> exists i :: 0 <= i < |names| && names[i] == k
  {
    map i | 0 <= i < |names| :: names[i] := i
  }

  /** Numbering one more copy extends the copies made so far. */
  lemma NumberedAppend(folder: string, picked: seq<(string, string)>, x: (string, string))
    ensures Numbered(folder, picked + [x]) == Numbered(folder, picked) + [Output(x.0, x.1, OutputName(folder, |picked|))]
  {
  }

  /** Considering one more file copies it, with the next number, exactly when it
      has labels and converts. */
  lemma OrganizedStep(folder: string, files: seq<FileEntry>, i: nat, labels: Option<(string, string)>)
    requires i < |files| && labels == Labels(files[i])
    ensures var before := Organized(folder, files[..i]);
      var copied := labels.Some? && files[i].converts;
      && |before| == |Picked(files[..i])|
      && Organized(folder, files[..i + 1])
         == (if copied then before + [Output(labels.value.0, labels.value.1, OutputName(folder, |before|))]
             else before)
      && |Picked(files[..i + 1])| == |Picked(files[..i])| + (if copied then 1 else 0)
  {
    assert files[..i + 1][..i] == files[..i];
    if labels.Some? && files[i].converts {
      NumberedAppend(folder, Picked(files[..i]), labels.value);
    } else {
      assert Picked(files[..i]) + [] == Picked(files[..i]);
    }
  }

  /** One iteration of `organize_dataset_folder`, stated on the copies and the
      counters accumulated so far. */
  lemma FolderStep(written: seq<Output>, stats: Stats, folder: string, files: seq<FileEntry>, i: nat,
                   labels: Option<(string, string)>)
    requires i < |files| && labels == Labels(files[i])
    ensures var before := Organized(folder, files[..i]);
      var after := Organized(folder, files[..i + 1]);
      if labels.Some? && files[i].converts then
        var added := Output(labels.value.0, labels.value.1, OutputName(folder, |Picked(files[..i])|));
        && written + after == (written + before) + [added]
        && StatsAfter(stats, after) == Increment(StatsAfter(stats, before), added.quality, added.fruit)
        && |Picked(files[..i + 1])| == |Picked(files[..i])| + 1
      else
        after == before && |Picked(files[..i + 1])| == |Picked(files[..i])|
  {
    OrganizedStep(folder, files, i, labels);
    if labels.Some? && files[i].converts {
      var before := Organized(folder, files[..i]);
      var added := Output(labels.value.0, labels.value.1, OutputName(folder, |Picked(files[..i])|));
      Seqs.ConcatAssociative(written, before, [added]);
      StatsAfterSnoc(stats, before, added);
    }
  }

  /** Counting one more output increments its counter. */
  lemma StatsAfterSnoc(base: Stats, outputs: seq<Output>, x: Output)
    ensures StatsAfter(base, outputs + [x]) == Increment(StatsAfter(base, outputs), x.quality, x.fruit)
  {
    assert (outputs + [x])[..|outputs|] == outputs;
  }

  /** The labelling step of `organize_dataset_folder` for one file, with its
      per-part retry: the labels of a file that is to be copied, if any. */
  method LabelFile(file: FileEntry) returns (labels: Option<(string, string)>)
    requires PartsOfPath(file)
    ensures labels == Labels(file)
  {
    if !file.isFile || Text.Lower(file.suffix) !in ImageSuffixes {
      return None;
    }
    var fruit := IdentifyFruitType(file.path);
    var quality := IdentifyQualityAsWritten(file.path);
    if fruit == Unknown || quality == Unknown {
      var k := 0;
      while k < |file.parts|
        invariant k <= |file.parts|
        invariant fruit == IdentifyFruitType(file.path) && quality == IdentifyQualityAsWritten(file.path)
      {
        if fruit == Unknown {
          UnknownForPart(FruitMappings, file.path, file.parts[k]);
          fruit := IdentifyFruitType(file.parts[k]);
        }
        if quality == Unknown {
          QualityUnknownForPart(file.path, file.parts[k]);
          quality := IdentifyQualityAsWritten(file.parts[k]);
        }
        k := k + 1;
      }
    }
    if fruit != Unknown && quality != Unknown {
      labels := Some((quality, fruit));
    } else {
      labels := None;
    }
  }

  class DatasetOrganizer {
    var stats: Stats
    /** The images copied so far, in order. */
    var written: seq<Output>

    constructor ()
      ensures stats == [] && written == []
    {
      stats := [];
      written := [];
    }

    /** `organize_dataset_folder`: every image file with known labels whose
        conversion succeeds is copied under its labels with the next number,
        and counted. */
    method OrganizeDatasetFolder(folder: string, files: seq<FileEntry>) returns (processedCount: nat)
      requires forall i :: 0 <= i < |files| ==> PartsOfPath(files[i])
      modifies this
      ensures written == old(written) + Organized(folder, files)
      ensures processedCount == |Organized(folder, files)|
      ensures stats == StatsAfter(old(stats), Organized(folder, files))
    {
      processedCount := 0;
      var counts, copies := stats, written;
      var i := 0;
      while i < |files|
        invariant i <= |files|
        invariant copies == old(written) + Organized(folder, files[..i])
        invariant processedCount == |Picked(files[..i])|
        invariant counts == StatsAfter(old(stats), Organized(folder, files[..i]))
      {
        var file := files[i];
        var labels := LabelFile(file);
        FolderStep(old(written), old(stats), folder, files, i, labels);
        if labels.Some? && file.converts {
          var quality, fruit := labels.value.0, labels.value.1;
          var added := Output(quality, fruit, OutputName(folder, processedCount));
          counts := Increment(counts, quality, fruit);
          copies := copies + [added];
          processedCount := processedCount + 1;
        }
        i := i + 1;
      }
      assert files[..|files|] == files;
      stats, written := counts, copies;
    }

    /** `organize_all_datasets`: every folder but `organized` in turn, then the
        metadata; it fails when there is no folder or nothing was copied. */
    method OrganizeAllDatasets(folders: seq<(string, seq<FileEntry>)>) returns (success: bool, metadata: Option<Metadata>)
      requires forall k, i :: 0 <= k < |folders| && 0 <= i < |folders[k].1| ==> PartsOfPath(folders[k].1[i])
      modifies this
      ensures written == old(written) + AllOrganized(Candidates(folders))
      ensures stats == StatsAfter(old(stats), AllOrganized(Candidates(folders)))
      ensures Candidates(folders) == [] ==> !success && metadata.None? && stats == old(stats)
      ensures Candidates(folders) != [] ==> metadata == Some(MetadataOf(stats))
      ensures success <==> Candidates(folders) != [] && Total(stats) != 0
    {
      var candidates := Candidates(folders);
      if candidates == [] {
        return false, None;
      }
      CandidatesKeepParts(folders);
      var k := 0;
      while k < |candidates|
        invariant k <= |candidates|
        invariant written == old(written) + AllOrganized(candidates[..k])
        invariant stats == StatsAfter(old(stats), AllOrganized(candidates[..k]))
      {
        ghost var done := AllOrganized(candidates[..k]);
        ghost var next := Organized(candidates[k].0, candidates[k].1);
        AllOrganizedStep(candidates, k);
        var _ := OrganizeDatasetFolder(candidates[k].0, candidates[k].1);
        StatsAfterConcat(old(stats), done, next);
        Seqs.ConcatAssociative(old(written), done, next);
        k := k + 1;
      }
      assert candidates[..k] == candidates;
      metadata := Some(MetadataOf(stats));
      success := Total(stats) != 0;
    }
  }

  /** The dataset folders, without the output folder. */
  function Candidates(folders: seq<(string, seq<FileEntry>)>): (r: seq<(string, seq<FileEntry>)>)
    ensures forall k :: 0 <= k < |r| ==> r[k].0 != "organized" && r[k] in folders
    ensures forall k :: 0 <= k < |folders| && folders[k].0 != "organized" ==> folders[k] in r
  {
    if folders == [] then []
    else Candidates(folders[..|folders| - 1])
         + (if folders[|folders| - 1].0 != "organized" then [folders[|folders| - 1]] else [])
  }

  /** The copies of every folder, folder after folder. */
  function AllOrganized(folders: seq<(string, seq<FileEntry>)>): seq<Output> {
    if folders == [] then []
    else AllOrganized(folders[..|folders| - 1]) + Organized(folders[|folders| - 1].0, folders[|folders| - 1].1)
  }

  /** The folders kept keep the path property of their files. */
  lemma CandidatesKeepParts(folders: seq<(string, seq<FileEntry>)>)
    requires forall k, i :: 0 <= k < |folders| && 0 <= i < |folders[k].1| ==> PartsOfPath(folders[k].1[i])
    ensures forall k, i :: 0 <= k < |Candidates(folders)| && 0 <= i < |Candidates(folders)[k].1|
              ==> PartsOfPath(Candidates(folders)[k].1[i])
  {
    var r := Candidates(folders);
    forall k, i | 0 <= k < |r| && 0 <= i < |r[k].1|
      ensures PartsOfPath(r[k].1[i])
    {
      var m :| 0 <= m < |folders| && folders[m] == r[k];
    }
  }

  /** Organizing one more folder appends its copies. */
  lemma AllOrganizedStep(folders: seq<(string, seq<FileEntry>)>, k: nat)
    requires k < |folders|
    ensures AllOrganized(folders[..k + 1]) == AllOrganized(folders[..k]) + Organized(folders[k].0, folders[k].1)
  {
    assert folders[..k + 1][..k] == folders[..k];
  }
}
