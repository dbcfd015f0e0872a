/** `RealImageCollector` of `scripts/collect-real-images.py`: for each priority
    produce type it tries the listed image URLs per state, saves a training
    record for every image that downloads and converts until the category holds
    `target_per_category` records, and writes the chat-format samples. The
    network, the image conversion and `random.randint` are inputs: one `Fetch`
    per URL says whether the download and the conversion succeeded, and carries
    the random rolls. */
module CollectRealImages {
  import opened Wrappers
  import opened Assoc
  import Text
  import Decimal
  import Seqs
  import AnalysisTypes

  const PriorityProduce: seq<string> := [
    "apple", "banana", "orange", "strawberry", "grape", "lemon",
    "tomato", "cucumber", "carrot", "potato", "onion", "bell_pepper",
    "broccoli", "lettuce", "avocado", "mango", "pineapple", "kiwi"
  ]

  /** `sample_images`: fresh and rotten URLs per produce. */
  const SampleImages: seq<(string, (seq<string>, seq<string>))> := [
    ("apple", AppleImages),
    ("banana", BananaImages),
    ("orange", OrangeImages),
    ("tomato", TomatoImages)
  ]

  const AppleImages: (seq<string>, seq<string>) := (
    ["https://images.unsplash.com/photo-1619546813926-a78fa6372cd2?w=300",
     "https://images.unsplash.com/photo-1560806887-1e4cd0b6cbd6?w=300",
     "https://images.unsplash.com/photo-1589217832222-c23b8a3d5a90?w=300"],
    ["https://via.placeholder.com/300x300/8B4513/FFFFFF?text=Rotten+Apple+1",
     "https://via.placeholder.com/300x300/654321/FFFFFF?text=Rotten+Apple+2",
     "https://via.placeholder.com/300x300/8B4513/FFFFFF?text=Rotten+Apple+3"])

  const BananaImages: (seq<string>, seq<string>) := (
    ["https://images.unsplash.com/photo-1603833665858-e61d17a86224?w=300",
     "https://images.unsplash.com/photo-1571771894821-ce9b6c11b08e?w=300",
     "https://images.unsplash.com/photo-1528825871115-3581a5387919?w=300"],
    ["https://via.placeholder.com/300x300/654321/FFFFFF?text=Rotten+Banana+1",
     "https://via.placeholder.com/300x300/8B4513/FFFFFF?text=Rotten+Banana+2",
     "https://via.placeholder.com/300x300/654321/FFFFFF?text=Rotten+Banana+3"])

  const OrangeImages: (seq<string>, seq<string>) := (
    ["https://images.unsplash.com/photo-1547036967-23d11aacaee0?w=300",
     "https://images.unsplash.com/photo-1482012110084-a45c04f45e90?w=300",
     "https://images.unsplash.com/photo-1497486751825-1233686d5d80?w=300"],
    ["https://via.placeholder.com/300x300/654321/FFFFFF?text=Rotten+Orange+1",
     "https://via.placeholder.com/300x300/8B4513/FFFFFF?text=Rotten+Orange+2",
     "https://via.placeholder.com/300x300/654321/FFFFFF?text=Rotten+Orange+3"])

  const TomatoImages: (seq<string>, seq<string>) := (
    ["https://images.unsplash.com/photo-1582284540020-8acbe03f4924?w=300",
     "https://images.unsplash.com/photo-1561136594-7f68413e5a2a?w=300",
     "https://images.unsplash.com/photo-1506471883661-ed75e40eb5c0?w=300"],
    ["https://via.placeholder.com/300x300/654321/FFFFFF?text=Rotten+Tomato+1",
     "https://via.placeholder.com/300x300/8B4513/FFFFFF?text=Rotten+Tomato+2",
     "https://via.placeholder.com/300x300/654321/FFFFFF?text=Rotten+Tomato+3"])

  const FreshPlaceholder: string := "https://via.placeholder.com/300x300/00FF00/FFFFFF?text=Fresh+"
  const RottenPlaceholder: string := "https://via.placeholder.com/300x300/8B4513/FFFFFF?text=Rotten+"

  /** The URLs tried for `produce`: the listed ones, or one placeholder per state. */
  function UrlsFor(produce: string): (seq<string>, seq<string>) {
    Lookup(SampleImages, produce,
           ([FreshPlaceholder + Text.Title(produce)], [RottenPlaceholder + Text.Title(produce)]))
  }

  /** Produce without listed images gets exactly one placeholder URL per state,
      naming it in title case. */
  lemma FallbackUrls(produce: string)
    requires produce != "apple" && produce != "banana" && produce != "orange" && produce != "tomato"
    ensures |UrlsFor(produce).0| == 1 && |UrlsFor(produce).1| == 1
    ensures Text.Contains(UrlsFor(produce).0[0], Text.Title(produce))
    ensures Text.Contains(UrlsFor(produce).1[0], Text.Title(produce))
  {
    assert forall j :: 0 <= j < |SampleImages| ==> SampleImages[j].0 != produce;
    assert Find(SampleImages, produce).None?;
    Text.ContainsMiddle(FreshPlaceholder, Text.Title(produce), "");
    Text.ContainsMiddle(RottenPlaceholder, Text.Title(produce), "");
    assert FreshPlaceholder + Text.Title(produce) + "" == FreshPlaceholder + Text.Title(produce);
    assert RottenPlaceholder + Text.Title(produce) + "" == RottenPlaceholder + Text.Title(produce);
  }

  /** A characteristics template, with its quality indicators. */
  datatype Template = Template(color: string, texture: string, blemishes: string, ripeness: string,
                               indicators: seq<string>)

  const FreshTemplates: seq<(string, Template)> := [
    ("apple", FreshApple),
    ("banana", FreshBanana),
    ("orange", FreshOrange),
    ("tomato", FreshTomato)
  ]

  const FreshApple: Template :=
    Template("Bright red with natural shine", "Firm and crisp skin",
             "None visible", "Perfect eating stage",
             ["Glossy skin", "Firm texture", "Natural color"])

  const FreshBanana: Template :=
    Template("Golden yellow", "Smooth peel with slight firmness",
             "None or minimal brown spots", "Perfect ripeness for eating",
             ["Uniform yellow color", "No dark spots", "Proper firmness"])

  const FreshOrange: Template :=
    Template("Vibrant orange", "Smooth, tight skin",
             "None visible", "Juicy and ready to eat",
             ["Bright color", "Heavy for size", "Firm skin"])

  const FreshTomato: Template :=
    Template("Deep red", "Smooth, taut skin",
             "None visible", "Perfectly ripe",
             ["Even red color", "Firm but yielding", "Fresh smell"])

  const RottenTemplates: seq<(string, Template)> := [
    ("apple", RottenApple),
    ("banana", RottenBanana),
    ("orange", RottenOrange),
    ("tomato", RottenTomato)
  ]

  const RottenApple: Template :=
    Template("Brown spots and dull appearance", "Soft, wrinkled skin",
             "Multiple dark spots and discoloration", "Overripe and spoiled",
             ["Dark spots", "Mushy texture", "Off smell"])

  const RottenBanana: Template :=
    Template("Brown to black with spots", "Very soft, possibly leaking",
             "Large brown areas and soft spots", "Severely overripe",
             ["Extensive browning", "Mushy texture", "Strong fermented smell"])

  const RottenOrange: Template :=
    Template("Dull with dark patches", "Soft spots and wrinkled skin",
             "Mold growth and discoloration", "Spoiled and inedible",
             ["Mold presence", "Soft texture", "Unpleasant odor"])

  const RottenTomato: Template :=
    Template("Dark patches with possible mold", "Soft, leaking areas",
             "Visible mold and rot", "Spoiled beyond consumption",
             ["Mold growth", "Leaking juice", "Putrid smell"])

  function GenericTemplate(state: string): Template {
    if state == "fresh" then
      Template("Natural color", "Proper texture", "None or minimal", "Good condition", ["Good quality"])
    else
      Template("Discolored", "Deteriorated texture", "Visible spoilage", "Spoiled condition", ["Poor quality"])
  }

  function TemplateFor(produce: string, state: string): Template {
    Lookup(if state == "fresh" then FreshTemplates else RottenTemplates, produce, GenericTemplate(state))
  }

  /** Produce without a template gets the generic template of its state. */
  lemma GenericWithoutTemplate(produce: string, state: string)
    requires produce != "apple" && produce != "banana" && produce != "orange" && produce != "tomato"
    ensures TemplateFor(produce, state) == GenericTemplate(state)
  {
    FindKeys(FreshTemplates, produce);
    FindKeys(RottenTemplates, produce);
    assert Keys(FreshTemplates) == ["apple", "banana", "orange", "tomato"];
    assert Keys(RottenTemplates) == ["apple", "banana", "orange", "tomato"];
  }

  /** `random.randint(lo, hi)` driven by an arbitrary roll. */
  function RandInt(lo: int, hi: int, roll: nat): (r: int)
    requires lo <= hi
    ensures lo <= r <= hi
  {
    lo + roll % (hi - lo + 1)
  }

  /** Every value of the range is drawn by some roll. */
  lemma RandIntCovers(lo: int, hi: int, v: int)
    requires lo <= v <= hi
    ensures RandInt(lo, hi, (v - lo) as nat) == v
  {
  }

  /** The content of one saved record file. */
  datatype RealSample = RealSample(produce: string, state: string, index: nat, image: string,
                                   characteristics: AnalysisTypes.Characteristics,
                                   freshnessScore: int, confidence: int, recommendation: string,
                                   details: string)

  /** The closing sentence of `details`: the first quality indicator. */
  function Indicator(t: Template): string {
    if |t.indicators| > 0 then t.indicators[0] else "Quality assessment complete"
  }

  /** `generate_realistic_sample_data`. */
  function SampleData(produce: string, state: string, index: nat, image: string,
                      scoreRoll: nat, confidenceRoll: nat): (r: RealSample)
    ensures r.produce == produce && r.state == state && r.index == index && r.image == image
    ensures state == "fresh" ==> 80 <= r.freshnessScore <= 95
    ensures state != "fresh" ==> 10 <= r.freshnessScore <= 30
    ensures 85 <= r.confidence <= 95
    ensures r.recommendation == "buy" <==> state == "fresh"
    ensures r.recommendation == "buy" || r.recommendation == "avoid"
  {
    var t := TemplateFor(produce, state);
    RealSample(produce, state, index, image,
               AnalysisTypes.Characteristics(t.color, t.texture, t.blemishes, t.ripeness),
               if state == "fresh" then RandInt(80, 95, scoreRoll) else RandInt(10, 30, scoreRoll),
               RandInt(85, 95, confidenceRoll),
               if state == "fresh" then "buy" else "avoid",
               "This " + Text.ReplaceChar(produce, '_', ' ') + " appears to be " + state
               + ". Analysis shows " + Text.Lower(t.color) + " with " + Text.Lower(t.texture)
               + ". " + Indicator(t) + ".")
  }

  /** The record keeps exactly the four descriptive fields of the template, and
      its details end with the template's first quality indicator. */
  lemma SampleKeepsTemplate(produce: string, state: string, index: nat, image: string,
                            scoreRoll: nat, confidenceRoll: nat)
    ensures var r := SampleData(produce, state, index, image, scoreRoll, confidenceRoll);
      var t := TemplateFor(produce, state);
      && r.characteristics == AnalysisTypes.Characteristics(t.color, t.texture, t.blemishes, t.ripeness)
      && Text.Contains(r.details, Indicator(t) + ".")
  {
    var r := SampleData(produce, state, index, image, scoreRoll, confidenceRoll);
    var t := TemplateFor(produce, state);
    var head := "This " + Text.ReplaceChar(produce, '_', ' ') + " appears to be " + state
                + ". Analysis shows " + Text.Lower(t.color) + " with " + Text.Lower(t.texture) + ". ";
    assert r.details == head + (Indicator(t) + ".");
    Text.ContainsMiddle(head, Indicator(t) + ".", "");
    assert head + (Indicator(t) + ".") + "" == r.details;
  }

  /** What happened to one URL: whether the download returned content, the
      converted image if conversion succeeded, and the random rolls. */
  datatype Fetch = Fetch(downloaded: bool, converted: Option<string>, scoreRoll: nat, confidenceRoll: nat)

  predicate Succeeded(f: Fetch) {
    f.downloaded && f.converted.Some?
  }

  /** The URL indices whose records get saved when the first `n` URLs have been
      considered: a success is saved while fewer than `target` are. */
  function Saved(fetches: seq<Fetch>, target: nat, n: nat): (r: seq<nat>)
    requires n <= |fetches|
    ensures |r| <= target && |r| <= n
    ensures forall k :: 0 <= k < |r| ==> r[k] < n && Succeeded(fetches[r[k]])
    ensures forall j, k :: 0 <= j < k < |r| ==> r[j] < r[k]
  {
    if n == 0 then []
    else
      var s := Saved(fetches, target, n - 1);
      if |s| < target && Succeeded(fetches[n - 1]) then s + [n - 1] else s
  }

  /** No success is skipped before the category is full: while fewer than
      `target` are saved, every successful URL so far is among them. */
  lemma {:induction false} SavedComplete(fetches: seq<Fetch>, target: nat, n: nat, i: nat)
    requires i < n <= |fetches|
    requires |Saved(fetches, target, n)| < target && Succeeded(fetches[i])
    ensures i in Saved(fetches, target, n)
  {
    var s := Saved(fetches, target, n - 1);
    if i < n - 1 {
      SavedComplete(fetches, target, n - 1, i);
    }
  }

  /** Once the category is full nothing more is saved. */
  lemma {:induction false} SavedStable(fetches: seq<Fetch>, target: nat, i: nat, n: nat)
    requires i <= n <= |fetches|
    requires |Saved(fetches, target, i)| >= target
    ensures Saved(fetches, target, n) == Saved(fetches, target, i)
  {
    if n > i {
      SavedStable(fetches, target, i, n - 1);
    }
  }

  /** The file one saved URL produces: its path and content. */
  function Entry(produce: string, state: string, i: nat, f: Fetch): (string, RealSample) {
    ("global-training-data/" + state + "/" + produce + "/"
       + produce + "_" + state + "_" + Decimal.Padded(i, 2) + ".json",
     SampleData(produce, state, i, f.converted.GetOr(""), f.scoreRoll, f.confidenceRoll))
  }

  function Entries(produce: string, state: string, fetches: seq<Fetch>, saved: seq<nat>): (r: seq<(string, RealSample)>)
    requires forall k :: 0 <= k < |saved| ==> saved[k] < |fetches|
    ensures |r| == |saved|
  {
    seq(|saved|, k requires 0 <= k < |saved| => Entry(produce, state, saved[k], fetches[saved[k]]))
  }

  /** Considering one more URL appends its entry exactly when it is saved. */
  lemma EntriesStep(produce: string, state: string, fetches: seq<Fetch>, target: nat, i: nat)
    requires i < |fetches|
    ensures var before := Entries(produce, state, fetches, Saved(fetches, target, i));
      Entries(produce, state, fetches, Saved(fetches, target, i + 1))
        == if |before| < target && Succeeded(fetches[i])
           then before + [Entry(produce, state, i, fetches[i])] else before
  {
  }

  /** A saved record's content is built from the image its URL converted to. */
  lemma SavedRecordsUseConvertedImages(produce: string, state: string, fetches: seq<Fetch>, target: nat, k: nat)
    requires k < |Saved(fetches, target, |fetches|)|
    ensures var i := Saved(fetches, target, |fetches|)[k];
      && Succeeded(fetches[i])
      && Entries(produce, state, fetches, Saved(fetches, target, |fetches|))[k].1.image == fetches[i].converted.value
  {
  }

  /** One URL of that loop, below the target: its record is saved when the
      download and the conversion succeed. */
  method Consider(produce: string, state: string, fetches: seq<Fetch>, target: nat, i: nat,
                  files: seq<(string, RealSample)>, count: nat)
    returns (files': seq<(string, RealSample)>, count': nat)
    requires i < |fetches| && count < target
    requires files == Entries(produce, state, fetches, Saved(fetches, target, i)) && count == |files|
    ensures files' == Entries(produce, state, fetches, Saved(fetches, target, i + 1)) && count' == |files'|
  {
    var f := fetches[i];
    EntriesStep(produce, state, fetches, target, i);
    files', count' := files, count;
    if f.downloaded {
      if f.converted.Some? {
        files' := files + [Entry(produce, state, i, f)];
        count' := count + 1;
      }
    }
  }

  /** One state's loop of `collect_images_for_produce`: returns the files saved
      and their number. */
  method Gather(produce: string, state: string, fetches: seq<Fetch>, target: nat)
    returns (files: seq<(string, RealSample)>, count: nat)
    ensures files == Entries(produce, state, fetches, Saved(fetches, target, |fetches|))
    ensures count == |files| <= target
  {
    files, count := [], 0;
    var i := 0;
    while i < |fetches|
      invariant i <= |fetches|
      invariant files == Entries(produce, state, fetches, Saved(fetches, target, i))
      invariant count == |files|
    {
      if count >= target {
        SavedStable(fetches, target, i, |fetches|);
        return;
      }
      files, count := Consider(produce, state, fetches, target, i, files, count);
      i := i + 1;
    }
  }

  /** An entry of `collected_images` (`has_real_image` is always true). */
  datatype ImageRecord = ImageRecord(produce: string, state: string, file: string)

  function Listed(files: seq<(string, RealSample)>): (r: seq<ImageRecord>)
    ensures |r| == |files|
  {
    seq(|files|, k requires 0 <= k < |files| => ImageRecord(files[k].1.produce, files[k].1.state, files[k].0))
  }

  /** Listing distributes over concatenation. */
  lemma ListedConcat(a: seq<(string, RealSample)>, b: seq<(string, RealSample)>)
    ensures Listed(a + b) == Listed(a) + Listed(b)
  {
  }

  /** Everything one produce saves: its fresh files, then its rotten files. */
  function ProduceEntries(produce: string, freshFetches: seq<Fetch>, rottenFetches: seq<Fetch>, target: nat): seq<(string, RealSample)> {
    Entries(produce, "fresh", freshFetches, Saved(freshFetches, target, |freshFetches|))
      + Entries(produce, "rotten", rottenFetches, Saved(rottenFetches, target, |rottenFetches|))
  }

  /** Everything `collect_all_images` saves, produce after produce. */
  function AllEntries(produce: seq<string>, outcomes: seq<(seq<Fetch>, seq<Fetch>)>, target: nat): seq<(string, RealSample)>
    requires |outcomes| == |produce|
  {
    if produce == [] then []
    else
      var n := |produce| - 1;
      AllEntries(produce[..n], outcomes[..n], target) + ProduceEntries(produce[n], outcomes[n].0, outcomes[n].1, target)
  }

  /** The assistant message of a fine-tuning sample, before JSON encoding. */
  datatype Answer = Answer(item: string, classification: string, freshness: int, recommendation: string,
                           confidence: int, characteristics: AnalysisTypes.Characteristics, details: string)

  datatype TrainingSample = TrainingSample(userText: string, imageUrl: string, answer: Answer)

  /** The conversion in `create_updated_training_file` of a record file read back. */
  function TrainingSampleFor(d: RealSample): (t: TrainingSample)
    ensures t.imageUrl == d.image
    ensures t.answer == Answer(Text.Title(Text.ReplaceChar(d.produce, '_', ' ')), d.state, d.freshnessScore,
                               d.recommendation, d.confidence, d.characteristics, d.details)
  {
    TrainingSample("Analyze this " + Text.ReplaceChar(d.produce, '_', ' ')
                     + " for freshness and provide classification.",
                   d.image,
                   Answer(Text.Title(Text.ReplaceChar(d.produce, '_', ' ')), d.state, d.freshnessScore,
                          d.recommendation, d.confidence, d.characteristics, d.details))
  }

  /** A sample built from a saved record labels it the way the record does:
      buy exactly for fresh, with the record's score in its state's range. */
  lemma TrainingSampleKeepsLabel(produce: string, state: string, i: nat, f: Fetch)
    ensures var a := TrainingSampleFor(Entry(produce, state, i, f).1).answer;
      && (a.recommendation == "buy" <==> state == "fresh")
      && (state == "fresh" ==> 80 <= a.freshness <= 95)
      && (state != "fresh" ==> 10 <= a.freshness <= 30)
      && a.classification == state
  {
  }

  class RealImageCollector {
    var priorityProduce: seq<string>
    var target: nat
    var collectedImages: seq<ImageRecord>
    /** The record files written, in order. */
    var written: seq<(string, RealSample)>

    /** The listed records are the written files, one for one. */
    predicate Valid()
      reads this
    {
      collectedImages == Listed(written)
    }

    constructor ()
      ensures Valid()
      ensures priorityProduce == PriorityProduce && target == 10
      ensures collectedImages == [] && written == []
    {
      priorityProduce := PriorityProduce;
      target := 10;
      collectedImages := [];
      written := [];
    }

    /** `collect_images_for_produce`, given what happens to each URL. */
    method CollectImagesForProduce(produce: string, freshFetches: seq<Fetch>, rottenFetches: seq<Fetch>)
      requires Valid()
      modifies this
      ensures Valid()
      ensures priorityProduce == old(priorityProduce) && target == old(target)
      ensures written == old(written) + ProduceEntries(produce, freshFetches, rottenFetches, target)
    {
      var freshFiles, freshCount := Gather(produce, "fresh", freshFetches, target);
      var rottenFiles, rottenCount := Gather(produce, "rotten", rottenFetches, target);
      var added := freshFiles + rottenFiles;
      ListedConcat(freshFiles, rottenFiles);
      ListedConcat(written, added);
      collectedImages := collectedImages + Listed(added);
      written := written + added;
    }

    /** `collect_all_images`: every priority produce in turn; `outcomes[k]` holds
        what happens to the fresh and the rotten URLs of the k-th one. */
    method CollectAllImages(outcomes: seq<(seq<Fetch>, seq<Fetch>)>)
      requires Valid() && |outcomes| == |priorityProduce|
      modifies this
      ensures Valid()
      ensures priorityProduce == old(priorityProduce) && target == old(target)
      ensures written == old(written) + AllEntries(priorityProduce, outcomes, target)
    {
      var ps := priorityProduce;
      var k := 0;
      while k < |ps|
        invariant k <= |ps| && Valid()
        invariant priorityProduce == ps && target == old(target)
        invariant written == old(written) + AllEntries(ps[..k], outcomes[..k], target)
      {
        ghost var before := written;
        CollectImagesForProduce(ps[k], outcomes[k].0, outcomes[k].1);
        assert ps[..k + 1][..k] == ps[..k];
        assert outcomes[..k + 1][..k] == outcomes[..k];
        Seqs.ConcatAssociative(old(written), AllEntries(ps[..k], outcomes[..k], target),
                               ProduceEntries(ps[k], outcomes[k].0, outcomes[k].1, target));
        k := k + 1;
      }
      assert ps[..k] == ps && outcomes[..k] == outcomes;
    }

    /** `create_updated_training_file`: each listed record's file is read back
        and converted, in order. */
    method CreateUpdatedTrainingFile() returns (samples: seq<TrainingSample>)
      requires Valid()
      ensures |samples| == |collectedImages|
      ensures forall k :: 0 <= k < |samples| ==> samples[k] == TrainingSampleFor(written[k].1)
    {
      var files := written;
      samples := [];
      for k := 0 to |files|
        invariant |samples| == k
        invariant forall j :: 0 <= j < k ==> samples[j] == TrainingSampleFor(files[j].1)
      {
        samples := samples + [TrainingSampleFor(files[k].1)];
      }
    }
  }
}
