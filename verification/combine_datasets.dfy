/** `combine_datasets` of `scripts/combine-datasets.py`: builds a balanced
    fine-tuning file from the real-image samples and the synthetic samples,
    with a capped top-up of fresh synthetic samples. A missing input file is
    `None`; a sample is its assistant message, with the label JSON parsing
    would find in it. */
module CombineDatasets {
  import opened Wrappers
  import Text
  import Decimal
  import Arith

  /** One JSONL sample: the raw assistant message and its `classification`. */
  datatype Sample = Sample(classification: string, content: string)

  /** How a sample is judged to be of a kind ("fresh" or "rotten"). */
  type Tag = (Sample, string) -> bool

  /** The test the script performs: `word in sample['messages'][2]['content']`. */
  predicate MentionsAsWritten(s: Sample, word: string) {
    Text.Contains(s.content, word)
  }

  /** The evidently intended test: the sample's classification is `word`. */
  predicate Labelled(s: Sample, word: string) {
    s.classification == word
  }

  /** The samples of `xs` of kind `word`, in order. */
  function Filter(xs: seq<Sample>, tag: Tag, word: string): (r: seq<Sample>)
    ensures |r| <= |xs|
  {
    if xs == [] then []
    else Filter(xs[..|xs| - 1], tag, word) + (if tag(xs[|xs| - 1], word) then [xs[|xs| - 1]] else [])
  }

  /** Every kept sample comes from `xs` and is of kind `word`. */
  lemma {:induction false} FilterSound(xs: seq<Sample>, tag: Tag, word: string)
    ensures forall i :: 0 <= i < |Filter(xs, tag, word)| ==>
      Filter(xs, tag, word)[i] in xs && tag(Filter(xs, tag, word)[i], word)
  {
    if xs != [] {
      var init := xs[..|xs| - 1];
      FilterSound(init, tag, word);
      var fi := Filter(init, tag, word);
      var r := Filter(xs, tag, word);
      assert r == fi + (if tag(xs[|xs| - 1], word) then [xs[|xs| - 1]] else []);
      forall i | 0 <= i < |r| ensures r[i] in xs && tag(r[i], word) {
        if i < |fi| {
          assert r[i] == fi[i];
          assert fi[i] in init;
        }
      }
    }
  }

  /** Every sample of `xs` of kind `word` is kept. */
  lemma {:induction false} FilterComplete(xs: seq<Sample>, tag: Tag, word: string)
    ensures forall i :: 0 <= i < |xs| && tag(xs[i], word) ==> xs[i] in Filter(xs, tag, word)
  {
    if xs != [] {
      var init := xs[..|xs| - 1];
      FilterComplete(init, tag, word);
      assert forall i :: 0 <= i < |init| ==> init[i] == xs[i];
      var last := if tag(xs[|xs| - 1], word) then [xs[|xs| - 1]] else [];
      assert Filter(xs, tag, word) == Filter(init, tag, word) + last;
    }
  }

  lemma {:induction false} FilterConcat(a: seq<Sample>, b: seq<Sample>, tag: Tag, word: string)
    ensures Filter(a + b, tag, word) == Filter(a, tag, word) + Filter(b, tag, word)
  {
    if b == [] {
      assert a + b == a;
    } else {
      assert (a + b)[..|a + b| - 1] == a + b[..|b| - 1];
      FilterConcat(a, b[..|b| - 1], tag, word);
    }
  }

  /** Filtering a prefix gives a prefix of the filtered whole. */
  lemma {:induction false} FilterPrefix(xs: seq<Sample>, i: nat, tag: Tag, word: string)
    requires i <= |xs|
    ensures Filter(xs[..i], tag, word) <= Filter(xs, tag, word)
  {
    if i < |xs| {
      assert xs[..|xs| - 1][..i] == xs[..i];
      FilterPrefix(xs[..|xs| - 1], i, tag, word);
    } else {
      assert xs[..i] == xs;
    }
  }

  lemma {:induction false} FilterAll(xs: seq<Sample>, tag: Tag, word: string)
    requires forall i :: 0 <= i < |xs| ==> tag(xs[i], word)
    ensures Filter(xs, tag, word) == xs
  {
    if xs != [] {
      var init := xs[..|xs| - 1];
      assert forall i :: 0 <= i < |init| ==> init[i] == xs[i];
      FilterAll(init, tag, word);
      assert xs == init + [xs[|xs| - 1]];
    }
  }

  lemma {:induction false} FilterNone(xs: seq<Sample>, tag: Tag, word: string)
    requires forall i :: 0 <= i < |xs| ==> !tag(xs[i], word)
    ensures Filter(xs, tag, word) == []
  {
    if xs != [] {
      var init := xs[..|xs| - 1];
      assert forall i :: 0 <= i < |init| ==> init[i] == xs[i];
      FilterNone(init, tag, word);
    }
  }

  /** `len([s for s in samples if <kind> ...])`. */
  function Count(xs: seq<Sample>, tag: Tag, word: string): nat {
    |Filter(xs, tag, word)|
  }

  /** The first `n` of `s`, or all of it. */
  function Take(s: seq<Sample>, n: nat): (r: seq<Sample>)
    ensures |r| == Arith.Min(n, |s|) && r <= s
  {
    s[..Arith.Min(n, |s|)]
  }

  /** The first two loops: real samples of kind fresh, then synthetic samples of
      kind rotten. */
  function Selected(realImages: Option<seq<Sample>>, original: Option<seq<Sample>>, tag: Tag): seq<Sample> {
    Filter(realImages.GetOr([]), tag, "fresh") + Filter(original.GetOr([]), tag, "rotten")
  }

  /** `needed`: the shortfall of fresh samples, capped at 50; zero when none. */
  function Needed(selected: seq<Sample>, tag: Tag): (n: nat)
    ensures n <= 50
    ensures n > 0 <==> Count(selected, tag, "fresh") < Count(selected, tag, "rotten")
    ensures n > 0 ==> n == Arith.Min(Count(selected, tag, "rotten") - Count(selected, tag, "fresh"), 50)
  {
    var f, r := Count(selected, tag, "fresh"), Count(selected, tag, "rotten");
    if f < r then Arith.Min(r - f, 50) else 0
  }

  /** The samples the top-up loop appends: the first `needed` synthetic samples
      of kind fresh. */
  function TopUp(realImages: Option<seq<Sample>>, original: Option<seq<Sample>>, tag: Tag): (r: seq<Sample>)
    ensures |r| <= Needed(Selected(realImages, original, tag), tag)
    ensures forall i :: 0 <= i < |r| ==> r[i] in original.GetOr([]) && tag(r[i], "fresh")
  {
    FilterSound(original.GetOr([]), tag, "fresh");
    var f := Filter(original.GetOr([]), tag, "fresh");
    var r := Take(f, Needed(Selected(realImages, original, tag), tag));
    assert forall i :: 0 <= i < |r| ==> r[i] == f[i] && f[i] in original.GetOr([]) && tag(f[i], "fresh");
    Take(Filter(original.GetOr([]), tag, "fresh"), Needed(Selected(realImages, original, tag), tag))
  }

  /** The combined file, in order. */
  function Combined(realImages: Option<seq<Sample>>, original: Option<seq<Sample>>, tag: Tag): seq<Sample> {
    Selected(realImages, original, tag) + TopUp(realImages, original, tag)
  }

  /** The top-up never reopens a missing synthetic file: without it every
      selected sample is a real one of kind fresh, so fresh samples are not
      outnumbered. */
  lemma TopUpNeedsOriginal(realImages: Option<seq<Sample>>, original: Option<seq<Sample>>, tag: Tag)
    requires Needed(Selected(realImages, original, tag), tag) > 0
    ensures original.Some?
  {
    if original.None? {
      var sel := Selected(realImages, original, tag);
      assert sel == Filter(realImages.GetOr([]), tag, "fresh") + [];
      FilterSound(realImages.GetOr([]), tag, "fresh");
      FilterAll(sel, tag, "fresh");
    }
  }

  /** When enough synthetic fresh samples exist, the top-up closes the gap up to
      the cap of 50. */
  lemma TopUpSize(realImages: Option<seq<Sample>>, original: Option<seq<Sample>>, tag: Tag)
    requires Count(original.GetOr([]), tag, "fresh") >= Needed(Selected(realImages, original, tag), tag)
    ensures |TopUp(realImages, original, tag)| == Needed(Selected(realImages, original, tag), tag)
  {
  }

  /** A reading loop of `combine_datasets`: the lines of kind `word`, in order. */
  method Keep(lines: seq<Sample>, tag: Tag, word: string) returns (kept: seq<Sample>)
    ensures kept == Filter(lines, tag, word)
  {
    kept := [];
    for i := 0 to |lines|
      invariant kept == Filter(lines[..i], tag, word)
    {
      assert lines[..i + 1][..i] == lines[..i];
      if tag(lines[i], word) {
        kept := kept + [lines[i]];
      }
    }
    assert lines[..|lines|] == lines;
  }

  /** The top-up loop: appends fresh lines until `needed` were added. */
  method TakeFresh(lines: seq<Sample>, tag: Tag, needed: nat) returns (picked: seq<Sample>)
    ensures picked == Take(Filter(lines, tag, "fresh"), needed)
  {
    picked := [];
    var added := 0;
    var i := 0;
    while i < |lines|
      invariant i <= |lines|
      invariant picked == Take(Filter(lines[..i], tag, "fresh"), needed)
      invariant added == |picked|
    {
      ghost var before := Filter(lines[..i], tag, "fresh");
      if added >= needed {
        FilterPrefix(lines, i, tag, "fresh");
        assert |before| >= needed;
        assert Take(Filter(lines, tag, "fresh"), needed) == before[..needed];
        return;
      }
      assert before[..|before|] == before;
      assert picked == before;
      assert lines[..i + 1][..i] == lines[..i];
      if tag(lines[i], "fresh") {
        ghost var after := before + [lines[i]];
        assert Filter(lines[..i + 1], tag, "fresh") == after;
        assert after[..|after|] == after;
        picked := picked + [lines[i]];
        added := added + 1;
      } else {
        assert Filter(lines[..i + 1], tag, "fresh") == before;
      }
      i := i + 1;
    }
    assert lines[..i] == lines;
  }

  /** `combine_datasets`, judging kinds with `tag`; returns the lines written. */
  method Combine(realImages: Option<seq<Sample>>, original: Option<seq<Sample>>, tag: Tag)
    returns (samples: seq<Sample>)
    ensures samples == Combined(realImages, original, tag)
  {
    samples := [];
    if realImages.Some? {
      samples := Keep(realImages.value, tag, "fresh");
    }
    if original.Some? {
      var rotten := Keep(original.value, tag, "rotten");
      samples := samples + rotten;
    }
    assert samples == Selected(realImages, original, tag);
    var freshCount, rottenCount := Count(samples, tag, "fresh"), Count(samples, tag, "rotten");
    if freshCount < rottenCount {
      var needed := Arith.Min(rottenCount - freshCount, 50);
      TopUpNeedsOriginal(realImages, original, tag);
      var extra := TakeFresh(original.value, tag, needed);
      samples := samples + extra;
    }
  }

  /** What `json.dumps` makes of the first fields of a training answer, as both
      training-file writers produce it (item, classification, then freshness). */
  function EncodedAnswer(item: string, classification: string, freshness: nat, rest: string): string {
    "{\"item\": \"" + item + "\", \"classification\": \"" + classification
      + "\", \"freshness\": " + Decimal.NatToString(freshness) + rest
  }

  /** Every written answer carries the key "freshness", so the substring test
      finds "fresh" in every sample, whatever its classification. */
  lemma EveryAnswerMentionsFresh(item: string, classification: string, freshness: nat, rest: string)
    ensures MentionsAsWritten(Sample(classification, EncodedAnswer(item, classification, freshness, rest)), "fresh")
  {
    var pre := "{\"item\": \"" + item + "\", \"classification\": \"" + classification + "\", \"";
    var post := "\": " + Decimal.NatToString(freshness) + rest;
    assert EncodedAnswer(item, classification, freshness, rest) == pre + "freshness" + post;
    Text.ContainsMiddle(pre, "freshness", post);
    assert Text.OccursAt("freshness", "fresh", 0);
    Text.ContainsTransitive(pre + "freshness" + post, "freshness", "fresh");
  }

  /** The sample's content is an answer as the training-file writers produce it. */
  ghost predicate IsWrittenAnswer(s: Sample) {
    exists item, f: nat, rest :: s.content == EncodedAnswer(item, s.classification, f, rest)
  }

  /** As written, a real-image sample classified rotten passes the "fresh only"
      filter and lands in the combined file. */
  lemma RottenRealSampleKeptAsWritten()
    ensures var s := Sample("rotten", EncodedAnswer("Apple", "rotten", 20, "}"));
      s in Combined(Some([s]), None, MentionsAsWritten)
  {
    var s := Sample("rotten", EncodedAnswer("Apple", "rotten", 20, "}"));
    EveryAnswerMentionsFresh("Apple", "rotten", 20, "}");
    assert Filter([s], MentionsAsWritten, "fresh") == [s] by {
      FilterAll([s], MentionsAsWritten, "fresh");
    }
  }

  /** As written, when every sample is a written answer the top-up never runs:
      every selected sample counts as fresh. */
  lemma NoTopUpAsWritten(realImages: Option<seq<Sample>>, original: Option<seq<Sample>>)
    requires forall s :: s in realImages.GetOr([]) ==> IsWrittenAnswer(s)
    requires forall s :: s in original.GetOr([]) ==> IsWrittenAnswer(s)
    ensures Needed(Selected(realImages, original, MentionsAsWritten), MentionsAsWritten) == 0
  {
    var fs := Filter(realImages.GetOr([]), MentionsAsWritten, "fresh");
    var rs := Filter(original.GetOr([]), MentionsAsWritten, "rotten");
    var sel := Selected(realImages, original, MentionsAsWritten);
    assert sel == fs + rs;
    FilterSound(realImages.GetOr([]), MentionsAsWritten, "fresh");
    FilterSound(original.GetOr([]), MentionsAsWritten, "rotten");
    forall i | 0 <= i < |sel| ensures MentionsAsWritten(sel[i], "fresh") {
      var s := sel[i];
      if i < |fs| {
        assert s == fs[i];
      } else {
        assert s == rs[i - |fs|];
        assert IsWrittenAnswer(s);
        var item, f: nat, rest :| s.content == EncodedAnswer(item, s.classification, f, rest);
        EveryAnswerMentionsFresh(item, s.classification, f, rest);
      }
    }
    FilterAll(sel, MentionsAsWritten, "fresh");
  }

  /** With the intended test the combined file starts with exactly the real
      samples classified fresh, followed by synthetic samples classified rotten,
      and the top-up adds only samples classified fresh. */
  lemma CombinedByLabel(realImages: Option<seq<Sample>>, original: Option<seq<Sample>>)
    ensures var c := Combined(realImages, original, Labelled);
      var k := Count(realImages.GetOr([]), Labelled, "fresh");
      var t := TopUp(realImages, original, Labelled);
      && (forall i :: 0 <= i < k ==> c[i].classification == "fresh" && c[i] in realImages.GetOr([]))
      && (forall i :: 0 <= i < |realImages.GetOr([])| && realImages.GetOr([])[i].classification == "fresh"
            ==> realImages.GetOr([])[i] in c[..k])
      && (forall i :: 0 <= i < |t| ==> t[i].classification == "fresh")
  {
    var xs := realImages.GetOr([]);
    var c := Combined(realImages, original, Labelled);
    var f := Filter(xs, Labelled, "fresh");
    assert c[..|f|] == f;
    FilterSound(xs, Labelled, "fresh");
    FilterComplete(xs, Labelled, "fresh");
  }

  /** With the intended test the top-up never overshoots: fresh samples end at
      most as many as rotten ones, and reach them when the gap is at most 50 and
      enough synthetic fresh samples exist. */
  lemma BalancedByLabel(realImages: Option<seq<Sample>>, original: Option<seq<Sample>>)
    requires var sel := Selected(realImages, original, Labelled);
      Count(sel, Labelled, "fresh") < Count(sel, Labelled, "rotten")
    ensures var sel := Selected(realImages, original, Labelled);
      var c := Combined(realImages, original, Labelled);
      && Count(c, Labelled, "rotten") == Count(sel, Labelled, "rotten")
      && Count(c, Labelled, "fresh") <= Count(c, Labelled, "rotten")
      && (Count(sel, Labelled, "rotten") - Count(sel, Labelled, "fresh") <= 50
          && Count(original.GetOr([]), Labelled, "fresh") >= Needed(sel, Labelled)
          ==> Count(c, Labelled, "fresh") == Count(c, Labelled, "rotten"))
  {
    var sel := Selected(realImages, original, Labelled);
    var t := TopUp(realImages, original, Labelled);
    FilterConcat(sel, t, Labelled, "fresh");
    FilterConcat(sel, t, Labelled, "rotten");
    FilterAll(t, Labelled, "fresh");
    FilterNone(t, Labelled, "rotten");
  }
}
