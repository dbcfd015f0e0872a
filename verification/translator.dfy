/** `app/lib/translator.ts`: phrase-table translation of analysis text, and the
    structure-preserving translation of whole result objects. */
module Translator {
  import opened Wrappers
  import opened Text
  import LanguageDetector
  import Sorting
  import Seqs

  /** One entry of a phrase table: an English term and its translation. */
  datatype Entry = Entry(term: string, text: string)

  /** The phrase tables by language code, each in declaration order. */
  type PhraseTables = map<string, seq<Entry>>

  /** The languages the source has a phrase table for. */
  const TableLanguages: set<string> := {"zh", "es", "fr"}

  /** The language `translateText` works in: the target when it is non-empty; else,
      with a non-empty user agent, zh/es/fr by substring and English otherwise;
      else the browser's language code. */
  function ResolveLanguage(target: Option<string>, userAgent: Option<string>,
                           locale: Option<string>): (r: string)
    ensures target.Some? && target.value != "" ==> r == target.value
    ensures (target.None? || target.value == "") && userAgent.Some? && userAgent.value != "" ==>
              r == (if Contains(userAgent.value, "zh") then "zh"
                    else if Contains(userAgent.value, "es") then "es"
                    else if Contains(userAgent.value, "fr") then "fr"
                    else "en")
    ensures (target.None? || target.value == "") && (userAgent.None? || userAgent.value == "") ==>
              r == LanguageDetector.GetLanguageCode(locale)
  {
    if target.Some? && target.value != "" then target.value
    else if userAgent.Some? && userAgent.value != "" then
      var ua := userAgent.value;
      ZhCnMentionsZh(ua);
      if Contains(ua, "zh-CN") || Contains(ua, "zh") then "zh"
      else if Contains(ua, "es") then "es"
      else if Contains(ua, "fr") then "fr"
      else "en"
    else LanguageDetector.GetLanguageCode(locale)
  }

  /** The `zh-CN` test is subsumed by the `zh` test. */
  lemma ZhCnMentionsZh(ua: string)
    ensures Contains(ua, "zh-CN") ==> Contains(ua, "zh")
  {
    if Contains(ua, "zh-CN") {
      assert Contains("zh-CN", "zh") by { assert OccursAt("zh-CN", "zh", 0); }
      ContainsTransitive(ua, "zh-CN", "zh");
    }
  }

  /** The sort key of `translateText`: the length of an entry's term. */
  function TermLength(e: Entry): int {
    |e.term|
  }

  /** `Object.keys(map).sort((a, b) => b.length - a.length)`: the stable sort by
      decreasing term length. */
  function SortByLength(s: seq<Entry>): seq<Entry> {
    Sorting.SortDesc(s, TermLength)
  }

  /** The sort keeps every entry, puts longer terms first and keeps the
      declaration order among terms of equal length (`Array.prototype.sort` is
      stable). */
  lemma SortByLengthSortedStable(s: seq<Entry>)
    ensures multiset(SortByLength(s)) == multiset(s)
    ensures forall i, j :: 0 <= i < j < |SortByLength(s)| ==> |SortByLength(s)[i].term| >= |SortByLength(s)[j].term|
    ensures forall n :: Sorting.WithKey(SortByLength(s), TermLength, n) == Sorting.WithKey(s, TermLength, n)
  {
    Sorting.SortDescSortedStable(s, TermLength);
  }

  /** `text.replace(/\bterm\b/gi, translation)` scanning from index `i`: each
      leftmost whole-word, case-insensitive match is replaced and the scan resumes
      after it; an empty match copies the next character. */
  function ReplaceFrom(t: string, term: string, translation: string, i: nat): string
    requires i <= |t|
    decreases |t| - i, if WholeWordAt(t, term, i) then 0 else 1
  {
    if WholeWordAt(t, term, i) then
      if |term| > 0 then translation + ReplaceFrom(t, term, translation, i + |term|)
      else if i < |t| then translation + [t[i]] + ReplaceFrom(t, term, translation, i + 1)
      else translation
    else if i < |t| then [t[i]] + ReplaceFrom(t, term, translation, i + 1)
    else ""
  }

  function ReplaceAll(t: string, term: string, translation: string): string {
    ReplaceFrom(t, term, translation, 0)
  }

  /** Text without a whole-word occurrence of the term is left unchanged. */
  lemma {:induction false} ReplaceFromNoMatch(t: string, term: string, translation: string, i: nat)
    requires i <= |t|
    requires forall j :: i <= j <= |t| ==> !WholeWordAt(t, term, j)
    ensures ReplaceFrom(t, term, translation, i) == t[i..]
    decreases |t| - i
  {
    if i < |t| {
      ReplaceFromNoMatch(t, term, translation, i + 1);
      assert t[i..] == [t[i]] + t[i + 1..];
    }
  }

  /** Replacing from `i` copies the text up to `j` when no whole-word match starts
      before `j`. */
  lemma {:induction false} ReplaceFromCopiesUpTo(t: string, term: string, translation: string, i: nat, j: nat)
    requires i <= j <= |t|
    requires forall k :: i <= k < j ==> !WholeWordAt(t, term, k)
    ensures ReplaceFrom(t, term, translation, i) == t[i..j] + ReplaceFrom(t, term, translation, j)
    decreases j - i
  {
    if i < j {
      ReplaceFromCopies(t, term, translation, i);
      ReplaceFromCopiesUpTo(t, term, translation, i + 1, j);
      var rest := ReplaceFrom(t, term, translation, j);
      Seqs.ConcatAssociative([t[i]], t[i + 1..j], rest);
      Seqs.SliceCons(t, i, j);
    }
  }

  /** Replacing from `i` when the first whole-word match at or after `i` is at `j`:
      the text up to the match is kept, the match becomes the translation, and the
      scan resumes after it. With `ReplaceFromNoMatch` this says that every
      leftmost match is replaced and nothing between matches changes. */
  lemma ReplaceFromFirstMatch(t: string, term: string, translation: string, i: nat, j: nat)
    requires i <= j <= |t| && |term| > 0
    requires WholeWordAt(t, term, j)
    requires forall k :: i <= k < j ==> !WholeWordAt(t, term, k)
    ensures ReplaceFrom(t, term, translation, i) ==
            t[i..j] + (translation + ReplaceFrom(t, term, translation, j + |term|))
  {
    ReplaceFromCopiesUpTo(t, term, translation, i, j);
    ReplaceFromReplaces(t, term, translation, j);
  }

  lemma ReplaceFromCopies(t: string, term: string, translation: string, i: nat)
    requires i < |t| && !WholeWordAt(t, term, i)
    ensures ReplaceFrom(t, term, translation, i) == [t[i]] + ReplaceFrom(t, term, translation, i + 1)
  {
  }

  lemma ReplaceFromReplaces(t: string, term: string, translation: string, i: nat)
    requires i <= |t| && |term| > 0 && WholeWordAt(t, term, i)
    ensures ReplaceFrom(t, term, translation, i) == translation + ReplaceFrom(t, term, translation, i + |term|)
  {
  }

  /** Applies the entries one after the other, as the loop of `translateText` does. */
  function ApplyAll(entries: seq<Entry>, t: string): string {
    if entries == [] then t else ApplyAll(entries[1..], ReplaceAll(t, entries[0].term, entries[0].text))
  }

  /** What `translateText` returns for a resolved language. */
  function Translation(text: string, language: string, tables: PhraseTables): string {
    if language == "en" || text == "" || language !in tables then text
    else ApplyAll(SortByLength(tables[language]), text)
  }

  /** `translateText`. `locale` stands for the browser locale consulted when neither
      a target language nor a user agent is given. */
  method TranslateText(text: string, target: Option<string>, userAgent: Option<string>,
                       locale: Option<string>, tables: PhraseTables) returns (r: string)
    ensures r == Translation(text, ResolveLanguage(target, userAgent, locale), tables)
  {
    var language := ResolveLanguage(target, userAgent, locale);
    if language == "en" || text == "" {
      return text;
    }
    if language !in tables {
      return text;
    }
    var sortedKeys := SortByLength(tables[language]);
    r := text;
    for k := 0 to |sortedKeys|
      invariant ApplyAll(sortedKeys[k..], r) == Translation(text, language, tables)
    {
      assert sortedKeys[k..][1..] == sortedKeys[k + 1..];
      r := ReplaceAll(r, sortedKeys[k].term, sortedKeys[k].text);
    }
  }

  /** English, empty text and languages without a table come back unchanged. */
  lemma TranslationIdentity(text: string, language: string, tables: PhraseTables)
    requires language == "en" || text == "" || language !in tables
    ensures Translation(text, language, tables) == text
  {
  }

  /** With the source's tables, Japanese and Korean text is left as it is. */
  lemma NoTableForJapaneseOrKorean(text: string, tables: PhraseTables)
    requires tables.Keys == TableLanguages
    ensures Translation(text, "ja", tables) == text
    ensures Translation(text, "ko", tables) == text
  {
  }

  /** A user agent mentioning both Chinese and Spanish resolves to Chinese. */
  lemma UserAgentPrefersChinese()
    ensures ResolveLanguage(None, Some("zh-CN,es"), None) == "zh"
  {
    assert OccursAt("zh-CN,es", "zh", 0);
  }

  predicate NoWordChars(s: string) {
    forall i :: 0 <= i < |s| ==> !IsWordChar(s[i])
  }

  predicate AllWordChars(s: string) {
    forall i :: 0 <= i < |s| ==> IsWordChar(s[i])
  }

  /** A phrase table like the source's: every term starts with a letter. */
  predicate WordTable(es: seq<Entry>) {
    forall e :: e in es ==> |e.term| > 0 && IsWordChar(e.term[0])
  }

  /** The entries whose term equals `w` up to ASCII case, in table order. */
  function Variants(es: seq<Entry>, w: string): seq<Entry> {
    if es == [] then []
    else (if Lower(es[0].term) == Lower(w) then [es[0]] else []) + Variants(es[1..], w)
  }

  /** A term starting with a word character never occurs whole in text without
      word characters. */
  lemma NoMatchWithoutWordChars(x: string, term: string)
    requires |term| > 0 && IsWordChar(term[0]) && NoWordChars(x)
    ensures forall j :: 0 <= j <= |x| ==> !WholeWordAt(x, term, j)
  {
    forall j | 0 <= j <= |x|
      ensures !WholeWordAt(x, term, j)
    {
      if j + |term| <= |x| {
        assert Lower(x[j..j + |term|])[0] == x[j];
      }
    }
  }

  /** In a single word, only a term equal to the whole word up to case matches. */
  lemma NoMatchInOtherWord(w: string, term: string)
    requires AllWordChars(w) && |term| > 0 && Lower(term) != Lower(w)
    ensures forall j :: 0 <= j <= |w| ==> !WholeWordAt(w, term, j)
  {
    forall j | 0 <= j && j + |term| <= |w|
      ensures !(Lower(w[j..j + |term|]) == Lower(term) && Boundary(w, j) && Boundary(w, j + |term|))
    {
      if j > 0 {
        assert WordAt(w, j - 1) && WordAt(w, j);
      } else if |term| < |w| {
        assert WordAt(w, |term| - 1) && WordAt(w, |term|);
      } else {
        assert w[j..j + |term|] == w;
      }
    }
  }

  /** A word equal to the term up to case is replaced as a whole. */
  lemma ReplaceWholeWord(w: string, term: string, translation: string)
    requires AllWordChars(w) && w != [] && |term| > 0 && Lower(term) == Lower(w)
    ensures ReplaceAll(w, term, translation) == translation
  {
    assert |term| == |w| && w[0..|w|] == w;
    assert WordAt(w, |w| - 1);
    ReplaceFromFirstMatch(w, term, translation, 0, 0);
    assert ReplaceFrom(w, term, translation, |w|) == "";
  }

  /** Once a text has no word characters, no later entry changes it. */
  lemma {:induction false} ApplyAllKeepsNonWord(es: seq<Entry>, x: string)
    requires WordTable(es) && NoWordChars(x)
    ensures ApplyAll(es, x) == x
  {
    if es != [] {
      assert es[0] in es;
      NoMatchWithoutWordChars(x, es[0].term);
      ReplaceFromNoMatch(x, es[0].term, es[0].text, 0);
      assert x[0..] == x;
      assert WordTable(es[1..]) by {
        forall e | e in es[1..] ensures e in es { }
      }
      ApplyAllKeepsNonWord(es[1..], x);
    }
  }

  /** A single word comes out as the translation of the first entry, in the order
      applied, whose term equals it up to case, when that translation has no word
      character left for a later entry to match. */
  lemma {:induction false} ApplyAllToWord(es: seq<Entry>, w: string)
    requires WordTable(es) && AllWordChars(w) && w != [] && Variants(es, w) != []
    requires NoWordChars(Variants(es, w)[0].text)
    ensures ApplyAll(es, w) == Variants(es, w)[0].text
  {
    assert es[0] in es;
    assert WordTable(es[1..]) by {
      forall e | e in es[1..] ensures e in es { }
    }
    if Lower(es[0].term) == Lower(w) {
      ReplaceWholeWord(w, es[0].term, es[0].text);
      ApplyAllKeepsNonWord(es[1..], es[0].text);
    } else {
      NoMatchInOtherWord(w, es[0].term);
      ReplaceFromNoMatch(w, es[0].term, es[0].text, 0);
      assert w[0..] == w;
      ApplyAllToWord(es[1..], w);
    }
  }

  /** The variants of a word all have its length, so keeping only the entries of
      that length keeps every variant, in order. */
  lemma {:induction false} VariantsOfLength(es: seq<Entry>, w: string)
    ensures Variants(Sorting.WithKey(es, TermLength, |w|), w) == Variants(es, w)
  {
    if es != [] {
      VariantsOfLength(es[1..], w);
      var head := if TermLength(es[0]) == |w| then [es[0]] else [];
      var rest := Sorting.WithKey(es[1..], TermLength, |w|);
      assert Sorting.WithKey(es, TermLength, |w|) == head + rest;
      if head == [] {
        assert |Lower(es[0].term)| != |Lower(w)|;
        assert Sorting.WithKey(es, TermLength, |w|) == rest;
      } else {
        assert (head + rest)[0] == es[0] && (head + rest)[1..] == rest;
      }
    }
  }

  /** When several terms of a table differ only in case, a word matching them is
      translated by the one declared first: the sort by length keeps the
      declaration order among them and the first replacement leaves nothing for
      the others to match. */
  lemma CaseVariantDeclaredFirstWins(w: string, language: string, tables: PhraseTables)
    requires language != "en" && language in tables && WordTable(tables[language])
    requires AllWordChars(w) && w != [] && Variants(tables[language], w) != []
    requires NoWordChars(Variants(tables[language], w)[0].text)
    ensures Translation(w, language, tables) == Variants(tables[language], w)[0].text
  {
    var table := tables[language];
    var sorted := SortByLength(table);
    SortByLengthSortedStable(table);
    assert WordTable(sorted) by {
      forall e | e in sorted ensures e in table {
        assert e in multiset(sorted);
      }
    }
    VariantsOfLength(sorted, w);
    VariantsOfLength(table, w);
    ApplyAllToWord(sorted, w);
  }

  /** The Chinese table declares the fruit "Orange" before the colour "orange":
      the colour is never used, and "orange" in any case reads as the fruit. */
  lemma OrangeReadsAsFruit()
    ensures Translation("orange", "zh", map["zh" := [Entry("Orange", "橙子"), Entry("orange", "橙色")]]) == "橙子"
  {
    var table := [Entry("Orange", "橙子"), Entry("orange", "橙色")];
    assert Lower("Orange") == "orange" && Lower("orange") == "orange";
    assert Variants(table, "orange") == table;
    assert AllWordChars("orange");
    assert NoWordChars("橙子");
    CaseVariantDeclaredFirstWins("orange", "zh", map["zh" := table]);
  }

  /** JSON-like values as `translateObject` sees them. */
  datatype Value =
    | Str(s: string)
    | Arr(items: seq<Value>)
    | Obj(fields: seq<Field>)
    | Other(literal: string)   // numbers, booleans and null, by their source text
  datatype Field = Field(key: string, value: Value)

  /** `translateObject` with a resolved, non-empty language: strings are translated,
      arrays and objects are rebuilt element by element, anything else is kept. */
  function TranslateValue(v: Value, language: string, tables: PhraseTables): (r: Value)
    decreases v
  {
    if language == "en" then v
    else match v
      case Str(s) => Str(Translation(s, language, tables))
      case Arr(items) =>
        Arr(seq(|items|, i requires 0 <= i < |items| => TranslateValue(items[i], language, tables)))
      case Obj(fields) =>
        Obj(seq(|fields|, i requires 0 <= i < |fields| =>
          Field(fields[i].key, TranslateValue(fields[i].value, language, tables))))
      case Other(_) => v
  }

  /** `translateObject(obj, targetLanguage)`: an omitted or empty target means English. */
  function TranslateObject(v: Value, target: Option<string>, tables: PhraseTables): Value {
    var language := if target.Some? && target.value != "" then target.value else "en";
    TranslateValue(v, language, tables)
  }

  /** `translateAnalysisResult`: the same as translating the whole object. */
  function TranslateAnalysisResult(v: Value, target: Option<string>, tables: PhraseTables): (r: Value)
    ensures r == TranslateObject(v, target, tables)
  {
    var language := if target.Some? && target.value != "" then target.value else "en";
    if language == "en" then v else TranslateObject(v, target, tables)
  }

  /** The value with every string erased: the shape translation must keep. */
  function Shape(v: Value): Value {
    match v
    case Str(_) => Str("")
    case Arr(items) => Arr(seq(|items|, i requires 0 <= i < |items| => Shape(items[i])))
    case Obj(fields) => Obj(seq(|fields|, i requires 0 <= i < |fields| => Field(fields[i].key, Shape(fields[i].value))))
    case Other(_) => v
  }

  /** Translation keeps array lengths, object keys in order, and every non-string
      value; only string contents change. */
  lemma {:induction false} TranslateValueKeepsShape(v: Value, language: string, tables: PhraseTables)
    ensures Shape(TranslateValue(v, language, tables)) == Shape(v)
    decreases v
  {
    if language != "en" {
      match v
      case Str(_) =>
      case Other(_) =>
      case Arr(items) =>
        var r := TranslateValue(v, language, tables);
        forall i | 0 <= i < |items| ensures Shape(r.items[i]) == Shape(items[i]) {
          TranslateValueKeepsShape(items[i], language, tables);
        }
      case Obj(fields) =>
        var r := TranslateValue(v, language, tables);
        forall i | 0 <= i < |fields| ensures Shape(r.fields[i].value) == Shape(fields[i].value) {
          TranslateValueKeepsShape(fields[i].value, language, tables);
        }
    }
  }

  /** Translating to English, or with no target language, is the identity. */
  lemma TranslateObjectEnglish(v: Value, target: Option<string>, tables: PhraseTables)
    requires target.None? || target.value == "" || target.value == "en"
    ensures TranslateObject(v, target, tables) == v
  {
  }
}
