/** `app/lib/languageDetector.ts`: the two-letter language code of the browser
    locale, and whether a response still contains English analysis vocabulary. */
module LanguageDetector {
  import opened Wrappers
  import opened Text

  /** The codes other than English, in the order the locale prefixes are checked. */
  const OtherCodes: seq<string> := ["zh", "es", "fr", "ja", "ko"]

  /** `getLanguageCode`. `locale` is `navigator.language`, absent during
      server-side rendering. A code other than "en" is returned exactly when the
      lowercased locale starts with it. */
  function GetLanguageCode(locale: Option<string>): (r: string)
    ensures r == "en" || r in OtherCodes
    ensures locale.None? ==> r == "en"
    ensures forall c | c in OtherCodes ::
              (r == c <==> locale.Some? && StartsWith(Lower(locale.value), c))
  {
    if locale.None? then "en"
    else
      var lower := Lower(locale.value);
      if StartsWith(lower, "zh") then "zh"
      else if StartsWith(lower, "es") then "es"
      else if StartsWith(lower, "fr") then "fr"
      else if StartsWith(lower, "ja") then "ja"
      else if StartsWith(lower, "ko") then "ko"
      else "en"
  }

  /** The alternatives of the four patterns of `shouldTranslateResponse`. */
  const EnglishWords: seq<string> := [
    "freshness", "recommendation", "confidence", "storage", "shelf life", "days", "calories",
    "vitamins", "benefits",
    "buy", "check", "avoid", "store", "refrigerate", "cool", "dry",
    "green", "red", "yellow", "brown", "color", "texture", "smooth", "rough",
    "ripe", "unripe", "overripe", "fresh", "spoiled"
  ]

  /** `shouldTranslateResponse`: never for English; otherwise exactly when one of
      the words occurs in the text as a whole word, ignoring case. */
  function ShouldTranslateResponse(text: string, locale: Option<string>): (r: bool)
    ensures GetLanguageCode(locale) == "en" ==> !r
    ensures GetLanguageCode(locale) != "en" ==>
              (r <==> exists w | w in EnglishWords :: HasWholeWord(text, w))
  {
    if GetLanguageCode(locale) == "en" then false
    else exists w | w in EnglishWords :: HasWholeWord(text, w)
  }

  lemma LowerCharWord(c: char)
    ensures IsWordChar(LowerChar(c)) <==> IsWordChar(c)
  {
  }

  /** Lowering the text changes neither word boundaries nor case-insensitive
      matches, so it never changes the decision. */
  lemma ShouldTranslateIgnoresCase(text: string, locale: Option<string>)
    ensures ShouldTranslateResponse(Lower(text), locale) == ShouldTranslateResponse(text, locale)
  {
    forall w, i | 0 <= i <= |text| - |w|
      ensures WholeWordAt(Lower(text), w, i) <==> WholeWordAt(text, w, i)
    {
      WholeWordAtLower(text, w, i);
    }
    forall w ensures HasWholeWord(Lower(text), w) <==> HasWholeWord(text, w) {
      if HasWholeWord(text, w) {
        var i :| 0 <= i <= |text| - |w| && WholeWordAt(text, w, i);
        assert WholeWordAt(Lower(text), w, i);
      }
      if HasWholeWord(Lower(text), w) {
        var i :| 0 <= i <= |text| - |w| && WholeWordAt(Lower(text), w, i);
        assert WholeWordAt(text, w, i);
      }
    }
  }

  lemma WholeWordAtLower(text: string, w: string, i: int)
    requires 0 <= i <= |text| - |w|
    ensures WholeWordAt(Lower(text), w, i) <==> WholeWordAt(text, w, i)
  {
    var l := Lower(text);
    assert Lower(l[i..i + |w|]) == Lower(text[i..i + |w|]) by {
      assert l[i..i + |w|] == Lower(text[i..i + |w|]);
      LowerIdempotent(text[i..i + |w|]);
    }
    if i > 0 { LowerCharWord(text[i - 1]); }
    if i < |text| { LowerCharWord(text[i]); }
    if i + |w| > 0 { LowerCharWord(text[i + |w| - 1]); }
    if i + |w| < |text| { LowerCharWord(text[i + |w|]); }
  }

  /** A listed word standing alone is enough, whatever its case. */
  lemma FreshTriggersTranslation()
    ensures ShouldTranslateResponse("Fresh", Some("fr-FR"))
  {
    assert WholeWordAt("Fresh", "fresh", 0);
    assert "fresh" in EnglishWords;
  }
}
