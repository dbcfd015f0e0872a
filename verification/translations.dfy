/** `app/lib/translations.ts`: lookup in the interface-text tables with its fallback
    chain, and the detection of the user's language from the browser locale, the
    time zone and (in the asynchronous detector) the geolocated region. */
module Translations {
  import opened Wrappers
  import opened Text

  /** The interface-text tables by language code (the `translations` constant):
      each maps a text key to its text. */
  type Tables = map<string, map<string, string>>

  /** `translations[language] || translations.en`. */
  function TableOf(tables: Tables, language: string): (t: map<string, string>)
    requires "en" in tables
    ensures language in tables ==> t == tables[language]
    ensures language !in tables ==> t == tables["en"]
  {
    if language in tables then tables[language] else tables["en"]
  }

  /** `getTranslation`: the chosen table's non-empty text for the key, else the
      English one, else the key itself. */
  function GetTranslation(tables: Tables, language: string, key: string): (r: string)
    requires "en" in tables
    ensures key in TableOf(tables, language) && TableOf(tables, language)[key] != "" ==>
              r == TableOf(tables, language)[key]
    ensures !(key in TableOf(tables, language) && TableOf(tables, language)[key] != "") ==>
              r == (if key in tables["en"] && tables["en"][key] != "" then tables["en"][key] else key)
  {
    var lang := TableOf(tables, language);
    if key in lang && lang[key] != "" then lang[key]
    else if key in tables["en"] && tables["en"][key] != "" then tables["en"][key]
    else key
  }

  /** A language without a table translates exactly like English. */
  lemma UnknownLanguageIsEnglish(tables: Tables, language: string, key: string)
    requires "en" in tables && language !in tables
    ensures GetTranslation(tables, language, key) == GetTranslation(tables, "en", key)
  {
  }

  /** The shape of the source's tables: every table defines the keys of the
      English one, and no text is empty. */
  predicate Uniform(tables: Tables) {
    "en" in tables
    && (forall l | l in tables :: tables[l].Keys == tables["en"].Keys)
    && (forall l, k | l in tables && k in tables[l] :: tables[l][k] != "")
  }

  /** For uniform tables a defined key always gets the chosen table's text, and any
      other key comes back as itself. */
  lemma GetTranslationUniform(tables: Tables, language: string, key: string)
    requires Uniform(tables)
    ensures key in tables["en"] ==>
              key in TableOf(tables, language) && GetTranslation(tables, language, key) == TableOf(tables, language)[key]
    ensures key !in tables["en"] ==> GetTranslation(tables, language, key) == key
  {
  }

  /** `createTranslator(language)`: the lookup with the language fixed. */
  function CreateTranslator(tables: Tables, language: string): (f: string -> string)
    requires "en" in tables
    ensures forall key :: f(key) == GetTranslation(tables, language, key)
  {
    key => GetTranslation(tables, language, key)
  }

  /** The codes the detectors return from their own maps. */
  const DetectedLanguages: set<string> := {"en", "es", "fr", "zh", "ja"}

  /** The primary subtag of a language tag: `tag.split('-')[0]`. */
  function PrimarySubtag(tag: string): string {
    Split(tag, '-')[0]
  }

  /** `detectUserLanguageSync`. `browserLanguage` is `navigator.language`, absent
      during server-side rendering; `timezone` is the resolved IANA time zone. */
  function DetectUserLanguageSync(browserLanguage: Option<string>, timezone: string): (r: string)
    ensures browserLanguage.None? ==> r == "en"
    ensures r in DetectedLanguages
  {
    if browserLanguage.None? then "en"
    else
      var lang := Lower(browserLanguage.value);
      if lang in SyncLanguageMap then SyncLanguageMap[lang]
      else
        var code := PrimarySubtag(lang);
        if code in SyncLanguageMap then SyncLanguageMap[code]
        else if timezone in SyncTimezoneMap then SyncTimezoneMap[timezone]
        else "en"
  }

  /** A code with no hyphen is its own primary subtag. */
  lemma PrimarySubtagOfCode(tag: string)
    ensures PrimarySubtag(PrimarySubtag(tag)) == PrimarySubtag(tag)
  {
    var code := PrimarySubtag(tag);
    assert '-' !in code;
    SplitHead(code, '-', |code|);
  }

  /** When the primary subtag of the lowercased tag has an entry, that code is the
      answer and the time zone plays no part. */
  lemma SyncPrimarySubtagDecides(tag: string, timezone: string)
    requires PrimarySubtag(Lower(tag)) in SyncLanguageMap
    ensures DetectUserLanguageSync(Some(tag), timezone) == PrimarySubtag(Lower(tag))
  {
    SyncLanguageMapValuesArePrimary();
    PrimarySubtagOfCode(Lower(tag));
  }

  /** The time zone is consulted only when neither the tag nor its primary subtag
      has an entry, and English is the last resort. */
  lemma SyncTimezoneFallback(tag: string, timezone: string)
    requires Lower(tag) !in SyncLanguageMap && PrimarySubtag(Lower(tag)) !in SyncLanguageMap
    ensures DetectUserLanguageSync(Some(tag), timezone)
            == (if timezone in SyncTimezoneMap then SyncTimezoneMap[timezone] else "en")
  {
  }

  /** `detectUserLanguage`, the asynchronous detector with the larger maps; the
      geolocation step is represented by its outcome, `geolocated`, which is `None`
      when the position is unavailable, refused, or matches no region. */
  function DetectUserLanguage(browserLanguage: Option<string>, timezone: string,
                              geolocated: Option<string>): (r: string)
    ensures browserLanguage.None? ==> r == "en"
    ensures r in DetectedLanguages || (geolocated.Some? && r == geolocated.value)
  {
    if browserLanguage.None? then "en"
    else
      var lang := Lower(browserLanguage.value);
      if lang in LanguageMap then LanguageMap[lang]
      else
        var code := PrimarySubtag(lang);
        if code in LanguageMap then LanguageMap[code]
        else if timezone in TimezoneMap then TimezoneMap[timezone]
        else if geolocated.Some? && geolocated.value != "" then geolocated.value
        else "en"
  }

  lemma PrimarySubtagDecides(tag: string, timezone: string, geolocated: Option<string>)
    requires PrimarySubtag(Lower(tag)) in LanguageMap
    ensures DetectUserLanguage(Some(tag), timezone, geolocated) == PrimarySubtag(Lower(tag))
  {
    LanguageMapValuesArePrimary();
    PrimarySubtagOfCode(Lower(tag));
  }

  /** Geolocation is consulted only after the tag, its primary subtag and the time
      zone all failed; English is the last resort. */
  lemma TimezoneThenGeolocation(tag: string, timezone: string, geolocated: Option<string>)
    requires Lower(tag) !in LanguageMap && PrimarySubtag(Lower(tag)) !in LanguageMap
    ensures timezone in TimezoneMap ==>
              DetectUserLanguage(Some(tag), timezone, geolocated) == TimezoneMap[timezone]
    ensures timezone !in TimezoneMap ==>
              DetectUserLanguage(Some(tag), timezone, geolocated)
              == (if geolocated.Some? && geolocated.value != "" then geolocated.value else "en")
  {
  }

  /** A map entry whose key is the value, possibly followed by a hyphen and a region:
      the value is the key's primary subtag. */
  predicate TagOf(key: string, code: string) {
    |code| == 2 && code[0] != '-' && code[1] != '-'
    && |key| >= 2 && key[0] == code[0] && key[1] == code[1] && (|key| == 2 || key[2] == '-')
  }

  lemma TagOfPrimary(key: string, code: string)
    requires TagOf(key, code)
    ensures PrimarySubtag(key) == code
  {
    SplitHead(key, '-', 2);
    assert key[..2] == code;
  }

  /** Every entry of the detectors' language maps maps a tag to its primary subtag. */
  lemma SyncLanguageMapValuesArePrimary()
    ensures forall k | k in SyncLanguageMap :: SyncLanguageMap[k] == PrimarySubtag(k)
  {
    assert forall k | k in SyncLanguageMap :: TagOf(k, SyncLanguageMap[k]);
    forall k | k in SyncLanguageMap
      ensures SyncLanguageMap[k] == PrimarySubtag(k)
    {
      TagOfPrimary(k, SyncLanguageMap[k]);
    }
  }

  lemma LanguageMapValuesArePrimary()
    ensures forall k | k in LanguageMap :: LanguageMap[k] == PrimarySubtag(k)
  {
    assert forall k | k in LanguageMap :: TagOf(k, LanguageMap[k]);
    forall k | k in LanguageMap
      ensures LanguageMap[k] == PrimarySubtag(k)
    {
      TagOfPrimary(k, LanguageMap[k]);
    }
  }

  const SyncLanguageMap: map<string, string> := map[
    "en" := "en", "en-us" := "en", "en-gb" := "en", "en-ca" := "en",
    "en-au" := "en", "es" := "es", "es-es" := "es", "es-mx" := "es",
    "es-ar" := "es", "es-co" := "es", "fr" := "fr", "fr-fr" := "fr",
    "fr-ca" := "fr", "fr-be" := "fr", "fr-ch" := "fr", "zh" := "zh",
    "zh-cn" := "zh", "zh-tw" := "zh", "zh-hk" := "zh", "zh-sg" := "zh",
    "ja" := "ja", "ja-jp" := "ja"
  ]

  const SyncTimezoneMap: map<string, string> := map[
    "America/Mexico_City" := "es", "America/Bogota" := "es", "America/Lima" := "es",
    "Europe/Paris" := "fr", "Europe/Brussels" := "fr", "Europe/Zurich" := "fr",
    "Asia/Shanghai" := "zh", "Asia/Beijing" := "zh", "Asia/Hong_Kong" := "zh",
    "Asia/Tokyo" := "ja", "Asia/Osaka" := "ja"
  ]

  const LanguageMap: map<string, string> := map[
    "en" := "en", "en-us" := "en", "en-gb" := "en", "en-ca" := "en",
    "en-au" := "en", "en-nz" := "en", "en-za" := "en", "es" := "es",
    "es-es" := "es", "es-mx" := "es", "es-ar" := "es", "es-co" := "es",
    "es-pe" := "es", "es-cl" := "es", "es-ve" := "es", "es-ec" := "es",
    "es-uy" := "es", "es-py" := "es", "es-bo" := "es", "es-cr" := "es",
    "es-pa" := "es", "es-gt" := "es", "es-ni" := "es", "es-hn" := "es",
    "es-sv" := "es", "fr" := "fr", "fr-fr" := "fr", "fr-ca" := "fr",
    "fr-be" := "fr", "fr-ch" := "fr", "fr-lu" := "fr", "fr-mc" := "fr",
    "zh" := "zh", "zh-cn" := "zh", "zh-tw" := "zh", "zh-hk" := "zh",
    "zh-sg" := "zh", "zh-mo" := "zh", "ja" := "ja", "ja-jp" := "ja"
  ]

  const TimezoneMap: map<string, string> := map[
    "America/Mexico_City" := "es", "America/Cancun" := "es", "America/Merida" := "es",
    "America/Bogota" := "es", "America/Lima" := "es", "America/Santiago" := "es",
    "America/Buenos_Aires" := "es", "America/Cordoba" := "es", "America/Mendoza" := "es",
    "America/Caracas" := "es", "America/Montevideo" := "es", "America/Asuncion" := "es",
    "America/La_Paz" := "es", "America/Quito" := "es", "America/Guayaquil" := "es",
    "America/Panama" := "es", "America/Costa_Rica" := "es", "America/Guatemala" := "es",
    "America/Tegucigalpa" := "es", "America/Managua" := "es", "America/El_Salvador" := "es",
    "America/Havana" := "es", "America/Santo_Domingo" := "es", "Europe/Paris" := "fr",
    "Europe/Brussels" := "fr", "Europe/Luxembourg" := "fr", "Europe/Zurich" := "fr",
    "Europe/Geneva" := "fr", "Europe/Monaco" := "fr", "Asia/Shanghai" := "zh",
    "Asia/Beijing" := "zh", "Asia/Chongqing" := "zh", "Asia/Urumqi" := "zh",
    "Asia/Hong_Kong" := "zh", "Asia/Macau" := "zh", "Asia/Taipei" := "zh",
    "Asia/Singapore" := "zh", "Asia/Tokyo" := "ja", "Asia/Osaka" := "ja"
  ]
}
