# FruitAI core in Dafny

FruitAI is a web application that rates the freshness of fruit and vegetables from camera images. This project models the parts of it that decide things:

- **Localisation.** The interface tables and placeholder filling of `app/lib/i18n.ts`. The translation lookup and language detection of `app/lib/translations.ts` and `app/lib/languageDetector.ts`. The phrase translator of `app/lib/translator.ts`.
- **Browser-side stores.** The analysis history and shopping list in local storage (`app/lib/storage.ts`). The guest scan allowance (`app/hooks/useScanLimit.ts`). The in-memory share store of `app/api/share/route.ts`. The shopping-list component and its auto-add rule.
- **Analysis results.**
  - How model replies become results (`app/lib/multiFruitAnalyzer.ts`, `app/lib/openaiAnalyzer.ts`).
  - The score tiers and heuristics of the two on-device analyzers (`app/lib/localAI.ts`, `app/lib/accurateLocalAI.ts`).
  - The produce lookup (`app/lib/nutritionData.ts`).
  - The statistics shown by the history, rewards, score and summary views.
  - The stability test and countdown of the full-screen scanner.
- **Dataset scripts.**
  - Path classification and folder organisation (`scripts/organize-datasets.py`).
  - Synthetic and downloaded sample generation (`scripts/collect-global-dataset.py`, `scripts/collect-real-images.py`).
  - Rebalancing of the combined training file (`scripts/combine-datasets.py`).
  - Fine-tuning job management (`scripts/manage-openai-finetuning.py`).

Each source file has one Dafny module of the same name, written in the source's own style:

- Pure lookups and tiers are functions.
- Loops are methods with invariants, proved against a specification function.
- Objects whose fields change are classes with `modifies` frames. These include the local store, the share store, the shopping list, the scanner, the analyzers, the dataset organiser and collectors, and the fine-tuning manager.

Shared modules:

| module | holds |
|---|---|
| `Wrappers` | `Option` and `Result` |
| `Text` | ASCII case, search, split and join |
| `Decimal` | number formatting and zero padding |
| `Arith` | clamping and half-up rounding of quotients |
| `Assoc` | insertion-ordered dictionaries |
| `Seqs` | associativity of concatenation and the head-and-tail split of a slice |
| `Sorting` | a stable descending sort |
| `AnalysisTypes` | the analysis result types and the buy/check/avoid rule |

How the source's values are represented:

- JavaScript's `Math.round(a / b)` is rounding half up of an exact quotient.
- Scores are integers.
- Replies from OpenAI, local storage contents, clocks, random draws and image statistics are parameters.

## Model

| member | source | states |
|---|---|---|
| I18n.Table | app/lib/i18n.ts:1-296 | each of the four tables (en, zh, es, fr) defines exactly the fields of `Translations` |
| I18n.GetTranslations | app/lib/i18n.ts:299-316 | without a browser the English table; otherwise a non-English table is chosen exactly when the lower-cased locale starts with its code (zh, es, fr), English for every other locale |
| I18n.GetTranslationsIgnoresCase | app/lib/i18n.ts:304 | the choice does not depend on the case of the locale |
| I18n.JapaneseLocaleGetsEnglish | app/lib/i18n.ts:307-315 | a Japanese locale falls back to the English table |
| I18n.WordRunEnd | app/lib/i18n.ts:320 | the end of the run of `\w` characters starting at an index: every character before it is a word character and the one at it is not |
| I18n.Format | app/lib/i18n.ts:319-323 | a template with no `{word}` placeholder is returned unchanged |
| I18n.FormatPlaceholder | app/lib/i18n.ts:320-322 | a leading `{key}` is replaced by the parameter's text when present and non-empty, kept verbatim otherwise, and formatting continues after it |
| I18n.FormatEmptyParams | app/lib/i18n.ts:321 | when every parameter stringifies to "", every placeholder is kept and the template is returned unchanged |
| I18n.FormatSinglePass | app/lib/i18n.ts:320-322 | substituted text is not scanned again: `{a}` with a = "{b}" gives "{b}" |
| LanguageDetector.GetLanguageCode | app/lib/languageDetector.ts:1-21 | "en" without a browser; otherwise zh, es, fr, ja or ko exactly when the lower-cased locale starts with that code (first match), "en" for every other locale |
| LanguageDetector.ShouldTranslateResponse | app/lib/languageDetector.ts:23-36 | false for English; otherwise true exactly when one of the listed English words occurs in the text as a whole word, in any case |
| LanguageDetector.ShouldTranslateIgnoresCase | app/lib/languageDetector.ts:29-35 | the decision is the same for the text and its lower-cased form (the patterns are case-insensitive) |
| LanguageDetector.WholeWordAtLower | app/lib/languageDetector.ts:29-32 | a whole-word match of `\bword\b/i` at an index is unaffected by lower-casing the text |
| LanguageDetector.FreshTriggersTranslation | app/lib/languageDetector.ts:32-35 | "Fresh" under a French locale asks for translation |
| Translations.TableOf | app/lib/translations.ts:566 | the table of the requested language when one exists, the English table otherwise |
| Translations.GetTranslation | app/lib/translations.ts:565-568 | the language's non-empty entry for the key; failing that the non-empty English entry; failing that the key itself |
| Translations.UnknownLanguageIsEnglish | app/lib/translations.ts:566-567 | a language without a table translates every key as English does |
| Translations.GetTranslationUniform | app/lib/translations.ts:565-568 | when every table has the English keys and no empty entry, a known key gets the language's own entry and an unknown key comes back as itself |
| Translations.CreateTranslator | app/lib/translations.ts:571-573 | the translator returned agrees with `getTranslation` for that language on every key |
| Translations.DetectUserLanguageSync | app/lib/translations.ts:535-562 | "en" without a browser; the result is always one of the languages the maps produce |
| Translations.PrimarySubtagOfCode | app/lib/translations.ts:551 | taking the primary subtag of `split('-')[0]` again changes nothing |
| Translations.SyncPrimarySubtagDecides | app/lib/translations.ts:547-552 | when the primary subtag of the lower-cased tag is in the map, it decides the language |
| Translations.SyncTimezoneFallback | app/lib/translations.ts:547-561 | when neither the tag nor its primary subtag is in the map, the time zone map decides, and "en" when it has no entry |
| Translations.DetectUserLanguage | app/lib/translations.ts:379-465 | "en" without a browser; otherwise one of the mapped languages or the geolocated one |
| Translations.PrimarySubtagDecides | app/lib/translations.ts:410-419 | when the primary subtag is in the map, it decides, before time zone and geolocation |
| Translations.TimezoneThenGeolocation | app/lib/translations.ts:410-465 | with no browser-tag match, a mapped time zone decides; otherwise a non-empty geolocated language; otherwise "en" |
| Translations.TagOfPrimary | app/lib/translations.ts:389-408 | a map key of the form `xx` or `xx-…` has `xx` as its primary subtag |
| Translations.SyncLanguageMapValuesArePrimary | app/lib/translations.ts:541-549 | every entry of the synchronous map sends a tag to its own primary subtag |
| Translations.LanguageMapValuesArePrimary | app/lib/translations.ts:389-408 | every entry of the asynchronous map sends a tag to its own primary subtag |
| Translator.ResolveLanguage | app/lib/translator.ts:5-23 | a non-empty target language wins; else a non-empty user agent is searched for zh, es, fr in that order with "en" as default; else the browser locale decides |
| Translator.ZhCnMentionsZh | app/lib/translator.ts:11 | the `zh-CN` test is subsumed by the `zh` test |
| Translator.SortByLengthSortedStable | app/lib/translator.ts:136 | the table's entries, none lost or added, come out longest first, and entries of equal length keep their table order (stable sort) |
| Translator.ReplaceFromNoMatch | app/lib/translator.ts:141-142 | with no whole-word, case-insensitive occurrence of a term, the replacement leaves the text unchanged |
| Translator.ReplaceFromCopiesUpTo | app/lib/translator.ts:141-142 | the scan copies the text unchanged up to the first whole-word, case-insensitive occurrence of the term |
| Translator.ReplaceFromFirstMatch | app/lib/translator.ts:141-142 | at the first whole-word, case-insensitive occurrence the text before it is kept, the occurrence becomes the translation, and replacing continues after it, so every occurrence is replaced and the text between occurrences is kept |
| Translator.ReplaceWholeWord | app/lib/translator.ts:141-142 | a single word equal to the term in any letter case becomes the translation |
| Translator.NoMatchWithoutWordChars | app/lib/translator.ts:141 | a term starting with a letter never occurs as a whole word in text without ASCII word characters, such as a Chinese translation |
| Translator.NoMatchInOtherWord | app/lib/translator.ts:141 | within a single word, only a term equal to the whole word up to case occurs as a whole word |
| Translator.ApplyAllKeepsNonWord | app/lib/translator.ts:138-143 | once the text has no ASCII word characters, no later term of such a table changes it |
| Translator.ApplyAllToWord | app/lib/translator.ts:138-143 | a single word comes out as the translation of the first term, in the order applied, that equals it up to case, when that translation has no ASCII word character for later terms to match |
| Translator.VariantsOfLength | app/lib/translator.ts:136 | terms equal to a word up to case all have its length, so keeping the terms of that length keeps all of them in order |
| Translator.CaseVariantDeclaredFirstWins | app/lib/translator.ts:31-143 | when terms of a table differ only in case, a word matching them is translated by the one declared first, provided that translation has no ASCII word character: the stable sort keeps their order and the first replacement leaves nothing for the others |
| Translator.OrangeReadsAsFruit | app/lib/translator.ts:34-43 | with the fruit "Orange" declared before the colour "orange", the word "orange" reads as the fruit 橙子, never the colour 橙色 |
| Translator.TranslateText | app/lib/translator.ts:4-146 | the text after resolving the language and replacing every table term, longest first, by whole-word case-insensitive matching |
| Translator.TranslationIdentity | app/lib/translator.ts:26-130 | English, an empty text, or a language without a table return the text unchanged |
| Translator.NoTableForJapaneseOrKorean | app/lib/translator.ts:31-130 | Japanese and Korean, which the detector can return, have no table, so their text is not translated |
| Translator.UserAgentPrefersChinese | app/lib/translator.ts:11-12 | a user agent mentioning both zh-CN and es resolves to Chinese |
| Translator.TranslateAnalysisResult | app/lib/translator.ts:174-181 | exactly the object translation of the whole result, with "en" when no language is given |
| Translator.TranslateValueKeepsShape | app/lib/translator.ts:149-171 | translating an object keeps its keys, array lengths and non-string values; only strings change |
| Translator.TranslateObjectEnglish | app/lib/translator.ts:150-152 | no language, an empty one or "en" returns the object unchanged |
| AnalysisTypes.ParseRecommendation | app/lib/storage.ts:5 | reading a recommendation accepts exactly "buy", "check" and "avoid" |
| AnalysisTypes.ParseRecommendationName | app/lib/storage.ts:5 | writing a recommendation and reading it back gives it again |
| AnalysisTypes.RecommendationFor | app/lib/localAI.ts:114-117 | buy at or above the buy threshold, check between the two thresholds, avoid below the check threshold, each as an if-and-only-if |
| AnalysisTypes.RecommendationMonotone | app/lib/localAI.ts:381-384 | a fresher item never gets a worse recommendation |
| Storage.PrependedNewestFirst | app/lib/storage.ts:54-61 | the new analysis comes first, the older ones follow in order, and the oldest is dropped only when the list would exceed 50 |
| Storage.PrependedBounded | app/lib/storage.ts:57-60 | a history of at most 50 entries stays at most 50 long |
| Storage.FirstWithId | app/lib/storage.ts:90 | the index of the first item with the id, or none when no item has it |
| Storage.ToggledChangesFirstOnly | app/lib/storage.ts:88-95 | toggling flips `checked` of the first item with the id and changes nothing else |
| Storage.ToggledTwice | app/lib/storage.ts:88-95 | toggling the same id twice restores the list |
| Storage.FirstWithIdSameIds | app/lib/storage.ts:90 | the item found depends only on the ids, not on the checked flags |
| Storage.WithoutId | app/lib/storage.ts:97-100 | the remaining items are exactly those whose id differs |
| Storage.WithoutIdKeepsOthers | app/lib/storage.ts:98 | every item with another id keeps its number of occurrences |
| Storage.WithoutIdConcat | app/lib/storage.ts:97-100 | filtering a list joined from two parts is filtering each part and joining them, so the kept items stay in their order |
| Storage.WithoutIdSingle | app/lib/storage.ts:98 | one item is kept exactly when its id differs |
| Storage.WithoutAbsentId | app/lib/storage.ts:98 | removing an absent id leaves the list as it was |
| Storage.LocalStore.constructor | app/lib/storage.ts:43-46 | a store over the given browser flag and stored lists |
| Storage.LocalStore.GetHistory | app/lib/storage.ts:48-52 | [] without a browser or stored history, the stored history otherwise |
| Storage.LocalStore.GetShoppingList | app/lib/storage.ts:69-73 | [] without a browser or stored list, the stored list otherwise |
| Storage.LocalStore.AddToHistory | app/lib/storage.ts:54-62 | the stored history becomes the bounded, newest-first prepend; the shopping list is untouched |
| Storage.LocalStore.ClearHistory | app/lib/storage.ts:64-66 | the history entry is removed and reads back as []; the shopping list is untouched |
| Storage.LocalStore.AddToShoppingList | app/lib/storage.ts:75-86 | the new item, unchecked with the given id and time, is appended and returned |
| Storage.LocalStore.ToggleShoppingItem | app/lib/storage.ts:88-95 | the stored list becomes the toggled list; an unknown id writes nothing |
| Storage.LocalStore.RemoveFromShoppingList | app/lib/storage.ts:97-100 | the stored list becomes the list without the id |
| Storage.LocalStore.ClearShoppingList | app/lib/storage.ts:102-104 | the list entry is removed and reads back as []; the history is untouched |
| Sorting.SortDescSortedStable | app/components/UserHistory.tsx:45 | the sort by descending key is ordered and stable: entries with equal keys keep their order |
| MultiFruitAnalyzer.ErrorMessage | app/lib/multiFruitAnalyzer.ts:211-214 | every failure is reported as "Batch analysis failed: " followed by the cause |
| MultiFruitAnalyzer.FencedBlock | app/lib/multiFruitAnalyzer.ts:145 | there is no block exactly when no opening fence is followed by a closing fence; a found block is the text between the first opening fence and the first closing fence after it |
| MultiFruitAnalyzer.FencedBlockFirst | app/lib/multiFruitAnalyzer.ts:145 | the search for the closing fence starts after the first opening fence, so a block exists exactly when some opening fence has a closing fence after it, and the one found is the lazy, leftmost match |
| MultiFruitAnalyzer.ExtractJson | app/lib/multiFruitAnalyzer.ts:145-146 | a ```json fenced block wins, then a plain ``` block, otherwise the whole reply |
| MultiFruitAnalyzer.ExtractJsonUnfenced | app/lib/multiFruitAnalyzer.ts:145-146 | a reply without any fence is parsed as it is |
| MultiFruitAnalyzer.Score | app/lib/multiFruitAnalyzer.ts:156 | a missing or zero score takes the default (`|| 50`); a score in 1..100 is kept, one above 100 becomes 100 and one below 0 becomes 0, so the result lies in 0..100 |
| MultiFruitAnalyzer.OrElse | app/lib/multiFruitAnalyzer.ts:155 | a present non-empty text is kept, otherwise the default (`||`) |
| MultiFruitAnalyzer.NormalizeCharacteristics | app/lib/multiFruitAnalyzer.ts:162-167 | missing characteristics get the four defaults; each present non-empty field is kept; no field ends empty |
| MultiFruitAnalyzer.DefaultPosition | app/lib/multiFruitAnalyzer.ts:168-173 | the default box of the n-th fruit lies on a four-column grid, 20 apart across and 25 down, 12 by 15 |
| MultiFruitAnalyzer.DefaultPositionsDistinct | app/lib/multiFruitAnalyzer.ts:168-173 | two fruits never get the same default box |
| MultiFruitAnalyzer.NormalizeFruit | app/lib/multiFruitAnalyzer.ts:154-183 | a given non-zero freshness or confidence is clamped to 0..100, a missing or zero one becomes 50 or 75; a given position and non-zero days are kept, else the grid slot and 7; item, details and storage advice are kept when non-empty, else their defaults; an unknown recommendation becomes check; the characteristics get their defaults |
| MultiFruitAnalyzer.NormalizeAll | app/lib/multiFruitAnalyzer.ts:154-183 | one normalised fruit per raw fruit, each with its own index |
| MultiFruitAnalyzer.AverageFreshness | app/lib/multiFruitAnalyzer.ts:187-189 | 0 for no fruit, otherwise the mean freshness rounded to the nearest integer |
| MultiFruitAnalyzer.AverageFreshnessInRange | app/lib/multiFruitAnalyzer.ts:187-189 | the average of scores in 0..100 lies in 0..100 |
| MultiFruitAnalyzer.BestFromIsFirstMax | app/lib/multiFruitAnalyzer.ts:191-192 | the reduce keeps the first fruit of greatest freshness |
| MultiFruitAnalyzer.WorstFromIsFirstMin | app/lib/multiFruitAnalyzer.ts:194-195 | the reduce keeps the first fruit of least freshness |
| MultiFruitAnalyzer.BestFruit | app/lib/multiFruitAnalyzer.ts:191-192 | none for no fruit; otherwise the first fruit whose freshness is the maximum |
| MultiFruitAnalyzer.WorstFruit | app/lib/multiFruitAnalyzer.ts:194-195 | none for no fruit; otherwise the first fruit whose freshness is the minimum |
| MultiFruitAnalyzer.Summarize | app/lib/multiFruitAnalyzer.ts:186-206 | the batch result carries every fruit, their count, the rounded average, the best and the worst fruit and the id `batch-<time>` |
| MultiFruitAnalyzer.ProcessBatchReply | app/lib/multiFruitAnalyzer.ts:137-206 | an empty reply fails with "No response"; an unparsable one with the invalid-format error; a null parse and a non-list `fruits` fail as the source's property access and `.map` do; a fruits list gives the summary of its normalised fruits, with every score and the average in 0..100; a reply without a fruits list gives an empty batch |
| MultiFruitAnalyzer.AnalyzeBatch | app/lib/multiFruitAnalyzer.ts:50-215 | a missing key and a failed request are errors; otherwise the reply is processed as above |
| OpenAIAnalyzer.ImageUrl | app/lib/openaiAnalyzer.ts:109 | a data URL is kept, anything else gets the JPEG base64 prefix; the result is always a data URL |
| OpenAIAnalyzer.ImageUrlIdempotent | app/lib/openaiAnalyzer.ts:109 | prefixing twice is the same as prefixing once |
| OpenAIAnalyzer.FallbackAnalysis | app/lib/openaiAnalyzer.ts:325-341 | the fallback is "Unknown Produce", freshness 60, check, confidence 50, id `fallback_openai_<time>` |
| OpenAIAnalyzer.Whitelisted | app/lib/openaiAnalyzer.ts:153-155 | buy, check and avoid are kept; anything else, or nothing, becomes check |
| OpenAIAnalyzer.ResultOf | app/lib/openaiAnalyzer.ts:138-193 | a non-empty fruits list takes scores, recommendation and characteristics from its first fruit and names one item or "N items detected"; otherwise the single-item fields; a missing or zero score takes its default, and every score is in 0..100 |
| OpenAIAnalyzer.AnalyzeReply | app/lib/openaiAnalyzer.ts:120-207 | a failure mentioning "API key" is raised and any other failure gives the fallback analysis; an empty or unparsable reply gives the fallback; a reply that parses to an object gives the result built from it, with id `openai_<now>_<suffix>`; every score of the result is in 0..100 |
| OpenAIAnalyzer.OpenAIFruitAnalyzer.constructor | app/lib/openaiAnalyzer.ts:23-34 | the fine-tuned model id is taken from the environment when non-empty |
| OpenAIAnalyzer.OpenAIFruitAnalyzer.Model | app/lib/openaiAnalyzer.ts:41 | a non-empty fine-tuned model id is used, "gpt-4o" otherwise |
| OpenAIAnalyzer.OpenAIFruitAnalyzer.Request | app/lib/openaiAnalyzer.ts:41-111 | the request names the current model and the normalised image URL |
| OpenAIAnalyzer.OpenAIFruitAnalyzer.SetFineTunedModel | app/lib/openaiAnalyzer.ts:320-323 | later requests use the new model id when it is non-empty |
| OpenAIAnalyzer.NewAnalyzer | app/lib/openaiAnalyzer.ts:23-34 | an empty API key is refused with the source's message; otherwise a fresh analyzer |
| OpenAIAnalyzer.RecordOf | app/lib/openaiAnalyzer.ts:219-259 | each training record labels fresh as freshness 85 and buy, rotten as 25 and avoid, confidence 90, with the sample's item, image and characteristics |
| OpenAIAnalyzer.FineTuningData | app/lib/openaiAnalyzer.ts:219-259 | one record per sample, in order |
| OpenAIAnalyzer.RecordScoreMatchesRecommendation | app/lib/openaiAnalyzer.ts:246-247 | the recorded scores agree with the app's thresholds: buy exactly when at least 75, avoid exactly when below 50 |
| OpenAIAnalyzer.TrainingFileName | app/lib/openaiAnalyzer.ts:262 | the file name starts with `training_data_` |
| NutritionData.DefaultRecipes | app/lib/nutritionData.ts:300 | the default record has no recipes |
| NutritionData.NormalizeIdempotent | app/lib/nutritionData.ts:262 | lower-casing and trimming a normalised name changes nothing |
| NutritionData.FirstPartial | app/lib/nutritionData.ts:270-274 | the first key, in declaration order, that contains the name or is contained in it |
| NutritionData.GetProduceData | app/lib/nutritionData.ts:261-302 | an exact key wins; otherwise a known record exactly when some key partially matches, and then the first such key; otherwise the default record |
| NutritionData.GetProduceDataNormalized | app/lib/nutritionData.ts:262 | the lookup ignores case and surrounding white space |
| NutritionData.BlankItemIsApple | app/lib/nutritionData.ts:262-272 | a blank name matches "apple", the first key, since every key contains "" |
| NutritionData.ContainingKeyIsKnown | app/lib/nutritionData.ts:270-274 | a name containing any key is never given the default record |
| UseScanLimit.RemainingScans | app/hooks/useScanLimit.ts:21 | -1 for a signed-in user; for a guest 2 minus the count, never below 0 |
| UseScanLimit.HasExceededLimit | app/hooks/useScanLimit.ts:22 | true exactly for a guest with at least 2 scans; never for a signed-in user |
| UseScanLimit.ExceededIffNoneRemaining | app/hooks/useScanLimit.ts:21-22 | a guest is over the limit exactly when no scan remains |
| UseScanLimit.IncrementUsesOneScan | app/hooks/useScanLimit.ts:21-27 | one more scan uses up one remaining scan, stopping at 0 |
| UseScanLimit.ScanLimit.constructor | app/hooks/useScanLimit.ts:9-10 | the count starts at 0 |
| UseScanLimit.ScanLimit.Load | app/hooks/useScanLimit.ts:13-18 | a guest's count is read back from storage, 0 when none is saved; a signed-in user's is not touched |
| UseScanLimit.ScanLimit.Remaining | app/hooks/useScanLimit.ts:21 | the hook's `remainingScans` for the current state |
| UseScanLimit.ScanLimit.Exceeded | app/hooks/useScanLimit.ts:22 | the hook's `hasExceededLimit` for the current state |
| UseScanLimit.ScanLimit.IncrementScanCount | app/hooks/useScanLimit.ts:24-32 | a guest's count goes up by one, is saved and returned, and one fewer scan remains; a signed-in user gets 0 and nothing changes |
| UseScanLimit.ScanLimit.ResetScanCount | app/hooks/useScanLimit.ts:34-39 | a guest's count returns to 0, the saved count is removed and 2 scans remain; a signed-in user is not touched |
| ShareRoute.Create | app/api/share/route.ts:24-60 | a failed body read is a 500; results that are not an array are a 400; otherwise the share is stored for seven days and its URL returned |
| ShareRoute.Fetch | app/api/share/route.ts:62-91 | no id is a 400, an unknown id a 404, an expired share a 410 and is deleted, otherwise the stored share is served unchanged |
| ShareRoute.Unexpired | app/api/share/route.ts:15-22 | the sweep keeps exactly the shares that have not expired, unchanged |
| ShareRoute.SweepsCompose | app/api/share/route.ts:15-22 | sweeping at an earlier and then a later time equals sweeping once at the later time |
| ShareRoute.CreatedShareIsServed | app/api/share/route.ts:36-85 | a created share is served as stored at any time up to seven days later |
| ShareRoute.FetchAfterSweep | app/api/share/route.ts:73-81 | after a sweep an expired share is reported as not found (404) instead of expired (410); an unexpired one is served as before |
| ShareRoute.ShareStore.constructor | app/api/share/route.ts:12 | the store starts empty |
| ShareRoute.ShareStore.Post | app/api/share/route.ts:24-60 | the response and the new store are those of `Create` |
| ShareRoute.ShareStore.Get | app/api/share/route.ts:62-91 | the response and the new store are those of `Fetch` |
| ShareRoute.ShareStore.Sweep | app/api/share/route.ts:15-22 | the store keeps only its unexpired shares |
| ShoppingList.WithItemAdded | app/components/ShoppingList.tsx:39-49 | the new unchecked item is put first and the old items follow unchanged |
| ShoppingList.Toggled | app/components/ShoppingList.tsx:51-55 | every item with the id has its completed flag flipped and nothing else changes |
| ShoppingList.ToggledTwice | app/components/ShoppingList.tsx:51-55 | toggling twice restores the list |
| ShoppingList.Removed | app/components/ShoppingList.tsx:57-59 | exactly the items with another id remain |
| ShoppingList.RemovedConcat | app/components/ShoppingList.tsx:57-59 | removing from a list joined from two parts is removing from each part and joining them, so the remaining items keep their order |
| ShoppingList.RemovedSingle | app/components/ShoppingList.tsx:58 | one item remains exactly when its id differs |
| ShoppingList.RemovedCounts | app/components/ShoppingList.tsx:57-59 | removal keeps the number of occurrences of every item with another id |
| ShoppingList.WithCompleted | app/components/ShoppingList.tsx:108-109 | the items whose completed flag is the one asked for |
| ShoppingList.CompletedPendingPartition | app/components/ShoppingList.tsx:108-109 | completed and pending items together are exactly the list |
| ShoppingList.Decision | app/components/ShoppingList.tsx:77-81 | an item already listed is skipped; below 30 it is added as expired with high urgency; otherwise added as running low only under the stated rule |
| ShoppingList.FridgeItems | app/components/ShoppingList.tsx:71-76 | no stored session gives no item |
| ShoppingList.FridgeItemsConcat | app/components/ShoppingList.tsx:71-76 | storage read in two parts gives the fridge items of the first part followed by those of the second |
| ShoppingList.FridgeItemsSingle | app/components/ShoppingList.tsx:73-76 | one entry contributes its items exactly when its key starts with `session-`, its type is `fridge-check` and it has items |
| ShoppingList.InFridgeItems | app/components/ShoppingList.tsx:71-76 | an item is seen exactly when some stored fridge check with items holds it |
| ShoppingList.AutoAddedAgainst | app/components/ShoppingList.tsx:69-90 | the code as written: at most one new item per scanned item, judged against a fixed snapshot |
| ShoppingList.AutoAdded | app/components/ShoppingList.tsx:69-90 | each scanned item is judged against the list as updated so far; at most one new item each |
| ShoppingList.AutoAddedKeepsNamesDistinct | app/components/ShoppingList.tsx:77-80 | judged against the updated list, the auto-add never lists a name twice |
| ShoppingList.AutoAddAsWrittenDuplicates | app/components/ShoppingList.tsx:77-80 | judged against the stale empty snapshot, a name already listed is added again |
| ShoppingList.ShoppingListState.constructor | app/components/ShoppingList.tsx:19-20 | an empty list and an empty input |
| ShoppingList.ShoppingListState.Load | app/components/ShoppingList.tsx:22-32 | a saved list replaces the items; none leaves them |
| ShoppingList.ShoppingListState.AddItem | app/components/ShoppingList.tsx:39-49 | the items become the list with the new item in front |
| ShoppingList.ShoppingListState.ToggleComplete | app/components/ShoppingList.tsx:51-55 | the items become the toggled list |
| ShoppingList.ShoppingListState.RemoveItem | app/components/ShoppingList.tsx:57-59 | the items become the list without the id |
| ShoppingList.ShoppingListState.SetNewItem | app/components/ShoppingList.tsx:20 | the input text changes and nothing else |
| ShoppingList.ShoppingListState.HandleAddItem | app/components/ShoppingList.tsx:61-66 | a non-blank input is added as a trimmed manual item and the input cleared; a blank input changes nothing |
| ShoppingList.ShoppingListState.CheckForAutoAddAsWritten | app/components/ShoppingList.tsx:69-90 | the items become the auto-add of the stored sessions judged against the stale snapshot |
| ShoppingList.ShoppingListState.CheckForAutoAdd | app/components/ShoppingList.tsx:69-90 | the items become the auto-add judged against the updated list, and distinct names stay distinct |
| UserHistory.Collected | app/components/UserHistory.tsx:31-44 | no stored session gives no history item |
| UserHistory.CollectedConcat | app/components/UserHistory.tsx:31-44 | storage read in two parts gives the items of the first part followed by those of the second |
| UserHistory.CollectedSingle | app/components/UserHistory.tsx:35-38 | one entry contributes its items exactly when its key starts with `session-` and it has items |
| UserHistory.InCollected | app/components/UserHistory.tsx:31-44 | an item is collected exactly when some session entry with items holds it |
| UserHistory.LoadHistory | app/components/UserHistory.tsx:31-46 | the collected items, newest first: a permutation sorted by descending time, stable for equal times |
| UserHistory.AverageFreshness | app/components/UserHistory.tsx:54-56 | the mean freshness rounded to the nearest integer |
| UserHistory.AverageFreshnessInRange | app/components/UserHistory.tsx:54-56 | the average of scores in 0..100 lies in 0..100 |
| UserHistory.Count | app/components/UserHistory.tsx:59-62 | at most the number of scans, and positive exactly when the name was scanned |
| UserHistory.CountConcat | app/components/UserHistory.tsx:59-62 | counting a name over two parts of the history adds up |
| UserHistory.CountCountsScans | app/components/UserHistory.tsx:59-62 | the count of a name is the number of scans with that name |
| UserHistory.Names | app/components/UserHistory.tsx:59-64 | each scanned name once, and only scanned names |
| UserHistory.SortedNames | app/components/UserHistory.tsx:64-65 | the scanned names, each once, ordered by descending count |
| UserHistory.FrequentItems | app/components/UserHistory.tsx:64-67 | the first three names (or all, if fewer) of that order |
| UserHistory.FrequentItemsScanned | app/components/UserHistory.tsx:59-67 | every frequent item was scanned |
| UserHistory.FrequentItemsTopThree | app/components/UserHistory.tsx:64-67 | a name left out was scanned no more often than any name kept |
| UserHistory.TrajectoryOf | app/components/UserHistory.tsx:70-73 | improving exactly when the five newest scores average more than 5 above the next five, declining exactly when more than 5 below; an older sum of 0 counts as equal |
| UserHistory.ShortHistoryIsStable | app/components/UserHistory.tsx:70-73 | five scans or fewer are always stable |
| UserHistory.HighFreshnessCount | app/components/UserHistory.tsx:76 | at most the number of scans |
| UserHistory.HighFreshnessConcat | app/components/UserHistory.tsx:76 | the high-freshness count over two parts of the history adds up |
| UserHistory.HighFreshnessCountsScans | app/components/UserHistory.tsx:76 | the count is the number of scans with freshness at least 80 |
| UserHistory.WasteReduction | app/components/UserHistory.tsx:76-77 | the share of such scans in percent, rounded, in 0..100 |
| UserHistory.InsightsAfter | app/components/UserHistory.tsx:51-86 | an empty history leaves the insights as they were; otherwise average, frequent items, trajectory and waste reduction are recomputed |
| UserRewards.PerfectCount | app/components/UserRewards.tsx:108 | the number of perfect scans is at most the number of scans |
| UserRewards.PerfectCountCountsPerfect | app/components/UserRewards.tsx:108 | the perfect count is the number of scores of at least 95 |
| UserRewards.StatsOf | app/components/UserRewards.tsx:91-127 | total and perfect scans counted over the stored sessions; with scans, the average is the half-up rounded mean score and the waste reduction the half-up rounded percentage of perfect scans, in 0..100; both 0 without scans; streak the number of scan days capped at 30 |
| UserRewards.AverageFreshnessInRange | app/components/UserRewards.tsx:114 | the average of scores in 0..100 lies in 0..100 |
| UserRewards.CalculateStats | app/components/UserRewards.tsx:91-127 | the loop over stored sessions computes exactly those statistics |
| UserRewards.Updated | app/components/UserRewards.tsx:134-161 | only progress and unlocked change: progress is the statistic capped at the goal, unlocked exactly when the statistic reaches it |
| UserRewards.UpdateAchievements | app/components/UserRewards.tsx:132-163 | every achievement is updated in place, in order |
| UserRewards.UpdatedWithinMaxProgress | app/components/UserRewards.tsx:138-161 | for the component's achievements progress never exceeds `maxProgress` and an unlocked one is complete |
| UserRewards.NextAchievement | app/components/UserRewards.tsx:175 | the first achievement that is locked and has some progress, or none |
| FreshnessScoreModal.FreshnessLevel | app/components/FreshnessScoreModal.tsx:45-49 | very good from 80, good from 60 to 79, needs attention below 60 |
| FreshnessScoreModal.FreshnessLevelMonotone | app/components/FreshnessScoreModal.tsx:45-49 | a higher score never has a lower level |
| FreshnessScoreModal.ProcessedScore | app/components/FreshnessScoreModal.tsx:84 | the 0..10 score is (100 - freshness) / 10 rounded half up, clamped to 0..10 |
| FreshnessScoreModal.ProcessedScoreMonotone | app/components/FreshnessScoreModal.tsx:84 | a fresher item never gets a higher processed score |
| FreshnessScoreModal.ProcessedScoreEdges | app/components/FreshnessScoreModal.tsx:84 | 96 and above give 0, 95 gives 1 (the half rounds up), 5 and below give 10 |
| ScanResultSummary.CountOf | app/components/ScanResultSummary.tsx:125-129 | the number of items with a recommendation is at most the number of items |
| ScanResultSummary.CountOfCountsMatching | app/components/ScanResultSummary.tsx:125-129 | each category count is the number of items carrying that recommendation |
| ScanResultSummary.CategoryCountsBounded | app/components/ScanResultSummary.tsx:125-129 | the three counts add up to at most the number of items, and exactly to it when every recommendation is buy, check or avoid |
| ScanResultSummary.FreshnessColor | app/components/ScanResultSummary.tsx:101-105 | green from 80, yellow from 60 to 79, red below 60 |
| ScanResultSummary.RecommendationText | app/components/ScanResultSummary.tsx:116-123 | buy, check and avoid get their translated text; anything else is shown as it is |
| ScanResultSummary.Location | app/components/ScanResultSummary.tsx:66-67 | shopping means store, fridge-check means fridge, anything else pantry |
| ScanResultSummary.SessionItems | app/components/ScanResultSummary.tsx:61-68 | one history item per detected item, keeping id, name and scores |
| ScanResultSummary.SessionKey | app/components/ScanResultSummary.tsx:73 | the storage key starts with `session-` |
| ScanResultSummary.SavedScanIsLoadedInOrder | app/components/ScanResultSummary.tsx:57-74 | a saved scan alone in storage is loaded by the history view as exactly its items in scan order |
| FullScreenScanner.DetectMotion | app/components/FullScreenScanner.tsx:112-127 | the frame counts as steady exactly when the previous frame is at least as long, the frame has pixels, and the mean over its pixels of the average R, G, B difference from the previous frame is below 10 |
| FullScreenScanner.DiffSumBelow | app/components/FullScreenScanner.tsx:116-123 | pixels whose summed R, G, B differences are each below 30 sum to less than 30 per pixel |
| FullScreenScanner.QuietPixelsMakeSteadyFrame | app/components/FullScreenScanner.tsx:116-127 | a non-empty frame whose every pixel differs by less than 10 on average over its channels is steady |
| FullScreenScanner.Tick | app/components/FullScreenScanner.tsx:165-171 | a countdown at 1 or below captures and resets to 0; otherwise it goes down by one |
| FullScreenScanner.CountdownCapturesOnNthTick | app/components/FullScreenScanner.tsx:160-173 | from n, with no other tick and no restart in between, the capture happens on exactly the n-th tick of the shared countdown and not before |
| FullScreenScanner.StatusOf | app/components/FullScreenScanner.tsx:250-255 | analyzing beats auto-capturing, which beats steady, which beats unsteady |
| FullScreenScanner.StatusText | app/components/FullScreenScanner.tsx:257-262 | each status shows its translated message |
| FullScreenScanner.Scanner.constructor | app/components/FullScreenScanner.tsx:41-54 | every flag off, countdown 0, no timeout pending, no interval running, nothing captured |
| FullScreenScanner.Scanner.Status | app/components/FullScreenScanner.tsx:250-262 | the status of the current flags, by that priority |
| FullScreenScanner.Scanner.CameraStarted | app/components/FullScreenScanner.tsx:60-72 | scanning starts and nothing else changes |
| FullScreenScanner.Scanner.ClearRefInterval | app/components/FullScreenScanner.tsx:142-144 | clearing the ref stops only the interval it holds; the other running intervals go on, and none is left exactly when only the ref's one ran |
| FullScreenScanner.Scanner.MotionStep | app/components/FullScreenScanner.tsx:129-145 | while scanning and not analysing, every steady frame before stability sets one more timeout; an unsteady frame after stability cancels stability, auto-capture and countdown, clears the latest pending timeout and only the ref's interval; otherwise nothing changes |
| FullScreenScanner.Scanner.StabilityTimerFires | app/components/FullScreenScanner.tsx:131-134 | one pending timeout fires: the view becomes stable and one more countdown interval starts at 3, joining any already running |
| FullScreenScanner.Scanner.StartAutoCapture | app/components/FullScreenScanner.tsx:160-173 | the countdown restarts at 3 and one more interval runs, now held by the ref; if one ran before, more than the ref's one now runs |
| FullScreenScanner.Scanner.StartAutoCaptureIntended | app/components/FullScreenScanner.tsx:160-173 | clearing the ref's interval first keeps exactly one countdown running |
| FullScreenScanner.Scanner.StabilityTimerFiresIntended | app/components/FullScreenScanner.tsx:131-134 | with the intended auto-capture, however many timeouts fire, exactly one countdown runs |
| FullScreenScanner.Scanner.CaptureAndAnalyze | app/components/FullScreenScanner.tsx:176-185 | a caller that saw an analysis running changes nothing; otherwise one more capture starts, auto-capture and the countdown stop and the ref's interval is cleared, leaving none exactly when it was the only one |
| FullScreenScanner.Scanner.CaptureButton | app/components/FullScreenScanner.tsx:363-366 | the button, enabled only while no analysis runs, always starts a capture |
| FullScreenScanner.Scanner.CountdownTick | app/components/FullScreenScanner.tsx:164-171 | a tick of any running interval captures exactly when the shared countdown is at 1 or below, otherwise counts down by one; a capturing tick whose closure saw no analysis starts one, whatever runs now |
| FullScreenScanner.OrphanIntervalAsWritten | app/components/FullScreenScanner.tsx:129-185 | the code as written: two steady frames before stability leave an interval running after the capture, and it captures a second time during the first analysis |
| FullScreenScanner.SingleIntervalIntended | app/components/FullScreenScanner.tsx:129-185 | the same frames with the intended auto-capture capture once and leave no countdown running |
| FullScreenScanner.Scanner.AnalysisFailed | app/components/FullScreenScanner.tsx:243-247 | a failed analysis clears only the analyzing flag |
| FullScreenScanner.DefaultPosition | app/components/FullScreenScanner.tsx:219-224 | the default box of the n-th item lies on a three-column grid, 30 apart across and 25 down |
| FullScreenScanner.ItemIdsDistinct | app/components/FullScreenScanner.tsx:213 | two items of one scan never share an id |
| FullScreenScanner.ScannedItems | app/components/FullScreenScanner.tsx:212-227 | one scanned item per analysed fruit, in order, with its own id; name, freshness, recommendation, details and confidence are copied and a missing position takes the grid slot |
| FullScreenScanner.AverageAsWritten | app/components/FullScreenScanner.tsx:229-231 | the code as written: the rounded mean freshness, undefined (NaN) for an empty scan |
| FullScreenScanner.EmptyScanAverageIsNaN | app/components/FullScreenScanner.tsx:229-231 | an empty scan has no average as written |
| FullScreenScanner.AverageFreshness | app/components/FullScreenScanner.tsx:229-231 | 0 for an empty scan, otherwise the rounded mean, in 0..100 for scores in 0..100 |
| LocalAI.Recommend | app/lib/localAI.ts:114-117 | buy from 75, check from 50 to 74, avoid below 50 |
| LocalAI.CalculateFreshnessScore | app/lib/localAI.ts:352-372 | the score is 75 plus the bonuses of the present features, capped at 100, so always in 75..100 |
| LocalAI.FeatureScoreExtremes | app/lib/localAI.ts:354-371 | all four features give 100, none gives 75 |
| LocalAI.FeatureScoreMonotone | app/lib/localAI.ts:354-368 | an extra feature never lowers the score |
| LocalAI.FeaturePathAlwaysBuys | app/lib/localAI.ts:374-384 | on the feature path every item is recommended for buying |
| LocalAI.FruitAdjustment | app/lib/localAI.ts:159-168 | no change for an unknown fruit; +5 when its colour matches; -5 to -10 otherwise |
| LocalAI.FreshnessFromPrediction | app/lib/localAI.ts:145-171 | the score of the model path, clamped to 20..100 |
| LocalAI.PredictionScoreAtLeastFifty | app/lib/localAI.ts:147-170 | for a confidence in 0..100 the score lies in 50..100, so the trained path never says avoid |
| LocalAI.FirstMaxIndex | app/lib/localAI.ts:103-105 | the first index of the greatest probability |
| LocalAI.TierOf | app/lib/localAI.ts:247-249 | fresh from 80, good from 60 to 79, fair below 60 |
| LocalAI.FruitTable | app/lib/localAI.ts:208-240 | the table has an entry exactly for the six known fruits |
| LocalAI.CharacteristicsForFruit | app/lib/localAI.ts:242-249 | a known fruit gets the entry of its tier; any other fruit the generic description |
| LocalAI.SameTierSameCharacteristics | app/lib/localAI.ts:247-249 | scores in one tier get the same description |
| LocalAI.DetailTierOf | app/lib/localAI.ts:255-263 | excellent from 85, good from 70, fair from 50, aging below |
| LocalAI.DetailedAnalysis | app/lib/localAI.ts:252-264 | the text names the capitalised fruit |
| LocalAI.FeatureCharacteristics | app/lib/localAI.ts:416-437 | colour and texture as detected; no blemishes above 80 and perfect ripeness above 75 |
| LocalAI.FeatureDetails | app/lib/localAI.ts:439-447 | the text names the item |
| LocalAI.AnalyzeFreshness | app/lib/localAI.ts:374-400 | the item and score as given, confidence 85, the recommendation of the score |
| LocalAI.DefaultFeatureAnalysis | app/lib/localAI.ts:449-456 | failed feature extraction gives "Mixed Fruit", freshness 70, check |
| LocalAI.TrainedAnalysis | app/lib/localAI.ts:82-143 | the capitalised fruit, its confidence and score, the recommendation of the score and the characteristics of its tier |
| LocalAI.FallbackAnalysis | app/lib/localAI.ts:458-474 | freshness 70, check, confidence 60, id `fallback_<time>` |
| LocalAI.LocalFruitAnalyzer.constructor | app/lib/localAI.ts:28-35 | no model is loaded at first |
| LocalAI.LocalFruitAnalyzer.InitializeModel | app/lib/localAI.ts:37-53 | the model counts as loaded exactly when loading succeeded |
| LocalAI.LocalFruitAnalyzer.AnalyzeImage | app/lib/localAI.ts:55-80 | a loaded model uses the most probable fruit and falls back on a failed prediction; otherwise the feature path (always buy) or its default; the recommendation always matches the score |
| AccurateLocalAI.ModelRecommend | app/lib/accurateLocalAI.ts:94-97 | buy from 75, check from 50 to 74, avoid below 50 |
| AccurateLocalAI.HeuristicRecommend | app/lib/accurateLocalAI.ts:290-293 | buy from 70, check from 45 to 69, avoid below 45 |
| AccurateLocalAI.HeuristicIsMoreLenient | app/lib/accurateLocalAI.ts:290-293 | for any score the heuristic never recommends worse than the model path |
| AccurateLocalAI.ModelFreshness | app/lib/accurateLocalAI.ts:85 | the model's output as a score in 0..100 |
| AccurateLocalAI.Confidence | app/lib/accurateLocalAI.ts:82 | the confidence is the output or its complement, whichever is at least one half |
| AccurateLocalAI.ConfidencePercentAtLeastHalf | app/lib/accurateLocalAI.ts:82-113 | the reported confidence lies in 50..100 |
| AccurateLocalAI.ConfidenceText | app/lib/accurateLocalAI.ts:266 | high above 0.8, good above 0.6, moderate otherwise |
| AccurateLocalAI.ColorDescription | app/lib/accurateLocalAI.ts:186-198 | dull below 60, good from 60 to 79, vibrant from 80 unless a colour cue says otherwise |
| AccurateLocalAI.TextureDescription | app/lib/accurateLocalAI.ts:200-205 | the four texture tiers at 85, 70 and 50 |
| AccurateLocalAI.BlemishDescription | app/lib/accurateLocalAI.ts:207-212 | the four blemish tiers at 90, 75 and 50 |
| AccurateLocalAI.RipenessDescription | app/lib/accurateLocalAI.ts:214-219 | the four ripeness tiers at 85, 70 and 50 |
| AccurateLocalAI.CharacteristicsFromAnalysis | app/lib/accurateLocalAI.ts:183-222 | the four descriptions of the score |
| AccurateLocalAI.DescriptionsAgree | app/lib/accurateLocalAI.ts:200-219 | firm texture goes with perfect ripeness, mushy with overripe, and the blemish tiers agree with buy and avoid |
| AccurateLocalAI.DefaultCharacteristics | app/lib/accurateLocalAI.ts:363-386 | the ripeness tiers at 80 and 60 |
| AccurateLocalAI.AccurateDetails | app/lib/accurateLocalAI.ts:265-277 | the text names the fruit |
| AccurateLocalAI.BrownCount | app/lib/accurateLocalAI.ts:331-334 | the number of brownish pixels is at most the number of pixels |
| AccurateLocalAI.BrownCountCountsBrownPixels | app/lib/accurateLocalAI.ts:318-334 | the brownish count is exactly the number of pixels below 0.4, 0.3 and 0.2 of full scale in red, green and blue |
| AccurateLocalAI.HeuristicScore | app/lib/accurateLocalAI.ts:341-355 | the score lies in 15..95 |
| AccurateLocalAI.BrownPixelsNeverHelp | app/lib/accurateLocalAI.ts:352-355 | more brown pixels never raise the score |
| AccurateLocalAI.BrightVividImageScoresTop | app/lib/accurateLocalAI.ts:342-355 | a bright, vivid image without brown pixels scores 95 |
| AccurateLocalAI.HeuristicFreshness | app/lib/accurateLocalAI.ts:309-361 | no pixels give 60; otherwise the score of the pixel sums; always in 15..95 |
| AccurateLocalAI.QualityWord | app/lib/accurateLocalAI.ts:295 | good, fair and poor exactly as the heuristic says buy, check and avoid |
| AccurateLocalAI.HeuristicAnalysis | app/lib/accurateLocalAI.ts:279-307 | confidence 75, the heuristic recommendation and the default characteristics of the score |
| AccurateLocalAI.ModelAnalysis | app/lib/accurateLocalAI.ts:60-123 | the score from the model output, the model-path recommendation, confidence in 50..100, characteristics from the colour cue or the defaults |
| AccurateLocalAI.FallbackAnalysis | app/lib/accurateLocalAI.ts:388-404 | freshness 50, check, confidence 40, id `fallback_<time>` |
| AccurateLocalAI.AccurateFruitAnalyzer.constructor | app/lib/accurateLocalAI.ts:21-27 | no model is loaded at first |
| AccurateLocalAI.AccurateFruitAnalyzer.InitializeModel | app/lib/accurateLocalAI.ts:29-45 | the model counts as loaded exactly when loading succeeded |
| AccurateLocalAI.AccurateFruitAnalyzer.AnalyzeImage | app/lib/accurateLocalAI.ts:47-58 | a loaded model uses the model path and falls back on failure; otherwise the pixel heuristic, 60 without pixels, with a score in 15..95 |
| OrganizeDatasets.FirstMatch | scripts/organize-datasets.py:52-56 | the first mapping, in table order, one of whose variations occurs in the path; none exactly when no variation occurs |
| OrganizeDatasets.IdentifyFruitType | scripts/organize-datasets.py:48-56 | unknown exactly when no variation of any fruit occurs in the lower-cased path |
| OrganizeDatasets.IdentifyQualityAsWritten | scripts/organize-datasets.py:58-66 | the code as written: unknown exactly when no quality variation occurs, and any path containing "fresh" is called fresh |
| OrganizeDatasets.MediumFreshClassifiedFresh | scripts/organize-datasets.py:43-46 | a medium-fresh path, listed under rotten, comes out fresh as written |
| OrganizeDatasets.IdentifyQuality | scripts/organize-datasets.py:58-66 | the intended classifier, used by no loop of the model: a medium-fresh path is rotten; every other path gets the quality of the code as written |
| OrganizeDatasets.PepperIsNeverChili | scripts/organize-datasets.py:29-55 | a path naming a pepper is a bell pepper before it can be a chili |
| OrganizeDatasets.PineappleIsApple | scripts/organize-datasets.py:24-55 | a path naming a pineapple is classified apple, since "apple" is tried first |
| OrganizeDatasets.QualityUnknownForPart | scripts/organize-datasets.py:116-123 | if the whole path has no quality under the classifier as written, neither has any part of it, so testing the parts adds nothing |
| OrganizeDatasets.LabelFile | scripts/organize-datasets.py:104-123 | the labels of a file, with the quality classifier as written: fruit and quality from the whole path or else from the first path part that gives one, none when the file is not an image or either stays unknown (conversion is checked afterwards, in `Picked`) |
| OrganizeDatasets.OrganizedNamesDistinct | scripts/organize-datasets.py:125-137 | two files organised from one folder never get the same name |
| OrganizeDatasets.PickedAreLabelled | scripts/organize-datasets.py:125 | every organised file is fresh or rotten and of a known fruit |
| OrganizeDatasets.Increment | scripts/organize-datasets.py:136 | the count of one quality and fruit goes up by one, every other count stays |
| OrganizeDatasets.Candidates | scripts/organize-datasets.py:187 | every folder except "organized" is processed, and only those |
| OrganizeDatasets.TotalIncrement | scripts/organize-datasets.py:136 | one increment raises the total by one |
| OrganizeDatasets.StatsAfterCounts | scripts/organize-datasets.py:136-149 | each count grows by the number of organised files with that quality and fruit |
| OrganizeDatasets.StatsAfterTotal | scripts/organize-datasets.py:149 | the total grows by the number of organised files |
| OrganizeDatasets.MetadataOf | scripts/organize-datasets.py:141-159 | total and classes from the statistics, every fruit seen listed, fresh labelled 1 and rotten 0 |
| OrganizeDatasets.FruitLabels | scripts/organize-datasets.py:158 | each fruit name is labelled with its position, and nothing else is labelled |
| OrganizeDatasets.DatasetOrganizer.constructor | scripts/organize-datasets.py:16-19 | no statistics, nothing written |
| OrganizeDatasets.DatasetOrganizer.OrganizeDatasetFolder | scripts/organize-datasets.py:96-139 | appends the organised files of the folder, returns their number and adds them to the statistics; files are labelled by the quality classifier as written, so a medium-fresh image is counted fresh |
| OrganizeDatasets.DatasetOrganizer.OrganizeAllDatasets | scripts/organize-datasets.py:181-215 | organises every folder but "organized", labelling with the quality classifier as written; without folders it fails and changes nothing; it succeeds exactly when there were folders and some image was organised, with the metadata of the statistics |
| CollectGlobalDataset.GenericWithoutTemplate | scripts/collect-global-dataset.py:230-248 | produce without its own template gets the generic fresh or rotten traits |
| CollectGlobalDataset.RegionDefaultsToGlobal | scripts/collect-global-dataset.py:271-305 | produce missing from the region table is "Global"; listed produce gets its region |
| CollectGlobalDataset.SampleData | scripts/collect-global-dataset.py:253-269 | fresh samples score 85..94, others 15..34, confidence 90..99, buy exactly when fresh, otherwise avoid, with the traits and region of the produce |
| CollectGlobalDataset.ScoresWithinAdvertisedRanges | scripts/collect-global-dataset.py:343-357 | generated scores stay inside the 80..100 and 0..40 ranges the metadata advertises, and fresh always outscores rotten |
| CollectGlobalDataset.FileNameInjective | scripts/collect-global-dataset.py:140-169 | for fewer than 100 samples, different produce, state or index never share a file name |
| CollectGlobalDataset.RecordDescribesFile | scripts/collect-global-dataset.py:147-153 | the collected record names the written file and carries its produce, state and traits |
| CollectGlobalDataset.GeneratedBalanced | scripts/collect-global-dataset.py:136-169 | target fresh and target rotten samples per produce, nothing else |
| CollectGlobalDataset.GeneratedShape | scripts/collect-global-dataset.py:136-169 | each generated sample has a listed produce, a fresh or rotten state and an index below the target |
| CollectGlobalDataset.GeneratedKeysDistinct | scripts/collect-global-dataset.py:136-169 | for distinct produce no sample is generated twice |
| CollectGlobalDataset.GeneratedNamesDistinct | scripts/collect-global-dataset.py:140-169 | for distinct produce and a target up to 100 no file name is written twice |
| CollectGlobalDataset.FruitsVegetablesPartition | scripts/collect-global-dataset.py:321-337 | the fruit and vegetable lists split the produce list with nothing lost or shared |
| CollectGlobalDataset.RegionGroupsPartition | scripts/collect-global-dataset.py:339-342 | each produce is listed under its own region and no other |
| CollectGlobalDataset.TrainingMetadata | scripts/collect-global-dataset.py:307-365 | sample totals equal the collected records, fresh plus rotten never exceed them, produce split into fruits and vegetables |
| CollectGlobalDataset.MetadataAfterGeneration | scripts/collect-global-dataset.py:359-364 | after one generation fresh and rotten counts are equal and add up to the total |
| CollectGlobalDataset.TrainingSampleForFields | scripts/collect-global-dataset.py:383-421 | the prompt mentions the produce; the answer names the produce title-cased, keeps the state and traits, scores 85 or 25, buys exactly when fresh, confidence 90 |
| CollectGlobalDataset.TrainingAnswerMatchesSample | scripts/collect-global-dataset.py:412-413 | the training answer's score and recommendation fall on the same side as the generated sample's |
| CollectGlobalDataset.WriteSamples | scripts/collect-global-dataset.py:140-153 | writes the n samples of one produce and state and records each one |
| CollectGlobalDataset.GlobalDatasetCollector.constructor | scripts/collect-global-dataset.py:19-111 | the fixed produce list and a target of 10, nothing collected |
| CollectGlobalDataset.GlobalDatasetCollector.GenerateSampleImages | scripts/collect-global-dataset.py:129-169 | writes and records exactly the generated samples, in order |
| CollectGlobalDataset.GlobalDatasetCollector.Metadata | scripts/collect-global-dataset.py:307-365 | the sample counts of the collected records |
| CollectGlobalDataset.GlobalDatasetCollector.CreateOpenAITrainingFile | scripts/collect-global-dataset.py:377-432 | one training sample per collected record, in order |
| CollectRealImages.FallbackUrls | scripts/collect-real-images.py:245-248 | produce without its own sources gets one placeholder fresh and one rotten URL naming it |
| CollectRealImages.GenericWithoutTemplate | scripts/collect-real-images.py:204-211 | produce without its own template gets the generic template |
| CollectRealImages.RandInt | scripts/collect-real-images.py:213-214 | a draw always lies in its inclusive bounds |
| CollectRealImages.RandIntCovers | scripts/collect-real-images.py:213-214 | every value within the bounds can be drawn |
| CollectRealImages.SampleData | scripts/collect-real-images.py:204-238 | fresh samples score 80..95, others 10..30, confidence 85..95, buy exactly when fresh, otherwise avoid |
| CollectRealImages.SampleKeepsTemplate | scripts/collect-real-images.py:221-230 | the sample's traits are those of the produce's template for its state |
| CollectRealImages.Saved | scripts/collect-real-images.py:251-281 | at most target downloads are kept, all successful, in increasing order |
| CollectRealImages.SavedComplete | scripts/collect-real-images.py:252-278 | while fewer than target are kept, every successful download is kept |
| CollectRealImages.SavedStable | scripts/collect-real-images.py:253-254 | once target downloads are kept, later ones change nothing |
| CollectRealImages.SavedRecordsUseConvertedImages | scripts/collect-real-images.py:259-264 | each kept record carries the converted image of its own download |
| CollectRealImages.Gather | scripts/collect-real-images.py:250-314 | writes exactly the kept downloads and returns how many, never more than target |
| CollectRealImages.TrainingSampleFor | scripts/collect-real-images.py:343-385 | the image URL and the answer copy the collected sample, produce title-cased |
| CollectRealImages.TrainingSampleKeepsLabel | scripts/collect-real-images.py:373-381 | the training answer keeps the state and buys exactly when fresh |
| CollectRealImages.RealImageCollector.constructor | scripts/collect-real-images.py:20-86 | the priority produce list and a target of 10, nothing collected |
| CollectRealImages.RealImageCollector.CollectImagesForProduce | scripts/collect-real-images.py:240-316 | appends the kept fresh then rotten downloads of one produce |
| CollectRealImages.RealImageCollector.CollectAllImages | scripts/collect-real-images.py:318-334 | appends the kept downloads of every priority produce, in order |
| CollectRealImages.RealImageCollector.CreateUpdatedTrainingFile | scripts/collect-real-images.py:336-396 | one training sample per written image, in order |
| CombineDatasets.FilterSound | scripts/combine-datasets.py:20-40 | every kept sample comes from the input and passes the test |
| CombineDatasets.FilterComplete | scripts/combine-datasets.py:20-40 | every input sample that passes the test is kept |
| CombineDatasets.FilterConcat | scripts/combine-datasets.py:42-44 | filtering the two parts of a file and joining equals filtering the whole |
| CombineDatasets.Needed | scripts/combine-datasets.py:42-50 | a top-up is needed exactly when fresh samples are fewer than rotten ones, and then it is the gap capped at 50 |
| CombineDatasets.TopUp | scripts/combine-datasets.py:49-61 | at most the needed number of samples, all from the original file and fresh |
| CombineDatasets.TopUpNeedsOriginal | scripts/combine-datasets.py:49-53 | a top-up is needed only when the original file exists |
| CombineDatasets.TopUpSize | scripts/combine-datasets.py:50-61 | with enough fresh originals the top-up is exactly the needed number |
| CombineDatasets.Keep | scripts/combine-datasets.py:20-40 | the samples of a file that pass the test, in order |
| CombineDatasets.TakeFresh | scripts/combine-datasets.py:53-61 | the first needed fresh samples of the original file, stopping early |
| CombineDatasets.Combine | scripts/combine-datasets.py:9-66 | real fresh samples, then synthetic rotten ones, then the top-up |
| CombineDatasets.EveryAnswerMentionsFresh | scripts/combine-datasets.py:27 | every encoded answer contains "fresh", since its "freshness" key does |
| CombineDatasets.RottenRealSampleKeptAsWritten | scripts/combine-datasets.py:21-29 | as written, a real sample classified rotten passes the fresh test |
| CombineDatasets.NoTopUpAsWritten | scripts/combine-datasets.py:42-49 | as written, every selected sample counts as fresh, so the top-up never happens |
| CombineDatasets.CombinedByLabel | scripts/combine-datasets.py:20-61 | testing the classification, the result starts with exactly the real fresh samples, and the top-up adds only fresh ones |
| CombineDatasets.BalancedByLabel | scripts/combine-datasets.py:42-61 | testing the classification, the top-up keeps the rotten count, never makes fresh outnumber rotten, and balances them when the gap is at most 50 and enough fresh originals exist |
| ManageFinetuning.TrainingDataPath | scripts/manage-openai-finetuning.py:24-38 | the combined file first, then the real-images file, then the original; an error exactly when none exists |
| ManageFinetuning.Open | scripts/manage-openai-finetuning.py:16-39 | a missing or empty API key is refused first; otherwise a manager over the chosen training file, or the no-data error |
| ManageFinetuning.AppendJob | scripts/manage-openai-finetuning.py:97-104 | the earlier jobs are kept and the new one is last; a missing file starts empty |
| ManageFinetuning.AppendJobTwice | scripts/manage-openai-finetuning.py:97-104 | saving two jobs keeps both after the earlier ones, older first |
| ManageFinetuning.InProgressKeepsPolling | scripts/manage-openai-finetuning.py:166-181 | the in-progress statuses validating_files, queued and running do not end the wait |
| ManageFinetuning.FirstStop | scripts/manage-openai-finetuning.py:162-182 | the first status check that is an error or terminal, none when every check is in progress |
| ManageFinetuning.WaitForCompletion | scripts/manage-openai-finetuning.py:157-182 | stops at the first terminal status or error and reports it; without one, waits through every check; a reported success has a terminal status |
| ManageFinetuning.ModelToRecord | scripts/manage-openai-finetuning.py:238-242 | a model is recorded exactly when the job succeeded with a non-empty model |
| ManageFinetuning.FirstLineStarting | scripts/manage-openai-finetuning.py:198-201 | the first line starting with the key, none when no line does |
| ManageFinetuning.KeyLineMeansKey | scripts/manage-openai-finetuning.py:195-199 | a file with a line starting with the key contains the key, so such a file takes the replacing branch |
| ManageFinetuning.FirstKeyLineAfterReplace | scripts/manage-openai-finetuning.py:198-201 | the replaced line is still the first key line |
| ManageFinetuning.ModelLineHasNoBreak | scripts/manage-openai-finetuning.py:200-205 | the written model line holds no line break when the model id holds none |
| ManageFinetuning.EnvReplacesFirstKeyLine | scripts/manage-openai-finetuning.py:195-202 | only the first key line is replaced, every other line kept |
| ManageFinetuning.EnvUnchangedWithoutKeyLine | scripts/manage-openai-finetuning.py:195-202 | when the key occurs only inside lines, the file is rewritten unchanged |
| ManageFinetuning.EnvAppendsModelLine | scripts/manage-openai-finetuning.py:203-205 | without the key the old lines are kept and the model line is appended |
| ManageFinetuning.EnvUpdateIdempotent | scripts/manage-openai-finetuning.py:184-211 | recording the same model twice gives the same file as once |
| ManageFinetuning.StatusJobId | scripts/manage-openai-finetuning.py:244-249 | a status request without a job id is refused |
| ManageFinetuning.FineTuningManager.constructor | scripts/manage-openai-finetuning.py:16-39 | the chosen training file and the stored job and environment files |
| ManageFinetuning.FineTuningManager.UploadTrainingFile | scripts/manage-openai-finetuning.py:41-57 | a missing training file is refused before the upload; otherwise the uploaded file id or the API error |
| ManageFinetuning.FineTuningManager.SaveJobInfo | scripts/manage-openai-finetuning.py:87-109 | the job is appended to the job file with status "created"; nothing else changes |
| ManageFinetuning.FineTuningManager.CreateFineTuningJob | scripts/manage-openai-finetuning.py:59-85 | a created job is saved and its id returned; a failed one changes nothing |
| ManageFinetuning.FineTuningManager.CreateEnvFile | scripts/manage-openai-finetuning.py:184-211 | the environment file becomes the updated content, a missing file counting as empty |
| ManageFinetuning.FineTuningManager.CompleteFlow | scripts/manage-openai-finetuning.py:263-284 | a failed upload or job creation is raised as its error and saves no job; otherwise the job is saved, and the result is none while every poll is still running, or the first stopping poll's status or error; the environment file changes only when the job succeeded with a model, and then records it |
| ManageFinetuning.ListAllJobs | scripts/manage-openai-finetuning.py:134-155 | one summary per remote job, in order, or the API error |

## Left out

**Whole project**

- Letter case is ASCII only. `Text.Lower` maps `A`-`Z` to `a`-`z` and keeps every other character; it stands for JavaScript `toLowerCase()` and Python `str.lower()` wherever the source calls them (I18n, LanguageDetector, Translations, Translator, NutritionData, LocalAI, AccurateLocalAI, OpenAIAnalyzer, OrganizeDatasets, CollectGlobalDataset, CollectRealImages). Non-ASCII letters, such as accented names, are not lower-cased.
- Rendering, styling, icons, colours beyond the named tiers, and DOM events are not modelled.
- Network requests, the OpenAI client and TensorFlow inference are not modelled. Their answers are parameters: a reply text, a parsed reply, a prediction vector, a `Result` of an API call.
- JSON serialisation is left out. A record written and read back is the record itself.
- Clocks (`Date.now`, `new Date()`, `time.time()`) are integer parameters. Durations of timers (`setTimeout`, `setInterval`, `time.sleep`) are not modelled: a timer firing is a step, taken in any order the caller chooses.
- Randomness (`Math.random`, `random.randint`) is a parameter. `CollectRealImages.RandInt` shows that every value in range can be drawn.
- Floating-point numbers are integers, or exact fractions compared by cross-multiplying. This covers scores, pixel statistics and sigmoid outputs, the last in thousandths.
- Console output (`console.log`, `print`) is not modelled.
- Exit codes and argument parsing of the scripts are not modelled.

**Localisation**

- I18n: the wording of the four interface tables is data; only their key sets take part in proofs.
- I18n: `formatTranslation` receives each parameter value already converted with `toString()`.
- Translations: the table contents are a parameter holding an English table. `Uniform` describes the source's own tables, where every table has the English keys.
- Translations: the asynchronous detector's geolocation is its outcome, a region code or `None`. The bounding-box tests of the coordinates are floating-point and are not modelled.
- Translator: `translateObject` works on a JSON-like value datatype. JavaScript prototypes, `null` and functions are not distinguished from other non-string values.
- Translator: the regular expression `\b` is modelled over ASCII word characters.
- Translator.CaseVariantDeclaredFirstWins is stated for a single-word text, and it requires only that the translation of the first-declared matching term has no ASCII word characters. In the Chinese table the only translations with ASCII characters, "维生素C" and "维生素A", belong to the two-word terms "vitamin C" and "vitamin A", which never match a single word, so every single word that table translates qualifies. In the Spanish and French tables a translation may itself contain a later term, and the lemma says nothing about them.
- Translator: the phrase tables are a parameter of the model. The source's own tables (app/lib/translator.ts:31-127) are not written out, apart from the two entries used by OrangeReadsAsFruit.
- Translator.OrangeReadsAsFruit uses the two entries "Orange" and "orange" of the Chinese table, not the whole table.

**Stores**

- Storage.LocalStore.AddToHistory, Storage.LocalStore.ClearHistory, Storage.LocalStore.AddToShoppingList, Storage.LocalStore.ToggleShoppingItem, Storage.LocalStore.RemoveFromShoppingList and Storage.LocalStore.ClearShoppingList require the browser. Without `window` the source's `localStorage` is undefined and these calls throw; the model does not represent the exception.
- Storage: the generated id and timestamp of a shopping item are parameters.
- UseScanLimit.ScanLimit.Load assumes a stored count is a non-negative integer. Other stored strings (which `parseInt` turns into NaN) are never written by the hook.
- UseScanLimit: the user id is not modelled, and neither are repeated calls that see a stale closure.
- ShareRoute: the random share id is a parameter, and a colliding id overwrites the earlier record. The `setInterval` schedule of the sweep is not modelled, only one sweep at a given time. The request body is given already parsed.
- ShoppingList: saving the list to local storage on every change is not modelled.
- ShoppingList: stored sessions that are not valid JSON are not modelled; the source would throw on them.
- ShoppingList: the urgency colours and icons are display only.

**Analysis results**

- MultiFruitAnalyzer: the engine's wording of a `TypeError` message is not modelled; the error carries only the source's prefix.
- MultiFruitAnalyzer: `parseInt` results are given, with NaN as `None`.
- MultiFruitAnalyzer.NormalizeFruit: the source copies `nutritionInfo`, `selectionTips`, `seasonInfo`, `commonUses`, `ripeTiming`, `pairings` and `medicinalUses` unchanged; these free-form fields are not part of the model.
- MultiFruitAnalyzer: `compareAndRank` and `generateStorageAdvice` are not defined in the source and are not modelled.
- OpenAIAnalyzer: `startFineTuning` and `checkFineTuningStatus` are API calls and are not modelled.
- OpenAIAnalyzer: `isConfigured` only reports whether a key exists.
- OpenAIAnalyzer.ResultOf takes the reply's `freshness` and `confidence` as whole numbers, or `None` for a missing value, `null` or `""`. The source passes the raw JSON value to `Math.max(0, Math.min(100, x || 50))`: a numeric string is converted, a fraction is kept, and a non-numeric string or an object gives NaN, which escapes the 0..100 range. The model does not represent those values.
- OpenAIAnalyzer.AnalyzeReply inherits the same limit through `ResultOf`.
- OpenAIAnalyzer: `JSON.stringify` of the fruit list is a parameter.
- NutritionData: the nutrition figures, tips and recipes of each record are data. A lookup returns the key whose record is chosen, or the default record.
- NutritionData.GetProduceData looks keys up in a map. The source's exact lookup reads a property of a plain object, which is also truthy for inherited names such as "constructor" and "__proto__", and then returns `Object` or `Object.prototype` instead of the default record; JavaScript prototype names are not modelled.
- LocalAI: image decoding, tensors and the colour statistics of `analyzeImageColors`, `identifyFruit` and the feature extraction are not modelled. They are given as boolean signals.
- LocalAI: the prediction vector is taken to have one whole-percent probability per known fruit (`ValidPrediction`).
- LocalAI: `isReady` only reports a flag.
- AccurateLocalAI: the colour-distribution statistics and the colour-based fruit guess are not modelled. They are a colour cue and a fruit name given as inputs.
- AccurateLocalAI: pixel data is RGB triples.
- AccurateLocalAI: the model output is the sigmoid in thousandths.
- FullScreenScanner: camera, canvas, `fetch`, `onComplete`/`onClose`, the motion-level display and the error text are not modelled.
- FullScreenScanner: frames are RGBA byte sequences.
- FullScreenScanner: storage advice and days remaining are passed through unchanged.
- FullScreenScanner: pending timeouts and running intervals are counted, not identified; which closure fires next and when is the caller's choice. The unmount cleanup and the restart of the motion loop when `isAnalyzing` changes are not modelled.
- FullScreenScanner.CountdownCapturesOnNthTick counts ticks of the shared countdown from one start, not seconds. When several intervals run, their ticks arrive several per second, and a stability timeout firing in between restarts the count at 3; the class `Scanner` models those cases.
- UserHistory.Names: its contract does not state the order of the names. The model lists them in order of first appearance, while JavaScript `Object.entries` lists integer-like keys first, in ascending order, so the source can order integer-like names differently.
- UserHistory: invalid dates are not modelled.
- UserHistory: `wasteReduction` rounds exactly where the source multiplies a float.
- UserHistory.FrequentItems counts names as keys of a map. The source counts them as properties of a plain object, so a scanned name "__proto__" is never counted and a name such as "constructor" starts from the inherited function and its count becomes a string; JavaScript prototype names are not modelled.
- UserRewards: `toDateString` is a date string given with each session.
- UserRewards.StatsOf rounds the exact quotients. The source rounds the floating-point `totalFreshness / totalScans` and `perfectScans / totalScans * 100`, which can fall just below or above a half where the exact value is one.
- UserRewards: `getCategoryColor` and the icons are display only.
- UserRewards.AverageFreshnessInRange requires stored scores in 0..100, the range the analyzers produce; the source does not check stored data.
- FreshnessScoreModal: the quality-metric constants and the status icons are display only.
- ScanResultSummary: screenshot download and sharing (DOM) are not modelled.
- ScanResultSummary: the screenshot stored with a session is not modelled.

**Dataset scripts**

- OrganizeDatasets: the image check and conversion by PIL is a per-file flag.
- OrganizeDatasets: directory listing order is the order given.
- OrganizeDatasets: `fruit_labels` receives the fruit names already sorted.
- OrganizeDatasets: `print_statistics`, the dates and the version strings are not modelled.
- CollectGlobalDataset: directory creation, the placeholder image bytes and their truncation, and the fixed description texts are not modelled.
- CollectGlobalDataset: the region grouping is checked per region, not as the dictionary the script builds.
- CollectGlobalDataset: produce names are distinct, as dictionary keys are.
- CollectRealImages: each download with its image conversion is one `Fetch` outcome. Pauses, the per-produce exception handler and the summary printout are not modelled.
- CombineDatasets: a sample is its classification and the assistant message's content; other message fields are not modelled.
- CombineDatasets: the returned path is not modelled.
- ManageFinetuning: the OpenAI client calls are `Result` parameters. `check_job_status` returns a `StatusInfo` given as input.
- ManageFinetuning: the hyperparameters and suffix of a job request are not modelled.
- ManageFinetuning: the polling interval is not modelled; the finite sequence of status checks stands for the polls.
- ManageFinetuning: the separate `upload` and `create` commands are the same steps as `complete-flow`.
- ManageFinetuning.EnvUpdateIdempotent requires a model id without a line break. An id containing one would split the file's lines differently.

## Findings

| source | as written | input that shows it | evidently intended | confidence | as-written member | corrected member |
|---|---|---|---|---|---|---|
| scripts/combine-datasets.py:27 | a real sample is kept when its answer text contains "fresh", and every answer contains the key "freshness" | a real sample classified rotten, answer `{"item": "Apple", "classification": "rotten", "freshness": 20}` | keep only real samples classified fresh, and count by classification so a top-up can happen | not executed | CombineDatasets.RottenRealSampleKeptAsWritten | CombineDatasets.CombinedByLabel |
| scripts/organize-datasets.py:58-66 | the fresh variations are tried before the rotten ones, and "medium-fresh" contains "fresh" | path `medium-fresh` | medium-fresh, listed under rotten, is classified rotten (the folder loop keeps the classifier as written) | not executed | OrganizeDatasets.MediumFreshClassifiedFresh | OrganizeDatasets.IdentifyQuality |
| app/components/ShoppingList.tsx:69-90 | each stored item is checked against the list captured when the effect was set up (empty on mount), not the list being built | the list already holds "Milk" and a stored fridge check lists "Milk" at freshness 10 | an item already on the list, or added earlier in the same pass, is not added again | not executed | ShoppingList.AutoAddAsWrittenDuplicates | ShoppingList.AutoAddedKeepsNamesDistinct |
| app/components/FullScreenScanner.tsx:229-231 | the average divides by the number of items with no guard for an empty scan | a reply whose `analyzedFruits` is `[]` gives `Math.round(0 / 0)`, NaN | an empty scan averages 0, as the batch analyzer does | not executed | FullScreenScanner.EmptyScanAverageIsNaN | FullScreenScanner.AverageFreshness |
| app/components/FullScreenScanner.tsx:129-185 | every steady frame before stability sets another timeout, every timeout that fires starts another countdown interval into the same ref, and a capture clears only the ref's one | two steady frames 100 ms apart while the view is not yet stable, then three countdown ticks | at most one countdown runs, and a capture stops it | not executed | FullScreenScanner.OrphanIntervalAsWritten | FullScreenScanner.Scanner.StabilityTimerFiresIntended |
