# Forensic Nutrition: a Dafny model of the meal-resolution core

This project models the deterministic core of a meal-logging application. The
application turns a photo into a list of food items, each with a name, a portion
text, an optional cuisine and a category.

- **Resolving an item.** A `simple` item is first looked up in the USDA
  FoodData Central database, scaled from per-100 g values to the portion's
  gram weight. A `complex` item, or a database miss, goes to a generative
  estimator.
- **Aggregating a meal.** The resolved items are summed field by field into
  meal totals. A confidence label (`high`, `medium`, `low`) is derived from
  how many items came from the database.
- **Editing an item.** A stored meal can have one item recalculated: that one
  slot is replaced and the totals are summed again.

Around this pipeline the model also covers:

- the text helpers that pull JSON out of a reply;
- the profile's target defaults;
- the database seeding script;
- the script that splices a context section into a notes file and counts the
  server's routes;
- the service worker's request routing and cache state;
- the charts tab's seven-day series and history list.

Modules, one per source concern:

| module | file | models |
|---|---|---|
| `Wrappers`, `Strings` | wrappers.dfy, strings.dfy | `Option`; the JavaScript/Python string primitives the source uses (`indexOf`, `lastIndexOf`, `includes`, `str.find`, `str.count`, `trim`, `toLowerCase`, decimal digits of a count) |
| `Portion` | portion.dfy | `PORTION_GRAMS` and `parsePortion`, as a method over the lexed regular-expression match and a first-match table scan |
| `Usda` | usda.dfy | the search-term normalisation, the nutrient loop of `searchUSDA`, `scaleUSDA` |
| `Nutrition` | nutrition.dfy | item, estimate and totals records, the spread that merges an estimate into an item, the `reduce` totals, the confidence rule |
| `Analysis` | analysis.dfy | `estimateNutrition`, the per-item resolution policy and loop of `analyzeFood`, `recalculateItem` |
| `MealStore` | meal_store.dfy | the meals table as a class over a map, the `/analyze` insert and the `PUT /meal/:id/item/:index` handler |
| `JsonText` | json_text.dfy | the fenced-block extraction and the brace-span extraction applied to replies |
| `Profile` | profile.dfy | the target default chains and the weight-unit default of `POST /profile` |
| `SeedDb` | seed_db.dfy | `scripts/seed_db.js`: templates, meal pools, hour windows, the day loop |
| `UpdateContext` | update_context.dfy | `scripts/update_context.py`: the section splice of `update_claude_md` and `count_endpoints` |
| `ServiceWorker` | service_worker.dfy | `public/sw.js`: routing, install, activate, cache-first, network-first, offline fallbacks |
| `Charts` | charts.dfy | `public/charts.js`: `dataMap`, the seven-day series, the history list, the tab's one-time initialisation |

External services are parameters of the model:

- **USDA search.** A function from a query to the foods found, or `None` when
  the key is missing, the request fails or the reply has no foods.
- **Chat service.** A function from a prompt and a message to the reply text,
  or `None`.
- **`JSON.parse`.** A function from text to a parsed estimate, or `None` when
  it throws.
- **`Math.random()` draws.** Nondeterministic reals in [0, 1).
- **Clock-derived values.** The seven date keys and weekday names of the
  charts tab.

Numbers are `real`, and `Math.round(x)` is `floor(x + 0.5)`.

Behaviour of the code worth knowing:

- **Unit lookup.** The unit weight comes from the first key, in declaration
  order, that the unit phrase contains (`Portion.WeightIn`,
  `PortionExamples.CupGrapesExample`).
- **Quantity 0.** A numeric prefix of 0 gives quantity 0
  (`PortionExamples.ZeroCupExample`).
- **Empty meal.** An empty item list is labelled `high`
  (`Nutrition.EmptyMealIsHigh`).
- **Confidence on edit.** The `confidence` and `notes` columns keep their
  stored values when an item is edited (`MealStore.Store.EditItem`).
- **Item order.** Items are resolved one after another, in list order.
  A failing estimate fails the whole analysis (`Analysis.AnalysisFails`).
- **Reading a reply.** The estimator takes the trimmed contents of the first
  fenced block, or the whole reply when there is none (`Analysis.AskEstimator`).

Things the proofs bring out about the code as written:

- **Unreachable table entries.** The entries `grapes` and `chips` can never be
  selected, because `grape` and `chip` come first and are substrings of them
  (`Portion.ShadowedEntries`).
- **Qualifier removal is one scan.** The qualifier words are
  removed in a single left-to-right scan, so `"frfreshesh"` still yields
  `"fresh"` (`UsdaExamples.SingleScanLeavesQualifier`).
- **`/profile.js` is API traffic.** The API classification is a prefix test,
  so the static script `/profile.js` is answered network-first
  (`ServiceWorker.PrefixClassification`).
- **Negative totals are dropped.** A chart day whose totals are both 0 or
  negative is drawn as `null` (`Charts.EntryOf`).
- **A seed label disagrees with its items.** One seed template (Margherita
  pizza) is stored as `medium` although none of its items comes from the
  database (`SeedDb.PizzaTemplateLabel`).

## Model

| member | source | states |
|---|---|---|
| Portion.Lex | server.js:129 | a successful match of the portion pattern leaves a unit group that is empty or does not start with white space |
| Portion.LexFailsExactly | server.js:129-130 | text made of a numeral run, white space and a unit phrase fails to match exactly when the unit phrase holds a line terminator |
| Portion.LexDecomposes | server.js:129 | a match splits the lowered text into the numeral group (digits, dots, slashes only, maximal), white space, and the unit group, which holds no line terminator |
| Portion.LexOfParts | server.js:129 | any numeral, white space and terminator-free unit text put together is matched back into exactly that numeral and unit |
| Portion.LexFailsOnTerminator | server.js:129-130 | a unit text holding a line terminator makes the match fail |
| Portion.ParseFloat | server.js:136-138 | `parseFloat` of a digits-and-dots prefix is non-negative, and is NaN exactly when the text starts with neither a digit nor a dot followed by a digit |
| Portion.ParseFloatOfNat | server.js:138 | `parseFloat` of a printed whole number n is n |
| Portion.ParseFloatOfDecimal | server.js:138 | `parseFloat` of `w.d`, d a non-empty digit string, is w plus the value of d over 10 to the number of digits of d |
| Portion.DigitsDotDigits | server.js:138 | `parseFloat` of any digit string, a dot and a non-empty digit string is the whole part plus the fraction part |
| Portion.SplitAtFirstSlash | server.js:135 | `split('/')` of `a/b`, with no slash in a or b, destructures into exactly a and b |
| Portion.QuantityOfWhole | server.js:137-138 | the quantity of a printed whole number n is n |
| Portion.QuantityOfFraction | server.js:134-136 | the quantity of `a/b` for whole numbers a and b is a divided by b, and NaN or Infinity (no quantity) when b is 0 |
| Portion.QuantityOf | server.js:132-140 | the quantity of a numeral group, specified by `QuantityOfWhole`, `QuantityOfFraction` and `NoNumeralQuantityOne` |
| Portion.FirstKeyFrom | server.js:144-149 | the index found is the first table key, from the given position on, that the unit contains; none is found only when no later key occurs |
| Portion.WeightIn | server.js:143-149 | the weight is that of the first key the unit contains, and 100 g when it contains none |
| Portion.LookupGrams | server.js:143-149 | the loop with its early `break` returns the first-match weight of the table |
| Portion.ParsePortion | server.js:128-152 | parsePortion returns the quantity, the trimmed unit (or `serving`) and quantity times unit weight, and the default `{1, serving, 100}` when the pattern does not match |
| Portion.PortionOf | server.js:128-152 | the portion of a text, specified by `ParsePortion` (the method computes it), `PortionGramsLaw`, `PortionOfLexed`, `PortionUnitTrimmed`, `NoNumeralQuantityOne` and `NumeralOnlyIsServings` |
| Portion.WeightInAppend | server.js:144-149 | a table prefix holding no key of the unit does not affect the weight |
| Portion.WeightByMeasures | server.js:101-126 | a unit containing no food key gets the weight of the first measure key it contains |
| Portion.ServingWeight | server.js:125 | the unit `serving` weighs 100 g |
| Portion.PortionGramsLaw | server.js:151 | on every input, grams equal quantity times the unit's table weight |
| Portion.PortionOfLexed | server.js:129-151 | a match with a numeral and a unit parses to that quantity, that trimmed unit and quantity times its weight |
| Portion.PortionUnitTrimmed | server.js:142 | the unit is never empty and never has white space at either end |
| Portion.NoNumeralQuantityOne | server.js:132-140 | text not starting with a digit, dot or slash has quantity 1 |
| Portion.NumeralOnlyIsServings | server.js:142-151 | a bare numeral (with trailing white space) is that many servings of 100 g |
| Portion.ShadowedEntries | server.js:102 | the entries `grapes` and `chips` are never the first match of any unit |
| PortionExamples.CupGrapesExample | server.js:102 | `"1 cup grapes"` weighs 5 g, from `grape`, not 240 g from `cup` |
| PortionExamples.ThreeQuartersCupExample | server.js:134-136 | `"3/4 cup"` is quantity 0.75 and 180 g |
| PortionExamples.ZeroCupExample | server.js:133-139 | `"0 cup"` is quantity 0 and 0 g; the zero is not replaced by 1 |
| PortionExamples.XyzzyExample | server.js:143-149 | `"1 xyzzy"` uses the default 100 g |
| PortionExamples.TrailingNewlineExample | server.js:129-130 | `"2 slices\n"` does not match, and gives the default portion |
| Usda.QualifierAt | server.js:161 | the alternative found is the first, in order, that starts the text; none is found only when no alternative does |
| Usda.StripQualifiers | server.js:161 | removing qualifier words never lengthens the text |
| Usda.StripQualifierFree | server.js:161 | text containing no qualifier word is left unchanged |
| Usda.StripLeadingQualifier | server.js:161 | a qualifier word at the start is removed and the scan continues after it |
| UsdaExamples.RawTunaTerm | server.js:159-162 | `"Raw Tuna"` becomes the search term `"tuna"` |
| UsdaExamples.FreshTerm | server.js:159-162 | `"Fresh"` becomes the empty search term |
| UsdaExamples.SingleScanLeavesQualifier | server.js:161 | `"frfreshesh"` becomes `"fresh"`: the removal is one scan, not repeated |
| Usda.SearchTerm | server.js:159-162 | the lowered, qualifier-free, trimmed search term, specified by `StripQualifiers`, `StripQualifierFree`, `StripLeadingQualifier`, `RawTunaTerm`, `FreshTerm` and `SingleScanLeavesQualifier` |
| Usda.FieldOfChain | server.js:180-191 | energy is taken only with unit `KCAL`; protein, carbohydrate and fat need the exact name; sugars use a substring test; any other name sets nothing |
| UsdaExamples.KilojoulesIgnored | server.js:181 | an energy value in kJ is ignored and the kcal value is kept |
| Usda.Assign | server.js:182-190 | setting one field of the dictionary leaves the other four unchanged |
| Usda.Record | server.js:180-191 | one loop step sets exactly the field the nutrient matches, to its value, and nothing else |
| Usda.ExtractNutrients | server.js:178-192 | the loop computes the dictionary after visiting the nutrients in order |
| Usda.LastMatchWins | server.js:179-191 | a field holds the value of the last nutrient that matches it |
| Usda.UnmatchedStaysAbsent | server.js:178-192 | a field no nutrient matches stays absent |
| Usda.NutrientsOf | server.js:178-192 | the per-100 g dictionary of a nutrient list, specified by `ExtractNutrients` (the loop computes it), `Record`, `LastMatchWins` and `UnmatchedStaysAbsent` |
| Usda.LookupOf | server.js:156-194 | a lookup hits exactly when the search for the normalised term returns a non-empty list, and then takes the first food's description, nutrients and id |
| Usda.SearchUsda | server.js:154-199 | searchUSDA returns that lookup |
| Usda.Round | server.js:204 | `Math.round` returns the integer within one half of the value, rounding halves up |
| Usda.ScaledRounds | server.js:211-214 | each scaled macro is a whole number within one half of per-100 g value times scale, a missing value counting as 0 |
| Usda.ScaleByPoint | server.js:201-217 | a scaled record has source `usda`, the record's id, equal low and high calories, and each field rounded from per-100 g times scale |
| Usda.ScaleUsdaPoint | server.js:201-209 | scaleUSDA scales by the portion's grams over 100 and gives a point estimate |
| Usda.ScaleUsdaMissingMacro | server.js:211 | a missing protein value scales to 0 |
| UsdaExamples.AppleCupExample | server.js:201-209 | 52 kcal per 100 g with `"1 cup"` gives 125 kcal |
| Usda.ScaleUsda | server.js:201-217 | the scaled estimate, specified by `ScaleUsdaPoint`, `ScaleByPoint`, `ScaledRounds`, `ScaleUsdaMissingMacro` and `AppleCupExample` |
| Nutrition.Merge | server.js:335-341 | the merged item takes every key the estimate has, and the identified item's name, portion, cuisine and category where the estimate has none |
| Nutrition.SumAppend | server.js:347-354 | the sum of two lists is the sum of the sums |
| Nutrition.SumTotalsAppend | scripts/seed_db.js:148-157 | the totals of two lists joined are the field-wise sum of their totals |
| Nutrition.SumTotalsFieldwise | server.js:347-354 | each of the six totals is the sum of that field over the items, a missing value counting as 0 |
| Nutrition.SumTotalsReplace | server.js:473-495 | replacing one item changes the totals by the new item's amounts minus the old item's |
| Nutrition.SumTotals | server.js:347-354 | the meal totals, specified by `SumTotalsFieldwise`, `SumTotalsAppend` and `SumTotalsReplace` |
| Nutrition.ConfidenceCases | server.js:357-359 | the label is high exactly when every item is a database hit, medium exactly when some but not all are, and low exactly when none of at least one is |
| Nutrition.EmptyMealIsHigh | server.js:357 | an empty meal is labelled high |
| Nutrition.ConfidenceOf | server.js:357-359 | the confidence label, specified by `ConfidenceCases` and `EmptyMealIsHigh` |
| Analysis.CuisineContext | server.js:272 | the cuisine context is empty exactly when no cuisine (or an empty one) is given |
| Analysis.EstimateMessageShape | server.js:286 | without a cuisine the estimator's message is `Food: ...\nPortion: ...`; with one it adds ` (<cuisine> cuisine)` after the name |
| Analysis.AskEstimator | server.js:296-302 | an estimate exists exactly when the reply exists and its extracted JSON parses, and it is the parsed object with source `ai` |
| Analysis.EstimateNutrition | server.js:269-303 | every estimator answer has source `ai` |
| Analysis.ComplexItemIgnoresDatabase | server.js:321-333 | a non-simple item resolves the same whatever the database answers, always from the estimator |
| Analysis.SimpleItemResolution | server.js:321-333 | a simple item uses the database exactly when the record's calories are truthy, and then is the scaled record; otherwise it is the estimator's answer |
| Analysis.ResolutionSource | server.js:321-333 | a resolved item's source is `usda` when counted as a hit and `ai` when counted as an estimate |
| Analysis.Resolve | server.js:318-333 | one item's resolution, specified by `ResolveItem` (the loop body computes it), `ComplexItemIgnoresDatabase`, `SimpleItemResolution` and `ResolutionSource` |
| Analysis.Outcomes | server.js:317-333 | one resolution per item, in order |
| Analysis.Collect | server.js:317-342 | all results exist exactly when every item resolved, and then they are the item results in order |
| Analysis.HitsAndEstimates | server.js:317-333 | every item increments exactly one of the two counters |
| Analysis.Enriched | server.js:335-341 | the output list has the input's length and order, and each entry is the item merged with its nutrition |
| Analysis.NotesStartWithHits | server.js:365 | the notes start with the hit count in decimal, followed by a space |
| Analysis.ResolveItem | server.js:318-333 | the loop body returns the resolution of one item |
| Analysis.AnalyzeFood | server.js:306-367 | the loop computes the analysis: merged items, totals, confidence from the hit count, and the notes |
| Analysis.AnalysisFails | server.js:330-333 | one item the estimator cannot answer fails the whole analysis |
| Analysis.AnalysisItems | server.js:317-342 | the analysis exists exactly when every item resolves, and then has one merged entry per item in input order |
| Analysis.AnalysisSummary | server.js:347-359 | the meal totals are the field-wise sums, the counts add up to the item count, and the label follows the three-way rule |
| Analysis.AnalysisOf | server.js:306-367 | the analysis of an identification, specified by `AnalyzeFood` (the method computes it), `AnalysisFails`, `AnalysisItems` and `AnalysisSummary` |
| Analysis.RecalculateDatabaseFirst | server.js:370-409 | a usable database record decides the recalculation whatever the estimator says, with source `usda`; otherwise the estimate has source `ai` |
| Analysis.RecalculateAgreesWithDatabaseHit | server.js:372-376 | for a simple item with a usable record, recalculation gives the same nutrition as the analysis |
| Analysis.RecalculateIgnoresCategory | server.js:370-376 | a complex item is recalculated from the database although the analysis sent it to the estimator |
| Analysis.RecalculateItem | server.js:370-409 | the recalculated estimate, specified by `RecalculateDatabaseFirst`, `RecalculateAgreesWithDatabaseHit` and `RecalculateIgnoresCategory` |
| MealStore.Recalculated | server.js:473-486 | the new item keeps the old cuisine, category and fdcId, takes the name and portion sent, and the estimate's calories, volume, source and notes; every macro is present, with a missing one as 0 |
| MealStore.EditRowReplacesOneSlot | server.js:473-495 | an edit replaces exactly one slot, keeps the length, the other slots, the image, label and notes, and leaves totals equal to the sum of the new list |
| MealStore.EditRowUndo | server.js:473-495 | putting the old item back restores the row |
| MealStore.EditRow | server.js:473-495 | the row after an edit, specified by `EditRowReplacesOneSlot` and `EditRowUndo`, and written by `Store.EditItem` |
| MealStore.Store.Insert | server.js:424-438 | an analysis is stored under a fresh id with the uploaded file's path, its items, totals, label and notes |
| MealStore.Store.EditItem | server.js:453-505 | an unknown meal gives 404 and a bad index gives 400, both with nothing changed; otherwise exactly that row is rewritten with one item recalculated and totals summed again |
| JsonText.CaptureStart | server.js:262 | the capture group starts after the opening fence and the `json` tag when one follows it, skips all the white space there and stops at the first other character; no backtick is skipped |
| JsonText.FencedWithoutPair | server.js:262-263 | a reply without two fences is returned unchanged |
| JsonText.FencedBody | server.js:262-263 | with two fences, the result is trimmed and contains no fence |
| JsonText.FencedJsonBlock | server.js:262-263 | a reply with prose before a fenced `json` block returns the trimmed block body |
| JsonText.FencedPlainBlock | server.js:262-263 | a reply with prose before a plain ``` block whose body does not begin with `json` returns the trimmed block body |
| JsonText.FencedIdempotent | server.js:262-263 | extracting twice gives the same as extracting once |
| JsonText.ExtractFenced | server.js:262-263 | the fenced-block extraction, specified by `CaptureStart`, `FencedWithoutPair`, `FencedBody`, `FencedJsonBlock`, `FencedPlainBlock` and `FencedIdempotent` |
| JsonText.BracesWithoutPair | server.js:725-726 | a reply without a `{` before a later `}` is returned unchanged |
| JsonText.BracesSpan | server.js:725-726 | otherwise the result is the span from the first `{` to the last `}` |
| JsonText.BracesEnds | server.js:725-726 | that span starts with `{` and ends with `}`, with no `{` before it and no `}` after it |
| JsonText.BracesIdempotent | server.js:725-726 | extracting twice gives the same as extracting once |
| JsonText.BracesAroundObject | server.js:725-726 | an object with prose around it is cut out exactly |
| JsonText.ExtractBraces | server.js:725-726 | the brace-span extraction, specified by `BracesWithoutPair`, `BracesSpan`, `BracesEnds`, `BracesIdempotent` and `BracesAroundObject` |
| Profile.ChosenTargets | server.js:641-644 | every stored target is non-zero; each is the request's value when that is truthy, else the recommendation's value when that is truthy, else the default 2000/120/200/65 |
| Profile.DefaultsWhenNothingGiven | server.js:641-644 | with neither request values nor recommendations, the targets are 2000, 120, 200 and 65 |
| Profile.FailedRecommendationIsEmpty | server.js:634-644 | a failed recommender acts like one that gave no target |
| Profile.RequestTargetsWin | server.js:641-644 | four truthy request targets are stored whatever the recommender says |
| Profile.ZeroTargetIsMissing | server.js:641 | a request target of 0 counts as missing |
| Profile.ResubmittedTargetsAreKept | server.js:641-644 | resubmitting the stored targets stores them again |
| Profile.StoredWeightUnit | server.js:664 | the weight unit is the one sent, or `lbs` when none or an empty one is sent |
| SeedDb.Pool | scripts/seed_db.js:159-176 | each meal type draws from a non-empty range of the templates |
| SeedDb.MealPools | scripts/seed_db.js:159-176 | breakfast is templates 0-2, lunch 3-6, dinner 7-12, snack 13 on, and any other type all of them |
| SeedDb.RandomMeal | scripts/seed_db.js:177 | the drawn template is in its meal type's pool |
| SeedDb.PoolMemberDrawn | scripts/seed_db.js:177 | every template of a pool is drawn for some random value |
| SeedDb.MealClock | scripts/seed_db.js:184-207 | the hour is within the meal type's two-hour window and the minute below 60, or 12:00 for another type; seconds and milliseconds are 0 |
| SeedDb.MealWindows | scripts/seed_db.js:186-201 | breakfast is at 7-8, lunch at 12-13, dinner at 18-19 and snack at 15-16 |
| SeedDb.WindowReached | scripts/seed_db.js:186-201 | every minute of both hours of a window is produced by some draws |
| SeedDb.RowOf | scripts/seed_db.js:232-251 | a seeded row has a null image path and holds the template's items, labels, and totals equal to the sum of its items |
| SeedDb.AttemptMeal | scripts/seed_db.js:271-281 | one pass of the inner loop is well formed: the day and the meal type at that position, a template from that type's pool, its row, and a clock within the type's window |
| SeedDb.SeedDay | scripts/seed_db.js:267-283 | a day attempts 2 to 4 meals of the first meal types in order, and its count is the number of successful inserts |
| SeedDb.SeedDatabase | scripts/seed_db.js:260-285 | ten days are seeded, each well formed, and `totalMeals` counts the successful inserts |
| SeedDb.FirstBreakfastTotals | scripts/seed_db.js:18-27 | the first breakfast totals 430-480 kcal, 22 g protein, 54 g carbohydrate, 27 g sugar and 16 g fat |
| SeedDb.PizzaTemplateLabel | scripts/seed_db.js:105-112 | the pizza template has no database item yet is labelled medium, where the analysis rule gives low |
| UpdateContext.EarliestAmong | scripts/update_context.py:213-217 | the position found is -1 exactly when no marker occurs, else a position where a marker occurs with none earlier |
| UpdateContext.NextSection | scripts/update_context.py:212-217 | the marker loop computes the earliest marker position |
| UpdateContext.SectionEndBounds | scripts/update_context.py:210-223 | the section ends at the end of the file or at a marker, at least 20 characters after its start |
| UpdateContext.SectionEndIsFirstMarker | scripts/update_context.py:210-223 | no marker starts between 20 characters past the section start and the section end |
| UpdateContext.UpdateNotes | scripts/update_context.py:194-228 | a missing file or section writes nothing; otherwise the text written is the splice |
| UpdateContext.NoSectionNoRewrite | scripts/update_context.py:204-207 | without the section marker nothing is written |
| UpdateContext.BeforeFirstSection | scripts/update_context.py:204 | the text before the section start holds no section marker |
| UpdateContext.SpliceKeepsTheRest | scripts/update_context.py:204-226 | the new file is the text before the first marker, the new context, and the old file from a marker (or the end) on |
| UpdateContext.EarlyRuleIgnored | scripts/update_context.py:210 | a `---` rule within the first 20 characters of the section does not end it |
| UpdateContext.SectionBetweenOthers | scripts/update_context.py:204-226 | the text before the section and the section after it are kept exactly |
| UpdateContext.Spliced | scripts/update_context.py:204-226 | the spliced notes, specified by `UpdateNotes`, `NoSectionNoRewrite`, `BeforeFirstSection`, `SpliceKeepsTheRest`, `EarlyRuleIgnored` and `SectionBetweenOthers` |
| UpdateContext.CountEndpoints | scripts/update_context.py:64-74 | the count is 0 for a missing file, else the sum of the non-overlapping counts of the four route calls |
| UpdateContext.RouteCallsTotal | scripts/update_context.py:72-73 | that sum is the four counts of `app.get(`, `app.post(`, `app.put(` and `app.delete(` |
| UpdateContext.CountBound | scripts/update_context.py:73 | non-overlapping occurrences of a pattern take up at most the text's length |
| UpdateContext.NoAppNoEndpoints | scripts/update_context.py:72-73 | a server without `app.` has no endpoints |
| UpdateContext.EndpointBound | scripts/update_context.py:72-73 | the count is at most four times the length over eight |
| ServiceWorker.RouteOf | public/sw.js:84-97 | a request is skipped exactly when it is not a GET, network-first exactly when a GET path starts with an API prefix, cache-first otherwise |
| ServiceWorker.PrefixClassification | public/sw.js:25-32 | `/profile.js` and `/meals/...` are API paths; `/`, `/app.js` and `/charts.js` are not |
| ServiceWorker.MatchIn | public/sw.js:105 | a cache lookup finds nothing exactly when no cache holds the URL, and otherwise the entry of the first cache that does |
| ServiceWorker.Put | public/sw.js:117 | after a put the named cache holds the response under the URL |
| ServiceWorker.PutWellFormed | public/sw.js:117 | a put changes one entry of one cache and nothing else |
| ServiceWorker.MatchAfterPut | public/sw.js:117 | a stored URL is found by the next lookup |
| ServiceWorker.ApiAnswerCached | public/sw.js:137-150 | a stored API answer is what a later offline lookup returns when no other cache holds the URL |
| ServiceWorker.Without | public/sw.js:63-64 | filtering keeps exactly the names not removed |
| ServiceWorker.ActivatedSpec | public/sw.js:60-69 | after activation exactly the non-obsolete caches remain, with their entries unchanged |
| ServiceWorker.ActivateFilter | public/sw.js:64 | the current static and API caches and non-`fna-` caches are kept; older `fna-` caches are obsolete |
| ServiceWorker.Activated | public/sw.js:60-69 | the caches after activation, specified by `ActivatedSpec` and `ActivateFilter`, and produced by `Worker.Activate` |
| ServiceWorker.OfflineResponse | public/sw.js:170-225 | the fallback is a 200 HTML page exactly when the Accept header contains `text/html`, else a 503 `Offline` text with the default `text/plain;charset=UTF-8` content type |
| ServiceWorker.Worker.Install | public/sw.js:35-53 | the static cache is opened; when every asset fetch succeeds with an ok, non-206 response each asset is stored with its response and nothing else changes (same caches in the same order, other caches and the other URLs of the static cache keep their responses); otherwise nothing is stored |
| ServiceWorker.StoreAssetFrame | public/sw.js:35-53 | storing one asset changes only that URL of the static cache |
| ServiceWorker.Worker.Activate | public/sw.js:56-77 | the loop deletes exactly the obsolete caches |
| ServiceWorker.Worker.CacheFirst | public/sw.js:104-126 | a cached answer is returned without storing; else the network answer is returned, an ok answer opens the static cache (creating it if missing) and is stored there unless it is a 206, and any other answer changes nothing; with no network the offline fallback is returned and nothing changes |
| ServiceWorker.Worker.NetworkFirst | public/sw.js:132-165 | the network answer is returned, an ok answer opens the API cache (creating it if missing) and is stored there unless it is a 206, and any other answer changes nothing; with no network the cached answer, else the 503 offline JSON, with nothing stored |
| ServiceWorker.Worker.HandleFetch | public/sw.js:80-98 | non-GET requests are not answered and change nothing; other requests get the cache-first or network-first answer and cache state, including the cache opened for an ok 206 answer |
| Charts.BuildDataMap | public/charts.js:49-57 | the `forEach` builds the map of the rows in order |
| Charts.DataMapKeys | public/charts.js:52-57 | the map has exactly the rows' dates |
| Charts.DataMapLastRowWins | public/charts.js:52-57 | a date holds its last row's totals, a missing total as 0 |
| Charts.DataMapOf | public/charts.js:49-57 | the date map, specified by `BuildDataMap` (the loop computes it), `DataMapKeys` and `DataMapLastRowWins` |
| Charts.EntryOf | public/charts.js:69-74 | a bar is null exactly when the date is absent or neither total is positive, else the stored low and high |
| Charts.ChartSeries | public/charts.js:59-75 | the series has seven labels and seven entries, oldest day first |
| Charts.InitCalorieChart | public/charts.js:39-75 | the chart is built from the map and the series |
| Charts.ChartEntryOfDay | public/charts.js:52-74 | a day's bar is null when no row has its date, and otherwise follows its last row |
| Charts.ChartOf | public/charts.js:59-75 | the seven-day chart, specified by `ChartSeries`, `EntryOf`, `ChartEntryOfDay` and `InitCalorieChart` |
| Charts.MealsText | public/charts.js:195 | the count text ends in `s` exactly when the count is not 1 |
| Charts.MealsTextExamples | public/charts.js:195 | 1 gives `1 meal`, 0 gives `0 meals`, 2 gives `2 meals` |
| Charts.HistoryViewOf | public/charts.js:160-209 | a failed fetch shows the error state, an empty history the empty state, otherwise one line per row in order |
| Charts.ChartsTab.OpenTab | public/charts.js:13-29 | the first click on the charts tab builds the chart, loads the list and sets the flag; any other click changes nothing |
| Charts.OpenChartsTwice | public/charts.js:24-29 | a second click on the charts tab changes neither the chart nor the list |
| Charts.ChartsTab.Refresh | public/charts.js:288-294 | a refresh of an opened tab rebuilds the chart (unless its fetch fails) and reloads the list; before the first opening it changes nothing |
| Charts.RefreshBeforeAndAfterOpen | public/charts.js:288-294 | a refresh before opening leaves no chart; a refresh after opening shows the refreshed data |

## Left out

- Network calls to USDA and the chat service are oracle parameters: the
  request URLs, headers, prompts and `max_tokens` are outside the model.
- `identifyFoods` and `calculateRecommendations` are outside the model. Their
  parsed replies are parameters (`Identification`, the recommendation keys).
- `JSON.parse` is opaque. Replies are read by an oracle, and stored items are
  kept as values rather than JSON text.
- Express routing, multer uploads, `res.json` envelopes, SQL and SQLite are
  outside the model. So are the delete, summary, history, meals-by-date,
  AI-summary and `GET /profile` endpoints.
- The meals table is a map from id to row in `MealStore.Store`. The `/history`
  grouping is database behaviour and is read by the charts code as input.
- `Strings.ToLower`: only ASCII letters are lowered; other Unicode case
  mappings are outside the model.
- `Portion.ParsePortion`: it requires `QuantityDefined`. A numeral that
  `parseFloat` turns into NaN or Infinity (`"1/0 cup"`, `"./."`) is excluded.
- `Usda.ScaleUsda`: it requires the per-100 g calories to be present. The
  source gives NaN without them and calls it only when they are truthy.
- `MealStore.Store.EditItem`: the index is an integer. `parseInt` yielding
  NaN is not modelled.
- `MealStore.Store.EditItem`: a recalculation that throws inside the
  database callback sends no answer. It is modelled as `RecalculationFailed`
  with nothing written.
- `MealStore.Store.EditItem`: a database error on the lookup is treated like
  a missing meal, as the source does, but is not modelled separately.
- Null and absent JSON values are both `None`. JavaScript's distinction
  between `undefined` and `null` in stored items is not kept.
- NaN totals and non-numeric JSON values are outside the model.
- Concurrency is not modelled. In the service worker, `cache.put` is not
  awaited; the model stores synchronously.
- The HTTP `Vary` and header matching of `caches.match` is not modelled; a
  lookup is by URL.
- `ServiceWorker.Worker.Install`: the logging of a failed install is left
  out, as are `skipWaiting`, `clients.claim` and the `message` listener.
  These have no state in the model.
- `ServiceWorker.Worker.Install`: `addAll` is modelled as storing every
  asset or none.
- In the seed script, the database's acceptance of each insert is a free
  choice. The `Date` arithmetic behind the timestamp string is outside the
  model; only the clock fields set are modelled.
- In the charts tab, dates, weekday names and `toLocaleString` formatting
  come from the clock and the locale. They are parameters, or are left out
  of the history lines. DOM updates and Chart.js rendering are outside the
  model.
- `Charts.ChartsTab.OpenTab` and `Charts.ChartsTab.Refresh`: `initCalorieChart` and
  `loadHistoryList` are asynchronous and not awaited; the model applies their
  effects at once, chart first.
- `generate_context`, the subprocess status checks and file reads/writes of
  the notes script are outside the model. The file is its contents, or
  `None` when missing.
- The photo-capture and icon-generation tools have no logic in this model.
