/**
 * The resolution strategy of a meal analysis. Every identified item is tried against
 * the food database when its category is "simple" and the record found has calories;
 * otherwise the text estimator is asked. The enriched items are summed and labelled
 * by how many came from the database. Recalculation after an edit asks the database
 * first whatever the category.
 */
module Analysis {
  import opened Wrappers
  import opened Strings
  import opened Portion
  import opened Nutrition
  import opened Usda
  import opened JsonText

  /** The system prompts the server sends with a chat request. */
  datatype Prompt = IdentifyPrompt | EstimatePrompt | RecalculatePrompt

  /**
   * The chat service: the content of the first choice of its reply to a system prompt
   * and a user message, or None when the request fails or the reply is not ok.
   */
  type Chat = (Prompt, string) -> Option<string>

  /** `JSON.parse` of an estimate, or None when it throws. */
  type EstimateReader = string -> Option<Estimate>

  /** The parsed reply of the identification stage. */
  datatype Identification = Identification(items: seq<Identified>, mealContext: Option<string>)

  // ---------------------------------------------------------------------------
  // The estimator
  // ---------------------------------------------------------------------------

  /** `cuisine ? `${cuisine} cuisine` : ''`. */
  function CuisineContext(cuisine: Option<string>): (r: string)
    ensures r == [] <==> cuisine.None? || cuisine.value == []
  {
    if cuisine.Some? && cuisine.value != [] then cuisine.value + " cuisine" else ""
  }

  /** The user message of an estimate request. */
  function EstimateMessage(name: string, portion: string, cuisine: Option<string>): string {
    var context := CuisineContext(cuisine);
    "Food: " + name + (if context != [] then " (" + context + ")" else "") + "\nPortion: " + portion
  }

  /** The user message of a recalculation request. */
  function RecalculateMessage(name: string, portion: string): string {
    "Food: " + name + "\nPortion: " + portion
  }

  /**
   * Without a cuisine the estimate request says what the recalculation request says;
   * with one, the cuisine stands in parentheses after the food's name.
   */
  lemma EstimateMessageShape(name: string, portion: string, cuisine: Option<string>)
    ensures cuisine.None? || cuisine.value == [] ==>
              EstimateMessage(name, portion, cuisine) == RecalculateMessage(name, portion)
    ensures cuisine.Some? && cuisine.value != [] ==>
              EstimateMessage(name, portion, cuisine)
                == "Food: " + name + " (" + cuisine.value + " cuisine)" + "\nPortion: " + portion
  {
  }

  /**
   * One estimator request: the reply's JSON, cut out of its fence, parsed and marked as
   * coming from the estimator. None when the request or the parse fails.
   */
  function AskEstimator(chat: Chat, read: EstimateReader, prompt: Prompt, message: string): (r: Option<Estimate>)
    ensures r.Some? <==> chat(prompt, message).Some? && read(ExtractFenced(chat(prompt, message).value)).Some?
    ensures r.Some? ==> r.value == read(ExtractFenced(chat(prompt, message).value)).value.(source := "ai")
  {
    match chat(prompt, message)
    case None => None
    case Some(content) =>
      match read(ExtractFenced(content))
      case None => None
      case Some(e) => Some(e.(source := "ai"))
  }

  /** estimateNutrition. */
  function EstimateNutrition(chat: Chat, read: EstimateReader, name: string, portion: string,
                             cuisine: Option<string>): (r: Option<Estimate>)
    ensures r.Some? ==> r.value.source == "ai"
  {
    AskEstimator(chat, read, EstimatePrompt, EstimateMessage(name, portion, cuisine))
  }

  // ---------------------------------------------------------------------------
  // One item
  // ---------------------------------------------------------------------------

  /** The nutrition chosen for an item, and whether it came from the database. */
  datatype Resolution = Resolution(nutrition: Estimate, fromDatabase: bool)

  /** Only items of category "simple" are looked up in the database. */
  predicate TriesDatabase(item: Identified) {
    item.category == "simple"
  }

  /**
   * The portion of an item whose database record is used must parse to a number
   * (neither NaN nor infinite).
   */
  predicate PortionParses(search: FoodSearch, item: Identified) {
    TriesDatabase(item) && Usable(LookupOf(search, item.name)) ==> QuantityDefined(item.portion)
  }

  /** The body of the loop of analyzeFood for one item. */
  function Resolve(search: FoodSearch, chat: Chat, read: EstimateReader, item: Identified): Option<Resolution>
    requires PortionParses(search, item)
  {
    var usda := if TriesDatabase(item) then LookupOf(search, item.name) else None;
    if Usable(usda) then Some(Resolution(ScaleUsda(usda.value, item.portion), true))
    else
      match EstimateNutrition(chat, read, item.name, item.portion, item.cuisine)
      case None => None
      case Some(e) => Some(Resolution(e, false))
  }

  /**
   * An item that is not "simple" never consults the database: its resolution is the
   * same whatever the database holds, and it is the estimator's.
   */
  lemma ComplexItemIgnoresDatabase(search1: FoodSearch, search2: FoodSearch, chat: Chat, read: EstimateReader,
                                   item: Identified)
    requires !TriesDatabase(item)
    ensures Resolve(search1, chat, read, item) == Resolve(search2, chat, read, item)
    ensures Resolve(search1, chat, read, item).Some? ==>
              && !Resolve(search1, chat, read, item).value.fromDatabase
              && Resolve(search1, chat, read, item).value.nutrition.source == "ai"
  {
  }

  /**
   * A "simple" item is resolved by the database exactly when its record is usable, and
   * then by the scaled record; otherwise by the estimator.
   */
  lemma SimpleItemResolution(search: FoodSearch, chat: Chat, read: EstimateReader, item: Identified)
    requires TriesDatabase(item) && PortionParses(search, item)
    ensures var r := Resolve(search, chat, read, item);
            Usable(LookupOf(search, item.name)) <==> r.Some? && r.value.fromDatabase
    ensures Usable(LookupOf(search, item.name)) ==>
              Resolve(search, chat, read, item) == Some(Resolution(ScaleUsda(LookupOf(search, item.name).value, item.portion), true))
    ensures !Usable(LookupOf(search, item.name)) ==>
              var e := EstimateNutrition(chat, read, item.name, item.portion, item.cuisine);
              Resolve(search, chat, read, item) == (if e.Some? then Some(Resolution(e.value, false)) else None)
  {
  }

  /** A resolution from the database carries the source "usda", one from the estimator "ai". */
  lemma ResolutionSource(search: FoodSearch, chat: Chat, read: EstimateReader, item: Identified)
    requires PortionParses(search, item) && Resolve(search, chat, read, item).Some?
    ensures var r := Resolve(search, chat, read, item).value;
            r.nutrition.source == (if r.fromDatabase then "usda" else "ai")
  {
  }

  // ---------------------------------------------------------------------------
  // The whole meal
  // ---------------------------------------------------------------------------

  predicate AllPortionsParse(search: FoodSearch, items: seq<Identified>) {
    forall i :: 0 <= i < |items| ==> PortionParses(search, items[i])
  }

  /** What each item resolves to, in order. */
  function Outcomes(search: FoodSearch, chat: Chat, read: EstimateReader, items: seq<Identified>): (r: seq<Option<Resolution>>)
    requires AllPortionsParse(search, items)
    ensures |r| == |items|
    ensures forall i :: 0 <= i < |items| ==> r[i] == Resolve(search, chat, read, items[i])
  {
    seq(|items|, i requires 0 <= i < |items| && PortionParses(search, items[i]) => Resolve(search, chat, read, items[i]))
  }

  /**
   * The loop's all-or-nothing result: every value in order, or None as soon as one is
   * missing.
   */
  function Collect<T>(os: seq<Option<T>>): (r: Option<seq<T>>)
    ensures r.Some? <==> forall i :: 0 <= i < |os| ==> os[i].Some?
    ensures r.Some? ==> |r.value| == |os| && forall i :: 0 <= i < |os| ==> r.value[i] == os[i].value
    decreases |os|
  {
    if os == [] then Some([])
    else
      var n := |os| - 1;
      match Collect(os[..n])
      case None => None
      case Some(vs) => if os[n].None? then None else Some(vs + [os[n].value])
  }

  /** The resolutions of all items in order, or None when any item's estimate fails. */
  function ResolveAll(search: FoodSearch, chat: Chat, read: EstimateReader, items: seq<Identified>): Option<seq<Resolution>>
    requires AllPortionsParse(search, items)
  {
    Collect(Outcomes(search, chat, read, items))
  }

  /** The number of resolutions that came from the database. */
  function Hits(rs: seq<Resolution>): nat
    decreases |rs|
  {
    if rs == [] then 0 else Hits(rs[..|rs| - 1]) + (if rs[|rs| - 1].fromDatabase then 1 else 0)
  }

  /** The number of resolutions that came from the estimator. */
  function Estimates(rs: seq<Resolution>): nat
    decreases |rs|
  {
    if rs == [] then 0 else Estimates(rs[..|rs| - 1]) + (if rs[|rs| - 1].fromDatabase then 0 else 1)
  }

  /** Every item counts exactly once, as a hit or as an estimate. */
  lemma {:induction false} HitsAndEstimates(rs: seq<Resolution>)
    ensures Hits(rs) + Estimates(rs) == |rs|
    decreases |rs|
  {
    if rs != [] {
      HitsAndEstimates(rs[..|rs| - 1]);
    }
  }

  /** The enriched items: each identified item with its nutrition spread over it. */
  function Enriched(items: seq<Identified>, rs: seq<Resolution>): (r: seq<Item>)
    requires |rs| == |items|
    ensures |r| == |items|
    ensures forall i :: 0 <= i < |items| ==> r[i] == Merge(items[i], rs[i].nutrition)
  {
    seq(|items|, i requires 0 <= i < |items| => Merge(items[i], rs[i].nutrition))
  }

  /** What analyzeFood returns. */
  datatype Analysis = Analysis(items: seq<Item>, mealTotal: Totals, confidence: Confidence, notes: string)

  /** `${usdaHits} items from USDA database, ${aiEstimates} AI estimates. ${meal_context || ''}`. */
  function NotesOf(hits: nat, estimates: nat, mealContext: Option<string>): string {
    NatToString(hits) + " items from USDA database, " + NatToString(estimates) + " AI estimates. "
      + mealContext.GetOr("")
  }

  /** The notes begin with the number of hits, which can be read back. */
  lemma NotesStartWithHits(hits: nat, estimates: nat, mealContext: Option<string>)
    ensures StartsWith(NotesOf(hits, estimates, mealContext), NatToString(hits))
    ensures DigitsValue(NatToString(hits)) == hits
    ensures NotesOf(hits, estimates, mealContext)[|NatToString(hits)|] == ' '
  {
    var digits := NatToString(hits);
    var tail := " items from USDA database, " + NatToString(estimates) + " AI estimates. " + mealContext.GetOr("");
    var notes := NotesOf(hits, estimates, mealContext);
    assert notes == digits + tail;
    assert tail[0] == ' ';
    assert notes[..|digits|] == digits;
    NatToStringRoundTrip(hits);
  }

  /** The analysis of an identified meal, or None when an estimate fails. */
  function AnalysisOf(search: FoodSearch, chat: Chat, read: EstimateReader, identified: Identification): Option<Analysis>
    requires AllPortionsParse(search, identified.items)
  {
    match ResolveAll(search, chat, read, identified.items)
    case None => None
    case Some(rs) =>
      var items := Enriched(identified.items, rs);
      Some(Analysis(items, SumTotals(items), ConfidenceOf(Hits(rs), |items|),
                    NotesOf(Hits(rs), Estimates(rs), identified.mealContext)))
  }

  /**
   * The body of the loop of analyzeFood for one item: the database for a "simple" item,
   * kept only when its calories are truthy, and otherwise the estimator.
   */
  method ResolveItem(search: FoodSearch, chat: Chat, read: EstimateReader, item: Identified)
    returns (r: Option<Resolution>)
    requires PortionParses(search, item)
    ensures r == Resolve(search, chat, read, item)
  {
    var nutrition: Option<Estimate> := None;
    var fromDatabase := false;
    if item.category == "simple" {
      var usda := SearchUsda(search, item.name);
      if Usable(usda) {
        nutrition := Some(ScaleUsda(usda.value, item.portion));
        fromDatabase := true;
      }
    }
    if nutrition.None? {
      nutrition := EstimateNutrition(chat, read, item.name, item.portion, item.cuisine);
      if nutrition.None? {
        return None;
      }
    }
    r := Some(Resolution(nutrition.value, fromDatabase));
  }

  /**
   * analyzeFood after the identification stage: each item in turn is resolved and
   * merged, counting database hits and estimates, and the totals, confidence and notes
   * are derived from them. An estimator failure aborts the whole analysis.
   */
  method AnalyzeFood(search: FoodSearch, chat: Chat, read: EstimateReader, identified: Identification)
    returns (r: Option<Analysis>)
    requires AllPortionsParse(search, identified.items)
    ensures r == AnalysisOf(search, chat, read, identified)
  {
    var items := identified.items;
    var enriched: seq<Item> := [];
    var usdaHits := 0;
    var aiEstimates := 0;
    ghost var outcomes := Outcomes(search, chat, read, items);
    ghost var rs: seq<Resolution> := [];
    for i := 0 to |items|
      invariant Progress(outcomes, items, i, rs, enriched, usdaHits, aiEstimates)
    {
      var resolved := ResolveItem(search, chat, read, items[i]);
      if resolved.None? {
        AnalysisFails(search, chat, read, identified, i);
        return None;
      }
      var x := resolved.value;
      ProgressStep(outcomes, items, i, rs, enriched, usdaHits, aiEstimates, x);
      if x.fromDatabase {
        usdaHits := usdaHits + 1;
      } else {
        aiEstimates := aiEstimates + 1;
      }
      enriched := enriched + [Merge(items[i], x.nutrition)];
      rs := rs + [x];
    }
    var confidence := if usdaHits == |enriched| then High else if usdaHits > 0 then Medium else Low;
    AnalysisOfResolved(search, chat, read, identified, rs, enriched, usdaHits, aiEstimates, confidence);
    r := Some(Analysis(enriched, SumTotals(enriched), confidence,
                       NotesOf(usdaHits, aiEstimates, identified.mealContext)));
  }

  /** The loop's progress after `i` items: the resolutions so far, their merge and their counts. */
  ghost predicate Progress(outcomes: seq<Option<Resolution>>, items: seq<Identified>, i: nat, rs: seq<Resolution>,
                           enriched: seq<Item>, hits: nat, estimates: nat)
  {
    && i <= |items| == |outcomes|
    && Collect(outcomes[..i]) == Some(rs)
    && |rs| == i
    && enriched == Enriched(items[..i], rs)
    && hits == Hits(rs) && estimates == Estimates(rs)
  }

  lemma ProgressStep(outcomes: seq<Option<Resolution>>, items: seq<Identified>, i: nat, rs: seq<Resolution>,
                     enriched: seq<Item>, hits: nat, estimates: nat, x: Resolution)
    requires Progress(outcomes, items, i, rs, enriched, hits, estimates)
    requires i < |items| && outcomes[i] == Some(x)
    ensures Progress(outcomes, items, i + 1, rs + [x], enriched + [Merge(items[i], x.nutrition)],
                     hits + (if x.fromDatabase then 1 else 0), estimates + (if x.fromDatabase then 0 else 1))
  {
    CollectSnoc(outcomes, rs, i);
    EnrichedSnoc(items, rs, i, x);
    CountsSnoc(rs, x);
  }

  lemma AnalysisFails(search: FoodSearch, chat: Chat, read: EstimateReader, identified: Identification, i: nat)
    requires AllPortionsParse(search, identified.items) && i < |identified.items|
    requires Resolve(search, chat, read, identified.items[i]).None?
    ensures AnalysisOf(search, chat, read, identified).None?
  {
    assert Outcomes(search, chat, read, identified.items)[i].None?;
  }

  lemma AnalysisOfResolved(search: FoodSearch, chat: Chat, read: EstimateReader, identified: Identification,
                           rs: seq<Resolution>, enriched: seq<Item>, hits: nat, estimates: nat, confidence: Confidence)
    requires AllPortionsParse(search, identified.items)
    requires Progress(Outcomes(search, chat, read, identified.items), identified.items, |identified.items|,
                      rs, enriched, hits, estimates)
    requires confidence == if hits == |enriched| then High else if hits > 0 then Medium else Low
    ensures AnalysisOf(search, chat, read, identified)
              == Some(Analysis(enriched, SumTotals(enriched), confidence, NotesOf(hits, estimates, identified.mealContext)))
  {
    LoopCompleted(Outcomes(search, chat, read, identified.items), identified.items, rs, enriched, hits, estimates);
    AnalysisOfCollected(search, chat, read, identified, rs);
    assert confidence == ConfidenceOf(hits, |enriched|);
  }

  lemma AnalysisOfCollected(search: FoodSearch, chat: Chat, read: EstimateReader, identified: Identification,
                            rs: seq<Resolution>)
    requires AllPortionsParse(search, identified.items)
    requires ResolveAll(search, chat, read, identified.items) == Some(rs)
    ensures var items := Enriched(identified.items, rs);
            AnalysisOf(search, chat, read, identified)
              == Some(Analysis(items, SumTotals(items), ConfidenceOf(Hits(rs), |items|),
                               NotesOf(Hits(rs), Estimates(rs), identified.mealContext)))
  {
  }

  lemma LoopCompleted(outcomes: seq<Option<Resolution>>, items: seq<Identified>, rs: seq<Resolution>,
                      enriched: seq<Item>, hits: nat, estimates: nat)
    requires Progress(outcomes, items, |items|, rs, enriched, hits, estimates)
    ensures Collect(outcomes) == Some(rs) && |rs| == |items|
    ensures enriched == Enriched(items, rs) && hits == Hits(rs) && estimates == Estimates(rs)
  {
    assert outcomes[..|items|] == outcomes;
    assert items[..|items|] == items;
  }

  lemma CollectSnoc<T>(os: seq<Option<T>>, vs: seq<T>, i: nat)
    requires i < |os| && Collect(os[..i]) == Some(vs) && os[i].Some?
    ensures Collect(os[..i + 1]) == Some(vs + [os[i].value])
  {
    assert os[..i + 1][..i] == os[..i];
  }

  lemma EnrichedSnoc(items: seq<Identified>, rs: seq<Resolution>, i: nat, x: Resolution)
    requires i < |items| && |rs| == i
    ensures Enriched(items[..i + 1], rs + [x]) == Enriched(items[..i], rs) + [Merge(items[i], x.nutrition)]
  {
  }

  lemma CountsSnoc(rs: seq<Resolution>, x: Resolution)
    ensures Hits(rs + [x]) == Hits(rs) + (if x.fromDatabase then 1 else 0)
    ensures Estimates(rs + [x]) == Estimates(rs) + (if x.fromDatabase then 0 else 1)
  {
    assert (rs + [x])[..|rs|] == rs;
  }

  /**
   * The analysis keeps the identified items' number and order, each item with its own
   * resolution's nutrition overriding its fields, and succeeds exactly when every item
   * resolves.
   */
  lemma AnalysisItems(search: FoodSearch, chat: Chat, read: EstimateReader, identified: Identification)
    requires AllPortionsParse(search, identified.items)
    ensures var a := AnalysisOf(search, chat, read, identified);
            a.Some? <==> forall i :: 0 <= i < |identified.items| ==> Resolve(search, chat, read, identified.items[i]).Some?
    ensures var a := AnalysisOf(search, chat, read, identified);
            a.Some? ==>
              && |a.value.items| == |identified.items|
              && forall i :: 0 <= i < |identified.items| ==>
                   a.value.items[i] == Merge(identified.items[i], Resolve(search, chat, read, identified.items[i]).value.nutrition)
  {
  }

  /**
   * The totals are the field-wise sums over the enriched items, and the confidence is
   * 'high' when all items were hits (none at all included), 'medium' when some were,
   * 'low' when none of at least one was.
   */
  lemma AnalysisSummary(search: FoodSearch, chat: Chat, read: EstimateReader, identified: Identification)
    requires AllPortionsParse(search, identified.items)
    requires AnalysisOf(search, chat, read, identified).Some?
    ensures var a := AnalysisOf(search, chat, read, identified).value;
            var rs := ResolveAll(search, chat, read, identified.items).value;
            && a.mealTotal.calLow == Sum(CalLows(a.items)) && a.mealTotal.calHigh == Sum(CalHighs(a.items))
            && a.mealTotal.protein == Sum(Proteins(a.items)) && a.mealTotal.carbs == Sum(Nutrition.Carbs(a.items))
            && a.mealTotal.sugar == Sum(Sugars(a.items)) && a.mealTotal.fat == Sum(Fats(a.items))
            && Hits(rs) + Estimates(rs) == |a.items|
            && (a.confidence == High <==> Hits(rs) == |a.items|)
            && (a.confidence == Medium <==> 0 < Hits(rs) < |a.items|)
            && (a.confidence == Low <==> Hits(rs) == 0 < |a.items|)
  {
    var a := AnalysisOf(search, chat, read, identified).value;
    var rs := ResolveAll(search, chat, read, identified.items).value;
    SumTotalsFieldwise(a.items);
    HitsAndEstimates(rs);
    ConfidenceCases(Hits(rs), |a.items|);
  }

  // ---------------------------------------------------------------------------
  // Recalculation
  // ---------------------------------------------------------------------------

  /** recalculateItem: the database first, whatever the item's category, then the estimator. */
  function RecalculateItem(search: FoodSearch, chat: Chat, read: EstimateReader, name: string, portion: string): Option<Estimate>
    requires Usable(LookupOf(search, name)) ==> QuantityDefined(portion)
  {
    var usda := LookupOf(search, name);
    if Usable(usda) then Some(ScaleUsda(usda.value, portion))
    else AskEstimator(chat, read, RecalculatePrompt, RecalculateMessage(name, portion))
  }

  /**
   * A usable record decides a recalculation whatever the estimator would say; without
   * one, the estimator's answer is marked "ai".
   */
  lemma RecalculateDatabaseFirst(search: FoodSearch, chat1: Chat, chat2: Chat, read: EstimateReader,
                                 name: string, portion: string)
    requires Usable(LookupOf(search, name)) ==> QuantityDefined(portion)
    ensures Usable(LookupOf(search, name)) ==>
              && RecalculateItem(search, chat1, read, name, portion) == RecalculateItem(search, chat2, read, name, portion)
              && RecalculateItem(search, chat1, read, name, portion).value.source == "usda"
    ensures !Usable(LookupOf(search, name)) && RecalculateItem(search, chat1, read, name, portion).Some? ==>
              RecalculateItem(search, chat1, read, name, portion).value.source == "ai"
  {
  }

  /**
   * An item that analysis resolved from the database is recalculated to the same
   * estimate.
   */
  lemma RecalculateAgreesWithDatabaseHit(search: FoodSearch, chat: Chat, read: EstimateReader, item: Identified)
    requires TriesDatabase(item) && Usable(LookupOf(search, item.name)) && QuantityDefined(item.portion)
    ensures RecalculateItem(search, chat, read, item.name, item.portion)
              == Some(Resolve(search, chat, read, item).value.nutrition)
  {
  }

  /**
   * Recalculation ignores the category: an item that is not "simple" is recalculated
   * from its database record when that is usable, although analysis asked the
   * estimator for it.
   */
  lemma RecalculateIgnoresCategory(search: FoodSearch, chat: Chat, read: EstimateReader, item: Identified)
    requires !TriesDatabase(item) && Usable(LookupOf(search, item.name)) && QuantityDefined(item.portion)
    ensures RecalculateItem(search, chat, read, item.name, item.portion).value.source == "usda"
    ensures Resolve(search, chat, read, item).Some? ==> Resolve(search, chat, read, item).value.nutrition.source == "ai"
  {
    RecalculateDatabaseFirst(search, chat, chat, read, item.name, item.portion);
    ComplexItemIgnoresDatabase(search, search, chat, read, item);
  }
}
