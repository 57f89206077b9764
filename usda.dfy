/**
 * The food-database side of resolution: the search term sent to the database, the
 * nutrient fields read from the first food record it returns, and the linear scaling
 * of those per-100 g values to a portion.
 */
module Usda {
  import opened Wrappers
  import opened Strings
  import opened Portion
  import opened Nutrition

  /** One entry of a record's `foodNutrients` list. */
  datatype FoodNutrient = FoodNutrient(nutrientName: Option<string>, unitName: Option<string>, value: Option<real>)

  /** One food of the search reply. */
  datatype Food = Food(description: string, fdcId: Option<int>, foodNutrients: Option<seq<FoodNutrient>>)

  /** The per-100 g values found; a field no nutrient matched is None. */
  datatype Per100g = Per100g(calories: Option<real>, protein: Option<real>, carbs: Option<real>,
                             sugar: Option<real>, fat: Option<real>)

  /** What searchUSDA returns on a hit. */
  datatype UsdaRecord = UsdaRecord(description: string, per100g: Per100g, fdcId: Option<int>)

  /**
   * The database, as seen by the server: the list of foods its search returns for a
   * query, or None when the key is missing, the request fails, the reply is not ok or
   * it has no `foods` list.
   */
  type FoodSearch = string -> Option<seq<Food>>

  // ---------------------------------------------------------------------------
  // The search term
  // ---------------------------------------------------------------------------

  /** The alternatives of /fresh|raw|cooked|grilled|baked|fried|organic/gi, in order. */
  const Qualifiers: seq<string> := ["fresh", "raw", "cooked", "grilled", "baked", "fried", "organic"]

  /** The first alternative, in order, that matches at the start of `s`. */
  function QualifierAt(s: string, i: nat): (r: Option<nat>)
    ensures r.Some? ==> i <= r.value < |Qualifiers| && StartsWith(s, Qualifiers[r.value])
    ensures r.None? ==> forall j :: i <= j < |Qualifiers| ==> !StartsWith(s, Qualifiers[j])
    decreases |Qualifiers| - i
  {
    if i >= |Qualifiers| then None
    else if StartsWith(s, Qualifiers[i]) then Some(i)
    else QualifierAt(s, i + 1)
  }

  /**
   * The global replacement of the qualifier words by nothing: one left-to-right scan
   * that deletes a match and resumes after it, and otherwise keeps one character.
   */
  function StripQualifiers(s: string): (r: string)
    ensures |r| <= |s|
  {
    if s == [] then []
    else match QualifierAt(s, 0)
      case Some(k) => StripQualifiers(s[|Qualifiers[k]|..])
      case None => [s[0]] + StripQualifiers(s[1..])
  }

  /** The query sent for a food name: lowercased, qualifiers removed, trimmed. */
  function SearchTerm(foodName: string): string {
    Trim(StripQualifiers(ToLower(foodName)))
  }

  /** No qualifier starts at any position of `s`. */
  predicate QualifierFree(s: string) {
    forall i :: 0 <= i < |s| ==> QualifierAt(s[i..], 0).None?
  }

  /** A name without qualifier words passes through unchanged. */
  lemma {:induction false} StripQualifierFree(s: string)
    requires QualifierFree(s)
    ensures StripQualifiers(s) == s
  {
    if s != [] {
      assert s[0..] == s;
      assert QualifierFree(s[1..]) by {
        forall i | 0 <= i < |s[1..]| ensures QualifierAt(s[1..][i..], 0).None? {
          assert s[1..][i..] == s[i + 1..];
        }
      }
      StripQualifierFree(s[1..]);
    }
  }

  /** The position of the alternative starting with the three letters `h`, or |Qualifiers|. */
  function HeadIndex(h: string): nat {
    if h == "fre" then 0 else if h == "raw" then 1 else if h == "coo" then 2
    else if h == "gri" then 3 else if h == "bak" then 4 else if h == "fri" then 5
    else if h == "org" then 6 else 7
  }

  /** The alternatives differ in their first three letters: those letters determine the alternative. */
  lemma HeadDetermines(k: nat)
    requires k < |Qualifiers|
    ensures |Qualifiers[k]| >= 3 && HeadIndex(Qualifiers[k][..3]) == k
  {
    var h := Qualifiers[k][..3];
    assert h == [Qualifiers[k][0], Qualifiers[k][1], Qualifiers[k][2]];
  }

  /** A qualifier at the front is deleted, whatever follows it. */
  lemma StripLeadingQualifier(k: nat, s: string)
    requires k < |Qualifiers|
    ensures StripQualifiers(Qualifiers[k] + s) == StripQualifiers(s)
  {
    var t := Qualifiers[k] + s;
    assert StartsWith(t, Qualifiers[k]);
    var j := QualifierAt(t, 0).value;
    HeadDetermines(j);
    HeadDetermines(k);
    assert Qualifiers[j][..3] == t[..3] == Qualifiers[k][..3];
    assert t[|Qualifiers[k]|..] == s;
  }

  // ---------------------------------------------------------------------------
  // Nutrient extraction
  // ---------------------------------------------------------------------------

  datatype Field = Energy | Protein | Carbs | Sugar | Fat

  /** `n.nutrientName?.toLowerCase() || ''`. */
  function NameOf(n: FoodNutrient): string {
    ToLower(n.nutrientName.GetOr(""))
  }

  /** The field a nutrient fills, by the first test of the chain that it passes. */
  function FieldOf(n: FoodNutrient): Option<Field> {
    var name := NameOf(n);
    if Contains(name, "energy") && n.unitName == Some("KCAL") then Some(Energy)
    else if name == "protein" then Some(Protein)
    else if name == "carbohydrate, by difference" then Some(Carbs)
    else if Contains(name, "sugars, total") then Some(Sugar)
    else if name == "total lipid (fat)" then Some(Fat)
    else None
  }

  /**
   * Energy is taken only in KCAL, protein, carbohydrate and fat only under their exact
   * names, sugars under any name containing "sugars, total"; any other nutrient fills
   * nothing.
   */
  lemma FieldOfChain(n: FoodNutrient)
    ensures FieldOf(n) == Some(Energy) <==> Contains(NameOf(n), "energy") && n.unitName == Some("KCAL")
    ensures FieldOf(n) == Some(Protein) ==> NameOf(n) == "protein"
    ensures FieldOf(n) == Some(Carbs) ==> NameOf(n) == "carbohydrate, by difference"
    ensures FieldOf(n) == Some(Sugar) ==> Contains(NameOf(n), "sugars, total")
    ensures FieldOf(n) == Some(Fat) ==> NameOf(n) == "total lipid (fat)"
    ensures FieldOf(n).None? <==>
              && !(Contains(NameOf(n), "energy") && n.unitName == Some("KCAL"))
              && NameOf(n) != "protein" && NameOf(n) != "carbohydrate, by difference"
              && !Contains(NameOf(n), "sugars, total") && NameOf(n) != "total lipid (fat)"
  {
  }

  function Get(p: Per100g, f: Field): Option<real> {
    match f
    case Energy => p.calories
    case Protein => p.protein
    case Carbs => p.carbs
    case Sugar => p.sugar
    case Fat => p.fat
  }

  /** The dictionary with one field assigned. */
  function Assign(p: Per100g, f: Field, v: Option<real>): (r: Per100g)
    ensures forall g :: Get(r, g) == (if g == f then v else Get(p, g))
  {
    match f
    case Energy => p.(calories := v)
    case Protein => p.(protein := v)
    case Carbs => p.(carbs := v)
    case Sugar => p.(sugar := v)
    case Fat => p.(fat := v)
  }

  /** The assignment `nutrients.<field> = n.value` of one loop step. */
  function Record(p: Per100g, n: FoodNutrient): (r: Per100g)
    ensures forall f :: Get(r, f) == (if FieldOf(n) == Some(f) then n.value else Get(p, f))
  {
    var field := FieldOf(n);
    if field.Some? then Assign(p, field.value, n.value) else p
  }

  const NoNutrients := Per100g(None, None, None, None, None)

  /** The dictionary after the loop has seen `ns`. */
  function NutrientsOf(ns: seq<FoodNutrient>): Per100g
    decreases |ns|
  {
    if ns == [] then NoNutrients else Record(NutrientsOf(ns[..|ns| - 1]), ns[|ns| - 1])
  }

  /** The loop of searchUSDA over the record's nutrients. */
  method ExtractNutrients(ns: seq<FoodNutrient>) returns (nutrients: Per100g)
    ensures nutrients == NutrientsOf(ns)
  {
    nutrients := NoNutrients;
    for i := 0 to |ns|
      invariant nutrients == NutrientsOf(ns[..i])
    {
      assert ns[..i + 1][..i] == ns[..i];
      nutrients := Record(nutrients, ns[i]);
    }
    assert ns[..|ns|] == ns;
  }

  /** `i` is the last nutrient of `ns` that fills `f`. */
  predicate IsLastMatch(ns: seq<FoodNutrient>, f: Field, i: int) {
    && 0 <= i < |ns|
    && FieldOf(ns[i]) == Some(f)
    && forall j :: i < j < |ns| ==> FieldOf(ns[j]) != Some(f)
  }

  /** A field holds the value of the last nutrient that fills it: later matches overwrite earlier ones. */
  lemma {:induction false} LastMatchWins(ns: seq<FoodNutrient>, f: Field, i: int)
    requires IsLastMatch(ns, f, i)
    ensures Get(NutrientsOf(ns), f) == ns[i].value
    decreases |ns|
  {
    var n := |ns| - 1;
    var front := ns[..n];
    NutrientsOfLast(ns);
    if i < n {
      FrontKeepsLastMatch(ns, f, i);
      LastMatchWins(front, f, i);
      RecordMiss(NutrientsOf(front), ns[n], f);
    } else {
      RecordHit(NutrientsOf(front), ns[n], f);
    }
  }

  lemma FrontKeepsLastMatch(ns: seq<FoodNutrient>, f: Field, i: int)
    requires IsLastMatch(ns, f, i) && i < |ns| - 1
    ensures IsLastMatch(ns[..|ns| - 1], f, i) && FieldOf(ns[|ns| - 1]) != Some(f)
  {
    var front := ns[..|ns| - 1];
    forall j | i < j < |front| ensures FieldOf(front[j]) != Some(f) {
      assert front[j] == ns[j];
    }
    assert front[i] == ns[i];
  }

  lemma RecordMiss(p: Per100g, n: FoodNutrient, f: Field)
    requires FieldOf(n) != Some(f)
    ensures Get(Record(p, n), f) == Get(p, f)
  {
  }

  lemma RecordHit(p: Per100g, n: FoodNutrient, f: Field)
    requires FieldOf(n) == Some(f)
    ensures Get(Record(p, n), f) == n.value
  {
  }

  lemma NutrientsOfLast(ns: seq<FoodNutrient>)
    requires ns != []
    ensures NutrientsOf(ns) == Record(NutrientsOf(ns[..|ns| - 1]), ns[|ns| - 1])
  {
  }

  /** A field that no nutrient fills stays absent. */
  lemma {:induction false} UnmatchedStaysAbsent(ns: seq<FoodNutrient>, f: Field)
    requires forall j :: 0 <= j < |ns| ==> FieldOf(ns[j]) != Some(f)
    ensures Get(NutrientsOf(ns), f) == None
    decreases |ns|
  {
    if ns != [] {
      UnmatchedStaysAbsent(ns[..|ns| - 1], f);
    }
  }

  // ---------------------------------------------------------------------------
  // searchUSDA
  // ---------------------------------------------------------------------------

  /** The record built from the first food of the reply. */
  function RecordOf(food: Food): UsdaRecord {
    UsdaRecord(food.description, NutrientsOf(food.foodNutrients.GetOr([])), food.fdcId)
  }

  /** What searchUSDA returns: the record of the first food found, or None. */
  function LookupOf(search: FoodSearch, foodName: string): (r: Option<UsdaRecord>)
    ensures r.Some? <==> search(SearchTerm(foodName)).Some? && search(SearchTerm(foodName)).value != []
    ensures r.Some? ==> r.value == RecordOf(search(SearchTerm(foodName)).value[0])
  {
    match search(SearchTerm(foodName))
    case None => None
    case Some(foods) => if foods == [] then None else Some(RecordOf(foods[0]))
  }

  method SearchUsda(search: FoodSearch, foodName: string) returns (r: Option<UsdaRecord>)
    ensures r == LookupOf(search, foodName)
  {
    var term := Trim(StripQualifiers(ToLower(foodName)));
    var reply := search(term);
    if reply.None? || reply.value == [] {
      return None;
    }
    var food := reply.value[0];
    var nutrients := ExtractNutrients(food.foodNutrients.GetOr([]));
    r := Some(UsdaRecord(food.description, nutrients, food.fdcId));
  }

  /** A record is usable when its calories are truthy: present and non-zero. */
  predicate Usable(u: Option<UsdaRecord>) {
    u.Some? && u.value.per100g.calories.Some? && u.value.per100g.calories.value != 0.0
  }

  // ---------------------------------------------------------------------------
  // scaleUSDA
  // ---------------------------------------------------------------------------

  /** `Math.round`: the nearest integer, halves rounded up. */
  function Round(x: real): (r: int)
    ensures r as real <= x + 0.5 < r as real + 1.0
  {
    (x + 0.5).Floor
  }

  /** Scaling by grams/100 and rounding, for a value that counts as 0 when absent. */
  function Scaled(v: Option<real>, scale: real): real {
    Round(OrZero(v) * scale) as real
  }

  /** The estimate for a record scaled by `scale`, the portion's grams over 100. */
  function ScaleBy(usda: UsdaRecord, scale: real): Estimate {
    var calories := Some(Scaled(usda.per100g.calories, scale));
    Estimate(None, None, None, None, "usda", usda.fdcId, calories, calories,
             Some(Scaled(usda.per100g.protein, scale)), Some(Scaled(usda.per100g.carbs, scale)),
             Some(Scaled(usda.per100g.sugar, scale)), Some(Scaled(usda.per100g.fat, scale)),
             None, Some("USDA: " + usda.description))
  }

  /** scaleUSDA: the per-100 g values scaled to the parsed portion, as a point estimate. */
  function ScaleUsda(usda: UsdaRecord, portion: string): Estimate
    requires QuantityDefined(portion)
    requires usda.per100g.calories.Some?
  {
    ScaleBy(usda, PortionOf(portion).grams / 100.0)
  }

  /** `v` is `x` rounded to the nearest integer, halves up. */
  predicate RoundsTo(x: real, v: Option<real>) {
    v.Some? && v.value == v.value.Floor as real && v.value - 0.5 <= x < v.value + 0.5
  }

  lemma ScaledRounds(v: Option<real>, scale: real)
    ensures RoundsTo(OrZero(v) * scale, Some(Scaled(v, scale)))
  {
    var x := OrZero(v) * scale;
    var r := Round(x);
    assert (r as real).Floor == r;
  }

  /**
   * A database estimate is a point: low and high calories are the same value, calories
   * x scale rounded, every macro is its value x scale rounded with an absent one counting
   * as 0, and nothing else of the item is overridden.
   */
  lemma ScaleByPoint(usda: UsdaRecord, scale: real)
    requires usda.per100g.calories.Some?
    ensures var e := ScaleBy(usda, scale);
            && e.source == "usda" && e.fdcId == usda.fdcId
            && e.calLow == e.calHigh
            && RoundsTo(usda.per100g.calories.value * scale, e.calLow)
            && RoundsTo(OrZero(usda.per100g.protein) * scale, e.protein)
            && RoundsTo(OrZero(usda.per100g.carbs) * scale, e.carbs)
            && RoundsTo(OrZero(usda.per100g.sugar) * scale, e.sugar)
            && RoundsTo(OrZero(usda.per100g.fat) * scale, e.fat)
            && e.name.None? && e.portion.None? && e.cuisine.None? && e.category.None?
  {
    var p := usda.per100g;
    ScaledRounds(p.calories, scale);
    ScaledRounds(p.protein, scale);
    ScaledRounds(p.carbs, scale);
    ScaledRounds(p.sugar, scale);
    ScaledRounds(p.fat, scale);
  }

  /** scaleUSDA scales by the portion's grams over 100. */
  lemma ScaleUsdaPoint(usda: UsdaRecord, portion: string)
    requires QuantityDefined(portion)
    requires usda.per100g.calories.Some?
    ensures ScaleUsda(usda, portion) == ScaleBy(usda, PortionOf(portion).grams / 100.0)
    ensures ScaleUsda(usda, portion).calLow == ScaleUsda(usda, portion).calHigh
  {
  }

  /** A macro the record lacks contributes exactly 0 to the estimate. */
  lemma ScaleUsdaMissingMacro(usda: UsdaRecord, portion: string)
    requires QuantityDefined(portion)
    requires usda.per100g.calories.Some?
    requires usda.per100g.protein.None?
    ensures ScaleUsda(usda, portion).protein == Some(0.0)
  {
    assert Round(0.0) == 0;
  }
}
