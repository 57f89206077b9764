/**
 * The daily targets the profile handler stores. Each target is the request's value if
 * it is truthy, else the recommender's value if there is a recommendation and its
 * value is truthy, else a fixed default. A failed recommendation (an exception) leaves
 * the recommendation null, and `?.` on null reads as a missing key.
 */
module Profile {
  import opened Wrappers

  /** The four target keys of a request body or of a recommendation; an absent or null key is None. */
  datatype TargetKeys = TargetKeys(cal: Option<real>, protein: Option<real>, carbs: Option<real>, fat: Option<real>)

  /** The targets written to the profile row. */
  datatype Targets = Targets(cal: real, protein: real, carbs: real, fat: real)

  const DefaultTargets := Targets(2000.0, 120.0, 200.0, 65.0)

  const NoKeys := TargetKeys(None, None, None, None)

  /** A JavaScript number is truthy when it is present and not 0 (NaN is not modelled). */
  predicate Truthy(v: Option<real>) {
    v.Some? && v.value != 0.0
  }

  /** `a || b || fallback` on numbers. */
  function FirstTruthy(a: Option<real>, b: Option<real>, fallback: real): real {
    if Truthy(a) then a.value else if Truthy(b) then b.value else fallback
  }

  /** `recommendations?.<key>`: no recommendation reads as a missing key. */
  function Recommended(recommendations: Option<TargetKeys>): TargetKeys {
    if recommendations.Some? then recommendations.value else NoKeys
  }

  /**
   * The four default chains. Every stored target is non-zero; each one is the request's
   * value when that is truthy, else the recommendation's value when that is truthy,
   * else the default.
   */
  function ChosenTargets(body: TargetKeys, recommendations: Option<TargetKeys>): (t: Targets)
    ensures t.cal != 0.0 && t.protein != 0.0 && t.carbs != 0.0 && t.fat != 0.0
    ensures Truthy(body.cal) ==> t.cal == body.cal.value
    ensures Truthy(body.protein) ==> t.protein == body.protein.value
    ensures Truthy(body.carbs) ==> t.carbs == body.carbs.value
    ensures Truthy(body.fat) ==> t.fat == body.fat.value
    ensures var r := Recommended(recommendations);
      && (!Truthy(body.cal) && Truthy(r.cal) ==> t.cal == r.cal.value)
      && (!Truthy(body.protein) && Truthy(r.protein) ==> t.protein == r.protein.value)
      && (!Truthy(body.carbs) && Truthy(r.carbs) ==> t.carbs == r.carbs.value)
      && (!Truthy(body.fat) && Truthy(r.fat) ==> t.fat == r.fat.value)
    ensures var r := Recommended(recommendations);
      && (!Truthy(body.cal) && !Truthy(r.cal) ==> t.cal == DefaultTargets.cal)
      && (!Truthy(body.protein) && !Truthy(r.protein) ==> t.protein == DefaultTargets.protein)
      && (!Truthy(body.carbs) && !Truthy(r.carbs) ==> t.carbs == DefaultTargets.carbs)
      && (!Truthy(body.fat) && !Truthy(r.fat) ==> t.fat == DefaultTargets.fat)
  {
    var r := Recommended(recommendations);
    Targets(FirstTruthy(body.cal, r.cal, DefaultTargets.cal),
            FirstTruthy(body.protein, r.protein, DefaultTargets.protein),
            FirstTruthy(body.carbs, r.carbs, DefaultTargets.carbs),
            FirstTruthy(body.fat, r.fat, DefaultTargets.fat))
  }

  /** The targets as a request body would send them back. */
  function AsKeys(t: Targets): TargetKeys {
    TargetKeys(Some(t.cal), Some(t.protein), Some(t.carbs), Some(t.fat))
  }

  /** With neither a request value nor a recommendation, the defaults 2000/120/200/65 apply. */
  lemma DefaultsWhenNothingGiven(recommendations: Option<TargetKeys>)
    requires recommendations.None? || recommendations == Some(NoKeys)
    ensures ChosenTargets(NoKeys, recommendations) == DefaultTargets
  {
  }

  /** A recommender that fails behaves exactly like one that answers without any target key. */
  lemma FailedRecommendationIsEmpty(body: TargetKeys)
    ensures ChosenTargets(body, None) == ChosenTargets(body, Some(NoKeys))
  {
  }

  /** When the request gives all four targets, the recommendation has no effect. */
  lemma RequestTargetsWin(body: TargetKeys, recs1: Option<TargetKeys>, recs2: Option<TargetKeys>)
    requires Truthy(body.cal) && Truthy(body.protein) && Truthy(body.carbs) && Truthy(body.fat)
    ensures ChosenTargets(body, recs1) == ChosenTargets(body, recs2)
    ensures ChosenTargets(body, recs1) == Targets(body.cal.value, body.protein.value, body.carbs.value, body.fat.value)
  {
  }

  /**
   * A target of 0 in the request is treated as missing: it cannot be stored, and the
   * recommendation or the default is taken instead.
   */
  lemma ZeroTargetIsMissing(body: TargetKeys, recommendations: Option<TargetKeys>)
    requires body.cal == Some(0.0)
    ensures ChosenTargets(body, recommendations) == ChosenTargets(body.(cal := None), recommendations)
  {
  }

  /**
   * Saving a profile again with the targets it has stored keeps them, whatever the
   * recommender answers the second time.
   */
  lemma ResubmittedTargetsAreKept(body: TargetKeys, recs1: Option<TargetKeys>, recs2: Option<TargetKeys>)
    ensures var t := ChosenTargets(body, recs1);
            ChosenTargets(AsKeys(t), recs2) == t
  {
  }

  /** The stored weight unit: the request's unit, or 'lbs' when it is missing or empty. */
  function StoredWeightUnit(unit: Option<string>): (r: string)
    ensures r != ""
    ensures unit.Some? && unit.value != "" ==> r == unit.value
    ensures unit.None? || unit.value == "" ==> r == "lbs"
  {
    if unit.Some? && unit.value != "" then unit.value else "lbs"
  }
}
