/**
 * The records a meal is made of: an identified food item, the nutrition estimate that
 * is merged into it, the field-wise meal totals and the three-way confidence label.
 */
module Nutrition {
  import opened Wrappers

  /** A food as the vision stage identifies it. */
  datatype Identified = Identified(name: string, portion: string, cuisine: Option<string>, category: string)

  /**
   * A nutrition estimate: the keys a database hit or an estimator reply carries.
   * The four text keys are present only when an estimator reply supplies them, and
   * then they override the identified item's values when the two are merged.
   */
  datatype Estimate = Estimate(
    name: Option<string>,
    portion: Option<string>,
    cuisine: Option<string>,
    category: Option<string>,
    source: string,
    fdcId: Option<int>,
    calLow: Option<real>,
    calHigh: Option<real>,
    protein: Option<real>,
    carbs: Option<real>,
    sugar: Option<real>,
    fat: Option<real>,
    volumeOz: Option<real>,
    notes: Option<string>)

  /** A stored meal item; an absent or null JSON value is None. */
  datatype Item = Item(
    name: string,
    portion: string,
    cuisine: Option<string>,
    category: string,
    source: string,
    fdcId: Option<int>,
    calLow: Option<real>,
    calHigh: Option<real>,
    protein: Option<real>,
    carbs: Option<real>,
    sugar: Option<real>,
    fat: Option<real>,
    volumeOz: Option<real>,
    notes: Option<string>)

  /**
   * The object literal that lists the identified item's four keys and then spreads
   * the estimate: every key the estimate has wins.
   */
  function Merge(it: Identified, e: Estimate): (r: Item)
    ensures r.name == e.name.GetOr(it.name) && r.portion == e.portion.GetOr(it.portion)
    ensures r.cuisine == (if e.cuisine.Some? then e.cuisine else it.cuisine)
    ensures r.category == e.category.GetOr(it.category)
    ensures r.source == e.source && r.fdcId == e.fdcId && r.notes == e.notes
    ensures r.calLow == e.calLow && r.calHigh == e.calHigh && r.volumeOz == e.volumeOz
    ensures r.protein == e.protein && r.carbs == e.carbs && r.sugar == e.sugar && r.fat == e.fat
  {
    Item(e.name.GetOr(it.name), e.portion.GetOr(it.portion),
         if e.cuisine.Some? then e.cuisine else it.cuisine,
         e.category.GetOr(it.category),
         e.source, e.fdcId, e.calLow, e.calHigh, e.protein, e.carbs, e.sugar, e.fat, e.volumeOz, e.notes)
  }

  // ---------------------------------------------------------------------------
  // Totals
  // ---------------------------------------------------------------------------

  datatype Totals = Totals(calLow: real, calHigh: real, protein: real, carbs: real, sugar: real, fat: real)

  const ZeroTotals := Totals(0.0, 0.0, 0.0, 0.0, 0.0, 0.0)

  function Add(t: Totals, u: Totals): Totals {
    Totals(t.calLow + u.calLow, t.calHigh + u.calHigh, t.protein + u.protein,
           t.carbs + u.carbs, t.sugar + u.sugar, t.fat + u.fat)
  }

  /** `value || 0` for a number that may be absent or null. */
  function OrZero(v: Option<real>): real {
    v.GetOr(0.0)
  }

  /** What one item adds to the running totals. */
  function Contribution(item: Item): Totals {
    Totals(OrZero(item.calLow), OrZero(item.calHigh), OrZero(item.protein),
           OrZero(item.carbs), OrZero(item.sugar), OrZero(item.fat))
  }

  /** The `reduce` over the items, from the zero totals, left to right. */
  function SumTotals(items: seq<Item>): Totals
    decreases |items|
  {
    if items == [] then ZeroTotals
    else Add(SumTotals(items[..|items| - 1]), Contribution(items[|items| - 1]))
  }

  /** An independent sum of a list of numbers, from the front. */
  function Sum(xs: seq<real>): real {
    if xs == [] then 0.0 else xs[0] + Sum(xs[1..])
  }

  lemma {:induction false} SumAppend(xs: seq<real>, ys: seq<real>)
    ensures Sum(xs + ys) == Sum(xs) + Sum(ys)
  {
    if xs == [] {
      assert xs + ys == ys;
    } else {
      assert (xs + ys)[0] == xs[0];
      assert (xs + ys)[1..] == xs[1..] + ys;
      SumAppend(xs[1..], ys);
    }
  }

  /** The totals of a concatenation are the sums of the totals of its parts. */
  lemma {:induction false} SumTotalsAppend(xs: seq<Item>, ys: seq<Item>)
    ensures SumTotals(xs + ys) == Add(SumTotals(xs), SumTotals(ys))
    decreases |ys|
  {
    if ys != [] {
      var zs := xs + ys;
      assert zs[..|zs| - 1] == xs + ys[..|ys| - 1];
      assert zs[|zs| - 1] == ys[|ys| - 1];
      SumTotalsAppend(xs, ys[..|ys| - 1]);
    } else {
      assert xs + ys == xs;
    }
  }

  function CalLows(items: seq<Item>): seq<real> {
    seq(|items|, i requires 0 <= i < |items| => OrZero(items[i].calLow))
  }
  function CalHighs(items: seq<Item>): seq<real> {
    seq(|items|, i requires 0 <= i < |items| => OrZero(items[i].calHigh))
  }
  function Proteins(items: seq<Item>): seq<real> {
    seq(|items|, i requires 0 <= i < |items| => OrZero(items[i].protein))
  }
  function Carbs(items: seq<Item>): seq<real> {
    seq(|items|, i requires 0 <= i < |items| => OrZero(items[i].carbs))
  }
  function Sugars(items: seq<Item>): seq<real> {
    seq(|items|, i requires 0 <= i < |items| => OrZero(items[i].sugar))
  }
  function Fats(items: seq<Item>): seq<real> {
    seq(|items|, i requires 0 <= i < |items| => OrZero(items[i].fat))
  }

  /** Each total is the sum of that field over the items, an absent value counting as 0. */
  lemma {:induction false} SumTotalsFieldwise(items: seq<Item>)
    ensures SumTotals(items).calLow == Sum(CalLows(items))
    ensures SumTotals(items).calHigh == Sum(CalHighs(items))
    ensures SumTotals(items).protein == Sum(Proteins(items))
    ensures SumTotals(items).carbs == Sum(Carbs(items))
    ensures SumTotals(items).sugar == Sum(Sugars(items))
    ensures SumTotals(items).fat == Sum(Fats(items))
    decreases |items|
  {
    if items != [] {
      var n := |items| - 1;
      var front := items[..n];
      SumTotalsFieldwise(front);
      ColumnsSnoc(items);
      SumAppend(CalLows(front), [OrZero(items[n].calLow)]);
      SumAppend(CalHighs(front), [OrZero(items[n].calHigh)]);
      SumAppend(Proteins(front), [OrZero(items[n].protein)]);
      SumAppend(Carbs(front), [OrZero(items[n].carbs)]);
      SumAppend(Sugars(front), [OrZero(items[n].sugar)]);
      SumAppend(Fats(front), [OrZero(items[n].fat)]);
    }
  }

  /** Each column of `items` is the column of all but the last item, then the last item's value. */
  lemma ColumnsSnoc(items: seq<Item>)
    requires items != []
    ensures var n := |items| - 1;
            && CalLows(items) == CalLows(items[..n]) + [OrZero(items[n].calLow)]
            && CalHighs(items) == CalHighs(items[..n]) + [OrZero(items[n].calHigh)]
            && Proteins(items) == Proteins(items[..n]) + [OrZero(items[n].protein)]
            && Carbs(items) == Carbs(items[..n]) + [OrZero(items[n].carbs)]
            && Sugars(items) == Sugars(items[..n]) + [OrZero(items[n].sugar)]
            && Fats(items) == Fats(items[..n]) + [OrZero(items[n].fat)]
  {
    var n := |items| - 1;
    assert CalLows(items) == CalLows(items[..n]) + [OrZero(items[n].calLow)];
    assert CalHighs(items) == CalHighs(items[..n]) + [OrZero(items[n].calHigh)];
    assert Proteins(items) == Proteins(items[..n]) + [OrZero(items[n].protein)];
    assert Carbs(items) == Carbs(items[..n]) + [OrZero(items[n].carbs)];
    assert Sugars(items) == Sugars(items[..n]) + [OrZero(items[n].sugar)];
    assert Fats(items) == Fats(items[..n]) + [OrZero(items[n].fat)];
  }

  /**
   * Replacing one item changes the totals by exactly the difference between the new
   * and the old item: the re-summed totals plus the old item's share equal the old
   * totals plus the new item's share.
   */
  lemma SumTotalsReplace(items: seq<Item>, i: nat, x: Item)
    requires i < |items|
    ensures Add(SumTotals(items[i := x]), Contribution(items[i])) == Add(SumTotals(items), Contribution(x))
  {
    var before, after := items[..i], items[i + 1..];
    assert items == before + [items[i]] + after;
    assert items[i := x] == before + [x] + after;
    SumTotalsAppend(before + [items[i]], after);
    SumTotalsAppend(before + [x], after);
    SumTotalsAppend(before, [items[i]]);
    SumTotalsAppend(before, [x]);
    assert SumTotals([items[i]]) == Add(ZeroTotals, Contribution(items[i])) by {
      assert [items[i]][..0] == [];
    }
    assert SumTotals([x]) == Add(ZeroTotals, Contribution(x)) by {
      assert [x][..0] == [];
    }
  }

  // ---------------------------------------------------------------------------
  // Confidence
  // ---------------------------------------------------------------------------

  datatype Confidence = High | Medium | Low

  /** The label stored in the `confidence` column. */
  function Label(c: Confidence): string {
    match c
    case High => "high"
    case Medium => "medium"
    case Low => "low"
  }

  /** 'high' when every item came from the database, else 'medium' when some did, else 'low'. */
  function ConfidenceOf(hits: nat, n: nat): Confidence {
    if hits == n then High else if hits > 0 then Medium else Low
  }

  /**
   * The three labels split the possible hit counts: all items (including none at all),
   * some but not all, and none of at least one.
   */
  lemma ConfidenceCases(hits: nat, n: nat)
    requires hits <= n
    ensures ConfidenceOf(hits, n) == High <==> hits == n
    ensures ConfidenceOf(hits, n) == Medium <==> 0 < hits < n
    ensures ConfidenceOf(hits, n) == Low <==> hits == 0 < n
  {
  }

  /** A meal with no items at all is labelled 'high'. */
  lemma EmptyMealIsHigh()
    ensures ConfidenceOf(0, 0) == High
  {
  }
}
