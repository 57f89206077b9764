/**
 * The `meals` table as the edit handler sees it: rows keyed by id, each holding its
 * items and the totals stored beside them. Editing an item validates the meal and the
 * index, recalculates the item, replaces that one slot and re-sums the totals; the
 * confidence and notes columns are left as they were.
 */
module MealStore {
  import opened Wrappers
  import opened Portion
  import opened Nutrition
  import opened Usda
  import opened Analysis

  /** One row of the `meals` table; `image_path` is a nullable column. */
  datatype MealRow = MealRow(imagePath: Option<string>, items: seq<Item>, totals: Totals, confidence: string, notes: string)

  /** The answer of the edit handler. */
  datatype EditOutcome =
    | MealNotFound                          // 404
    | InvalidIndex                          // 400
    | RecalculationFailed                   // the recalculation throws: no answer, nothing written
    | Edited(items: seq<Item>, totals: Totals)

  /**
   * The object literal that spreads the old item and sets the edited keys: the name and
   * portion sent, the estimate's calories, its macros with a missing one as 0, and its
   * volume, source and notes. Everything else of the old item is kept.
   */
  function Recalculated(old_: Item, name: string, portion: string, e: Estimate): (r: Item)
    ensures r.cuisine == old_.cuisine && r.category == old_.category && r.fdcId == old_.fdcId
    ensures r.name == name && r.portion == portion && r.source == e.source && r.notes == e.notes
    ensures r.calLow == e.calLow && r.calHigh == e.calHigh && r.volumeOz == e.volumeOz
    ensures r.protein.Some? && r.carbs.Some? && r.sugar.Some? && r.fat.Some?
    ensures OrZero(r.protein) == OrZero(e.protein) && OrZero(r.carbs) == OrZero(e.carbs)
    ensures OrZero(r.sugar) == OrZero(e.sugar) && OrZero(r.fat) == OrZero(e.fat)
  {
    old_.(name := name, portion := portion, calLow := e.calLow, calHigh := e.calHigh,
          protein := Some(OrZero(e.protein)), carbs := Some(OrZero(e.carbs)),
          sugar := Some(OrZero(e.sugar)), fat := Some(OrZero(e.fat)),
          volumeOz := e.volumeOz, source := e.source, notes := e.notes)
  }

  /** The row after item `index` is replaced: new items, re-summed totals, the rest as it was. */
  function EditRow(row: MealRow, index: nat, item: Item): (r: MealRow)
    requires index < |row.items|
  {
    var items := row.items[index := item];
    row.(items := items, totals := SumTotals(items))
  }

  /** The stored totals are the field-wise sums of the stored items. */
  predicate Consistent(row: MealRow) {
    row.totals == SumTotals(row.items)
  }

  /**
   * An edit replaces exactly one slot: the list keeps its length, the other items and
   * the image, confidence and notes columns; the totals are the new items' sums and
   * differ from the old ones by the new item's share less the old item's.
   */
  lemma EditRowReplacesOneSlot(row: MealRow, index: nat, item: Item)
    requires index < |row.items| && Consistent(row)
    ensures var r := EditRow(row, index, item);
            && |r.items| == |row.items| && r.items[index] == item
            && (forall k :: 0 <= k < |row.items| && k != index ==> r.items[k] == row.items[k])
            && r.imagePath == row.imagePath && r.confidence == row.confidence && r.notes == row.notes
            && Consistent(r)
            && Add(r.totals, Contribution(row.items[index])) == Add(row.totals, Contribution(item))
  {
    SumTotalsReplace(row.items, index, item);
  }

  /** Editing an item back to what it was leaves the row as it was. */
  lemma EditRowUndo(row: MealRow, index: nat, item: Item)
    requires index < |row.items| && Consistent(row)
    ensures EditRow(EditRow(row, index, item), index, row.items[index]) == row
  {
    assert row.items[index := item][index := row.items[index]] == row.items;
  }

  class Store {
    /** The rows by id. */
    var rows: map<int, MealRow>
    /** The id the next insert receives. */
    var nextId: int

    ghost predicate Valid()
      reads this
    {
      && nextId >= 1
      && (forall id :: id in rows ==> 1 <= id < nextId)
      && (forall id :: id in rows ==> Consistent(rows[id]))
    }

    constructor()
      ensures Valid() && rows == map[] && nextId == 1
    {
      rows := map[];
      nextId := 1;
    }

    /**
     * The insert of a new analysis: a fresh id, the uploaded file's path, the items,
     * the meal totals, the confidence label and the notes.
     */
    method Insert(imagePath: string, a: Analysis) returns (id: int)
      requires Valid() && a.mealTotal == SumTotals(a.items)
      modifies this
      ensures Valid()
      ensures id == old(nextId) && id !in old(rows) && nextId == old(nextId) + 1
      ensures rows == old(rows)[id := MealRow(Some(imagePath), a.items, a.mealTotal, Label(a.confidence), a.notes)]
    {
      id := nextId;
      rows := rows[id := MealRow(Some(imagePath), a.items, a.mealTotal, Label(a.confidence), a.notes)];
      nextId := nextId + 1;
    }

    /**
     * PUT /meal/:id/item/:index. An unknown meal or an index outside the list is
     * rejected, and a recalculation that fails writes nothing; otherwise the item at
     * the index is replaced by its recalculation and the totals are re-summed.
     */
    method EditItem(search: FoodSearch, chat: Chat, read: EstimateReader,
                    id: int, index: int, name: string, portion: string) returns (outcome: EditOutcome)
      requires Valid()
      requires Usable(LookupOf(search, name)) ==> QuantityDefined(portion)
      modifies this
      ensures Valid() && nextId == old(nextId)
      ensures id !in old(rows) ==> outcome == MealNotFound && rows == old(rows)
      ensures id in old(rows) && !(0 <= index < |old(rows)[id].items|) ==>
                outcome == InvalidIndex && rows == old(rows)
      ensures id in old(rows) && 0 <= index < |old(rows)[id].items| ==>
                var e := RecalculateItem(search, chat, read, name, portion);
                var row := old(rows)[id];
                if e.None? then outcome == RecalculationFailed && rows == old(rows)
                else
                  var edited := EditRow(row, index, Recalculated(row.items[index], name, portion, e.value));
                  && rows == old(rows)[id := edited]
                  && outcome == Edited(edited.items, edited.totals)
    {
      if id !in rows {
        return MealNotFound;
      }
      var items := rows[id].items;
      if index < 0 || index >= |items| {
        return InvalidIndex;
      }
      var newNutrition := RecalculateItem(search, chat, read, name, portion);
      if newNutrition.None? {
        return RecalculationFailed;
      }
      items := items[index := Recalculated(items[index], name, portion, newNutrition.value)];
      var totals := SumTotals(items);
      rows := rows[id := rows[id].(items := items, totals := totals)];
      outcome := Edited(items, totals);
    }
  }
}
