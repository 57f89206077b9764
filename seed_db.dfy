/**
 * The seed script: fifteen meal templates, a meal drawn from the pool of its meal
 * type, a clock time inside the meal type's window, and ten days of two to four meals
 * whose types are a prefix of breakfast, lunch, snack, dinner. Every `Math.random()`
 * draw is a nondeterministic real in [0, 1).
 */
module SeedDb {
  import opened Wrappers
  import opened Nutrition
  import opened MealStore

  /** A meal template: its items, its confidence label and its notes. */
  datatype Template = Template(items: seq<Item>, confidence: string, notes: string)

  /** A template item: no database id, volume or notes. */
  function SeedItem(name: string, portion: string, cuisine: Option<string>, category: string,
                    calLow: real, calHigh: real, protein: real, carbs: real, sugar: real, fat: real,
                    source: string): Item
  {
    Item(name, portion, cuisine, category, source, None, Some(calLow), Some(calHigh),
         Some(protein), Some(carbs), Some(sugar), Some(fat), None, None)
  }

  const Breakfasts: seq<Template> := [
    Template([SeedItem("Scrambled Eggs", "2 eggs", Some("American"), "simple", 180.0, 200.0, 14.0, 2.0, 1.0, 14.0, "usda"),
              SeedItem("Whole Wheat Toast", "2 slices", Some("American"), "simple", 140.0, 160.0, 6.0, 26.0, 4.0, 2.0, "usda"),
              SeedItem("Orange Juice", "8 oz", None, "simple", 110.0, 120.0, 2.0, 26.0, 22.0, 0.0, "usda")],
             "high", "3 items from USDA database"),
    Template([SeedItem("Greek Yogurt with Berries", "1 cup", Some("Mediterranean"), "simple", 180.0, 220.0, 18.0, 20.0, 14.0, 5.0, "usda"),
              SeedItem("Granola", "1/2 cup", None, "simple", 200.0, 240.0, 5.0, 40.0, 12.0, 6.0, "usda")],
             "high", "2 items from USDA database"),
    Template([SeedItem("Avocado Toast", "2 slices", Some("American"), "complex", 320.0, 380.0, 8.0, 30.0, 4.0, 22.0, "ai"),
              SeedItem("Poached Egg", "1 egg", None, "simple", 70.0, 80.0, 6.0, 0.0, 0.0, 5.0, "usda")],
             "medium", "1 item from USDA, 1 AI estimate")
  ]

  const Lunches: seq<Template> := [
    Template([SeedItem("Chicken Caesar Salad", "1 large bowl", Some("Italian-American"), "complex", 450.0, 550.0, 35.0, 18.0, 4.0, 28.0, "ai")],
             "low", "AI estimate for composed salad"),
    Template([SeedItem("Pho Bo", "1 large bowl", Some("Vietnamese"), "complex", 400.0, 520.0, 28.0, 45.0, 3.0, 12.0, "ai"),
              SeedItem("Thai Iced Tea", "12 oz", Some("Thai"), "simple", 180.0, 220.0, 2.0, 36.0, 32.0, 4.0, "ai")],
             "low", "AI estimates for Vietnamese/Thai items"),
    Template([SeedItem("Turkey and Cheese Sandwich", "1 sandwich", Some("American"), "complex", 380.0, 450.0, 28.0, 35.0, 5.0, 16.0, "ai"),
              SeedItem("Apple", "1 medium", None, "simple", 95.0, 100.0, 0.0, 25.0, 19.0, 0.0, "usda"),
              SeedItem("Potato Chips", "1 oz bag", Some("American"), "simple", 150.0, 160.0, 2.0, 15.0, 0.0, 10.0, "usda")],
             "medium", "2 items from USDA, 1 AI estimate"),
    Template([SeedItem("Sushi Roll Combo", "12 pieces", Some("Japanese"), "complex", 480.0, 600.0, 22.0, 72.0, 8.0, 12.0, "ai"),
              SeedItem("Miso Soup", "1 cup", Some("Japanese"), "simple", 40.0, 60.0, 3.0, 5.0, 2.0, 1.0, "ai")],
             "low", "AI estimates for Japanese cuisine")
  ]

  const Dinners: seq<Template> := [
    Template([SeedItem("Grilled Salmon", "6 oz fillet", None, "simple", 280.0, 320.0, 38.0, 0.0, 0.0, 14.0, "usda"),
              SeedItem("Roasted Broccoli", "1 cup", None, "simple", 55.0, 70.0, 4.0, 10.0, 2.0, 2.0, "usda"),
              SeedItem("Brown Rice", "1 cup cooked", None, "simple", 215.0, 230.0, 5.0, 45.0, 0.0, 2.0, "usda")],
             "high", "3 items from USDA database"),
    Template([SeedItem("Pad Thai", "1 plate", Some("Thai"), "complex", 550.0, 700.0, 22.0, 65.0, 12.0, 24.0, "ai")],
             "low", "AI estimate for Thai street food"),
    Template([SeedItem("Carne Asada Tacos", "3 tacos", Some("Mexican"), "complex", 480.0, 600.0, 32.0, 42.0, 4.0, 22.0, "ai"),
              SeedItem("Guacamole with Chips", "1/2 cup", Some("Mexican"), "complex", 280.0, 350.0, 4.0, 28.0, 2.0, 20.0, "ai"),
              SeedItem("Horchata", "12 oz", Some("Mexican"), "simple", 150.0, 200.0, 2.0, 32.0, 26.0, 3.0, "ai")],
             "low", "AI estimates for Mexican cuisine"),
    Template([SeedItem("Margherita Pizza", "2 slices", Some("Italian"), "complex", 400.0, 480.0, 16.0, 48.0, 6.0, 16.0, "ai"),
              SeedItem("Mixed Green Salad", "1 cup", Some("Italian"), "simple", 80.0, 120.0, 2.0, 8.0, 4.0, 6.0, "ai")],
             "medium", "2 AI estimates for Italian items"),
    Template([SeedItem("Butter Chicken", "1 cup", Some("Indian"), "complex", 380.0, 480.0, 28.0, 14.0, 6.0, 24.0, "ai"),
              SeedItem("Garlic Naan", "1 piece", Some("Indian"), "simple", 180.0, 220.0, 5.0, 32.0, 2.0, 4.0, "ai"),
              SeedItem("Basmati Rice", "1 cup", Some("Indian"), "simple", 190.0, 210.0, 4.0, 44.0, 0.0, 0.0, "usda")],
             "medium", "1 USDA item, 2 AI estimates"),
    Template([SeedItem("Bibimbap", "1 large bowl", Some("Korean"), "complex", 520.0, 650.0, 24.0, 68.0, 8.0, 18.0, "ai")],
             "low", "AI estimate for Korean mixed rice bowl")
  ]

  const Snacks: seq<Template> := [
    Template([SeedItem("Banana", "1 medium", None, "simple", 105.0, 110.0, 1.0, 27.0, 14.0, 0.0, "usda"),
              SeedItem("Peanut Butter", "2 tbsp", None, "simple", 190.0, 200.0, 8.0, 6.0, 3.0, 16.0, "usda")],
             "high", "2 items from USDA database"),
    Template([SeedItem("Protein Shake", "16 oz", None, "complex", 220.0, 280.0, 30.0, 12.0, 6.0, 6.0, "ai")],
             "low", "AI estimate for prepared shake")
  ]

  /** The templates in declaration order. */
  const Templates: seq<Template> := Breakfasts + Lunches + Dinners + Snacks

  // ---------------------------------------------------------------------------
  // getRandomMeal
  // ---------------------------------------------------------------------------

  /** The slice of the templates a meal type draws from, as a half-open index range. */
  function Pool(mealType: string): (r: (nat, nat))
    ensures r.0 < r.1 <= |Templates|
  {
    if mealType == "breakfast" then (0, 3)
    else if mealType == "lunch" then (3, 7)
    else if mealType == "dinner" then (7, 13)
    else if mealType == "snack" then (13, |Templates|)
    else (0, |Templates|)
  }

  predicate InPool(mealType: string, k: nat) {
    Pool(mealType).0 <= k < Pool(mealType).1
  }

  /** `candidates[Math.floor(r * candidates.length)]`, as an index into the templates. */
  function RandomMeal(mealType: string, r: real): (k: nat)
    requires 0.0 <= r < 1.0
    ensures InPool(mealType, k)
  {
    var (lo, hi) := Pool(mealType);
    lo + (r * (hi - lo) as real).Floor
  }

  /** Every template of a pool is drawn for some value of `Math.random()`. */
  lemma PoolMemberDrawn(mealType: string, k: nat)
    requires InPool(mealType, k)
    ensures var (lo, hi) := Pool(mealType);
            var r := (k - lo) as real / (hi - lo) as real;
            0.0 <= r < 1.0 && RandomMeal(mealType, r) == k
  {
    var (lo, hi) := Pool(mealType);
    var n := (hi - lo) as real;
    var r := (k - lo) as real / n;
    assert r * n == (k - lo) as real;
  }

  /**
   * The four named pools are the breakfast, lunch, dinner and snack templates in
   * order; any other meal type draws from all of them.
   */
  lemma MealPools(other: string)
    requires other !in {"breakfast", "lunch", "dinner", "snack"}
    ensures Templates[Pool("breakfast").0..Pool("breakfast").1] == Breakfasts
    ensures Templates[Pool("lunch").0..Pool("lunch").1] == Lunches
    ensures Templates[Pool("dinner").0..Pool("dinner").1] == Dinners
    ensures Templates[Pool("snack").0..Pool("snack").1] == Snacks
    ensures Pool(other) == (0, |Templates|)
  {
    assert Templates[0..3] == Breakfasts;
    assert Templates[3..7] == Lunches;
    assert Templates[7..13] == Dinners;
    assert Templates[13..15] == Snacks;
  }

  // ---------------------------------------------------------------------------
  // generateMealTimestamp
  // ---------------------------------------------------------------------------

  /** The clock fields `setHours(hour, minute, 0, 0)` sets. */
  datatype Clock = Clock(hour: int, minute: int, second: int, milli: int)

  /** The window start of each meal type. */
  function BaseHour(mealType: string): Option<int> {
    if mealType == "breakfast" then Some(7)
    else if mealType == "lunch" then Some(12)
    else if mealType == "dinner" then Some(18)
    else if mealType == "snack" then Some(15)
    else None
  }

  /** The clock time for the draws `r1` (hour) and `r2` (minute). */
  function MealClock(mealType: string, r1: real, r2: real): (c: Clock)
    requires 0.0 <= r1 < 1.0 && 0.0 <= r2 < 1.0
    ensures c.second == 0 && c.milli == 0
    ensures BaseHour(mealType).Some? ==>
              BaseHour(mealType).value <= c.hour <= BaseHour(mealType).value + 1 && 0 <= c.minute < 60
    ensures BaseHour(mealType).None? ==> c.hour == 12 && c.minute == 0
  {
    match BaseHour(mealType)
    case Some(h) => Clock(h + (r1 * 2.0).Floor, (r2 * 60.0).Floor, 0, 0)
    case None => Clock(12, 0, 0, 0)
  }

  /** The windows: 7-8 for breakfast, 12-13 for lunch, 18-19 for dinner, 15-16 for snack. */
  lemma MealWindows(r1: real, r2: real)
    requires 0.0 <= r1 < 1.0 && 0.0 <= r2 < 1.0
    ensures 7 <= MealClock("breakfast", r1, r2).hour <= 8
    ensures 12 <= MealClock("lunch", r1, r2).hour <= 13
    ensures 18 <= MealClock("dinner", r1, r2).hour <= 19
    ensures 15 <= MealClock("snack", r1, r2).hour <= 16
  {
  }

  /** Every minute of both hours of a window is produced by some pair of draws. */
  lemma WindowReached(mealType: string, dh: int, m: int)
    requires BaseHour(mealType).Some? && 0 <= dh < 2 && 0 <= m < 60
    ensures var r1, r2 := dh as real / 2.0, m as real / 60.0;
            0.0 <= r1 < 1.0 && 0.0 <= r2 < 1.0 &&
            MealClock(mealType, r1, r2) == Clock(BaseHour(mealType).value + dh, m, 0, 0)
  {
    var r1, r2 := dh as real / 2.0, m as real / 60.0;
    assert r1 * 2.0 == dh as real;
    assert r2 * 60.0 == m as real;
  }

  // ---------------------------------------------------------------------------
  // seedDatabase
  // ---------------------------------------------------------------------------

  const MealTypes: seq<string> := ["breakfast", "lunch", "snack", "dinner"]

  const SeedDays := 10

  /** The row `insertMeal` writes for a template: a null image path, the template totals and labels. */
  function RowOf(t: Template): (row: MealRow)
    ensures Consistent(row) && row.items == t.items
    ensures row.confidence == t.confidence && row.notes == t.notes && row.imagePath == None
  {
    MealRow(None, t.items, SumTotals(t.items), t.confidence, t.notes)
  }

  /** One attempted insert: which day and meal type, the template drawn, its time, its row, and whether it succeeded. */
  datatype Attempt = Attempt(day: nat, mealType: string, template: nat, clock: Clock, row: MealRow, inserted: bool)

  /** An attempt is what the loop body produces for its day and position. */
  predicate WellFormed(a: Attempt, day: nat, j: nat) {
    && j < |MealTypes|
    && a.day == day && a.mealType == MealTypes[j]
    && InPool(a.mealType, a.template) && a.template < |Templates|
    && a.row == RowOf(Templates[a.template])
    && BaseHour(a.mealType).Some?
    && BaseHour(a.mealType).value <= a.clock.hour <= BaseHour(a.mealType).value + 1
    && 0 <= a.clock.minute < 60 && a.clock.second == 0 && a.clock.milli == 0
  }

  /** A day's attempts: two to four meals, of the first meal types in order. */
  predicate WellFormedDay(attempts: seq<Attempt>, day: nat) {
    && 2 <= |attempts| <= 4
    && forall j :: 0 <= j < |attempts| ==> WellFormed(attempts[j], day, j)
  }

  /** The number of successful inserts. */
  function Inserted(attempts: seq<Attempt>): (n: nat)
    ensures n <= |attempts|
  {
    if attempts == [] then 0
    else Inserted(attempts[..|attempts| - 1]) + (if attempts[|attempts| - 1].inserted then 1 else 0)
  }

  function InsertedDays(days: seq<seq<Attempt>>): nat {
    if days == [] then 0 else InsertedDays(days[..|days| - 1]) + Inserted(days[|days| - 1])
  }

  lemma InsertedSnoc(attempts: seq<Attempt>, a: Attempt)
    ensures Inserted(attempts + [a]) == Inserted(attempts) + (if a.inserted then 1 else 0)
  {
    assert (attempts + [a])[..|attempts|] == attempts;
  }

  lemma InsertedDaysSnoc(days: seq<seq<Attempt>>, d: seq<Attempt>)
    ensures InsertedDays(days + [d]) == InsertedDays(days) + Inserted(d)
  {
    assert (days + [d])[..|days|] == days;
  }

  lemma WellFormedSnoc(attempts: seq<Attempt>, a: Attempt, day: nat)
    requires forall i :: 0 <= i < |attempts| ==> WellFormed(attempts[i], day, i)
    requires WellFormed(a, day, |attempts|)
    ensures forall i :: 0 <= i < |attempts| + 1 ==> WellFormed((attempts + [a])[i], day, i)
  {
    forall i | 0 <= i < |attempts| + 1 ensures WellFormed((attempts + [a])[i], day, i) {
      if i < |attempts| {
        assert (attempts + [a])[i] == attempts[i];
      }
    }
  }

  /** The insert of one drawn meal; whether the database accepts it is not modelled, so it is a free choice. */
  method AttemptMeal(day: nat, j: nat) returns (a: Attempt)
    requires j < |MealTypes|
    ensures WellFormed(a, day, j)
  {
    var mealType := MealTypes[j];
    var r: real :| 0.0 <= r < 1.0;
    var k := RandomMeal(mealType, r);
    var r1: real :| 0.0 <= r1 < 1.0;
    var r2: real :| 0.0 <= r2 < 1.0;
    var clock := MealClock(mealType, r1, r2);
    var ok: bool :| true;
    a := Attempt(day, mealType, k, clock, RowOf(Templates[k]), ok);
  }

  /**
   * The ten seeded days, today first: each day attempts two to four meals whose types
   * are the first ones of breakfast, lunch, snack, dinner, and `totalMeals` counts the
   * inserts that succeeded.
   */
  method SeedDatabase() returns (days: seq<seq<Attempt>>, totalMeals: nat)
    ensures |days| == SeedDays
    ensures forall d :: 0 <= d < |days| ==> WellFormedDay(days[d], d)
    ensures totalMeals == InsertedDays(days)
  {
    days := [];
    totalMeals := 0;
    var day := 0;
    while day < SeedDays
      invariant 0 <= day <= SeedDays && |days| == day
      invariant forall d :: 0 <= d < day ==> WellFormedDay(days[d], d)
      invariant totalMeals == InsertedDays(days)
    {
      var today, dayTotal := SeedDay(day);
      InsertedDaysSnoc(days, today);
      days := days + [today];
      totalMeals := totalMeals + dayTotal;
      day := day + 1;
    }
  }

  /** The body of the day loop: the number of meals is drawn, then each one is attempted in turn. */
  method SeedDay(day: nat) returns (today: seq<Attempt>, dayTotal: nat)
    ensures WellFormedDay(today, day)
    ensures dayTotal == Inserted(today)
  {
    var r: real :| 0.0 <= r < 1.0;
    var numMeals := 2 + (r * 3.0).Floor;
    today := [];
    dayTotal := 0;
    var j := 0;
    while j < numMeals
      invariant 0 <= j <= numMeals <= |MealTypes| && 2 <= numMeals && |today| == j
      invariant forall i :: 0 <= i < j ==> WellFormed(today[i], day, i)
      invariant dayTotal == Inserted(today)
    {
      var a := AttemptMeal(day, j);
      InsertedSnoc(today, a);
      WellFormedSnoc(today, a, day);
      today := today + [a];
      if a.inserted {
        dayTotal := dayTotal + 1;
      }
      j := j + 1;
    }
  }

  // ---------------------------------------------------------------------------
  // The templates themselves
  // ---------------------------------------------------------------------------

  /** The number of items of a template whose source is the database. */
  function DatabaseItems(items: seq<Item>): (n: nat)
    ensures n <= |items|
  {
    if items == [] then 0 else (if items[0].source == "usda" then 1 else 0) + DatabaseItems(items[1..])
  }

  /** The label the analysis rule would give a template from its item sources. */
  function DerivedLabel(t: Template): string {
    Label(ConfidenceOf(DatabaseItems(t.items), |t.items|))
  }

  /** The first breakfast template totals 430-480 kcal, 22 g protein, 54 g carbohydrate, 27 g sugar and 16 g fat. */
  lemma FirstBreakfastTotals()
    ensures SumTotals(Templates[0].items) == Totals(430.0, 480.0, 22.0, 54.0, 27.0, 16.0)
  {
    var items := Breakfasts[0].items;
    assert Templates[0] == Breakfasts[0];
    var a, b, c := items[0], items[1], items[2];
    assert items[..2] == [a, b] && [a, b][..1] == [a] && [a][..0] == [];
    assert SumTotals([a]) == Totals(180.0, 200.0, 14.0, 2.0, 1.0, 14.0);
    assert SumTotals([a, b]) == Totals(320.0, 360.0, 20.0, 28.0, 5.0, 16.0);
  }

  /**
   * The Margherita pizza template has no database item, so the analysis rule would
   * label it 'low', yet it is stored as 'medium'.
   */
  lemma PizzaTemplateLabel()
    ensures Templates[10].notes == "2 AI estimates for Italian items"
    ensures DatabaseItems(Templates[10].items) == 0
    ensures Templates[10].confidence == "medium" && DerivedLabel(Templates[10]) == "low"
  {
    assert Templates[10] == Dinners[3];
    var items := Dinners[3].items;
    assert items[1..][1..] == [];
  }
}
