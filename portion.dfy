/**
 * The portion parser: a free-text portion ("1 cup", "3/4 cup", "2 slices") becomes a
 * quantity, a unit phrase and a gram equivalent, using the ordered unit-to-gram table.
 */
module Portion {
  import opened Wrappers
  import opened Strings

  /**
   * The unit/food table in declaration order; the first key found in the unit wins.
   * It is written as its groups (fruit, dairy, grains, snacks, proteins, vegetables,
   * drinks, measures) joined in the order they are declared.
   */
  const PortionGrams: seq<(string, real)> :=
    FruitGrams + DairyGrams + GrainGrams + SnackGrams + ProteinGrams + VegetableGrams + DrinkGrams + MeasureGrams

  const FruitGrams: seq<(string, real)> := [
    ("grape", 5.0), ("grapes", 5.0),
    ("apple", 180.0), ("banana", 120.0), ("orange", 130.0),
    ("strawberry", 12.0), ("blueberry", 1.5),
    ("prune", 10.0), ("raisin", 1.0)
  ]
  const DairyGrams: seq<(string, real)> := [
    ("cheese slice", 28.0), ("cheese", 28.0),
    ("milk cup", 244.0), ("yogurt cup", 245.0),
    ("egg", 50.0)
  ]
  const GrainGrams: seq<(string, real)> := [
    ("bread slice", 30.0), ("bread", 30.0),
    ("toast", 30.0), ("bagel", 70.0),
    ("rice cup", 158.0), ("pasta cup", 140.0)
  ]
  const SnackGrams: seq<(string, real)> := [
    ("chip", 2.0), ("chips", 28.0),
    ("cracker", 4.0), ("cookie", 30.0),
    ("pretzel", 5.0)
  ]
  const ProteinGrams: seq<(string, real)> := [
    ("chicken breast", 170.0), ("chicken", 85.0),
    ("beef", 85.0), ("steak", 170.0),
    ("fish fillet", 140.0), ("salmon", 140.0),
    ("shrimp", 15.0)
  ]
  const VegetableGrams: seq<(string, real)> := [
    ("carrot", 60.0), ("broccoli cup", 90.0),
    ("potato", 150.0), ("tomato", 120.0),
    ("lettuce cup", 55.0)
  ]
  const DrinkGrams: seq<(string, real)> := [
    ("juice cup", 240.0), ("soda can", 355.0),
    ("coffee cup", 240.0), ("tea cup", 240.0)
  ]
  const MeasureGrams: seq<(string, real)> := [
    ("cup", 240.0), ("oz", 28.0), ("tbsp", 15.0), ("tsp", 5.0),
    ("piece", 30.0), ("slice", 30.0), ("serving", 100.0)
  ]

  /** The gram weight used when no key of the table occurs in the unit. */
  const DefaultGrams: real := 100.0

  datatype PortionSpec = PortionSpec(quantity: real, unit: string, grams: real)

  // ---------------------------------------------------------------------------
  // Lexing: the regular expression /^([\d.\/]+)?\s*(.+)?$/
  // ---------------------------------------------------------------------------

  predicate IsNumeralChar(c: char) {
    IsDigit(c) || c == '.' || c == '/'
  }

  predicate HasLineTerminator(s: string) {
    exists k :: 0 <= k < |s| && IsLineTerminator(s[k])
  }

  /** The two groups of a successful match; an unmatched group is the empty string. */
  datatype Lexed = Lexed(numeral: string, rest: string)

  /**
   * The match of /^([\d.\/]+)?\s*(.+)?$/ on `s`. The numeral group takes the longest run
   * of digits, dots and slashes, the white space after it is skipped, and the unit group
   * is everything left; since `.` does not match a line terminator, a line terminator in
   * that remainder makes the whole match fail.
   */
  function Lex(s: string): (r: Option<Lexed>)
    ensures r.Some? ==> r.value.rest == [] || !IsJsSpace(r.value.rest[0])
  {
    var n := SpanLen(s, IsNumeralChar);
    var afterNumeral := s[n..];
    var rest := afterNumeral[SpanLen(afterNumeral, IsJsSpace)..];
    if HasLineTerminator(rest) then None else Some(Lexed(s[..n], rest))
  }

  /**
   * Text made of a numeral, white space and a unit phrase fails to match exactly when
   * the unit phrase holds a line terminator.
   */
  lemma LexFailsExactly(numeral: string, spaces: string, rest: string)
    requires forall k :: 0 <= k < |numeral| ==> IsNumeralChar(numeral[k])
    requires AllSpace(spaces)
    requires rest == [] || (!IsJsSpace(rest[0]) && (spaces != [] || !IsNumeralChar(rest[0])))
    ensures Lex(numeral + spaces + rest).None? <==> HasLineTerminator(rest)
  {
    LexAfterParts(numeral, spaces, rest);
  }

  /**
   * The groups of a match are the longest numeral prefix and what is left after the
   * white space that follows it, and that remainder holds no line terminator.
   */
  lemma LexDecomposes(s: string)
    requires Lex(s).Some?
    ensures |Lex(s).value.numeral| + |Lex(s).value.rest| <= |s|
    ensures s == Lex(s).value.numeral + s[|Lex(s).value.numeral|..|s| - |Lex(s).value.rest|] + Lex(s).value.rest
    ensures forall k :: 0 <= k < |Lex(s).value.numeral| ==> IsNumeralChar(Lex(s).value.numeral[k])
    ensures |Lex(s).value.numeral| < |s| ==> !IsNumeralChar(s[|Lex(s).value.numeral|])
    ensures AllSpace(s[|Lex(s).value.numeral|..|s| - |Lex(s).value.rest|])
    ensures !HasLineTerminator(Lex(s).value.rest)
  {
    var n := SpanLen(s, IsNumeralChar);
    var afterNumeral := s[n..];
    var w := SpanLen(afterNumeral, IsJsSpace);
    var rest := afterNumeral[w..];
    assert Lex(s).value == Lexed(s[..n], rest);
    ThreeWaySplit(s, n, w);
  }

  lemma ThreeWaySplit(s: string, n: nat, w: nat)
    requires n + w <= |s|
    ensures s[n..|s| - |s[n..][w..]|] == s[n..][..w]
    ensures s == s[..n] + s[n..][..w] + s[n..][w..]
  {
    assert s[n..][w..] == s[n + w..];
    assert s[n..][..w] == s[n..n + w];
  }

  /** A numeral, white space, then a unit phrase is matched as exactly those groups. */
  lemma LexOfParts(numeral: string, spaces: string, rest: string)
    requires forall k :: 0 <= k < |numeral| ==> IsNumeralChar(numeral[k])
    requires AllSpace(spaces)
    requires rest == [] || (!IsJsSpace(rest[0]) && (spaces != [] || !IsNumeralChar(rest[0])))
    requires !HasLineTerminator(rest)
    ensures Lex(numeral + spaces + rest) == Some(Lexed(numeral, rest))
  {
    LexAfterParts(numeral, spaces, rest);
  }

  /** The same split with a line terminator in the unit phrase makes the match fail. */
  lemma LexFailsOnTerminator(numeral: string, spaces: string, rest: string)
    requires forall k :: 0 <= k < |numeral| ==> IsNumeralChar(numeral[k])
    requires AllSpace(spaces)
    requires rest == [] || (!IsJsSpace(rest[0]) && (spaces != [] || !IsNumeralChar(rest[0])))
    requires HasLineTerminator(rest)
    ensures Lex(numeral + spaces + rest).None?
  {
    LexAfterParts(numeral, spaces, rest);
  }

  /** The numeral group of `numeral + spaces + rest` is `numeral` and the remainder is `rest`. */
  lemma LexAfterParts(numeral: string, spaces: string, rest: string)
    requires forall k :: 0 <= k < |numeral| ==> IsNumeralChar(numeral[k])
    requires AllSpace(spaces)
    requires rest == [] || (!IsJsSpace(rest[0]) && (spaces != [] || !IsNumeralChar(rest[0])))
    ensures SpanLen(numeral + spaces + rest, IsNumeralChar) == |numeral|
    ensures (numeral + spaces + rest)[..|numeral|] == numeral
    ensures (numeral + spaces + rest)[|numeral|..] == spaces + rest
    ensures SpanLen(spaces + rest, IsJsSpace) == |spaces| && (spaces + rest)[|spaces|..] == rest
  {
    var s := numeral + spaces + rest;
    assert s == numeral + (spaces + rest);
    if spaces != [] {
      assert !IsNumeralChar(spaces[0]);
    }
    SpanLenOfPrefix(numeral, spaces + rest, IsNumeralChar);
    assert s[|numeral|..] == spaces + rest;
    SpanLenOfPrefix(spaces, rest, IsJsSpace);
  }

  // ---------------------------------------------------------------------------
  // The quantity: parseFloat, and a/b as a division
  // ---------------------------------------------------------------------------

  /**
   * `parseFloat` on a string of digits, dots and slashes: the value of its longest prefix
   * of the form digits[.digits] (with at least one digit), or None where JavaScript gives NaN.
   */
  function ParseFloat(s: string): (r: Option<real>)
    ensures r.Some? ==> r.value >= 0.0
    ensures r.None? <==> (s == [] || (!IsDigit(s[0]) && (s[0] != '.' || |s| == 1 || !IsDigit(s[1]))))
  {
    var a := SpanLen(s, IsDigit);
    if a < |s| && s[a] == '.' then
      var b := SpanLen(s[a + 1..], IsDigit);
      if a == 0 && b == 0 then None
      else Some(DecimalValue(DigitsValue(s[..a]), DigitsValue(s[a + 1..a + 1 + b]), b))
    else if a == 0 then None
    else Some(DigitsValue(s[..a]) as real)
  }

  /** The number written `whole.fraction`, where the fraction has `places` digits. */
  function DecimalValue(whole: nat, fraction: nat, places: nat): (r: real)
    ensures r >= whole as real
  {
    whole as real + fraction as real / Pow10(places) as real
  }

  /** The text before the first '/' and the text between it and the next '/' (or the end). */
  function SplitFraction(s: string): (string, string)
    requires '/' in s
  {
    var i := Find(s, "/");
    assert OccursAt(s, "/", i) by {
      var k :| 0 <= k < |s| && s[k] == '/';
      assert OccursAt(s, "/", k);
    }
    var tail := s[i + 1..];
    var j := Find(tail, "/");
    (s[..i], if j < 0 then tail else tail[..j])
  }

  /** The quantity of a numeral group: 1 when it is empty, None where JavaScript gives NaN or Infinity. */
  function QuantityOf(numeral: string): Option<real> {
    if numeral == "" then Some(1.0)
    else if '/' in numeral then
      var (num, den) := SplitFraction(numeral);
      match (ParseFloat(num), ParseFloat(den))
      case (Some(x), Some(y)) => if y == 0.0 then None else Some(x / y)
      case _ => None
    else ParseFloat(numeral)
  }

  /** `parseFloat` reads a printed whole number back as that number. */
  lemma {:induction false} ParseFloatOfNat(n: nat)
    ensures ParseFloat(NatToString(n)) == Some(n as real)
  {
    var s := NatToString(n);
    assert s + [] == s;
    SpanLenOfPrefix(s, [], IsDigit);
    assert s[..|s|] == s;
    NatToStringRoundTrip(n);
  }

  /** `parseFloat` reads `w.d` as w plus the digits d over 10 to the number of digits. */
  lemma {:induction false} ParseFloatOfDecimal(w: nat, d: string)
    requires |d| > 0 && AllDigits(d)
    ensures ParseFloat(NatToString(w) + "." + d) == Some(DecimalValue(w, DigitsValue(d), |d|))
  {
    DigitsDotDigits(NatToString(w), d);
    NatToStringRoundTrip(w);
  }

  /** `parseFloat` of `ws.d` for any two digit strings, the second one non-empty. */
  lemma {:induction false} DigitsDotDigits(ws: string, d: string)
    requires |d| > 0 && AllDigits(ws) && AllDigits(d)
    ensures ParseFloat(ws + "." + d) == Some(DecimalValue(DigitsValue(ws), DigitsValue(d), |d|))
  {
    DecimalSpans(ws, d);
    DecimalParts(ws + "." + d, |ws|, |d|);
  }

  /** In `ws + "." + d` the digit spans are exactly `ws` and `d`. */
  lemma {:induction false} DecimalSpans(ws: string, d: string)
    requires AllDigits(ws) && AllDigits(d)
    ensures var s := ws + "." + d;
      && |ws| < |s| && s[|ws|] == '.' && s[..|ws|] == ws && s[|ws| + 1..|ws| + 1 + |d|] == d
      && SpanLen(s, IsDigit) == |ws| && SpanLen(s[|ws| + 1..], IsDigit) == |d|
  {
    var s := ws + "." + d;
    assert s == ws + ("." + d);
    SpanLenOfPrefix(ws, "." + d, IsDigit);
    assert s[|ws| + 1..] == d + [];
    SpanLenOfPrefix(d, [], IsDigit);
    assert s[|ws| + 1..|ws| + 1 + |d|] == d;
  }

  /** `parseFloat` of digits, a dot and digits, in terms of the two spans. */
  lemma {:induction false} DecimalParts(s: string, a: nat, b: nat)
    requires a < |s| && s[a] == '.' && SpanLen(s, IsDigit) == a && SpanLen(s[a + 1..], IsDigit) == b && b > 0
    ensures ParseFloat(s) == Some(DecimalValue(DigitsValue(s[..a]), DigitsValue(s[a + 1..a + 1 + b]), b))
  {
  }

  /** The first '/' of `a + "/" + b` is the one after `a` when `a` has none. */
  lemma {:induction false} SplitAtFirstSlash(a: string, b: string)
    requires '/' !in a && '/' !in b
    ensures '/' in a + "/" + b
    ensures SplitFraction(a + "/" + b) == (a, b)
  {
    var s := a + "/" + b;
    assert s[|a|] == '/';
    assert OccursAt(s, "/", |a|) by { assert s[|a|..|a| + 1] == "/"; }
    forall j | 0 <= j < |a| ensures !OccursAt(s, "/", j) {
      assert s[j..j + 1][0] == a[j];
    }
    assert Find(s, "/") == |a|;
    assert s[..|a|] == a;
    assert s[|a| + 1..] == b;
    NotContainsMissingChar(b, "/", 0);
  }

  /** A printed number holds no '/'. */
  lemma {:induction false} NoSlashInNumeral(n: nat)
    ensures '/' !in NatToString(n)
  {
    var s := NatToString(n);
    forall k | 0 <= k < |s| ensures s[k] != '/' {
      assert IsDigit(s[k]);
    }
  }

  /** The quantity of a fraction whose two parts read as `x` and `y`. */
  lemma {:induction false} QuantityOfSplit(s: string, num: string, den: string, x: real, y: real)
    requires '/' in s && SplitFraction(s) == (num, den)
    requires ParseFloat(num) == Some(x) && ParseFloat(den) == Some(y)
    ensures QuantityOf(s) == if y == 0.0 then None else Some(x / y)
  {
  }

  /** The quantity of a whole number is that number. */
  lemma {:induction false} QuantityOfWhole(n: nat)
    ensures QuantityOf(NatToString(n)) == Some(n as real)
  {
    NoSlashInNumeral(n);
    ParseFloatOfNat(n);
  }

  /** The quantity `a/b` of two whole numbers is their quotient, and NaN or Infinity when b is 0. */
  lemma {:induction false} QuantityOfFraction(a: nat, b: nat)
    ensures QuantityOf(NatToString(a) + "/" + NatToString(b)) == if b == 0 then None else Some(a as real / b as real)
  {
    var sa, sb := NatToString(a), NatToString(b);
    NoSlashInNumeral(a);
    NoSlashInNumeral(b);
    SplitAtFirstSlash(sa, sb);
    ParseFloatOfNat(a);
    ParseFloatOfNat(b);
    QuantityOfSplit(sa + "/" + sb, sa, sb, a as real, b as real);
  }

  // ---------------------------------------------------------------------------
  // The unit weight: first matching key of the table
  // ---------------------------------------------------------------------------

  /** The index of the first key of `table`, at or after `i`, that occurs in `unit`. */
  function FirstKeyFrom(table: seq<(string, real)>, unit: string, i: nat): (r: Option<nat>)
    ensures r.Some? ==> i <= r.value < |table| && Contains(unit, table[r.value].0)
    ensures r.Some? ==> forall j :: i <= j < r.value ==> !Contains(unit, table[j].0)
    ensures r.None? ==> forall j :: i <= j < |table| ==> !Contains(unit, table[j].0)
    decreases |table| - i
  {
    if i >= |table| then None
    else if Contains(unit, table[i].0) then Some(i)
    else FirstKeyFrom(table, unit, i + 1)
  }

  /** `k` is the first key of `table` that occurs in `unit`. */
  predicate IsFirstMatch(table: seq<(string, real)>, unit: string, k: int) {
    && 0 <= k < |table|
    && Contains(unit, table[k].0)
    && forall j :: 0 <= j < k ==> !Contains(unit, table[j].0)
  }

  /** No key of `table` occurs in `unit`. */
  predicate KeysAbsent(table: seq<(string, real)>, unit: string) {
    forall k :: 0 <= k < |table| ==> !Contains(unit, table[k].0)
  }

  /** The weight of the first key of `table` found in `unit`, else 100. */
  function WeightIn(table: seq<(string, real)>, unit: string): (r: real)
    ensures forall k :: IsFirstMatch(table, unit, k) ==> r == table[k].1
    ensures KeysAbsent(table, unit) ==> r == DefaultGrams
  {
    match FirstKeyFrom(table, unit, 0)
    case Some(k) => table[k].1
    case None => DefaultGrams
  }

  /** The grams per unit of the portion table. */
  function UnitWeight(unit: string): real {
    WeightIn(PortionGrams, unit)
  }

  /** The scan of parsePortion over the table, stopping at the first key the unit contains. */
  method LookupGrams(table: seq<(string, real)>, unit: string) returns (grams: real)
    ensures grams == WeightIn(table, unit)
  {
    grams := DefaultGrams;
    var i := 0;
    while i < |table|
      invariant 0 <= i <= |table|
      invariant FirstKeyFrom(table, unit, 0) == FirstKeyFrom(table, unit, i)
    {
      if Contains(unit, table[i].0) {
        grams := table[i].1;
        return;
      }
      i := i + 1;
    }
  }

  // ---------------------------------------------------------------------------
  // parsePortion
  // ---------------------------------------------------------------------------

  /** The numeric prefix parses to a finite number (NaN and Infinity are not modelled). */
  predicate QuantityDefined(raw: string) {
    match Lex(ToLower(raw))
    case None => true
    case Some(lx) => QuantityOf(lx.numeral).Some?
  }

  /** The gram equivalent of `quantity` units weighing `perUnit` grams each. */
  function GramsFor(quantity: real, perUnit: real): real {
    quantity * perUnit
  }

  /** The unit phrase of a match: the unit group, or "serving" when it is absent, trimmed. */
  function UnitPhrase(rest: string): string {
    Trim(if rest == "" then "serving" else rest)
  }

  /** The portion read from a successful match. */
  function PortionOfMatch(lx: Lexed): PortionSpec
    requires QuantityOf(lx.numeral).Some?
  {
    var quantity := QuantityOf(lx.numeral).value;
    var unit := UnitPhrase(lx.rest);
    PortionSpec(quantity, unit, GramsFor(quantity, UnitWeight(unit)))
  }

  /** What parsePortion returns for `raw`. */
  function PortionOf(raw: string): PortionSpec
    requires QuantityDefined(raw)
  {
    match Lex(ToLower(raw))
    case None => PortionSpec(1.0, "serving", 100.0)
    case Some(lx) => PortionOfMatch(lx)
  }

  /** parsePortion: lex, read the quantity, then scan the table for the first key the unit contains. */
  method ParsePortion(raw: string) returns (p: PortionSpec)
    requires QuantityDefined(raw)
    ensures p == PortionOf(raw)
  {
    var m := Lex(ToLower(raw));
    if m.None? {
      return PortionSpec(1.0, "serving", 100.0);
    }
    var lx := m.value;
    var quantity := QuantityOf(lx.numeral).value;
    var unit := UnitPhrase(lx.rest);
    var grams := LookupGrams(PortionGrams, unit);
    p := PortionSpec(quantity, unit, GramsFor(quantity, grams));
  }

  // ---------------------------------------------------------------------------
  // Properties of parsePortion
  // ---------------------------------------------------------------------------

  lemma KeysAbsentAppend(a: seq<(string, real)>, b: seq<(string, real)>, unit: string)
    requires KeysAbsent(a, unit) && KeysAbsent(b, unit)
    ensures KeysAbsent(a + b, unit)
  {
  }

  /** Keys that do not occur in the unit can be dropped from the front of the table. */
  lemma WeightInAppend(a: seq<(string, real)>, b: seq<(string, real)>, unit: string)
    requires KeysAbsent(a, unit)
    ensures WeightIn(a + b, unit) == WeightIn(b, unit)
  {
    var t := a + b;
    var r := FirstKeyFrom(t, unit, 0);
    var r' := FirstKeyFrom(b, unit, 0);
    if r'.Some? {
      assert t[|a| + r'.value] == b[r'.value];
      assert r.Some? && r.value <= |a| + r'.value;
      assert r.value >= |a|;
      assert t[r.value] == b[r.value - |a|];
      assert r.value == |a| + r'.value;
    }
  }

  /** A unit containing no food key is weighed by the measures alone. */
  lemma WeightByMeasures(unit: string)
    requires KeysAbsent(FruitGrams, unit) && KeysAbsent(DairyGrams, unit) && KeysAbsent(GrainGrams, unit)
    requires KeysAbsent(SnackGrams, unit) && KeysAbsent(ProteinGrams, unit) && KeysAbsent(VegetableGrams, unit)
    requires KeysAbsent(DrinkGrams, unit)
    ensures UnitWeight(unit) == WeightIn(MeasureGrams, unit)
  {
    var t := FruitGrams + DairyGrams;
    KeysAbsentAppend(FruitGrams, DairyGrams, unit);
    KeysAbsentAppend(t, GrainGrams, unit);
    t := t + GrainGrams;
    KeysAbsentAppend(t, SnackGrams, unit);
    t := t + SnackGrams;
    KeysAbsentAppend(t, ProteinGrams, unit);
    t := t + ProteinGrams;
    KeysAbsentAppend(t, VegetableGrams, unit);
    t := t + VegetableGrams;
    KeysAbsentAppend(t, DrinkGrams, unit);
    t := t + DrinkGrams;
    WeightInAppend(t, MeasureGrams, unit);
  }

  lemma EggNotInServing()
    ensures !Contains("serving", "egg")
  {
    assert "serving"[0..3] != "egg" by { assert "serving"[0..3][0] == 's'; }
    assert "serving"[1..4] != "egg" by { assert "serving"[1..4][1] == 'r'; }
    assert "serving"[2..5] != "egg" by { assert "serving"[2..5][0] == 'r'; }
    assert "serving"[3..6] != "egg" by { assert "serving"[3..6][0] == 'v'; }
    assert "serving"[4..7] != "egg" by { assert "serving"[4..7][0] == 'i'; }
  }

  lemma ServingMissesFirstGroups()
    ensures KeysAbsent(FruitGrams, "serving") && KeysAbsent(DairyGrams, "serving")
    ensures KeysAbsent(GrainGrams, "serving") && KeysAbsent(SnackGrams, "serving")
  {
    var u := "serving";
    forall k | 0 <= k < |FruitGrams| ensures !Contains(u, FruitGrams[k].0) {
      if k <= 1 {
        NotContainsMissingChar(u, FruitGrams[k].0, 2);
      } else if k == 5 || k == 8 {
        NotContainsMissingChar(u, FruitGrams[k].0, 1);
      } else {
        NotContainsMissingChar(u, FruitGrams[k].0, 0);
      }
    }
    forall k | 0 <= k < |DairyGrams| ensures !Contains(u, DairyGrams[k].0) {
      if k == 4 {
        EggNotInServing();
      } else {
        NotContainsMissingChar(u, DairyGrams[k].0, 0);
      }
    }
    forall k | 0 <= k < |GrainGrams| ensures !Contains(u, GrainGrams[k].0) {
      if k == 4 {
        NotContainsMissingChar(u, GrainGrams[k].0, 2);
      } else {
        NotContainsMissingChar(u, GrainGrams[k].0, 0);
      }
    }
    forall k | 0 <= k < |SnackGrams| ensures !Contains(u, SnackGrams[k].0) {
      NotContainsMissingChar(u, SnackGrams[k].0, 0);
    }
  }

  lemma ServingMissesLaterGroups()
    ensures KeysAbsent(ProteinGrams, "serving") && KeysAbsent(VegetableGrams, "serving")
    ensures KeysAbsent(DrinkGrams, "serving")
  {
    var u := "serving";
    forall k | 0 <= k < |ProteinGrams| ensures !Contains(u, ProteinGrams[k].0) {
      if k == 3 || k >= 5 {
        NotContainsMissingChar(u, ProteinGrams[k].0, 1);
      } else {
        NotContainsMissingChar(u, ProteinGrams[k].0, 0);
      }
    }
    forall k | 0 <= k < |VegetableGrams| ensures !Contains(u, VegetableGrams[k].0) {
      NotContainsMissingChar(u, VegetableGrams[k].0, 0);
    }
    forall k | 0 <= k < |DrinkGrams| ensures !Contains(u, DrinkGrams[k].0) {
      if k == 1 {
        NotContainsMissingChar(u, DrinkGrams[k].0, 1);
      } else {
        NotContainsMissingChar(u, DrinkGrams[k].0, 0);
      }
    }
  }

  lemma ServingMeasure()
    ensures WeightIn(MeasureGrams, "serving") == 100.0
  {
    var u := "serving";
    forall k | 0 <= k < 6 ensures !Contains(u, MeasureGrams[k].0) {
      if k == 5 {
        NotContainsMissingChar(u, MeasureGrams[k].0, 1);
      } else {
        NotContainsMissingChar(u, MeasureGrams[k].0, 0);
      }
    }
    assert OccursAt(u, "serving", 0);
    assert FirstKeyFrom(MeasureGrams, u, 0) == FirstKeyFrom(MeasureGrams, u, 6);
  }

  /** The default unit "serving" is matched only by its own key, which weighs 100 g. */
  lemma ServingWeight()
    ensures UnitWeight("serving") == DefaultGrams
  {
    ServingMissesFirstGroups();
    ServingMissesLaterGroups();
    WeightByMeasures("serving");
    ServingMeasure();
  }

  /** parsePortion's result always satisfies grams = quantity x the weight of its unit, even when the match fails. */
  lemma PortionGramsLaw(raw: string)
    requires QuantityDefined(raw)
    ensures PortionOf(raw).grams == GramsFor(PortionOf(raw).quantity, UnitWeight(PortionOf(raw).unit))
  {
    if Lex(ToLower(raw)).None? {
      ServingWeight();
    }
  }

  lemma PortionOfMatched(raw: string)
    requires QuantityDefined(raw) && Lex(ToLower(raw)).Some?
    ensures PortionOf(raw) == PortionOfMatch(Lex(ToLower(raw)).value)
  {
  }

  /** The portion of a string whose match has the given numeral and unit group. */
  lemma PortionOfLexed(raw: string, numeral: string, rest: string, quantity: real, unit: string, perUnit: real)
    requires Lex(ToLower(raw)) == Some(Lexed(numeral, rest)) && rest != ""
    requires QuantityOf(numeral) == Some(quantity)
    requires Trim(rest) == unit && UnitWeight(unit) == perUnit
    ensures QuantityDefined(raw)
    ensures PortionOf(raw) == PortionSpec(quantity, unit, quantity * perUnit)
  {
    MatchedPortion(Lexed(numeral, rest), quantity, unit, perUnit);
  }

  lemma MatchedPortion(lx: Lexed, quantity: real, unit: string, perUnit: real)
    requires lx.rest != "" && QuantityOf(lx.numeral) == Some(quantity)
    requires Trim(lx.rest) == unit && UnitWeight(unit) == perUnit
    ensures PortionOfMatch(lx) == PortionSpec(quantity, unit, quantity * perUnit)
  {
    var phrase := UnitPhrase(lx.rest);
    assert phrase == unit;
    var m := PortionOfMatch(lx);
    assert m.quantity == quantity;
    assert m.unit == unit;
    assert m.grams == GramsFor(quantity, UnitWeight(unit));
  }

  lemma UnitPhraseNonEmpty(rest: string)
    requires rest == [] || !IsJsSpace(rest[0])
    ensures UnitPhrase(rest) != []
  {
    TrimKeepsNonSpaceStart(if rest == "" then "serving" else rest);
  }

  /** The unit is never empty and never has white space at either end. */
  lemma PortionUnitTrimmed(raw: string)
    requires QuantityDefined(raw)
    ensures PortionOf(raw).unit != [] && IsTrimmed(PortionOf(raw).unit)
  {
    var m := Lex(ToLower(raw));
    if m.Some? {
      PortionOfMatched(raw);
      MatchedUnitTrimmed(m.value);
    } else {
      ServingIsTrimmed();
    }
  }

  /** The unit group read from a match is a non-empty trimmed phrase. */
  lemma MatchedUnitTrimmed(lx: Lexed)
    requires QuantityOf(lx.numeral).Some?
    requires lx.rest == [] || !IsJsSpace(lx.rest[0])
    ensures PortionOfMatch(lx).unit != [] && IsTrimmed(PortionOfMatch(lx).unit)
  {
    UnitPhraseNonEmpty(lx.rest);
  }

  /** Without a leading numeral the quantity is 1. */
  lemma NoNumeralQuantityOne(raw: string)
    requires raw == [] || !IsNumeralChar(raw[0])
    ensures QuantityDefined(raw) && PortionOf(raw).quantity == 1.0
  {
    var s := ToLower(raw);
    if s != [] {
      assert s[0] == LowerChar(raw[0]);
    }
  }

  lemma LowerOfNumeralAndSpaces(numeral: string, spaces: string)
    requires forall k :: 0 <= k < |numeral| ==> IsNumeralChar(numeral[k])
    requires AllSpace(spaces)
    ensures ToLower(numeral + spaces) == numeral + spaces
  {
    var raw := numeral + spaces;
    forall i | 0 <= i < |raw| ensures !('A' <= raw[i] <= 'Z') {
      if i < |numeral| {
        assert raw[i] == numeral[i];
      } else {
        assert raw[i] == spaces[i - |numeral|];
      }
    }
    ToLowerWithoutCapitals(raw);
  }

  lemma ServingIsTrimmed()
    ensures IsTrimmed("serving")
  {
    assert "serving"[0] == 's' && "serving"[6] == 'g';
  }

  lemma ServingTrimmed()
    ensures Trim("serving") == "serving"
  {
    ServingIsTrimmed();
    TrimOfTrimmed("serving");
  }

  lemma ServingPhrase()
    ensures UnitPhrase([]) == "serving"
  {
    ServingTrimmed();
  }

  /** A portion that is only a numeral (and white space) is counted in servings. */
  lemma NumeralOnlyIsServings(numeral: string, spaces: string)
    requires forall k :: 0 <= k < |numeral| ==> IsNumeralChar(numeral[k])
    requires AllSpace(spaces)
    requires QuantityDefined(numeral + spaces)
    ensures PortionOf(numeral + spaces).unit == "serving"
    ensures PortionOf(numeral + spaces).grams == GramsFor(PortionOf(numeral + spaces).quantity, DefaultGrams)
  {
    var raw := numeral + spaces;
    LowerOfNumeralAndSpaces(numeral, spaces);
    assert raw == numeral + spaces + [];
    LexOfParts(numeral, spaces, []);
    PortionOfMatched(raw);
    ServingPhrase();
    ServingWeight();
  }

  /**
   * The entries 'grapes' and 'chips' are never chosen: every unit containing them
   * also contains 'grape' or 'chip', which come first.
   */
  lemma ShadowedEntries(unit: string)
    ensures !IsFirstMatch(PortionGrams, unit, 1)
    ensures !IsFirstMatch(PortionGrams, unit, 21)
  {
    assert PortionGrams[1].0 == PortionGrams[0].0 + "s";
    assert PortionGrams[21].0 == PortionGrams[20].0 + "s";
    if Contains(unit, PortionGrams[1].0) {
      ContainsPrefixOfPattern(unit, PortionGrams[0].0, "s");
    }
    if Contains(unit, PortionGrams[21].0) {
      ContainsPrefixOfPattern(unit, PortionGrams[20].0, "s");
    }
  }
}
