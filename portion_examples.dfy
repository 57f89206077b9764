/**
 * Worked portions: the outcomes parsePortion gives for a few typical strings,
 * derived from the model of the regular expression and the table.
 */
module PortionExamples {
  import opened Wrappers
  import opened Strings
  import opened Portion

  lemma ParseFloatOfDigit(d: char)
    requires IsDigit(d)
    ensures ParseFloat([d]) == Some(DigitValue(d) as real)
  {
    assert SpanLen([d], IsDigit) == 1;
    assert [d][..1] == [d];
    assert DigitsValue([d]) == DigitValue(d);
  }

  lemma QuantityOne()
    ensures QuantityOf("1") == Some(1.0)
  {
    ParseFloatOfDigit('1');
  }

  lemma CupGrapesWeight()
    ensures UnitWeight("cup grapes") == 5.0
  {
    assert OccursAt("cup grapes", "grape", 4);
    ContainsWhenOccurs("cup grapes", "grape", 4);
    assert FirstKeyFrom(PortionGrams, "cup grapes", 0) == Some(0);
  }

  lemma CupGrapesLex()
    ensures Lex(ToLower("1 cup grapes")) == Some(Lexed("1", "cup grapes"))
  {
    ToLowerWithoutCapitals("1 cup grapes");
    assert "1 cup grapes" == "1" + " " + "cup grapes";
    LexOfParts("1", " ", "cup grapes");
  }

  /** "1 cup grapes" is weighed by 'grape' (5 g), the first key it contains, not by 'cup'. */
  lemma CupGrapesExample()
    ensures QuantityDefined("1 cup grapes")
    ensures PortionOf("1 cup grapes") == PortionSpec(1.0, "cup grapes", 5.0)
  {
    CupGrapesLex();
    QuantityOne();
    TrimOfTrimmed("cup grapes");
    CupGrapesWeight();
    PortionOfLexed("1 cup grapes", "1", "cup grapes", 1.0, "cup grapes", 5.0);
  }

  /** No key of the table before 'egg' occurs in "cup": each is longer. */
  lemma CupMissesFirstKeys()
    ensures forall k :: 0 <= k < 13 ==> !Contains("cup", PortionGrams[k].0)
  {
    forall k | 0 <= k < 13 ensures !Contains("cup", PortionGrams[k].0) {
    }
  }

  /** No key of the table between 'egg' and 'chips' occurs in "cup". */
  lemma CupMissesMiddleKeys()
    ensures forall k :: 14 <= k < 27 ==> !Contains("cup", PortionGrams[k].0)
  {
    forall k | 14 <= k < 27 ensures !Contains("cup", PortionGrams[k].0) {
    }
  }

  /** No key of the table from 'chips' up to 'cup' occurs in "cup". */
  lemma CupMissesLastKeys()
    ensures forall k :: 27 <= k < 41 ==> !Contains("cup", PortionGrams[k].0)
  {
    forall k | 27 <= k < 41 ensures !Contains("cup", PortionGrams[k].0) {
    }
  }

  /** Every key before 'cup' is longer than "cup" or, like 'egg', has a letter it lacks. */
  lemma CupWeight()
    ensures UnitWeight("cup") == 240.0
  {
    assert OccursAt("cup", "cup", 0);
    CupMissesFirstKeys();
    NotContainsMissingChar("cup", "egg", 0);
    CupMissesMiddleKeys();
    CupMissesLastKeys();
    assert IsFirstMatch(PortionGrams, "cup", 41);
  }

  lemma ThreeQuartersLex()
    ensures Lex(ToLower("3/4 cup")) == Some(Lexed("3/4", "cup"))
  {
    ToLowerWithoutCapitals("3/4 cup");
    assert "3/4 cup" == "3/4" + " " + "cup";
    LexOfParts("3/4", " ", "cup");
  }

  lemma ThreeQuartersQuantity()
    ensures QuantityOf("3/4") == Some(0.75)
  {
    assert "3/4"[0..1] == "3";
    assert !OccursAt("3/4", "/", 0);
    assert OccursAt("3/4", "/", 1);
    assert Find("3/4", "/") == 1;
    assert "3/4"[2..] == "4";
    assert Find("4", "/") == -1;
    assert "3/4"[..1] == "3";
    assert SplitFraction("3/4") == ("3", "4");
    ParseFloatOfDigit('3');
    ParseFloatOfDigit('4');
  }

  /** "3/4 cup" is three quarters of a 240 g cup. */
  lemma ThreeQuartersCupExample()
    ensures QuantityDefined("3/4 cup")
    ensures PortionOf("3/4 cup") == PortionSpec(0.75, "cup", 180.0)
  {
    ThreeQuartersLex();
    ThreeQuartersQuantity();
    TrimOfTrimmed("cup");
    CupWeight();
    var lexed := Lex(ToLower("3/4 cup"));
    assert lexed == Some(Lexed("3/4", "cup"));
    PortionOfLexed("3/4 cup", "3/4", "cup", 0.75, "cup", 240.0);
    assert 0.75 * 240.0 == 180.0;
  }

  lemma OneCupLex()
    ensures Lex(ToLower("1 cup")) == Some(Lexed("1", "cup"))
  {
    ToLowerWithoutCapitals("1 cup");
    assert "1 cup" == "1" + " " + "cup";
    LexOfParts("1", " ", "cup");
  }

  lemma ZeroCupLex()
    ensures Lex(ToLower("0 cup")) == Some(Lexed("0", "cup"))
  {
    ToLowerWithoutCapitals("0 cup");
    assert "0 cup" == "0" + " " + "cup";
    LexOfParts("0", " ", "cup");
  }

  /** A zero quantity is kept as 0 (it is not replaced by 1), so the portion weighs nothing. */
  lemma ZeroCupExample()
    ensures QuantityDefined("0 cup")
    ensures PortionOf("0 cup") == PortionSpec(0.0, "cup", 0.0)
  {
    ZeroCupLex();
    ParseFloatOfDigit('0');
    assert QuantityOf("0") == Some(0.0);
    TrimOfTrimmed("cup");
    CupWeight();
    PortionOfLexed("0 cup", "0", "cup", 0.0, "cup", 240.0);
  }

  lemma XyzzyMissesFirstGroups()
    ensures KeysAbsent(FruitGrams, "xyzzy") && KeysAbsent(DairyGrams, "xyzzy")
    ensures KeysAbsent(GrainGrams, "xyzzy") && KeysAbsent(SnackGrams, "xyzzy")
  {
    var u := "xyzzy";
    forall k | 0 <= k < |FruitGrams| ensures !Contains(u, FruitGrams[k].0) {
      NotContainsMissingChar(u, FruitGrams[k].0, 0);
    }
    forall k | 0 <= k < |DairyGrams| ensures !Contains(u, DairyGrams[k].0) {
      if k == 3 {
        NotContainsMissingChar(u, DairyGrams[k].0, 1);
      } else {
        NotContainsMissingChar(u, DairyGrams[k].0, 0);
      }
    }
    forall k | 0 <= k < |GrainGrams| ensures !Contains(u, GrainGrams[k].0) {
      NotContainsMissingChar(u, GrainGrams[k].0, 0);
    }
    forall k | 0 <= k < |SnackGrams| ensures !Contains(u, SnackGrams[k].0) {
      NotContainsMissingChar(u, SnackGrams[k].0, 0);
    }
  }

  lemma XyzzyMissesLaterGroups()
    ensures KeysAbsent(ProteinGrams, "xyzzy") && KeysAbsent(VegetableGrams, "xyzzy")
    ensures KeysAbsent(DrinkGrams, "xyzzy") && KeysAbsent(MeasureGrams, "xyzzy")
  {
    var u := "xyzzy";
    forall k | 0 <= k < |ProteinGrams| ensures !Contains(u, ProteinGrams[k].0) {
      NotContainsMissingChar(u, ProteinGrams[k].0, 0);
    }
    forall k | 0 <= k < |VegetableGrams| ensures !Contains(u, VegetableGrams[k].0) {
      NotContainsMissingChar(u, VegetableGrams[k].0, 0);
    }
    forall k | 0 <= k < |DrinkGrams| ensures !Contains(u, DrinkGrams[k].0) {
      NotContainsMissingChar(u, DrinkGrams[k].0, 0);
    }
    forall k | 0 <= k < |MeasureGrams| ensures !Contains(u, MeasureGrams[k].0) {
      NotContainsMissingChar(u, MeasureGrams[k].0, 0);
    }
  }

  lemma XyzzyLex()
    ensures Lex(ToLower("1 xyzzy")) == Some(Lexed("1", "xyzzy"))
  {
    ToLowerWithoutCapitals("1 xyzzy");
    assert "1 xyzzy" == "1" + " " + "xyzzy";
    LexOfParts("1", " ", "xyzzy");
  }

  /** A unit that contains no key of the table is weighed at the 100 g default. */
  lemma XyzzyExample()
    ensures QuantityDefined("1 xyzzy")
    ensures PortionOf("1 xyzzy") == PortionSpec(1.0, "xyzzy", 100.0)
  {
    XyzzyLex();
    QuantityOne();
    TrimOfTrimmed("xyzzy");
    XyzzyMissesFirstGroups();
    XyzzyMissesLaterGroups();
    WeightByMeasures("xyzzy");
    PortionOfLexed("1 xyzzy", "1", "xyzzy", 1.0, "xyzzy", 100.0);
  }

  lemma TrailingNewlineLex()
    ensures Lex(ToLower("2 slices\n")) == None
  {
    ToLowerWithoutCapitals("2 slices\n");
    assert "2 slices\n" == "2" + " " + "slices\n";
    assert IsLineTerminator("slices\n"[6]);
    LexFailsOnTerminator("2", " ", "slices\n");
  }

  /** A line terminator after the unit makes the match fail, which yields one 100 g serving. */
  lemma TrailingNewlineExample()
    ensures QuantityDefined("2 slices\n")
    ensures PortionOf("2 slices\n") == PortionSpec(1.0, "serving", 100.0)
  {
    TrailingNewlineLex();
  }
}
