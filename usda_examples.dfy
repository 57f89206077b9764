/**
 * Worked cases of the database side: search terms, nutrient extraction and scaling.
 */
module UsdaExamples {
  import opened Wrappers
  import opened Strings
  import opened Portion
  import opened Nutrition
  import opened Usda
  import PortionExamples

  /** The first letters of the qualifiers. */
  predicate QualifierHead(c: char) {
    c == 'f' || c == 'r' || c == 'c' || c == 'g' || c == 'b' || c == 'o'
  }

  /** No qualifier can start at a letter that begins none of them. */
  lemma QualifierFreeByLetters(s: string)
    requires forall i :: 0 <= i < |s| ==> !QualifierHead(s[i])
    ensures QualifierFree(s)
  {
    forall i | 0 <= i < |s| ensures QualifierAt(s[i..], 0).None? {
      var t := s[i..];
      assert t[0] == s[i];
      assert forall j :: 0 <= j < |Qualifiers| ==> QualifierHead(Qualifiers[j][0]);
    }
  }

  lemma RawTunaLower()
    ensures ToLower("Raw Tuna") == Qualifiers[1] + " tuna"
  {
  }

  /** A qualifier followed by letters that start none of them is stripped to what follows. */
  lemma StripQualifiedWord(k: nat, rest: string)
    requires k < |Qualifiers|
    requires forall i :: 0 <= i < |rest| ==> !QualifierHead(rest[i])
    ensures StripQualifiers(Qualifiers[k] + rest) == rest
  {
    StripLeadingQualifier(k, rest);
    QualifierFreeByLetters(rest);
    StripQualifierFree(rest);
  }

  lemma TrimTuna()
    ensures Trim(" tuna") == "tuna"
  {
    assert " tuna"[1..] == "tuna";
    assert SpanLen(" tuna"[1..], IsJsSpace) == 0;
    assert TrimStart(" tuna") == "tuna";
    TrimOfTrimmed("tuna");
  }

  /** "Raw Tuna" is searched for as "tuna". */
  lemma RawTunaTerm()
    ensures SearchTerm("Raw Tuna") == "tuna"
  {
    RawTunaLower();
    StripQualifiedWord(1, " tuna");
    TrimTuna();
  }

  lemma NoQualifierAtFrf()
    ensures QualifierAt("frfreshesh", 0).None?
  {
    var s := "frfreshesh";
    forall j | 0 <= j < |Qualifiers| ensures !StartsWith(s, Qualifiers[j]) {
      assert Qualifiers[j][0] != s[0] || Qualifiers[j][2] != s[2];
    }
  }

  lemma NoQualifierAtRf()
    ensures QualifierAt("rfreshesh", 0).None?
  {
    var s := "rfreshesh";
    forall j | 0 <= j < |Qualifiers| ensures !StartsWith(s, Qualifiers[j]) {
      assert Qualifiers[j][0] != s[0] || Qualifiers[j][1] != s[1];
    }
  }

  /** Two letters that start no qualifier, a qualifier, and letters that start none: the qualifier goes. */
  lemma StripAroundQualifier(a: char, b: char, k: nat, rest: string)
    requires k < |Qualifiers|
    requires QualifierAt([a] + ([b] + (Qualifiers[k] + rest)), 0).None?
    requires QualifierAt([b] + (Qualifiers[k] + rest), 0).None?
    requires forall i :: 0 <= i < |rest| ==> !QualifierHead(rest[i])
    ensures StripQualifiers([a] + ([b] + (Qualifiers[k] + rest))) == [a] + ([b] + rest)
  {
    var w := Qualifiers[k] + rest;
    var t := [b] + w;
    var s := [a] + t;
    StripQualifiedWord(k, rest);
    StripKeepsHead(b, w);
    StripKeepsHead(a, t);
  }

  lemma StripKeepsHead(c: char, s: string)
    requires QualifierAt([c] + s, 0).None?
    ensures StripQualifiers([c] + s) == [c] + StripQualifiers(s)
  {
    assert ([c] + s)[1..] == s;
  }

  /** "frfreshesh" is 'f', 'r', the qualifier "fresh" and "esh", and neither letter starts a qualifier. */
  lemma FrfreshPieces()
    ensures "frfreshesh" == ['f'] + (['r'] + (Qualifiers[0] + "esh"))
    ensures QualifierAt(['f'] + (['r'] + (Qualifiers[0] + "esh")), 0).None?
    ensures QualifierAt(['r'] + (Qualifiers[0] + "esh"), 0).None?
    ensures "fresh" == ['f'] + (['r'] + "esh")
  {
    NoQualifierAtFrf();
    NoQualifierAtRf();
    assert "rfreshesh" == ['r'] + (Qualifiers[0] + "esh");
  }

  lemma FrfreshStripped()
    ensures StripQualifiers("frfreshesh") == "fresh"
  {
    FrfreshPieces();
    StripAroundQualifier('f', 'r', 0, "esh");
  }

  lemma FreshStripped()
    ensures StripQualifiers("fresh") == ""
  {
    assert "fresh" == Qualifiers[0] + "";
    StripLeadingQualifier(0, "");
  }

  /**
   * The replacement is a single pass, so removing a qualifier can join the letters around
   * it into another one: "frfreshesh" is searched for as "fresh", which the same
   * normalisation would reduce to nothing.
   */
  lemma FrfreshLower()
    ensures ToLower("frfreshesh") == "frfreshesh"
  {
    ToLowerWithoutCapitals("frfreshesh");
  }

  lemma FreshTrimmed()
    ensures Trim("fresh") == "fresh"
  {
    var s := "fresh";
    assert s[0] == 'f' && s[|s| - 1] == 'h';
    TrimOfTrimmed(s);
  }

  lemma FrfreshTerm()
    ensures SearchTerm("frfreshesh") == "fresh"
  {
    FrfreshLower();
    FrfreshStripped();
    FreshTrimmed();
  }

  lemma FreshLower()
    ensures ToLower("Fresh") == "fresh"
  {
  }

  lemma LoweredFreshTerm()
    ensures SearchTerm("fresh") == ""
  {
    ToLowerWithoutCapitals("fresh");
    FreshStripped();
  }

  /** The search term depends on the food name only through its lowered form. */
  lemma SameLowerSameTerm(a: string, b: string)
    requires ToLower(a) == ToLower(b)
    ensures SearchTerm(a) == SearchTerm(b)
  {
  }

  lemma FreshTerm()
    ensures SearchTerm("Fresh") == ""
  {
    FreshLower();
    ToLowerWithoutCapitals("fresh");
    SameLowerSameTerm("Fresh", "fresh");
    LoweredFreshTerm();
  }

  lemma SingleScanLeavesQualifier()
    ensures SearchTerm("frfreshesh") == "fresh"
    ensures SearchTerm(SearchTerm("frfreshesh")) == ""
  {
    FrfreshTerm();
    LoweredFreshTerm();
  }

  /** An energy entry in kJ is not read as calories, wherever it stands. */
  lemma KilojoulesIgnored()
    ensures var kj := FoodNutrient(Some("Energy"), Some("kJ"), Some(218.0));
            var kcal := FoodNutrient(Some("Energy"), Some("KCAL"), Some(52.0));
            && NutrientsOf([kcal, kj]).calories == Some(52.0)
            && NutrientsOf([kj, kcal]).calories == Some(52.0)
  {
    var kj := FoodNutrient(Some("Energy"), Some("kJ"), Some(218.0));
    var kcal := FoodNutrient(Some("Energy"), Some("KCAL"), Some(52.0));
    assert ToLower("Energy") == "energy";
    assert OccursAt("energy", "energy", 0);
    ContainsWhenOccurs("energy", "energy", 0);
    FieldOfChain(kcal);
    FieldOfChain(kj);
    assert FieldOf(kcal) == Some(Energy);
    assert FieldOf(kj) != Some(Energy);
    assert IsLastMatch([kcal, kj], Energy, 0);
    LastMatchWins([kcal, kj], Energy, 0);
    assert IsLastMatch([kj, kcal], Energy, 1);
    LastMatchWins([kj, kcal], Energy, 1);
  }

  lemma OneCup()
    ensures QuantityDefined("1 cup")
    ensures PortionOf("1 cup") == PortionSpec(1.0, "cup", 240.0)
  {
    PortionExamples.OneCupLex();
    var lexed := Lex(ToLower("1 cup"));
    assert lexed == Some(Lexed("1", "cup"));
    PortionExamples.QuantityOne();
    TrimOfTrimmed("cup");
    PortionExamples.CupWeight();
    PortionOfLexed("1 cup", "1", "cup", 1.0, "cup", 240.0);
    assert 1.0 * 240.0 == 240.0;
  }

  /** 52 kcal per 100 g and a 240 g cup give 124.8 kcal, stored as 125. */
  lemma AppleCupExample(usda: UsdaRecord)
    requires usda.per100g.calories == Some(52.0)
    ensures QuantityDefined("1 cup")
    ensures ScaleUsda(usda, "1 cup").calLow == Some(125.0)
    ensures ScaleUsda(usda, "1 cup").calHigh == Some(125.0)
  {
    OneCup();
    assert ScaleUsda(usda, "1 cup") == ScaleBy(usda, 2.4);
    assert OrZero(usda.per100g.calories) * 2.4 == 124.8;
    assert Round(124.8) == 125;
  }
}
