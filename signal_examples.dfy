/**
 * Worked inputs for the experience extractor, each followed through the
 * scanners position by position: a dashed range, the two lower-bound forms,
 * and the worded range "2 to 3 years" that the separator class as written
 * cannot read.
 */
module YoeExamples {
  import opened Wrappers
  import opened Text
  import opened Signals

  const DASHED := "2-3 years"

  lemma DashedMatch(sep: Separator)
    ensures MatchAt(DASHED, 0, Range(sep)) == Some(YoeRange(Some(2), Some(3)))
  {
    var s := DASHED;
    assert DigitsEnd(s, 1) == 1;
    assert NumberAt(s, 0) == Some(Number(2, 1));
    assert SpacesEnd(s, 1) == 1;
    assert SeparatorEnd(s, 1, sep) == Some(2);
    assert SpacesEnd(s, 2) == 2;
    assert DigitsEnd(s, 3) == 3;
    assert NumberAt(s, 2) == Some(Number(3, 3));
    assert SpacesEnd(s, 4) == 4;
    assert SpacesEnd(s, 3) == 4;
    assert OccursAt(s, "year", 4);
  }

  /** A dashed range with a unit is read as both bounds, under either reading of the separator. */
  lemma RangeExample()
    ensures ExtractYoe("2-3 years") == YoeRange(Some(2), Some(3))
    ensures ExtractYoeAsWritten("2-3 years") == YoeRange(Some(2), Some(3))
  {
    var s := DASHED;
    assert Lower(s) == s;
    DashedMatch(DashOrTo);
    SearchLeftmost(s, Range(DashOrTo), 0, 0);
    DashedMatch(DashClass);
    SearchLeftmost(s, Range(DashClass), 0, 0);
  }

  const MINIMUM_TWO := "minimum 2 years"

  lemma MinimumNoRange(sep: Separator)
    ensures forall j :: 0 <= j <= |MINIMUM_TWO| ==> RangeAt(MINIMUM_TWO, j, sep, true).None?
  {
    var s := MINIMUM_TWO;
    assert DigitsEnd(s, 9) == 9;
    assert NumberAt(s, 8) == Some(Number(2, 9));
    assert SpacesEnd(s, 10) == 10;
    assert SpacesEnd(s, 9) == 10;
    OccursAtChar(s, "to", 10, 0);
    assert SeparatorEnd(s, 10, sep).None?;
    assert forall k | 0 <= k < |s| && k != 8 :: !IsDigit(s[k]);
  }

  lemma MinimumPhrase()
    ensures Search(MINIMUM_TWO, AtLeast, 0) == Some(YoeRange(Some(2), None))
  {
    var s := MINIMUM_TWO;
    assert OccursAt(s, "minimum", 0);
    assert SpacesEnd(s, 8) == 8;
    assert SpacesEnd(s, 7) == 8;
    assert DigitsEnd(s, 9) == 9;
    assert NumberAt(s, 8) == Some(Number(2, 9));
    assert SpacesEnd(s, 10) == 10;
    assert SpacesEnd(s, 9) == 10;
    assert OccursAt(s, "year", 10);
    assert AfterPhrase(s, 7) == Some(YoeRange(Some(2), None));
    assert MatchAt(s, 0, AtLeast) == Some(YoeRange(Some(2), None));
  }

  /** A lower-bound phrase yields a minimum and no maximum, under either reading of the separator. */
  lemma MinimumExample()
    ensures ExtractYoe("Minimum 2 years") == YoeRange(Some(2), None)
    ensures ExtractYoeAsWritten("Minimum 2 years") == YoeRange(Some(2), None)
  {
    var s := MINIMUM_TWO;
    assert Lower("Minimum 2 years") == s;
    MinimumNoRange(DashOrTo);
    SearchNone(s, Range(DashOrTo), 0);
    MinimumNoRange(DashClass);
    SearchNone(s, Range(DashClass), 0);
    MinimumPhrase();
  }

  const FIVE_PLUS := "5+ years"

  lemma FivePlusNoMatch(sep: Separator)
    ensures forall j :: 0 <= j <= |FIVE_PLUS| ==> RangeAt(FIVE_PLUS, j, sep, true).None?
    ensures forall j :: 0 <= j <= |FIVE_PLUS| ==> RangeAt(FIVE_PLUS, j, sep, false).None?
    ensures forall j :: 0 <= j <= |FIVE_PLUS| ==> AtLeastAt(FIVE_PLUS, j, 0).None?
  {
    var s := FIVE_PLUS;
    assert DigitsEnd(s, 1) == 1;
    assert NumberAt(s, 0) == Some(Number(5, 1));
    assert SpacesEnd(s, 1) == 1;
    OccursAtChar(s, "to", 1, 0);
    assert SeparatorEnd(s, 1, sep).None?;
    assert forall k | 0 < k < |s| :: !IsDigit(s[k]);
    forall j | 0 <= j <= |s| ensures AtLeastAt(s, j, 0).None? {
      forall b | 0 <= b < |MIN_PHRASES| ensures !OccursAt(s, MIN_PHRASES[b], j) {
        OccursAtChar(s, MIN_PHRASES[b], j, 0);
        OccursAtChar(s, MIN_PHRASES[b], j, 1);
      }
      NoPhraseNoMatch(s, j, 0);
    }
  }

  lemma FivePlusMatch()
    ensures Search(FIVE_PLUS, Plus, 0) == Some(YoeRange(Some(5), None))
  {
    var s := FIVE_PLUS;
    assert DigitsEnd(s, 1) == 1;
    assert NumberAt(s, 0) == Some(Number(5, 1));
    assert SpacesEnd(s, 3) == 3;
    assert SpacesEnd(s, 2) == 3;
    assert OccursAt(s, "year", 3);
    assert MatchAt(s, 0, Plus) == Some(YoeRange(Some(5), None));
  }

  lemma FivePlusWith(sep: Separator)
    ensures ExtractYoeWith("5+ years", sep) == YoeRange(Some(5), None)
  {
    var s := FIVE_PLUS;
    assert Lower(s) == s;
    FivePlusNoMatch(sep);
    SearchNone(s, Range(sep), 0);
    assert Search(s, Range(sep), 0).None?;
    SearchNone(s, AtLeast, 0);
    assert Search(s, AtLeast, 0).None?;
    SearchNone(s, LooseRange(sep), 0);
    assert Search(s, LooseRange(sep), 0).None?;
    FivePlusMatch();
  }

  /** "N+ years" yields a minimum and no maximum, under either reading of the separator. */
  lemma FivePlusExample()
    ensures ExtractYoe("5+ years") == YoeRange(Some(5), None)
    ensures ExtractYoeAsWritten("5+ years") == YoeRange(Some(5), None)
  {
    FivePlusWith(DashOrTo);
    FivePlusWith(DashClass);
  }

  const WORD_TO := "2 to 3 years"

  lemma WordToNoRange(needUnit: bool)
    ensures forall j :: 0 <= j <= |WORD_TO| ==> RangeAt(WORD_TO, j, DashClass, needUnit).None?
  {
    var s := WORD_TO;
    assert DigitsEnd(s, 1) == 1;
    assert NumberAt(s, 0) == Some(Number(2, 1));
    assert SpacesEnd(s, 2) == 2;
    assert SpacesEnd(s, 1) == 2;
    assert SeparatorEnd(s, 2, DashClass) == Some(3);
    assert SpacesEnd(s, 3) == 3;
    assert NumberAt(s, 3).None?;
    assert DigitsEnd(s, 6) == 6;
    assert NumberAt(s, 5) == Some(Number(3, 6));
    assert SpacesEnd(s, 7) == 7;
    assert SpacesEnd(s, 6) == 7;
    assert SeparatorEnd(s, 7, DashClass).None?;
    assert forall k | 0 <= k < |s| && k != 0 && k != 5 :: !IsDigit(s[k]);
  }

  lemma WordToNoPlus()
    ensures forall j :: 0 <= j <= |WORD_TO| ==> PlusAt(WORD_TO, j).None?
  {
    var s := WORD_TO;
    assert DigitsEnd(s, 1) == 1;
    assert DigitsEnd(s, 6) == 6;
    assert forall k | 0 <= k < |s| && k != 0 && k != 5 :: !IsDigit(s[k]);
  }

  lemma WordToNoPhrase()
    ensures forall j :: 0 <= j <= |WORD_TO| ==> AtLeastAt(WORD_TO, j, 0).None?
  {
    var s := WORD_TO;
    forall j | 0 <= j <= |s| ensures AtLeastAt(s, j, 0).None? {
      forall b | 0 <= b < |MIN_PHRASES| ensures !OccursAt(s, MIN_PHRASES[b], j) {
        OccursAtChar(s, MIN_PHRASES[b], j, 0);
        OccursAtChar(s, MIN_PHRASES[b], j, 1);
      }
      NoPhraseNoMatch(s, j, 0);
    }
  }

  /** As written, "2 to 3 years" matches none of the four patterns: "t" is taken as the separator and "o" is no number. */
  lemma WordToMissedAsWritten()
    ensures ExtractYoeAsWritten("2 to 3 years") == YoeRange(None, None)
  {
    var s := WORD_TO;
    assert Lower(s) == s;
    WordToNoRange(true);
    WordToNoRange(false);
    WordToNoPlus();
    WordToNoPhrase();
    SearchNone(s, Range(DashClass), 0);
    SearchNone(s, AtLeast, 0);
    SearchNone(s, LooseRange(DashClass), 0);
    SearchNone(s, Plus, 0);
  }

  lemma WordToMatch()
    ensures MatchAt(WORD_TO, 0, Range(DashOrTo)) == Some(YoeRange(Some(2), Some(3)))
  {
    var s := WORD_TO;
    assert DigitsEnd(s, 1) == 1;
    assert NumberAt(s, 0) == Some(Number(2, 1));
    assert SpacesEnd(s, 2) == 2;
    assert SpacesEnd(s, 1) == 2;
    assert OccursAt(s, "to", 2);
    assert SeparatorEnd(s, 2, DashOrTo) == Some(4);
    assert SpacesEnd(s, 5) == 5;
    assert SpacesEnd(s, 4) == 5;
    assert DigitsEnd(s, 6) == 6;
    assert NumberAt(s, 5) == Some(Number(3, 6));
    assert SpacesEnd(s, 7) == 7;
    assert SpacesEnd(s, 6) == 7;
    assert OccursAt(s, "year", 7);
  }

  /** Reading "to" as a word, the same text gives the range it states. */
  lemma WordToRead()
    ensures ExtractYoe("2 to 3 years") == YoeRange(Some(2), Some(3))
  {
    var s := WORD_TO;
    assert Lower(s) == s;
    WordToMatch();
    SearchLeftmost(s, Range(DashOrTo), 0, 0);
  }
}

/**
 * The currency keys are looked for as plain substrings, so a short key such as
 * "rs" is found inside ordinary words.
 */
module CurrencyExamples {
  import opened Wrappers
  import opened Text
  import opened Currency

  const THREE_YEARS := "3 years"

  /** Only "rs" of the keys occurs in the text, inside the word "years". */
  lemma ThreeYearsKeys(k: nat)
    requires k < |CURRENCY_MAP| && k != 4
    ensures !Contains(THREE_YEARS, CURRENCY_MAP[k].0)
  {
    var s := THREE_YEARS;
    var key := CURRENCY_MAP[k].0;
    forall j | 0 <= j <= |s| ensures !OccursAt(s, key, j) {
      OccursAtChar(s, key, j, 0);
      if |key| > 1 { OccursAtChar(s, key, j, 1); }
    }
  }

  /** With plain substring matching, the "rs" inside "years" makes a text with no currency in it read as rupees. */
  lemma YearsReadAsRupees()
    ensures FirstCurrency(Lower(THREE_YEARS), Substring, 0) == Some("INR")
  {
    var s := THREE_YEARS;
    assert Lower(s) == s;
    assert OccursAt(s, CURRENCY_MAP[4].0, 5);
    forall m | 0 <= m < 4 ensures !KeyOccurs(s, CURRENCY_MAP[m].0, Substring) {
      ThreeYearsKeys(m);
    }
    FirstCurrencyIsFirst(s, Substring, 0, 4);
  }

  /** With whole-word matching the same text has no currency. */
  lemma YearsNoWholeWordKey()
    ensures FirstCurrency(Lower(THREE_YEARS), WholeWord, 0).None?
  {
    var s := THREE_YEARS;
    assert Lower(s) == s;
    forall k | 0 <= k < |CURRENCY_MAP| ensures !KeyOccurs(s, CURRENCY_MAP[k].0, WholeWord) {
      if k == 4 {
        forall j | 0 <= j <= |s| ensures !OccursAsWordAt(s, "rs", j) {
          OccursAtChar(s, "rs", j, 0);
          OccursAtChar(s, "rs", j, 1);
        }
      } else {
        ThreeYearsKeys(k);
      }
    }
    FirstCurrencyNone(s, WholeWord, 0);
  }

  const HUNDRED_DOLLARS := "100 dollars"

  /** Neither "$" nor "usd" occurs in the text. */
  lemma HundredDollarsKeys(k: nat, mode: KeyMatch)
    requires k < 2
    ensures !KeyOccurs(HUNDRED_DOLLARS, CURRENCY_MAP[k].0, mode)
  {
    var s := HUNDRED_DOLLARS;
    var key := CURRENCY_MAP[k].0;
    forall j | 0 <= j <= |s| ensures !OccursAt(s, key, j) {
      OccursAtChar(s, key, j, 0);
    }
  }

  /** A plural currency word is still read: "dollars" is USD under both ways of matching keys. */
  lemma DollarsStillUsd()
    ensures FirstCurrency(Lower(HUNDRED_DOLLARS), Substring, 0) == Some("USD")
    ensures FirstCurrency(Lower(HUNDRED_DOLLARS), WholeWord, 0) == Some("USD")
  {
    var s := HUNDRED_DOLLARS;
    assert Lower(s) == s;
    assert OccursAt(s, CURRENCY_MAP[2].0, 4);
    assert WordEndsAt(s, 11);
    assert OccursAsWordAt(s, CURRENCY_MAP[2].0, 4);
    forall mode: KeyMatch, m | 0 <= m < 2 ensures !KeyOccurs(s, CURRENCY_MAP[m].0, mode) {
      HundredDollarsKeys(m, mode);
    }
    FirstCurrencyIsFirst(s, Substring, 0, 2);
    FirstCurrencyIsFirst(s, WholeWord, 0, 2);
  }

  const RS_AMOUNT := "rs500"

  /** None of "$", "usd", "dollar" and the rupee sign occurs in the text. */
  lemma RsAmountKeys(k: nat, mode: KeyMatch)
    requires k < 4
    ensures !KeyOccurs(RS_AMOUNT, CURRENCY_MAP[k].0, mode)
  {
    var s := RS_AMOUNT;
    var key := CURRENCY_MAP[k].0;
    forall j | 0 <= j <= |s| ensures !OccursAt(s, key, j) {
      OccursAtChar(s, key, j, 0);
    }
  }

  /** A key written against an amount is found in both modes: "rs500" is INR. */
  lemma KeyBeforeAmount()
    ensures FirstCurrency(Lower(RS_AMOUNT), Substring, 0) == Some("INR")
    ensures FirstCurrency(Lower(RS_AMOUNT), WholeWord, 0) == Some("INR")
  {
    var s := RS_AMOUNT;
    assert Lower(s) == s;
    assert OccursAt(s, CURRENCY_MAP[4].0, 0);
    assert WordEndsAt(s, 2);
    assert OccursAsWordAt(s, CURRENCY_MAP[4].0, 0);
    forall mode: KeyMatch, m | 0 <= m < 4 ensures !KeyOccurs(s, CURRENCY_MAP[m].0, mode) {
      RsAmountKeys(m, mode);
    }
    FirstCurrencyIsFirst(s, Substring, 0, 4);
    FirstCurrencyIsFirst(s, WholeWord, 0, 4);
  }
}
