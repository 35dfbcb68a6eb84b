/**
 * Signals read out of a posting's free text: the experience range, visa
 * sponsorship, and the salary currency.
 *
 * The experience patterns are regular expressions tried in a fixed order, the
 * first hit winning. Each is modelled by a scanner that, at a start position,
 * follows the one path the regular expression can take there: every repeated
 * run in these patterns (digits, whitespace) is followed by a character the run
 * cannot contain, so backtracking into a run never helps and the greedy, maximal
 * run is the only candidate. A search then takes the leftmost start that
 * matches, as a regular-expression search does.
 */
module Signals {
  import opened Wrappers
  import opened Text

  // ---------------------------------------------------------------------------
  // Visa sponsorship

  const VISA_KEYWORDS: seq<string> := [
    "visa sponsorship", "sponsored visa", "visa sponsor", "relocation support",
    "relocation assistance", "work visa", "sponsor visa", "visa available",
    "will sponsor", "can sponsor", "sponsorship available"]

  /** True exactly when some visa keyword occurs in the lower-cased text. */
  function DetectVisaSponsorship(text: string): (b: bool)
    ensures b <==> exists k :: 0 <= k < |VISA_KEYWORDS| && Contains(Lower(text), VISA_KEYWORDS[k])
  {
    ContainsAny(Lower(text), VISA_KEYWORDS)
  }

  // ---------------------------------------------------------------------------
  // Scanning primitives

  /** The end of the run of digits that starts at `i`. */
  function DigitsEnd(s: string, i: nat): (e: nat)
    requires i <= |s|
    ensures i <= e <= |s|
    ensures forall k :: i <= k < e ==> IsDigit(s[k])
    ensures e == |s| || !IsDigit(s[e])
    decreases |s| - i
  {
    if i < |s| && IsDigit(s[i]) then DigitsEnd(s, i + 1) else i
  }

  function DigitValue(c: char): nat
    requires IsDigit(c)
  {
    c as int - '0' as int
  }

  /** `int(ds)` for a string of decimal digits. */
  function DecimalValue(ds: string): nat
    requires forall k :: 0 <= k < |ds| ==> IsDigit(ds[k])
  {
    if ds == [] then 0 else DecimalValue(ds[..|ds| - 1]) * 10 + DigitValue(ds[|ds| - 1])
  }

  /** A number read by `(\d+)`: its value and the index just past it. */
  datatype Number = Number(value: nat, end: nat)

  /** `(\d+)` at `i`, taking the whole run of digits. */
  function NumberAt(s: string, i: nat): (n: Option<Number>)
    requires i <= |s|
    ensures n.Some? ==> i < |s| && IsDigit(s[i]) && i < n.value.end <= |s|
  {
    if i < |s| && IsDigit(s[i]) then
      var e := DigitsEnd(s, i);
      Some(Number(DecimalValue(s[i..e]), e))
    else None
  }

  /** `(?:years?|yrs?|yoe|experience)` at `i`; nothing follows it in any pattern, so the optional `s` is irrelevant. */
  predicate UnitAt(s: string, i: nat) {
    OccursAt(s, "year", i) || OccursAt(s, "yr", i) || OccursAt(s, "yoe", i) || OccursAt(s, "experience", i)
  }

  /** The dashes a range may use: hyphen, en dash, em dash. */
  predicate IsDash(c: char) {
    c == '-' || c == '\U{2013}' || c == '\U{2014}'
  }

  /**
   * How a range separates its two numbers. `DashClass` is the character class
   * `[-–—to]` the patterns are written with: one dash, or one letter `t` or `o`.
   * `DashOrTo` is what their comments describe: a dash or the word "to".
   */
  datatype Separator = DashClass | DashOrTo

  /** The index just past a separator starting at `p`. */
  function SeparatorEnd(s: string, p: nat, sep: Separator): (e: Option<nat>)
    requires p <= |s|
    ensures e.Some? ==> p < e.value <= |s|
  {
    match sep
    case DashClass =>
      if p < |s| && (IsDash(s[p]) || s[p] == 't' || s[p] == 'o') then Some(p + 1) else None
    case DashOrTo =>
      if p < |s| && IsDash(s[p]) then Some(p + 1)
      else if OccursAt(s, "to", p) then Some(p + 2)
      else None
  }

  // ---------------------------------------------------------------------------
  // Years of experience

  /** What `extract_yoe` returns: an optional minimum and an optional maximum. */
  datatype YoeRange = YoeRange(min: Option<int>, max: Option<int>)

  /** Both bounds, where present, are non-negative, and a maximum comes only with a minimum. */
  predicate Bounded(y: YoeRange) {
    && (y.min.Some? ==> y.min.value >= 0)
    && (y.max.Some? ==> y.max.value >= 0 && y.min.Some?)
  }

  /**
   * The four experience patterns, in the order they are tried:
   * `Range` is `(\d+)\s*SEP\s*(\d+)\s*UNIT`, `AtLeast` is
   * `(?:minimum|min|at least|atleast)\s*(\d+)\s*UNIT`, `LooseRange` is
   * `(\d+)\s*SEP\s*(\d+)` and `Plus` is `(\d+)\+\s*UNIT`.
   */
  datatype Pattern = Range(sep: Separator) | AtLeast | LooseRange(rangeSep: Separator) | Plus

  /** What a pattern's match holds: always a minimum, and a maximum exactly for the two range patterns. */
  predicate Shaped(pat: Pattern, y: YoeRange) {
    Bounded(y) && y.min.Some? && (y.max.Some? <==> pat.Range? || pat.LooseRange?)
  }

  /** A range at `i`, with or without a trailing unit. */
  function RangeAt(s: string, i: nat, sep: Separator, needUnit: bool): (r: Option<YoeRange>)
    requires i <= |s|
    ensures r.Some? ==> Bounded(r.value) && r.value.max.Some?
  {
    match NumberAt(s, i)
    case None => None
    case Some(first) =>
      match SeparatorEnd(s, SpacesEnd(s, first.end), sep)
      case None => None
      case Some(q) =>
        match NumberAt(s, SpacesEnd(s, q))
        case None => None
        case Some(second) =>
          if !needUnit || UnitAt(s, SpacesEnd(s, second.end))
          then Some(YoeRange(Some(first.value), Some(second.value)))
          else None
  }

  /** The lower-bound phrases, in the order the alternation tries them. */
  const MIN_PHRASES: seq<string> := ["minimum", "min", "at least", "atleast"]

  /** What follows a lower-bound phrase ending at `p`: `\s*(\d+)\s*UNIT`. */
  function AfterPhrase(s: string, p: nat): (r: Option<YoeRange>)
    requires p <= |s|
    ensures r.Some? ==> Bounded(r.value) && r.value.max.None?
  {
    match NumberAt(s, SpacesEnd(s, p))
    case None => None
    case Some(n) =>
      if UnitAt(s, SpacesEnd(s, n.end)) then Some(YoeRange(Some(n.value), None)) else None
  }

  /** The first alternative from index `a` of `MIN_PHRASES` that starts at `i` and whose continuation matches. */
  function AtLeastAt(s: string, i: nat, a: nat): (r: Option<YoeRange>)
    requires i <= |s| && a <= |MIN_PHRASES|
    ensures r.Some? ==> Bounded(r.value) && r.value.min.Some? && r.value.max.None?
    decreases |MIN_PHRASES| - a
  {
    if a == |MIN_PHRASES| then None
    else
      var phrase := MIN_PHRASES[a];
      var here := if OccursAt(s, phrase, i) then AfterPhrase(s, i + |phrase|) else None;
      if here.Some? then here else AtLeastAt(s, i, a + 1)
  }

  function PlusAt(s: string, i: nat): (r: Option<YoeRange>)
    requires i <= |s|
    ensures r.Some? ==> Bounded(r.value) && r.value.min.Some? && r.value.max.None?
  {
    match NumberAt(s, i)
    case None => None
    case Some(n) =>
      if n.end < |s| && s[n.end] == '+' && UnitAt(s, SpacesEnd(s, n.end + 1))
      then Some(YoeRange(Some(n.value), None))
      else None
  }

  /** The match of a pattern starting exactly at `i`. */
  function MatchAt(s: string, i: nat, pat: Pattern): (r: Option<YoeRange>)
    requires i <= |s|
    ensures r.Some? ==> Shaped(pat, r.value)
  {
    match pat
    case Range(sep) => RangeAt(s, i, sep, true)
    case AtLeast => AtLeastAt(s, i, 0)
    case LooseRange(sep) => RangeAt(s, i, sep, false)
    case Plus => PlusAt(s, i)
  }

  /** The leftmost match of a pattern at or after `i`. */
  function Search(s: string, pat: Pattern, i: nat): (r: Option<YoeRange>)
    requires i <= |s|
    ensures r.Some? ==> Shaped(pat, r.value)
    decreases |s| - i
  {
    var here := MatchAt(s, i, pat);
    if here.Some? then here
    else if i == |s| then None
    else Search(s, pat, i + 1)
  }

  /** `extract_yoe` with a given reading of the range separator. */
  function ExtractYoeWith(text: string, sep: Separator): (r: YoeRange)
    ensures Bounded(r)
  {
    var t := Lower(text);
    var range := Search(t, Range(sep), 0);
    if range.Some? then range.value
    else
      var atLeast := Search(t, AtLeast, 0);
      if atLeast.Some? then atLeast.value
      else
        var loose := Search(t, LooseRange(sep), 0);
        if loose.Some? && loose.value.min.value <= 10 && loose.value.max.value <= 10 then loose.value
        else
          var plus := Search(t, Plus, 0);
          if plus.Some? then plus.value else YoeRange(None, None)
  }

  /** `extract_yoe` exactly as its patterns are written. */
  function ExtractYoeAsWritten(text: string): (r: YoeRange)
    ensures Bounded(r)
  {
    ExtractYoeWith(text, DashClass)
  }

  /** `extract_yoe` with the range separator its comments describe ("2-3 years", "2 to 3 years"). */
  function ExtractYoe(text: string): (r: YoeRange)
    ensures Bounded(r)
  {
    ExtractYoeWith(text, DashOrTo)
  }

  /** The search finds nothing exactly when no position from `i` on starts a match. */
  lemma {:induction false} SearchNone(s: string, pat: Pattern, i: nat)
    requires i <= |s|
    ensures Search(s, pat, i).None? <==> forall j :: i <= j <= |s| ==> MatchAt(s, j, pat).None?
    decreases |s| - i
  {
    var here := MatchAt(s, i, pat);
    if here.Some? {
      assert Search(s, pat, i) == here;
    } else if i == |s| {
      assert Search(s, pat, i).None?;
    } else {
      assert Search(s, pat, i) == Search(s, pat, i + 1);
      SearchNone(s, pat, i + 1);
    }
  }

  /** Otherwise the search returns the match at the leftmost position that has one. */
  lemma {:induction false} SearchLeftmost(s: string, pat: Pattern, i: nat, j: nat)
    requires i <= j <= |s| && MatchAt(s, j, pat).Some?
    requires forall k :: i <= k < j ==> MatchAt(s, k, pat).None?
    ensures Search(s, pat, i) == MatchAt(s, j, pat)
    decreases j - i
  {
    var here := MatchAt(s, i, pat);
    if i < j {
      assert here.None?;
      assert Search(s, pat, i) == Search(s, pat, i + 1);
      SearchLeftmost(s, pat, i + 1, j);
    } else {
      assert Search(s, pat, i) == here;
    }
  }

  predicate NoDigits(s: string) {
    forall k :: 0 <= k < |s| ==> !IsDigit(s[k])
  }

  lemma NoDigitsNoMatch(s: string, pat: Pattern)
    requires NoDigits(s)
    ensures forall i :: 0 <= i <= |s| ==> MatchAt(s, i, pat).None?
  {
    forall i | 0 <= i <= |s| ensures MatchAt(s, i, pat).None? {
      if pat.AtLeast? {
        NoDigitsNoPhraseMatch(s, i, 0);
      }
    }
  }

  lemma {:induction false} NoDigitsNoPhraseMatch(s: string, i: nat, a: nat)
    requires NoDigits(s) && i <= |s| && a <= |MIN_PHRASES|
    ensures AtLeastAt(s, i, a).None?
    decreases |MIN_PHRASES| - a
  {
    if a < |MIN_PHRASES| {
      NoDigitsNoPhraseMatch(s, i, a + 1);
    }
  }

  /** A text without digits has no experience range. */
  lemma NoDigitsNoYoe(text: string, sep: Separator)
    requires NoDigits(text)
    ensures ExtractYoeWith(text, sep) == YoeRange(None, None)
  {
    var t := Lower(text);
    assert NoDigits(t);
    NoDigitsNoMatch(t, Range(sep));
    SearchNone(t, Range(sep), 0);
    NoDigitsNoMatch(t, AtLeast);
    SearchNone(t, AtLeast, 0);
    NoDigitsNoMatch(t, LooseRange(sep));
    SearchNone(t, LooseRange(sep), 0);
    NoDigitsNoMatch(t, Plus);
    SearchNone(t, Plus, 0);
  }

  /** No lower-bound phrase starts at `i`, so the lower-bound pattern has no match there. */
  lemma {:induction false} NoPhraseNoMatch(s: string, i: nat, a: nat)
    requires i <= |s| && a <= |MIN_PHRASES|
    requires forall b :: a <= b < |MIN_PHRASES| ==> !OccursAt(s, MIN_PHRASES[b], i)
    ensures AtLeastAt(s, i, a).None?
    decreases |MIN_PHRASES| - a
  {
    if a < |MIN_PHRASES| {
      NoPhraseNoMatch(s, i, a + 1);
    }
  }

  /** At a position that holds no digit, only the lower-bound pattern could match. */
  lemma NoNumberNoMatch(s: string, i: nat, pat: Pattern)
    requires i <= |s| && (i == |s| || !IsDigit(s[i])) && !pat.AtLeast?
    ensures MatchAt(s, i, pat).None?
  {
  }
}

/**
 * The currency of a posting's salary: the first currency key found in the
 * text, or, when the text states a salary range in thousands ("50k-70k") or
 * lakhs ("10l-15l") and no key was found, the currency that unit implies.
 */
module Currency {
  import opened Wrappers
  import opened Text
  import opened Signals

  /** The currency keys and their codes, in the order they are tried. */
  const CURRENCY_MAP: seq<(string, string)> := [
    ("$", "USD"), ("usd", "USD"), ("dollar", "USD"),
    ("\U{20B9}", "INR"), ("rs", "INR"), ("inr", "INR"), ("rupee", "INR"), ("lakh", "INR"), ("lpa", "INR"),
    ("\U{A3}", "GBP"), ("gbp", "GBP"), ("pound", "GBP"),
    ("\U{20AC}", "EUR"), ("eur", "EUR"), ("euro", "EUR"),
    ("sgd", "SGD"), ("singapore", "SGD"),
    ("aed", "AED"), ("dirham", "AED")]

  /**
   * How a key is looked for. `Substring` is the plain `in` test the detection
   * is written with; `WholeWord` lets a key made of letters count only where it
   * stands as a word of its own, or as one with a plural "s", so that "rs" is
   * not found inside "years" while "dollar" is still found in "dollars". Only
   * letters bound a word here, so a key written against an amount ("rs500",
   * "50000usd") is still found.
   */
  datatype KeyMatch = Substring | WholeWord

  /** An ASCII letter: the characters that continue a word around a key. */
  predicate IsLetter(c: char) {
    ('a' <= c <= 'z') || ('A' <= c <= 'Z')
  }

  /** Position `e` of `s` ends a word: the text ends there or a non-letter follows. */
  predicate WordEndsAt(s: string, e: int) {
    0 <= e <= |s| && (e == |s| || !IsLetter(s[e]))
  }

  /** `p` occurs at `i` with no letter before it, and after it only a plural "s" or nothing of a word. */
  predicate OccursAsWordAt(s: string, p: string, i: int) {
    && OccursAt(s, p, i)
    && (i == 0 || !IsLetter(s[i - 1]))
    && (WordEndsAt(s, i + |p|) || (i + |p| < |s| && s[i + |p|] == 's' && WordEndsAt(s, i + |p| + 1)))
  }

  predicate ContainsWord(s: string, p: string) {
    exists i | 0 <= i <= |s| :: OccursAsWordAt(s, p, i)
  }

  /** Whether a key is found in the text under the given way of looking. */
  predicate KeyOccurs(t: string, key: string, mode: KeyMatch) {
    if mode == WholeWord && key != [] && IsLetter(key[0]) then ContainsWord(t, key) else Contains(t, key)
  }

  /** The code of the first key, from index `i` of the map on, that is found in `t`. */
  function FirstCurrency(t: string, mode: KeyMatch, i: nat): Option<string>
    requires i <= |CURRENCY_MAP|
    decreases |CURRENCY_MAP| - i
  {
    if i == |CURRENCY_MAP| then None
    else if KeyOccurs(t, CURRENCY_MAP[i].0, mode) then Some(CURRENCY_MAP[i].1)
    else FirstCurrency(t, mode, i + 1)
  }

  /** No code is reported exactly when no key is found. */
  lemma {:induction false} FirstCurrencyNone(t: string, mode: KeyMatch, i: nat)
    requires i <= |CURRENCY_MAP|
    ensures FirstCurrency(t, mode, i).None? <==> forall k :: i <= k < |CURRENCY_MAP| ==> !KeyOccurs(t, CURRENCY_MAP[k].0, mode)
    decreases |CURRENCY_MAP| - i
  {
    if i < |CURRENCY_MAP| {
      var key := CURRENCY_MAP[i].0;
      if KeyOccurs(t, key, mode) {
        assert FirstCurrency(t, mode, i).Some?;
      } else {
        assert FirstCurrency(t, mode, i) == FirstCurrency(t, mode, i + 1);
        FirstCurrencyNone(t, mode, i + 1);
      }
    }
  }

  /** A reported code belongs to a key that is found. */
  lemma {:induction false} FirstCurrencyFound(t: string, mode: KeyMatch, i: nat)
    requires i <= |CURRENCY_MAP|
    ensures FirstCurrency(t, mode, i).Some? ==>
              exists k :: i <= k < |CURRENCY_MAP| && KeyOccurs(t, CURRENCY_MAP[k].0, mode)
                          && FirstCurrency(t, mode, i).value == CURRENCY_MAP[k].1
    decreases |CURRENCY_MAP| - i
  {
    if i < |CURRENCY_MAP| {
      var key := CURRENCY_MAP[i].0;
      if KeyOccurs(t, key, mode) {
        assert FirstCurrency(t, mode, i) == Some(CURRENCY_MAP[i].1);
      } else {
        assert FirstCurrency(t, mode, i) == FirstCurrency(t, mode, i + 1);
        FirstCurrencyFound(t, mode, i + 1);
      }
    }
  }

  /** The code reported is that of the first key in map order that is found. */
  lemma {:induction false} FirstCurrencyIsFirst(t: string, mode: KeyMatch, i: nat, k: nat)
    requires i <= k < |CURRENCY_MAP| && KeyOccurs(t, CURRENCY_MAP[k].0, mode)
    requires forall m :: i <= m < k ==> !KeyOccurs(t, CURRENCY_MAP[m].0, mode)
    ensures FirstCurrency(t, mode, i) == Some(CURRENCY_MAP[k].1)
    decreases k - i
  {
    var key := CURRENCY_MAP[i].0;
    if i < k {
      assert !KeyOccurs(t, key, mode);
      FirstCurrencyIsFirst(t, mode, i + 1, k);
    } else {
      assert KeyOccurs(t, key, mode);
    }
  }

  /** The currency scan over the lower-cased text: the first key found fixes the code. */
  method DetectCurrency(text: string, mode: KeyMatch) returns (code: Option<string>)
    ensures code == FirstCurrency(Lower(text), mode, 0)
  {
    var t := Lower(text);
    code := None;
    var i := 0;
    while i < |CURRENCY_MAP|
      invariant 0 <= i <= |CURRENCY_MAP|
      invariant FirstCurrency(t, mode, 0) == FirstCurrency(t, mode, i)
    {
      var (key, c) := CURRENCY_MAP[i];
      if KeyOccurs(t, key, mode) {
        code := Some(c);
        break;
      }
      i := i + 1;
    }
  }

  /** The end of `\d+(?:\.\d+)?` at `i`: the digits, then a fraction only if a digit follows the point. */
  function DecimalEnd(s: string, i: nat): (e: nat)
    requires i < |s| && IsDigit(s[i])
    ensures i < e <= |s|
  {
    var d := DigitsEnd(s, i);
    if d + 1 < |s| && s[d] == '.' && IsDigit(s[d + 1]) then DigitsEnd(s, d + 1) else d
  }

  /**
   * `(\d+(?:\.\d+)?)\s*U\s*[-–—to]?\s*(\d+(?:\.\d+)?)\s*U` at `i`, for the unit letter `U`.
   * Neither the numbers nor the whitespace runs can be shortened to any profit, and
   * the optional separator must be taken when present since it is no digit, so
   * the scan below is the only way the pattern can match at `i`.
   */
  predicate UnitRangeAt(s: string, i: nat, unit: char)
    requires i <= |s|
  {
    && i < |s| && IsDigit(s[i])
    && var a := SpacesEnd(s, DecimalEnd(s, i));
    && a < |s| && s[a] == unit
    && var b := SpacesEnd(s, a + 1);
    && var c := if b < |s| && (IsDash(s[b]) || s[b] == 't' || s[b] == 'o') then b + 1 else b;
    && var d := SpacesEnd(s, c);
    && d < |s| && IsDigit(s[d])
    && var e := SpacesEnd(s, DecimalEnd(s, d));
    && e < |s| && s[e] == unit
  }

  /** `re.search` of the range pattern for the unit succeeds somewhere in the text. */
  predicate HasUnitRange(s: string, unit: char) {
    exists i | 0 <= i < |s| :: UnitRangeAt(s, i, unit)
  }

  /**
   * The currency `extract_salary_currency` reports: the detected one, with
   * "USD" standing in for a range in thousands and "INR" for one in lakhs.
   */
  function SalaryCurrency(text: string, mode: KeyMatch): Option<string> {
    var t := Lower(text);
    WithDefault(FirstCurrency(t, mode, 0), HasUnitRange(t, 'k'), HasUnitRange(t, 'l'))
  }

  /** The detected currency, or the one a range in thousands or else in lakhs implies. */
  function WithDefault(detected: Option<string>, thousands: bool, lakhs: bool): Option<string> {
    if thousands then Some(detected.GetOr("USD"))
    else if lakhs then Some(detected.GetOr("INR"))
    else detected
  }

  /** `extract_salary_currency`, reduced to the currency it reports. */
  method ExtractSalaryCurrency(text: string, mode: KeyMatch) returns (currency: Option<string>)
    ensures currency == SalaryCurrency(text, mode)
  {
    var detected := DetectCurrency(text, mode);
    var t := Lower(text);
    if HasUnitRange(t, 'k') {
      currency := Some(detected.GetOr("USD"));
    } else if HasUnitRange(t, 'l') {
      currency := Some(detected.GetOr("INR"));
    } else {
      currency := detected;
    }
  }

  /** A range in thousands always reports a currency: the detected one, else "USD". */
  lemma ThousandsDefaultToUsd(text: string, mode: KeyMatch)
    requires HasUnitRange(Lower(text), 'k')
    ensures FirstCurrency(Lower(text), mode, 0).None? ==> SalaryCurrency(text, mode) == Some("USD")
    ensures FirstCurrency(Lower(text), mode, 0).Some? ==> SalaryCurrency(text, mode) == FirstCurrency(Lower(text), mode, 0)
  {
  }

  /** A range in lakhs, with none in thousands, reports the detected currency, else "INR". */
  lemma LakhsDefaultToInr(text: string, mode: KeyMatch)
    requires !HasUnitRange(Lower(text), 'k') && HasUnitRange(Lower(text), 'l')
    ensures FirstCurrency(Lower(text), mode, 0).None? ==> SalaryCurrency(text, mode) == Some("INR")
    ensures FirstCurrency(Lower(text), mode, 0).Some? ==> SalaryCurrency(text, mode) == FirstCurrency(Lower(text), mode, 0)
  {
  }

  /** A detected currency is always the one reported, and without a key and a range no currency is reported. */
  lemma DetectedCurrencyWins(text: string, mode: KeyMatch)
    ensures FirstCurrency(Lower(text), mode, 0).Some? ==> SalaryCurrency(text, mode) == FirstCurrency(Lower(text), mode, 0)
    ensures SalaryCurrency(text, mode).None? <==>
              FirstCurrency(Lower(text), mode, 0).None? && !HasUnitRange(Lower(text), 'k') && !HasUnitRange(Lower(text), 'l')
  {
  }

  /** The reported code is always one of the map's codes. */
  lemma CurrencyIsKnownCode(text: string, mode: KeyMatch)
    ensures SalaryCurrency(text, mode).Some? ==> exists k :: 0 <= k < |CURRENCY_MAP| && SalaryCurrency(text, mode).value == CURRENCY_MAP[k].1
  {
    var t := Lower(text);
    var detected := FirstCurrency(t, mode, 0);
    var thousands, lakhs := HasUnitRange(t, 'k'), HasUnitRange(t, 'l');
    assert SalaryCurrency(text, mode) == WithDefault(detected, thousands, lakhs);
    if detected.None? {
      assert CURRENCY_MAP[0].1 == "USD" && CURRENCY_MAP[3].1 == "INR";
    } else {
      FirstCurrencyFound(t, mode, 0);
    }
  }

  /** Under whole-word matching a key is found only where plain matching finds it too. */
  lemma WholeWordFindsLess(t: string, key: string)
    ensures KeyOccurs(t, key, WholeWord) ==> KeyOccurs(t, key, Substring)
  {
  }
}

/** The metadata read out of a posting's description and location together. */
module Enhance {
  import opened Wrappers
  import opened Text
  import opened Models
  import opened Signals
  import opened Currency

  /** The experience bounds, the visa flag and the salary currency of a posting. */
  datatype Metadata = Metadata(
    yoeMin: Option<int>,
    yoeMax: Option<int>,
    visaSponsorship: Option<bool>,
    currency: Option<string>)

  /** The text the signals are read from: the description, a space, the location. */
  function SignalText(description: string, location: string): string {
    description + " " + location
  }

  /**
   * `enhance_job_with_metadata`, as written: the experience bounds come from
   * the one-character separator class and the currency from plain substring
   * matching. The visa flag is reported as true or absent, never as false.
   */
  method EnhanceJobWithMetadata(description: string, location: string) returns (m: Metadata)
    ensures m.yoeMin == ExtractYoeAsWritten(SignalText(description, location)).min
    ensures m.yoeMax == ExtractYoeAsWritten(SignalText(description, location)).max
    ensures m.visaSponsorship.Some? <==>
              exists k :: 0 <= k < |VISA_KEYWORDS| && Contains(Lower(SignalText(description, location)), VISA_KEYWORDS[k])
    ensures m.visaSponsorship != Some(false)
    ensures m.currency == SalaryCurrency(SignalText(description, location), Substring)
  {
    var text := description + " " + location;
    var yoe := ExtractYoeAsWritten(text);
    var visa := DetectVisaSponsorship(text);
    var currency := ExtractSalaryCurrency(text, Substring);
    m := Metadata(yoe.min, yoe.max, if visa then Some(true) else None, currency);
  }

  /**
   * The same metadata read with the two corrections: "to" separates a range,
   * and a currency key counts only as a word of its own or with a plural "s".
   */
  method EnhanceJobWithMetadataCorrected(description: string, location: string) returns (m: Metadata)
    ensures m.yoeMin == ExtractYoe(SignalText(description, location)).min
    ensures m.yoeMax == ExtractYoe(SignalText(description, location)).max
    ensures m.visaSponsorship.Some? <==>
              exists k :: 0 <= k < |VISA_KEYWORDS| && Contains(Lower(SignalText(description, location)), VISA_KEYWORDS[k])
    ensures m.visaSponsorship != Some(false)
    ensures m.currency == SalaryCurrency(SignalText(description, location), WholeWord)
  {
    var text := description + " " + location;
    var yoe := ExtractYoe(text);
    var visa := DetectVisaSponsorship(text);
    var currency := ExtractSalaryCurrency(text, WholeWord);
    m := Metadata(yoe.min, yoe.max, if visa then Some(true) else None, currency);
  }

  /**
   * Storing the metadata on a valid job keeps it valid, under either reading
   * of the separator and of the currency keys: experience bounds are never negative.
   */
  lemma MetadataFitsJob(j: Job, description: string, location: string, sep: Separator, mode: KeyMatch)
    requires ValidJob(j)
    ensures var text := SignalText(description, location);
            var yoe := ExtractYoeWith(text, sep);
            ValidJob(j.(yoeMin := yoe.min, yoeMax := yoe.max,
                        visaSponsorship := if DetectVisaSponsorship(text) then Some(true) else None,
                        currency := SalaryCurrency(text, mode)))
  {
  }
}
