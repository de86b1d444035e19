/**
 * `parse_period_to_days` from `backend/app/utils/analytics.py`: turns a
 * period such as "7days", "3months" or "1years" into a number of days.
 */
module AnalyticsUtils {
  import opened Wrappers
  import opened Text

  /**
   * What a call ends in: a number of days, the `ValueError` that `int()` raises
   * and nothing catches, or the `HTTPException` the function raises itself.
   */
  datatype PeriodResult = Days(days: int) | ValueErrorRaised | HttpError(status: int, detail: string)

  const InvalidPeriod: PeriodResult := HttpError(400, "Invalid period format.")

  /** `int(text) * factor`, with `int`'s failure left uncaught. */
  function Scaled(text: string, factor: int): PeriodResult {
    match PyInt(text)
    case Some(n) => Days(n * factor)
    case None => ValueErrorRaised
  }

  /** The function as written: only the last `int()` sits inside `try`. */
  function ParsePeriodToDays(period: string): PeriodResult {
    if EndsWith(period, "days") then Scaled(Replace(period, "days", ""), 1)
    else if EndsWith(period, "months") then Scaled(Replace(period, "months", ""), 30)
    else if EndsWith(period, "years") then Scaled(Replace(period, "years", ""), 365)
    else
      match PyInt(period)
      case Some(n) => Days(n)
      case None => InvalidPeriod
  }

  /** The suffix test picks the branch; a printed number ends in a digit, so it matches none. */
  lemma NumeralHasNoSuffix(n: int, suffix: string)
    requires |suffix| > 0 && !IsDigit(suffix[|suffix| - 1])
    ensures !EndsWith(IntToString(n), suffix)
  {
  }

  /** Removing a word whose first letter does not occur in a printed number leaves the number. */
  lemma StripUnit(n: int, unit: string)
    requires |unit| > 0 && !IsDigit(unit[0]) && unit[0] != '-'
    ensures Replace(IntToString(n) + unit, unit, "") == IntToString(n)
  {
    IntToStringChars(n);
    ReplaceSkipsTo(IntToString(n), unit, "", "");
    assert IntToString(n) + unit + "" == IntToString(n) + unit;
  }

  lemma EndsWithOwnUnit(prefix: string, unit: string)
    ensures EndsWith(prefix + unit, unit)
  {
    var s := prefix + unit;
    assert s[|s| - |unit|..] == unit;
  }

  lemma EndsWithAfter(prefix: string, s: string, suffix: string)
    requires EndsWith(s, suffix)
    ensures EndsWith(prefix + s, suffix)
  {
    assert (prefix + s)[|prefix + s| - |suffix|..] == s[|s| - |suffix|..];
  }

  /** A text ending in `unit` does not end in `other` when the two differ `k` places from the end. */
  lemma EndsWithOtherUnit(prefix: string, unit: string, other: string, k: nat)
    requires k < |unit| && k < |other|
    requires unit[|unit| - 1 - k] != other[|other| - 1 - k]
    ensures !EndsWith(prefix + unit, other)
  {
    var s := prefix + unit;
    assert s[|s| - 1 - k] == unit[|unit| - 1 - k];
  }

  /** "Ndays" is N days, for every integer N. */
  lemma DaysRoundTrip(n: int)
    ensures ParsePeriodToDays(IntToString(n) + "days") == Days(n)
  {
    EndsWithOwnUnit(IntToString(n), "days");
    StripUnit(n, "days");
    PyIntOfIntToString(n);
  }

  /** "Nmonths" is 30 N days. */
  lemma MonthsRoundTrip(n: int)
    ensures ParsePeriodToDays(IntToString(n) + "months") == Days(n * 30)
  {
    EndsWithOtherUnit(IntToString(n), "months", "days", 1);
    EndsWithOwnUnit(IntToString(n), "months");
    StripUnit(n, "months");
    PyIntOfIntToString(n);
  }

  /** "Nyears" is 365 N days. */
  lemma YearsRoundTrip(n: int)
    ensures ParsePeriodToDays(IntToString(n) + "years") == Days(n * 365)
  {
    EndsWithOtherUnit(IntToString(n), "years", "days", 1);
    EndsWithOtherUnit(IntToString(n), "years", "months", 1);
    EndsWithOwnUnit(IntToString(n), "years");
    StripUnit(n, "years");
    PyIntOfIntToString(n);
  }

  /** A bare integer is that many days. */
  lemma BareIntegerRoundTrip(n: int)
    ensures ParsePeriodToDays(IntToString(n)) == Days(n)
  {
    NumeralHasNoSuffix(n, "days");
    NumeralHasNoSuffix(n, "months");
    NumeralHasNoSuffix(n, "years");
    PyIntOfIntToString(n);
  }

  /** `replace` with the empty string drops a unit that follows text not containing its first letter. */
  lemma DropUnit(x: string, unit: string)
    requires |unit| > 0 && unit[0] !in x
    ensures Replace(x + unit, unit, "") == x
  {
    ReplaceSkipsTo(x, unit, "", "");
    assert x + unit + "" == x + unit;
    assert Replace("", unit, "") == "";
    assert x + "" + "" == x;
  }

  lemma DropUnitTwice(x: string, y: string, unit: string)
    requires |unit| > 0 && unit[0] !in x && unit[0] !in y
    ensures Replace(x + unit + (y + unit), unit, "") == x + y
  {
    ReplaceSkipsTo(x, unit, "", y + unit);
    DropUnit(y, unit);
    assert x + "" == x;
  }

  /**
   * Every occurrence of the unit is removed, not only the final one, and the
   * digits around them run together: "1days2days" is 12 days.
   */
  lemma UnitRemovedEverywhere(a: nat, b: nat)
    ensures ParsePeriodToDays(NatToString(a) + "days" + (NatToString(b) + "days"))
      == Days(DigitsValue(NatToString(a) + NatToString(b)))
  {
    var x, y := NatToString(a), NatToString(b);
    assert 'd' !in x && 'd' !in y;
    EndsWithOwnUnit(y, "days");
    EndsWithAfter(x + "days", y + "days", "days");
    DropUnitTwice(x, y, "days");
    assert AllDigits(x + y);
    PyIntOfDigits(x + y);
  }

  /**
   * A word that does not end in "s", such as the singular "year" or "day", matches
   * no unit and is not an integer, so "1year" and "1day" are the 400 error.
   */
  lemma SingularUnitRejected(n: nat, word: string)
    requires |word| > 0 && !IsDigit(word[0]) && word[|word| - 1] != 's' && !IsSpace(word[|word| - 1], Py)
    ensures ParsePeriodToDays(NatToString(n) + word) == InvalidPeriod
  {
    var x := NatToString(n);
    EndsWithOtherUnit(x, word, "days", 0);
    EndsWithOtherUnit(x, word, "months", 0);
    EndsWithOtherUnit(x, word, "years", 0);
    var s := x + word;
    assert s[0] == x[0] && IsDigit(s[0]);
    assert s[|x|] == word[0];
    PyIntRejects(s, |x|);
  }

  lemma SingularUnitExamples()
    ensures ParsePeriodToDays(NatToString(1) + "year") == InvalidPeriod
    ensures ParsePeriodToDays(NatToString(1) + "day") == InvalidPeriod
  {
    SingularUnitRejected(1, "year");
    SingularUnitRejected(1, "day");
  }

  /**
   * As written, a number `int()` cannot read before "days" escapes as
   * `ValueError` instead of the 400 error; "xdays" is one such input.
   */
  lemma MalformedNumberEscapes(d: string)
    requires 'd' !in d && PyInt(d) == None
    ensures ParsePeriodToDays(d + "days") == ValueErrorRaised
  {
    EndsWithOwnUnit(d, "days");
    DropUnit(d, "days");
  }

  lemma MalformedNumberExample()
    ensures 'd' !in "x" && PyInt("x") == None
  {
    PyIntRejects("x", 0);
  }

  // ---------------------------------------------------------------------------
  // With every `int()` guarded

  /** `int(text) * factor`, where a failure is the 400 error. */
  function ScaledChecked(text: string, factor: int): PeriodResult {
    match PyInt(text)
    case Some(n) => Days(n * factor)
    case None => InvalidPeriod
  }

  /** The period parser with the whole body inside `try`, as the error message intends. */
  function ParsePeriodToDaysChecked(period: string): (r: PeriodResult)
    ensures r != ValueErrorRaised
    ensures r.HttpError? ==> r == InvalidPeriod
  {
    if EndsWith(period, "days") then ScaledChecked(Replace(period, "days", ""), 1)
    else if EndsWith(period, "months") then ScaledChecked(Replace(period, "months", ""), 30)
    else if EndsWith(period, "years") then ScaledChecked(Replace(period, "years", ""), 365)
    else
      match PyInt(period)
      case Some(n) => Days(n)
      case None => InvalidPeriod
  }

  /** The guarded parser agrees with the original on every input the original handles, and answers 400 otherwise. */
  lemma CheckedAgrees(period: string)
    ensures ParsePeriodToDays(period) != ValueErrorRaised ==>
      ParsePeriodToDaysChecked(period) == ParsePeriodToDays(period)
    ensures ParsePeriodToDays(period) == ValueErrorRaised ==>
      ParsePeriodToDaysChecked(period) == InvalidPeriod
  {
  }

  lemma CheckedRejectsMalformedNumber(d: string)
    requires 'd' !in d && PyInt(d) == None
    ensures ParsePeriodToDaysChecked(d + "days") == InvalidPeriod
  {
    MalformedNumberEscapes(d);
    CheckedAgrees(d + "days");
  }
}
