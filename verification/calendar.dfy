/**
 * Months of the proleptic Gregorian calendar as `Date.UTC` and `toISOString` see them:
 * month arithmetic that overflows into the year, the 0..99 year mapping of
 * `Date.UTC`, the range of representable instants, and ISO-8601 text.
 */
module Calendar {
  import opened Common
  import Strings

  /** A month of a year; `month` counts from 1. */
  datatype YearMonth = YearMonth(year: int, month: int)

  predicate Valid(ym: YearMonth) {
    1 <= ym.month <= 12
  }

  /** The month after `ym`: December rolls over to January of the next year. */
  function Next(ym: YearMonth): (r: YearMonth)
    requires Valid(ym)
    ensures Valid(r)
    ensures r.year == ym.year || (ym.month == 12 && r == YearMonth(ym.year + 1, 1))
  {
    if ym.month == 12 then YearMonth(ym.year + 1, 1) else YearMonth(ym.year, ym.month + 1)
  }

  /** The year `Date.UTC` uses for its first argument: 0..99 stand for 1900..1999. */
  function UtcYear(y: int): int {
    if 0 <= y <= 99 then 1900 + y else y
  }

  /** The month `monthIndex` (counting from 0, any integer) of `year`, normalised. */
  function MonthOf(year: int, monthIndex: int): (r: YearMonth)
    ensures Valid(r)
  {
    YearMonth(year + monthIndex / 12, monthIndex % 12 + 1)
  }

  /** Month index m - 1 of year y is month m of year y when 1 <= m <= 12. */
  lemma MonthOfInRange(y: int, m: int)
    requires 1 <= m <= 12
    ensures MonthOf(y, m - 1) == YearMonth(y, m)
  {
  }

  /** One more month index is the next month: this is how the end of a month range is found. */
  lemma MonthOfSucc(y: int, k: int)
    ensures MonthOf(y, k + 1) == Next(MonthOf(y, k))
  {
    if k % 12 == 11 {
      assert (k + 1) / 12 == k / 12 + 1 && (k + 1) % 12 == 0;
    } else {
      assert (k + 1) / 12 == k / 12 && (k + 1) % 12 == k % 12 + 1;
    }
  }

  /**
   * The first instant of `ym` lies within the ±8.64e15 ms an ECMAScript time value can
   * hold: from May of year -271821 to September of year 275760.
   */
  predicate Representable(ym: YearMonth) {
    (ym.year > -271821 || (ym.year == -271821 && ym.month >= 5))
    && (ym.year < 275760 || (ym.year == 275760 && ym.month <= 9))
  }

  /** The year as `toISOString` writes it: four digits, or a sign and six digits outside 0..9999. */
  function YearText(y: int): (r: string)
    ensures 0 <= y <= 9999 ==> |r| == 4 && Strings.AllDigits(r)
  {
    if 0 <= y <= 9999 then
      Strings.DigitsLength(y, 4);
      Strings.PadDigits(y, 4)
    else (if y < 0 then "-" else "+") + Strings.PadDigits(if y < 0 then -y else y, 6)
  }

  /** Two-digit month. */
  function MonthText(m: int): (r: string)
    requires 1 <= m <= 12
    ensures |r| == 2 && Strings.AllDigits(r)
  {
    Strings.DigitsLength(m, 2);
    Strings.PadDigits(m, 2)
  }

  /** `YYYY-MM`. */
  function MonthKey(ym: YearMonth): string
    requires Valid(ym)
  {
    YearText(ym.year) + "-" + MonthText(ym.month)
  }

  /** `YYYY-MM-01`: the date of the first day. */
  function FirstDay(ym: YearMonth): string
    requires Valid(ym)
  {
    MonthKey(ym) + "-01"
  }

  /** `toISOString()` of midnight UTC on the first day of `ym`. */
  function IsoMonthStart(ym: YearMonth): (r: string)
    requires Valid(ym)
    ensures r == FirstDay(ym) + "T00:00:00.000Z"
  {
    FirstDay(ym) + "T00:00:00.000Z"
  }

  /** The two pieces of a `YYYY-MM` key split at "-" are its year and month digits. */
  lemma SplitMonthKey(ym: YearMonth)
    requires Valid(ym) && 0 <= ym.year <= 9999
    ensures Strings.Split(MonthKey(ym), '-') == [YearText(ym.year), MonthText(ym.month)]
  {
    var parts := [YearText(ym.year), MonthText(ym.month)];
    forall i | 0 <= i < |parts| ensures '-' !in parts[i] {
      assert Strings.AllDigits(parts[i]);
      assert forall k :: 0 <= k < |parts[i]| ==> parts[i][k] != '-';
    }
    assert Strings.Join(parts, '-') == MonthKey(ym) by {
      assert parts[1..] == [MonthText(ym.month)];
    }
    Strings.SplitJoin(parts, '-');
  }

  /** `Number` reads back the year and month digits of a key. */
  lemma ParseMonthKeyParts(ym: YearMonth)
    requires Valid(ym) && 0 <= ym.year <= 9999
    ensures Strings.ParseNumber(YearText(ym.year)) == Some(ym.year)
    ensures Strings.ParseNumber(MonthText(ym.month)) == Some(ym.month)
  {
    Strings.ParsePadded(ym.year, 4);
    Strings.ParsePadded(ym.month, 2);
  }
}
