/**
 * The monthly report service: the label and UTC range of a `YYYY-MM` cycle key,
 * whether a month holds any data, the cycle's metrics, the executive summary built
 * from the AI actions, and the preview (daily averages of the last seven days with
 * scores, the mood donut, the count of critical alerts).
 *
 * The store is given as the rows a query would read: alert and mood timestamps, the
 * rows of the 7-day burnout index and of mood entries. Row filters (`gte`/`lt`) are
 * the predicates of the Store module.
 */
module ReportsService {
  import opened Common
  import Seqs
  import Sorting
  import Strings
  import Store
  import Means
  import Calendar
  import Json

  /** A numeric column as the client receives it. */
  datatype Num = NullNum | Finite(value: real) | NonFinite

  /** `safeNum`: the number when it is finite; `null` reads as 0 and non-finite values as 0. */
  function SafeNum(n: Num): (r: real)
    ensures n.Finite? ==> r == n.value
    ensures !n.Finite? ==> r == 0.0
  {
    match n
    case Finite(v) => v
    case _ => 0.0
  }

  // ----- cycle keys -----

  const MonthNames: seq<string> := [
    "Janeiro", "Fevereiro", "Março", "Abril", "Maio", "Junho",
    "Julho", "Agosto", "Setembro", "Outubro", "Novembro", "Dezembro"
  ]

  /** `Number` of the year piece and of the month piece of a key split at "-" (`undefined` reads as NaN). */
  function KeyNumbers(cycleKey: string): (Option<int>, Option<int>) {
    var parts := Strings.Split(cycleKey, '-');
    (Strings.ParseNumber(parts[0]), if |parts| > 1 then Strings.ParseNumber(parts[1]) else None)
  }

  /** `monthLabelFromKey`: the month's name and the year piece; "Mês" when the month piece is not 1..12. */
  function MonthLabel(cycleKey: string): string {
    var year := Strings.Split(cycleKey, '-')[0];
    var month := KeyNumbers(cycleKey).1;
    (if month.Some? && 1 <= month.value <= 12 then MonthNames[month.value - 1] else "Mês") + " " + year
  }

  /** The label of a well-formed key names its month and repeats its year. */
  lemma MonthLabelOfKey(ym: Calendar.YearMonth)
    requires Calendar.Valid(ym) && 0 <= ym.year <= 9999
    ensures MonthLabel(Calendar.MonthKey(ym)) == MonthNames[ym.month - 1] + " " + Calendar.YearText(ym.year)
  {
    KeyNumbersOfKey(ym);
    Calendar.SplitMonthKey(ym);
  }

  /** A key without a month piece is labelled "Mês" followed by the whole key. */
  lemma MonthLabelWithoutMonth(cycleKey: string)
    requires '-' !in cycleKey
    ensures MonthLabel(cycleKey) == "Mês " + cycleKey
  {
    assert Strings.Join([cycleKey], '-') == cycleKey;
    Strings.SplitJoin([cycleKey], '-');
    assert Strings.Split(cycleKey, '-') == [cycleKey];
    assert KeyNumbers(cycleKey).1 == None;
  }

  /**
   * `monthRangeFromCycleKey`: the ISO texts of midnight UTC on the first day of the
   * key's month and of the month after, as `Date.UTC(y, m - 1, 1)` and `Date.UTC(y, m, 1)`
   * compute them. `None` stands for the `RangeError` that `toISOString` throws when
   * either piece is not a number or the date lies outside the representable range.
   */
  function MonthRange(cycleKey: string): (r: Option<(string, string)>)
    ensures r.Some? ==>
      exists ym :: Calendar.Valid(ym) && r.value == (Calendar.IsoMonthStart(ym), Calendar.IsoMonthStart(Calendar.Next(ym)))
  {
    var numbers := KeyNumbers(cycleKey);
    RangeOfNumbers(numbers.0, numbers.1)
  }

  /** The range part of `monthRangeFromCycleKey`, from the two numbers read off the key. */
  function RangeOfNumbers(y: Option<int>, m: Option<int>): (r: Option<(string, string)>)
    ensures r.Some? ==>
      exists ym :: Calendar.Valid(ym) && r.value == (Calendar.IsoMonthStart(ym), Calendar.IsoMonthStart(Calendar.Next(ym)))
  {
    if y.None? || m.None? then None
    else
      var year := Calendar.UtcYear(y.value);
      var start := Calendar.MonthOf(year, m.value - 1);
      var end := Calendar.MonthOf(year, m.value);
      if Calendar.Representable(start) && Calendar.Representable(end) then
        Calendar.MonthOfSucc(year, m.value - 1);
        assert end == Calendar.Next(start);
        Some((Calendar.IsoMonthStart(start), Calendar.IsoMonthStart(end)))
      else None
  }

  /** The range of a key written by the app is that month, up to the first instant of the next one. */
  lemma MonthRangeOfKey(ym: Calendar.YearMonth)
    requires Calendar.Valid(ym) && 100 <= ym.year <= 9999
    ensures MonthRange(Calendar.MonthKey(ym))
      == Some((Calendar.IsoMonthStart(ym), Calendar.IsoMonthStart(Calendar.Next(ym))))
  {
    KeyNumbersOfKey(ym);
    RangeOfPieces(Calendar.MonthKey(ym), ym.year, ym.month);
    RangeOfMonth(ym.year, ym);
  }

  /** The range of a key depends only on the two numbers read off it. */
  lemma RangeOfPieces(cycleKey: string, y: int, m: int)
    requires KeyNumbers(cycleKey) == (Some(y), Some(m))
    ensures MonthRange(cycleKey) == RangeOfNumbers(Some(y), Some(m))
  {
  }

  /** A year piece `y` that `Date.UTC` reads as the four-digit year of `ym` gives the range of `ym`. */
  lemma RangeOfMonth(y: int, ym: Calendar.YearMonth)
    requires Calendar.Valid(ym) && 100 <= ym.year <= 9999 && Calendar.UtcYear(y) == ym.year
    ensures RangeOfNumbers(Some(y), Some(ym.month)) == Some((Calendar.IsoMonthStart(ym), Calendar.IsoMonthStart(Calendar.Next(ym))))
  {
    Calendar.MonthOfInRange(ym.year, ym.month);
    Calendar.MonthOfSucc(ym.year, ym.month - 1);
  }

  /** `Number` reads back both pieces of a key the app writes. */
  lemma KeyNumbersOfKey(ym: Calendar.YearMonth)
    requires Calendar.Valid(ym) && 0 <= ym.year <= 9999
    ensures KeyNumbers(Calendar.MonthKey(ym)) == (Some(ym.year), Some(ym.month))
  {
    Calendar.SplitMonthKey(ym);
    Calendar.ParseMonthKeyParts(ym);
  }

  /** A key whose year piece is 0..99 gets the range of that month in 1900..1999, as `Date.UTC` maps such years. */
  lemma MonthRangeTwoDigitYear(ym: Calendar.YearMonth)
    requires Calendar.Valid(ym) && 0 <= ym.year <= 99
    ensures var century := Calendar.YearMonth(1900 + ym.year, ym.month);
      MonthRange(Calendar.MonthKey(ym))
        == Some((Calendar.IsoMonthStart(century), Calendar.IsoMonthStart(Calendar.Next(century))))
  {
    var century := Calendar.YearMonth(1900 + ym.year, ym.month);
    KeyNumbersOfKey(ym);
    RangeOfPieces(Calendar.MonthKey(ym), ym.year, ym.month);
    RangeOfMonth(ym.year, century);
  }

  // ----- data in a month -----

  /** The row filter `gte("created_at", start).lt("created_at", end)`. */
  function InMonth(start: string, end: string): Option<string> -> bool {
    (t: Option<string>) => Store.InRange(t, start, end)
  }

  /** Whether a month has data, and whether the mood entries had to be counted to know it. */
  datatype DataCheck = DataCheck(hasData: bool, consultedMoods: bool)

  /**
   * `hasAnyDataInMonth`: a month has data when an alert or a mood entry was created
   * in it; the mood entries are only counted when no alert was.
   */
  function HasAnyDataInMonth(start: string, end: string, alertTimes: seq<Option<string>>, moodTimes: seq<Option<string>>): (r: DataCheck)
    ensures r.hasData <==>
      (exists i :: 0 <= i < |alertTimes| && Store.InRange(alertTimes[i], start, end))
      || (exists i :: 0 <= i < |moodTimes| && Store.InRange(moodTimes[i], start, end))
    ensures r.consultedMoods <==> !exists i :: 0 <= i < |alertTimes| && Store.InRange(alertTimes[i], start, end)
  {
    Seqs.CountPositive(alertTimes, InMonth(start, end));
    Seqs.CountPositive(moodTimes, InMonth(start, end));
    if Seqs.Count(alertTimes, InMonth(start, end)) > 0 then DataCheck(true, false)
    else DataCheck(Seqs.Count(moodTimes, InMonth(start, end)) > 0, true)
  }

  // ----- cycle metrics -----

  datatype CycleMetrics = CycleMetrics(
    cycleKey: string,
    cycleLabel: string,
    employeesAnalyzed: nat,
    criticalAlerts: nat,
    burnoutAvg7d: real,
    aiSummary: Option<string>,
    hasData: bool)

  /** A row of the 7-day burnout index. */
  datatype BurnoutIndexRow = BurnoutIndexRow(avgScore7d: Num, createdAt: Option<string>)

  function IndexCreatedAt(r: BurnoutIndexRow): Option<string> {
    r.createdAt
  }

  function IndexInMonth(start: string, end: string): BurnoutIndexRow -> bool {
    (r: BurnoutIndexRow) => Store.InRange(r.createdAt, start, end)
  }

  /** `order("created_at", { ascending: false })`. */
  const NewestIndexFirst := Sorting.ByKey(IndexCreatedAt, Store.DescNullsFirst)

  /**
   * The burnout average of the cycle: `avg_score_7d` of the newest index row of the
   * month (`limit(1).maybeSingle()`), 0 when there is none or its value is null.
   */
  function LatestBurnout(rows: seq<BurnoutIndexRow>, start: string, end: string): real {
    var inMonth := Seqs.Filter(rows, IndexInMonth(start, end));
    if inMonth == [] then 0.0 else SafeNum(Sorting.Sort(inMonth, NewestIndexFirst)[0].avgScore7d)
  }

  /** A non-zero burnout average is the value of a row of the month created no earlier than any other. */
  lemma LatestBurnoutIsNewest(rows: seq<BurnoutIndexRow>, start: string, end: string)
    ensures var b := LatestBurnout(rows, start, end);
      b != 0.0 ==>
        exists x :: x in rows && Store.InRange(x.createdAt, start, end) && x.avgScore7d == Finite(b)
          && (forall y :: y in rows && Store.InRange(y.createdAt, start, end) ==> Store.DescNullsFirst(x.createdAt, y.createdAt))
  {
    var inMonth := Seqs.Filter(rows, IndexInMonth(start, end));
    if inMonth != [] {
      NewestIndexIsFirst(inMonth);
      var x := Sorting.Sort(inMonth, NewestIndexFirst)[0];
      forall y | y in rows && Store.InRange(y.createdAt, start, end) ensures Store.DescNullsFirst(x.createdAt, y.createdAt) {
        Seqs.FilterKeeps(rows, IndexInMonth(start, end), y);
      }
    }
  }

  lemma NewestIndexIsFirst(rows: seq<BurnoutIndexRow>)
    requires rows != []
    ensures Sorting.Sort(rows, NewestIndexFirst)[0] in rows
    ensures forall y :: y in rows ==> Store.DescNullsFirst(Sorting.Sort(rows, NewestIndexFirst)[0].createdAt, y.createdAt)
  {
    var x := Sorting.Sort(rows, NewestIndexFirst)[0];
    Store.DescIsTotalPreorder();
    Sorting.ByKeyPreorder(IndexCreatedAt, Store.DescNullsFirst);
    Sorting.SortedFirstLeast(rows, NewestIndexFirst);
    Sorting.SortSameElements(rows, NewestIndexFirst, x);
    forall y | y in rows ensures Store.DescNullsFirst(x.createdAt, y.createdAt) {
      Sorting.ByKeyApply(IndexCreatedAt, Store.DescNullsFirst, x, y);
    }
  }

  /** The message of the `RangeError` that `toISOString` throws on an invalid date. */
  const InvalidTimeMessage: string := "Invalid time value"

  /**
   * `fetchCycleMetrics`. `employeeRead` is the row count of the company's employees, or
   * the error of that read; `alertsReadError` the error of the month's alert count read,
   * if any. A `Failure` is what the function throws: the `RangeError` of an unusable key,
   * or the error of a failed count read once the month has data. A month without data
   * reports zeros; the summary is never filled in here.
   */
  function FetchCycleMetrics(
    cycleKey: string, alertTimes: seq<Option<string>>, moodTimes: seq<Option<string>>,
    employeeRead: Result<nat, string>, alertsReadError: Option<string>, burnoutRows: seq<BurnoutIndexRow>): (r: Result<CycleMetrics, string>)
    ensures MonthRange(cycleKey).None? ==> r == Failure(InvalidTimeMessage)
    ensures r.Failure? <==>
      MonthRange(cycleKey).None?
      || (HasAnyDataInMonth(MonthRange(cycleKey).value.0, MonthRange(cycleKey).value.1, alertTimes, moodTimes).hasData
          && (employeeRead.Failure? || alertsReadError.Some?))
    ensures MonthRange(cycleKey).Some? && employeeRead.Failure?
      && HasAnyDataInMonth(MonthRange(cycleKey).value.0, MonthRange(cycleKey).value.1, alertTimes, moodTimes).hasData
      ==> r == Failure(employeeRead.error)
    ensures MonthRange(cycleKey).Some? && employeeRead.Success? && alertsReadError.Some?
      && HasAnyDataInMonth(MonthRange(cycleKey).value.0, MonthRange(cycleKey).value.1, alertTimes, moodTimes).hasData
      ==> r == Failure(alertsReadError.value)
    ensures r.Success? ==> r.value.cycleKey == cycleKey && r.value.cycleLabel == MonthLabel(cycleKey) && r.value.aiSummary.None?
    ensures r.Success? ==> var start := MonthRange(cycleKey).value.0; var end := MonthRange(cycleKey).value.1;
      (r.value.hasData <==> HasAnyDataInMonth(start, end, alertTimes, moodTimes).hasData)
      && (!r.value.hasData ==> r.value.employeesAnalyzed == 0 && r.value.criticalAlerts == 0 && r.value.burnoutAvg7d == 0.0)
      && (r.value.hasData ==>
            r.value.employeesAnalyzed == employeeRead.value
            && r.value.criticalAlerts == Seqs.Count(alertTimes, InMonth(start, end))
            && r.value.burnoutAvg7d == LatestBurnout(burnoutRows, start, end))
  {
    var cycleLabel := MonthLabel(cycleKey);
    var range := MonthRange(cycleKey);
    if range.None? then Failure(InvalidTimeMessage)
    else
      var start := range.value.0;
      var end := range.value.1;
      if !HasAnyDataInMonth(start, end, alertTimes, moodTimes).hasData then
        Success(CycleMetrics(cycleKey, cycleLabel, 0, 0, 0.0, None, false))
      else if employeeRead.Failure? then Failure(employeeRead.error)
      else if alertsReadError.Some? then Failure(alertsReadError.value)
      else
        Success(CycleMetrics(cycleKey, cycleLabel, employeeRead.value, Seqs.Count(alertTimes, InMonth(start, end)),
          LatestBurnout(burnoutRows, start, end), None, true))
  }

  /** A month reported with data has an alert or a mood entry in it, and the reported alerts are there. */
  lemma CycleMetricsHaveData(
    cycleKey: string, alertTimes: seq<Option<string>>, moodTimes: seq<Option<string>>,
    employeeRead: Result<nat, string>, alertsReadError: Option<string>, burnoutRows: seq<BurnoutIndexRow>)
    requires FetchCycleMetrics(cycleKey, alertTimes, moodTimes, employeeRead, alertsReadError, burnoutRows).Success?
    ensures var m := FetchCycleMetrics(cycleKey, alertTimes, moodTimes, employeeRead, alertsReadError, burnoutRows).value;
      var start := MonthRange(cycleKey).value.0; var end := MonthRange(cycleKey).value.1;
      (m.criticalAlerts > 0 ==> m.hasData)
      && (m.hasData <==> exists t :: (t in alertTimes || t in moodTimes) && Store.InRange(t, start, end))
  {
    var start := MonthRange(cycleKey).value.0; var end := MonthRange(cycleKey).value.1;
    Seqs.CountPositive(alertTimes, InMonth(start, end));
    var d := HasAnyDataInMonth(start, end, alertTimes, moodTimes);
    if d.hasData {
      if exists i :: 0 <= i < |alertTimes| && Store.InRange(alertTimes[i], start, end) {
        var i :| 0 <= i < |alertTimes| && Store.InRange(alertTimes[i], start, end);
        assert alertTimes[i] in alertTimes;
      } else {
        var i :| 0 <= i < |moodTimes| && Store.InRange(moodTimes[i], start, end);
        assert moodTimes[i] in moodTimes;
      }
    }
  }

  // ----- executive summary -----

  /** `String(a?.key ?? "").trim()`. */
  function FieldText(a: Json.Json, key: string, numberText: real -> string): (r: string)
    ensures r == Strings.Trim(r)
  {
    var v := Json.Get(Some(a), key);
    var r := if v.None? || v.value.JNull? then "" else Strings.Trim(Json.Text(v.value, numberText));
    Strings.TrimIdempotent(if v.None? || v.value.JNull? then "" else Json.Text(v.value, numberText));
    r
  }

  const BulletMark: string := "• "
  const WhySeparator: string := " — "

  /** One line of the summary: the title, then the reason after a dash when there is one. */
  function BulletLine(title: string, why: string): string {
    BulletMark + title + (if why != "" then WhySeparator + why else "")
  }

  function Bullet(a: Json.Json, numberText: real -> string): string {
    BulletLine(FieldText(a, "title", numberText), FieldText(a, "why", numberText))
  }

  function BulletOf(numberText: real -> string): Json.Json -> string {
    (a: Json.Json) => Bullet(a, numberText)
  }

  /** `fetchAiActions`: the `actions` member of the function's reply when it is an array, otherwise none. */
  function ActionsOf(reply: Json.Json): (r: seq<Json.Json>)
    ensures r != [] ==> Json.Get(Some(reply), "actions") == Some(Json.JArr(r))
  {
    match Json.Get(Some(reply), "actions")
    case Some(JArr(items)) => items
    case _ => []
  }

  /** `generateAiSummary`: at most three bullets, one per line; nothing for an empty list. */
  function GenerateAiSummary(actions: seq<Json.Json>, numberText: real -> string): (r: Option<string>)
    ensures r.None? <==> actions == []
  {
    if actions == [] then None
    else Some(Strings.Join(Seqs.Map(Seqs.Take(actions, 3), BulletOf(numberText)), '\n'))
  }

  /** A line starts with the bullet mark and the title, and carries the reason exactly when there is one. */
  lemma BulletLineParts(title: string, why: string)
    ensures var b := BulletLine(title, why);
      |BulletMark| + |title| <= |b|
      && b[..|BulletMark|] == BulletMark
      && b[|BulletMark|..|BulletMark| + |title|] == title
      && (why == "" <==> |b| == |BulletMark| + |title|)
      && (why != "" ==> b[|BulletMark| + |title|..] == WhySeparator + why)
  {
    var rest := if why != "" then WhySeparator + why else "";
    var b := BulletMark + title + rest;
    assert b[..|BulletMark|] == BulletMark;
    assert b[|BulletMark|..|BulletMark| + |title|] == title;
    assert b[|BulletMark| + |title|..] == rest;
  }

  /**
   * The summary has one line per action among the first three, each the action's
   * bullet, as long as no title or reason spans lines.
   */
  lemma AiSummaryLines(actions: seq<Json.Json>, numberText: real -> string)
    requires actions != []
    requires forall i :: 0 <= i < |actions| && i < 3 ==> '\n' !in Bullet(actions[i], numberText)
    ensures var lines := Strings.Split(GenerateAiSummary(actions, numberText).value, '\n');
      |lines| == (if |actions| < 3 then |actions| else 3)
      && forall i :: 0 <= i < |lines| ==> lines[i] == Bullet(actions[i], numberText)
  {
    var first := Seqs.Take(actions, 3);
    var bullets := Seqs.Map(first, BulletOf(numberText));
    assert forall i :: 0 <= i < |first| ==> first[i] == actions[i];
    assert forall i :: 0 <= i < |bullets| ==> bullets[i] == Bullet(actions[i], numberText);
    Strings.SplitJoin(bullets, '\n');
  }

  // ----- daily averages of the preview -----

  /** A mood entry as the preview reads it. */
  datatype MoodRow = MoodRow(score: Num, createdAt: Option<string>, day: Option<string>)

  /** One point of the "last 7" chart. */
  datatype DayAverage = DayAverage(day: string, avgScore: real)

  /** A row counts towards the averages when its score lies within 1..5. */
  predicate Scored(r: MoodRow) {
    1.0 <= SafeNum(r.score) <= 5.0
  }

  /** The first ten characters of `day` when it is set, otherwise of `created_at` ("null" when that is missing too). */
  function DayKey(r: MoodRow): string {
    if r.day.Some? && r.day.value != [] then Seqs.Take(r.day.value, 10)
    else if r.createdAt.Some? then Seqs.Take(r.createdAt.value, 10)
    else "null"
  }

  /** The sum and the number of the scores counted for `day`. */
  function DayTotal(rows: seq<MoodRow>, day: string): (t: (real, nat))
    ensures (t.1 as real) <= t.0 <= 5.0 * (t.1 as real)
  {
    if rows == [] then (0.0, 0)
    else
      var prev := DayTotal(rows[..|rows| - 1], day);
      var r := rows[|rows| - 1];
      if Scored(r) && DayKey(r) == day then (prev.0 + SafeNum(r.score), prev.1 + 1) else prev
  }

  /** The days with a counted score, in the order their first counted row appears (the `Map`'s key order). */
  function DayKeys(rows: seq<MoodRow>): (keys: seq<string>)
    ensures Seqs.Distinct(keys)
    ensures forall k :: k in keys <==> DayTotal(rows, k).1 > 0
  {
    if rows == [] then []
    else
      var prev := DayKeys(rows[..|rows| - 1]);
      var r := rows[|rows| - 1];
      if Scored(r) && DayKey(r) !in prev then prev + [DayKey(r)] else prev
  }

  /** `avgScore: v.n ? v.sum / v.n : 0`. */
  function DayAverageOf(rows: seq<MoodRow>, day: string): DayAverage {
    var t := DayTotal(rows, day);
    DayAverage(day, Means.Mean(t.0, t.1))
  }

  function AverageFor(rows: seq<MoodRow>): string -> DayAverage {
    (day: string) => DayAverageOf(rows, day)
  }

  predicate PositiveAverage(x: DayAverage) {
    x.avgScore > 0.0
  }

  function DayOf(x: DayAverage): string {
    x.day
  }

  /** `sort((a, b) => a.day.localeCompare(b.day))`. */
  const EarliestDayFirst := Sorting.ByKey(DayOf, Strings.Le)

  /** `Array.from(map.entries()).map(...)`. */
  function DayAverages(rows: seq<MoodRow>): seq<DayAverage> {
    Seqs.Map(DayKeys(rows), AverageFor(rows))
  }

  /** `.filter((x) => x.avgScore > 0).sort(...)`. */
  function SortedDays(rows: seq<MoodRow>): seq<DayAverage> {
    Sorting.Sort(Seqs.Filter(DayAverages(rows), PositiveAverage), EarliestDayFirst)
  }

  /** The "last 7" series: the last seven of the day averages in day order. */
  function Last7Of(rows: seq<MoodRow>): seq<DayAverage> {
    Seqs.TakeLast(SortedDays(rows), 7)
  }

  /** The `Map` after a prefix of the rows: one entry per day with counted scores, holding their sum and number. */
  ghost predicate Grouped(rows: seq<MoodRow>, sums: map<string, (real, nat)>, keys: seq<string>) {
    keys == DayKeys(rows)
    && (forall k :: k in sums <==> k in keys)
    && (forall k :: k in sums ==> sums[k] == DayTotal(rows, k))
  }

  /** A row `r` without a counted score leaves the grouping of `pre` as it was. */
  lemma GroupSkip(pre: seq<MoodRow>, post: seq<MoodRow>, r: MoodRow, sums: map<string, (real, nat)>, keys: seq<string>)
    requires post != [] && post[..|post| - 1] == pre && post[|post| - 1] == r
    requires !Scored(r) && Grouped(pre, sums, keys)
    ensures Grouped(post, sums, keys)
  {
    KeysSnoc(pre, post, r);
    forall k ensures DayTotal(post, k) == DayTotal(pre, k) {
      TotalSnoc(pre, post, r, k);
    }
  }

  /** A row `r` with a counted score is added to its day's entry, and a new day is appended to the keys. */
  lemma GroupAdd(pre: seq<MoodRow>, post: seq<MoodRow>, r: MoodRow, sums: map<string, (real, nat)>, keys: seq<string>,
                 sums': map<string, (real, nat)>, keys': seq<string>)
    requires post != [] && post[..|post| - 1] == pre && post[|post| - 1] == r
    requires Scored(r) && Grouped(pre, sums, keys)
    requires var key := DayKey(r);
      var cur := if key in sums then sums[key] else (0.0, 0);
      sums' == sums[key := (cur.0 + SafeNum(r.score), cur.1 + 1)] && keys' == if key in keys then keys else keys + [key]
    ensures Grouped(post, sums', keys')
  {
    var key := DayKey(r);
    TotalSnoc(pre, post, r, key);
    KeysSnoc(pre, post, r);
    forall k ensures k in sums' <==> k in keys' {
      assert k in sums <==> k in keys;
    }
    forall k | k in sums' ensures sums'[k] == DayTotal(post, k) {
      TotalSnoc(pre, post, r, k);
    }
  }

  /** `DayTotal` over `pre` with one more row `r`. */
  lemma TotalSnoc(pre: seq<MoodRow>, post: seq<MoodRow>, r: MoodRow, k: string)
    requires post != [] && post[..|post| - 1] == pre && post[|post| - 1] == r
    ensures DayTotal(post, k) == if Scored(r) && DayKey(r) == k then (DayTotal(pre, k).0 + SafeNum(r.score), DayTotal(pre, k).1 + 1) else DayTotal(pre, k)
  {
  }

  /** `DayKeys` over `pre` with one more row `r`. */
  lemma KeysSnoc(pre: seq<MoodRow>, post: seq<MoodRow>, r: MoodRow)
    requires post != [] && post[..|post| - 1] == pre && post[|post| - 1] == r
    ensures DayKeys(post) == if Scored(r) && DayKey(r) !in DayKeys(pre) then DayKeys(pre) + [DayKey(r)] else DayKeys(pre)
  {
  }

  /** The grouping loop: each counted score is added to its day's sum and count, a new day appended to the keys. */
  method GroupByDay(rows: seq<MoodRow>) returns (sums: map<string, (real, nat)>, keys: seq<string>)
    ensures Grouped(rows, sums, keys)
  {
    sums := map[];
    keys := [];
    for i := 0 to |rows|
      invariant Grouped(rows[..i], sums, keys)
    {
      sums, keys := AddRow(rows, i, sums, keys);
    }
    assert rows[..|rows|] == rows;
  }

  /** The loop body of the grouping: row `i` with a score in [1, 5] is added to its day's entry. */
  method AddRow(rows: seq<MoodRow>, i: nat, sums: map<string, (real, nat)>, keys: seq<string>)
    returns (sums': map<string, (real, nat)>, keys': seq<string>)
    requires i < |rows| && Grouped(rows[..i], sums, keys)
    ensures Grouped(rows[..i + 1], sums', keys')
  {
    var r := rows[i];
    var pre, post := rows[..i], rows[..i + 1];
    assert post[..|post| - 1] == pre && post[|post| - 1] == r;
    var score := SafeNum(r.score);
    if score >= 1.0 && score <= 5.0 {
      var key := DayKey(r);
      var cur := if key in sums then sums[key] else (0.0, 0);
      sums' := sums[key := (cur.0 + score, cur.1 + 1)];
      keys' := keys;
      if key !in keys {
        keys' := keys + [key];
      }
      GroupAdd(pre, post, r, sums, keys, sums', keys');
    } else {
      sums', keys' := sums, keys;
      GroupSkip(pre, post, r, sums, keys);
    }
  }

  /** `Array.from(map.entries()).map(...)`: each day's sum divided by its count, in key order. */
  method AverageEntries(rows: seq<MoodRow>, sums: map<string, (real, nat)>, keys: seq<string>) returns (entries: seq<DayAverage>)
    requires Grouped(rows, sums, keys)
    ensures entries == DayAverages(rows)
  {
    entries := [];
    for j := 0 to |keys|
      invariant |entries| == j
      invariant forall t :: 0 <= t < j ==> entries[t] == DayAverageOf(rows, keys[t])
    {
      var v := sums[keys[j]];
      entries := entries + [DayAverage(keys[j], if v.1 != 0 then v.0 / (v.1 as real) else 0.0)];
    }
  }

  /**
   * The loop of `fetchPreviewInsights` that sums the counted scores per day in a
   * `Map` and turns the entries into the "last 7" series.
   */
  method Last7(rows: seq<MoodRow>) returns (last7: seq<DayAverage>)
    ensures last7 == Last7Of(rows)
  {
    if |rows| == 0 {
      return [];
    }
    var sums, keys := GroupByDay(rows);
    var entries := AverageEntries(rows, sums, keys);
    var sorted := Sorting.Sort(Seqs.Filter(entries, PositiveAverage), EarliestDayFirst);
    last7 := if |sorted| > 7 then sorted[|sorted| - 7..] else sorted;
  }

  /** An entry of the day averages is the average of its own day, a day with counted scores. */
  lemma {:induction false} EntryDay(rows: seq<MoodRow>, x: DayAverage)
    requires x in DayAverages(rows)
    ensures x.day in DayKeys(rows) && x == DayAverageOf(rows, x.day)
  {
    var keys := DayKeys(rows);
    var entries := DayAverages(rows);
    var i :| 0 <= i < |entries| && entries[i] == x;
    assert entries[i] == AverageFor(rows)(keys[i]);
  }

  /** Every day average of the series belongs to a day with counted scores and is their mean. */
  lemma {:induction false} DayAverageOfDay(rows: seq<MoodRow>, x: DayAverage)
    requires x in DayAverages(rows)
    ensures x == DayAverageOf(rows, x.day)
    ensures DayTotal(rows, x.day).1 > 0
    ensures 1.0 <= x.avgScore <= 5.0
  {
    EntryDay(rows, x);
    DayMean(rows, x);
  }

  /** The mean of the scores counted for a day lies in 1..5 and times their number gives their sum. */
  lemma {:induction false} DayMean(rows: seq<MoodRow>, x: DayAverage)
    requires x == DayAverageOf(rows, x.day) && DayTotal(rows, x.day).1 > 0
    ensures 1.0 <= x.avgScore <= 5.0
    ensures x.avgScore * (DayTotal(rows, x.day).1 as real) == DayTotal(rows, x.day).0
  {
    var t := DayTotal(rows, x.day);
    var total, count := t.0, t.1;
    assert 1.0 * (count as real) == count as real;
    Means.MeanBounds(total, count, 1.0, 5.0);
    Means.MeanTimesCount(total, count);
    assert x.avgScore == Means.Mean(total, count);
  }

  /** Each day with counted scores has exactly one entry, which the positive filter keeps. */
  lemma DayAveragesAll(rows: seq<MoodRow>)
    ensures Seqs.Filter(DayAverages(rows), PositiveAverage) == DayAverages(rows)
    ensures Seqs.Distinct(DayAverages(rows))
    ensures forall k :: DayTotal(rows, k).1 > 0 ==> DayAverageOf(rows, k) in DayAverages(rows)
  {
    var entries := DayAverages(rows);
    var keys := DayKeys(rows);
    forall i | 0 <= i < |entries| ensures PositiveAverage(entries[i]) {
      DayAverageOfDay(rows, entries[i]);
    }
    Seqs.FilterAll(entries, PositiveAverage);
    forall i, j | 0 <= i < j < |entries| ensures entries[i] != entries[j] {
      assert entries[i].day == keys[i] && entries[j].day == keys[j];
    }
    forall k | DayTotal(rows, k).1 > 0 ensures DayAverageOf(rows, k) in entries {
      var i :| 0 <= i < |keys| && keys[i] == k;
      assert entries[i] == DayAverageOf(rows, k);
    }
  }

  /** The sorted days are the day averages in day order, each day once. */
  lemma SortedDaysFacts(rows: seq<MoodRow>)
    ensures forall x :: x in SortedDays(rows) <==> x in DayAverages(rows)
    ensures forall i, j :: 0 <= i < j < |SortedDays(rows)| ==>
      Strings.Le(SortedDays(rows)[i].day, SortedDays(rows)[j].day) && SortedDays(rows)[i].day != SortedDays(rows)[j].day
  {
    var entries := DayAverages(rows);
    var sorted := SortedDays(rows);
    DayAveragesAll(rows);
    forall x ensures x in sorted <==> x in entries {
      Sorting.SortSameElements(entries, EarliestDayFirst, x);
    }
    Strings.LeIsTotalPreorder();
    Sorting.ByKeyPreorder(DayOf, Strings.Le);
    Sorting.SortSorted(entries, EarliestDayFirst);
    forall x ensures multiset(sorted)[x] <= multiset(entries)[x] {
    }
    Seqs.DistinctPermutation(entries, sorted);
    forall i, j | 0 <= i < j < |sorted|
      ensures Strings.Le(sorted[i].day, sorted[j].day) && sorted[i].day != sorted[j].day
    {
      Sorting.ByKeyApply(DayOf, Strings.Le, sorted[i], sorted[j]);
      assert sorted[i] in entries && sorted[j] in entries;
      DayAverageOfDay(rows, sorted[i]);
      DayAverageOfDay(rows, sorted[j]);
    }
  }

  /** The series holds at most seven days, strictly increasing. */
  lemma Last7Ordered(rows: seq<MoodRow>)
    ensures var r := Last7Of(rows);
      |r| <= 7
      && forall i, j :: 0 <= i < j < |r| ==> Strings.Le(r[i].day, r[j].day) && r[i].day != r[j].day
  {
    var sorted := SortedDays(rows);
    var r := Last7Of(rows);
    var off := |sorted| - |r|;
    SortedDaysFacts(rows);
    forall i, j | 0 <= i < j < |r| ensures Strings.Le(r[i].day, r[j].day) && r[i].day != r[j].day {
      assert r[i] == sorted[off + i] && r[j] == sorted[off + j];
    }
  }

  /** Each point of the series is the mean of the scores counted for its day, which lies in 1..5. */
  lemma {:induction false} Last7Means(rows: seq<MoodRow>, x: DayAverage)
    requires x in Last7Of(rows)
    ensures var t := DayTotal(rows, x.day);
      t.1 > 0 && 1.0 <= x.avgScore <= 5.0 && x.avgScore * (t.1 as real) == t.0
  {
    var sorted := SortedDays(rows);
    var r := Last7Of(rows);
    var i :| 0 <= i < |r| && r[i] == x;
    assert sorted[|sorted| - |r| + i] == x;
    SortedDaysFacts(rows);
    EntryDay(rows, x);
    DayMean(rows, x);
  }

  /** A day with counted scores missing from the series comes before every day in it, and the series is full. */
  lemma {:induction false} Last7KeepsLatest(rows: seq<MoodRow>, day: string)
    requires DayTotal(rows, day).1 > 0
    requires forall x :: x in Last7Of(rows) ==> x.day != day
    ensures |Last7Of(rows)| == 7
    ensures forall x :: x in Last7Of(rows) ==> Strings.Le(day, x.day)
  {
    var sorted := SortedDays(rows);
    var r := Last7Of(rows);
    var off := |sorted| - |r|;
    var p := DroppedPosition(rows, day);
    forall x | x in r ensures Strings.Le(day, x.day) {
      var i :| 0 <= i < |r| && r[i] == x;
      assert sorted[off + i] == x;
      SortedDayBefore(rows, p, off + i);
    }
  }

  /** A day with counted scores that the series leaves out sits before the series' first position. */
  lemma DroppedPosition(rows: seq<MoodRow>, day: string) returns (p: nat)
    requires DayTotal(rows, day).1 > 0
    requires forall x :: x in Last7Of(rows) ==> x.day != day
    ensures p < |SortedDays(rows)| - |Last7Of(rows)| && SortedDays(rows)[p].day == day
  {
    var sorted := SortedDays(rows);
    var r := Last7Of(rows);
    var off := |sorted| - |r|;
    DayInSorted(rows, day);
    p :| p < |sorted| && sorted[p] == DayAverageOf(rows, day);
    forall q | off <= q < |sorted| ensures sorted[q] in r {
      assert r[q - off] == sorted[q];
    }
  }

  /** A day with counted scores has its average among the sorted days. */
  lemma DayInSorted(rows: seq<MoodRow>, day: string)
    requires DayTotal(rows, day).1 > 0
    ensures DayAverageOf(rows, day) in SortedDays(rows)
  {
    DayAveragesAll(rows);
    SortedDaysFacts(rows);
  }

  /** An earlier position among the sorted days holds an earlier day. */
  lemma SortedDayBefore(rows: seq<MoodRow>, i: nat, j: nat)
    requires i < j < |SortedDays(rows)|
    ensures Strings.Le(SortedDays(rows)[i].day, SortedDays(rows)[j].day)
  {
    SortedDaysFacts(rows);
  }

  // ----- mood donut -----

  datatype Donut = Donut(happy: nat, ok: nat, sad: nat)

  predicate Happy(s: real) {
    s >= 4.0
  }

  predicate Neutral(s: real) {
    s == 3.0
  }

  /** What the `else if (s > 0)` branch counts: positive scores that are neither happy nor neutral. */
  predicate Sad(s: real) {
    0.0 < s < 4.0 && s != 3.0
  }

  predicate Positive(s: real) {
    s > 0.0
  }

  predicate HappyOrNeutral(s: real) {
    Happy(s) || Neutral(s)
  }

  /** The donut of a set of scores; none for no rows at all. */
  function DonutOf(scores: seq<Num>): Option<Donut> {
    if scores == [] then None
    else
      var v := Seqs.Map(scores, SafeNum);
      Some(Donut(Seqs.Count(v, Happy), Seqs.Count(v, Neutral), Seqs.Count(v, Sad)))
  }

  /** The counting loop of the donut. */
  method MoodDonut(scores: seq<Num>) returns (donut: Option<Donut>)
    ensures donut == DonutOf(scores)
  {
    if |scores| == 0 {
      return None;
    }
    var happy, ok, sad := 0, 0, 0;
    ghost var v := Seqs.Map(scores, SafeNum);
    for i := 0 to |scores|
      invariant happy == Seqs.Count(v[..i], Happy)
      invariant ok == Seqs.Count(v[..i], Neutral)
      invariant sad == Seqs.Count(v[..i], Sad)
    {
      var s := SafeNum(scores[i]);
      assert v[..i + 1] == v[..i] + [s];
      Seqs.CountAppend(v[..i], [s], Happy);
      Seqs.CountAppend(v[..i], [s], Neutral);
      Seqs.CountAppend(v[..i], [s], Sad);
      if s >= 4.0 {
        happy := happy + 1;
      } else if s == 3.0 {
        ok := ok + 1;
      } else if s > 0.0 {
        sad := sad + 1;
      }
    }
    assert v[..|scores|] == v;
    donut := Some(Donut(happy, ok, sad));
  }

  /** The three slices split the positive scores: every positive score is in exactly one. */
  lemma DonutPartition(scores: seq<Num>)
    requires scores != []
    ensures var d := DonutOf(scores).value;
      d.happy + d.ok + d.sad == Seqs.Count(Seqs.Map(scores, SafeNum), Positive) <= |scores|
  {
    var v := Seqs.Map(scores, SafeNum);
    Seqs.CountDisjoint(v, Happy, Neutral, HappyOrNeutral);
    Seqs.CountDisjoint(v, HappyOrNeutral, Sad, Positive);
  }

  // ----- preview -----

  /** The parts of the preview that are computed; the others are left out of the model. */
  datatype Preview = Preview(last7: seq<DayAverage>, moodDonut: Option<Donut>, criticalAlerts7d: nat)

  function MoodCreatedAt(r: MoodRow): Option<string> {
    r.createdAt
  }

  function MoodScore(r: MoodRow): Num {
    r.score
  }

  function MoodInMonth(start: string, end: string): MoodRow -> bool {
    (r: MoodRow) => Store.InRange(r.createdAt, start, end)
  }

  function MoodSince(since: string): MoodRow -> bool {
    (r: MoodRow) => Store.AtLeast(r.createdAt, since)
  }

  /** `order("created_at", { ascending: true })`. */
  const OldestMoodFirst := Sorting.ByKey(MoodCreatedAt, Store.AscNullsLast)

  /**
   * `fetchPreviewInsights`. With a cycle key every part is restricted to its month, and
   * a month without data gives an empty preview; without one the series covers the
   * entries since `since` (the clock minus `max(1, days)` days) and the donut and the
   * alert count cover everything. `None` is the `RangeError` of an unusable key.
   */
  function PreviewInsights(cycleKey: Option<string>, since: string, moods: seq<MoodRow>, alertTimes: seq<Option<string>>): (r: Option<Preview>)
    ensures (cycleKey.None? || cycleKey.value == "") ==> r.Some?
    ensures cycleKey.Some? && cycleKey.value != "" ==> (r.None? <==> MonthRange(cycleKey.value).None?)
    ensures r.Some? ==> |r.value.last7| <= 7
    ensures r.Some? && cycleKey.Some? && cycleKey.value != "" ==>
      var start := MonthRange(cycleKey.value).value.0;
      var end := MonthRange(cycleKey.value).value.1;
      r.value.criticalAlerts7d == Seqs.Count(alertTimes, InMonth(start, end))
    ensures r.Some? && (cycleKey.None? || cycleKey.value == "") ==>
      r.value.criticalAlerts7d == |alertTimes| && (r.value.moodDonut.None? <==> moods == [])
    ensures r.Some? && cycleKey.Some? && cycleKey.value != "" ==>
      var start := MonthRange(cycleKey.value).value.0;
      var end := MonthRange(cycleKey.value).value.1;
      var inMonth := Sorting.Sort(Seqs.Filter(moods, MoodInMonth(start, end)), OldestMoodFirst);
      if HasAnyDataInMonth(start, end, alertTimes, Seqs.Map(moods, MoodCreatedAt)).hasData
      then r.value.last7 == Last7Of(inMonth) && r.value.moodDonut == DonutOf(Seqs.Map(inMonth, MoodScore))
      else r.value == Preview([], None, 0)
    ensures r.Some? && (cycleKey.None? || cycleKey.value == "") ==>
      r.value.last7 == Last7Of(Sorting.Sort(Seqs.Filter(moods, MoodSince(since)), OldestMoodFirst))
      && r.value.moodDonut == DonutOf(Seqs.Map(moods, MoodScore))
  {
    if cycleKey.Some? && cycleKey.value != "" then
      var range := MonthRange(cycleKey.value);
      if range.None? then None
      else
        var start := range.value.0;
        var end := range.value.1;
        Seqs.CountPositive(alertTimes, InMonth(start, end));
        if !HasAnyDataInMonth(start, end, alertTimes, Seqs.Map(moods, MoodCreatedAt)).hasData then
          Some(Preview([], None, 0))
        else
          var inMonth := Sorting.Sort(Seqs.Filter(moods, MoodInMonth(start, end)), OldestMoodFirst);
          Last7Ordered(inMonth);
          Some(Preview(Last7Of(inMonth), DonutOf(Seqs.Map(inMonth, MoodScore)), Seqs.Count(alertTimes, InMonth(start, end))))
    else
      var recent := Sorting.Sort(Seqs.Filter(moods, MoodSince(since)), OldestMoodFirst);
      Last7Ordered(recent);
      Some(Preview(Last7Of(recent), DonutOf(Seqs.Map(moods, MoodScore)), |alertTimes|))
  }

  /** With a cycle key, the donut is missing exactly when no mood entry was created in the month. */
  lemma PreviewDonutOfMonth(cycleKey: string, since: string, moods: seq<MoodRow>, alertTimes: seq<Option<string>>)
    requires cycleKey != "" && PreviewInsights(Some(cycleKey), since, moods, alertTimes).Some?
    ensures var start := MonthRange(cycleKey).value.0;
      var end := MonthRange(cycleKey).value.1;
      var donut := PreviewInsights(Some(cycleKey), since, moods, alertTimes).value.moodDonut;
      donut.None? <==> forall x :: x in moods ==> !Store.InRange(x.createdAt, start, end)
  {
    var start := MonthRange(cycleKey).value.0;
    var end := MonthRange(cycleKey).value.1;
    var filtered := Seqs.Filter(moods, MoodInMonth(start, end));
    var inMonth := Sorting.Sort(filtered, OldestMoodFirst);
    MonthMoods(moods, start, end);
    assert |Seqs.Map(inMonth, MoodScore)| == |filtered|;
  }

  /** The month's mood entries are empty exactly when no entry, and no entry's timestamp, falls in the month. */
  lemma MonthMoods(moods: seq<MoodRow>, start: string, end: string)
    ensures var filtered := Seqs.Filter(moods, MoodInMonth(start, end));
      (filtered == [] <==> forall x :: x in moods ==> !Store.InRange(x.createdAt, start, end))
      && (filtered == [] <==> !exists i :: 0 <= i < |moods| && Store.InRange(Seqs.Map(moods, MoodCreatedAt)[i], start, end))
  {
    var filtered := Seqs.Filter(moods, MoodInMonth(start, end));
    forall x | x in moods && Store.InRange(x.createdAt, start, end) ensures x in filtered {
      Seqs.FilterKeeps(moods, MoodInMonth(start, end), x);
    }
    var times := Seqs.Map(moods, MoodCreatedAt);
    forall i | 0 <= i < |times| ensures times[i] == moods[i].createdAt {
    }
    if filtered != [] {
      assert filtered[0] in moods && Store.InRange(filtered[0].createdAt, start, end);
      var i :| 0 <= i < |moods| && moods[i] == filtered[0];
      assert Store.InRange(times[i], start, end);
    }
  }
}
