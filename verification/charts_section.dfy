/**
 * The mood chart: the daily averages put in day order as chart points, the total
 * number of entries they stand for, and the labels of the two axes.
 */
module ChartsSection {
  import opened Common
  import Seqs
  import Sorting
  import Strings
  import DashboardService

  type DailyMoodRow = DashboardService.DailyMoodRow

  /** One point of the chart; `dow` is the weekday letter of the day, or "" when the day is not a date. */
  datatype ChartPoint = ChartPoint(day: string, value: real, entries: int, dow: string)

  function DayOf(r: DailyMoodRow): string {
    r.day
  }

  /** Ascending by day, comparing the day strings. */
  const EarliestDayFirst := Sorting.ByKey(DayOf, Strings.Le)

  /** A row as a point: a missing average or count reads 0; the weekday letter comes from `weekday`. */
  function PointOf(weekday: string -> string): DailyMoodRow -> ChartPoint {
    (r: DailyMoodRow) => ChartPoint(r.day, r.avgScore.GetOr(0.0), r.entries.GetOr(0), weekday(r.day))
  }

  /** `chartData`: a sorted copy of the rows, one point per row, in ascending day order. */
  function ChartData(rows: seq<DailyMoodRow>, weekday: string -> string): (pts: seq<ChartPoint>)
    ensures |pts| == |rows|
    ensures forall i, j :: 0 <= i < j < |pts| ==> Strings.Le(pts[i].day, pts[j].day)
    ensures multiset(pts) == multiset(Seqs.Map(rows, PointOf(weekday)))
  {
    var sorted := Sorting.Sort(rows, EarliestDayFirst);
    var pts := Seqs.Map(sorted, PointOf(weekday));
    Seqs.MapPermutation(sorted, rows, PointOf(weekday));
    assert forall i, j :: 0 <= i < j < |pts| ==> Strings.Le(pts[i].day, pts[j].day) by {
      Strings.LeIsTotalPreorder();
      Sorting.ByKeyPreorder(DayOf, Strings.Le);
      Sorting.SortSorted(rows, EarliestDayFirst);
      forall i, j | 0 <= i < j < |pts| ensures Strings.Le(pts[i].day, pts[j].day) {
        Sorting.ByKeyApply(DayOf, Strings.Le, sorted[i], sorted[j]);
      }
    }
    pts
  }

  /** Every row has its point, and every point comes from a row. */
  lemma ChartDataFacts(rows: seq<DailyMoodRow>, weekday: string -> string)
    ensures var pts := ChartData(rows, weekday);
      (forall r :: r in rows ==> PointOf(weekday)(r) in pts)
      && (forall p :: p in pts ==> exists r :: r in rows && PointOf(weekday)(r) == p)
  {
    var sorted := Sorting.Sort(rows, EarliestDayFirst);
    var pts := ChartData(rows, weekday);
    forall r | r in rows ensures PointOf(weekday)(r) in pts {
      Sorting.SortSameElements(rows, EarliestDayFirst, r);
      var k :| 0 <= k < |sorted| && sorted[k] == r;
      assert pts[k] == PointOf(weekday)(r);
    }
    forall p | p in pts ensures exists r :: r in rows && PointOf(weekday)(r) == p {
      var k :| 0 <= k < |pts| && pts[k] == p;
      Sorting.SortSameElements(rows, EarliestDayFirst, sorted[k]);
    }
  }

  function EntriesOf(p: ChartPoint): int {
    p.entries
  }

  function RowEntries(r: DailyMoodRow): int {
    r.entries.GetOr(0)
  }

  /** `totalEntries`: the entries of all points. */
  function TotalEntries(pts: seq<ChartPoint>): int {
    Seqs.Sum(Seqs.Map(pts, EntriesOf))
  }

  /** Sorting does not change the total: it is the sum of the rows' entries, a missing count as 0. */
  lemma TotalEntriesOfRows(rows: seq<DailyMoodRow>, weekday: string -> string)
    ensures TotalEntries(ChartData(rows, weekday)) == Seqs.Sum(Seqs.Map(rows, RowEntries))
  {
    var sorted := Sorting.Sort(rows, EarliestDayFirst);
    assert Seqs.Map(ChartData(rows, weekday), EntriesOf) == Seqs.Map(sorted, RowEntries);
    Seqs.SumMapPermutation(sorted, rows, RowEntries);
  }

  /** A week of points gets weekday ticks. */
  predicate UseWeekTicks(pts: seq<ChartPoint>) {
    |pts| == 7
  }

  /** `formatShortDay`: the text from index 5 on, the "MM-DD" of an ISO date. */
  function FormatShortDay(iso: string): (r: string)
    ensures |iso| >= 5 ==> iso == iso[..5] + r
    ensures |iso| < 5 ==> r == ""
  {
    Strings.SliceFrom(iso, 5)
  }

  /** On an ISO date the short day is its month and day. */
  lemma ShortDayOfIso(year: string, mmdd: string)
    requires |year| == 4
    ensures FormatShortDay(year + "-" + mmdd) == mmdd
  {
    assert (year + "-" + mmdd)[5..] == mmdd;
  }

  /** `xTickFormatter`: the weekday letter of the tick's point on a week, otherwise the short day. */
  function XTick(pts: seq<ChartPoint>, iso: string, idx: int): (r: string)
    ensures UseWeekTicks(pts) && 0 <= idx < |pts| ==> r == pts[idx].dow
    ensures UseWeekTicks(pts) && !(0 <= idx < |pts|) ==> r == ""
    ensures !UseWeekTicks(pts) ==> |iso| >= 5 ==> iso == iso[..5] + r
  {
    if UseWeekTicks(pts) then
      if 0 <= idx < |pts| then pts[idx].dow else ""
    else FormatShortDay(iso)
  }

  const Sad := "Triste"
  const Neutral := "Ok"
  const Happy := "Feliz"

  /** `yTickFormatter`: the mood word of an axis value. */
  function YTick(v: real): (r: string)
    ensures r == Sad <==> v <= 1.0
    ensures r == Neutral <==> 1.0 < v <= 3.0
    ensures r == Happy <==> 3.0 < v <= 5.0
    ensures r == "" <==> v > 5.0
  {
    if v <= 1.0 then Sad
    else if v <= 3.0 then Neutral
    else if v <= 5.0 then Happy
    else ""
  }

  /** The mood word's rank: sad, neutral, happy. */
  function MoodRank(w: string): int {
    if w == Sad then 0 else if w == Neutral then 1 else 2
  }

  /**
   * On the score scale a higher value never reads as a sadder word; the word changes only
   * at 1 and 3, so the five scores read sad, neutral, neutral, happy, happy.
   */
  lemma YTickOrdered(v: real, w: real)
    requires v <= w <= 5.0
    ensures YTick(v) != "" && YTick(w) != ""
    ensures MoodRank(YTick(v)) <= MoodRank(YTick(w))
    ensures MoodRank(YTick(v)) < MoodRank(YTick(w)) <==> (v <= 1.0 < w) || (v <= 3.0 < w)
    ensures YTick(1.0) == Sad && YTick(2.0) == Neutral && YTick(3.0) == Neutral
    ensures YTick(4.0) == Happy && YTick(5.0) == Happy
  {
  }

  /** Above the score scale the axis has no word. */
  lemma YTickAboveScale(v: real)
    ensures YTick(v) == "" <==> v > 5.0
  {
  }
}
