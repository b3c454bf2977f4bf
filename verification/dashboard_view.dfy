/**
 * The dashboard view: the two risk classifiers (the burnout tag of the 7-day mean
 * score, where a LOW mean is a high risk, and the entry-weighted 30-day risk, where a
 * HIGH mean is "Alto"), the donut slices, the number of employees being tracked, the
 * names shown on recent critical alerts and the state the loader leaves behind.
 */
module DashboardView {
  import opened Common
  import Seqs
  import Means
  import DashboardService
  import ReportsService

  type EmployeeRow = DashboardService.EmployeeRow
  type DailyMoodRow = DashboardService.DailyMoodRow
  type CriticalAlert = DashboardService.CriticalAlert

  // ----- burnout tag of the 7-day mean -----

  /** The four outcomes of `burnoutMeta`, each with the label and tag it shows. */
  datatype BurnoutLevel = NoData | HighRisk | MediumRisk | NoRisk {
    function Label(): string {
      match this
      case NoData => "Sem dados"
      case HighRisk => "Alto risco"
      case MediumRisk => "Médio risco"
      case NoRisk => "Sem risco"
    }

    function Tag(): string {
      match this
      case NoData => "SEM DADOS"
      case HighRisk => "ALERTA"
      case MediumRisk => "ATENÇÃO"
      case NoRisk => "OK"
    }
  }

  /** `burnoutMeta`: scores 1-2 are a high risk, 3 a medium one, 4-5 none. */
  function BurnoutMeta(avgScore: ReportsService.Num): (r: BurnoutLevel)
    ensures r == NoData <==> !avgScore.Finite? || avgScore.value <= 0.0
    ensures r == HighRisk <==> avgScore.Finite? && 0.0 < avgScore.value <= 2.0
    ensures r == MediumRisk <==> avgScore.Finite? && 2.0 < avgScore.value <= 3.0
    ensures r == NoRisk <==> avgScore.Finite? && avgScore.value > 3.0
  {
    if !avgScore.Finite? || avgScore.value <= 0.0 then NoData
    else if avgScore.value <= 2.0 then HighRisk
    else if avgScore.value <= 3.0 then MediumRisk
    else NoRisk
  }

  /** How alarming a burnout tag is. */
  function Severity(m: BurnoutLevel): nat {
    match m
    case HighRisk => 2
    case MediumRisk => 1
    case _ => 0
  }

  /** For positive means, a larger mean never shows a more severe burnout tag. */
  lemma BurnoutSeverityMonotone(a: real, b: real)
    requires 0.0 < a <= b
    ensures Severity(BurnoutMeta(ReportsService.Finite(b))) <= Severity(BurnoutMeta(ReportsService.Finite(a)))
    ensures BurnoutMeta(ReportsService.Finite(a)) != NoData && BurnoutMeta(ReportsService.Finite(b)) != NoData
  {
  }

  // ----- entry-weighted risk of the daily means -----

  /** A point of `dailyMoodUI`: a missing mean or number of entries reads as 0. */
  datatype DayPoint = DayPoint(day: string, avgScore: real, entries: int)

  function PointOf(row: DailyMoodRow): DayPoint {
    DayPoint(row.day, row.avgScore.GetOr(0.0), row.entries.GetOr(0))
  }

  /** The first `reduce`: the number of entries over all days. */
  function TotalEntries(points: seq<DayPoint>): int {
    if points == [] then 0 else points[0].entries + TotalEntries(points[1..])
  }

  /** The second `reduce`: each day's mean weighted by its number of entries. */
  function WeightedSum(points: seq<DayPoint>): real {
    if points == [] then 0.0 else points[0].avgScore * (points[0].entries as real) + WeightedSum(points[1..])
  }

  /** The classifier's outcome; `avg` is the mean its hint prints, absent without entries. */
  datatype Risk = Risk(level: string, tag: string, avg: Option<real>)

  /**
   * `risk`: the mean of all entries (each day weighted by its entries) classified with
   * the polarity opposite to `burnoutMeta`: a high mean is "Alto".
   */
  function RiskOf(points: seq<DayPoint>): (r: Risk)
    ensures r.avg.None? <==> TotalEntries(points) <= 0
    ensures r.avg.None? ==> r.level == "Sem dados" && r.tag == "—"
    ensures r.avg.Some? ==> (r.level == "Alto" <==> r.avg.value >= 4.0)
    ensures r.avg.Some? ==> (r.level == "Baixo" <==> r.avg.value < 2.5)
    ensures r.avg.Some? ==> r.level in {"Alto", "Moderado", "Baixo"}
    ensures r.avg.Some? ==> (r.tag == "RISCO" <==> r.avg.value >= 4.0)
    ensures r.avg.Some? ==> (r.tag == "ATENÇÃO" <==> 2.5 <= r.avg.value < 4.0)
    ensures r.avg.Some? ==> (r.tag == "OK" <==> r.avg.value < 2.5)
    ensures r.avg.Some? ==> (r.level == "Moderado" <==> 2.5 <= r.avg.value < 4.0)
  {
    var total := TotalEntries(points);
    if total <= 0 then Risk("Sem dados", "—", None)
    else
      var avg := Means.Mean(WeightedSum(points), total);
      if avg >= 4.0 then Risk("Alto", "RISCO", Some(avg))
      else if avg >= 2.5 then Risk("Moderado", "ATENÇÃO", Some(avg))
      else Risk("Baixo", "OK", Some(avg))
  }

  lemma MulMono(a: real, b: real, e: real)
    requires a <= b && e >= 0.0
    ensures a * e <= b * e
  {
    assert b * e - a * e == (b - a) * e;
  }

  lemma Distrib(c: real, x: real, y: real)
    ensures c * (x + y) == c * x + c * y
  {
  }

  /** With no negative counts, the weighted sum lies between the extreme daily means times the entries. */
  lemma WeightedBounds(points: seq<DayPoint>, lo: real, hi: real)
    requires forall i :: 0 <= i < |points| ==> points[i].entries >= 0 && lo <= points[i].avgScore <= hi
    ensures lo * (TotalEntries(points) as real) <= WeightedSum(points) <= hi * (TotalEntries(points) as real)
  {
    WeightedAbove(points, lo);
    WeightedBelow(points, hi);
  }

  lemma {:induction false} WeightedAbove(points: seq<DayPoint>, lo: real)
    requires forall i :: 0 <= i < |points| ==> points[i].entries >= 0 && lo <= points[i].avgScore
    ensures lo * (TotalEntries(points) as real) <= WeightedSum(points)
  {
    if points != [] {
      var e := points[0].entries as real;
      var rest := TotalEntries(points[1..]) as real;
      WeightedAbove(points[1..], lo);
      MulMono(lo, points[0].avgScore, e);
      Distrib(lo, e, rest);
      assert TotalEntries(points) as real == e + rest;
    }
  }

  lemma {:induction false} WeightedBelow(points: seq<DayPoint>, hi: real)
    requires forall i :: 0 <= i < |points| ==> points[i].entries >= 0 && points[i].avgScore <= hi
    ensures WeightedSum(points) <= hi * (TotalEntries(points) as real)
  {
    if points != [] {
      var e := points[0].entries as real;
      var rest := TotalEntries(points[1..]) as real;
      WeightedBelow(points[1..], hi);
      MulMono(points[0].avgScore, hi, e);
      Distrib(hi, e, rest);
      assert TotalEntries(points) as real == e + rest;
    }
  }

  /** The weighted mean lies between the smallest and the largest daily mean. */
  lemma RiskBounds(points: seq<DayPoint>, lo: real, hi: real)
    requires forall i :: 0 <= i < |points| ==> points[i].entries >= 0 && lo <= points[i].avgScore <= hi
    requires TotalEntries(points) > 0
    ensures RiskOf(points).avg.Some? && lo <= RiskOf(points).avg.value <= hi
  {
    WeightedMeanBounds(points, lo, hi);
    RiskAvg(points);
  }

  /** The weighted sum over the entries lies between the extreme daily means. */
  lemma WeightedMeanBounds(points: seq<DayPoint>, lo: real, hi: real)
    requires forall i :: 0 <= i < |points| ==> points[i].entries >= 0 && lo <= points[i].avgScore <= hi
    requires TotalEntries(points) > 0
    ensures lo <= Means.Mean(WeightedSum(points), TotalEntries(points)) <= hi
  {
    var sum, total := WeightedSum(points), TotalEntries(points);
    WeightedBounds(points, lo, hi);
    assert lo * (total as real) <= sum <= hi * (total as real);
    Means.MeanBounds(sum, total, lo, hi);
  }

  /** With entries, the risk's average is the weighted sum over the entries. */
  lemma RiskAvg(points: seq<DayPoint>)
    requires TotalEntries(points) > 0
    ensures RiskOf(points).avg == Some(Means.Mean(WeightedSum(points), TotalEntries(points)))
  {
  }

  /** With entries, the risk's average times the number of entries is the weighted sum of the daily means. */
  lemma RiskAvgTimesEntries(points: seq<DayPoint>)
    requires TotalEntries(points) > 0
    ensures RiskOf(points).avg.Some? && RiskOf(points).avg.value * (TotalEntries(points) as real) == WeightedSum(points)
  {
    RiskAvg(points);
    Means.MeanTimesCount(WeightedSum(points), TotalEntries(points));
  }

  /**
   * The two classifiers disagree on purpose: days whose mean is 4 or more are "Alto"
   * risk for the weighted classifier and "Sem risco" for the burnout tag, and days
   * whose mean is at most 2 are "Baixo" for the one and "Alto risco" for the other.
   */
  lemma OppositePolarity(points: seq<DayPoint>, a: real)
    requires forall i :: 0 <= i < |points| ==> points[i].entries >= 0 && points[i].avgScore == a
    requires TotalEntries(points) > 0
    ensures a >= 4.0 ==> RiskOf(points).level == "Alto" && BurnoutMeta(ReportsService.Finite(a)) == NoRisk
    ensures 0.0 < a <= 2.0 ==> RiskOf(points).level == "Baixo" && BurnoutMeta(ReportsService.Finite(a)) == HighRisk
  {
    var r := RiskOf(points);
    UniformMean(points, a);
    assert r.avg.Some? && r.avg.value == a;
  }

  /** Days that all share one mean have that mean overall, whatever their entries. */
  lemma UniformMean(points: seq<DayPoint>, a: real)
    requires forall i :: 0 <= i < |points| ==> points[i].entries >= 0 && points[i].avgScore == a
    requires TotalEntries(points) > 0
    ensures RiskOf(points).avg == Some(a)
  {
    RiskBounds(points, a, a);
  }

  // ----- donut slices -----

  datatype Slice = Slice(key: string, name: string, value: int)

  function HighSlice(c45: int): Slice { Slice("c45", "4-5 (Sem risco)", c45) }
  function MediumSlice(c3: int): Slice { Slice("c3", "3 (Médio)", c3) }
  function LowSlice(c12: int): Slice { Slice("c12", "1-2 (Alto)", c12) }

  predicate HasValue(s: Slice) {
    s.value > 0
  }

  /** `donutData`: the buckets in the fixed order 4-5, 3, 1-2, without the empty ones. */
  function DonutData(c12: int, c3: int, c45: int): seq<Slice> {
    Seqs.Filter([HighSlice(c45), MediumSlice(c3), LowSlice(c12)], HasValue)
  }

  /** Only non-empty buckets are drawn, each exactly when its count is positive, in the fixed order. */
  lemma DonutSlices(c12: int, c3: int, c45: int)
    ensures var r := DonutData(c12, c3, c45);
      (forall i :: 0 <= i < |r| ==> r[i].value > 0)
      && Seqs.IsSubseq(r, [HighSlice(c45), MediumSlice(c3), LowSlice(c12)])
    ensures HighSlice(c45) in DonutData(c12, c3, c45) <==> c45 > 0
    ensures MediumSlice(c3) in DonutData(c12, c3, c45) <==> c3 > 0
    ensures LowSlice(c12) in DonutData(c12, c3, c45) <==> c12 > 0
  {
    var all := [HighSlice(c45), MediumSlice(c3), LowSlice(c12)];
    var r := DonutData(c12, c3, c45);
    Seqs.FilterSubseq(all, HasValue);
    forall i | 0 <= i < |r| ensures r[i].value > 0 {
      assert r[i] in r;
    }
    SliceShown(all, 0);
    SliceShown(all, 1);
    SliceShown(all, 2);
  }

  /** A bucket is drawn exactly when its count is positive. */
  lemma SliceShown(all: seq<Slice>, k: nat)
    requires k < |all|
    ensures all[k] in Seqs.Filter(all, HasValue) <==> all[k].value > 0
  {
    Seqs.FilterMultiset(all, HasValue, all[k]);
    assert all[k] in multiset(all);
  }

  // ----- employees -----

  /** `Number(e.entries ?? 0) > 0`. */
  predicate Active(e: EmployeeRow) {
    e.entries.GetOr(0) > 0
  }

  /** `trackingCount`: the number of employees with at least one entry. */
  function TrackingCount(employees: seq<EmployeeRow>): (n: nat)
    ensures n <= |employees|
    ensures n > 0 <==> exists i :: 0 <= i < |employees| && Active(employees[i])
  {
    Seqs.CountPositive(employees, Active);
    Seqs.Count(employees, Active)
  }

  const NoName := "Sem nome"

  function NameOrDefault(e: EmployeeRow): string {
    e.name.GetOr(NoName)
  }

  /** The `Map` filled by `map.set(e.user_id, e.name ?? 'Sem nome')`: a later row with the same id wins. */
  function NameMapOf(rows: seq<EmployeeRow>): (m: map<string, string>)
    ensures forall k :: k in m <==> exists i :: 0 <= i < |rows| && rows[i].userId == k
  {
    if rows == [] then map[]
    else
      var last := rows[|rows| - 1];
      var m := NameMapOf(rows[..|rows| - 1]);
      assert forall i :: 0 <= i < |rows| - 1 ==> rows[..|rows| - 1][i] == rows[i];
      m[last.userId := NameOrDefault(last)]
  }

  /** The name kept for an id is that of the last row carrying it. */
  lemma {:induction false} NameMapLastWins(rows: seq<EmployeeRow>, i: nat)
    requires i < |rows|
    requires forall j :: i < j < |rows| ==> rows[j].userId != rows[i].userId
    ensures NameMapOf(rows)[rows[i].userId] == NameOrDefault(rows[i])
  {
    if i < |rows| - 1 {
      NameMapLastWins(rows[..|rows| - 1], i);
    }
  }

  /** `employeeNameMap`: fills the map row by row. */
  method EmployeeNameMap(rows: seq<EmployeeRow>) returns (m: map<string, string>)
    ensures m == NameMapOf(rows)
  {
    m := map[];
    for i := 0 to |rows|
      invariant m == NameMapOf(rows[..i])
    {
      assert rows[..i + 1][..i] == rows[..i];
      m := m[rows[i].userId := NameOrDefault(rows[i])];
    }
    assert rows[..|rows|] == rows;
  }

  // ----- names on recent alerts -----

  datatype ResolvedAlert = ResolvedAlert(userId: string, name: string, score: int, day: Option<string>, createdAt: Option<string>)

  /** `a.name ?? employeeNameMap.get(a.user_id) ?? 'Sem nome'`. */
  function Resolve(names: map<string, string>): CriticalAlert -> ResolvedAlert {
    (a: CriticalAlert) =>
      var name := if a.name.Some? then a.name.value else if a.userId in names then names[a.userId] else NoName;
      ResolvedAlert(a.userId, name, a.score, a.day, a.createdAt)
  }

  /** `alertsRecentesResolved`: one alert per alert, in order, with everything but the name kept. */
  function ResolvedAlerts(alerts: seq<CriticalAlert>, names: map<string, string>): (r: seq<ResolvedAlert>)
    ensures |r| == |alerts|
    ensures forall i :: 0 <= i < |r| ==>
      r[i].userId == alerts[i].userId && r[i].score == alerts[i].score
      && r[i].day == alerts[i].day && r[i].createdAt == alerts[i].createdAt
  {
    Seqs.Map(alerts, Resolve(names))
  }

  /**
   * The name shown on an alert: its own name if it has one; otherwise the name of the
   * last employee row with the same user, "Sem nome" for a row without a name; and
   * "Sem nome" when no employee row matches.
   */
  lemma ResolvedName(alerts: seq<CriticalAlert>, rows: seq<EmployeeRow>, i: nat)
    requires i < |alerts|
    ensures alerts[i].name.Some? ==> ResolvedAlerts(alerts, NameMapOf(rows))[i].name == alerts[i].name.value
    ensures alerts[i].name.None? && (forall j :: 0 <= j < |rows| ==> rows[j].userId != alerts[i].userId) ==>
      ResolvedAlerts(alerts, NameMapOf(rows))[i].name == NoName
    ensures forall j ::
      (0 <= j < |rows| && rows[j].userId == alerts[i].userId && alerts[i].name.None?
       && (forall k :: j < k < |rows| ==> rows[k].userId != alerts[i].userId)) ==>
      ResolvedAlerts(alerts, NameMapOf(rows))[i].name == NameOrDefault(rows[j])
  {
    var names := NameMapOf(rows);
    assert ResolvedAlerts(alerts, names)[i] == Resolve(names)(alerts[i]);
    forall j | 0 <= j < |rows| && rows[j].userId == alerts[i].userId
      && (forall k :: j < k < |rows| ==> rows[k].userId != alerts[i].userId)
      ensures names[alerts[i].userId] == NameOrDefault(rows[j])
    {
      NameMapLastWins(rows, j);
    }
  }

  // ----- the loaded state -----

  /** What the loader's four queries return. */
  datatype Loaded = Loaded(employees: seq<EmployeeRow>, daily: seq<DailyMoodRow>, burnout: DashboardService.Burnout, critical: seq<CriticalAlert>)

  const LoadError := "Erro ao carregar o dashboard."

  /** Zero counters and no days show no burnout tag, no risk and no donut. */
  lemma NothingToShow()
    ensures BurnoutMeta(ReportsService.Finite(0.0)) == NoData
    ensures RiskOf([]).avg == None
    ensures DonutData(0, 0, 0) == []
  {
    assert [HighSlice(0), MediumSlice(0), LowSlice(0)][1..][1..][1..] == [];
  }

  /** The state of the dashboard view that `load` sets. */
  class Dashboard {
    var loading: bool
    var error: Option<string>
    var trackingCount: nat
    var employees: seq<EmployeeRow>
    var dailyMood: seq<DailyMoodRow>
    var burnoutAvg7d: real
    var burnoutEntries7d: int
    var burnoutCriticalOnes7d: int
    var burnoutC12: int
    var burnoutC3: int
    var burnoutC45: int
    var criticalAlerts: seq<CriticalAlert>

    /** The tracking counter agrees with the employees listed. */
    predicate Consistent()
      reads this
    {
      trackingCount == TrackingCount(employees)
    }

    function Burnout(): BurnoutLevel
      reads this
    {
      BurnoutMeta(ReportsService.Finite(burnoutAvg7d))
    }

    function RiskNow(): Risk
      reads this
    {
      RiskOf(Seqs.Map(dailyMood, PointOf))
    }

    function Donut(): seq<Slice>
      reads this
    {
      DonutData(burnoutC12, burnoutC3, burnoutC45)
    }

    /** The initial state: loading, with nothing to show. */
    constructor()
      ensures loading && error == None && Consistent()
      ensures employees == [] && dailyMood == [] && criticalAlerts == [] && trackingCount == 0
      ensures burnoutAvg7d == 0.0 && burnoutEntries7d == 0 && burnoutCriticalOnes7d == 0
      ensures burnoutC12 == 0 && burnoutC3 == 0 && burnoutC45 == 0
    {
      loading := true;
      error := None;
      trackingCount := 0;
      employees := [];
      dailyMood := [];
      burnoutAvg7d := 0.0;
      burnoutEntries7d := 0;
      burnoutCriticalOnes7d := 0;
      burnoutC12 := 0;
      burnoutC3 := 0;
      burnoutC45 := 0;
      criticalAlerts := [];
    }

    /** The fields a successful load sets, each from its query. */
    method Show(d: Loaded)
      modifies this
      ensures loading == old(loading) && error == old(error) && Consistent()
      ensures employees == d.employees && dailyMood == d.daily && criticalAlerts == d.critical
      ensures burnoutAvg7d == d.burnout.avgScore7d && burnoutEntries7d == d.burnout.entries7d
      ensures burnoutCriticalOnes7d == d.burnout.criticalOnes7d && burnoutC12 == d.burnout.count12
      ensures burnoutC3 == d.burnout.count3 && burnoutC45 == d.burnout.count45
    {
      employees := d.employees;
      trackingCount := TrackingCount(d.employees);
      dailyMood := d.daily;
      burnoutAvg7d := d.burnout.avgScore7d;
      burnoutEntries7d := d.burnout.entries7d;
      burnoutCriticalOnes7d := d.burnout.criticalOnes7d;
      burnoutC12 := d.burnout.count12;
      burnoutC3 := d.burnout.count3;
      burnoutC45 := d.burnout.count45;
      criticalAlerts := d.critical;
    }

    /** The fields a failed load sets: the message, and nothing to show. */
    method Clear(message: string)
      modifies this
      ensures loading == old(loading) && error == Some(message) && Consistent()
      ensures employees == [] && dailyMood == [] && criticalAlerts == [] && trackingCount == 0
      ensures burnoutAvg7d == 0.0 && burnoutEntries7d == 0 && burnoutCriticalOnes7d == 0
      ensures burnoutC12 == 0 && burnoutC3 == 0 && burnoutC45 == 0
    {
      error := Some(message);
      employees := [];
      dailyMood := [];
      trackingCount := 0;
      burnoutAvg7d := 0.0;
      burnoutEntries7d := 0;
      burnoutCriticalOnes7d := 0;
      burnoutC12 := 0;
      burnoutC3 := 0;
      burnoutC45 := 0;
      criticalAlerts := [];
    }

    /** An emptied dashboard shows no burnout tag, no risk and no donut. */
    lemma EmptyShowsNothing()
      requires dailyMood == [] && burnoutAvg7d == 0.0 && burnoutC12 == 0 && burnoutC3 == 0 && burnoutC45 == 0
      ensures Burnout() == NoData && RiskNow().avg == None && Donut() == []
    {
      assert Seqs.Map(dailyMood, PointOf) == [];
      NothingToShow();
    }

    /**
     * `load`: the queries either all return or one of them throws (with an optional
     * message). On success every field takes its query's value; on failure every list
     * is emptied, every counter zeroed and the message shown, so the view shows no data.
     */
    method Load(outcome: Result<Loaded, Option<string>>)
      modifies this
      ensures !loading && Consistent()
      ensures outcome.Success? ==>
        var d := outcome.value;
        error == None && employees == d.employees && dailyMood == d.daily && criticalAlerts == d.critical
        && burnoutAvg7d == d.burnout.avgScore7d && burnoutEntries7d == d.burnout.entries7d
        && burnoutCriticalOnes7d == d.burnout.criticalOnes7d && burnoutC12 == d.burnout.count12
        && burnoutC3 == d.burnout.count3 && burnoutC45 == d.burnout.count45
      ensures outcome.Failure? ==>
        error == Some(outcome.error.GetOr(LoadError))
        && employees == [] && dailyMood == [] && criticalAlerts == [] && trackingCount == 0
        && burnoutAvg7d == 0.0 && burnoutEntries7d == 0 && burnoutCriticalOnes7d == 0
        && burnoutC12 == 0 && burnoutC3 == 0 && burnoutC45 == 0
      ensures outcome.Failure? ==> Burnout() == NoData && RiskNow().avg == None && Donut() == []
    {
      error := None;
      loading := true;
      if outcome.Success? {
        Show(outcome.value);
      } else {
        Clear(outcome.error.GetOr(LoadError));
        EmptyShowsNothing();
      }
      loading := false;
    }
  }
}
