/**
 * The list of recent critical alerts on the dashboard: how many there are, the
 * name shown for each and its day written the Brazilian way (day/month/year).
 */
module AlertsList {
  import opened Common
  import Strings
  import DashboardService

  type CriticalAlert = DashboardService.CriticalAlert

  /** What a template literal prints for a missing part of a destructured split. */
  const Undefined := "undefined"

  function Part(parts: seq<string>, i: nat): string {
    if i < |parts| then parts[i] else Undefined
  }

  /** `formatDay`: nothing for a missing or empty day; otherwise the three dash-separated parts, reversed and joined by slashes. */
  function FormatDay(day: Option<string>): (r: string)
    ensures r == "" <==> day.None? || day.value == ""
  {
    if day.None? || day.value == "" then ""
    else
      var parts := Strings.Split(day.value, '-');
      Part(parts, 2) + "/" + Part(parts, 1) + "/" + Part(parts, 0)
  }

  /** A "year-month-day" day reads "day/month/year". */
  lemma FormatIsoDay(y: string, m: string, d: string)
    requires '-' !in y && '-' !in m && '-' !in d
    ensures FormatDay(Some(y + "-" + m + "-" + d)) == d + "/" + m + "/" + y
  {
    var parts := [y, m, d];
    assert Strings.Join(parts, '-') == y + "-" + m + "-" + d by {
      assert Strings.Join(parts[1..], '-') == m + "-" + d by {
        assert parts[1..][1..] == [d];
      }
    }
    Strings.SplitJoin(parts, '-');
  }

  /** A day without dashes is taken as the year, and the missing month and day print as "undefined". */
  lemma FormatDayWithoutDashes(day: string)
    requires day != [] && '-' !in day
    ensures FormatDay(Some(day)) == Undefined + "/" + Undefined + "/" + day
  {
    Strings.SplitJoin([day], '-');
  }

  const NoName := "Sem nome"

  /** One line of the list. */
  datatype AlertLine = AlertLine(name: string, score: int, day: string, userId: string)

  function LineOf(a: CriticalAlert): AlertLine {
    AlertLine(a.name.GetOr(NoName), a.score, FormatDay(a.day), a.userId)
  }

  /** The list as shown: missing alerts are an empty list; one line per alert, in order. */
  function Lines(alerts: Option<seq<CriticalAlert>>): (r: seq<AlertLine>)
    ensures |r| == Count(alerts)
    ensures alerts.None? ==> r == []
    ensures forall i :: 0 <= i < |r| ==> alerts.Some? && r[i] == LineOf(alerts.value[i])
  {
    var list := alerts.GetOr([]);
    seq(|list|, i requires 0 <= i < |list| => LineOf(list[i]))
  }

  /** The "N CRÍTICOS" badge: the number of alerts, none when the list is missing. */
  function Count(alerts: Option<seq<CriticalAlert>>): nat {
    |alerts.GetOr([])|
  }

  /** A line shows the alert's own name, or "Sem nome" exactly when it has none. */
  lemma NameFallback(a: CriticalAlert)
    ensures LineOf(a).name == NoName <==> a.name.None? || a.name.value == NoName
    ensures a.name.Some? ==> LineOf(a).name == a.name.value
  {
  }
}
