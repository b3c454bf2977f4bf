/**
 * The employees view: the rows of the employee summary mapped to what the table
 * shows, narrowed by a free-text search, and the number of employees with entries.
 */
module EmployeesView {
  import opened Common
  import Seqs
  import Strings
  import DashboardService
  import DashboardView

  type EmployeeRow = DashboardService.EmployeeRow

  /** One table row. */
  datatype EmployeeUI = EmployeeUI(id: string, name: string, entries: int, companyId: Option<string>)

  /** A summary row as the table shows it: a missing name reads "Sem nome", missing entries read 0. */
  function ToUI(r: EmployeeRow): EmployeeUI {
    EmployeeUI(r.userId, DashboardView.NameOrDefault(r), r.entries.GetOr(0), r.companyId)
  }

  /** The lower-cased query occurs in the lower-cased name, id or company id. */
  predicate Matches(q: string, e: EmployeeUI) {
    Strings.Contains(Strings.ToLower(e.name), q)
    || Strings.Contains(Strings.ToLower(e.id), q)
    || Strings.Contains(Strings.ToLower(e.companyId.GetOr("")), q)
  }

  function MatchesBy(q: string): EmployeeUI -> bool {
    (e: EmployeeUI) => Matches(q, e)
  }

  /** `employeesUI`: every row mapped, then kept when a non-blank query matches it. */
  function EmployeesUI(rows: seq<EmployeeRow>, query: string): (r: seq<EmployeeUI>)
    ensures Seqs.IsSubseq(r, Seqs.Map(rows, ToUI))
    ensures Strings.Trim(query) == "" ==> r == Seqs.Map(rows, ToUI)
    ensures Strings.Trim(query) != "" ==>
      forall e :: e in r <==>
        (exists i :: 0 <= i < |rows| && ToUI(rows[i]) == e) && Matches(Strings.ToLower(Strings.Trim(query)), e)
    ensures Strings.Trim(query) != "" ==>
      forall e :: (multiset(r)[e]
        == if Matches(Strings.ToLower(Strings.Trim(query)), e) then multiset(Seqs.Map(rows, ToUI))[e] else 0)
  {
    var mapped := Seqs.Map(rows, ToUI);
    var q := Strings.ToLower(Strings.Trim(query));
    assert forall e :: e in mapped <==> exists i :: 0 <= i < |rows| && ToUI(rows[i]) == e by {
      forall e | e in mapped ensures exists i :: 0 <= i < |rows| && ToUI(rows[i]) == e {
        var i :| 0 <= i < |mapped| && mapped[i] == e;
        assert ToUI(rows[i]) == e;
      }
    }
    if q == [] then
      Seqs.PrefixSubseq(mapped, mapped);
      assert mapped[..|mapped|] == mapped;
      mapped
    else
      MatchingRows(mapped, q);
      Seqs.Filter(mapped, MatchesBy(q))
  }

  /** The rows a query keeps: in order, each matching row, and every copy of it. */
  lemma MatchingRows(mapped: seq<EmployeeUI>, q: string)
    ensures var kept := Seqs.Filter(mapped, MatchesBy(q));
      Seqs.IsSubseq(kept, mapped)
      && (forall e :: e in kept <==> e in mapped && Matches(q, e))
      && (forall e :: multiset(kept)[e] == if Matches(q, e) then multiset(mapped)[e] else 0)
  {
    Seqs.FilterSubseq(mapped, MatchesBy(q));
    forall e | e in mapped && Matches(q, e) ensures e in Seqs.Filter(mapped, MatchesBy(q)) {
      Seqs.FilterKeeps(mapped, MatchesBy(q), e);
    }
    Seqs.FilterCounts(mapped, MatchesBy(q));
  }

  predicate HasEntries(r: EmployeeRow) {
    r.entries.GetOr(0) > 0
  }

  /** `activeCount`: the rows with a positive number of entries, whatever the query. */
  function ActiveCount(rows: seq<EmployeeRow>): (n: nat)
    ensures n <= |rows|
    ensures n > 0 <==> exists i :: 0 <= i < |rows| && rows[i].entries.Some? && rows[i].entries.value > 0
  {
    Seqs.CountPositive(rows, HasEntries);
    Seqs.Count(rows, HasEntries)
  }

  predicate ShownActive(e: EmployeeUI) {
    e.entries > 0
  }

  /** The active count is the number of unfiltered table rows that show a positive entry count. */
  lemma {:induction false} ActiveCountOfTable(rows: seq<EmployeeRow>)
    ensures ActiveCount(rows) == Seqs.Count(Seqs.Map(rows, ToUI), ShownActive)
  {
    if rows != [] {
      ActiveCountOfTable(rows[1..]);
      assert Seqs.Map(rows, ToUI)[1..] == Seqs.Map(rows[1..], ToUI);
    }
  }

  /** The employees view and the dashboard count the same employees as active. */
  lemma {:induction false} ActiveCountIsTracking(rows: seq<EmployeeRow>)
    ensures ActiveCount(rows) == DashboardView.TrackingCount(rows)
  {
    if rows != [] {
      ActiveCountIsTracking(rows[1..]);
    }
  }
}
