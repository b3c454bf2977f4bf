/**
 * The top bar: the title of the current view, the quick search over the sample
 * employees and alerts, and the open/closed state of its search results and menus.
 */
module Header {
  import Seqs
  import Strings

  // ----- title -----

  const Home := "Início"

  /** The views with a title of their own, and their titles. */
  const ViewTitles: map<string, string> := map[
    "dashboard" := "Painel Geral",
    "employees" := "Colaboradores",
    "evaluations" := "Pesquisas Ativas",
    "reports" := "Central de Dados",
    "alerts" := "Notificações",
    "settings" := "Ajustes"
  ]

  /** `getViewName`: the view's title, or "Início" for any other id. */
  function GetViewName(id: string): (r: string)
    ensures r != ""
    ensures id in ViewTitles ==> r == ViewTitles[id]
    ensures r == Home <==> id !in ViewTitles
  {
    if id in ViewTitles then ViewTitles[id] else Home
  }

  /** Two known views never share a title. */
  lemma ViewTitlesDistinct(a: string, b: string)
    requires a in ViewTitles && b in ViewTitles && a != b
    ensures GetViewName(a) != GetViewName(b)
  {
  }

  // ----- quick search -----

  datatype Employee = Employee(id: string, name: string)
  datatype Alert = Alert(id: string, title: string)

  const MaxEmployees := 3
  const MaxAlerts := 2

  /** Case-insensitive `includes` of the raw query (it is not trimmed). */
  predicate Mentions(text: string, query: string) {
    Strings.Contains(Strings.ToLower(text), Strings.ToLower(query))
  }

  function NameMentions(query: string): Employee -> bool {
    (e: Employee) => Mentions(e.name, query)
  }

  function TitleMentions(query: string): Alert -> bool {
    (a: Alert) => Mentions(a.title, query)
  }

  /**
   * The first `k` elements that satisfy `p`, in order: exactly the matches among some prefix
   * of `s`, `k` of them when there are that many; fewer than `k` only when no other element matches.
   */
  lemma {:induction false} FirstMatches<T>(s: seq<T>, p: T -> bool, k: nat)
    ensures var r := Seqs.Take(Seqs.Filter(s, p), k);
      |r| <= k && Seqs.IsSubseq(r, s)
      && (forall x :: x in r ==> p(x))
      && (|r| < k ==> forall x :: x in s && p(x) ==> x in r)
    ensures var r := Seqs.Take(Seqs.Filter(s, p), k);
      |r| == (if k < Seqs.Count(s, p) then k else Seqs.Count(s, p))
      && exists n :: 0 <= n <= |s| && r == Seqs.Filter(s[..n], p)
  {
    var f := Seqs.Filter(s, p);
    var r := Seqs.Take(f, k);
    Seqs.CountIsFilterLength(s, p);
    assert s[..0] == [];
    Seqs.FilterPrefixReaches(s, p, |r|, 0);
    var m :| 0 <= m <= |s| && |Seqs.Filter(s[..m], p)| == |r|;
    assert s == s[..m] + s[m..];
    Seqs.FilterAppend(s[..m], s[m..], p);
    assert r == Seqs.Filter(s[..m], p);
    Seqs.FilterSubseq(s, p);
    Seqs.TakeSubseq(f, k);
    Seqs.SubseqTrans(r, f, s);
    forall x | x in r ensures p(x) {
      var i :| 0 <= i < |r| && r[i] == x;
      assert x == f[i] && f[i] in f;
    }
    if |r| < k {
      forall x | x in s && p(x) ensures x in r {
        Seqs.FilterKeeps(s, p, x);
      }
    }
  }

  /** `filteredEmployees`: up to three employees whose name mentions the query, in list order. */
  function FilteredEmployees(employees: seq<Employee>, query: string): (r: seq<Employee>)
    ensures |r| <= MaxEmployees && Seqs.IsSubseq(r, employees)
    ensures forall e :: e in r ==> Mentions(e.name, query)
    ensures |r| < MaxEmployees ==> forall e :: e in employees && Mentions(e.name, query) ==> e in r
    ensures |r| == if MaxEmployees < Seqs.Count(employees, NameMentions(query)) then MaxEmployees else Seqs.Count(employees, NameMentions(query))
    ensures exists n :: 0 <= n <= |employees| && r == Seqs.Filter(employees[..n], NameMentions(query))
  {
    FirstMatches(employees, NameMentions(query), MaxEmployees);
    Seqs.Take(Seqs.Filter(employees, NameMentions(query)), MaxEmployees)
  }

  /** `filteredAlerts`: up to two alerts whose title mentions the query, in list order. */
  function FilteredAlerts(alerts: seq<Alert>, query: string): (r: seq<Alert>)
    ensures |r| <= MaxAlerts && Seqs.IsSubseq(r, alerts)
    ensures forall a :: a in r ==> Mentions(a.title, query)
    ensures |r| < MaxAlerts ==> forall a :: a in alerts && Mentions(a.title, query) ==> a in r
    ensures |r| == if MaxAlerts < Seqs.Count(alerts, TitleMentions(query)) then MaxAlerts else Seqs.Count(alerts, TitleMentions(query))
    ensures exists n :: 0 <= n <= |alerts| && r == Seqs.Filter(alerts[..n], TitleMentions(query))
  {
    FirstMatches(alerts, TitleMentions(query), MaxAlerts);
    Seqs.Take(Seqs.Filter(alerts, TitleMentions(query)), MaxAlerts)
  }

  /** Every text mentions the empty query. */
  lemma MentionsEmpty(text: string)
    ensures Mentions(text, "")
  {
    assert Strings.ToLower("") == "";
  }

  /** The empty query matches everything: the first three employees and the first two alerts. */
  lemma EmptyQueryShowsFirst(employees: seq<Employee>, alerts: seq<Alert>)
    ensures FilteredEmployees(employees, "") == Seqs.Take(employees, MaxEmployees)
    ensures FilteredAlerts(alerts, "") == Seqs.Take(alerts, MaxAlerts)
  {
    forall i | 0 <= i < |employees| ensures NameMentions("")(employees[i]) {
      MentionsEmpty(employees[i].name);
    }
    Seqs.FilterAll(employees, NameMentions(""));
    forall i | 0 <= i < |alerts| ensures TitleMentions("")(alerts[i]) {
      MentionsEmpty(alerts[i].title);
    }
    Seqs.FilterAll(alerts, TitleMentions(""));
  }

  // ----- state of the bar -----

  class SearchBar {
    var searchQuery: string
    var showSearchResults: bool
    var isNotificationsOpen: bool
    var isProfileOpen: bool

    /** The results are only ever shown for a non-empty query. */
    predicate Valid()
      reads this
    {
      showSearchResults ==> searchQuery != ""
    }

    constructor()
      ensures Valid()
      ensures searchQuery == "" && !showSearchResults && !isNotificationsOpen && !isProfileOpen
    {
      searchQuery := "";
      showSearchResults := false;
      isNotificationsOpen := false;
      isProfileOpen := false;
    }

    /** Typing: the query becomes the text, and the results show exactly when it is non-empty. */
    method Type(text: string)
      modifies this
      ensures Valid()
      ensures searchQuery == text && (showSearchResults <==> text != "")
      ensures isNotificationsOpen == old(isNotificationsOpen) && isProfileOpen == old(isProfileOpen)
    {
      searchQuery := text;
      showSearchResults := |text| > 0;
    }

    /** Focusing the box shows the results again when there is a query, and otherwise changes nothing. */
    method Focus()
      requires Valid()
      modifies this
      ensures Valid()
      ensures searchQuery == old(searchQuery)
      ensures showSearchResults == (old(showSearchResults) || searchQuery != "")
      ensures isNotificationsOpen == old(isNotificationsOpen) && isProfileOpen == old(isProfileOpen)
    {
      if |searchQuery| > 0 {
        showSearchResults := true;
      }
    }

    /** The clear button: no query and no results. */
    method Clear()
      modifies this
      ensures Valid()
      ensures searchQuery == "" && !showSearchResults
      ensures isNotificationsOpen == old(isNotificationsOpen) && isProfileOpen == old(isProfileOpen)
    {
      searchQuery := "";
      showSearchResults := false;
    }

    method ToggleNotifications()
      modifies this
      ensures isNotificationsOpen == !old(isNotificationsOpen)
      ensures searchQuery == old(searchQuery) && showSearchResults == old(showSearchResults)
      ensures isProfileOpen == old(isProfileOpen)
    {
      isNotificationsOpen := !isNotificationsOpen;
    }

    method ToggleProfile()
      modifies this
      ensures isProfileOpen == !old(isProfileOpen)
      ensures searchQuery == old(searchQuery) && showSearchResults == old(showSearchResults)
      ensures isNotificationsOpen == old(isNotificationsOpen)
    {
      isProfileOpen := !isProfileOpen;
    }

    /** A press outside a menu closes that menu; the search is not affected. */
    method PressOutside(insideNotifications: bool, insideProfile: bool)
      modifies this
      ensures isNotificationsOpen == (old(isNotificationsOpen) && insideNotifications)
      ensures isProfileOpen == (old(isProfileOpen) && insideProfile)
      ensures searchQuery == old(searchQuery) && showSearchResults == old(showSearchResults)
    {
      if !insideNotifications {
        isNotificationsOpen := false;
      }
      if !insideProfile {
        isProfileOpen := false;
      }
    }

    /** "See all" in the notifications: go to the alerts view and close the menu. */
    method OpenAllAlerts() returns (target: string)
      modifies this
      ensures target == "alerts" && GetViewName(target) == ViewTitles["alerts"]
      ensures !isNotificationsOpen && isProfileOpen == old(isProfileOpen)
      ensures searchQuery == old(searchQuery) && showSearchResults == old(showSearchResults)
    {
      target := "alerts";
      isNotificationsOpen := false;
    }

    /** The profile menu's settings entries: go to the settings view and close the menu. */
    method OpenSettings() returns (target: string)
      modifies this
      ensures target == "settings" && GetViewName(target) == ViewTitles["settings"]
      ensures !isProfileOpen && isNotificationsOpen == old(isNotificationsOpen)
      ensures searchQuery == old(searchQuery) && showSearchResults == old(showSearchResults)
    {
      target := "settings";
      isProfileOpen := false;
    }
  }
}
