/**
 * The dashboard's data service: who the caller is allowed to see (the scope), the
 * latest critical mood entries of that scope, and the 7-day burnout aggregate.
 * Every table read is an input sequence, the caller's id is an input, and the
 * "since" instant is an ISO timestamp passed in.
 */
module DashboardService {
  import opened Common
  import Seqs
  import Sorting
  import Store
  import Means

  // ----- rows and results -----

  /** A row of `profiles`. */
  datatype Profile = Profile(id: string, name: Option<string>, role: Option<string>, companyId: Option<string>)

  /** A row of `supervisor_companies`: a supervisor assigned to a company. */
  datatype Assignment = Assignment(userId: string, companyId: Option<string>, createdAt: Option<string>)

  /** The company boundary of the caller; `None` as effective company means global for an admin. */
  datatype Scope = Scope(isAdmin: bool, role: Option<string>, profileCompanyId: Option<string>, effectiveCompanyId: Option<string>)

  /** Why the scope cannot be resolved: these are thrown, not turned into an empty scope. */
  datatype ScopeError = NotAuthenticated | ProfileQueryFailed | ProfileNotFound

  /** A row of `mood_entries`. */
  datatype MoodEntry = MoodEntry(id: string, userId: string, companyId: Option<string>, score: Option<int>, day: Option<string>, createdAt: Option<string>)

  /** The `{ id, name }` values of the map `fetchProfilesByIds` returns. */
  datatype ProfileName = ProfileName(id: string, name: Option<string>)

  datatype CriticalAlert = CriticalAlert(userId: string, name: Option<string>, score: int, day: Option<string>, createdAt: Option<string>)

  /** A row of `mood_entries` as `fetchBurnout7d` selects it. */
  datatype BurnoutRow = BurnoutRow(score: Option<int>, createdAt: Option<string>, companyId: Option<string>)

  datatype Burnout = Burnout(avgScore7d: real, entries7d: nat, criticalOnes7d: nat, count12: nat, count3: nat, count45: nat)

  /** A row of the `v_dashboard_employees` view. */
  datatype EmployeeRow = EmployeeRow(companyId: Option<string>, userId: string, name: Option<string>, entries: Option<int>, lastEntryAt: Option<string>)

  /** A row of the `v_dashboard_daily_mood` view: one day's mean score and number of entries. */
  datatype DailyMoodRow = DailyMoodRow(day: string, avgScore: Option<real>, entries: Option<int>)

  /** JavaScript truthiness of an optional id: `null` and `""` are false. */
  predicate Truthy(x: Option<string>) {
    x.Some? && x.value != ""
  }

  predicate NonEmpty(s: string) {
    s != ""
  }

  // ----- ids -----

  /** `uniq(userIds.filter(Boolean))`: the non-empty ids, each once, in first-seen order. */
  function UniqueIds(userIds: seq<string>): (ids: seq<string>)
    ensures Seqs.Distinct(ids)
    ensures forall x :: x in ids <==> x in userIds && x != ""
  {
    var nonEmpty := Seqs.Filter(userIds, NonEmpty);
    var ids := Seqs.Dedup(nonEmpty);
    assert forall x :: x in userIds && x != "" ==> x in nonEmpty by {
      forall x | x in userIds && x != "" ensures x in nonEmpty {
        Seqs.FilterMultiset(userIds, NonEmpty, x);
      }
    }
    ids
  }

  // ----- scope -----

  /** `getIsAdminByTable`: one row in `admin_users`; no row or a failing query (several rows) is `false`. */
  predicate IsAdmin(userId: string, adminUserIds: seq<string>) {
    Seqs.Count(adminUserIds, (u: string) => u == userId) == 1
  }

  function ProfilesOf(userId: string, profiles: seq<Profile>): seq<Profile> {
    Seqs.Filter(profiles, (p: Profile) => p.id == userId)
  }

  /** `getMyProfile`: the caller's single profile row; none is "profile not found". */
  function MyProfile(userId: string, profiles: seq<Profile>): (r: Result<Profile, ScopeError>)
    ensures r.Success? <==> |ProfilesOf(userId, profiles)| == 1
    ensures r.Success? ==> r.value in profiles && r.value.id == userId
    ensures ProfilesOf(userId, profiles) == [] ==> r == Failure(ProfileNotFound)
  {
    var mine := ProfilesOf(userId, profiles);
    if |mine| > 1 then Failure(ProfileQueryFailed)
    else if mine == [] then Failure(ProfileNotFound)
    else Success(mine[0])
  }

  function AssignedAt(a: Assignment): Option<string> {
    a.createdAt
  }

  /** `supervisor_companies` ordered by `created_at` descending. */
  const NewestAssignmentFirst: (Assignment, Assignment) -> bool := Sorting.ByKey(AssignedAt, Store.DescNullsFirst)

  function AssignedTo(userId: string): Assignment -> bool {
    (a: Assignment) => a.userId == userId
  }

  function AssignmentsOf(userId: string, assignments: seq<Assignment>): seq<Assignment> {
    Seqs.Filter(assignments, AssignedTo(userId))
  }

  lemma AssignmentOrder()
    ensures Sorting.TotalPreorder(NewestAssignmentFirst)
  {
    Store.DescIsTotalPreorder();
    Sorting.ByKeyPreorder(AssignedAt, Store.DescNullsFirst);
  }

  /** `getSupervisorCompanyId`: the company of the caller's latest assignment, or `null`. */
  function SupervisorCompanyId(userId: string, assignments: seq<Assignment>): Option<string> {
    var mine := AssignmentsOf(userId, assignments);
    if mine == [] then None else Sorting.Sort(mine, NewestAssignmentFirst)[0].companyId
  }

  /**
   * `getScope`: an admin is global whatever the role or profile company; a supervisor
   * uses the latest assignment; anyone else uses the company on the profile.
   */
  function GetScope(userId: Option<string>, adminUserIds: seq<string>, profiles: seq<Profile>, assignments: seq<Assignment>): (r: Result<Scope, ScopeError>)
    ensures userId.None? ==> r == Failure(NotAuthenticated)
    ensures userId.Some? && ProfilesOf(userId.value, profiles) == [] ==> r == Failure(ProfileNotFound)
    ensures r.Success? ==> userId.Some? && |ProfilesOf(userId.value, profiles)| == 1
    ensures r.Success? ==> var p := ProfilesOf(userId.value, profiles)[0];
      r.value.role == p.role && r.value.profileCompanyId == p.companyId
      && (r.value.isAdmin <==> IsAdmin(userId.value, adminUserIds))
    ensures r.Success? && r.value.isAdmin ==> r.value.effectiveCompanyId.None?
    ensures r.Success? && !r.value.isAdmin && r.value.role == Some("supervisor") ==>
      r.value.effectiveCompanyId == SupervisorCompanyId(userId.value, assignments)
    ensures r.Success? && !r.value.isAdmin && r.value.role != Some("supervisor") ==>
      r.value.effectiveCompanyId == r.value.profileCompanyId
  {
    match userId
    case None => Failure(NotAuthenticated)
    case Some(uid) =>
      match MyProfile(uid, profiles)
      case Failure(e) => Failure(e)
      case Success(profile) =>
        if IsAdmin(uid, adminUserIds) then
          Success(Scope(true, profile.role, profile.companyId, None))
        else if profile.role == Some("supervisor") then
          Success(Scope(false, profile.role, profile.companyId, SupervisorCompanyId(uid, assignments)))
        else
          Success(Scope(false, profile.role, profile.companyId, profile.companyId))
  }

  /**
   * The supervisor's company is that of one of their assignments that is at least as
   * recent as every other one of theirs, and `null` when they have none.
   */
  lemma SupervisorCompanyIsLatest(userId: string, assignments: seq<Assignment>)
    ensures AssignmentsOf(userId, assignments) == [] ==> SupervisorCompanyId(userId, assignments) == None
    ensures AssignmentsOf(userId, assignments) != [] ==>
      exists a :: a in assignments && a.userId == userId
        && SupervisorCompanyId(userId, assignments) == a.companyId
        && forall b :: b in assignments && b.userId == userId ==> Store.DescNullsFirst(a.createdAt, b.createdAt)
  {
    var mine := AssignmentsOf(userId, assignments);
    if mine != [] {
      NewestAssignmentIsFirst(mine);
      var a := Sorting.Sort(mine, NewestAssignmentFirst)[0];
      forall b | b in assignments && b.userId == userId ensures Store.DescNullsFirst(a.createdAt, b.createdAt) {
        Seqs.FilterKeeps(assignments, AssignedTo(userId), b);
      }
    }
  }

  lemma NewestAssignmentIsFirst(mine: seq<Assignment>)
    requires mine != []
    ensures Sorting.Sort(mine, NewestAssignmentFirst)[0] in mine
    ensures forall b :: b in mine ==> Store.DescNullsFirst(Sorting.Sort(mine, NewestAssignmentFirst)[0].createdAt, b.createdAt)
  {
    var a := Sorting.Sort(mine, NewestAssignmentFirst)[0];
    AssignmentOrder();
    Sorting.SortedFirstLeast(mine, NewestAssignmentFirst);
    Sorting.SortSameElements(mine, NewestAssignmentFirst, a);
    forall b | b in mine ensures Store.DescNullsFirst(a.createdAt, b.createdAt) {
      Sorting.ByKeyApply(AssignedAt, Store.DescNullsFirst, a, b);
    }
  }

  // ----- profiles by id -----

  /** The `Map` filled by `map.set(r.id, r)` over `rows`: a later row with the same id wins. */
  function ProfileMap(rows: seq<ProfileName>): (m: map<string, ProfileName>)
    ensures forall k :: k in m <==> exists i :: 0 <= i < |rows| && rows[i].id == k
    ensures forall k :: k in m ==> m[k].id == k
  {
    if rows == [] then map[]
    else
      var last := rows[|rows| - 1];
      var m := ProfileMap(rows[..|rows| - 1]);
      assert forall i :: 0 <= i < |rows| - 1 ==> rows[..|rows| - 1][i] == rows[i];
      m[last.id := last]
  }

  /** The value kept for an id is the last row carrying it. */
  lemma {:induction false} ProfileMapLastWins(rows: seq<ProfileName>, i: nat)
    requires i < |rows|
    requires forall j :: i < j < |rows| ==> rows[j].id != rows[i].id
    ensures ProfileMap(rows)[rows[i].id] == rows[i]
  {
    if i < |rows| - 1 {
      ProfileMapLastWins(rows[..|rows| - 1], i);
    }
  }

  /** `.from('profiles').select('id, name').in('id', ids)`. */
  function IdIn(ids: seq<string>): Profile -> bool {
    (p: Profile) => p.id in ids
  }

  function NameRow(p: Profile): ProfileName {
    ProfileName(p.id, p.name)
  }

  function QueriedProfiles(ids: seq<string>, profiles: seq<Profile>): (r: seq<ProfileName>)
    ensures forall i :: 0 <= i < |r| ==> r[i].id in ids
  {
    var hit := Seqs.Filter(profiles, IdIn(ids));
    assert forall i :: 0 <= i < |hit| ==> hit[i] in hit;
    Seqs.Map(hit, NameRow)
  }

  /** The last row of the table that carries id `k`, if any: the one whose `map.set` comes last. */
  function LastProfile(profiles: seq<Profile>, k: string): (r: Option<Profile>)
    ensures r.None? <==> forall i :: 0 <= i < |profiles| ==> profiles[i].id != k
    ensures r.Some? ==> exists i :: (0 <= i < |profiles| && profiles[i] == r.value && profiles[i].id == k
                                     && forall j :: i < j < |profiles| ==> profiles[j].id != k)
  {
    if profiles == [] then None
    else if profiles[|profiles| - 1].id == k then Some(profiles[|profiles| - 1])
    else
      var r := LastProfile(profiles[..|profiles| - 1], k);
      assert forall i :: 0 <= i < |profiles| - 1 ==> profiles[..|profiles| - 1][i] == profiles[i];
      r
  }

  /**
   * What `fetchProfilesByIds` returns: no query at all when no id survives; otherwise
   * each requested id that some profile row carries, with the id and name of the last such row.
   */
  function ProfilesByIds(userIds: seq<string>, profiles: seq<Profile>): (m: map<string, ProfileName>)
    ensures UniqueIds(userIds) == [] ==> m == map[]
    ensures forall k :: k in m ==> k in userIds && k != "" && m[k].id == k
    ensures forall k :: k in userIds && k != "" ==> (k in m <==> LastProfile(profiles, k).Some?)
    ensures forall k :: k in m ==> LastProfile(profiles, k).Some? && m[k] == NameRow(LastProfile(profiles, k).value)
  {
    var ids := UniqueIds(userIds);
    if ids == [] then map[]
    else
      var rows := QueriedProfiles(ids, profiles);
      assert forall k :: k in ProfileMap(rows) ==> k in ids;
      assert forall k :: k in ids ==>
        (k in ProfileMap(rows) <==> LastProfile(profiles, k).Some?)
        && (LastProfile(profiles, k).Some? ==> ProfileMap(rows)[k] == NameRow(LastProfile(profiles, k).value)) by {
        forall k | k in ids
          ensures k in ProfileMap(rows) <==> LastProfile(profiles, k).Some?
          ensures LastProfile(profiles, k).Some? ==> ProfileMap(rows)[k] == NameRow(LastProfile(profiles, k).value)
        {
          ProfileMapOfQuery(ids, profiles, k);
        }
      }
      ProfileMap(rows)
  }

  /** For a requested id, the map built from the query holds the last table row with that id. */
  lemma {:induction false} ProfileMapOfQuery(ids: seq<string>, profiles: seq<Profile>, k: string)
    requires k in ids
    ensures var m := ProfileMap(QueriedProfiles(ids, profiles));
      var l := LastProfile(profiles, k);
      (k in m <==> l.Some?) && (l.Some? ==> m[k] == NameRow(l.value))
    decreases |profiles|
  {
    if profiles != [] {
      var pre := profiles[..|profiles| - 1];
      var x := profiles[|profiles| - 1];
      assert profiles == pre + [x];
      assert LastProfile(profiles, k) == if x.id == k then Some(x) else LastProfile(pre, k);
      ProfileMapOfQuery(ids, pre, k);
      QueriedProfilesSnoc(ids, pre, x);
      if x.id in ids {
        ProfileMapSnoc(QueriedProfiles(ids, pre), NameRow(x));
      }
    }
  }

  /** Querying one more table row appends its name row when its id was asked for. */
  lemma QueriedProfilesSnoc(ids: seq<string>, pre: seq<Profile>, x: Profile)
    ensures QueriedProfiles(ids, pre + [x])
      == if x.id in ids then QueriedProfiles(ids, pre) + [NameRow(x)] else QueriedProfiles(ids, pre)
  {
    var hitPre := Seqs.Filter(pre, IdIn(ids));
    var hitX := Seqs.Filter([x], IdIn(ids));
    Seqs.FilterAppend(pre, [x], IdIn(ids));
    Seqs.MapAppend(hitPre, hitX, NameRow);
    assert [x][1..] == [];
    assert hitX == if x.id in ids then [x] else [];
    var rowsX := Seqs.Map(hitX, NameRow);
    assert rowsX == if x.id in ids then [NameRow(x)] else [];
  }

  /** One more row sets its own id and leaves the rest of the map alone. */
  lemma ProfileMapSnoc(rows: seq<ProfileName>, r: ProfileName)
    ensures ProfileMap(rows + [r]) == ProfileMap(rows)[r.id := r]
  {
    assert (rows + [r])[..|rows|] == rows;
  }


  /** `fetchProfilesByIds`: fills the map row by row. */
  method FetchProfilesByIds(userIds: seq<string>, profiles: seq<Profile>) returns (m: map<string, ProfileName>)
    ensures m == ProfilesByIds(userIds, profiles)
  {
    var ids := UniqueIds(userIds);
    if |ids| == 0 {
      return map[];
    }
    var rows := QueriedProfiles(ids, profiles);
    m := map[];
    for i := 0 to |rows|
      invariant m == ProfileMap(rows[..i])
    {
      assert rows[..i + 1][..i] == rows[..i];
      m := m[rows[i].id := rows[i]];
    }
    assert rows[..|rows|] == rows;
  }

  // ----- critical alerts -----

  /** `Math.max(1, limit)`. */
  function AtLeastOne(limit: int): (n: nat)
    ensures n >= 1 && n >= limit
  {
    if limit < 1 then 1 else limit
  }

  predicate InScope(scope: Scope, companyId: Option<string>) {
    scope.isAdmin || companyId == scope.effectiveCompanyId
  }

  /** The query's filters: score 1, created since `since`, and the scope's company for a non-admin. */
  predicate IsCritical(e: MoodEntry, scope: Scope, since: string) {
    e.score == Some(1) && Store.AtLeast(e.createdAt, since) && InScope(scope, e.companyId)
  }

  function CriticalMatches(scope: Scope, since: string, entries: seq<MoodEntry>): seq<MoodEntry> {
    Seqs.Filter(entries, (e: MoodEntry) => IsCritical(e, scope, since))
  }

  function EntryCreatedAt(e: MoodEntry): Option<string> {
    e.createdAt
  }

  const NewestEntryFirst: (MoodEntry, MoodEntry) -> bool := Sorting.ByKey(EntryCreatedAt, Store.DescNullsFirst)

  /** The entries `fetchCriticalAlerts` reads; none at all for a non-admin without a company. */
  function CriticalEntries(scope: Scope, since: string, limit: int, entries: seq<MoodEntry>): (sel: seq<MoodEntry>)
    ensures !scope.isAdmin && !Truthy(scope.effectiveCompanyId) ==> sel == []
    ensures |sel| <= AtLeastOne(limit)
    ensures forall e :: e in sel ==> e in entries && IsCritical(e, scope, since)
    ensures !scope.isAdmin ==> forall e :: e in sel ==> e.companyId == scope.effectiveCompanyId
    ensures Sorting.SortedBy(sel, NewestEntryFirst)
  {
    if !scope.isAdmin && !Truthy(scope.effectiveCompanyId) then []
    else
      var matching := CriticalMatches(scope, since, entries);
      var sorted := Sorting.Sort(matching, NewestEntryFirst);
      Store.DescIsTotalPreorder();
      Sorting.ByKeyPreorder(EntryCreatedAt, Store.DescNullsFirst);
      Sorting.SortSorted(matching, NewestEntryFirst);
      var sel := Seqs.Take(sorted, AtLeastOne(limit));
      assert forall e :: e in sel ==> e in matching by {
        forall e | e in sel ensures e in matching {
          Sorting.SortSameElements(matching, NewestEntryFirst, e);
        }
      }
      sel
  }

  /**
   * When the limit cuts the matches, every entry kept is at least as recent as every
   * match dropped: the result is the newest part of the scope's critical entries.
   */
  lemma CriticalEntriesAreNewest(scope: Scope, since: string, limit: int, entries: seq<MoodEntry>)
    requires scope.isAdmin || Truthy(scope.effectiveCompanyId)
    ensures var all := Sorting.Sort(CriticalMatches(scope, since, entries), NewestEntryFirst);
      var sel := CriticalEntries(scope, since, limit, entries);
      sel == all[..|sel|]
      && (|sel| < |all| ==> |sel| == AtLeastOne(limit))
      && forall i, j :: 0 <= i < |sel| <= j < |all| ==> NewestEntryFirst(all[i], all[j])
  {
    Store.DescIsTotalPreorder();
    Sorting.ByKeyPreorder(EntryCreatedAt, Store.DescNullsFirst);
    var sel := CriticalEntries(scope, since, limit, entries);
    Sorting.SortedPrefixFirst(CriticalMatches(scope, since, entries), NewestEntryFirst, |sel|);
  }

  function NameOf(m: map<string, ProfileName>, id: string): Option<string> {
    if id in m then m[id].name else None
  }

  function UserIdOf(e: MoodEntry): string {
    e.userId
  }

  function AlertOf(m: map<string, ProfileName>): MoodEntry -> CriticalAlert {
    (e: MoodEntry) => CriticalAlert(e.userId, NameOf(m, e.userId), e.score.GetOr(0), e.day, e.createdAt)
  }

  /** The profile map `fetchCriticalAlerts` builds for the users of the selected entries. */
  function AlertProfiles(sel: seq<MoodEntry>, profiles: seq<Profile>): map<string, ProfileName> {
    ProfilesByIds(Seqs.Map(sel, UserIdOf), profiles)
  }

  /**
   * `fetchCriticalAlerts`: one alert per selected entry, in the same order, each with
   * score 1 and the entry's user, day and timestamp.
   */
  function FetchCriticalAlerts(scope: Scope, since: string, limit: int, entries: seq<MoodEntry>, profiles: seq<Profile>): (r: seq<CriticalAlert>)
    ensures !scope.isAdmin && !Truthy(scope.effectiveCompanyId) ==> r == []
    ensures var sel := CriticalEntries(scope, since, limit, entries);
      |r| == |sel| && |r| <= AtLeastOne(limit)
      && forall i :: 0 <= i < |r| ==>
        r[i].userId == sel[i].userId && r[i].day == sel[i].day && r[i].createdAt == sel[i].createdAt && r[i].score == 1
  {
    var sel := CriticalEntries(scope, since, limit, entries);
    assert forall i :: 0 <= i < |sel| ==> sel[i] in sel;
    Seqs.Map(sel, AlertOf(AlertProfiles(sel, profiles)))
  }

  /**
   * An alert's name is the name on a profile row of its user, and `null` when no
   * profile row carries that user's id.
   */
  lemma CriticalAlertNames(scope: Scope, since: string, limit: int, entries: seq<MoodEntry>, profiles: seq<Profile>, i: nat)
    requires i < |FetchCriticalAlerts(scope, since, limit, entries, profiles)|
    ensures var a := FetchCriticalAlerts(scope, since, limit, entries, profiles)[i];
      (a.name.Some? ==> exists p :: p in profiles && p.id == a.userId && p.name == a.name)
      && ((forall p :: p in profiles ==> p.id != a.userId) ==> a.name.None?)
    ensures var a := FetchCriticalAlerts(scope, since, limit, entries, profiles)[i];
      var l := LastProfile(profiles, a.userId);
      a.name == if a.userId != "" && l.Some? then l.value.name else None
  {
    var sel := CriticalEntries(scope, since, limit, entries);
    var m := AlertProfiles(sel, profiles);
    var a := FetchCriticalAlerts(scope, since, limit, entries, profiles)[i];
    assert a == AlertOf(m)(sel[i]);
    var k := a.userId;
    assert k == Seqs.Map(sel, UserIdOf)[i];
    assert k in Seqs.Map(sel, UserIdOf);
    if k in m {
      var ids := UniqueIds(Seqs.Map(sel, UserIdOf));
      var rows := QueriedProfiles(ids, profiles);
      assert m == ProfileMap(rows);
      ProfileMapLastWinsExists(rows, k);
      var j :| 0 <= j < |rows| && rows[j].id == k && m[k] == rows[j];
      ProfileNameFrom(ids, profiles, j);
    }
  }

  /** Every key of the map is carried by a row whose value is the one stored. */
  lemma {:induction false} ProfileMapLastWinsExists(rows: seq<ProfileName>, k: string)
    requires k in ProfileMap(rows)
    ensures exists j :: 0 <= j < |rows| && rows[j].id == k && ProfileMap(rows)[k] == rows[j]
  {
    var last := rows[|rows| - 1];
    if last.id != k {
      ProfileMapLastWinsExists(rows[..|rows| - 1], k);
      var j :| 0 <= j < |rows| - 1 && rows[..|rows| - 1][j].id == k && ProfileMap(rows[..|rows| - 1])[k] == rows[..|rows| - 1][j];
      assert rows[j] == rows[..|rows| - 1][j];
    }
  }

  /** Each row of the profiles query is the id and name of a row of the table. */
  lemma ProfileNameFrom(ids: seq<string>, profiles: seq<Profile>, j: nat)
    requires j < |QueriedProfiles(ids, profiles)|
    ensures exists p :: p in profiles && p.id == QueriedProfiles(ids, profiles)[j].id && p.name == QueriedProfiles(ids, profiles)[j].name
  {
    var hit := Seqs.Filter(profiles, IdIn(ids));
    assert hit[j] in hit;
  }

  // ----- burnout over 7 days -----

  predicate Positive(s: int) { s > 0 }
  predicate IsOne(s: int) { s == 1 }
  predicate IsLow(s: int) { s == 1 || s == 2 }
  predicate IsThree(s: int) { s == 3 }
  predicate IsHigh(s: int) { s == 4 || s == 5 }

  /** The scores of the rows the burnout query returns, `null` read as 0. */
  function BurnoutScores(scope: Scope, since: string, rows: seq<BurnoutRow>): seq<int> {
    var inScope := Seqs.Filter(rows, (r: BurnoutRow) => Store.AtLeast(r.createdAt, since) && InScope(scope, r.companyId));
    Seqs.Map(inScope, (r: BurnoutRow) => r.score.GetOr(0))
  }

  /** The arithmetic of `fetchBurnout7d` over the scores read: only positive scores count. */
  function BurnoutOf(values: seq<int>): (b: Burnout)
    ensures b.entries7d == Seqs.Count(values, Positive)
    ensures b.entries7d == 0 ==> b.avgScore7d == 0.0
    ensures b.entries7d > 0 ==> b.avgScore7d == (Seqs.Sum(Seqs.Filter(values, Positive)) as real) / (b.entries7d as real)
    ensures b.criticalOnes7d == Seqs.Count(values, IsOne)
    ensures b.count12 == Seqs.Count(values, IsLow)
    ensures b.count3 == Seqs.Count(values, IsThree)
    ensures b.count45 == Seqs.Count(values, IsHigh)
  {
    var scores := Seqs.Filter(values, Positive);
    Seqs.CountIsFilterLength(values, Positive);
    Seqs.CountOfFilter(values, Positive, IsOne);
    Seqs.CountOfFilter(values, Positive, IsLow);
    Seqs.CountOfFilter(values, Positive, IsThree);
    Seqs.CountOfFilter(values, Positive, IsHigh);
    var n := |scores|;
    Burnout(
      Means.Mean(Seqs.Sum(scores) as real, n),
      n,
      Seqs.Count(scores, IsOne),
      Seqs.Count(scores, IsLow),
      Seqs.Count(scores, IsThree),
      Seqs.Count(scores, IsHigh))
  }

  /** `fetchBurnout7d`: all six counters are zero for a non-admin without a company, never global. */
  function FetchBurnout7d(scope: Scope, since: string, rows: seq<BurnoutRow>): (b: Burnout)
    ensures !scope.isAdmin && !Truthy(scope.effectiveCompanyId) ==> b == Burnout(0.0, 0, 0, 0, 0, 0)
    ensures scope.isAdmin || Truthy(scope.effectiveCompanyId) ==> b == BurnoutOf(BurnoutScores(scope, since, rows))
  {
    if !scope.isAdmin && !Truthy(scope.effectiveCompanyId) then Burnout(0.0, 0, 0, 0, 0, 0)
    else BurnoutOf(BurnoutScores(scope, since, rows))
  }

  /** When every score is at most 5 and one is positive, the mean lies in [1, 5]. */
  lemma {:induction false} BurnoutMeanBounds(values: seq<int>)
    requires forall i :: 0 <= i < |values| ==> values[i] <= 5
    requires Seqs.Count(values, Positive) > 0
    ensures 1.0 <= BurnoutOf(values).avgScore7d <= 5.0
  {
    var scores := Seqs.Filter(values, Positive);
    Seqs.CountIsFilterLength(values, Positive);
    var n := |scores|;
    forall i | 0 <= i < n ensures 1 <= scores[i] <= 5 {
      assert scores[i] in scores;
      var k :| 0 <= k < |values| && values[k] == scores[i];
    }
    Seqs.SumBounds(scores, 1, 5);
    Means.MeanBounds(Seqs.Sum(scores) as real, n, 1.0, 5.0);
  }

  /**
   * The buckets: critical ones are among the 1-2 bucket, the three buckets never
   * exceed the entries, and they cover them exactly when every score is at most 5.
   */
  lemma BurnoutBuckets(values: seq<int>)
    ensures var b := BurnoutOf(values);
      b.criticalOnes7d <= b.count12 && b.count12 + b.count3 + b.count45 <= b.entries7d
    ensures (forall i :: 0 <= i < |values| ==> values[i] <= 5) ==>
      var b := BurnoutOf(values); b.count12 + b.count3 + b.count45 == b.entries7d
  {
    var scores := Seqs.Filter(values, Positive);
    Seqs.CountIsFilterLength(values, Positive);
    Seqs.CountMono(scores, IsOne, IsLow);
    var lowOrThree := (s: int) => IsLow(s) || IsThree(s);
    var counted := (s: int) => IsLow(s) || IsThree(s) || IsHigh(s);
    Seqs.CountDisjoint(scores, IsLow, IsThree, lowOrThree);
    Seqs.CountDisjoint(scores, lowOrThree, IsHigh, counted);
    Seqs.CountMono(scores, counted, Positive);
    Seqs.FilterAll(scores, Positive) by {
      forall i | 0 <= i < |scores| ensures Positive(scores[i]) {
        assert scores[i] in scores;
      }
    }
    Seqs.CountAll(scores, Positive) by {
      forall i | 0 <= i < |scores| ensures Positive(scores[i]) {
        assert scores[i] in scores;
      }
    }
    if forall i :: 0 <= i < |values| ==> values[i] <= 5 {
      forall i | 0 <= i < |scores| ensures counted(scores[i]) {
        assert scores[i] in scores;
        var k :| 0 <= k < |values| && values[k] == scores[i];
      }
      Seqs.CountAll(scores, counted);
    }
  }
}
