/**
 * The survey report service: the survey responses of a month (and optionally of one
 * user), the profiles of a list of users fetched in batches of at most 100 ids and
 * renamed to `user_id`, and the name shown for a profile.
 *
 * A table is given as the rows a query would read, or as the error the query fails
 * with. Row filters (`gte`/`lt`/`order`) are the predicates of the Store module.
 */
module Reports2Service {
  import opened Common
  import Seqs
  import Sorting
  import Strings
  import Store
  import Calendar
  import Json
  import DashboardService

  /** A row of `survey_responses`. */
  datatype SurveyResponseRow = SurveyResponseRow(id: string, userId: string, date: Option<string>, totalScore: real, riskLevel: string, answers: Json.Json)

  /** A row of `survey_question_map`: the question behind an answer key. */
  datatype QuestionMapRow = QuestionMapRow(qKey: string, slugKey: string, title: string)

  /** A row of `profiles`: the user id is `profiles.id`. */
  datatype ProfileRecord = ProfileRecord(id: string, name: Option<string>, role: Option<string>, companyId: Option<string>, companyName: Option<string>, cpf: Option<string>)

  /** The profile the survey screens read, keyed by `user_id`. */
  datatype ProfileMini = ProfileMini(userId: string, name: Option<string>, role: Option<string>, companyId: Option<string>, companyName: Option<string>, cpf: Option<string>)

  // ----- chunk -----

  /** The pieces `chunk` cuts: consecutive slices of `size` elements, the last one shorter. */
  function Chunks<T>(arr: seq<T>, size: nat): seq<seq<T>>
    requires size > 0
    decreases |arr|
  {
    if arr == [] then []
    else if |arr| <= size then [arr]
    else [arr[..size]] + Chunks(arr[size..], size)
  }

  /** Gluing the chunks back together gives the input. */
  lemma {:induction false} ChunksFlatten<T>(arr: seq<T>, size: nat)
    requires size > 0
    ensures Seqs.Flatten(Chunks(arr, size)) == arr
    decreases |arr|
  {
    if |arr| > size {
      ChunksFlatten(arr[size..], size);
      assert ([arr[..size]] + Chunks(arr[size..], size))[1..] == Chunks(arr[size..], size);
      assert arr == arr[..size] + arr[size..];
    } else if arr != [] {
      assert [arr][1..] == [];
    }
  }

  /** No chunk is empty or longer than `size`, and all but the last are full. */
  lemma {:induction false} ChunksSizes<T>(arr: seq<T>, size: nat)
    requires size > 0
    ensures var c := Chunks(arr, size);
      (forall i :: 0 <= i < |c| ==> 0 < |c[i]| <= size)
      && (forall i :: 0 <= i < |c| - 1 ==> |c[i]| == size)
    ensures arr != [] <==> Chunks(arr, size) != []
    decreases |arr|
  {
    if |arr| > size {
      ChunksSizes(arr[size..], size);
      var c := Chunks(arr, size);
      assert forall i :: 1 <= i < |c| ==> c[i] == Chunks(arr[size..], size)[i - 1];
    }
  }

  /** What is left of `arr` from index `i` on; nothing once `i` has passed the end. */
  function Rest<T>(arr: seq<T>, i: nat): seq<T> {
    if i < |arr| then arr[i..] else []
  }

  /** One turn of the loop cuts the next piece off what is left. */
  lemma ChunksStep<T>(arr: seq<T>, size: nat, i: nat)
    requires size > 0 && i < |arr|
    ensures Chunks(Rest(arr, i), size)
      == [arr[i..if i + size < |arr| then i + size else |arr|]] + Chunks(Rest(arr, i + size), size)
  {
    if i + size < |arr| {
      assert arr[i..][..size] == arr[i..i + size];
      assert arr[i..][size..] == arr[i + size..];
    } else {
      assert Rest(arr, i + size) == [] && Chunks<T>([], size) == [];
      assert arr[i..|arr|] == arr[i..];
      assert [arr[i..]] + [] == [arr[i..]];
    }
  }

  /** `chunk`: the loop that pushes `arr.slice(i, i + size)` for i = 0, size, 2·size, … */
  method Chunk<T>(arr: seq<T>, size: nat) returns (out: seq<seq<T>>)
    requires size > 0
    ensures out == Chunks(arr, size)
    ensures Seqs.Flatten(out) == arr
    ensures forall i :: 0 <= i < |out| ==> 0 < |out[i]| <= size
    ensures forall i :: 0 <= i < |out| - 1 ==> |out[i]| == size
  {
    out := [];
    var i := 0;
    assert Rest(arr, 0) == arr by {
      assert arr[0..] == arr;
    }
    while i < |arr|
      invariant out + Chunks(Rest(arr, i), size) == Chunks(arr, size)
      decreases |arr| - i
    {
      var end := if i + size < |arr| then i + size else |arr|;
      var piece := arr[i..end];
      ChunksStep(arr, size, i);
      var later := Chunks(Rest(arr, i + size), size);
      assert (out + [piece]) + later == out + ([piece] + later);
      out := out + [piece];
      i := i + size;
    }
    assert out + [] == out;
    ChunksFlatten(arr, size);
    ChunksSizes(arr, size);
  }

  // ----- profiles by user id -----

  /** At most this many ids go into one `in('id', …)` query. */
  const BatchSize: nat := 100

  /** `.in('id', batch)`. */
  function IdIn(batch: seq<string>): ProfileRecord -> bool {
    (p: ProfileRecord) => p.id in batch
  }

  /** The row a profile becomes: `profiles.id` is returned as `user_id`, missing fields as `null`. */
  function Normalize(row: ProfileRecord): (p: ProfileMini)
    ensures p.userId == row.id && p.name == row.name && p.role == row.role
    ensures p.companyId == row.companyId && p.companyName == row.companyName && p.cpf == row.cpf
  {
    ProfileMini(row.id, row.name, row.role, row.companyId, row.companyName, row.cpf)
  }

  /** The rows one batch query returns. */
  function BatchRows(batch: seq<string>, table: seq<ProfileRecord>): seq<ProfileMini> {
    Seqs.Map(Seqs.Filter(table, IdIn(batch)), Normalize)
  }

  /** The rows of the batches, in batch order. */
  function AllRows(batches: seq<seq<string>>, table: seq<ProfileRecord>): seq<ProfileMini> {
    if batches == [] then []
    else AllRows(batches[..|batches| - 1], table) + BatchRows(batches[|batches| - 1], table)
  }

  /** What `fetchProfilesByUserIds` returns: no query at all when no id survives, and the first query error otherwise. */
  function ProfilesByUserIds(userIds: seq<string>, table: Result<seq<ProfileRecord>, string>): Result<seq<ProfileMini>, string> {
    var ids := DashboardService.UniqueIds(userIds);
    if ids == [] then Success([])
    else if table.Failure? then Failure(table.error)
    else Success(AllRows(Chunks(ids, BatchSize), table.value))
  }

  /** The inner loop: each row one query returned is normalised and pushed. */
  method PushBatch(all: seq<ProfileMini>, data: seq<ProfileRecord>) returns (all': seq<ProfileMini>)
    ensures all' == all + Seqs.Map(data, Normalize)
  {
    all' := all;
    for k := 0 to |data|
      invariant all' == all + Seqs.Map(data[..k], Normalize)
    {
      assert Seqs.Map(data[..k + 1], Normalize) == Seqs.Map(data[..k], Normalize) + [Normalize(data[k])];
      all' := all' + [Normalize(data[k])];
    }
    assert data[..|data|] == data;
  }

  /** `fetchProfilesByUserIds`: one query per batch, each returned row pushed in turn. */
  method FetchProfilesByUserIds(userIds: seq<string>, table: Result<seq<ProfileRecord>, string>) returns (r: Result<seq<ProfileMini>, string>)
    ensures r == ProfilesByUserIds(userIds, table)
  {
    var ids := DashboardService.UniqueIds(userIds);
    if |ids| == 0 {
      return Success([]);
    }
    var batches := Chunk(ids, BatchSize);
    ChunksSizes(ids, BatchSize);
    var all: seq<ProfileMini> := [];
    for j := 0 to |batches|
      invariant table.Success? ==> all == AllRows(batches[..j], table.value)
      invariant j > 0 ==> table.Success?
    {
      if table.Failure? {
        return Failure(table.error);
      }
      all := PushBatch(all, Seqs.Filter(table.value, IdIn(batches[j])));
      assert batches[..j + 1][..j] == batches[..j];
      assert AllRows(batches[..j + 1], table.value) == AllRows(batches[..j], table.value) + BatchRows(batches[j], table.value);
    }
    assert batches[..|batches|] == batches;
    return Success(all);
  }

  /** A row of the batches' result is the normalised form of a table row whose id is in some batch, and conversely. */
  lemma {:induction false} AllRowsMember(batches: seq<seq<string>>, table: seq<ProfileRecord>, x: ProfileMini)
    ensures x in AllRows(batches, table) <==>
      exists t :: t in table && t.id in Seqs.Flatten(batches) && x == Normalize(t)
  {
    if batches != [] {
      var init, last := batches[..|batches| - 1], batches[|batches| - 1];
      assert batches == init + [last];
      Seqs.FlattenAppend(init, last);
      AllRowsMember(init, table, x);
      var hit := Seqs.Filter(table, IdIn(last));
      if x in BatchRows(last, table) {
        var i :| 0 <= i < |hit| && x == Normalize(hit[i]);
        assert hit[i] in hit;
      }
      forall t | t in table && t.id in last && x == Normalize(t) ensures x in BatchRows(last, table) {
        Seqs.FilterKeeps(table, IdIn(last), t);
        var i :| 0 <= i < |hit| && hit[i] == t;
      }
    }
  }

  /**
   * The profiles found are exactly the table rows whose id is one of the non-empty ids
   * asked for, renamed to `user_id`; every batch queried holds between 1 and 100 ids and
   * the batches together are the distinct non-empty ids in order.
   */
  lemma ProfilesFound(userIds: seq<string>, table: seq<ProfileRecord>)
    ensures var ids := DashboardService.UniqueIds(userIds);
      var batches := Chunks(ids, BatchSize);
      Seqs.Flatten(batches) == ids
      && forall i :: 0 <= i < |batches| ==> 0 < |batches[i]| <= BatchSize
    ensures ProfilesByUserIds(userIds, Success(table)).Success?
    ensures forall x :: x in ProfilesByUserIds(userIds, Success(table)).value <==>
      exists t :: t in table && t.id in userIds && t.id != "" && x == Normalize(t)
  {
    var ids := DashboardService.UniqueIds(userIds);
    var batches := Chunks(ids, BatchSize);
    ChunksFlatten(ids, BatchSize);
    ChunksSizes(ids, BatchSize);
    forall x ensures x in ProfilesByUserIds(userIds, Success(table)).value <==>
      exists t :: t in table && t.id in userIds && t.id != "" && x == Normalize(t)
    {
      if ids != [] {
        AllRowsMember(batches, table, x);
      }
    }
  }

  // ----- the name shown for a profile -----

  const NoName := "Sem nome"

  /** `pickBestProfileName`: the trimmed name, or "Sem nome" when there is none or it is blank. */
  function PickBestProfileName(p: Option<ProfileMini>): (r: string)
    ensures r != ""
    ensures p.Some? && p.value.name.Some? && Strings.Trim(p.value.name.value) != "" ==> r == Strings.Trim(p.value.name.value)
    ensures !(p.Some? && p.value.name.Some? && Strings.Trim(p.value.name.value) != "") ==> r == NoName
  {
    if p.Some? && p.value.name.Some? && Strings.Trim(p.value.name.value) != "" then Strings.Trim(p.value.name.value)
    else NoName
  }

  /** The name shown never has white space at either end. */
  lemma PickedNameTrimmed(p: Option<ProfileMini>)
    ensures Strings.Trim(PickBestProfileName(p)) == PickBestProfileName(p)
  {
    var r := PickBestProfileName(p);
    if r == NoName {
      assert r[0] == 'S' && r[|r| - 1] == 'e';
      Strings.TrimOfTrimmed(r);
    } else {
      Strings.TrimIdempotent(p.value.name.value);
    }
  }

  // ----- survey responses of a month -----

  /** The month of `${month}-01T12:00:00` as the date parser reads it: `YYYY-MM` with a month 01..12. */
  function ParseMonth(month: string): (r: Option<Calendar.YearMonth>)
    ensures r.Some? ==> Calendar.Valid(r.value) && 0 <= r.value.year <= 9999
  {
    if |month| == 7 && month[4] == '-' && Strings.AllDigits(month[..4]) && Strings.AllDigits(month[5..])
      && 1 <= Strings.DigitsValue(month[5..]) <= 12
    then
      Strings.DigitsValueBound(month[..4]);
      assert Strings.Pow10(4) == 10000;
      Some(Calendar.YearMonth(Strings.DigitsValue(month[..4]), Strings.DigitsValue(month[5..])))
    else None
  }

  /**
   * The `date` range of a month: from its first day to the first day of the next
   * month (the date part of `toISOString` of noon on that day), and no range at all
   * when the month text is not a date the parser reads (`toISOString` throws).
   */
  function SurveyMonthRange(month: string): (r: Option<(string, string)>)
    ensures r.Some? <==> ParseMonth(month).Some?
    ensures r.Some? ==>
      (r.value.0 == month + "-01"
       && r.value.1 == Seqs.Take(Calendar.FirstDay(Calendar.Next(ParseMonth(month).value)), 10))
  {
    match ParseMonth(month)
    case None => None
    case Some(ym) => Some((month + "-01", Seqs.Take(Calendar.FirstDay(Calendar.Next(ym)), 10)))
  }

  /** Before year 9999's December the end of the range is the whole date of the next month's first day. */
  lemma SurveyMonthEnd(month: string)
    requires ParseMonth(month).Some?
    requires var ym := ParseMonth(month).value; ym.year < 9999 || ym.month < 12
    ensures SurveyMonthRange(month).value.1 == Calendar.FirstDay(Calendar.Next(ParseMonth(month).value))
  {
    var next := Calendar.Next(ParseMonth(month).value);
    assert 0 <= next.year <= 9999;
    assert |Calendar.FirstDay(next)| == 10;
  }

  const InvalidTime := "Invalid time value"

  predicate OfUser(userId: string, r: SurveyResponseRow) {
    r.userId == userId
  }

  function DateOf(r: SurveyResponseRow): Option<string> {
    r.date
  }

  /** `.order('date', { ascending: false })`. */
  const NewestResponseFirst: (SurveyResponseRow, SurveyResponseRow) -> bool := Sorting.ByKey(DateOf, Store.DescNullsFirst)

  /** The filters `fetchSurveyResponses` applies: the user when one is given, the month range when a month is given. */
  predicate Selected(userId: Option<string>, range: Option<(string, string)>, r: SurveyResponseRow) {
    (DashboardService.Truthy(userId) ==> r.userId == userId.value)
    && (range.Some? ==> Store.InRange(r.date, range.value.0, range.value.1))
  }

  function SelectedBy(userId: Option<string>, range: Option<(string, string)>): SurveyResponseRow -> bool {
    (r: SurveyResponseRow) => Selected(userId, range, r)
  }

  /** `fetchSurveyResponses`: an unreadable month throws before the query; a query error is thrown too. */
  function FetchSurveyResponses(month: Option<string>, userId: Option<string>, table: Result<seq<SurveyResponseRow>, string>): (r: Result<seq<SurveyResponseRow>, string>)
    ensures DashboardService.Truthy(month) && SurveyMonthRange(month.value).None? ==> r == Failure(InvalidTime)
    ensures r.Success? ==> table.Success?
    ensures r.Success? ==> Sorting.SortedBy(r.value, NewestResponseFirst)
    ensures r.Success? ==> forall x :: x in r.value <==>
      (x in table.value
       && (DashboardService.Truthy(userId) ==> x.userId == userId.value)
       && (DashboardService.Truthy(month) ==>
             var range := SurveyMonthRange(month.value).value;
             Store.InRange(x.date, range.0, range.1)))
    ensures r.Success? ==> forall x :: (multiset(r.value)[x] ==
      if (DashboardService.Truthy(userId) ==> x.userId == userId.value)
         && (DashboardService.Truthy(month) ==>
               var range := SurveyMonthRange(month.value).value;
               Store.InRange(x.date, range.0, range.1))
      then multiset(table.value)[x] else 0)
  {
    var range := if DashboardService.Truthy(month) then SurveyMonthRange(month.value) else None;
    if DashboardService.Truthy(month) && range.None? then Failure(InvalidTime)
    else if table.Failure? then Failure(table.error)
    else
      var hit := Seqs.Filter(table.value, SelectedBy(userId, range));
      Store.DescIsTotalPreorder();
      Sorting.ByKeyPreorder(DateOf, Store.DescNullsFirst);
      Sorting.SortSorted(hit, NewestResponseFirst);
      assert forall x :: x in Sorting.Sort(hit, NewestResponseFirst) <==> x in table.value && Selected(userId, range, x) by {
        forall x ensures x in Sorting.Sort(hit, NewestResponseFirst) <==> x in table.value && Selected(userId, range, x) {
          Sorting.SortSameElements(hit, NewestResponseFirst, x);
          Seqs.FilterMultiset(table.value, SelectedBy(userId, range), x);
          assert x in hit <==> x in multiset(hit);
        }
      }
      forall x ensures multiset(Sorting.Sort(hit, NewestResponseFirst))[x]
        == if Selected(userId, range, x) then multiset(table.value)[x] else 0 {
        Seqs.FilterMultiset(table.value, SelectedBy(userId, range), x);
      }
      Success(Sorting.Sort(hit, NewestResponseFirst))
  }
}
