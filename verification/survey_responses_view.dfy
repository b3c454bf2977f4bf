/**
 * The survey responses screen: the month of a response, the colours of a risk level,
 * the initials of a name, the literal reading of an answer, the months offered, the
 * responses listed for a month and a name, and the answers of one response, question
 * by question.
 */
module SurveyResponsesView {
  import opened Common
  import Seqs
  import Sorting
  import Strings
  import Json
  import Reports2Service

  type SurveyResponseRow = Reports2Service.SurveyResponseRow
  type QuestionMapRow = Reports2Service.QuestionMapRow
  type ProfileMini = Reports2Service.ProfileMini

  // ----- month of a response -----

  /** `monthKeyFromISO`: no date gives "", otherwise its first 7 characters (`YYYY-MM`). */
  function MonthKeyFromIso(date: Option<string>): (r: string)
    ensures date.None? || date.value == "" ==> r == ""
    ensures date.Some? && date.value != "" ==> r != "" && |r| <= 7 && |r| <= |date.value| && r == date.value[..|r|]
    ensures date.Some? && |date.value| >= 7 ==> r == date.value[..7]
    ensures date.Some? && |date.value| < 7 ==> r == date.value
  {
    if date.None? || date.value == "" then "" else Seqs.Take(date.value, 7)
  }

  // ----- risk colours -----

  datatype Tone = Rose | Yellow | Emerald

  /** The colour of a risk level: "alto" rose, "atencao" yellow, anything else emerald. */
  function RiskTone(risk: string): (t: Tone)
    ensures t == Rose <==> risk == "alto"
    ensures t == Yellow <==> risk == "atencao"
  {
    if risk == "alto" then Rose else if risk == "atencao" then Yellow else Emerald
  }

  function ToneName(t: Tone): string {
    match t
    case Rose => "rose"
    case Yellow => "yellow"
    case Emerald => "emerald"
  }

  const PillBase := "text-[10px] font-black uppercase tracking-widest px-3 py-2 rounded-xl border"

  /** `riskPill`. */
  function RiskPill(risk: string): string {
    match RiskTone(risk)
    case Rose => PillBase + " bg-rose-50 text-rose-700 border-rose-100"
    case Yellow => PillBase + " bg-yellow-50 text-yellow-800 border-yellow-100"
    case Emerald => PillBase + " bg-emerald-50 text-emerald-700 border-emerald-100"
  }

  /** `riskDot`. */
  function RiskDot(risk: string): string {
    match RiskTone(risk)
    case Rose => "bg-rose-500"
    case Yellow => "bg-yellow-500"
    case Emerald => "bg-emerald-500"
  }

  // ----- initials -----

  predicate NonEmpty(s: string) {
    s != ""
  }

  /** `(name || '').replace(/\s+/g, ' ').trim().split(' ').filter(Boolean)`. */
  function Words(name: string): (ws: seq<string>)
    ensures forall i :: 0 <= i < |ws| ==> Strings.IsWord(ws[i])
  {
    var ws := Seqs.Filter(Strings.Split(Strings.Trim(Strings.CollapseSpaces(name)), ' '), NonEmpty);
    forall i | 0 <= i < |ws| ensures Strings.IsWord(ws[i]) {
      assert ws[i] in ws;
      PieceIsWord(name, ws[i]);
    }
    ws
  }

  /** A non-empty piece of the collapsed, trimmed name holds no whitespace. */
  lemma PieceIsWord(name: string, w: string)
    requires w in Strings.Split(Strings.Trim(Strings.CollapseSpaces(name)), ' ') && w != ""
    ensures Strings.IsWord(w)
  {
    var r := Strings.CollapseSpaces(name);
    var t := Strings.Trim(r);
    var pieces := Strings.Split(t, ' ');
    var j :| 0 <= j < |pieces| && pieces[j] == w;
    Strings.TrimChars(r);
    Strings.SplitChars(t, ' ');
    forall c | c in w ensures !Strings.IsSpace(c) {
      assert c != ' ';
      assert c in r;
      var k :| 0 <= k < |r| && r[k] == c;
    }
  }

  /** Text typed as words separated by single blanks splits back into those words. */
  lemma WordsOfJoin(ws: seq<string>)
    requires ws != [] && forall i :: 0 <= i < |ws| ==> Strings.IsWord(ws[i])
    ensures Words(Strings.Join(ws, ' ')) == ws
  {
    var s := Strings.Join(ws, ' ');
    Strings.JoinWords(ws);
    Strings.CollapseIdentity(s);
    Strings.TrimOfTrimmed(s);
    assert Strings.IsSpace(' ');
    assert Strings.CollapseSpaces(s) == s;
    assert Strings.Trim(s) == s;
    Strings.SplitJoin(ws, ' ');
    Seqs.FilterAll(ws, NonEmpty);
  }

  const NoInitials := "—"

  /** `initials`: "—" without words, the first two characters of a single word, else the first letters of the first and last words; upper-cased. */
  function Initials(name: string): (r: string)
    ensures Words(name) == [] ==> r == NoInitials
    ensures |Words(name)| == 1 ==> r == Strings.ToUpper(Seqs.Take(Words(name)[0], 2))
    ensures |Words(name)| >= 2 ==> var ws := Words(name); r == Strings.ToUpper([ws[0][0], ws[|ws| - 1][0]])
  {
    var ws := Words(name);
    if |ws| == 0 then NoInitials
    else if |ws| == 1 then Strings.ToUpper(Seqs.Take(ws[0], 2))
    else Strings.ToUpper([ws[0][0], ws[|ws| - 1][0]])
  }

  /** The initials of a name typed as words separated by blanks come from its first and last words. */
  lemma InitialsOfWords(ws: seq<string>)
    requires forall i :: 0 <= i < |ws| ==> Strings.IsWord(ws[i])
    ensures ws == [] ==> Initials(Strings.Join(ws, ' ')) == NoInitials
    ensures |ws| == 1 ==> Initials(Strings.Join(ws, ' ')) == Strings.ToUpper(Seqs.Take(ws[0], 2))
    ensures |ws| >= 2 ==> (Strings.IsWord(ws[0]) && Strings.IsWord(ws[|ws| - 1])
      && Initials(Strings.Join(ws, ' ')) == Strings.ToUpper([ws[0][0], ws[|ws| - 1][0]]))
  {
    if ws == [] {
      assert Strings.Join(ws, ' ') == "";
      assert Strings.Split("", ' ') == [""];
      assert Seqs.Filter([""], NonEmpty) == [];
    } else {
      WordsOfJoin(ws);
    }
  }

  // ----- answers -----

  /** `literalAnswer`: the words for 1..5, and "—" for anything else. */
  function LiteralAnswer(value: Option<real>): (r: string)
    ensures r != "—" <==> value.Some? && value.value in {1.0, 2.0, 3.0, 4.0, 5.0}
  {
    if value == Some(1.0) then "Nunca"
    else if value == Some(2.0) then "Raramente"
    else if value == Some(3.0) then "Às vezes"
    else if value == Some(4.0) then "Frequentemente"
    else if value == Some(5.0) then "Sempre"
    else "—"
  }

  /** Different answers on the scale read differently. */
  lemma LiteralAnswersDistinct(a: real, b: real)
    requires a in {1.0, 2.0, 3.0, 4.0, 5.0} && b in {1.0, 2.0, 3.0, 4.0, 5.0} && a != b
    ensures LiteralAnswer(Some(a)) != LiteralAnswer(Some(b))
  {
  }

  /**
   * `normalizeAnswerValue`: a missing or `null` answer has no value, a number is its own
   * value, an object carries it in a numeric `value` member, anything else has none.
   */
  function NormalizeAnswerValue(v: Option<Json.Json>): (r: Option<real>)
    ensures v.Some? && v.value.JNum? ==> r == Some(v.value.n)
    ensures v.Some? && v.value.JObj? ==>
      var member := Json.Lookup(v.value.fields, "value");
      (r.Some? <==> member.Some? && member.value.JNum?) && (r.Some? ==> r.value == member.value.n)
    ensures r.Some? ==> v.Some? && (v.value.JNum? || v.value.JObj?)
    ensures v.None? || v.value.JNull? ==> r.None?
  {
    match v
    case Some(JNum(n)) => Some(n)
    case Some(JObj(fields)) =>
      (match Json.Lookup(fields, "value")
       case Some(JNum(n)) => Some(n)
       case _ => None)
    case _ => None
  }

  /**
   * An answer stored as an object whose (last) `value` member is the number n reads as n,
   * like a bare n, whatever other members come before or after it; a `value` member that is
   * not a number, such as the text "3", gives no value.
   */
  lemma NormalizeWrapped(n: real, before: seq<(string, Json.Json)>, after: seq<(string, Json.Json)>)
    requires forall i :: 0 <= i < |after| ==> after[i].0 != "value"
    ensures NormalizeAnswerValue(Some(Json.JObj(before + [("value", Json.JNum(n))] + after))) == Some(n)
    ensures NormalizeAnswerValue(Some(Json.JNum(n))) == Some(n)
    ensures forall s :: NormalizeAnswerValue(Some(Json.JObj(before + [("value", Json.JStr(s))] + after))).None?
  {
    Json.LookupLastMember(before, "value", Json.JNum(n), after);
    forall s ensures NormalizeAnswerValue(Some(Json.JObj(before + [("value", Json.JStr(s))] + after))).None? {
      Json.LookupLastMember(before, "value", Json.JStr(s), after);
    }
  }

  // ----- months offered -----

  /** The `Set` of non-empty month keys in insertion order, as the loop fills it. */
  function MonthKeys(rows: seq<SurveyResponseRow>): (keys: seq<string>)
    ensures Seqs.Distinct(keys)
    ensures forall k :: k in keys <==> k != "" && exists i :: 0 <= i < |rows| && MonthKeyFromIso(rows[i].date) == k
  {
    if rows == [] then []
    else
      var keys := MonthKeys(rows[..|rows| - 1]);
      var k := MonthKeyFromIso(rows[|rows| - 1].date);
      assert forall i :: 0 <= i < |rows| - 1 ==> rows[..|rows| - 1][i] == rows[i];
      if k == "" || k in keys then keys else keys + [k]
  }

  /** `monthOptions`: the months sorted newest first, or the current month when there is none. */
  function MonthOptionsOf(rows: seq<SurveyResponseRow>, currentMonth: string): seq<string> {
    var sorted := Sorting.Sort(MonthKeys(rows), Strings.Ge);
    if sorted == [] then [currentMonth] else sorted
  }

  /** `monthOptions`: the loop over the rows that adds each non-empty month key to a set. */
  method MonthOptions(rows: seq<SurveyResponseRow>, currentMonth: string) returns (options: seq<string>)
    ensures options == MonthOptionsOf(rows, currentMonth)
  {
    var keys: seq<string> := [];
    for i := 0 to |rows|
      invariant keys == MonthKeys(rows[..i])
    {
      assert rows[..i + 1][..i] == rows[..i];
      var k := MonthKeyFromIso(rows[i].date);
      if k != "" && k !in keys {
        keys := keys + [k];
      }
    }
    assert rows[..|rows|] == rows;
    options := Sorting.Sort(keys, Strings.Ge);
    if |options| == 0 {
      options := [currentMonth];
    }
  }

  /**
   * The months offered are never empty; when some response has a date, they are the
   * distinct month keys of the responses, each once, newest first.
   */
  lemma MonthOptionsFacts(rows: seq<SurveyResponseRow>, currentMonth: string)
    ensures MonthOptionsOf(rows, currentMonth) != []
    ensures MonthKeys(rows) == [] ==> MonthOptionsOf(rows, currentMonth) == [currentMonth]
    ensures MonthKeys(rows) != [] ==> var options := MonthOptionsOf(rows, currentMonth);
      Seqs.Distinct(options) && Sorting.SortedBy(options, Strings.Ge)
      && forall k :: k in options <==> k != "" && exists i :: 0 <= i < |rows| && MonthKeyFromIso(rows[i].date) == k
  {
    var keys := MonthKeys(rows);
    var sorted := Sorting.Sort(keys, Strings.Ge);
    Strings.GeIsTotalPreorder();
    Sorting.SortSorted(keys, Strings.Ge);
    forall k ensures k in sorted <==> k in keys {
      Sorting.SortSameElements(keys, Strings.Ge, k);
    }
    Seqs.DistinctPermutation(keys, sorted);
  }

  // ----- responses listed -----

  /** `profileMap`: the profiles by user id, skipping those without one; a later profile wins. */
  function ProfileMapOf(profiles: seq<ProfileMini>): (m: map<string, ProfileMini>)
    ensures forall k :: k in m <==> k != "" && exists i :: 0 <= i < |profiles| && profiles[i].userId == k
    ensures forall k :: k in m ==> m[k].userId == k
  {
    if profiles == [] then map[]
    else
      var last := profiles[|profiles| - 1];
      var m := ProfileMapOf(profiles[..|profiles| - 1]);
      assert forall i :: 0 <= i < |profiles| - 1 ==> profiles[..|profiles| - 1][i] == profiles[i];
      if last.userId == "" then m else m[last.userId := last]
  }

  /** `profileMap`: the loop that fills the map. */
  method ProfileMap(profiles: seq<ProfileMini>) returns (m: map<string, ProfileMini>)
    ensures m == ProfileMapOf(profiles)
  {
    m := map[];
    for i := 0 to |profiles|
      invariant m == ProfileMapOf(profiles[..i])
    {
      assert profiles[..i + 1][..i] == profiles[..i];
      if profiles[i].userId != "" {
        m := m[profiles[i].userId := profiles[i]];
      }
    }
    assert profiles[..|profiles|] == profiles;
  }

  /** The profile kept for a user is the last one carrying its id. */
  lemma {:induction false} ProfileMapLastWins(profiles: seq<ProfileMini>, i: nat)
    requires i < |profiles| && profiles[i].userId != ""
    requires forall j :: i < j < |profiles| ==> profiles[j].userId != profiles[i].userId
    ensures ProfileMapOf(profiles)[profiles[i].userId] == profiles[i]
  {
    if i < |profiles| - 1 {
      ProfileMapLastWins(profiles[..|profiles| - 1], i);
    }
  }

  function ProfileOf(pm: map<string, ProfileMini>, userId: string): Option<ProfileMini> {
    if userId in pm then Some(pm[userId]) else None
  }

  /** The row filter: the selected month (any month when none is selected), then the name query. */
  predicate Shown(month: string, query: string, pm: map<string, ProfileMini>, r: SurveyResponseRow) {
    (month == "" || MonthKeyFromIso(r.date) == month)
    && (query == "" || Strings.Contains(Strings.ToLower(Reports2Service.PickBestProfileName(ProfileOf(pm, r.userId))), query))
  }

  function ShownBy(month: string, query: string, pm: map<string, ProfileMini>): SurveyResponseRow -> bool {
    (r: SurveyResponseRow) => Shown(month, query, pm, r)
  }

  /** `filteredRows`: the query is trimmed and lower-cased once; the rows keep their order. */
  function FilteredRows(rows: seq<SurveyResponseRow>, selectedMonth: string, nameFilter: string, pm: map<string, ProfileMini>): (r: seq<SurveyResponseRow>)
    ensures Seqs.IsSubseq(r, rows)
    ensures forall x :: x in r <==> x in rows && Shown(selectedMonth, Strings.ToLower(Strings.Trim(nameFilter)), pm, x)
    ensures forall x :: (multiset(r)[x]
      == if Shown(selectedMonth, Strings.ToLower(Strings.Trim(nameFilter)), pm, x) then multiset(rows)[x] else 0)
  {
    var query := Strings.ToLower(Strings.Trim(nameFilter));
    var r := Seqs.Filter(rows, ShownBy(selectedMonth, query, pm));
    forall x ensures multiset(r)[x] == if Shown(selectedMonth, query, pm, x) then multiset(rows)[x] else 0 {
      Seqs.FilterMultiset(rows, ShownBy(selectedMonth, query, pm), x);
    }
    Seqs.FilterSubseq(rows, ShownBy(selectedMonth, query, pm));
    forall x | x in rows && Shown(selectedMonth, query, pm, x) ensures x in r {
      Seqs.FilterKeeps(rows, ShownBy(selectedMonth, query, pm), x);
    }
    r
  }

  /** With no month selected and a blank query every response is listed, in order. */
  lemma NoFilterShowsAll(rows: seq<SurveyResponseRow>, nameFilter: string, pm: map<string, ProfileMini>)
    requires Strings.Trim(nameFilter) == ""
    ensures FilteredRows(rows, "", nameFilter, pm) == rows
  {
    Seqs.FilterAll(rows, ShownBy("", Strings.ToLower(Strings.Trim(nameFilter)), pm));
  }

  /** With a blank query the list is exactly the responses of the selected month, in order. */
  lemma BlankQueryFiltersByMonth(rows: seq<SurveyResponseRow>, month: string, nameFilter: string, pm: map<string, ProfileMini>)
    requires Strings.Trim(nameFilter) == "" && month != ""
    ensures forall x :: x in FilteredRows(rows, month, nameFilter, pm) <==> x in rows && MonthKeyFromIso(x.date) == month
  {
  }

  // ----- answers of one response -----

  /** One line of the detail panel. */
  datatype DetailItem = DetailItem(qKey: string, title: string, value: Option<real>, literal: string)

  /** `selected.answers ?? {}` as members; an answer column that is not an object has none. */
  function AnswerFields(answers: Json.Json): seq<(string, Json.Json)> {
    if answers.JObj? then answers.fields else []
  }

  function MemberName(f: (string, Json.Json)): string {
    f.0
  }

  /** `Object.keys(answers)`: each member name once, in the order it first appears. */
  function AnswerKeys(fields: seq<(string, Json.Json)>): (keys: seq<string>)
    ensures Seqs.Distinct(keys)
    ensures forall k :: k in keys <==> exists i :: 0 <= i < |fields| && fields[i].0 == k
  {
    var names := Seqs.Map(fields, MemberName);
    Seqs.Dedup(names)
  }

  function ItemFor(fields: seq<(string, Json.Json)>): QuestionMapRow -> DetailItem {
    (q: QuestionMapRow) =>
      var value := NormalizeAnswerValue(Json.Lookup(fields, q.slugKey));
      DetailItem(q.qKey, if q.title != "" then q.title else q.slugKey, value, LiteralAnswer(value))
  }

  function ExtraFor(fields: seq<(string, Json.Json)>): string -> DetailItem {
    (k: string) =>
      var value := NormalizeAnswerValue(Json.Lookup(fields, k));
      DetailItem("extra", k, value, LiteralAnswer(value))
  }

  const FormatKey := "__format"

  /** A member that no question maps and that is not the format marker. */
  predicate IsExtra(qmap: seq<QuestionMapRow>, k: string) {
    k != FormatKey && forall m :: m in qmap ==> m.slugKey != k
  }

  function ExtraKeys(qmap: seq<QuestionMapRow>, fields: seq<(string, Json.Json)>): seq<string> {
    Seqs.Filter(AnswerKeys(fields), (k: string) => IsExtra(qmap, k))
  }

  /** `detailItems`: one line per question in map order, then one per extra member. */
  function DetailItems(selected: Option<SurveyResponseRow>, qmap: seq<QuestionMapRow>): seq<DetailItem> {
    if selected.None? then []
    else
      var fields := AnswerFields(selected.value.answers);
      Seqs.Map(qmap, ItemFor(fields)) + Seqs.Map(ExtraKeys(qmap, fields), ExtraFor(fields))
  }

  /** The detail panel first shows every question in map order, titled by its label or else its key, with the value of its answer. */
  lemma DetailQuestions(r: SurveyResponseRow, qmap: seq<QuestionMapRow>)
    ensures var items := DetailItems(Some(r), qmap);
      var fields := AnswerFields(r.answers);
      |items| == |qmap| + |ExtraKeys(qmap, fields)|
      && forall i :: 0 <= i < |qmap| ==>
           items[i].qKey == qmap[i].qKey
           && items[i].title == (if qmap[i].title != "" then qmap[i].title else qmap[i].slugKey)
           && items[i].value == NormalizeAnswerValue(Json.Lookup(fields, qmap[i].slugKey))
  {
    var fields := AnswerFields(r.answers);
    var items := DetailItems(Some(r), qmap);
    assert forall i :: 0 <= i < |qmap| ==> items[i] == ItemFor(fields)(qmap[i]);
  }

  /** The extra members are distinct, never the format marker and never a key some question maps. */
  lemma ExtraKeysFacts(qmap: seq<QuestionMapRow>, fields: seq<(string, Json.Json)>)
    ensures var extras := ExtraKeys(qmap, fields);
      (forall i :: 0 <= i < |extras| ==> IsExtra(qmap, extras[i]))
      && Seqs.Distinct(extras)
  {
    var extras := ExtraKeys(qmap, fields);
    assert forall i :: 0 <= i < |extras| ==> extras[i] in extras;
    Seqs.FilterDistinct(AnswerKeys(fields), (k: string) => IsExtra(qmap, k));
  }

  /** Then one "extra" line per such member, in the order it first appears in the answers, with its value. */
  lemma DetailExtras(r: SurveyResponseRow, qmap: seq<QuestionMapRow>)
    ensures var items := DetailItems(Some(r), qmap);
      var fields := AnswerFields(r.answers);
      var extras := ExtraKeys(qmap, fields);
      |items| == |qmap| + |extras|
      && forall i :: 0 <= i < |extras| ==>
           items[|qmap| + i].qKey == "extra" && items[|qmap| + i].title == extras[i]
           && items[|qmap| + i].value == NormalizeAnswerValue(Json.Lookup(fields, extras[i]))
  {
    var fields := AnswerFields(r.answers);
    var extras := ExtraKeys(qmap, fields);
    var items := DetailItems(Some(r), qmap);
    var tail := Seqs.Map(extras, ExtraFor(fields));
    assert items == Seqs.Map(qmap, ItemFor(fields)) + tail;
    assert forall i :: 0 <= i < |extras| ==> items[|qmap| + i] == tail[i];
  }

  /** Every member of the answers but the format marker is shown: under its question when one maps it, otherwise as an extra line. */
  lemma DetailCoversAnswers(r: SurveyResponseRow, qmap: seq<QuestionMapRow>, k: string)
    requires k in AnswerKeys(AnswerFields(r.answers)) && k != FormatKey
    ensures (exists i :: 0 <= i < |qmap| && qmap[i].slugKey == k) ||
      exists i :: |qmap| <= i < |DetailItems(Some(r), qmap)| && DetailItems(Some(r), qmap)[i].title == k
  {
    var fields := AnswerFields(r.answers);
    var extras := ExtraKeys(qmap, fields);
    if forall m :: m in qmap ==> m.slugKey != k {
      Seqs.FilterKeeps(AnswerKeys(fields), (k: string) => IsExtra(qmap, k), k);
      var j :| 0 <= j < |extras| && extras[j] == k;
      DetailExtras(r, qmap);
      assert DetailItems(Some(r), qmap)[|qmap| + j].title == k;
    }
  }
}
