/**
 * The `ai-actions` edge function: it reads the mood notes of the last seven days,
 * selects the thirty that matter most (critical scores first, then notes that mention
 * harassment, then the newest), asks the language model for actions and relays its
 * answer. Environment, the store's rows, the model's reply and `JSON.parse` are inputs.
 */
module AiActions {
  import opened Common
  import Seqs
  import Sorting
  import Strings
  import Store
  import Json

  // ----- text helpers -----

  const Ellipsis: char := '…'

  /**
   * `clampText`: the trimmed text, cut to `max` characters with an ellipsis after the
   * cut when it is longer; "" for a missing or blank text.
   */
  function ClampText(s: Option<string>, max: nat): (r: string)
    ensures var t := Strings.Trim(s.GetOr(""));
      (r == [] <==> t == [])
      && |r| <= max + 1
      && (|t| <= max ==> r == t)
      && (|t| > max ==> |r| == max + 1 && r[..max] == t[..max] && r[max] == Ellipsis)
  {
    var t := Strings.Trim(s.GetOr(""));
    if t == [] then ""
    else if |t| > max then t[..max] + [Ellipsis]
    else t
  }

  /** A clamped text that was not cut is already trimmed. */
  lemma ClampTextTrimmed(s: Option<string>, max: nat)
    requires |Strings.Trim(s.GetOr(""))| <= max
    ensures Strings.Trim(ClampText(s, max)) == ClampText(s, max)
  {
    Strings.TrimIdempotent(s.GetOr(""));
  }

  /** `typeof x === "string"`: the string, if it is one. */
  function StringOf(x: Option<Json.Json>): Option<string> {
    match x
    case Some(JStr(s)) => Some(s)
    case _ => None
  }

  /** The text of one content part: its `text` when a string, otherwise its `content` when a string, otherwise "". */
  function PartText(c: Json.Json): string {
    var text := StringOf(Json.Get(Some(c), "text"));
    var content := StringOf(Json.Get(Some(c), "content"));
    if text.Some? then text.value else content.GetOr("")
  }

  /** The `output[0].content` array of a Responses API reply, when there is one. */
  function ContentParts(reply: Json.Json): Option<seq<Json.Json>> {
    match Json.Get(Json.First(Json.Get(Some(reply), "output")), "content")
    case Some(JArr(items)) => Some(items)
    case _ => None
  }

  /**
   * `extractOutputText`: a non-blank `output_text`, trimmed; otherwise the trimmed
   * concatenation of the content parts' texts; otherwise "".
   */
  function ExtractOutputText(reply: Json.Json): (r: string)
    ensures Strings.Trim(r) == r
    ensures var ot := StringOf(Json.Get(Some(reply), "output_text"));
      (ot.Some? && Strings.Trim(ot.value) != [] ==> r == Strings.Trim(ot.value))
      && (!(ot.Some? && Strings.Trim(ot.value) != []) ==>
            r == (if ContentParts(reply).Some?
                  then Strings.Trim(Seqs.Flatten(Seqs.Map(ContentParts(reply).value, PartText)))
                  else []))
  {
    var ot := StringOf(Json.Get(Some(reply), "output_text"));
    if ot.Some? && Strings.Trim(ot.value) != [] then
      Strings.TrimIdempotent(ot.value);
      Strings.Trim(ot.value)
    else
      match ContentParts(reply)
      case None => []
      case Some(parts) =>
        var joined := Seqs.Flatten(Seqs.Map(parts, PartText));
        Strings.TrimIdempotent(joined);
        Strings.Trim(joined)
  }

  // ----- note selection -----

  /** A row of `mood_entries` as the function reads it. */
  datatype MoodNoteRow = MoodNoteRow(
    userId: string,
    day: Option<string>,
    createdAt: Option<string>,
    score: Option<int>,
    note: Option<string>,
    mentalState: Option<string>,
    workDemand: Option<int>,
    fatigueLevel: Option<int>,
    sleepQuality: Option<int>)

  /** A note as it is sent to the model. */
  datatype NoteForAI = NoteForAI(
    userId: string,
    day: Option<string>,
    score: Option<int>,
    note: string,
    mentalState: string,
    workDemand: Option<int>,
    fatigueLevel: Option<int>,
    sleepQuality: Option<int>)

  const MaxNotesRead: nat := 80
  const MaxNotesSent: nat := 30
  const MaxTextLength: nat := 220
  const Harassment: string := "assédio"

  function NoteCreatedAt(r: MoodNoteRow): Option<string> {
    r.createdAt
  }

  function DayFrom(fromDay: string): MoodNoteRow -> bool {
    (r: MoodNoteRow) => Store.AtLeast(r.day, fromDay)
  }

  /** `order=created_at.desc`, which puts missing timestamps first. */
  const NewestNoteFirst := Sorting.ByKey(NoteCreatedAt, Store.DescNullsFirst)

  /** The REST query: entries from `fromDay` on, newest first, at most 80. */
  function QueryNotes(table: seq<MoodNoteRow>, fromDay: string): (r: seq<MoodNoteRow>)
    ensures var hits := Seqs.Filter(table, DayFrom(fromDay));
      |r| == (if MaxNotesRead < |hits| then MaxNotesRead else |hits|)
      && (|hits| <= MaxNotesRead ==> multiset(r) == multiset(hits))
    ensures forall x :: x in r ==> x in table && Store.AtLeast(x.day, fromDay)
    ensures Sorting.SortedBy(r, NewestNoteFirst)
  {
    var hits := Seqs.Filter(table, DayFrom(fromDay));
    var sorted := Sorting.Sort(hits, NewestNoteFirst);
    Store.DescIsTotalPreorder();
    Sorting.ByKeyPreorder(NoteCreatedAt, Store.DescNullsFirst);
    Sorting.SortSorted(hits, NewestNoteFirst);
    var r := Seqs.Take(sorted, MaxNotesRead);
    assert |hits| <= MaxNotesRead ==> r == sorted by {
      assert sorted[..|sorted|] == sorted;
    }
    forall x | x in r ensures x in table && Store.AtLeast(x.day, fromDay) {
      Sorting.SortSameElements(hits, NewestNoteFirst, x);
    }
    r
  }

  /**
   * When the limit of 80 cuts the entries of the week, every row read is at least as
   * recent as every row left behind: the query returns the newest part of the week.
   */
  lemma QueryNotesAreNewest(table: seq<MoodNoteRow>, fromDay: string)
    ensures var all := Sorting.Sort(Seqs.Filter(table, DayFrom(fromDay)), NewestNoteFirst);
      var r := QueryNotes(table, fromDay);
      r == all[..|r|]
      && (|r| < |all| ==> |r| == MaxNotesRead)
      && forall i, j :: 0 <= i < |r| <= j < |all| ==> NewestNoteFirst(all[i], all[j])
  {
    Store.DescIsTotalPreorder();
    Sorting.ByKeyPreorder(NoteCreatedAt, Store.DescNullsFirst);
    var r := QueryNotes(table, fromDay);
    Sorting.SortedPrefixFirst(Seqs.Filter(table, DayFrom(fromDay)), NewestNoteFirst, |r|);
  }

  /** `String(r.note ?? "").trim().length > 0`. */
  predicate HasNote(r: MoodNoteRow) {
    Strings.Trim(r.note.GetOr("")) != []
  }

  predicate Critical(r: MoodNoteRow) {
    r.score == Some(1)
  }

  /** `String(a.note).toLowerCase().includes("assédio")`; a missing note reads as "null". */
  predicate MentionsHarassment(r: MoodNoteRow) {
    Strings.Contains(Strings.ToLower(r.note.GetOr("null")), Harassment)
  }

  /** `new Date(t ?? "").getTime()` is a number: the timestamp is present and not empty. */
  predicate Dated(t: Option<string>) {
    t.Some? && t.value != []
  }

  /**
   * The comparator as written, as "a may come before b" (the comparator's value is at
   * most 0). The time difference is NaN when either timestamp is missing, and `sort`
   * reads NaN as "equal".
   */
  predicate AsWrittenOrder(a: MoodNoteRow, b: MoodNoteRow) {
    if Critical(a) != Critical(b) then Critical(a)
    else if MentionsHarassment(a) != MentionsHarassment(b) then MentionsHarassment(a)
    else !Dated(a.createdAt) || !Dated(b.createdAt) || Strings.Ge(a.createdAt.value, b.createdAt.value)
  }

  /** Newest first, with entries whose time is unknown after every dated one. */
  predicate NewerOrUndated(x: Option<string>, y: Option<string>) {
    !Dated(y) || (Dated(x) && Strings.Ge(x.value, y.value))
  }

  /** The selection order: critical scores first, then notes on harassment, then the newest. */
  predicate NoteOrder(a: MoodNoteRow, b: MoodNoteRow) {
    if Critical(a) != Critical(b) then Critical(a)
    else if MentionsHarassment(a) != MentionsHarassment(b) then MentionsHarassment(a)
    else NewerOrUndated(a.createdAt, b.createdAt)
  }

  /** The comparator as written is not transitive once a timestamp is missing. */
  lemma AsWrittenNotTransitive()
    ensures !Sorting.TotalPreorder(AsWrittenOrder)
  {
    var older := MoodNoteRow("u", None, Some("1999-12-31"), Some(3), Some("x"), None, None, None, None);
    var undated := MoodNoteRow("u", None, None, Some(3), Some("x"), None, None, None, None);
    var newer := MoodNoteRow("u", None, Some("2024-01-02"), Some(3), Some("x"), None, None, None, None);
    PlainNote();
    OlderNotNewer();
    assert !MentionsHarassment(older) && !MentionsHarassment(undated) && !MentionsHarassment(newer);
    assert AsWrittenOrder(older, undated) && AsWrittenOrder(undated, newer);
    assert !AsWrittenOrder(older, newer);
    assert !Sorting.Transitive(AsWrittenOrder);
  }

  /** The note "x" does not mention harassment. */
  lemma PlainNote()
    ensures !Strings.Contains(Strings.ToLower("x"), Harassment)
  {
    assert Strings.ToLower("x") == "x";
    assert !Strings.Contains("x", Harassment);
  }

  /** The last day of 1999 is not at or after the second of January 2024. */
  lemma OlderNotNewer()
    ensures !Strings.Ge("1999-12-31", "2024-01-02")
  {
    assert "2024-01-02"[0] > "1999-12-31"[0];
  }

  /** On dated entries the corrected order is the comparator as written. */
  lemma AsWrittenAgreesWhenDated(a: MoodNoteRow, b: MoodNoteRow)
    requires Dated(a.createdAt) && Dated(b.createdAt)
    ensures AsWrittenOrder(a, b) <==> NoteOrder(a, b)
  {
  }

  lemma NewerOrUndatedPreorder()
    ensures Sorting.TotalPreorder(NewerOrUndated)
  {
    forall x, y ensures NewerOrUndated(x, y) || NewerOrUndated(y, x) {
      if Dated(x) && Dated(y) {
        Strings.LeTotal(x.value, y.value);
      }
    }
    forall x, y, z | NewerOrUndated(x, y) && NewerOrUndated(y, z) ensures NewerOrUndated(x, z) {
      if Dated(x) && Dated(y) && Dated(z) {
        Strings.LeTrans(z.value, y.value, x.value);
      }
    }
  }

  /** The selection order is a total preorder, so sorting by it is well defined. */
  lemma NoteOrderPreorder()
    ensures Sorting.TotalPreorder(NoteOrder)
  {
    NewerOrUndatedPreorder();
    forall a, b, c | NoteOrder(a, b) && NoteOrder(b, c) ensures NoteOrder(a, c) {
      assert NewerOrUndated(a.createdAt, b.createdAt) && NewerOrUndated(b.createdAt, c.createdAt)
        ==> NewerOrUndated(a.createdAt, c.createdAt);
    }
    forall a, b ensures NoteOrder(a, b) || NoteOrder(b, a) {
      assert NewerOrUndated(a.createdAt, b.createdAt) || NewerOrUndated(b.createdAt, a.createdAt);
    }
  }

  /** The fields sent for one note: `note` and `mental_state` clamped, the others copied. */
  function ToNoteForAI(r: MoodNoteRow): (n: NoteForAI)
    ensures n.userId == r.userId && n.day == r.day && n.score == r.score
    ensures n.workDemand == r.workDemand && n.fatigueLevel == r.fatigueLevel && n.sleepQuality == r.sleepQuality
    ensures n.note == ClampText(r.note, MaxTextLength) && n.mentalState == ClampText(r.mentalState, MaxTextLength)
  {
    NoteForAI(r.userId, r.day, r.score, ClampText(r.note, MaxTextLength), ClampText(r.mentalState, MaxTextLength),
      r.workDemand, r.fatigueLevel, r.sleepQuality)
  }

  /** The rows with a note, in selection order. */
  function RankedNotes(rows: seq<MoodNoteRow>): seq<MoodNoteRow> {
    Sorting.Sort(Seqs.Filter(rows, HasNote), NoteOrder)
  }

  /** `notesForAI`: the first thirty ranked rows, as sent to the model. */
  function SelectNotes(rows: seq<MoodNoteRow>): seq<NoteForAI> {
    Seqs.Map(Seqs.Take(RankedNotes(rows), MaxNotesSent), ToNoteForAI)
  }

  /**
   * The selection holds the first thirty ranked rows, every one with a note; each sent
   * note is non-empty and at most 221 characters long.
   */
  lemma SelectNotesShape(rows: seq<MoodNoteRow>)
    ensures var ranked := RankedNotes(rows); var sel := SelectNotes(rows);
      |sel| == (if |ranked| < MaxNotesSent then |ranked| else MaxNotesSent)
      && |ranked| == Seqs.Count(rows, HasNote)
      && forall i :: 0 <= i < |sel| ==>
        sel[i] == ToNoteForAI(ranked[i]) && HasNote(ranked[i]) && ranked[i] in rows
        && sel[i].note != [] && |sel[i].note| <= MaxTextLength + 1
  {
    var noted := Seqs.Filter(rows, HasNote);
    var ranked := RankedNotes(rows);
    Seqs.CountIsFilterLength(rows, HasNote);
    forall i | 0 <= i < |ranked| ensures HasNote(ranked[i]) && ranked[i] in rows {
      Sorting.SortSameElements(noted, NoteOrder, ranked[i]);
    }
  }

  /** The ranked rows are in selection order: every row may come before each later one. */
  lemma RankedInOrder(rows: seq<MoodNoteRow>)
    ensures var ranked := RankedNotes(rows);
      forall i, j :: 0 <= i < j < |ranked| ==> NoteOrder(ranked[i], ranked[j])
  {
    NoteOrderPreorder();
    Sorting.SortSorted(Seqs.Filter(rows, HasNote), NoteOrder);
  }

  /** A critical row never follows a non-critical one; so when one is left out, every note sent is critical. */
  lemma CriticalFirst(rows: seq<MoodNoteRow>)
    ensures var ranked := RankedNotes(rows);
      forall i, j :: 0 <= i < j < |ranked| && Critical(ranked[j]) ==> Critical(ranked[i])
  {
    RankedInOrder(rows);
  }

  /** Among rows with the same criticality, the notes on harassment come first. */
  lemma HarassmentNext(rows: seq<MoodNoteRow>)
    ensures var ranked := RankedNotes(rows);
      forall i, j :: 0 <= i < j < |ranked| && Critical(ranked[i]) == Critical(ranked[j]) && MentionsHarassment(ranked[j])
        ==> MentionsHarassment(ranked[i])
  {
    RankedInOrder(rows);
  }

  /** Every row left out ranks no earlier than every row sent. */
  lemma DroppedRankLater(rows: seq<MoodNoteRow>)
    ensures var ranked := RankedNotes(rows);
      forall i, j :: 0 <= i < MaxNotesSent <= j < |ranked| ==> NoteOrder(ranked[i], ranked[j])
  {
    NoteOrderPreorder();
    Sorting.SortedPrefixFirst(Seqs.Filter(rows, HasNote), NoteOrder, MaxNotesSent);
    assert RankedNotes(rows) == Sorting.Sort(Seqs.Filter(rows, HasNote), NoteOrder);
  }

  // ----- the handler -----

  datatype Env = Env(supabaseUrl: Option<string>, serviceRoleKey: Option<string>, openAiKey: Option<string>, openAiModel: Option<string>)

  /** What is sent to the model: its name, the prompt and the selected notes. */
  datatype ModelRequest = ModelRequest(model: string, prompt: string, notes: seq<NoteForAI>)

  /**
   * What comes back: a non-ok HTTP status with its text, a failure that throws (the
   * network, a body that is not JSON) with its message, or the parsed reply.
   */
  datatype ModelReply = ModelFailed(details: string) | ModelThrew(message: string) | ModelOk(reply: Json.Json)

  /** An HTTP response; the preflight answer has no body. */
  datatype Response = Response(status: int, body: Option<Json.Json>)

  const DefaultPrompt: string := "Gerar ações prioritárias para reduzir risco psicossocial"
  const DefaultModel: string := "gpt-4o-mini"
  const MissingSupabaseMessage: string := "Missing SUPABASE_URL or SUPABASE_SERVICE_ROLE_KEY"
  const MissingOpenAiMessage: string := "Missing OPENAI_API_KEY"
  const NullActionsMessage: string := "Cannot read properties of null (reading 'actions')"

  /** `Deno.env.get(name) ?? ""` is not empty. */
  predicate Present(v: Option<string>) {
    v.Some? && v.value != []
  }

  function ModelName(env: Env): string {
    env.openAiModel.GetOr(DefaultModel)
  }

  /** `String(body?.prompt ?? default).trim()`; a body that is not JSON reads as `{}`. */
  function PromptOf(body: Option<Json.Json>, numberText: real -> string): (r: string)
    ensures Strings.Trim(r) == r
    ensures var p := Json.Get(body, "prompt");
      (p.None? || p == Some(Json.JNull) ==> r == Strings.Trim(DefaultPrompt))
      && (p.Some? && p.value.JStr? ==> r == Strings.Trim(p.value.s))
  {
    var p := Json.Get(body, "prompt");
    var text := if p.None? || p.value.JNull? then DefaultPrompt else Json.Text(p.value, numberText);
    Strings.TrimIdempotent(text);
    Strings.Trim(text)
  }

  function ErrorBody(message: string): Json.Json {
    Json.JObj([("error", Json.JStr(message))])
  }

  /** The answer to a non-ok status of the model call, with the text it returned. */
  function OpenAiErrorBody(details: string): Json.Json {
    Json.JObj([("error", Json.JStr("OpenAI error")), ("details", Json.JStr(details))])
  }

  /** The answer to a model text that is not JSON, with that text. */
  function ParseErrorBody(raw: string): Json.Json {
    Json.JObj([("error", Json.JStr("Failed to parse JSON from model")), ("raw", Json.JStr(raw))])
  }

  /** `parsed.actions ?? []`. */
  function ActionsOrEmpty(parsed: Json.Json): Json.Json
    requires !parsed.JNull?
  {
    match Json.Get(Some(parsed), "actions")
    case None => Json.JArr([])
    case Some(JNull) => Json.JArr([])
    case Some(a) => a
  }

  function SuccessBody(model: string, notesUsed: nat, parsed: Json.Json): Json.Json
    requires !parsed.JNull?
  {
    Json.JObj([
      ("ok", Json.JBool(true)),
      ("model", Json.JStr(model)),
      ("notes_used", Json.JNum(notesUsed as real)),
      ("actions", ActionsOrEmpty(parsed))])
  }

  /** The debugging body of an empty model answer. */
  function EmptyOutputBody(reply: Json.Json): Json.Json {
    var output := Json.Get(Some(reply), "output");
    Json.JObj([
      ("error", Json.JStr("Empty model output_text")),
      ("details", Json.JStr("OpenAI returned no output_text/content. Check oaiJson in logs.")),
      ("debug_hint", Json.JObj([
        ("has_output_text", Json.JBool(StringOf(Json.Get(Some(reply), "output_text")).Some?)),
        ("output_len", if output.Some? && output.value.JArr? then Json.JNum(|output.value.items| as real) else Json.JNull)]))])
  }

  /**
   * The request handler. `table` is the result of the REST read of `mood_entries`
   * (`Failure` carries the message of the error it throws), `fromDay` the date seven
   * days ago, `callModel` the model call and `parse` `JSON.parse`.
   */
  function Handle(
    httpMethod: string, env: Env, body: Option<Json.Json>,
    table: Result<seq<MoodNoteRow>, string>, fromDay: string,
    callModel: ModelRequest -> ModelReply, parse: string -> Option<Json.Json>,
    numberText: real -> string): (r: Response)
    ensures httpMethod == "OPTIONS" ==> r == Response(204, None)
    ensures httpMethod != "OPTIONS" && httpMethod != "POST" ==> r.status == 405
    ensures httpMethod == "POST" && !(Present(env.supabaseUrl) && Present(env.serviceRoleKey) && Present(env.openAiKey))
      ==> r.status == 500
    ensures r.status in {200, 204, 405, 500, 502}
    ensures r.status == 502 ==>
      httpMethod == "POST" && table.Success?
      && (var notes := NotesSent(table.value, fromDay);
          var reply := callModel(ModelRequest(ModelName(env), PromptOf(body, numberText), notes));
          reply.ModelOk? && (ExtractOutputText(reply.reply) == [] || parse(ExtractOutputText(reply.reply)).None?))
    ensures r.status == 204 <==> httpMethod == "OPTIONS"
    ensures r.status == 405 <==> httpMethod != "OPTIONS" && httpMethod != "POST"
    ensures httpMethod == "POST" && !(Present(env.supabaseUrl) && Present(env.serviceRoleKey)) ==>
      r == Response(500, Some(ErrorBody(MissingSupabaseMessage)))
    ensures httpMethod == "POST" && Present(env.supabaseUrl) && Present(env.serviceRoleKey) && !Present(env.openAiKey) ==>
      r == Response(500, Some(ErrorBody(MissingOpenAiMessage)))
    ensures httpMethod == "POST" && Present(env.supabaseUrl) && Present(env.serviceRoleKey) && Present(env.openAiKey)
      && table.Failure?
      ==> r == Response(500, Some(ErrorBody(table.error)))
    ensures httpMethod == "POST" && Present(env.supabaseUrl) && Present(env.serviceRoleKey) && Present(env.openAiKey)
      && table.Success?
      ==> (var notes := NotesSent(table.value, fromDay);
           var reply := callModel(ModelRequest(ModelName(env), PromptOf(body, numberText), notes));
           (reply.ModelFailed? ==>
              r == Response(500, Some(OpenAiErrorBody(reply.details))))
           && (reply.ModelThrew? ==> r == Response(500, Some(ErrorBody(reply.message))))
           && (reply.ModelOk? && ExtractOutputText(reply.reply) != []
               && parse(ExtractOutputText(reply.reply)) == Some(Json.JNull) ==>
                 r == Response(500, Some(ErrorBody(NullActionsMessage)))))
    ensures httpMethod == "POST" && Present(env.supabaseUrl) && Present(env.serviceRoleKey) && Present(env.openAiKey)
      && table.Success?
      ==> (var notes := NotesSent(table.value, fromDay);
           var reply := callModel(ModelRequest(ModelName(env), PromptOf(body, numberText), notes));
           reply.ModelOk?
           ==> (var raw := ExtractOutputText(reply.reply);
                (raw == [] ==> r == Response(502, Some(EmptyOutputBody(reply.reply))))
                && (raw != [] && parse(raw).None? ==>
                      r == Response(502, Some(ParseErrorBody(raw))))))
    ensures r.status == 200 <==>
      httpMethod == "POST" && Present(env.supabaseUrl) && Present(env.serviceRoleKey) && Present(env.openAiKey)
      && table.Success?
      && (var notes := NotesSent(table.value, fromDay);
          var reply := callModel(ModelRequest(ModelName(env), PromptOf(body, numberText), notes));
          reply.ModelOk? && ExtractOutputText(reply.reply) != []
          && (var parsed := parse(ExtractOutputText(reply.reply));
              parsed.Some? && !parsed.value.JNull?
              && r.body == Some(SuccessBody(ModelName(env), |notes|, parsed.value))))
  {
    if httpMethod == "OPTIONS" then Response(204, None)
    else if httpMethod != "POST" then Response(405, Some(ErrorBody("Use POST")))
    else if !Present(env.supabaseUrl) || !Present(env.serviceRoleKey) then
      Response(500, Some(ErrorBody(MissingSupabaseMessage)))
    else if !Present(env.openAiKey) then Response(500, Some(ErrorBody(MissingOpenAiMessage)))
    else if table.Failure? then Response(500, Some(ErrorBody(table.error)))
    else
      var notes := NotesSent(table.value, fromDay);
      AnswerOf(ModelName(env), |notes|, callModel(ModelRequest(ModelName(env), PromptOf(body, numberText), notes)), parse)
  }

  /** The notes sent to the model: the ranked selection of the week's read. */
  function NotesSent(table: seq<MoodNoteRow>, fromDay: string): seq<NoteForAI> {
    SelectNotes(QueryNotes(table, fromDay))
  }

  /** The handler's answer once the model has been called with `notesUsed` notes. */
  function AnswerOf(model: string, notesUsed: nat, reply: ModelReply, parse: string -> Option<Json.Json>): (r: Response)
    ensures reply.ModelFailed? ==>
      r == Response(500, Some(OpenAiErrorBody(reply.details)))
    ensures reply.ModelThrew? ==> r == Response(500, Some(ErrorBody(reply.message)))
    ensures reply.ModelOk? ==>
      (var raw := ExtractOutputText(reply.reply);
       (raw == [] ==> r == Response(502, Some(EmptyOutputBody(reply.reply))))
       && (raw != [] && parse(raw).None? ==>
             r == Response(502, Some(ParseErrorBody(raw))))
       && (raw != [] && parse(raw) == Some(Json.JNull) ==> r == Response(500, Some(ErrorBody(NullActionsMessage)))))
    ensures r.status == 200 <==>
      reply.ModelOk? && ExtractOutputText(reply.reply) != []
      && (var parsed := parse(ExtractOutputText(reply.reply));
          parsed.Some? && !parsed.value.JNull? && r.body == Some(SuccessBody(model, notesUsed, parsed.value)))
    ensures r.status in {200, 500, 502}
  {
    match reply
    case ModelFailed(details) =>
      Response(500, Some(OpenAiErrorBody(details)))
    case ModelThrew(message) => Response(500, Some(ErrorBody(message)))
    case ModelOk(reply) =>
      var raw := ExtractOutputText(reply);
      if raw == [] then Response(502, Some(EmptyOutputBody(reply)))
      else
        match parse(raw)
        case None => Response(502, Some(ParseErrorBody(raw)))
        case Some(parsed) =>
          if parsed.JNull? then Response(500, Some(ErrorBody(NullActionsMessage)))
          else Response(200, Some(SuccessBody(model, notesUsed, parsed)))
  }

  /** A successful answer reports how many notes were sent: all noted entries read, up to thirty. */
  lemma NotesUsedCount(table: seq<MoodNoteRow>, fromDay: string)
    ensures var read := QueryNotes(table, fromDay); var n := |SelectNotes(read)|;
      n <= MaxNotesSent && n <= Seqs.Count(read, HasNote)
      && (Seqs.Count(read, HasNote) <= MaxNotesSent ==> n == Seqs.Count(read, HasNote))
  {
    SelectNotesShape(QueryNotes(table, fromDay));
  }
}
