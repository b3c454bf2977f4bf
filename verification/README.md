# Well-being dashboard: score aggregation and risk, in Dafny

This project models the logic behind a workplace well-being app. Employees record a daily mood score from 1 to 5 with an optional note. Managers see dashboards, survey answers and reports built from those scores. The model covers the following parts.

- **Scope.** Who may see which company's data (`getScope`): an admin sees everything, a supervisor sees the company of their latest assignment, anyone else sees the company on their profile.
  - The key invariant: a non-admin without a company gets empty lists and zero counters, never global data.
- **Aggregates.** The 7-day burnout counters, the recent critical alerts, the per-day mean series ("last 7"), the mood donut and the cycle (month) metrics of the report service.
- **AI advice.** The edge function that picks the notes sent to the language model: notes with score 1 first, then notes about harassment ("assédio"), then the newest. It also models the status codes the handler answers with.
- **Two risk classifiers on the dashboard, with opposite polarity:**
  - The burnout tag: a LOW 7-day mean is "Alto risco".
  - The entry-weighted 30-day risk: a HIGH mean is "Alto".
- **View and format helpers:**
  - survey months, initials, literal answers and the order of the detail panel;
  - profile batching;
  - employee search and active counts;
  - the per-employee mean;
  - chart order and axis labels;
  - alert dates and the header's title and quick search.
- **Two small state machines:** the campaign list with its adhesion counter, and the workflow step toggles.

Database reads become input sequences, and the clock becomes a parameter (`since`, `fromDay`). Means are exact `real`s, a sum divided by a count. Timestamps and days are ISO text. The store's `gte`/`lt`/`order` and the views' `localeCompare` compare that text character by character. That is chronological order for uniform ISO timestamps.

Modules:
- **Foundation:** `Common` (Option, Result), `Seqs`, `Sorting` (a stable insertion sort), `Strings` (JavaScript's trim, case mapping, `includes`, split and join), `Json`, `Calendar` (`Date.UTC` month arithmetic), `Store` (the query filters) and `Means`.
- **One module per source file:** `DashboardService`, `ReportsService`, `AiActions`, `DashboardView`, `SurveyResponsesView`, `Reports2Service`, `EvaluationsView`, `EmployeesView`, `EmployeeProfilePanel`, `ChartsSection`, `WorkflowModal`, `AlertsList` and `Header`.

## Model

| member | source | states |
|---|---|---|
| DashboardService.UniqueIds | services/dashboardService.ts:60-62 | the ids kept are exactly the non-empty input ids, each once |
| DashboardService.MyProfile | services/dashboardService.ts:88-100 | succeeds exactly when one profile row has the user's id, and returns it; no row is the "profile not found" error, not an empty scope |
| DashboardService.GetScope | services/dashboardService.ts:117-149 | an admin's effective company is none whatever the role or profile; a supervisor's is the latest assignment's company; anyone else's is the profile's company; a missing user or profile is an error |
| DashboardService.SupervisorCompanyIsLatest | services/dashboardService.ts:102-115 | no assignment gives no company; otherwise the company is that of an assignment of the user created no earlier than any other (newest first, undated first as the store orders them) |
| DashboardService.ProfilesByIds | services/dashboardService.ts:161-171 | an empty id set gives the empty map; every key is a non-empty requested id; a non-empty requested id is a key iff some profile row carries it, and then maps to the id and name of the last such row |
| DashboardService.LastProfile | services/dashboardService.ts:168-169 | none iff no row has the id; otherwise a row with the id after which no row has it |
| DashboardService.ProfileMapOfQuery | services/dashboardService.ts:161-170 | for a requested id, the map built from the query rows holds the last table row with that id, and no entry when there is none |
| DashboardService.FetchProfilesByIds | services/dashboardService.ts:161-171 | the filling loop builds exactly the map of `ProfilesByIds` |
| DashboardService.ProfileMapLastWins | services/dashboardService.ts:168-169 | in the id-to-profile map, a later row with the same id overwrites an earlier one |
| DashboardService.ProfileMap | services/dashboardService.ts:168-170 | the keys are exactly the ids of the rows, each mapped to a row with that id |
| DashboardService.CriticalEntries | services/dashboardService.ts:224-238 | a non-admin without a company gets no rows; otherwise every row has score 1, is no older than `since` and belongs to the effective company; at most max(1, limit) rows, newest first |
| DashboardService.CriticalEntriesAreNewest | services/dashboardService.ts:227-230 | the rows returned are the newest matching rows: a prefix of all matches sorted newest first, cut only at max(1, limit) |
| DashboardService.FetchCriticalAlerts | services/dashboardService.ts:232-252 | a non-admin without a company gets `[]`; otherwise there is one alert per selected entry, in order, with its user, day and time and score 1 |
| DashboardService.CriticalAlertNames | services/dashboardService.ts:243-248 | an alert's name is the name on the last profile row of its user; null when the user id is empty or no profile row has it |
| DashboardService.FetchBurnout7d | services/dashboardService.ts:279-303 | a non-admin without a company gets all six counters 0; otherwise the counters are those of the positive scores in scope since the start of the window |
| DashboardService.BurnoutMeanBounds | services/dashboardService.ts:296-299 | with scores at most 5 and at least one positive score, the mean lies in [1, 5] |
| DashboardService.BurnoutBuckets | services/dashboardService.ts:298-303 | ones ≤ count of 1–2, and the three buckets add up to at most the entries, exactly the entries when every score is at most 5 |
| DashboardService.BurnoutOf | services/dashboardService.ts:296-303 | the entry count is the number of positive scores; the mean is 0 without them and otherwise the sum of the positive scores divided by their number; the four counters are the numbers of scores equal to 1, in 1–2, equal to 3 and in 4–5 |
| ReportsService.SafeNum | services/reportsService.ts:25-28 | a finite number is itself; null and non-finite values read 0 |
| ReportsService.MonthLabelOfKey | services/reportsService.ts:30-48 | the label of a "YYYY-MM" key is the Portuguese month name, a space and the year |
| ReportsService.MonthLabelWithoutMonth | services/reportsService.ts:30-48 | a key with no month piece is labelled "Mês " followed by the key |
| ReportsService.MonthRange | services/reportsService.ts:50-60 | a range, when there is one, runs from midnight UTC on the 1st of a month to midnight UTC on the 1st of the next |
| ReportsService.MonthRangeOfKey | services/reportsService.ts:50-60 | for a key of month m of year y, the start is day 1 of that month and the end day 1 of the next, December rolling to January of y+1 |
| ReportsService.MonthRangeTwoDigitYear | services/reportsService.ts:56-57 | a year piece 0..99 is read as 1900..1999, as `Date.UTC` does |
| ReportsService.HasAnyDataInMonth | services/reportsService.ts:65-83 | a month has data iff an alert or a mood entry lies in [start, end); mood entries are consulted only when no alert does |
| ReportsService.FetchCycleMetrics | services/reportsService.ts:85-140 | fails exactly when the key gives no month range (the `RangeError` "Invalid time value"), or the month has data and the employee or alert count read failed (that read's error, the employee read first); on success the key and label are kept and the AI summary is null; `hasData` as the month check says; without data every counter is 0; with data, employees is the count given, critical alerts are the alerts of the month and burnout is the newest index of the month |
| ReportsService.CycleMetricsHaveData | services/reportsService.ts:89-100 | reported alerts imply data; `hasData` holds iff some alert or mood time lies in the month |
| ReportsService.LatestBurnoutIsNewest | services/reportsService.ts:116-129 | a non-zero burnout figure is the value of an index row of the month created no earlier than any other |
| ReportsService.GenerateAiSummary | services/reportsService.ts:159-169 | null exactly when there are no actions |
| ReportsService.AiSummaryLines | services/reportsService.ts:162-168 | one line per action among the first three, joined by newlines |
| ReportsService.BulletLineParts | services/reportsService.ts:163-166 | a line is "• " then the title, then " — " and the reason exactly when the reason is not empty |
| ReportsService.DayKeys | services/reportsService.ts:255-269 | the grouping keys are distinct, and a day is a key iff it has a score in [1, 5] |
| ReportsService.Last7 | services/reportsService.ts:255-276 | the grouping loop computes exactly the specified series |
| ReportsService.GroupByDay | services/reportsService.ts:255-268 | after the loop the map holds, for exactly the days with a score in [1, 5], the sum and number of those scores, and its keys are those days in first-seen order |
| ReportsService.AddRow | services/reportsService.ts:257-268 | one more row keeps that correspondence: a counted score is added to its day's sum and count, any other row changes nothing |
| ReportsService.AverageEntries | services/reportsService.ts:270-271 | the entries in key order are each day with its sum divided by its count |
| ReportsService.Last7Ordered | services/reportsService.ts:271-276 | at most 7 points, days strictly ascending |
| ReportsService.Last7Means | services/reportsService.ts:258-272 | each point is the mean of its day's scores in [1, 5] (mean × count = sum) and lies in [1, 5] |
| ReportsService.Last7KeepsLatest | services/reportsService.ts:274-276 | a day with scores left out of the series precedes every day kept, and the series is then full (7 days) |
| ReportsService.SortedDaysFacts | services/reportsService.ts:271-274 | the sorted days are exactly the day averages, in strictly ascending day order |
| ReportsService.MoodDonut | services/reportsService.ts:280-299 | the counting loop computes exactly the specified donut (null for no rows) |
| ReportsService.DonutPartition | services/reportsService.ts:292-297 | happy + ok + sad = the number of positive scores, at most the number of rows |
| ReportsService.PreviewInsights | services/reportsService.ts:211-318 | with a cycle key, no preview exactly when the key has no month range; a month without data gives an empty preview; otherwise the series is the last 7 of the month's rows, the donut that of the month's scores and the critical count the alerts of the month; without a key the series covers the rows since `since`, the donut every score (null iff there are none) and every alert counts; at most 7 daily points |
| ReportsService.MonthMoods | services/reportsService.ts:74-80 | the month's mood rows are empty exactly when no mood row, and no mood timestamp, lies in the month |
| ReportsService.PreviewDonutOfMonth | services/reportsService.ts:280-286 | with a cycle key, the donut is null exactly when no mood row lies in the month |
| AiActions.ClampText | supabase/functions/ai-actions/index.ts:56-60 | "" iff the trimmed text is empty; a longer text is cut to max characters plus "…"; otherwise the trimmed text unchanged; the length is at most max + 1 |
| AiActions.ClampTextTrimmed | supabase/functions/ai-actions/index.ts:56-60 | a text that was not cut comes out trimmed |
| AiActions.ExtractOutputText | supabase/functions/ai-actions/index.ts:63-82 | a non-blank `output_text`, trimmed; else the trimmed concatenation of the texts of `output[0].content`; else "" |
| AiActions.QueryNotes | supabase/functions/ai-actions/index.ts:123-132 | min(80, n) rows of the n dated no earlier than `fromDay`, all of them when n ≤ 80, each from the table, newest first |
| AiActions.QueryNotesAreNewest | supabase/functions/ai-actions/index.ts:126-131 | the rows read are a prefix of the week's rows sorted newest first, cut only at 80, and each ranks no later than every row left behind |
| AiActions.NoteOrderPreorder | supabase/functions/ai-actions/index.ts:136-147 | the corrected selection order (score 1, then "assédio", then newest, undated last) is a total preorder |
| AiActions.AsWrittenNotTransitive | supabase/functions/ai-actions/index.ts:144-145 | the comparator as written is not transitive when a `created_at` is missing |
| AiActions.AsWrittenAgreesWhenDated | supabase/functions/ai-actions/index.ts:136-147 | on dated rows the corrected order agrees with the comparator as written |
| AiActions.ToNoteForAI | supabase/functions/ai-actions/index.ts:149-158 | `note` and `mental_state` go through `clampText`; every other field is copied unchanged |
| AiActions.SelectNotesShape | supabase/functions/ai-actions/index.ts:134-158 | the selection is the first min(30, n) ranked rows with a note; each sent note is non-empty and at most 221 characters |
| AiActions.CriticalFirst | supabase/functions/ai-actions/index.ts:138-140 | a score-1 row never follows a row with another score |
| AiActions.HarassmentNext | supabase/functions/ai-actions/index.ts:142-144 | among rows of equal criticality, notes mentioning "assédio" come first |
| AiActions.RankedInOrder | supabase/functions/ai-actions/index.ts:136-147 | the ranked rows are in selection order |
| AiActions.DroppedRankLater | supabase/functions/ai-actions/index.ts:148 | every row beyond the first 30 ranks no earlier than any row sent |
| AiActions.PromptOf | supabase/functions/ai-actions/index.ts:105-106 | the trimmed body prompt, or the fixed default text when absent |
| AiActions.Handle | supabase/functions/ai-actions/index.ts:84-263 | 204 with no body exactly for OPTIONS; 405 exactly for any other non-POST method; a POST with the Supabase URL or service key missing → 500 with that message, then with the OpenAI key missing → 500 with its message; a failed table read → 500 with the read's error; a non-ok model call → 500 "OpenAI error" with its text; a model call that throws → 500 with its message; a model text that parses to `null` → 500 with the TypeError message; 502 only for an empty or unparsable model text; an empty model text → 502 with the debugging body; an unparsable one → 502 with the error and the raw text; 200 exactly when the model text parses to a non-null value, with the model, notes_used and `actions ?? []` |
| AiActions.AnswerOf | supabase/functions/ai-actions/index.ts:215-257 | once the model is called: a non-ok status → 500 "OpenAI error" with its text; a throw → 500 with its message; an empty text → 502 with the debugging body; an unparsable one → 502 with the raw text; a text parsing to `null` → 500; 200 exactly when it parses to a non-null value, with the success body |
| AiActions.NotesUsedCount | supabase/functions/ai-actions/index.ts:134-148 | `notes_used` is at most 30 and at most the number of noted rows read, and equals that number when it is at most 30 |
| DashboardView.BurnoutMeta | views/DashboardView.tsx:27-32 | "Sem dados" exactly when the mean is non-finite or ≤ 0; "Alto risco" iff it is in (0, 2], "Médio risco" iff in (2, 3], "Sem risco" iff above 3 |
| DashboardView.BurnoutSeverityMonotone | views/DashboardView.tsx:27-32 | a positive mean always has a tag, and a larger mean never gets a more severe one |
| DashboardView.RiskOf | views/DashboardView.tsx:140-154 | "Sem dados" with tag "—" iff total entries ≤ 0; otherwise "Alto"/"RISCO" iff mean ≥ 4, "Moderado"/"ATENÇÃO" iff 2.5 ≤ mean < 4, "Baixo"/"OK" iff mean < 2.5 |
| DashboardView.RiskAvgTimesEntries | views/DashboardView.tsx:141-148 | with entries, the mean × total entries = Σ(daily mean · entries) |
| DashboardView.RiskBounds | views/DashboardView.tsx:141-148 | the weighted mean lies between the least and the greatest daily mean |
| DashboardView.OppositePolarity | views/DashboardView.tsx:27-32 | the same uniform mean that makes the burnout tag "Alto risco" makes the weighted risk "Baixo", and vice versa |
| DashboardView.UniformMean | views/DashboardView.tsx:141-148 | days that all have the same mean give that mean |
| DashboardView.DonutSlices | views/DashboardView.tsx:159-165 | the slices keep the fixed order c45, c3, c12; a slice is present iff its count is positive |
| DashboardView.TrackingCount | views/DashboardView.tsx:76 | the number of employees with entries > 0: at most the number of employees, and positive iff one has entries |
| DashboardView.NameMapOf | views/DashboardView.tsx:126-130 | the keys are exactly the employees' user ids |
| DashboardView.NameMapLastWins | views/DashboardView.tsx:127-128 | a later row with the same user id overwrites an earlier one |
| DashboardView.EmployeeNameMap | views/DashboardView.tsx:126-130 | the filling loop builds exactly the specified map |
| DashboardView.ResolvedAlerts | views/DashboardView.tsx:171-176 | the alert count and order, and every field but the name, are preserved |
| DashboardView.ResolvedName | views/DashboardView.tsx:171-176 | an alert keeps its own name; otherwise it takes the last matching employee's name, and "Sem nome" when none matches |
| DashboardView.Dashboard.constructor | views/DashboardView.tsx:36-54 | the dashboard starts loading, with empty lists and zero counters |
| DashboardView.Dashboard.Load | views/DashboardView.tsx:56-110 | on success every field is set from the loaded data; on error every list is empty, every counter 0 and the message set; loading ends and the tracking count agrees with the employees; after an error no burnout tag, risk or donut is shown |
| DashboardView.Dashboard.Show | views/DashboardView.tsx:73-89 | every list and counter takes its query's value, and the tracking count is that of the employees |
| DashboardView.Dashboard.Clear | views/DashboardView.tsx:93-106 | the message is set, every list emptied and every counter zeroed |
| DashboardView.Dashboard.EmptyShowsNothing | views/DashboardView.tsx:27-32 | an emptied dashboard shows "Sem dados", no risk average and no donut slice |
| Reports2Service.Chunk | services/reports2Service.ts:38-42 | for size > 0, the chunks concatenate back to the input; each is non-empty with at most `size` elements, and all but the last have exactly `size` |
| Reports2Service.ChunksFlatten | services/reports2Service.ts:38-42 | concatenating the chunks gives the input back |
| Reports2Service.ChunksSizes | services/reports2Service.ts:38-42 | every chunk has 1..size elements and all but the last exactly size; there are chunks iff the input is non-empty |
| Reports2Service.Normalize | services/reports2Service.ts:94-103 | `user_id` is the profile id and absent optional fields become null |
| Reports2Service.PushBatch | services/reports2Service.ts:92-104 | the inner loop appends one normalised row per batch row, in order |
| Reports2Service.FetchProfilesByUserIds | services/reports2Service.ts:78-107 | the batch loop computes exactly the specified rows |
| Reports2Service.ProfilesFound | services/reports2Service.ts:79-104 | the deduplicated, non-empty ids are covered by batches of at most 100; a row is returned iff it is the normalised profile of a requested non-empty id |
| Reports2Service.PickBestProfileName | services/reports2Service.ts:109-112 | the trimmed name when it is not blank, otherwise "Sem nome"; never "" |
| Reports2Service.PickedNameTrimmed | services/reports2Service.ts:109-112 | the name picked is always trimmed |
| Reports2Service.ParseMonth | services/reports2Service.ts:62-68 | a month that is read is a valid year-month with a year of at most four digits |
| Reports2Service.SurveyMonthRange | services/reports2Service.ts:62-68 | a range exactly when the month is read; it starts at the month + "-01" and ends at the date of the first day of the next month |
| Reports2Service.SurveyMonthEnd | services/reports2Service.ts:64-66 | below December of year 9999 the end is exactly the first day of the next month, December rolling to January of the next year |
| Reports2Service.FetchSurveyResponses | services/reports2Service.ts:54-73 | a month that cannot be read is the "Invalid time value" error; a failed read fails; rows are newest first; a row is returned iff it is in [month-01, next month) when a month is given and belongs to the user when one is given, with every copy of such a row kept |
| SurveyResponsesView.MonthKeyFromIso | views/SurveyResponsesView.tsx:13-16 | null or "" → ""; otherwise the first 7 characters, or the whole text when it is shorter |
| SurveyResponsesView.RiskTone | views/SurveyResponsesView.tsx:26-37 | rose iff "alto", yellow iff "atencao", emerald otherwise, for both pill and dot |
| SurveyResponsesView.Words | views/SurveyResponsesView.tsx:39-45 | the name's words are non-empty and hold no whitespace |
| SurveyResponsesView.WordsOfJoin | views/SurveyResponsesView.tsx:39-45 | the words of a name written with single spaces are its words |
| SurveyResponsesView.Initials | views/SurveyResponsesView.tsx:39-49 | no words → "—"; one word → its first two characters uppercased; otherwise the first letters of the first and last words uppercased |
| SurveyResponsesView.InitialsOfWords | views/SurveyResponsesView.tsx:39-49 | the three cases, stated on the words a name is built from |
| SurveyResponsesView.LiteralAnswer | views/SurveyResponsesView.tsx:51-58 | a text other than "—" iff the value is 1..5 |
| SurveyResponsesView.LiteralAnswersDistinct | views/SurveyResponsesView.tsx:51-58 | the five answers get five different texts |
| SurveyResponsesView.NormalizeAnswerValue | views/SurveyResponsesView.tsx:60-65 | null → null; a number → itself; an object → its `value` member (the last one) exactly when that is a number; anything else → null |
| SurveyResponsesView.NormalizeWrapped | views/SurveyResponsesView.tsx:60-65 | an object whose last `value` member is the number n gives n, as the bare number n does; a string gives null |
| SurveyResponsesView.MonthKeys | views/SurveyResponsesView.tsx:123-130 | distinct, and a key is present iff it is the non-empty month of some row |
| SurveyResponsesView.MonthOptions | views/SurveyResponsesView.tsx:123-132 | the set-filling loop computes exactly the specified options |
| SurveyResponsesView.MonthOptionsFacts | views/SurveyResponsesView.tsx:123-132 | never empty; the current month alone when no row has a month; otherwise the distinct months, descending |
| SurveyResponsesView.ProfileMapOf | views/SurveyResponsesView.tsx:117-121 | the keys are exactly the non-empty user ids |
| SurveyResponsesView.ProfileMap | views/SurveyResponsesView.tsx:117-121 | the filling loop builds exactly the specified map |
| SurveyResponsesView.ProfileMapLastWins | views/SurveyResponsesView.tsx:119 | a later profile with the same id overwrites an earlier one |
| SurveyResponsesView.FilteredRows | views/SurveyResponsesView.tsx:134-147 | order-preserving; a row is kept iff its month is the selected one (or none is selected) and, for a non-blank query, its best name lowercased contains the trimmed lowercased query; each kept row appears as often as in the input |
| SurveyResponsesView.NoFilterShowsAll | views/SurveyResponsesView.tsx:134-147 | no month and a blank query list every row |
| SurveyResponsesView.BlankQueryFiltersByMonth | views/SurveyResponsesView.tsx:134-147 | with a blank query and a month selected, a row is shown iff its month is that month |
| SurveyResponsesView.AnswerKeys | views/SurveyResponsesView.tsx:161-162 | each answer key once |
| SurveyResponsesView.DetailQuestions | views/SurveyResponsesView.tsx:149-160 | first one item per question-map row, in map order, titled by its label or else its key |
| SurveyResponsesView.ExtraKeysFacts | views/SurveyResponsesView.tsx:161-172 | the extra keys are distinct, never "__format" and never a mapped key |
| SurveyResponsesView.DetailExtras | views/SurveyResponsesView.tsx:161-174 | then one "extra" item per extra key, with its value |
| SurveyResponsesView.DetailCoversAnswers | views/SurveyResponsesView.tsx:149-175 | every answer key but "__format" appears, under its question or as an extra |
| EvaluationsView.Clamp | views/EvaluationsView.tsx:74 | the result lies in [0, max(0, total)]; it equals the input when that is already in [0, total] |
| EvaluationsView.RemovedFacts | views/EvaluationsView.tsx:67-69 | exactly the campaigns with another id remain, in their order; the length drops by the number removed |
| EvaluationsView.AdjustedFacts | views/EvaluationsView.tsx:71-79 | only campaigns with that id change: responses clamped, status "Concluído" iff responses = total, else "Em curso"; all other campaigns unchanged |
| EvaluationsView.StepUpThenDown | views/EvaluationsView.tsx:71-79 | inside the target, +1 then −1 gives the counter back |
| EvaluationsView.StepUpAtTarget | views/EvaluationsView.tsx:74-75 | a counter at its total stays there under any non-negative step and is "Concluído" |
| EvaluationsView.CampaignBoard.constructor | views/EvaluationsView.tsx:24-29 | no campaigns, form closed, name "" and total 30 |
| EvaluationsView.CampaignBoard.Restore | views/EvaluationsView.tsx:32-39 | the saved list, or the three initial campaigns |
| EvaluationsView.CampaignBoard.SetTotal | views/EvaluationsView.tsx:111 | the parsed total, or 0 when it does not parse |
| EvaluationsView.CampaignBoard.OpenForm | views/EvaluationsView.tsx:149 | the form opens and nothing else changes |
| EvaluationsView.CampaignBoard.CancelForm | views/EvaluationsView.tsx:130 | the form closes and nothing else changes |
| EvaluationsView.CampaignBoard.SetName | views/EvaluationsView.tsx:99 | the form name becomes the text typed and nothing else changes |
| EvaluationsView.CampaignBoard.Create | views/EvaluationsView.tsx:48-65 | an empty name changes nothing; otherwise the new campaign (0 responses, "Em curso", the form's total) is prepended, the others keep their order, and the form resets to "" and 30 and closes |
| EvaluationsView.CampaignBoard.Remove | views/EvaluationsView.tsx:67-69 | the list becomes the removal of that id |
| EvaluationsView.CampaignBoard.AdjustAdhesion | views/EvaluationsView.tsx:71-79 | the list becomes the adjustment, with every adjusted counter in range and status "Concluído" iff it meets its total |
| EmployeesView.EmployeesUI | views/EmployeesView.tsx:59-77 | a blank query gives every mapped row in order; otherwise an order-preserving subsequence keeping a row iff its lowercased name, id or company contains the query, as often as it was mapped |
| EmployeesView.ActiveCount | views/EmployeesView.tsx:79-81 | at most the number of rows; positive iff some row has entries > 0 |
| EmployeesView.ActiveCountOfTable | views/EmployeesView.tsx:60-65 | the active count equals the number of mapped rows showing entries > 0 (missing entries read 0) |
| EmployeesView.ActiveCountIsTracking | views/EmployeesView.tsx:79-81 | the view's active count equals the dashboard's tracking count |
| EmployeeProfilePanel.SummaryOf | components/EmployeeProfilePanel.tsx:51-55 | no entries → mean 0 and no last; otherwise last = the first entry's time and mean × n = Σ(score, null as 0) |
| EmployeeProfilePanel.SummaryBounds | components/EmployeeProfilePanel.tsx:53 | with every score in [1, 5] the mean lies in [1, 5] |
| EmployeeProfilePanel.MissingScoreCountsAsZero | components/EmployeeProfilePanel.tsx:53 | an entry without a score adds 0 to the total but 1 to the denominator |
| EmployeeProfilePanel.LastIsNewest | components/EmployeeProfilePanel.tsx:54 | with entries fetched newest first, the last entry shown is the newest |
| EmployeeProfilePanel.LoadPanel | components/EmployeeProfilePanel.tsx:21-43 | an empty id gives no entries and the missing-id message without a fetch; a fetch shows its entries and clears the message; a failure keeps the old entries and shows its message, or "Erro ao carregar dados." when it has none |
| EmployeeProfilePanel.EmptyIdSummary | components/EmployeeProfilePanel.tsx:26-30 | an empty id always gives the empty summary |
| ChartsSection.ChartData | components/ChartsSection.tsx:30-43 | one point per row, in ascending day order; the points are a permutation of the rows' points |
| ChartsSection.ChartDataFacts | components/ChartsSection.tsx:30-43 | every row has its point, and every point comes from a row |
| ChartsSection.TotalEntriesOfRows | components/ChartsSection.tsx:37-45 | the total is the sum of the rows' entries (missing as 0), whatever the order |
| ChartsSection.FormatShortDay | components/ChartsSection.tsx:25-27 | the text from index 5 on; "" for a text shorter than 5 |
| ChartsSection.ShortDayOfIso | components/ChartsSection.tsx:25-27 | on "YYYY-" + rest it gives the rest, the "MM-DD" |
| ChartsSection.XTick | components/ChartsSection.tsx:49-52 | the weekday letter of the point on a 7-point chart, otherwise the short day |
| ChartsSection.YTick | components/ChartsSection.tsx:54-59 | "Triste" iff ≤ 1, "Ok" iff in (1, 3], "Feliz" iff in (3, 5], "" iff above 5 |
| ChartsSection.YTickOrdered | components/ChartsSection.tsx:54-59 | a higher value never reads sadder, and reads happier exactly when a threshold 1 or 3 lies between the two values |
| ChartsSection.YTickAboveScale | components/ChartsSection.tsx:54-59 | "" iff the value is above 5 |
| WorkflowModal.Flipped | components/WorkflowModal.tsx:24-29 | the clicked step is set and done iff it was not; no other entry changes |
| WorkflowModal.FlipTwice | components/WorkflowModal.tsx:24-29 | two clicks restore the step's done or pending state |
| WorkflowModal.FlipTwiceExact | components/WorkflowModal.tsx:24-29 | for a step clicked before, two clicks restore its exact entry |
| WorkflowModal.FlipChangesCountByOne | components/WorkflowModal.tsx:24-29 | among distinct steps, a click moves the number of done steps by exactly one, down when the step was done and up otherwise |
| WorkflowModal.FlipElsewhere | components/WorkflowModal.tsx:24-29 | a click on a step outside the list leaves the list's done count unchanged |
| WorkflowModal.Workflow.constructor | components/WorkflowModal.tsx:20 | no step is done before any click |
| WorkflowModal.Workflow.Click | components/WorkflowModal.tsx:24-29 | the clicked step flips; every other step keeps its entry |
| AlertsList.FormatDay | components/AlertsList.tsx:9-14 | "" exactly when the day is missing or empty |
| AlertsList.FormatIsoDay | components/AlertsList.tsx:9-14 | "y-m-d" gives "d/m/y" |
| AlertsList.FormatDayWithoutDashes | components/AlertsList.tsx:12-13 | a day without dashes prints as "undefined/undefined/day" |
| AlertsList.Lines | components/AlertsList.tsx:16-50 | missing alerts are `[]`; one line per alert, in order; the count is their number |
| AlertsList.NameFallback | components/AlertsList.tsx:47 | a missing name shows "Sem nome" |
| Header.GetViewName | components/Header.tsx:38-48 | the six known ids get their titles; any other id "Início" |
| Header.ViewTitlesDistinct | components/Header.tsx:39-46 | two known views never share a title |
| Header.FilteredEmployees | components/Header.tsx:51-53 | the first min(3, m) of the m employees naming the query case-insensitively, in list order |
| Header.FilteredAlerts | components/Header.tsx:55-57 | the first min(2, m) of the m alerts titled with the query case-insensitively, in list order |
| Header.EmptyQueryShowsFirst | components/Header.tsx:51-57 | the empty query gives the first 3 employees and the first 2 alerts |
| Header.SearchBar.constructor | components/Header.tsx:16-19 | both menus closed, the query empty and no results shown |
| Header.SearchBar.Type | components/Header.tsx:75-78 | the query is the text; results show iff it is non-empty |
| Header.SearchBar.Focus | components/Header.tsx:79 | focus shows the results when the query is non-empty |
| Header.SearchBar.Clear | components/Header.tsx:85 | clearing resets both the query and the results flag |
| Header.SearchBar.PressOutside | components/Header.tsx:25-36 | a press outside a menu closes it |
| Header.SearchBar.ToggleNotifications | components/Header.tsx:138 | the notifications menu flips; nothing else changes |
| Header.SearchBar.ToggleProfile | components/Header.tsx:187 | the profile menu flips; nothing else changes |
| Header.SearchBar.OpenAllAlerts | components/Header.tsx:173 | goes to the alerts view, titled "Notificações", and closes the notifications menu |
| Header.SearchBar.OpenSettings | components/Header.tsx:233-243 | goes to the settings view, titled "Ajustes", and closes the profile menu |

## Findings

| source | as written | input that shows it | evidently intended | confidence | as-written member | corrected member |
|---|---|---|---|---|---|---|
| supabase/functions/ai-actions/index.ts:144-145 | the last comparison subtracts `getTime()` of `created_at ?? ""`; a missing time gives NaN, which `sort` reads as "equal" | three rows with score 3 and the same note: one from 1999-12-31, one undated, one from 2024-01-02; the comparator puts the older before the undated and the undated before the newer, but not the older before the newer | a total order: newest first, undated rows last | not executed | AiActions.AsWrittenNotTransitive | AiActions.NoteOrderPreorder |

The selection (`AiActions.RankedNotes`) is modelled with the corrected order. `AiActions.AsWrittenAgreesWhenDated` shows that both orders agree whenever every row has a time.

## Left out

- I/O, modelled as inputs:
  - every database query, `auth.getUser`, the calls to OpenAI and to the edge function, CORS headers and `Deno.env`;
  - query results, admin, profile and assignment lookups, and env presence are parameters.
- The clock: `new Date()`, `isoDaysAgo` and the "since" computations are left out, and their results are parameters (`since`, `fromDay`).
- Locale formatting is left out: `toLocaleString`, `toLocaleDateString` and `formatMonthLabel`.
- ChartsSection.PointOf: the weekday letter comes from a `weekday` parameter. How `toDateSafe` builds a local date is not modelled.
- Rounding with `toFixed(2)` is left out (dashboard risk, chart values, the panel mean). Every mean is exact, and the properties hold before rounding.
- Floating point:
  - scores are integers and means exact reals;
  - `Number()` is modelled only for plain decimal digit strings;
  - JavaScript's other number syntaxes are not modelled.
- `localeCompare` is modelled as character-code order. Locale collation of non-ASCII day or month strings is not modelled.
- Case mapping is modelled for ASCII and Latin-1 only.
- `JSON.parse` and `JSON.stringify` are parameters (`parse`) or an already-parsed value. No fallback parsing exists in the source, so none is modelled.
- SurveyResponsesView.AnswerKeys: an `answers` value that is not an object has no keys here. `Object.keys` puts integer-like keys first, which is not modelled.
- Reports2Service.ParseMonth: only strict `YYYY-MM` month strings are read. The other strings that the JavaScript `Date` parser accepts are reported as "Invalid time value". The local-noon start of the month is assumed to fall on the same UTC date.
- Header.GetViewName: an id naming a property inherited by every object (such as "toString") is treated as unknown.
- Concurrency and effect lifecycle are left out: `Promise.all`, and the `mounted` flags that drop results after unmount.
- Randomness: the campaign id from `Math.random` is a parameter of `EvaluationsView.CampaignBoard.Create`.
- localStorage persistence: the restored list is a parameter of `EvaluationsView.CampaignBoard.Restore`, and saving is I/O.
- Navigation and logout callbacks in the header: the target view is returned, and logging out is I/O.
- Plain reads and writes of tables or database views are left out, because they hold no logic of their own beyond the query. Their rows are inputs to the operations that use them:
  - `fetchScopedEmployees` and `fetchScopedDailyMood` (services/dashboardService.ts:178-209), whose scope the database views apply;
  - `saveReport`, `fetchReportsList`, `deleteReport` and `deleteAllReports` (services/reportsService.ts:171-209, 343-355);
  - `fetchSurveyQuestionMap` (services/reports2Service.ts:44-52).
- The preview's `worstDays` is read from a database view, and `stressBars` is a constant kept for compatibility. Neither is modelled.
- DashboardView imports `fetchGlobalEmployees` and `fetchGlobalDailyMood`, which the dashboard service does not export. The dashboard's load therefore takes the outcome of its reads as a parameter.
- Rendering-only code is left out: JSX, class names other than the risk colours, tooltips and the CSV/PDF export.
- AiActions.ClampText, SurveyResponsesView.Initials, SurveyResponsesView.MonthKeyFromIso and ChartsSection.FormatShortDay count characters as Unicode scalar values. JavaScript's `length`, `slice`, `substring` and `[0]` count UTF-16 code units, so text outside the Basic Multilingual Plane (emoji, for instance) is measured and cut differently, and the source can split a surrogate pair where the model cannot.
- DashboardService.FetchProfilesByIds, DashboardService.ProfilesByIds, DashboardService.FetchCriticalAlerts and DashboardService.FetchBurnout7d model a read that succeeds. The error thrown by `throwIfError` when the profiles, critical-entries or burnout read fails (services/dashboardService.ts:166, 241, 294) is not modelled.
