/**
 * The profile panel of one employee: the mood entries loaded for that employee
 * (newest first) and the summary shown above them, the mean score and the time of
 * the latest entry.
 */
module EmployeeProfilePanel {
  import opened Common
  import Seqs
  import Strings
  import Means

  /** A mood entry as the panel reads it; the score may be missing. */
  datatype MoodEntry = MoodEntry(id: string, userId: string, score: Option<int>, note: Option<string>, createdAt: string)

  /** The panel's summary: the mean score and the time of the latest entry. */
  datatype Summary = Summary(avg: real, last: Option<string>)

  function ScoreOrZero(e: MoodEntry): int {
    e.score.GetOr(0)
  }

  /** `entries.reduce((a, b) => a + (b.score ?? 0), 0)`. */
  function ScoreTotal(entries: seq<MoodEntry>): int {
    Seqs.Sum(Seqs.Map(entries, ScoreOrZero))
  }

  /** `summary`: a missing score adds 0 but still counts in the denominator. */
  function SummaryOf(entries: seq<MoodEntry>): (s: Summary)
    ensures entries == [] ==> s == Summary(0.0, None)
    ensures entries != [] ==>
      s.last == Some(entries[0].createdAt) && s.avg * (|entries| as real) == ScoreTotal(entries) as real
  {
    if entries == [] then Summary(0.0, None)
    else
      Means.MeanTimesCount(ScoreTotal(entries) as real, |entries|);
      Summary(Means.Mean(ScoreTotal(entries) as real, |entries|), Some(entries[0].createdAt))
  }

  predicate ValidScore(e: MoodEntry) {
    e.score.Some? && 1 <= e.score.value <= 5
  }

  /** When every entry has a score from 1 to 5, the mean lies between 1 and 5. */
  lemma SummaryBounds(entries: seq<MoodEntry>)
    requires entries != [] && forall e :: e in entries ==> ValidScore(e)
    ensures 1.0 <= SummaryOf(entries).avg <= 5.0
  {
    var scores := Seqs.Map(entries, ScoreOrZero);
    assert forall i :: 0 <= i < |scores| ==> 1 <= scores[i] <= 5 by {
      forall i | 0 <= i < |scores| ensures 1 <= scores[i] <= 5 {
        assert entries[i] in entries;
      }
    }
    Seqs.SumBounds(scores, 1, 5);
    var n := |entries|;
    assert 1.0 * (n as real) <= ScoreTotal(entries) as real <= 5.0 * (n as real);
    Means.MeanBounds(ScoreTotal(entries) as real, n, 1.0, 5.0);
  }

  /** An entry without a score pulls the mean down: it adds nothing to the total and one to the count. */
  lemma {:induction false} MissingScoreCountsAsZero(entries: seq<MoodEntry>, e: MoodEntry)
    requires e.score.None?
    ensures ScoreTotal(entries + [e]) == ScoreTotal(entries)
    ensures SummaryOf(entries + [e]).avg * ((|entries| + 1) as real) == ScoreTotal(entries) as real
  {
    assert Seqs.Map(entries + [e], ScoreOrZero) == Seqs.Map(entries, ScoreOrZero) + [0];
    Seqs.SumAppend(Seqs.Map(entries, ScoreOrZero), [0]);
  }

  /** With the entries fetched newest first, the summary's last entry is the newest of all. */
  lemma LastIsNewest(entries: seq<MoodEntry>)
    requires entries != []
    requires forall i, j :: 0 <= i < j < |entries| ==> Strings.Ge(entries[i].createdAt, entries[j].createdAt)
    ensures SummaryOf(entries).last.Some?
    ensures forall e :: e in entries ==> Strings.Ge(SummaryOf(entries).last.value, e.createdAt)
  {
    forall e | e in entries ensures Strings.Ge(entries[0].createdAt, e.createdAt) {
      var j :| 0 <= j < |entries| && entries[j] == e;
      if j == 0 {
        Strings.LeRefl(e.createdAt);
      }
    }
  }

  // ----- loading -----

  const MissingId := "ID do funcionário não encontrado."
  const LoadFailed := "Erro ao carregar dados."

  /** What the panel holds after loading. */
  datatype Panel = Panel(entries: seq<MoodEntry>, error: Option<string>)

  /**
   * The loader, with the query's outcome passed in: an empty employee id clears the
   * entries and reports it without asking the store; a failed query keeps the entries
   * shown before and reports the error's message (or a fixed text).
   */
  function LoadPanel(before: seq<MoodEntry>, employeeId: string, fetched: Result<seq<MoodEntry>, Option<string>>): (p: Panel)
    ensures employeeId == "" ==> p == Panel([], Some(MissingId))
    ensures employeeId != "" && fetched.Success? ==> p == Panel(fetched.value, None)
    ensures employeeId != "" && fetched.Failure? ==>
      p.entries == before && p.error == Some(fetched.error.GetOr(LoadFailed))
  {
    if employeeId == "" then Panel([], Some(MissingId))
    else match fetched
      case Success(rows) => Panel(rows, None)
      case Failure(msg) => Panel(before, Some(msg.GetOr(LoadFailed)))
  }

  /** An empty id never depends on the store, so its summary is always the empty one. */
  lemma EmptyIdSummary(before: seq<MoodEntry>, f: Result<seq<MoodEntry>, Option<string>>)
    ensures SummaryOf(LoadPanel(before, "", f).entries) == Summary(0.0, None)
  {
  }
}
