/**
 * The comparisons the store applies in queries on text columns: `gte`, `lt` and
 * `order(...)`. Timestamps and dates are ISO-8601 text in one format, so their
 * chronological order is the lexicographic order of the text. A comparison with
 * `null` is never true, and Postgres sorts nulls first in descending order and
 * last in ascending order.
 */
module Store {
  import opened Common
  import Strings
  import Sorting

  /** `.gte(column, bound)`. */
  predicate AtLeast(x: Option<string>, bound: string) {
    x.Some? && Strings.Le(bound, x.value)
  }

  /** `.lt(column, bound)`. */
  predicate Below(x: Option<string>, bound: string) {
    x.Some? && !Strings.Le(bound, x.value)
  }

  /** `.gte(column, start).lt(column, end)`: the half-open interval [start, end). */
  predicate InRange(x: Option<string>, start: string, end: string) {
    AtLeast(x, start) && Below(x, end)
  }

  /** `.order(column, { ascending: false })`: `a` may come before `b`. */
  predicate DescNullsFirst(a: Option<string>, b: Option<string>) {
    a.None? || (b.Some? && Strings.Le(b.value, a.value))
  }

  /** `.order(column, { ascending: true })`: `a` may come before `b`. */
  predicate AscNullsLast(a: Option<string>, b: Option<string>) {
    b.None? || (a.Some? && Strings.Le(a.value, b.value))
  }

  lemma DescIsTotalPreorder()
    ensures Sorting.TotalPreorder(DescNullsFirst)
  {
    forall a, b ensures DescNullsFirst(a, b) || DescNullsFirst(b, a) {
      if a.Some? && b.Some? {
        Strings.LeTotal(a.value, b.value);
      }
    }
    forall a, b, c | DescNullsFirst(a, b) && DescNullsFirst(b, c) ensures DescNullsFirst(a, c) {
      if a.Some? && c.Some? {
        Strings.LeTrans(c.value, b.value, a.value);
      }
    }
  }

  lemma AscIsTotalPreorder()
    ensures Sorting.TotalPreorder(AscNullsLast)
  {
    forall a, b ensures AscNullsLast(a, b) || AscNullsLast(b, a) {
      if a.Some? && b.Some? {
        Strings.LeTotal(a.value, b.value);
      }
    }
    forall a, b, c | AscNullsLast(a, b) && AscNullsLast(b, c) ensures AscNullsLast(a, c) {
      if a.Some? && c.Some? {
        Strings.LeTrans(a.value, b.value, c.value);
      }
    }
  }

  /** The interval is half-open: its end bound itself is outside, its start bound inside. */
  lemma RangeHalfOpen(start: string, end: string)
    requires start != end && Strings.Le(start, end)
    ensures InRange(Some(start), start, end)
    ensures !InRange(Some(end), start, end)
  {
    Strings.LeRefl(start);
    Strings.LeRefl(end);
    if Strings.Le(end, start) {
      Strings.LeAntisym(start, end);
    }
  }
}
