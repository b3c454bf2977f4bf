/**
 * `Array.prototype.sort` with a comparator, and the store's `order(...)`: a stable
 * insertion sort by an "a may come before b" relation `le`. Stability is the
 * behaviour ECMAScript requires of `sort` since 2019.
 */
module Sorting {

  ghost predicate Total<T(!new)>(le: (T, T) -> bool) {
    forall a, b :: le(a, b) || le(b, a)
  }

  ghost predicate Transitive<T(!new)>(le: (T, T) -> bool) {
    forall a, b, c :: le(a, b) && le(b, c) ==> le(a, c)
  }

  /** The condition under which a comparator describes a consistent order. */
  ghost predicate TotalPreorder<T(!new)>(le: (T, T) -> bool) {
    Total(le) && Transitive(le)
  }

  predicate SortedBy<T>(s: seq<T>, le: (T, T) -> bool) {
    forall i, j :: 0 <= i < j < |s| ==> le(s[i], s[j])
  }

  /** Inserts `x` before the first element it may precede. */
  function Insert<T>(x: T, s: seq<T>, le: (T, T) -> bool): (r: seq<T>)
    ensures |r| == |s| + 1
    ensures multiset(r) == multiset(s) + multiset{x}
  {
    if s == [] then [x]
    else if le(x, s[0]) then [x] + s
    else
      assert s == [s[0]] + s[1..];
      [s[0]] + Insert(x, s[1..], le)
  }

  /** The sorted copy of `s`; elements that compare equal keep their order. */
  function Sort<T>(s: seq<T>, le: (T, T) -> bool): (r: seq<T>)
    ensures |r| == |s|
    ensures multiset(r) == multiset(s)
  {
    if s == [] then []
    else
      assert s == [s[0]] + s[1..];
      Insert(s[0], Sort(s[1..], le), le)
  }

  lemma {:induction false} InsertSorted<T(!new)>(x: T, s: seq<T>, le: (T, T) -> bool)
    requires TotalPreorder(le) && SortedBy(s, le)
    ensures SortedBy(Insert(x, s, le), le)
  {
    if s != [] {
      if le(x, s[0]) {
        var r := [x] + s;
        forall i, j | 0 <= i < j < |r| ensures le(r[i], r[j]) {
          if i == 0 && j > 1 {
            assert le(s[0], s[j - 1]);
          }
        }
      } else {
        InsertSorted(x, s[1..], le);
        var t := Insert(x, s[1..], le);
        forall j | 0 <= j < |t| ensures le(s[0], t[j]) {
          assert t[j] in multiset(t);
          if t[j] != x {
            assert t[j] in multiset(s[1..]);
            var k :| 0 <= k < |s[1..]| && s[1..][k] == t[j];
            assert s[k + 1] == t[j];
          }
        }
        var r := [s[0]] + t;
        forall i, j | 0 <= i < j < |r| ensures le(r[i], r[j]) {
          if i > 0 {
            assert r[i] == t[i - 1] && r[j] == t[j - 1];
          }
        }
      }
    }
  }

  lemma {:induction false} SortSorted<T(!new)>(s: seq<T>, le: (T, T) -> bool)
    requires TotalPreorder(le)
    ensures SortedBy(Sort(s, le), le)
  {
    if s != [] {
      SortSorted(s[1..], le);
      InsertSorted(s[0], Sort(s[1..], le), le);
    }
  }

  /** Sorting preserves membership both ways. */
  lemma SortSameElements<T>(s: seq<T>, le: (T, T) -> bool, x: T)
    ensures x in Sort(s, le) <==> x in s
  {
    assert x in Sort(s, le) <==> x in multiset(Sort(s, le));
    assert x in s <==> x in multiset(s);
  }

  /** The first element of a sorted copy may precede every element of the input. */
  lemma SortedFirstLeast<T(!new)>(s: seq<T>, le: (T, T) -> bool)
    requires TotalPreorder(le) && s != []
    ensures forall x :: x in s ==> le(Sort(s, le)[0], x)
  {
    var r := Sort(s, le);
    SortSorted(s, le);
    forall x | x in s ensures le(r[0], x) {
      SortSameElements(s, le, x);
      var j :| 0 <= j < |r| && r[j] == x;
      if j == 0 {
        assert le(x, x) || le(x, x);
      }
    }
  }

  /**
   * Cutting a sorted copy after `k` elements (`ORDER BY ... LIMIT k`, `sort(...).slice(0, k)`)
   * keeps elements that may precede every element dropped.
   */
  lemma SortedPrefixFirst<T(!new)>(s: seq<T>, le: (T, T) -> bool, k: nat)
    requires TotalPreorder(le)
    ensures var r := Sort(s, le);
      forall i, j :: 0 <= i < k <= j < |r| ==> le(r[i], r[j])
  {
    SortSorted(s, le);
  }

  /** Ordering rows by a key: `a` may precede `b` when its key may precede `b`'s. */
  function ByKey<T, K>(key: T -> K, le: (K, K) -> bool): (T, T) -> bool {
    (a: T, b: T) => le(key(a), key(b))
  }

  lemma ByKeyApply<T, K>(key: T -> K, le: (K, K) -> bool, a: T, b: T)
    ensures ByKey(key, le)(a, b) == le(key(a), key(b))
  {
  }

  lemma ByKeyPreorder<T(!new), K(!new)>(key: T -> K, le: (K, K) -> bool)
    requires TotalPreorder(le)
    ensures TotalPreorder(ByKey(key, le))
  {
    var r := ByKey(key, le);
    forall a, b, c | r(a, b) && r(b, c) ensures r(a, c) {
      assert le(key(a), key(b)) && le(key(b), key(c));
    }
  }
}
