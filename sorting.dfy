/**
 * Stable insertion sort by a comparison, the model of Python's `sorted(..., key=...)`
 * and Rust's `sort_by`, plus the "sorted, deduplicated" view of `sorted(set(...))`.
 */
module Sorting {
  import opened Wrappers
  import opened Strings

  ghost predicate TotalPreorder<T(!new)>(le: (T, T) -> bool)
  {
    && (forall a, b :: le(a, b) || le(b, a))
    && (forall a, b, c :: le(a, b) && le(b, c) ==> le(a, c))
  }

  predicate SortedBy<T>(s: seq<T>, le: (T, T) -> bool)
  {
    forall i, j :: 0 <= i < j < |s| ==> le(s[i], s[j])
  }

  /** Inserts `x` after every element that is not greater than it (which keeps the sort stable). */
  function InsertBy<T>(s: seq<T>, x: T, le: (T, T) -> bool): (r: seq<T>)
    ensures |r| == |s| + 1
  {
    if s == [] then [x]
    else if le(s[|s| - 1], x) then s + [x]
    else InsertBy(s[..|s| - 1], x, le) + [s[|s| - 1]]
  }

  function SortBy<T>(s: seq<T>, le: (T, T) -> bool): (r: seq<T>)
    ensures |r| == |s|
  {
    if s == [] then [] else InsertBy(SortBy(s[..|s| - 1], le), s[|s| - 1], le)
  }

  lemma {:induction false} InsertByPermutes<T>(s: seq<T>, x: T, le: (T, T) -> bool)
    ensures multiset(InsertBy(s, x, le)) == multiset(s) + multiset{x}
  {
    if s != [] && !le(s[|s| - 1], x) {
      InsertByPermutes(s[..|s| - 1], x, le);
      assert s == s[..|s| - 1] + [s[|s| - 1]];
    }
  }

  lemma {:induction false} InsertBySorted<T(!new)>(s: seq<T>, x: T, le: (T, T) -> bool)
    requires TotalPreorder(le)
    requires SortedBy(s, le)
    ensures SortedBy(InsertBy(s, x, le), le)
  {
    if s != [] {
      var last := s[|s| - 1];
      if le(last, x) {
        var r := s + [x];
        forall i, j | 0 <= i < j < |r| ensures le(r[i], r[j]) {
          if j == |s| && i < |s| - 1 {
            assert le(s[i], last);
          }
        }
      } else {
        var init := s[..|s| - 1];
        InsertBySorted(init, x, le);
        InsertByPermutes(init, x, le);
        var ins := InsertBy(init, x, le);
        var r := ins + [last];
        assert le(x, last);
        forall k | 0 <= k < |ins| ensures le(ins[k], last) {
          assert ins[k] in multiset(ins);
          if ins[k] != x {
            assert ins[k] in multiset(init);
            var m :| 0 <= m < |init| && init[m] == ins[k];
            assert s[m] == init[m];
          }
        }
        forall i, j | 0 <= i < j < |r| ensures le(r[i], r[j]) {
          if j < |ins| {
            assert r[i] == ins[i] && r[j] == ins[j];
          }
        }
      }
    }
  }

  /** Sorting keeps exactly the input's elements. */
  lemma {:induction false} SortByPermutes<T>(s: seq<T>, le: (T, T) -> bool)
    ensures multiset(SortBy(s, le)) == multiset(s)
  {
    if s != [] {
      var init := s[..|s| - 1];
      SortByPermutes(init, le);
      InsertByPermutes(SortBy(init, le), s[|s| - 1], le);
      assert s == init + [s[|s| - 1]];
    }
  }

  /** The result of sorting is ordered. */
  lemma {:induction false} SortBySorted<T(!new)>(s: seq<T>, le: (T, T) -> bool)
    requires TotalPreorder(le)
    ensures SortedBy(SortBy(s, le), le)
  {
    if s != [] {
      var init := s[..|s| - 1];
      SortBySorted(init, le);
      InsertBySorted(SortBy(init, le), s[|s| - 1], le);
    }
  }

  /** Sorting what is already in order changes nothing. */
  lemma {:induction false} SortByIdentity<T>(s: seq<T>, le: (T, T) -> bool)
    requires SortedBy(s, le)
    ensures SortBy(s, le) == s
  {
    if s != [] {
      var init := s[..|s| - 1];
      assert SortedBy(init, le);
      SortByIdentity(init, le);
      if |init| > 0 {
        assert le(s[|s| - 2], s[|s| - 1]);
      }
      assert init + [s[|s| - 1]] == s;
    }
  }

  predicate StrictlyIncreasing(s: seq<int>)
  {
    forall i, j :: 0 <= i < j < |s| ==> s[i] < s[j]
  }

  function IntLe(a: int, b: int): bool
  {
    a <= b
  }

  /** Drops every element equal to its predecessor. */
  function DedupAdjacent(s: seq<int>): (r: seq<int>)
    ensures |r| <= |s|
    ensures forall x :: x in r <==> x in s
    ensures |s| > 0 ==> |r| > 0 && r[|r| - 1] == s[|s| - 1]
  {
    if |s| <= 1 then s
    else
      var init := DedupAdjacent(s[..|s| - 1]);
      assert s[..|s| - 1][|s| - 2] == s[|s| - 2];
      if s[|s| - 2] == s[|s| - 1] then
        assert forall x :: x in s <==> x in s[..|s| - 1] || x == s[|s| - 1];
        init
      else
        assert forall x :: x in s <==> x in s[..|s| - 1] || x == s[|s| - 1];
        init + [s[|s| - 1]]
  }

  lemma {:induction false} DedupIncreasing(s: seq<int>)
    requires forall i, j :: 0 <= i < j < |s| ==> s[i] <= s[j]
    ensures StrictlyIncreasing(DedupAdjacent(s))
  {
    if |s| > 1 {
      var init := s[..|s| - 1];
      DedupIncreasing(init);
      var d := DedupAdjacent(init);
      if s[|s| - 2] != s[|s| - 1] {
        var r := d + [s[|s| - 1]];
        forall i, j | 0 <= i < j < |r| ensures r[i] < r[j] {
          if j == |r| - 1 {
            assert r[i] in init;
            var m :| 0 <= m < |init| && init[m] == r[i];
            assert s[m] <= s[|s| - 2];
          }
        }
      }
    }
  }

  /** Python's `sorted(set(values))`: increasing, without repetition, with the same elements. */
  function SortedDistinct(values: seq<int>): (r: seq<int>)
  {
    DedupAdjacent(SortBy(values, IntLe))
  }

  lemma SortedDistinctProperties(values: seq<int>)
    ensures StrictlyIncreasing(SortedDistinct(values))
    ensures forall x :: x in SortedDistinct(values) <==> x in values
  {
    SortBySorted(values, IntLe);
    SortByPermutes(values, IntLe);
    var sorted := SortBy(values, IntLe);
    assert forall x :: x in sorted <==> x in multiset(sorted);
    assert forall x :: x in values <==> x in multiset(values);
    DedupIncreasing(sorted);
  }

  /** Rust's `Ord` on strings, as a less-or-equal. */
  function StringLe(a: string, b: string): bool
  {
    CompareStrings(a, b) != Greater
  }

  lemma {:induction false} CompareStringsTransitive(a: string, b: string, c: string)
    requires CompareStrings(a, b) != Greater && CompareStrings(b, c) != Greater
    ensures CompareStrings(a, c) != Greater
  {
    if a != [] && b != [] && c != [] && a[0] == b[0] && b[0] == c[0] {
      CompareStringsTransitive(a[1..], b[1..], c[1..]);
    }
  }

  lemma StringLeTotal()
    ensures TotalPreorder(StringLe)
  {
    forall a, b ensures StringLe(a, b) || StringLe(b, a) {
      CompareStringsAntisymmetric(a, b);
    }
    forall a, b, c | StringLe(a, b) && StringLe(b, c) ensures StringLe(a, c) {
      CompareStringsTransitive(a, b, c);
    }
  }
}
