/**
 * The two bounded lists of "reported sequences" the accumulator keeps
 * (natural_language_stats_generator.py, lines 81-86): after every insertion
 * or merge a list is stably sorted by ascending metric and cut to its first
 * five entries.
 */
module ReportedSequences {
  import opened TokenStatistics

  /** `_NUM_REPORTED_SEQUENCES_PER_TYPE`. */
  const NUM_REPORTED_SEQUENCES_PER_TYPE: nat := 5

  /** One `(resolved_entry, metric)` pair. */
  datatype Reported = Reported(sequence: seq<Token>, metric: real)

  predicate Sorted(s: seq<Reported>)
  {
    forall i, j :: 0 <= i < j < |s| ==> s[i].metric <= s[j].metric
  }

  predicate AtLeast(s: seq<Reported>, v: real)
  {
    forall x :: x in s ==> v <= x.metric
  }

  /** A stored list: sorted and within the bound. */
  predicate WellFormed(s: seq<Reported>)
  {
    Sorted(s) && |s| <= NUM_REPORTED_SEQUENCES_PER_TYPE
  }

  /** The metrics of a list, in order. */
  function Metrics(s: seq<Reported>): (r: seq<real>)
    ensures |r| == |s|
    ensures forall i :: 0 <= i < |s| ==> r[i] == s[i].metric
  {
    if |s| == 0 then [] else [s[0].metric] + Metrics(s[1..])
  }

  /** Python's slice `s[:n]`. */
  function Take<T>(s: seq<T>, n: nat): (r: seq<T>)
    ensures r <= s && |r| == if |s| <= n then |s| else n
  {
    if |s| <= n then s else s[..n]
  }

  /** Stable merge of two lists: on equal metrics the entry of `a` comes first. */
  function MergeSorted(a: seq<Reported>, b: seq<Reported>): (r: seq<Reported>)
    ensures multiset(r) == multiset(a) + multiset(b)
    ensures |r| == |a| + |b|
    decreases |a| + |b|
  {
    if |a| == 0 then b
    else if |b| == 0 then a
    else if a[0].metric <= b[0].metric then
      assert a == [a[0]] + a[1..];
      [a[0]] + MergeSorted(a[1..], b)
    else
      assert b == [b[0]] + b[1..];
      [b[0]] + MergeSorted(a, b[1..])
  }

  /** `list.sort(key=lambda x: x[1])`: Python's sort is stable, so this is
      insertion sort that places each entry after every entry with a metric
      no greater than its own. */
  function SortByMetric(s: seq<Reported>): (r: seq<Reported>)
    ensures Sorted(r)
    ensures multiset(r) == multiset(s)
    ensures |r| == |s|
  {
    if |s| == 0 then []
    else
      var init, last := s[..|s| - 1], s[|s| - 1];
      assert s == init + [last];
      MergeSortedSorted(SortByMetric(init), [last]);
      MergeSorted(SortByMetric(init), [last])
  }

  /** `_sort_and_truncate_reported_sequence` (lines 84-86). */
  function SortAndTruncate(s: seq<Reported>): (r: seq<Reported>)
    ensures WellFormed(r)
    ensures |r| == if |s| <= NUM_REPORTED_SEQUENCES_PER_TYPE then |s| else NUM_REPORTED_SEQUENCES_PER_TYPE
    ensures multiset(r) <= multiset(s)
  {
    var sorted := SortByMetric(s);
    var r := Take(sorted, NUM_REPORTED_SEQUENCES_PER_TYPE);
    assert sorted == r + sorted[|r|..];
    assert multiset(sorted) == multiset(r) + multiset(sorted[|r|..]);
    r
  }

  /** The entries of `s` whose metric is `m`, in their order in `s`. */
  function Filter(s: seq<Reported>, m: real): (r: seq<Reported>)
    ensures forall x :: x in r ==> x in s && x.metric == m
    ensures |r| <= |s|
  {
    if |s| == 0 then []
    else (if s[0].metric == m then [s[0]] else []) + Filter(s[1..], m)
  }

  // ---------------------------------------------------------------------
  // Facts about the stable merge and the stable sort

  lemma SortedCons(x: Reported, s: seq<Reported>)
    requires Sorted(s) && AtLeast(s, x.metric)
    ensures Sorted([x] + s)
  {
    var r := [x] + s;
    forall i, j | 0 <= i < j < |r|
      ensures r[i].metric <= r[j].metric
    {
      assert r[j] == s[j - 1];
      assert r[j] in s;
    }
  }

  lemma SortedTail(s: seq<Reported>)
    requires Sorted(s) && |s| > 0
    ensures Sorted(s[1..]) && AtLeast(s[1..], s[0].metric) && AtLeast(s, s[0].metric)
  {
  }

  lemma {:induction false} MergeSortedSorted(a: seq<Reported>, b: seq<Reported>)
    requires Sorted(a) && Sorted(b)
    ensures Sorted(MergeSorted(a, b))
    decreases |a| + |b|
  {
    if |a| > 0 && |b| > 0 {
      SortedTail(a);
      SortedTail(b);
      if a[0].metric <= b[0].metric {
        MergeSortedSorted(a[1..], b);
        var rest := MergeSorted(a[1..], b);
        forall x | x in rest ensures a[0].metric <= x.metric {
          assert x in multiset(rest);
        }
        SortedCons(a[0], rest);
      } else {
        MergeSortedSorted(a, b[1..]);
        var rest := MergeSorted(a, b[1..]);
        forall x | x in rest ensures b[0].metric <= x.metric {
          assert x in multiset(rest);
        }
        SortedCons(b[0], rest);
      }
    }
  }

  lemma {:induction false} FilterAppend(a: seq<Reported>, b: seq<Reported>, m: real)
    ensures Filter(a + b, m) == Filter(a, m) + Filter(b, m)
  {
    if |a| > 0 {
      assert (a + b)[0] == a[0];
      assert (a + b)[1..] == a[1..] + b;
      FilterAppend(a[1..], b, m);
      var h := if a[0].metric == m then [a[0]] else [];
      assert Filter(a + b, m) == h + Filter(a[1..] + b, m);
      assert Filter(a, m) == h + Filter(a[1..], m);
    } else {
      assert a + b == b;
    }
  }

  lemma FilterCons(x: Reported, s: seq<Reported>, m: real)
    ensures Filter([x] + s, m) == (if x.metric == m then [x] else []) + Filter(s, m)
  {
    assert ([x] + s)[0] == x && ([x] + s)[1..] == s;
  }

  lemma {:induction false} FilterAbsent(s: seq<Reported>, m: real)
    requires forall x :: x in s ==> x.metric != m
    ensures Filter(s, m) == []
  {
    if |s| > 0 {
      assert s[0] in s;
      FilterAbsent(s[1..], m);
    }
  }

  lemma FilterBelow(s: seq<Reported>, m: real, v: real)
    requires AtLeast(s, v) && m < v
    ensures Filter(s, m) == []
  {
    FilterAbsent(s, m);
  }

  lemma MergeFilterStepLeft(a: seq<Reported>, b: seq<Reported>, m: real)
    requires |a| > 0 && |b| > 0 && a[0].metric <= b[0].metric
    requires Filter(MergeSorted(a[1..], b), m) == Filter(a[1..], m) + Filter(b, m)
    ensures Filter(MergeSorted(a, b), m) == Filter(a, m) + Filter(b, m)
  {
    var h := if a[0].metric == m then [a[0]] else [];
    var fa, fb := Filter(a[1..], m), Filter(b, m);
    calc {
      Filter(MergeSorted(a, b), m);
      { MergeSortedLeft(a, b); }
      Filter([a[0]] + MergeSorted(a[1..], b), m);
      { FilterCons(a[0], MergeSorted(a[1..], b), m); }
      h + (fa + fb);
      { assert h + (fa + fb) == (h + fa) + fb; }
      (h + fa) + fb;
      { FilterCons(a[0], a[1..], m); assert [a[0]] + a[1..] == a; }
      Filter(a, m) + fb;
    }
  }

  /** Putting the head `x` of `full` in front of `rest`, whose entries of
      metric `m` are `fa` then those of `full`'s tail, puts it after `fa`
      when `fa` is empty or `x` has another metric. */
  lemma FilterHeadStep(x: Reported, rest: seq<Reported>, full: seq<Reported>, fa: seq<Reported>, m: real)
    requires |full| > 0 && full[0] == x
    requires x.metric == m ==> fa == []
    requires Filter(rest, m) == fa + Filter(full[1..], m)
    ensures Filter([x] + rest, m) == fa + Filter(full, m)
  {
    var fb := Filter(full[1..], m);
    var h := if x.metric == m then [x] else [];
    FilterCons(x, rest, m);
    assert Filter(full, m) == h + fb;
    SwapEmpty(h, fa, fb);
  }

  /** When one of `h` and `f` is empty, they can trade places. */
  lemma SwapEmpty(h: seq<Reported>, f: seq<Reported>, g: seq<Reported>)
    requires h == [] || f == []
    ensures h + (f + g) == f + (h + g)
  {
    if h == [] {
      assert h + (f + g) == f + g == f + (h + g);
    } else {
      assert h + (f + g) == h + g == f + (h + g);
    }
  }

  lemma MergeFilterStepRight(a: seq<Reported>, b: seq<Reported>, m: real)
    requires |a| > 0 && |b| > 0 && b[0].metric < a[0].metric
    requires b[0].metric == m ==> Filter(a, m) == []
    requires Filter(MergeSorted(a, b[1..]), m) == Filter(a, m) + Filter(b[1..], m)
    ensures Filter(MergeSorted(a, b), m) == Filter(a, m) + Filter(b, m)
  {
    MergeSortedRight(a, b);
    FilterHeadStep(b[0], MergeSorted(a, b[1..]), b, Filter(a, m), m);
  }

  /** The stable merge keeps, for every metric value, the entries of `a`
      before those of `b`, each in their own order. */
  lemma {:induction false} MergeSortedFilter(a: seq<Reported>, b: seq<Reported>, m: real)
    requires Sorted(a) && Sorted(b)
    ensures Filter(MergeSorted(a, b), m) == Filter(a, m) + Filter(b, m)
    decreases |a| + |b|
  {
    if |a| == 0 {
      MergeSortedEmpty(a, b);
    } else if |b| == 0 {
      MergeSortedEmpty(a, b);
    } else if a[0].metric <= b[0].metric {
      SortedTail(a);
      MergeSortedFilter(a[1..], b, m);
      MergeFilterStepLeft(a, b, m);
    } else {
      SortedTail(a);
      SortedTail(b);
      MergeSortedFilter(a, b[1..], m);
      if b[0].metric == m {
        FilterBelow(a, m, a[0].metric);
      }
      MergeFilterStepRight(a, b, m);
    }
  }

  /** Sorting is stable: for every metric value, the entries with that value
      keep the order they had in the input. */
  lemma {:induction false} SortKeepsTies(s: seq<Reported>, m: real)
    ensures Filter(SortByMetric(s), m) == Filter(s, m)
  {
    if |s| > 0 {
      var init, last := s[..|s| - 1], s[|s| - 1];
      assert s == init + [last];
      SortKeepsTies(init, m);
      MergeSortedFilter(SortByMetric(init), [last], m);
      FilterAppend(init, [last], m);
    }
  }

  lemma FilterHead(s: seq<Reported>, m: real)
    requires |s| > 0 && Sorted(s) && Filter(s, m) != []
    ensures s[0].metric <= m
  {
    var x := Filter(s, m)[0];
    assert x in Filter(s, m);
  }

  /** A list is empty exactly when every metric value has no entries. */
  lemma FilterCountsEmpty(r1: seq<Reported>, r2: seq<Reported>)
    requires forall m :: |Filter(r1, m)| == |Filter(r2, m)|
    ensures |r1| == 0 <==> |r2| == 0
  {
    if |r1| > 0 {
      assert |Filter(r1, r1[0].metric)| > 0;
    }
    if |r2| > 0 {
      assert |Filter(r2, r2[0].metric)| > 0;
    }
  }

  /** A sorted list is determined by its entries of each metric value, in
      order: two sorted lists that agree on them are equal. */
  lemma {:induction false} SortedUnique(r1: seq<Reported>, r2: seq<Reported>)
    requires Sorted(r1) && Sorted(r2)
    requires forall m :: Filter(r1, m) == Filter(r2, m)
    ensures r1 == r2
    decreases |r1|
  {
    FilterCountsEmpty(r1, r2);
    if |r1| > 0 {
      var m1, m2 := r1[0].metric, r2[0].metric;
      assert Filter(r1, m1)[0] == r1[0];
      assert Filter(r2, m2)[0] == r2[0];
      FilterHead(r2, m1);
      FilterHead(r1, m2);
      assert m1 == m2;
      assert r1[0] == r2[0];
      forall m
        ensures Filter(r1[1..], m) == Filter(r2[1..], m)
      {
        var p := if m1 == m then [r1[0]] else [];
        assert Filter(r1, m) == p + Filter(r1[1..], m);
        assert Filter(r2, m) == p + Filter(r2[1..], m);
        assert Filter(r1[1..], m) == Filter(r1, m)[|p|..];
        assert Filter(r2[1..], m) == Filter(r2, m)[|p|..];
      }
      SortedTail(r1);
      SortedTail(r2);
      SortedUnique(r1[1..], r2[1..]);
      assert r1 == [r1[0]] + r1[1..];
      assert r2 == [r2[0]] + r2[1..];
    }
  }

  lemma SortOfSorted(s: seq<Reported>)
    requires Sorted(s)
    ensures SortByMetric(s) == s
  {
    forall m ensures Filter(SortByMetric(s), m) == Filter(s, m) {
      SortKeepsTies(s, m);
    }
    SortedUnique(SortByMetric(s), s);
  }

  /** Sorting a concatenation is merging the sorted halves. */
  lemma SortAppend(a: seq<Reported>, b: seq<Reported>)
    ensures SortByMetric(a + b) == MergeSorted(SortByMetric(a), SortByMetric(b))
  {
    var l, r := SortByMetric(a + b), MergeSorted(SortByMetric(a), SortByMetric(b));
    MergeSortedSorted(SortByMetric(a), SortByMetric(b));
    forall m ensures Filter(l, m) == Filter(r, m) {
      SortKeepsTies(a + b, m);
      FilterAppend(a, b, m);
      MergeSortedFilter(SortByMetric(a), SortByMetric(b), m);
      SortKeepsTies(a, m);
      SortKeepsTies(b, m);
    }
    SortedUnique(l, r);
  }

  lemma TakeCons(x: Reported, s: seq<Reported>, k: nat)
    requires k > 0
    ensures Take([x] + s, k) == [x] + Take(s, k - 1)
  {
  }

  lemma TakeTail(a: seq<Reported>, j: nat)
    requires 0 < j < |a|
    ensures Take(a, j) == [a[0]] + Take(a[1..], j - 1)
  {
  }

  lemma TakeTake(a: seq<Reported>, j: nat, k: nat)
    requires k <= j
    ensures Take(Take(a, j), k) == Take(a, k)
  {
  }

  lemma MergeSortedLeft(a: seq<Reported>, b: seq<Reported>)
    requires |a| > 0 && |b| > 0 && a[0].metric <= b[0].metric
    ensures MergeSorted(a, b) == [a[0]] + MergeSorted(a[1..], b)
  {
  }

  lemma MergeSortedRight(a: seq<Reported>, b: seq<Reported>)
    requires |a| > 0 && |b| > 0 && b[0].metric < a[0].metric
    ensures MergeSorted(a, b) == [b[0]] + MergeSorted(a, b[1..])
  {
  }

  lemma MergeSortedEmpty(a: seq<Reported>, b: seq<Reported>)
    ensures |a| == 0 ==> MergeSorted(a, b) == b
    ensures |b| == 0 ==> MergeSorted(a, b) == a
  {
  }

  /** Cutting the left list to `j >= k` entries does not change the first
      `k` entries of the merge. */
  lemma {:induction false} TakeMergeLeft(a: seq<Reported>, b: seq<Reported>, j: nat, k: nat)
    requires k <= j
    ensures Take(MergeSorted(a, b), k) == Take(MergeSorted(Take(a, j), b), k)
    decreases |a| + |b|
  {
    if k == 0 || |a| <= j {
    } else if |b| == 0 {
      MergeSortedEmpty(a, b);
      MergeSortedEmpty(Take(a, j), b);
      TakeTake(a, j, k);
    } else {
      var ta := Take(a, j);
      TakeTail(a, j);
      assert ta[0] == a[0] && ta[1..] == Take(a[1..], j - 1);
      if a[0].metric <= b[0].metric {
        TakeMergeLeft(a[1..], b, j - 1, k - 1);
        MergeSortedLeft(a, b);
        MergeSortedLeft(ta, b);
        TakeCons(a[0], MergeSorted(a[1..], b), k);
        TakeCons(a[0], MergeSorted(ta[1..], b), k);
      } else {
        TakeMergeLeft(a, b[1..], j, k - 1);
        MergeSortedRight(a, b);
        MergeSortedRight(ta, b);
        TakeCons(b[0], MergeSorted(a, b[1..]), k);
        TakeCons(b[0], MergeSorted(ta, b[1..]), k);
      }
    }
  }

  /** The same for the right list. */
  lemma {:induction false} TakeMergeRight(a: seq<Reported>, b: seq<Reported>, j: nat, k: nat)
    requires k <= j
    ensures Take(MergeSorted(a, b), k) == Take(MergeSorted(a, Take(b, j)), k)
    decreases |a| + |b|
  {
    if k == 0 || |b| <= j {
    } else if |a| == 0 {
      MergeSortedEmpty(a, b);
      MergeSortedEmpty(a, Take(b, j));
      TakeTake(b, j, k);
    } else {
      var tb := Take(b, j);
      TakeTail(b, j);
      assert tb[0] == b[0] && tb[1..] == Take(b[1..], j - 1);
      if a[0].metric <= b[0].metric {
        TakeMergeRight(a[1..], b, j, k - 1);
        MergeSortedLeft(a, b);
        MergeSortedLeft(a, tb);
        TakeCons(a[0], MergeSorted(a[1..], b), k);
        TakeCons(a[0], MergeSorted(a[1..], tb), k);
      } else {
        TakeMergeRight(a, b[1..], j - 1, k - 1);
        MergeSortedRight(a, b);
        MergeSortedRight(a, tb);
        TakeCons(b[0], MergeSorted(a, b[1..]), k);
        TakeCons(b[0], MergeSorted(a, tb[1..]), k);
      }
    }
  }

  // ---------------------------------------------------------------------
  // What sort-and-truncate promises

  /** The kept entries are the smallest: none of them has a larger metric
      than any entry that was dropped. */
  lemma SortAndTruncateKeepsSmallest(s: seq<Reported>, x: Reported, y: Reported)
    requires x in SortAndTruncate(s)
    requires y in multiset(s) - multiset(SortAndTruncate(s))
    ensures x.metric <= y.metric
  {
    var sorted := SortByMetric(s);
    var k := |SortAndTruncate(s)|;
    assert SortAndTruncate(s) == sorted[..k];
    DroppedInTail(s, y);
    SortedPrefixSmallest(sorted, k, x, y);
  }

  lemma DroppedInTail(s: seq<Reported>, y: Reported)
    requires y in multiset(s) - multiset(SortAndTruncate(s))
    ensures y in SortByMetric(s)[|SortAndTruncate(s)|..]
  {
    var sorted := SortByMetric(s);
    var r := SortAndTruncate(s);
    var dropped := sorted[|r|..];
    assert sorted == r + dropped;
    assert multiset(sorted) == multiset(r) + multiset(dropped);
    assert multiset(dropped)[y] > 0;
  }

  lemma SortedPrefixSmallest(sorted: seq<Reported>, k: nat, x: Reported, y: Reported)
    requires Sorted(sorted) && k <= |sorted|
    requires x in sorted[..k] && y in sorted[k..]
    ensures x.metric <= y.metric
  {
    var i :| 0 <= i < k && sorted[..k][i] == x;
    var j :| 0 <= j < |sorted| - k && sorted[k..][j] == y;
    assert sorted[i] == x && sorted[k + j] == y;
  }

  /** Ties go to the earlier entry: for every metric value the kept entries
      with that value are a prefix of the input's entries with that value. */
  lemma SortAndTruncateStable(s: seq<Reported>, m: real)
    ensures Filter(SortAndTruncate(s), m) <= Filter(s, m)
  {
    var sorted := SortByMetric(s);
    var r := SortAndTruncate(s);
    var rest := sorted[|r|..];
    assert sorted == r + rest;
    FilterAppend(r, rest, m);
    SortKeepsTies(s, m);
    assert Filter(s, m) == Filter(r, m) + Filter(rest, m);
  }

  /** A stored list is its own sort-and-truncate, so merging with an empty
      list changes nothing. */
  lemma SortAndTruncateIdentity(s: seq<Reported>)
    requires WellFormed(s)
    ensures SortAndTruncate(s) == s
    ensures SortAndTruncate([] + s) == s && SortAndTruncate(s + []) == s
  {
    SortOfSorted(s);
    assert [] + s == s && s + [] == s;
  }

  /** Truncating early does not matter: sort-and-truncate of a list whose
      left part was already sorted and truncated equals sort-and-truncate of
      the whole. */
  lemma TruncateLeftEarly(a: seq<Reported>, c: seq<Reported>)
    ensures SortAndTruncate(SortAndTruncate(a) + c) == SortAndTruncate(a + c)
  {
    var k := NUM_REPORTED_SEQUENCES_PER_TYPE;
    var t := SortAndTruncate(a);
    SortAppend(t, c);
    SortOfSorted(t);
    TakeMergeLeft(SortByMetric(a), SortByMetric(c), k, k);
    SortAppend(a, c);
  }

  lemma TruncateRightEarly(a: seq<Reported>, c: seq<Reported>)
    ensures SortAndTruncate(a + SortAndTruncate(c)) == SortAndTruncate(a + c)
  {
    var k := NUM_REPORTED_SEQUENCES_PER_TYPE;
    var t := SortAndTruncate(c);
    SortAppend(a, t);
    SortOfSorted(t);
    TakeMergeRight(SortByMetric(a), SortByMetric(c), k, k);
    SortAppend(a, c);
  }

  /** Merging reported lists (lines 160-166) is associative: both groupings
      keep the first five entries of the stable sort of all entries. */
  lemma ReportedMergeAssociates(a: seq<Reported>, b: seq<Reported>, c: seq<Reported>)
    ensures SortAndTruncate(SortAndTruncate(a + b) + c) == SortAndTruncate(a + SortAndTruncate(b + c))
    ensures SortAndTruncate(a + SortAndTruncate(b + c)) == SortAndTruncate(a + b + c)
  {
    var ab, bc := a + b, b + c;
    assert ab + c == a + bc;
    TruncateLeftEarly(ab, c);
    TruncateRightEarly(a, bc);
  }

  lemma {:induction false} SortedSameCounts(r1: seq<Reported>, r2: seq<Reported>)
    requires Sorted(r1) && Sorted(r2)
    requires forall m :: |Filter(r1, m)| == |Filter(r2, m)|
    ensures Metrics(r1) == Metrics(r2)
    decreases |r1|
  {
    FilterCountsEmpty(r1, r2);
    if |r1| > 0 {
      var m1, m2 := r1[0].metric, r2[0].metric;
      assert Filter(r1, m1) != [];
      assert Filter(r2, m2) != [];
      FilterHead(r2, m1);
      FilterHead(r1, m2);
      forall m
        ensures |Filter(r1[1..], m)| == |Filter(r2[1..], m)|
      {
        assert |Filter(r1, m)| == (if m1 == m then 1 else 0) + |Filter(r1[1..], m)|;
        assert |Filter(r2, m)| == (if m2 == m then 1 else 0) + |Filter(r2[1..], m)|;
      }
      SortedTail(r1);
      SortedTail(r2);
      SortedSameCounts(r1[1..], r2[1..]);
    }
  }

  /** Both orders of a merge hold the same number of entries of each
      metric value once sorted. */
  lemma SortedTieCountsCommute(a: seq<Reported>, b: seq<Reported>, m: real)
    ensures |Filter(SortByMetric(a + b), m)| == |Filter(SortByMetric(b + a), m)|
  {
    SortKeepsTies(a + b, m);
    SortKeepsTies(b + a, m);
    FilterAppend(a, b, m);
    FilterAppend(b, a, m);
  }

  /** The first `k` metric values of two sequences with equal metrics agree. */
  lemma TakeMetrics(s1: seq<Reported>, s2: seq<Reported>, k: nat)
    requires Metrics(s1) == Metrics(s2)
    ensures Metrics(Take(s1, k)) == Metrics(Take(s2, k))
  {
    var t1, t2 := Take(s1, k), Take(s2, k);
    assert |t1| == |t2|;
    forall i | 0 <= i < |t1| ensures Metrics(t1)[i] == Metrics(t2)[i] {
      assert Metrics(s1)[i] == Metrics(s2)[i];
    }
  }

  /** Merging reported lists is commutative up to ties: both orders keep
      the same sequence of metric values (ties may keep different entries). */
  lemma ReportedMergeMetricsCommute(a: seq<Reported>, b: seq<Reported>)
    ensures Metrics(SortAndTruncate(a + b)) == Metrics(SortAndTruncate(b + a))
  {
    var s1, s2 := SortByMetric(a + b), SortByMetric(b + a);
    forall m ensures |Filter(s1, m)| == |Filter(s2, m)| {
      SortedTieCountsCommute(a, b, m);
    }
    SortedSameCounts(s1, s2);
    TakeMetrics(s1, s2, NUM_REPORTED_SEQUENCES_PER_TYPE);
  }
}
