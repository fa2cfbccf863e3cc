/**
 * `_populate_token_position_histogram` (natural_language_stats_generator.py,
 * lines 325-335): the histogram of the position buckets a token occurred in.
 */
module PositionHistograms {
  import opened Ratios

  /** One bucket of a token's position histogram. */
  datatype PositionBucket = PositionBucket(lowValue: Ratio, highValue: Ratio, sampleCount: nat)

  // ---------------------------------------------------------------------
  // Sorting the bucket indexes and building the buckets

  predicate StrictlyIncreasing(r: seq<int>)
  {
    forall i, j :: 0 <= i < j < |r| ==> r[i] < r[j]
  }

  lemma NonEmptySet(s: set<int>)
    requires s != {}
    ensures exists k :: k in s
  {
    if forall k :: k !in s {
      assert false;
    }
  }

  lemma NonEmptyMultiset(ms: multiset<int>)
    requires |ms| > 0
    ensures exists k :: k in ms
  {
    if forall k :: k !in ms {
      assert false;
    }
  }

  lemma {:induction false} MinExists(s: set<int>)
    requires s != {}
    ensures exists m :: m in s && forall k :: k in s ==> m <= k
    decreases |s|
  {
    NonEmptySet(s);
    var a :| a in s;
    var rest := s - {a};
    var lo := a;
    if rest != {} {
      MinExists(rest);
      var m :| m in rest && forall k :: k in rest ==> m <= k;
      lo := if a < m then a else m;
    }
    assert forall k :: k in rest ==> lo <= k;
    forall k | k in s
      ensures lo <= k
    {
      assert k == a || k in rest;
    }
  }

  function SetMin(s: set<int>): (m: int)
    requires s != {}
    ensures m in s && forall x :: x in s ==> m <= x
  {
    MinExists(s);
    var m :| m in s && forall x :: x in s ==> m <= x;
    m
  }

  /** `positions.sort(key=lambda x: x[0])` on the distinct keys of the
      counter: the keys in ascending order. */
  function SortedKeys(s: set<int>): (r: seq<int>)
    ensures StrictlyIncreasing(r)
    ensures forall k :: k in r <==> k in s
    ensures |r| == |s|
    decreases |s|
  {
    if s == {} then []
    else
      var m := SetMin(s);
      var rest := SortedKeys(s - {m});
      assert forall k :: k in rest ==> m < k;
      [m] + rest
  }

  /** The bucket indexes the counter holds. */
  function Keys(ms: multiset<int>): set<int>
  {
    set k | k in ms
  }

  /** Lines 331-335 for the keys `keys`, in their order: bucket `k` covers
      `[k / buckets, (k + 1) / buckets)` and holds the count of `k`. */
  function BucketsFor(positions: multiset<int>, keys: seq<int>, buckets: int): (r: seq<PositionBucket>)
    ensures |r| == |keys|
    ensures forall i :: 0 <= i < |keys| ==>
              r[i] == PositionBucket(Ratio(keys[i], buckets), Ratio(keys[i] + 1, buckets), positions[keys[i]])
  {
    if |keys| == 0 then []
    else
      [PositionBucket(Ratio(keys[0], buckets), Ratio(keys[0] + 1, buckets), positions[keys[0]])]
        + BucketsFor(positions, keys[1..], buckets)
  }

  /** `_populate_token_position_histogram` (lines 325-335). */
  function PositionHistogram(positions: multiset<int>, buckets: int): seq<PositionBucket>
  {
    BucketsFor(positions, SortedKeys(Keys(positions)), buckets)
  }

  function SampleTotal(r: seq<PositionBucket>): nat
  {
    if |r| == 0 then 0 else r[0].sampleCount + SampleTotal(r[1..])
  }

  /** The sum over `keys` of the count of each key. */
  function CountSum(ms: multiset<int>, keys: seq<int>): nat
  {
    if |keys| == 0 then 0 else ms[keys[0]] + CountSum(ms, keys[1..])
  }

  lemma {:induction false} SampleTotalIsCountSum(positions: multiset<int>, keys: seq<int>, buckets: int)
    ensures SampleTotal(BucketsFor(positions, keys, buckets)) == CountSum(positions, keys)
  {
    if |keys| > 0 {
      SampleTotalIsCountSum(positions, keys[1..], buckets);
    }
  }

  lemma {:induction false} CountSumEmpty(keys: seq<int>)
    ensures CountSum(multiset{}, keys) == 0
  {
    if |keys| > 0 {
      CountSumEmpty(keys[1..]);
    }
  }

  lemma {:induction false} CountSumAdd(ms: multiset<int>, x: int, keys: seq<int>)
    requires StrictlyIncreasing(keys)
    ensures CountSum(ms + multiset{x}, keys) == CountSum(ms, keys) + (if x in keys then 1 else 0)
  {
    if |keys| > 0 {
      CountSumAdd(ms, x, keys[1..]);
      assert x in keys <==> x == keys[0] || x in keys[1..];
      assert x == keys[0] ==> x !in keys[1..];
    }
  }

  /** Summing the counts of a list of distinct keys that covers the
      counter gives the counter's size. */
  lemma {:induction false} CountSumAll(ms: multiset<int>, keys: seq<int>)
    requires StrictlyIncreasing(keys)
    requires forall k :: k in ms ==> k in keys
    ensures CountSum(ms, keys) == |ms|
    decreases |ms|
  {
    if |ms| == 0 {
      assert ms == multiset{};
      CountSumEmpty(keys);
    } else {
      NonEmptyMultiset(ms);
      var x :| x in ms;
      var rest := ms - multiset{x};
      assert ms == rest + multiset{x};
      CountSumAll(rest, keys);
      CountSumAdd(rest, x, keys);
    }
  }

  /** The histogram's sample counts add up to the number of recorded
      occurrences. */
  lemma PositionSamplesTotal(positions: multiset<int>, buckets: int)
    ensures SampleTotal(PositionHistogram(positions, buckets)) == |positions|
  {
    var keys := SortedKeys(Keys(positions));
    SampleTotalIsCountSum(positions, keys, buckets);
    CountSumAll(positions, keys);
  }

  /** Every bucket is the slice `[k / buckets, (k + 1) / buckets)` of a
      bucket index `k` the counter holds, and carries the count of `k`. */
  lemma PositionBucketsFromCounter(positions: multiset<int>, buckets: int)
    ensures var r := PositionHistogram(positions, buckets);
            forall i :: 0 <= i < |r| ==>
              && r[i].lowValue.numerator in positions
              && r[i] == PositionBucket(Ratio(r[i].lowValue.numerator, buckets),
                                        Ratio(r[i].lowValue.numerator + 1, buckets),
                                        positions[r[i].lowValue.numerator])
  {
    var keys := SortedKeys(Keys(positions));
    var r := BucketsFor(positions, keys, buckets);
    forall i | 0 <= i < |r|
      ensures keys[i] in positions
    {
      assert keys[i] in Keys(positions);
    }
  }

  /** The bucket of one index the counter holds. */
  lemma KeyHasBucket(positions: multiset<int>, buckets: int, k: int)
    requires k in positions
    ensures var r := PositionHistogram(positions, buckets);
            exists i :: 0 <= i < |r| && r[i].lowValue.numerator == k
  {
    var keys := SortedKeys(Keys(positions));
    var r := BucketsFor(positions, keys, buckets);
    assert r == PositionHistogram(positions, buckets);
    assert k in Keys(positions);
    assert k in keys;
    var i :| 0 <= i < |keys| && keys[i] == k;
    assert r[i].lowValue.numerator == k;
  }

  /** Every bucket index the counter holds has its bucket. */
  lemma PositionCounterCovered(positions: multiset<int>, buckets: int)
    ensures var r := PositionHistogram(positions, buckets);
            forall k :: k in positions ==> exists i :: 0 <= i < |r| && r[i].lowValue.numerator == k
  {
    forall k | k in positions
      ensures var r := PositionHistogram(positions, buckets);
              exists i :: 0 <= i < |r| && r[i].lowValue.numerator == k
    {
      KeyHasBucket(positions, buckets, k);
    }
  }

  /** The buckets come in ascending order of the bucket index. */
  lemma PositionBucketsAscending(positions: multiset<int>, buckets: int)
    ensures var r := PositionHistogram(positions, buckets);
            forall i, j :: 0 <= i < j < |r| ==> r[i].lowValue.numerator < r[j].lowValue.numerator
  {
  }

  /** With a positive bucket count and indexes in `[0, buckets)`, as
      `Bucket` produces them, every bucket covers a slice of [0, 1]. */
  lemma PositionBucketsInUnit(positions: multiset<int>, buckets: int)
    requires buckets > 0
    requires forall k :: k in positions ==> 0 <= k < buckets
    ensures forall b :: b in PositionHistogram(positions, buckets) ==>
              0.0 <= RealValue(b.lowValue) < RealValue(b.highValue) <= 1.0
  {
    var r := PositionHistogram(positions, buckets);
    PositionBucketsFromCounter(positions, buckets);
    forall b | b in r
      ensures 0.0 <= RealValue(b.lowValue) < RealValue(b.highValue) <= 1.0
    {
      UnitValue(b.lowValue);
      UnitValue(b.highValue);
      ValueIncreasing(b.lowValue, b.highValue);
    }
  }
}
