/**
 * Per-token statistics of the natural-language combiner: the `_TokenStats`
 * record and its merge (natural_language_stats_generator.py, lines 89-112),
 * and the update one row makes to it (lines 180-201).
 */
module TokenStatistics {
  import opened Wrappers

  /** A token of a sequence. The source keys its per-token map by Python ints
      and strs, which never compare equal; here they are two constructors. */
  datatype Token = IntToken(id: int) | StrToken(text: string)

  /** `_TokenStats`. The `positions` Counter only ever holds positive counts,
      so it is the multiset of the position buckets of all occurrences. */
  datatype TokenStats = TokenStats(
    frequency: nat,
    numSequences: nat,
    perSequenceMinFrequency: Option<nat>,
    perSequenceMaxFrequency: Option<nat>,
    positions: multiset<int>)

  /** A freshly constructed `_TokenStats()`. */
  const EMPTY_TOKEN_STATS := TokenStats(0, 0, None, None, multiset{})

  function Min(a: nat, b: nat): nat { if a <= b then a else b }

  function Max(a: nat, b: nat): nat { if a <= b then b else a }

  /** The merge rule of lines 103-110 for the minimum bound: the smaller of
      the two when both are present; an absent bound takes the other side. */
  function CombineMin(x: Option<nat>, y: Option<nat>): (r: Option<nat>)
    ensures r.None? <==> x.None? && y.None?
    ensures r.Some? ==> r == x || r == y
    ensures x.Some? ==> r.Some? && r.value <= x.value
    ensures y.Some? ==> r.Some? && r.value <= y.value
  {
    if x.Some? && y.Some? then Some(Min(x.value, y.value))
    else if x.None? then y
    else x
  }

  /** The same rule for the maximum bound. */
  function CombineMax(x: Option<nat>, y: Option<nat>): (r: Option<nat>)
    ensures r.None? <==> x.None? && y.None?
    ensures r.Some? ==> r == x || r == y
    ensures x.Some? ==> r.Some? && x.value <= r.value
    ensures y.Some? ==> r.Some? && y.value <= r.value
  {
    if x.Some? && y.Some? then Some(Max(x.value, y.value))
    else if x.None? then y
    else x
  }

  /** `_TokenStats.__iadd__` (lines 99-112) on values: `a += b`. */
  function MergeTokenStats(a: TokenStats, b: TokenStats): (r: TokenStats)
    ensures r.frequency == a.frequency + b.frequency
    ensures r.numSequences == a.numSequences + b.numSequences
    ensures forall k :: r.positions[k] == a.positions[k] + b.positions[k]
    ensures r.perSequenceMinFrequency == CombineMin(a.perSequenceMinFrequency, b.perSequenceMinFrequency)
    ensures r.perSequenceMaxFrequency == CombineMax(a.perSequenceMaxFrequency, b.perSequenceMaxFrequency)
  {
    TokenStats(
      a.frequency + b.frequency,
      a.numSequences + b.numSequences,
      CombineMin(a.perSequenceMinFrequency, b.perSequenceMinFrequency),
      CombineMax(a.perSequenceMaxFrequency, b.perSequenceMaxFrequency),
      a.positions + b.positions)
  }

  /** The invariant every `_TokenStats` built by row updates and merges keeps:
      a token occurs at least once in each sequence counted as containing it,
      each occurrence has exactly one position bucket, and the per-sequence
      bounds bracket the average frequency of the sequences that contain it. */
  ghost predicate ValidTokenStats(ts: TokenStats)
  {
    && ts.numSequences <= ts.frequency
    && |ts.positions| == ts.frequency
    && ts.perSequenceMinFrequency.Some? == ts.perSequenceMaxFrequency.Some?
    && (ts.perSequenceMinFrequency.None? ==> ts.frequency == 0)
    && (ts.perSequenceMinFrequency.Some? ==>
          var lo, hi := ts.perSequenceMinFrequency.value, ts.perSequenceMaxFrequency.value;
          && lo <= hi
          && lo * ts.numSequences <= ts.frequency <= hi * ts.numSequences)
  }

  /** The buckets `Bucket` can return for a bucket count of `buckets`. */
  predicate InBucketRange(k: int, buckets: int)
  {
    if buckets > 0 then 0 <= k < buckets
    else if buckets < 0 then buckets < k <= 0
    else k == 0
  }

  lemma DivBelow(a: nat, b: nat, n: nat)
    requires 0 < n && a < b * n
    ensures a / n < b
  {
  }

  lemma MulStrict(i: nat, n: nat, b: nat)
    requires i < n && 0 < b
    ensures i * b < b * n
  {
  }

  /** Line 200: `int(float(i) / len(row) * num_histogram_buckets)`, computed
      on exact rationals: `i * buckets / n` truncated toward zero, as Python's
      `int()` truncates (Dafny's `/` on `int` is Euclidean). */
  function Bucket(i: nat, n: nat, buckets: int): (k: int)
    requires i < n
    ensures InBucketRange(k, buckets)
  {
    if buckets == 0 then 0
    else if buckets > 0 then
      MulStrict(i, n, buckets);
      DivBelow(i * buckets, buckets, n);
      i * buckets / n
    else
      var b: nat := -buckets;
      MulStrict(i, n, b);
      DivBelow(i * b, b, n);
      -(i * b / n)
  }

  /** The bucket of every occurrence of `t` among the first `j` entries of
      `row` (line 187 and lines 199-201), the denominator being the whole
      row's length. */
  function BucketsOf(row: seq<Token>, t: Token, buckets: int, j: nat): (ms: multiset<int>)
    requires j <= |row|
    ensures |ms| == multiset(row[..j])[t]
    ensures forall k :: k in ms ==> InBucketRange(k, buckets)
    decreases j
  {
    if j == 0 then multiset{}
    else
      assert row[..j] == row[..j - 1] + [row[j - 1]];
      BucketsOf(row, t, buckets, j - 1)
        + (if row[j - 1] == t then multiset{Bucket(j - 1, |row|, buckets)} else multiset{})
  }

  /** Lines 187-201: what one row does to the statistics of token `t`.
      `count` is the number of occurrences (0 when the row lacks `t`). */
  function UpdateToken(ts: TokenStats, row: seq<Token>, t: Token, buckets: int): TokenStats
  {
    var count := multiset(row)[t];
    TokenStats(
      ts.frequency + count,
      ts.numSequences + (if count > 0 then 1 else 0),
      Some(if ts.perSequenceMinFrequency.Some? then Min(ts.perSequenceMinFrequency.value, count) else count),
      Some(if ts.perSequenceMaxFrequency.Some? then Max(ts.perSequenceMaxFrequency.value, count) else count),
      ts.positions + BucketsOf(row, t, buckets, |row|))
  }

  /** The statistics of `t` over the single sequence `row`. */
  function RowTokenStats(row: seq<Token>, t: Token, buckets: int): (r: TokenStats)
    ensures ValidTokenStats(r)
    ensures r.frequency == multiset(row)[t]
    ensures r.numSequences == (if t in row then 1 else 0)
    ensures r.perSequenceMinFrequency == r.perSequenceMaxFrequency == Some(r.frequency)
  {
    var count := multiset(row)[t];
    assert row[..|row|] == row;
    TokenStats(count, if count > 0 then 1 else 0, Some(count), Some(count), BucketsOf(row, t, buckets, |row|))
  }

  // ---------------------------------------------------------------------
  // The merge of token statistics is a commutative monoid

  lemma MergeTokenStatsCommutes(a: TokenStats, b: TokenStats)
    ensures MergeTokenStats(a, b) == MergeTokenStats(b, a)
  {
    assert a.positions + b.positions == b.positions + a.positions;
  }

  lemma MergeTokenStatsAssociates(a: TokenStats, b: TokenStats, c: TokenStats)
    ensures MergeTokenStats(MergeTokenStats(a, b), c) == MergeTokenStats(a, MergeTokenStats(b, c))
  {
    assert (a.positions + b.positions) + c.positions == a.positions + (b.positions + c.positions);
  }

  lemma MergeTokenStatsIdentity(a: TokenStats)
    ensures MergeTokenStats(EMPTY_TOKEN_STATS, a) == a
    ensures MergeTokenStats(a, EMPTY_TOKEN_STATS) == a
  {
    assert multiset{} + a.positions == a.positions;
    assert a.positions + multiset{} == a.positions;
  }

  lemma MulMonotone(a: nat, b: nat, c: nat)
    requires a <= b
    ensures a * c <= b * c
  {
  }

  /** Merging keeps the invariant: the sums of frequencies and of sequence
      counts stay bracketed by the combined bounds. */
  lemma {:induction false} MergeTokenStatsValid(a: TokenStats, b: TokenStats)
    requires ValidTokenStats(a) && ValidTokenStats(b)
    ensures ValidTokenStats(MergeTokenStats(a, b))
  {
    if a.perSequenceMinFrequency.Some? && b.perSequenceMinFrequency.Some? {
      var lo1, hi1 := a.perSequenceMinFrequency.value, a.perSequenceMaxFrequency.value;
      var lo2, hi2 := b.perSequenceMinFrequency.value, b.perSequenceMaxFrequency.value;
      LowerBoundAdds(lo1, a.numSequences, a.frequency, lo2, b.numSequences, b.frequency);
      UpperBoundAdds(hi1, a.numSequences, a.frequency, hi2, b.numSequences, b.frequency);
    }
  }

  lemma LowerBoundAdds(lo1: nat, n1: nat, f1: nat, lo2: nat, n2: nat, f2: nat)
    requires lo1 * n1 <= f1 && lo2 * n2 <= f2
    ensures Min(lo1, lo2) * (n1 + n2) <= f1 + f2
  {
    var lo := Min(lo1, lo2);
    MulMonotone(lo, lo1, n1);
    MulMonotone(lo, lo2, n2);
    assert lo * (n1 + n2) == lo * n1 + lo * n2;
  }

  lemma UpperBoundAdds(hi1: nat, n1: nat, f1: nat, hi2: nat, n2: nat, f2: nat)
    requires f1 <= hi1 * n1 && f2 <= hi2 * n2
    ensures f1 + f2 <= Max(hi1, hi2) * (n1 + n2)
  {
    var hi := Max(hi1, hi2);
    MulMonotone(hi1, hi, n1);
    MulMonotone(hi2, hi, n2);
    assert hi * (n1 + n2) == hi * n1 + hi * n2;
  }

  /** Lines 187-201 amount to merging the row's own statistics into `ts`. */
  lemma UpdateTokenIsMerge(ts: TokenStats, row: seq<Token>, t: Token, buckets: int)
    ensures UpdateToken(ts, row, t, buckets) == MergeTokenStats(ts, RowTokenStats(row, t, buckets))
  {
  }

  /** Per-row update (lines 186-201): frequency grows by the number of
      occurrences, the sequence count by one exactly when there is one,
      both bounds are folded with the count (0 for a row without the token),
      and the invariant is kept. */
  lemma UpdateTokenEffect(ts: TokenStats, row: seq<Token>, t: Token, buckets: int)
    requires ValidTokenStats(ts)
    ensures var r := UpdateToken(ts, row, t, buckets);
      && ValidTokenStats(r)
      && r.frequency == ts.frequency + multiset(row)[t]
      && r.numSequences == ts.numSequences + (if t in row then 1 else 0)
      && r.perSequenceMinFrequency.Some?
      && (t !in row ==> r.perSequenceMinFrequency == Some(0))
      && r.perSequenceMinFrequency.value <= r.perSequenceMaxFrequency.value
  {
    UpdateTokenIsMerge(ts, row, t, buckets);
    MergeTokenStatsValid(ts, RowTokenStats(row, t, buckets));
  }

  /** For a positive bucket count, the bucket of index `i` is the `k` whose
      histogram interval `[k/B, (k+1)/B)` holds the normalised position
      `i/n`: `k/B <= i/n < (k+1)/B`, cross-multiplied. */
  lemma BucketHoldsPosition(i: nat, n: nat, buckets: int)
    requires i < n && buckets > 0
    ensures var k := Bucket(i, n, buckets);
            k * n <= i * buckets < (k + 1) * n
  {
    var k := Bucket(i, n, buckets);
    var p := i * buckets;
    assert k == p / n;
    assert p == n * (p / n) + p % n && 0 <= p % n < n;
    assert k * n == n * k;
    assert (k + 1) * n == n * k + n;
  }

  // ---------------------------------------------------------------------
  // The token -> statistics map of the accumulator

  type TokenMap = map<Token, TokenStats>

  /** `token_statistics[t]` on the `defaultdict(_TokenStats)`. */
  function Get(m: TokenMap, t: Token): TokenStats
  {
    if t in m then m[t] else EMPTY_TOKEN_STATS
  }

  /** Lines 154-158: key-wise union; a token on one side only passes through
      unchanged, a token on both sides is merged with `MergeTokenStats`. */
  function MergeTokenMaps(m1: TokenMap, m2: TokenMap): (r: TokenMap)
    ensures r.Keys == m1.Keys + m2.Keys
    ensures forall t :: t in m1 && t !in m2 ==> r[t] == m1[t]
    ensures forall t :: t !in m1 && t in m2 ==> r[t] == m2[t]
    ensures forall t :: t in m1 && t in m2 ==> r[t] == MergeTokenStats(m1[t], m2[t])
  {
    map t | t in m1.Keys + m2.Keys ::
      if t in m1 && t in m2 then MergeTokenStats(m1[t], m2[t])
      else if t in m1 then m1[t]
      else m2[t]
  }

  /** Lines 186-201 for a whole set of tracked tokens: every tracked token
      gets an entry (the defaultdict creates it) updated by the row; every
      other entry is left alone. */
  function UpdateTokens(m: TokenMap, row: seq<Token>, tokens: set<Token>, buckets: int): (r: TokenMap)
    ensures r.Keys == m.Keys + tokens
    ensures forall t :: t in r && t !in tokens ==> r[t] == m[t]
    ensures forall t :: t in tokens ==> r[t] == UpdateToken(Get(m, t), row, t, buckets)
  {
    map t | t in m.Keys + tokens ::
      if t in tokens then UpdateToken(Get(m, t), row, t, buckets) else m[t]
  }

  /** The token map of an accumulator that has seen only `row`. */
  function RowTokenMap(row: seq<Token>, tokens: set<Token>, buckets: int): (r: TokenMap)
    ensures r.Keys == tokens
  {
    map t | t in tokens :: RowTokenStats(row, t, buckets)
  }

  ghost predicate ValidTokenMap(m: TokenMap)
  {
    forall t :: t in m ==> ValidTokenStats(m[t])
  }

  /** No token is counted in more sequences than there are examples. */
  ghost predicate SequencesAtMost(m: TokenMap, numExamples: nat)
  {
    forall t :: t in m ==> m[t].numSequences <= numExamples
  }

  /** Every recorded position bucket is one `Bucket` can produce. */
  ghost predicate PositionsInRange(m: TokenMap, buckets: int)
  {
    forall t, k :: t in m && k in m[t].positions ==> InBucketRange(k, buckets)
  }

  lemma MergeTokenMapsCommutes(m1: TokenMap, m2: TokenMap)
    ensures MergeTokenMaps(m1, m2) == MergeTokenMaps(m2, m1)
  {
    forall t | t in m1 && t in m2
      ensures MergeTokenStats(m1[t], m2[t]) == MergeTokenStats(m2[t], m1[t])
    {
      MergeTokenStatsCommutes(m1[t], m2[t]);
    }
  }

  lemma MergeTokenMapsAssociates(m1: TokenMap, m2: TokenMap, m3: TokenMap)
    ensures MergeTokenMaps(MergeTokenMaps(m1, m2), m3) == MergeTokenMaps(m1, MergeTokenMaps(m2, m3))
  {
    var l := MergeTokenMaps(MergeTokenMaps(m1, m2), m3);
    var r := MergeTokenMaps(m1, MergeTokenMaps(m2, m3));
    forall t | t in l.Keys
      ensures t in r && l[t] == r[t]
    {
      MergeTokenMapsAssociatesAt(m1, m2, m3, t);
    }
    MapsEqual(l, r);
  }

  lemma MapsEqual(l: TokenMap, r: TokenMap)
    requires l.Keys == r.Keys
    requires forall t :: t in l ==> l[t] == r[t]
    ensures l == r
  {
  }

  lemma MergeTokenMapsAssociatesAt(m1: TokenMap, m2: TokenMap, m3: TokenMap, t: Token)
    requires t in m1 || t in m2 || t in m3
    ensures MergeTokenMaps(MergeTokenMaps(m1, m2), m3)[t] == MergeTokenMaps(m1, MergeTokenMaps(m2, m3))[t]
  {
    var m12 := MergeTokenMaps(m1, m2);
    var m23 := MergeTokenMaps(m2, m3);
    if t in m1 && t in m2 && t in m3 {
      MergeTokenStatsAssociates(m1[t], m2[t], m3[t]);
    } else if t in m1 && t in m2 {
      assert m12[t] == MergeTokenStats(m1[t], m2[t]) && m23[t] == m2[t];
    } else if t in m2 && t in m3 {
      assert m12[t] == m2[t] && m23[t] == MergeTokenStats(m2[t], m3[t]);
    } else if t in m1 && t in m3 {
      assert m12[t] == m1[t] && m23[t] == m3[t];
    }
  }

  lemma MergeTokenMapsIdentity(m: TokenMap)
    ensures MergeTokenMaps(map[], m) == m
    ensures MergeTokenMaps(m, map[]) == m
  {
  }

  lemma {:induction false} MergeTokenMapsValid(m1: TokenMap, m2: TokenMap)
    requires ValidTokenMap(m1) && ValidTokenMap(m2)
    ensures ValidTokenMap(MergeTokenMaps(m1, m2))
  {
    forall t | t in m1 && t in m2
      ensures ValidTokenStats(MergeTokenStats(m1[t], m2[t]))
    {
      MergeTokenStatsValid(m1[t], m2[t]);
    }
  }

  lemma MergeTokenMapsSequences(m1: TokenMap, m2: TokenMap, n1: nat, n2: nat)
    requires SequencesAtMost(m1, n1) && SequencesAtMost(m2, n2)
    ensures SequencesAtMost(MergeTokenMaps(m1, m2), n1 + n2)
  {
  }

  lemma MergeTokenMapsInRange(m1: TokenMap, m2: TokenMap, buckets: int)
    requires PositionsInRange(m1, buckets) && PositionsInRange(m2, buckets)
    ensures PositionsInRange(MergeTokenMaps(m1, m2), buckets)
  {
  }

  /** Folding a row into the map is the same as merging in the map of an
      accumulator that has seen only that row. */
  lemma {:induction false} UpdateTokensIsMerge(m: TokenMap, row: seq<Token>, tokens: set<Token>, buckets: int)
    ensures UpdateTokens(m, row, tokens, buckets) == MergeTokenMaps(m, RowTokenMap(row, tokens, buckets))
  {
    var l := UpdateTokens(m, row, tokens, buckets);
    var rm := RowTokenMap(row, tokens, buckets);
    var r := MergeTokenMaps(m, rm);
    forall t | t in l
      ensures t in r && l[t] == r[t]
    {
      if t in tokens {
        var rt := RowTokenStats(row, t, buckets);
        assert rm[t] == rt;
        UpdateTokenIsMerge(Get(m, t), row, t, buckets);
        if t !in m {
          MergeTokenStatsIdentity(rt);
        }
      }
    }
    MapsEqual(l, r);
  }

  /** The loop of lines 186-201 handles one tracked token per iteration:
      updating the tokens of `done` and then `t` is updating `done + {t}`. */
  lemma UpdateOneToken(m: TokenMap, row: seq<Token>, done: set<Token>, t: Token, buckets: int)
    requires t !in done
    ensures UpdateTokens(m, row, done + {t}, buckets)
         == UpdateTokens(m, row, done, buckets)[t := UpdateToken(Get(UpdateTokens(m, row, done, buckets), t), row, t, buckets)]
  {
    var cur := UpdateTokens(m, row, done, buckets);
    var l := UpdateTokens(m, row, done + {t}, buckets);
    var r := cur[t := UpdateToken(Get(cur, t), row, t, buckets)];
    assert Get(cur, t) == Get(m, t);
    forall k | k in l
      ensures k in r && l[k] == r[k]
    {
    }
    MapsEqual(l, r);
  }

  /** Folding a row into a merged map is folding it into the right-hand
      side first: the row update commutes with merging on the left. */
  lemma UpdateTokensMergeRight(a: TokenMap, b: TokenMap, row: seq<Token>, tokens: set<Token>, buckets: int)
    ensures UpdateTokens(MergeTokenMaps(a, b), row, tokens, buckets)
         == MergeTokenMaps(a, UpdateTokens(b, row, tokens, buckets))
  {
    var rm := RowTokenMap(row, tokens, buckets);
    UpdateTokensIsMerge(MergeTokenMaps(a, b), row, tokens, buckets);
    UpdateTokensIsMerge(b, row, tokens, buckets);
    MergeTokenMapsAssociates(a, b, rm);
  }

  lemma {:induction false} UpdateTokensValid(m: TokenMap, row: seq<Token>, tokens: set<Token>, buckets: int)
    requires ValidTokenMap(m)
    ensures ValidTokenMap(UpdateTokens(m, row, tokens, buckets))
  {
    forall t | t in tokens
      ensures ValidTokenStats(UpdateToken(Get(m, t), row, t, buckets))
    {
      UpdateTokenEffect(Get(m, t), row, t, buckets);
    }
  }

  lemma UpdateTokensInRange(m: TokenMap, row: seq<Token>, tokens: set<Token>, buckets: int)
    requires PositionsInRange(m, buckets)
    ensures PositionsInRange(UpdateTokens(m, row, tokens, buckets), buckets)
  {
  }

  /** One row adds at most one sequence to each tracked token's count: a
      map whose tracked tokens are within `n` sequences (and every token
      within `n + 1`) stays within `n + 1`. */
  lemma UpdateTokensSequences(m: TokenMap, row: seq<Token>, tokens: set<Token>, buckets: int, n: nat)
    requires SequencesAtMost(m, n + 1)
    requires forall t :: t in tokens && t in m ==> m[t].numSequences <= n
    ensures SequencesAtMost(UpdateTokens(m, row, tokens, buckets), n + 1)
  {
  }
}
