/**
 * The accumulator of the natural-language combiner, `_PartialNLStats`
 * (natural_language_stats_generator.py, lines 117-167): its value, the merge
 * of two values, the invariant both keep, and the class whose fields the
 * source updates in place.
 *
 * The value groups the accumulator's fields by how they merge: the four
 * counters add, the two sketch inputs are unions, the token map merges key
 * by key and the two reported lists are sorted and truncated.
 */
module PartialStats {
  import opened TokenStatistics
  import opened ReportedSequences

  /** The four exact counters of `_PartialNLStats`. */
  datatype Counters = Counters(
    numInVocabTokens: nat,
    totalNumTokens: nat,
    sumInVocabTokenLengths: nat,
    numExamples: nat)

  /** What has been fed to the two approximate sketches: the lengths of the
      in-vocabulary tokens (quantiles sketch) and the in-vocabulary tokens
      themselves (Misra-Gries sketch). */
  datatype SketchInputs = SketchInputs(
    tokenLengths: multiset<nat>,
    tokenOccurrences: multiset<string>)

  /** The value of a `_PartialNLStats`. */
  datatype NLStats = NLStats(
    invalidate: bool,
    counters: Counters,
    sketches: SketchInputs,
    tokenStatistics: TokenMap,
    reportedSequencesCoverage: seq<Reported>,
    reportedSequencesAvgTokenLength: seq<Reported>)

  const ZERO_COUNTERS := Counters(0, 0, 0, 0)
  const NO_SKETCH_INPUTS := SketchInputs(multiset{}, multiset{})

  /** `_PartialNLStats()` with its default arguments. */
  const EMPTY_STATS := NLStats(false, ZERO_COUNTERS, NO_SKETCH_INPUTS, map[], [], [])

  /** Lines 147-150: the counters add. */
  function MergeCounters(a: Counters, b: Counters): Counters
  {
    Counters(
      a.numInVocabTokens + b.numInVocabTokens,
      a.totalNumTokens + b.totalNumTokens,
      a.sumInVocabTokenLengths + b.sumInVocabTokenLengths,
      a.numExamples + b.numExamples)
  }

  /** Lines 151-152: each sketch takes in what the other was fed. */
  function MergeSketchInputs(a: SketchInputs, b: SketchInputs): SketchInputs
  {
    SketchInputs(a.tokenLengths + b.tokenLengths, a.tokenOccurrences + b.tokenOccurrences)
  }

  /** `_PartialNLStats.__iadd__` (lines 143-167) on values: `a += b`. */
  function MergeStats(a: NLStats, b: NLStats): NLStats
  {
    NLStats(
      a.invalidate || b.invalidate,
      MergeCounters(a.counters, b.counters),
      MergeSketchInputs(a.sketches, b.sketches),
      MergeTokenMaps(a.tokenStatistics, b.tokenStatistics),
      SortAndTruncate(a.reportedSequencesCoverage + b.reportedSequencesCoverage),
      SortAndTruncate(a.reportedSequencesAvgTokenLength + b.reportedSequencesAvgTokenLength))
  }

  /** In-vocabulary tokens are a subset of the counted tokens and each of
      them was fed to both sketches. */
  ghost predicate CountersMatch(c: Counters, k: SketchInputs)
  {
    && c.numInVocabTokens <= c.totalNumTokens
    && |k.tokenLengths| == c.numInVocabTokens
    && |k.tokenOccurrences| == c.numInVocabTokens
  }

  /** What every accumulator built by the combiner satisfies: the counters
      match the sketch inputs, every token's statistics are consistent and
      no token is in more sequences than there are examples, and both
      reported lists are sorted and bounded, with coverages in [0, 1] and
      average lengths non-negative. */
  ghost predicate ValidStats(s: NLStats)
  {
    && CountersMatch(s.counters, s.sketches)
    && ValidTokenMap(s.tokenStatistics)
    && SequencesAtMost(s.tokenStatistics, s.counters.numExamples)
    && WellFormed(s.reportedSequencesCoverage)
    && WellFormed(s.reportedSequencesAvgTokenLength)
    && (forall x :: x in s.reportedSequencesCoverage ==> 0.0 <= x.metric <= 1.0)
    && (forall x :: x in s.reportedSequencesAvgTokenLength ==> 0.0 <= x.metric)
  }

  /** Two accumulators that agree on every exactly-merged field: all but the
      two reported lists, whose metric values must agree. */
  predicate SameExactFields(a: NLStats, b: NLStats)
  {
    && a.invalidate == b.invalidate
    && a.counters == b.counters
    && a.sketches == b.sketches
    && a.tokenStatistics == b.tokenStatistics
    && Metrics(a.reportedSequencesCoverage) == Metrics(b.reportedSequencesCoverage)
    && Metrics(a.reportedSequencesAvgTokenLength) == Metrics(b.reportedSequencesAvgTokenLength)
  }

  // ---------------------------------------------------------------------
  // The merge of the counters and of the sketch inputs

  lemma MergeCountersAssociates(a: Counters, b: Counters, c: Counters)
    ensures MergeCounters(MergeCounters(a, b), c) == MergeCounters(a, MergeCounters(b, c))
  {
  }

  lemma MergeCountersCommutes(a: Counters, b: Counters)
    ensures MergeCounters(a, b) == MergeCounters(b, a)
  {
  }

  lemma MergeCountersIdentity(a: Counters)
    ensures MergeCounters(ZERO_COUNTERS, a) == a
    ensures MergeCounters(a, ZERO_COUNTERS) == a
  {
  }

  lemma MergeSketchInputsAssociates(a: SketchInputs, b: SketchInputs, c: SketchInputs)
    ensures MergeSketchInputs(MergeSketchInputs(a, b), c) == MergeSketchInputs(a, MergeSketchInputs(b, c))
  {
    assert (a.tokenLengths + b.tokenLengths) + c.tokenLengths == a.tokenLengths + (b.tokenLengths + c.tokenLengths);
    assert (a.tokenOccurrences + b.tokenOccurrences) + c.tokenOccurrences
        == a.tokenOccurrences + (b.tokenOccurrences + c.tokenOccurrences);
  }

  lemma MergeSketchInputsCommutes(a: SketchInputs, b: SketchInputs)
    ensures MergeSketchInputs(a, b) == MergeSketchInputs(b, a)
  {
    assert a.tokenLengths + b.tokenLengths == b.tokenLengths + a.tokenLengths;
    assert a.tokenOccurrences + b.tokenOccurrences == b.tokenOccurrences + a.tokenOccurrences;
  }

  lemma MergeSketchInputsIdentity(a: SketchInputs)
    ensures MergeSketchInputs(NO_SKETCH_INPUTS, a) == a
    ensures MergeSketchInputs(a, NO_SKETCH_INPUTS) == a
  {
    assert multiset{} + a.tokenLengths == a.tokenLengths == a.tokenLengths + multiset{};
    assert multiset{} + a.tokenOccurrences == a.tokenOccurrences == a.tokenOccurrences + multiset{};
  }

  lemma CountersMatchMerge(c1: Counters, k1: SketchInputs, c2: Counters, k2: SketchInputs)
    requires CountersMatch(c1, k1) && CountersMatch(c2, k2)
    ensures CountersMatch(MergeCounters(c1, c2), MergeSketchInputs(k1, k2))
  {
  }

  // ---------------------------------------------------------------------
  // The merge of whole accumulators

  /** Merging is associative, reported lists included. */
  lemma MergeStatsAssociates(a: NLStats, b: NLStats, c: NLStats)
    ensures MergeStats(MergeStats(a, b), c) == MergeStats(a, MergeStats(b, c))
  {
    MergeCountersAssociates(a.counters, b.counters, c.counters);
    MergeSketchInputsAssociates(a.sketches, b.sketches, c.sketches);
    MergeTokenMapsAssociates(a.tokenStatistics, b.tokenStatistics, c.tokenStatistics);
    ReportedMergeAssociates(a.reportedSequencesCoverage, b.reportedSequencesCoverage, c.reportedSequencesCoverage);
    ReportedMergeAssociates(a.reportedSequencesAvgTokenLength, b.reportedSequencesAvgTokenLength,
      c.reportedSequencesAvgTokenLength);
  }

  /** Merging is commutative on every exact field; the reported lists of
      the two orders differ at most in which of several tied entries they
      keep. */
  lemma MergeStatsCommutes(a: NLStats, b: NLStats)
    ensures SameExactFields(MergeStats(a, b), MergeStats(b, a))
  {
    MergeCountersCommutes(a.counters, b.counters);
    MergeSketchInputsCommutes(a.sketches, b.sketches);
    MergeTokenMapsCommutes(a.tokenStatistics, b.tokenStatistics);
    ReportedMergeMetricsCommute(a.reportedSequencesCoverage, b.reportedSequencesCoverage);
    ReportedMergeMetricsCommute(a.reportedSequencesAvgTokenLength, b.reportedSequencesAvgTokenLength);
  }

  /** The fresh accumulator is the identity of the merge, for every
      accumulator whose reported lists are stored lists. */
  lemma MergeStatsIdentity(a: NLStats)
    requires WellFormed(a.reportedSequencesCoverage) && WellFormed(a.reportedSequencesAvgTokenLength)
    ensures MergeStats(EMPTY_STATS, a) == a
    ensures MergeStats(a, EMPTY_STATS) == a
  {
    MergeCountersIdentity(a.counters);
    MergeSketchInputsIdentity(a.sketches);
    MergeTokenMapsIdentity(a.tokenStatistics);
    SortAndTruncateIdentity(a.reportedSequencesCoverage);
    SortAndTruncateIdentity(a.reportedSequencesAvgTokenLength);
  }

  lemma EmptyStatsValid()
    ensures ValidStats(EMPTY_STATS)
  {
  }

  lemma SortAndTruncateWithin(s: seq<Reported>, x: Reported)
    requires x in SortAndTruncate(s)
    ensures x in s
  {
    assert x in multiset(SortAndTruncate(s));
  }

  /** Merging keeps the invariant. */
  lemma MergeStatsValid(a: NLStats, b: NLStats)
    requires ValidStats(a) && ValidStats(b)
    ensures ValidStats(MergeStats(a, b))
  {
    var r := MergeStats(a, b);
    CountersMatchMerge(a.counters, a.sketches, b.counters, b.sketches);
    MergeTokenMapsValid(a.tokenStatistics, b.tokenStatistics);
    MergeTokenMapsSequences(a.tokenStatistics, b.tokenStatistics, a.counters.numExamples, b.counters.numExamples);
    forall x | x in r.reportedSequencesCoverage
      ensures 0.0 <= x.metric <= 1.0
    {
      SortAndTruncateWithin(a.reportedSequencesCoverage + b.reportedSequencesCoverage, x);
    }
    forall x | x in r.reportedSequencesAvgTokenLength
      ensures 0.0 <= x.metric
    {
      SortAndTruncateWithin(a.reportedSequencesAvgTokenLength + b.reportedSequencesAvgTokenLength, x);
    }
  }

  lemma MergeStatsInRange(a: NLStats, b: NLStats, buckets: int)
    requires PositionsInRange(a.tokenStatistics, buckets) && PositionsInRange(b.tokenStatistics, buckets)
    ensures PositionsInRange(MergeStats(a, b).tokenStatistics, buckets)
  {
    MergeTokenMapsInRange(a.tokenStatistics, b.tokenStatistics, buckets);
  }

  /** The map after folding key `t` of `o` into `cur`. */
  function FoldKey(cur: TokenMap, o: TokenMap, t: Token): TokenMap
    requires t in o
  {
    if t !in cur then cur[t := o[t]] else cur[t := MergeTokenStats(cur[t], o[t])]
  }

  lemma MergeOneKeyAt(start: TokenMap, o: TokenMap, pending: set<Token>, t: Token, k: Token)
    requires pending <= o.Keys && t in pending
    ensures var next := FoldKey(MergeTokenMaps(start, o - pending), o, t);
            var r := MergeTokenMaps(start, o - (pending - {t}));
            (k in next <==> k in r) && (k in next ==> next[k] == r[k])
  {
    var done := o - (pending - {t});
    assert t in done && t !in o - pending;
    if k != t {
      assert (k in o - pending) <==> (k in done);
    }
  }

  /** One step of the loop in `__iadd__` (lines 154-158): folding one more
      key of `o` into the partial merge. */
  lemma MergeOneKey(start: TokenMap, o: TokenMap, pending: set<Token>, t: Token)
    requires pending <= o.Keys && t in pending
    ensures FoldKey(MergeTokenMaps(start, o - pending), o, t) == MergeTokenMaps(start, o - (pending - {t}))
  {
    var next := FoldKey(MergeTokenMaps(start, o - pending), o, t);
    var r := MergeTokenMaps(start, o - (pending - {t}));
    forall k | k in next
      ensures k in r && next[k] == r[k]
    {
      MergeOneKeyAt(start, o, pending, t, k);
    }
    forall k | k in r
      ensures k in next
    {
      MergeOneKeyAt(start, o, pending, t, k);
    }
    MapsEqual(next, r);
  }

  /** Lines 154-158 of `__iadd__`: each token of `other` is added to the
      map, merged with the entry already there if there is one. */
  method MergeTokenMapInto(m: TokenMap, other: TokenMap) returns (r: TokenMap)
    ensures r == MergeTokenMaps(m, other)
  {
    r := m;
    var pending := other.Keys;
    while pending != {}
      invariant pending <= other.Keys
      invariant r == MergeTokenMaps(m, other - pending)
      decreases pending
    {
      var t :| t in pending;
      MergeOneKey(m, other, pending, t);
      if t !in r {
        r := r[t := other[t]];
      } else {
        r := r[t := MergeTokenStats(r[t], other[t])];
      }
      pending := pending - {t};
    }
    assert other - pending == other;
  }

  /** `_PartialNLStats`: an accumulator whose fields are updated in place. */
  class PartialNLStats {
    var invalidate: bool
    var numInVocabTokens: nat
    var totalNumTokens: nat
    var sumInVocabTokenLengths: nat
    var numExamples: nat
    var tokenLengths: multiset<nat>
    var tokenOccurrences: multiset<string>
    var tokenStatistics: TokenMap
    var reportedSequencesCoverage: seq<Reported>
    var reportedSequencesAvgTokenLength: seq<Reported>

    /** The value this accumulator currently holds. */
    function Value(): NLStats
      reads this
    {
      NLStats(invalidate,
        Counters(numInVocabTokens, totalNumTokens, sumInVocabTokenLengths, numExamples),
        SketchInputs(tokenLengths, tokenOccurrences),
        tokenStatistics, reportedSequencesCoverage, reportedSequencesAvgTokenLength)
    }

    /** `_PartialNLStats()` (lines 120-141). */
    constructor ()
      ensures Value() == EMPTY_STATS
    {
      invalidate := false;
      numInVocabTokens, totalNumTokens, sumInVocabTokenLengths, numExamples := 0, 0, 0, 0;
      tokenLengths, tokenOccurrences := multiset{}, multiset{};
      tokenStatistics := map[];
      reportedSequencesCoverage, reportedSequencesAvgTokenLength := [], [];
    }

    /** Overwrites every field with the matching part of `v`. */
    method Store(v: NLStats)
      modifies this
      ensures Value() == v
    {
      var c, k := v.counters, v.sketches;
      invalidate, tokenStatistics := v.invalidate, v.tokenStatistics;
      numInVocabTokens, totalNumTokens := c.numInVocabTokens, c.totalNumTokens;
      sumInVocabTokenLengths, numExamples := c.sumInVocabTokenLengths, c.numExamples;
      tokenLengths, tokenOccurrences := k.tokenLengths, k.tokenOccurrences;
      reportedSequencesCoverage, reportedSequencesAvgTokenLength :=
        v.reportedSequencesCoverage, v.reportedSequencesAvgTokenLength;
      assert c == Counters(numInVocabTokens, totalNumTokens, sumInVocabTokenLengths, numExamples);
      assert k == SketchInputs(tokenLengths, tokenOccurrences);
    }

    /** `__iadd__` (lines 143-167): fold `other` into this accumulator. The
        other side is read before anything is written, so `acc += acc`
        doubles the accumulator as Python's does. */
    method MergeFrom(other: PartialNLStats)
      modifies this
      ensures Value() == MergeStats(old(Value()), old(other.Value()))
    {
      var mine, o := Value(), other.Value();
      var tokens := MergeTokenMapInto(tokenStatistics, o.tokenStatistics);
      Store(NLStats(
        mine.invalidate || o.invalidate,
        MergeCounters(mine.counters, o.counters),
        MergeSketchInputs(mine.sketches, o.sketches),
        tokens,
        SortAndTruncate(mine.reportedSequencesCoverage + o.reportedSequencesCoverage),
        SortAndTruncate(mine.reportedSequencesAvgTokenLength + o.reportedSequencesAvgTokenLength)));
    }
  }
}
