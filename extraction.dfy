/**
 * `NLStatsGenerator.extract_output` and its helpers
 * (natural_language_stats_generator.py, lines 315-372 and 526-582): turning
 * an accumulator into the natural-language statistics of a feature.
 *
 * Protocol buffers become datatypes; an unset optional field is `None`.
 * Every division the source performs is kept as the exact `Ratio` of its
 * operands. The only way the source can fail here is a division by zero,
 * which the `ZeroDivision` outcome stands for.
 */
module Extraction {
  import opened Wrappers
  import opened TokenStatistics
  import opened ReportedSequences
  import opened PartialStats
  import opened Ratios
  import opened PositionHistograms

  /** The figures of a `TokenStatistics` message for a token seen in at
      least one sequence. */
  datatype TokenFigures = TokenFigures(
    frequency: nat,
    fractionOfSequences: Ratio,
    perSequenceMinFrequency: Option<nat>,
    perSequenceMaxFrequency: Option<nat>,
    perSequenceAvgFrequency: Ratio,
    positions: seq<PositionBucket>)

  /** One entry of the Misra-Gries sketch's estimate: a token and its count. */
  datatype RankEntry = RankEntry(value: string, count: nat)

  datatype RankBucket = RankBucket(lowRank: nat, highRank: nat, tokenLabel: string, sampleCount: nat)

  /** The `NaturalLanguageStatistics` message. A tracked token maps to
      `None` when it was in no sequence: its message then only names it. */
  datatype NLOutput = NLOutput(
    featureCoverage: Option<Ratio>,
    avgTokenLength: Option<Ratio>,
    rankHistogram: seq<RankBucket>,
    tokenStatistics: map<Token, Option<TokenFigures>>,
    reportedSequences: seq<seq<Token>>)

  /** What `extract_output` does: return the empty statistics of an
      invalidated accumulator, return the statistics, or raise
      `ZeroDivisionError`. */
  datatype Extracted = EmptyResult | Emitted(nl: NLOutput) | ZeroDivision

  // ---------------------------------------------------------------------
  // Per-token statistics (lines 338-372)

  /** Whether `_populate_token_statistics` divides by zero for this token:
      only a token seen in some sequence is divided out, by the number of
      examples and then, for each recorded position, by the bucket count. */
  predicate DividesByZero(ts: TokenStats, numExamples: nat, buckets: int)
  {
    ts.numSequences > 0 && (numExamples == 0 || (buckets == 0 && ts.positions != multiset{}))
  }

  /** `_populate_token_statistics` (lines 338-372) without the proto naming. */
  function TokenOutput(ts: TokenStats, numExamples: nat, buckets: int): Option<TokenFigures>
  {
    if ts.numSequences == 0 then None
    else Some(TokenFigures(
      ts.frequency,
      Ratio(ts.numSequences, numExamples),
      ts.perSequenceMinFrequency,
      ts.perSequenceMaxFrequency,
      Ratio(ts.frequency, ts.numSequences),
      PositionHistogram(ts.positions, buckets)))
  }

  /** For a valid token in an accumulator whose examples include all its
      sequences, with a non-zero bucket count: nothing divides by zero; the
      figures are present exactly for a token seen in some sequence; then
      the fraction of sequences is in (0, 1], the bounds are present and
      bracket the average frequency per sequence, and the position counts
      add up to the frequency. */
  lemma TokenOutputFacts(ts: TokenStats, numExamples: nat, buckets: int)
    requires ValidTokenStats(ts) && ts.numSequences <= numExamples && buckets != 0
    ensures !DividesByZero(ts, numExamples, buckets)
    ensures var o := TokenOutput(ts, numExamples, buckets);
            && (o.Some? <==> ts.numSequences > 0)
            && (o.Some? ==>
                  var f := o.value;
                  && f.frequency == ts.frequency
                  && f.fractionOfSequences.denominator > 0
                  && 0.0 < RealValue(f.fractionOfSequences) <= 1.0
                  && f.perSequenceAvgFrequency == Ratio(ts.frequency, ts.numSequences)
                  && f.perSequenceMinFrequency.Some? && f.perSequenceMaxFrequency.Some?
                  && f.perSequenceMinFrequency.value as real <= RealValue(f.perSequenceAvgFrequency)
                  && RealValue(f.perSequenceAvgFrequency) <= f.perSequenceMaxFrequency.value as real
                  && SampleTotal(f.positions) == f.frequency)
  {
    if ts.numSequences > 0 {
      var f := TokenOutput(ts, numExamples, buckets).value;
      ValueBetween(f.fractionOfSequences, 0, 1);
      assert RealValue(f.fractionOfSequences) * numExamples as real == ts.numSequences as real;
      ValueBetween(f.perSequenceAvgFrequency, ts.perSequenceMinFrequency.value, ts.perSequenceMaxFrequency.value);
      PositionSamplesTotal(ts.positions, buckets);
    }
  }

  // ---------------------------------------------------------------------
  // The rank histogram (lines 315-322)

  /** Python's `s[:n]`, a negative `n` counting from the end. */
  function SliceTo<T>(s: seq<T>, n: int): (r: seq<T>)
    ensures r <= s
    ensures |r| == if n >= 0 then (if n <= |s| then n else |s|)
                   else (if |s| + n >= 0 then |s| + n else 0)
  {
    if n >= 0 then (if n <= |s| then s[..n] else s)
    else if |s| + n >= 0 then s[..|s| + n]
    else []
  }

  /** `_populate_token_rank_histogram` (lines 315-322) on the sketch's
      estimate: the i-th kept entry becomes bucket `[i, i]`. */
  function RankHistogram(entries: seq<RankEntry>, rankBuckets: int): (r: seq<RankBucket>)
    ensures |r| <= |entries|
    ensures rankBuckets >= 0 ==> |r| <= rankBuckets
    ensures forall i :: 0 <= i < |r| ==>
              r[i] == RankBucket(i, i, entries[i].value, entries[i].count)
  {
    var kept := SliceTo(entries, rankBuckets);
    seq(|kept|, i requires 0 <= i < |kept| => RankBucket(i, i, kept[i].value, kept[i].count))
  }

  // ---------------------------------------------------------------------
  // extract_output (lines 526-582)

  /** The reported sequences, coverage list first (lines 572-575). */
  function ReportedTexts(r: seq<Reported>): (t: seq<seq<Token>>)
    ensures |t| == |r|
    ensures forall i :: 0 <= i < |r| ==> t[i] == r[i].sequence
  {
    seq(|r|, i requires 0 <= i < |r| => r[i].sequence)
  }

  predicate AnyDividesByZero(s: NLStats, buckets: int)
  {
    exists t | t in s.tokenStatistics :: DividesByZero(s.tokenStatistics[t], s.counters.numExamples, buckets)
  }

  /** `extract_output`. The Misra-Gries sketch's `Estimate()` is the
      parameter `estimate`; the token length histogram is not modelled. */
  function ExtractOutput(s: NLStats, buckets: int, rankBuckets: int, estimate: seq<RankEntry>): (r: Extracted)
    ensures r.EmptyResult? <==> s.invalidate
    ensures r.ZeroDivision? <==> !s.invalidate && AnyDividesByZero(s, buckets)
  {
    if s.invalidate then EmptyResult
    else if AnyDividesByZero(s, buckets) then ZeroDivision
    else
      var c := s.counters;
      var m := s.tokenStatistics;
      Emitted(NLOutput(
        if c.totalNumTokens != 0 then Some(Ratio(c.numInVocabTokens, c.totalNumTokens)) else None,
        if c.numInVocabTokens != 0 then Some(Ratio(c.sumInVocabTokenLengths, c.numInVocabTokens)) else None,
        if rankBuckets != 0 then RankHistogram(estimate, rankBuckets) else [],
        map t | t in m :: TokenOutput(m[t], c.numExamples, buckets),
        ReportedTexts(s.reportedSequencesCoverage + s.reportedSequencesAvgTokenLength)))
  }

  /** What a valid accumulator extracts to, for a non-zero bucket count:
      nothing when invalidated and otherwise never a division by zero; the
      coverage is present exactly when some token was counted and lies in
      [0, 1]; the average token length is present exactly when some token
      was in the vocabulary and is the mean in-vocabulary length; there is
      a token message for every token in the map; and there are at most ten
      reported sequences, the coverage list's first. */
  lemma ExtractValid(s: NLStats, buckets: int, rankBuckets: int, estimate: seq<RankEntry>)
    requires ValidStats(s) && buckets != 0
    ensures var r := ExtractOutput(s, buckets, rankBuckets, estimate);
            && (r.EmptyResult? <==> s.invalidate)
            && (r.Emitted? <==> !s.invalidate)
            && (r.Emitted? ==>
                  var nl := r.nl;
                  var c := s.counters;
                  && (nl.featureCoverage.Some? <==> c.totalNumTokens > 0)
                  && (nl.featureCoverage.Some? ==>
                        nl.featureCoverage.value == Ratio(c.numInVocabTokens, c.totalNumTokens)
                        && 0.0 <= RealValue(nl.featureCoverage.value) <= 1.0)
                  && (nl.avgTokenLength.Some? <==> c.numInVocabTokens > 0)
                  && (nl.avgTokenLength.Some? ==>
                        nl.avgTokenLength.value == Ratio(c.sumInVocabTokenLengths, c.numInVocabTokens))
                  && nl.tokenStatistics.Keys == s.tokenStatistics.Keys
                  && |nl.reportedSequences| <= 2 * NUM_REPORTED_SEQUENCES_PER_TYPE
                  && nl.reportedSequences[..|s.reportedSequencesCoverage|]
                       == ReportedTexts(s.reportedSequencesCoverage))
  {
    var m := s.tokenStatistics;
    forall t | t in m
      ensures !DividesByZero(m[t], s.counters.numExamples, buckets)
    {
      TokenOutputFacts(m[t], s.counters.numExamples, buckets);
    }
    var c := s.counters;
    if c.totalNumTokens > 0 {
      ValueBetween(Ratio(c.numInVocabTokens, c.totalNumTokens), 0, 1);
    }
  }

  /** The message of each token of a valid accumulator is the one
      `TokenOutput` builds, with the properties `TokenOutputFacts` gives. */
  lemma ExtractTokenFigures(s: NLStats, buckets: int, rankBuckets: int, estimate: seq<RankEntry>, t: Token)
    requires ValidStats(s) && buckets != 0 && !s.invalidate && t in s.tokenStatistics
    ensures var r := ExtractOutput(s, buckets, rankBuckets, estimate);
            r.Emitted? && t in r.nl.tokenStatistics
            && r.nl.tokenStatistics[t] == TokenOutput(s.tokenStatistics[t], s.counters.numExamples, buckets)
  {
    ExtractValid(s, buckets, rankBuckets, estimate);
  }

  /** Without buckets, a token with a recorded position makes extraction
      divide by zero. */
  lemma NoBucketsDividesByZero(s: NLStats, rankBuckets: int, estimate: seq<RankEntry>, t: Token)
    requires !s.invalidate && t in s.tokenStatistics
    requires s.tokenStatistics[t].numSequences > 0 && s.tokenStatistics[t].positions != multiset{}
    ensures ExtractOutput(s, 0, rankBuckets, estimate) == ZeroDivision
  {
    assert DividesByZero(s.tokenStatistics[t], s.counters.numExamples, 0);
  }
}
