/**
 * `NLStatsGenerator` (natural_language_stats_generator.py, lines 374-582):
 * the combiner that folds batches of a feature's values into accumulators,
 * merges accumulators and extracts the statistics.
 *
 * The schema's natural-language domains and the loaded vocabularies are
 * given to the constructor already read: `setup` and its file reading are
 * not part of this model. A batch of values is a `FeatureArray`, the arrow
 * array's element type decided up front.
 */
module Generator {
  import opened Wrappers
  import opened TokenStatistics
  import opened ReportedSequences
  import opened PartialStats
  import opened RowProcessor
  import opened Ratios
  import Extraction

  /** The Misra-Gries sketch's bucket count (line 77), which bounds the
      number of rank histogram buckets. */
  const NUM_MISRAGRIES_SKETCH_BUCKETS := 16384

  /** A path of feature names. */
  type FeaturePath = seq<string>

  /** A feature's natural-language domain: the name of its vocabulary ("" for
      none) and its configuration, with the vocabulary that name loads. */
  datatype NLDomain = NLDomain(vocabularyName: string, config: FeatureConfig)

  /** A batch of one feature's values by element type: a null array, lists of
      ints, lists of strings (each row possibly null), or any other type. */
  datatype FeatureArray =
    | NullArray
    | IntArray(intRows: seq<Option<seq<int>>>)
    | StringArray(stringRows: seq<Option<seq<string>>>)
    | UnsupportedArray

  /** Lines 433-437: a domain counts when it names a vocabulary or sets some
      coverage constraint. */
  predicate Constrained(d: NLDomain)
  {
    || d.vocabularyName != ""
    || d.config.excludedStringTokens != {}
    || d.config.excludedIntTokens != {}
    || d.config.oovStringTokens != {}
  }

  /** `_valid_feature_paths` as `setup` fills it (lines 419-446). */
  function ValidFeaturePaths(domains: map<FeaturePath, NLDomain>): (r: set<FeaturePath>)
    ensures forall p :: p in r <==> p in domains && Constrained(domains[p])
  {
    set p | p in domains && Constrained(domains[p])
  }

  /** Lines 486-491: the vocabularies are used only when the domain names
      one. */
  function ConfigOf(d: NLDomain): (cfg: FeatureConfig)
    ensures d.vocabularyName == "" ==> cfg.vocab == map[] && cfg.rvocab == map[]
    ensures d.vocabularyName != "" ==> cfg == d.config
  {
    if d.vocabularyName == "" then d.config.(vocab := map[], rvocab := map[]) else d.config
  }

  /** The int rows of a batch processed in order, null rows skipped
      (lines 500-504). */
  function AddIntRows(s: NLStats, rows: seq<Option<seq<int>>>, cfg: FeatureConfig, buckets: int): NLStats
    decreases |rows|
  {
    if |rows| == 0 then s
    else
      var prev := AddIntRows(s, rows[..|rows| - 1], cfg, buckets);
      match rows[|rows| - 1]
      case None => prev
      case Some(row) => IntRowUpdate(prev, row, cfg, buckets)
  }

  /** The string rows of a batch processed in order, null rows skipped. */
  function AddStrRows(s: NLStats, rows: seq<Option<seq<string>>>, cfg: FeatureConfig, buckets: int): NLStats
    decreases |rows|
  {
    if |rows| == 0 then s
    else
      var prev := AddStrRows(s, rows[..|rows| - 1], cfg, buckets);
      match rows[|rows| - 1]
      case None => prev
      case Some(row) => StrRowUpdate(prev, row, cfg, buckets)
  }

  /** `add_input` (lines 456-505) on values. */
  function AddBatch(s: NLStats, domains: map<FeaturePath, NLDomain>, path: FeaturePath,
                    batch: FeatureArray, buckets: int): NLStats
  {
    if path !in ValidFeaturePaths(domains) then s.(invalidate := true)
    else
      match batch
      case NullArray => s
      case UnsupportedArray => s.(invalidate := true)
      case IntArray(rows) => AddIntRows(s, rows, ConfigOf(domains[path]), buckets)
      case StringArray(rows) => AddStrRows(s, rows, ConfigOf(domains[path]), buckets)
  }

  /** Whether `add_input` invalidates: an unknown path or an element type
      other than int or string. */
  predicate BatchInvalidates(domains: map<FeaturePath, NLDomain>, path: FeaturePath, batch: FeatureArray)
  {
    path !in ValidFeaturePaths(domains) || batch.UnsupportedArray?
  }

  /** The number of non-null rows. */
  function NonNullRows<T>(rows: seq<Option<T>>): (n: nat)
    ensures n <= |rows|
  {
    if |rows| == 0 then 0
    else NonNullRows(rows[..|rows| - 1]) + (if rows[|rows| - 1].Some? then 1 else 0)
  }

  /** `merge_accumulators` (lines 507-520) on values: the accumulators
      folded into a fresh one, in order. */
  function MergeAll(vs: seq<NLStats>): NLStats
  {
    if |vs| == 0 then EMPTY_STATS else MergeStats(MergeAll(vs[..|vs| - 1]), vs[|vs| - 1])
  }

  // ---------------------------------------------------------------------
  // The combiner laws

  /** Processing int rows into an accumulator is merging in a fresh
      accumulator that processed only those rows. */
  lemma {:induction false} AddIntRowsIsMerge(s: NLStats, rows: seq<Option<seq<int>>>, cfg: FeatureConfig, buckets: int)
    requires WellFormed(s.reportedSequencesCoverage) && WellFormed(s.reportedSequencesAvgTokenLength)
    ensures AddIntRows(s, rows, cfg, buckets) == MergeStats(s, AddIntRows(EMPTY_STATS, rows, cfg, buckets))
    decreases |rows|
  {
    if |rows| == 0 {
      MergeStatsIdentity(s);
    } else {
      var init := rows[..|rows| - 1];
      AddIntRowsIsMerge(s, init, cfg, buckets);
      if rows[|rows| - 1].Some? {
        IntRowUpdateMerge(s, AddIntRows(EMPTY_STATS, init, cfg, buckets), rows[|rows| - 1].value, cfg, buckets);
      }
    }
  }

  /** Processing string rows into an accumulator is merging in a fresh
      accumulator that processed only those rows. */
  lemma {:induction false} AddStrRowsIsMerge(s: NLStats, rows: seq<Option<seq<string>>>, cfg: FeatureConfig, buckets: int)
    requires WellFormed(s.reportedSequencesCoverage) && WellFormed(s.reportedSequencesAvgTokenLength)
    ensures AddStrRows(s, rows, cfg, buckets) == MergeStats(s, AddStrRows(EMPTY_STATS, rows, cfg, buckets))
    decreases |rows|
  {
    if |rows| == 0 {
      MergeStatsIdentity(s);
    } else {
      var init := rows[..|rows| - 1];
      AddStrRowsIsMerge(s, init, cfg, buckets);
      if rows[|rows| - 1].Some? {
        StrRowUpdateMerge(s, AddStrRows(EMPTY_STATS, init, cfg, buckets), rows[|rows| - 1].value, cfg, buckets);
      }
    }
  }

  /** Adding a batch to an accumulator is merging in a fresh accumulator
      that received only that batch: the combiner's add and merge agree. */
  lemma AddBatchIsMerge(s: NLStats, domains: map<FeaturePath, NLDomain>, path: FeaturePath,
                        batch: FeatureArray, buckets: int)
    requires WellFormed(s.reportedSequencesCoverage) && WellFormed(s.reportedSequencesAvgTokenLength)
    ensures AddBatch(s, domains, path, batch, buckets)
         == MergeStats(s, AddBatch(EMPTY_STATS, domains, path, batch, buckets))
  {
    if BatchInvalidates(domains, path, batch) {
      InvalidateIsMerge(s);
    } else {
      var cfg := ConfigOf(domains[path]);
      match batch
      case NullArray => MergeStatsIdentity(s);
      case UnsupportedArray =>
      case IntArray(rows) => AddIntRowsIsMerge(s, rows, cfg, buckets);
      case StringArray(rows) => AddStrRowsIsMerge(s, rows, cfg, buckets);
    }
  }

  /** Setting the flag is merging in an empty, invalidated accumulator. */
  lemma InvalidateIsMerge(s: NLStats)
    requires WellFormed(s.reportedSequencesCoverage) && WellFormed(s.reportedSequencesAvgTokenLength)
    ensures s.(invalidate := true) == MergeStats(s, EMPTY_STATS.(invalidate := true))
  {
    MergeStatsIdentity(s);
    assert MergeStats(s, EMPTY_STATS.(invalidate := true)) == MergeStats(s, EMPTY_STATS).(invalidate := true);
  }

  lemma {:induction false} AddIntRowsValid(s: NLStats, rows: seq<Option<seq<int>>>, cfg: FeatureConfig, buckets: int)
    requires ValidStats(s)
    ensures ValidStats(AddIntRows(s, rows, cfg, buckets))
    decreases |rows|
  {
    if |rows| > 0 {
      var init := rows[..|rows| - 1];
      AddIntRowsValid(s, init, cfg, buckets);
      if rows[|rows| - 1].Some? {
        IntRowUpdateValid(AddIntRows(s, init, cfg, buckets), rows[|rows| - 1].value, cfg, buckets);
      }
    }
  }

  lemma {:induction false} AddStrRowsValid(s: NLStats, rows: seq<Option<seq<string>>>, cfg: FeatureConfig, buckets: int)
    requires ValidStats(s)
    ensures ValidStats(AddStrRows(s, rows, cfg, buckets))
    decreases |rows|
  {
    if |rows| > 0 {
      var init := rows[..|rows| - 1];
      AddStrRowsValid(s, init, cfg, buckets);
      if rows[|rows| - 1].Some? {
        StrRowUpdateValid(AddStrRows(s, init, cfg, buckets), rows[|rows| - 1].value, cfg, buckets);
      }
    }
  }

  lemma RowKeepsFlag(s: NLStats, intRow: seq<int>, strRow: seq<string>, cfg: FeatureConfig, buckets: int)
    ensures IntRowUpdate(s, intRow, cfg, buckets).invalidate == s.invalidate
    ensures StrRowUpdate(s, strRow, cfg, buckets).invalidate == s.invalidate
  {
  }

  /** Int rows leave the invalidation flag alone and count one example per
      non-null row. */
  lemma {:induction false} AddIntRowsCounts(s: NLStats, rows: seq<Option<seq<int>>>, cfg: FeatureConfig, buckets: int)
    ensures AddIntRows(s, rows, cfg, buckets).invalidate == s.invalidate
    ensures AddIntRows(s, rows, cfg, buckets).counters.numExamples == s.counters.numExamples + NonNullRows(rows)
    decreases |rows|
  {
    if |rows| > 0 {
      var init := rows[..|rows| - 1];
      AddIntRowsCounts(s, init, cfg, buckets);
      if rows[|rows| - 1].Some? {
        var prev := AddIntRows(s, init, cfg, buckets);
        RowKeepsFlag(prev, rows[|rows| - 1].value, [], cfg, buckets);
        IntRowCounters(prev, rows[|rows| - 1].value, cfg, buckets);
      }
    }
  }

  /** String rows leave the invalidation flag alone and count one example
      per non-null row. */
  lemma {:induction false} AddStrRowsCounts(s: NLStats, rows: seq<Option<seq<string>>>, cfg: FeatureConfig, buckets: int)
    ensures AddStrRows(s, rows, cfg, buckets).invalidate == s.invalidate
    ensures AddStrRows(s, rows, cfg, buckets).counters.numExamples == s.counters.numExamples + NonNullRows(rows)
    decreases |rows|
  {
    if |rows| > 0 {
      var init := rows[..|rows| - 1];
      AddStrRowsCounts(s, init, cfg, buckets);
      if rows[|rows| - 1].Some? {
        var prev := AddStrRows(s, init, cfg, buckets);
        RowKeepsFlag(prev, [], rows[|rows| - 1].value, cfg, buckets);
        StrRowCounters(prev, rows[|rows| - 1].value, cfg, buckets);
      }
    }
  }

  /** A batch keeps the accumulator invariant; the accumulator ends up
      invalidated exactly when it was or the batch invalidates; and every
      non-null row of a processed batch counts one example. */
  lemma AddBatchValid(s: NLStats, domains: map<FeaturePath, NLDomain>, path: FeaturePath,
                      batch: FeatureArray, buckets: int)
    requires ValidStats(s)
    ensures var r := AddBatch(s, domains, path, batch, buckets);
            && ValidStats(r)
            && r.invalidate == (s.invalidate || BatchInvalidates(domains, path, batch))
            && (batch.IntArray? && !BatchInvalidates(domains, path, batch) ==>
                  r.counters.numExamples == s.counters.numExamples + NonNullRows(batch.intRows))
            && (batch.StringArray? && !BatchInvalidates(domains, path, batch) ==>
                  r.counters.numExamples == s.counters.numExamples + NonNullRows(batch.stringRows))
  {
    if path in ValidFeaturePaths(domains) {
      var cfg := ConfigOf(domains[path]);
      match batch
      case NullArray =>
      case UnsupportedArray =>
      case IntArray(rows) =>
        AddIntRowsValid(s, rows, cfg, buckets);
        AddIntRowsCounts(s, rows, cfg, buckets);
      case StringArray(rows) =>
        AddStrRowsValid(s, rows, cfg, buckets);
        AddStrRowsCounts(s, rows, cfg, buckets);
    }
  }

  /** Every merged accumulator has well-formed reported lists. */
  lemma MergeAllWellFormed(vs: seq<NLStats>)
    ensures WellFormed(MergeAll(vs).reportedSequencesCoverage)
    ensures WellFormed(MergeAll(vs).reportedSequencesAvgTokenLength)
  {
  }

  /** Merging a concatenation is merging the merges of its parts: the
      grouping of merges does not matter. */
  lemma {:induction false} MergeAllAppend(a: seq<NLStats>, b: seq<NLStats>)
    ensures MergeAll(a + b) == MergeStats(MergeAll(a), MergeAll(b))
    decreases |b|
  {
    if |b| == 0 {
      assert a + b == a;
      MergeAllWellFormed(a);
      MergeStatsIdentity(MergeAll(a));
    } else {
      var init := b[..|b| - 1];
      assert (a + b)[..|a + b| - 1] == a + init;
      MergeAllAppend(a, init);
      MergeStatsAssociates(MergeAll(a), MergeAll(init), b[|b| - 1]);
    }
  }

  lemma MergeAllStep(vs: seq<NLStats>, i: nat)
    requires i < |vs|
    ensures MergeAll(vs[..i + 1]) == MergeStats(MergeAll(vs[..i]), vs[i])
  {
    assert vs[..i + 1][..i] == vs[..i];
  }

  /** Merging one more accumulator is merging it into the merge so far. */
  lemma MergeAllSnoc(vs: seq<NLStats>, v: NLStats)
    ensures MergeAll(vs + [v]) == MergeStats(MergeAll(vs), v)
  {
    assert (vs + [v])[..|vs|] == vs;
  }

  /** Merging a single well-formed accumulator gives it back. */
  lemma MergeAllSingle(v: NLStats)
    requires WellFormed(v.reportedSequencesCoverage) && WellFormed(v.reportedSequencesAvgTokenLength)
    ensures MergeAll([v]) == v
  {
    MergeAllSnoc([], v);
    assert [] + [v] == [v];
    MergeStatsIdentity(v);
  }

  /** Merging two accumulators, the first well-formed, is merging the
      second into the first. */
  lemma MergeAllPair(a: NLStats, b: NLStats)
    requires WellFormed(a.reportedSequencesCoverage) && WellFormed(a.reportedSequencesAvgTokenLength)
    ensures MergeAll([a, b]) == MergeStats(a, b)
  {
    MergeAllSnoc([a], b);
    assert [a] + [b] == [a, b];
    MergeAllSingle(a);
  }

  /** Merging valid accumulators gives a valid one. */
  lemma {:induction false} MergeAllValid(vs: seq<NLStats>)
    requires forall i :: 0 <= i < |vs| ==> ValidStats(vs[i])
    ensures ValidStats(MergeAll(vs))
    decreases |vs|
  {
    if |vs| == 0 {
      EmptyStatsValid();
    } else {
      MergeAllValid(vs[..|vs| - 1]);
      MergeStatsValid(MergeAll(vs[..|vs| - 1]), vs[|vs| - 1]);
    }
  }

  /** Two batches added to one fresh accumulator, or each to its own fresh
      accumulator and then merged, give the same accumulator. */
  lemma TwoBatches(domains: map<FeaturePath, NLDomain>, p1: FeaturePath, a1: FeatureArray,
                   p2: FeaturePath, a2: FeatureArray, buckets: int)
    ensures var s1 := AddBatch(EMPTY_STATS, domains, p1, a1, buckets);
            AddBatch(s1, domains, p2, a2, buckets)
              == MergeAll([s1, AddBatch(EMPTY_STATS, domains, p2, a2, buckets)])
  {
    var s1 := AddBatch(EMPTY_STATS, domains, p1, a1, buckets);
    var s2 := AddBatch(EMPTY_STATS, domains, p2, a2, buckets);
    EmptyStatsValid();
    AddBatchValid(EMPTY_STATS, domains, p1, a1, buckets);
    AddBatchIsMerge(s1, domains, p2, a2, buckets);
    MergeAllPair(s1, s2);
  }

  // ---------------------------------------------------------------------
  // The generator

  /** `NLStatsGenerator`, after `setup`: the natural-language domains by
      feature path, with their vocabularies loaded, and the bucket counts. */
  class NLStatsGenerator {
    const domains: map<FeaturePath, NLDomain>
    const numHistogramBuckets: int
    const numQuantilesHistogramBuckets: int
    const numRankHistogramBuckets: int

    /** `__init__` (lines 382-417), which asserts the rank bucket bound. */
    constructor (domains: map<FeaturePath, NLDomain>, numHistogramBuckets: int,
                 numQuantilesHistogramBuckets: int, numRankHistogramBuckets: int)
      requires numRankHistogramBuckets <= NUM_MISRAGRIES_SKETCH_BUCKETS
      ensures this.domains == domains
      ensures this.numHistogramBuckets == numHistogramBuckets
      ensures this.numQuantilesHistogramBuckets == numQuantilesHistogramBuckets
      ensures this.numRankHistogramBuckets == numRankHistogramBuckets
    {
      this.domains := domains;
      this.numHistogramBuckets := numHistogramBuckets;
      this.numQuantilesHistogramBuckets := numQuantilesHistogramBuckets;
      this.numRankHistogramBuckets := numRankHistogramBuckets;
    }

    /** `create_accumulator` (lines 448-454). */
    method CreateAccumulator() returns (acc: PartialNLStats)
      ensures fresh(acc)
      ensures acc.Value() == EMPTY_STATS
    {
      acc := new PartialNLStats();
    }

    /** `add_input` (lines 456-505): folds a batch into `acc` in place and
        returns it. */
    method AddInput(acc: PartialNLStats, path: FeaturePath, batch: FeatureArray) returns (r: PartialNLStats)
      modifies acc
      ensures r == acc
      ensures acc.Value() == AddBatch(old(acc.Value()), domains, path, batch, numHistogramBuckets)
    {
      r := acc;
      if path !in ValidFeaturePaths(domains) {
        acc.invalidate := true;
        return;
      }
      var cfg := ConfigOf(domains[path]);
      match batch {
        case NullArray =>
        case UnsupportedArray =>
          acc.invalidate := true;
        case IntArray(rows) =>
          ghost var s0 := acc.Value();
          for i := 0 to |rows|
            invariant acc.Value() == AddIntRows(s0, rows[..i], cfg, numHistogramBuckets)
          {
            assert rows[..i + 1][..i] == rows[..i];
            if rows[i].Some? {
              ComputeIntStatistics(rows[i].value, acc, cfg, numHistogramBuckets);
            }
          }
          assert rows[..|rows|] == rows;
        case StringArray(rows) =>
          ghost var s0 := acc.Value();
          for i := 0 to |rows|
            invariant acc.Value() == AddStrRows(s0, rows[..i], cfg, numHistogramBuckets)
          {
            assert rows[..i + 1][..i] == rows[..i];
            if rows[i].Some? {
              ComputeStrStatistics(rows[i].value, acc, cfg, numHistogramBuckets);
            }
          }
          assert rows[..|rows|] == rows;
      }
    }

    /** `merge_accumulators` (lines 507-520): a fresh accumulator into which
        each given one is folded in turn. In the model the given ones are not
        changed (the source's `_TokenStats` sharing is not modelled). */
    method MergeAccumulators(accs: seq<PartialNLStats>) returns (result: PartialNLStats)
      ensures fresh(result)
      ensures result.Value() == MergeAll(Values(accs))
    {
      result := new PartialNLStats();
      MergeInto(result, accs);
    }

    /** `compact` (lines 522-524): compacting the quantiles sketch changes
        nothing the model records. */
    method Compact(acc: PartialNLStats) returns (r: PartialNLStats)
      ensures r == acc
    {
      r := acc;
    }

    /** `extract_output` (lines 526-582), the sketch's estimate given. */
    method ExtractOutput(acc: PartialNLStats, estimate: seq<Extraction.RankEntry>) returns (r: Extraction.Extracted)
      ensures r == Extraction.ExtractOutput(acc.Value(), numHistogramBuckets, numRankHistogramBuckets, estimate)
    {
      r := Extraction.ExtractOutput(acc.Value(), numHistogramBuckets, numRankHistogramBuckets, estimate);
    }
  }

  method MergeInto(result: PartialNLStats, accs: seq<PartialNLStats>)
    requires result !in accs && result.Value() == EMPTY_STATS
    modifies result
    ensures result.Value() == MergeAll(Values(accs))
  {
    ghost var vs := Values(accs);
    for i := 0 to |accs|
      invariant result.Value() == MergeAll(vs[..i])
    {
      MergeStep(result, accs[i], vs, i);
    }
    MergeAllWhole(vs);
  }

  lemma MergeAllWhole(vs: seq<NLStats>)
    ensures MergeAll(vs[..|vs|]) == MergeAll(vs)
  {
    assert vs[..|vs|] == vs;
  }

  /** One step of `merge_accumulators`: the `i`-th accumulator folded into
      `result`, which holds the merge of the ones before it. */
  method MergeStep(result: PartialNLStats, acc: PartialNLStats, ghost vs: seq<NLStats>, i: nat)
    requires i < |vs| && acc.Value() == vs[i]
    requires result.Value() == MergeAll(vs[..i])
    modifies result
    ensures result.Value() == MergeAll(vs[..i + 1])
  {
    result.MergeFrom(acc);
    MergeAllStep(vs, i);
  }

  /** The values of the accumulators, in order. */
  function Values(accs: seq<PartialNLStats>): (vs: seq<NLStats>)
    reads accs
    ensures |vs| == |accs|
    ensures forall i :: 0 <= i < |accs| ==> vs[i] == accs[i].Value()
  {
    if |accs| == 0 then [] else Values(accs[..|accs| - 1]) + [accs[|accs| - 1].Value()]
  }

  // ---------------------------------------------------------------------
  // An example

  /** The configuration of a feature with vocabulary `{a: 1, b: 2, c: 3}`,
      no exclusions, tracking the string token "a". */
  function ExampleDomain(): NLDomain
  {
    NLDomain("vocab", FeatureConfig(map["a" := 1, "b" := 2, "c" := 3], map[1 := "a", 2 := "b", 3 := "c"],
                                    {}, {}, {}, {}, {"a"}))
  }

  /** One more non-null string row is one more row update. */
  lemma AddStrRowsSnoc(s: NLStats, rows: seq<Option<seq<string>>>, row: seq<string>, cfg: FeatureConfig, buckets: int)
    ensures AddStrRows(s, rows + [Some(row)], cfg, buckets) == StrRowUpdate(AddStrRows(s, rows, cfg, buckets), row, cfg, buckets)
  {
    assert (rows + [Some(row)])[..|rows|] == rows;
  }

  /** A batch of two non-null string rows is the two rows processed in
      turn. */
  lemma TwoStrRows(s: NLStats, r1: seq<string>, r2: seq<string>, cfg: FeatureConfig, buckets: int)
    ensures AddStrRows(s, [Some(r1), Some(r2)], cfg, buckets)
         == StrRowUpdate(StrRowUpdate(s, r1, cfg, buckets), r2, cfg, buckets)
  {
    AddStrRowsSnoc(s, [], r1, cfg, buckets);
    assert [] + [Some(r1)] == [Some(r1)];
    AddStrRowsSnoc(s, [Some(r1)], r2, cfg, buckets);
    assert [Some(r1)] + [Some(r2)] == [Some(r1), Some(r2)];
  }

  /** A string batch on a valid path is its rows processed in turn. */
  lemma StringBatch(s: NLStats, domains: map<FeaturePath, NLDomain>, path: FeaturePath,
                    rows: seq<Option<seq<string>>>, buckets: int)
    requires path in ValidFeaturePaths(domains)
    ensures AddBatch(s, domains, path, StringArray(rows), buckets)
         == AddStrRows(s, rows, ConfigOf(domains[path]), buckets)
  {
  }

  /** The feature tracks the string token `w`. */
  predicate TracksString(cfg: FeatureConfig, w: string)
  {
    StrToken(w) in TrackedStrings(cfg)
  }

  /** A non-empty string row updates each tracked string token's statistics
      with the row and counts one more example, whatever the vocabulary: the
      pass over the vocabulary ids (lines 280-284) only touches int tokens. */
  lemma TrackedStringRow(s: NLStats, row: seq<string>, cfg: FeatureConfig, w: string, buckets: int)
    requires TracksString(cfg, w) && |row| > 0
    ensures var r := StrRowUpdate(s, row, cfg, buckets);
            && StrToken(w) in r.tokenStatistics
            && r.tokenStatistics[StrToken(w)] == UpdateToken(Get(s.tokenStatistics, StrToken(w)), StrRow(row), StrToken(w), buckets)
            && r.counters.numExamples == s.counters.numExamples + 1
  {
    TrackedDisjoint(cfg, StrToken(w));
    StrRowCounters(s, row, cfg, buckets);
  }

  /** A feature path with the example's domain is a valid path, whose
      feature tracks the token "a". */
  lemma ExampleTracked()
    ensures ["f"] in ValidFeaturePaths(map[["f"] := ExampleDomain()])
    ensures TracksString(ConfigOf(ExampleDomain()), "a")
  {
    assert Constrained(ExampleDomain());
    assert ConfigOf(ExampleDomain()).stringTokens == {"a"};
  }

  /** The tracked token's statistics after the example's two rows. */
  function ExampleTokenStats(buckets: int): TokenStats
  {
    var a := StrToken("a");
    UpdateToken(UpdateToken(EMPTY_TOKEN_STATS, StrRow(["a", "b", "a"]), a, buckets), StrRow(["a", "c"]), a, buckets)
  }

  /** Two non-empty rows, processed for a feature that tracks `w`: two more examples, and the entry of `w` updated by both
      rows in turn. */
  lemma TwoRowsTracked(s: NLStats, cfg: FeatureConfig, r1: seq<string>, r2: seq<string>, w: string, buckets: int)
    requires TracksString(cfg, w) && |r1| > 0 && |r2| > 0
    ensures var r := StrRowUpdate(StrRowUpdate(s, r1, cfg, buckets), r2, cfg, buckets);
            var a := StrToken(w);
            && r.counters.numExamples == s.counters.numExamples + 2
            && a in r.tokenStatistics
            && r.tokenStatistics[a]
               == UpdateToken(UpdateToken(Get(s.tokenStatistics, a), StrRow(r1), a, buckets), StrRow(r2), a, buckets)
  {
    var s1 := StrRowUpdate(s, r1, cfg, buckets);
    TrackedStringRow(s, r1, cfg, w, buckets);
    TrackedStringRow(s1, r2, cfg, w, buckets);
  }

  /** A batch of rows ["a", "b", "a"] and ["a", "c"] on the path of a
      feature that tracks "a", with any vocabulary: two examples, and the
      token's entry is the two rows' updates. */
  lemma ExampleAccumulator(domains: map<FeaturePath, NLDomain>, path: FeaturePath, buckets: int)
    requires path in ValidFeaturePaths(domains) && TracksString(ConfigOf(domains[path]), "a")
    ensures var s := AddBatch(EMPTY_STATS, domains, path,
                              StringArray([Some(["a", "b", "a"]), Some(["a", "c"])]), buckets);
            && s.counters.numExamples == 2
            && StrToken("a") in s.tokenStatistics
            && s.tokenStatistics[StrToken("a")] == ExampleTokenStats(buckets)
  {
    var cfg := ConfigOf(domains[path]);
    StringBatch(EMPTY_STATS, domains, path, [Some(["a", "b", "a"]), Some(["a", "c"])], buckets);
    TwoStrRows(EMPTY_STATS, ["a", "b", "a"], ["a", "c"], cfg, buckets);
    TwoRowsTracked(EMPTY_STATS, cfg, ["a", "b", "a"], ["a", "c"], "a", buckets);
    assert Get(EMPTY_STATS.tokenStatistics, StrToken("a")) == EMPTY_TOKEN_STATS;
  }

  /** How often "a" occurs in each of the example's rows. */
  lemma ExampleCounts()
    ensures multiset(StrRow(["a", "b", "a"]))[StrToken("a")] == 2
    ensures multiset(StrRow(["a", "c"]))[StrToken("a")] == 1
  {
    assert StrRow(["a", "b", "a"]) == [StrToken("a"), StrToken("b"), StrToken("a")];
    assert StrRow(["a", "c"]) == [StrToken("a"), StrToken("c")];
  }

  /** A token occurring twice in one row and once in the next: three
      occurrences in two sequences, one to two per sequence. */
  lemma TwiceThenOnce(r1: seq<Token>, r2: seq<Token>, t: Token, buckets: int)
    requires multiset(r1)[t] == 2 && multiset(r2)[t] == 1
    ensures var x := UpdateToken(UpdateToken(EMPTY_TOKEN_STATS, r1, t, buckets), r2, t, buckets);
            && x.frequency == 3
            && x.numSequences == 2
            && x.perSequenceMinFrequency == Some(1)
            && x.perSequenceMaxFrequency == Some(2)
  {
    var t1 := UpdateToken(EMPTY_TOKEN_STATS, r1, t, buckets);
    assert t1.frequency == 2 && t1.numSequences == 1;
    assert t1.perSequenceMinFrequency == Some(2) && t1.perSequenceMaxFrequency == Some(2);
  }

  /** The token occurs three times, in both sequences, once or twice per
      sequence; so, over two examples, it is in all of them, 1.5 times per
      sequence on average. */
  lemma ExampleTokenFigures(buckets: int)
    ensures var t := ExampleTokenStats(buckets);
            && t.frequency == 3
            && t.numSequences == 2
            && t.perSequenceMinFrequency == Some(1)
            && t.perSequenceMaxFrequency == Some(2)
            && var f := Extraction.TokenOutput(t, 2, buckets);
               && f.Some?
               && f.value.fractionOfSequences == Ratio(2, 2)
               && RealValue(f.value.fractionOfSequences) == 1.0
               && f.value.perSequenceAvgFrequency == Ratio(3, 2)
  {
    ExampleCounts();
    TwiceThenOnce(StrRow(["a", "b", "a"]), StrRow(["a", "c"]), StrToken("a"), buckets);
  }
}
