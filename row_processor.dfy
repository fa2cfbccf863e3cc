/**
 * The row processors of the natural-language combiner
 * (natural_language_stats_generator.py, lines 170-297): what one non-null
 * row of a feature does to an accumulator, first as functions on the
 * accumulator's value and then as the methods that update a
 * `PartialNLStats` in place and are proved to compute those functions.
 *
 * The central facts: processing a row into an accumulator is the same as
 * merging in a fresh accumulator that processed only that row, so a
 * combiner may process rows in any grouping; and processing keeps the
 * accumulator invariant `ValidStats`.
 */
module RowProcessor {
  import opened Wrappers
  import opened TokenStatistics
  import opened ReportedSequences
  import opened PartialStats

  /** What the row processors need to know about a feature (lines 486-497):
      its vocabulary and the reverse vocabulary (an absent vocabulary is the
      empty map: the row processors behave identically on `None` and `{}`;
      `if vocab:` at line 280 becomes `|vocab| > 0`, and `if rvocab:` at
      line 239 needs no test, as resolving through an empty map changes
      nothing), the excluded and out-of-vocabulary token sets, and the
      tracked tokens. */
  datatype FeatureConfig = FeatureConfig(
    vocab: map<string, int>,
    rvocab: map<int, string>,
    excludedStringTokens: set<string>,
    excludedIntTokens: set<int>,
    oovStringTokens: set<string>,
    intTokens: set<int>,
    stringTokens: set<string>)

  /** The tracked int tokens as keys of the token map. */
  function TrackedInts(cfg: FeatureConfig): set<Token>
  {
    set i | i in cfg.intTokens :: IntToken(i)
  }

  /** The tracked string tokens as keys of the token map. */
  function TrackedStrings(cfg: FeatureConfig): set<Token>
  {
    set w | w in cfg.stringTokens :: StrToken(w)
  }

  function IntRow(row: seq<int>): (r: seq<Token>)
    ensures |r| == |row|
  {
    seq(|row|, i requires 0 <= i < |row| => IntToken(row[i]))
  }

  function StrRow(row: seq<string>): (r: seq<Token>)
    ensures |r| == |row|
  {
    seq(|row|, i requires 0 <= i < |row| => StrToken(row[i]))
  }

  /** Lines 239-242: `[rvocab.get(r, r) for r in row]`, an int with a
      reverse-vocabulary entry becomes its string. */
  function ResolveInts(row: seq<int>, rvocab: map<int, string>): (r: seq<Token>)
    ensures |r| == |row|
  {
    seq(|row|, i requires 0 <= i < |row| =>
      if row[i] in rvocab then StrToken(rvocab[row[i]]) else IntToken(row[i]))
  }

  /** Line 282: `[vocab.get(r, r) for r in row]`, a string with a
      vocabulary entry becomes its int. */
  function ResolveStrings(row: seq<string>, vocab: map<string, int>): (r: seq<Token>)
    ensures |r| == |row|
  {
    seq(|row|, i requires 0 <= i < |row| =>
      if row[i] in vocab then IntToken(vocab[row[i]]) else StrToken(row[i]))
  }

  // ---------------------------------------------------------------------
  // Counting the tokens of a row (lines 249-264 and 285-297)

  /** What the filtering loop does with one entry: skip it, count it, or
      count it and add its text to the in-vocabulary list. */
  datatype EntryClass = Excluded | OutOfVocab | InVocab(text: string)

  /** Lines 250-261 for one entry of an int row. */
  function ClassifyInt(e: int, cfg: FeatureConfig): EntryClass
  {
    if e in cfg.excludedIntTokens then Excluded
    else if e in cfg.rvocab && cfg.rvocab[e] in cfg.excludedStringTokens then Excluded
    else if e in cfg.rvocab && cfg.rvocab[e] !in cfg.oovStringTokens then InVocab(cfg.rvocab[e])
    else OutOfVocab
  }

  /** Lines 287-294 for one entry of a string row. */
  function ClassifyStr(e: string, cfg: FeatureConfig): EntryClass
  {
    if e in cfg.excludedStringTokens then Excluded
    else if e in cfg.vocab && cfg.vocab[e] in cfg.excludedIntTokens then Excluded
    else if e !in cfg.oovStringTokens then InVocab(e)
    else OutOfVocab
  }

  function ClassifyInts(row: seq<int>, cfg: FeatureConfig): (r: seq<EntryClass>)
    ensures |r| == |row|
  {
    seq(|row|, i requires 0 <= i < |row| => ClassifyInt(row[i], cfg))
  }

  function ClassifyStrs(row: seq<string>, cfg: FeatureConfig): (r: seq<EntryClass>)
    ensures |r| == |row|
  {
    seq(|row|, i requires 0 <= i < |row| => ClassifyStr(row[i], cfg))
  }

  /** How much the loop adds to `total_num_tokens`: one per entry not skipped. */
  function CountedTokens(cls: seq<EntryClass>): (n: nat)
    ensures n <= |cls|
  {
    if |cls| == 0 then 0
    else CountedTokens(cls[..|cls| - 1]) + (if cls[|cls| - 1].Excluded? then 0 else 1)
  }

  /** The in-vocabulary list the loop builds, in row order. Every entry of
      it was counted, so it is never longer than the count. */
  function InVocabTokens(cls: seq<EntryClass>): (r: seq<string>)
    ensures |r| <= CountedTokens(cls)
  {
    if |cls| == 0 then []
    else
      var last := cls[|cls| - 1];
      InVocabTokens(cls[..|cls| - 1]) + (if last.InVocab? then [last.text] else [])
  }

  /** Exactly the entries that are not excluded are counted. */
  lemma {:induction false} CountedTokensExact(cls: seq<EntryClass>)
    ensures CountedTokens(cls) == |cls| - multiset(cls)[Excluded]
  {
    if |cls| > 0 {
      var init := cls[..|cls| - 1];
      CountedTokensExact(init);
      assert cls == init + [cls[|cls| - 1]];
    }
  }

  lemma MultisetOfLast(cls: seq<EntryClass>)
    requires |cls| > 0
    ensures multiset(cls) == multiset(cls[..|cls| - 1]) + multiset{cls[|cls| - 1]}
  {
    assert cls == cls[..|cls| - 1] + [cls[|cls| - 1]];
  }

  /** The last entry adds one occurrence of `w` to the list exactly when
      it is the in-vocabulary entry `w`. */
  lemma InVocabTokensLast(cls: seq<EntryClass>, w: string)
    requires |cls| > 0
    ensures var last := cls[|cls| - 1];
            multiset(InVocabTokens(cls))[w]
              == multiset(InVocabTokens(cls[..|cls| - 1]))[w] + (if last == InVocab(w) then 1 else 0)
  {
    var init, last := cls[..|cls| - 1], cls[|cls| - 1];
    var tail := if last.InVocab? then [last.text] else [];
    assert multiset(InVocabTokens(cls)) == multiset(InVocabTokens(init)) + multiset(tail);
    assert (last == InVocab(w)) == (last.InVocab? && last.text == w);
  }

  /** Every in-vocabulary entry, and nothing else, lands in the list. */
  lemma {:induction false} InVocabTokensExact(cls: seq<EntryClass>, w: string)
    ensures multiset(InVocabTokens(cls))[w] == multiset(cls)[InVocab(w)]
  {
    if |cls| > 0 {
      var init, last := cls[..|cls| - 1], cls[|cls| - 1];
      InVocabTokensExact(init, w);
      InVocabTokensLast(cls, w);
      MultisetOfLast(cls);
    }
  }

  /** A row made only of excluded ints adds nothing to either count. */
  lemma ExcludedIntsNotCounted(row: seq<int>, cfg: FeatureConfig)
    requires forall i :: 0 <= i < |row| ==> row[i] in cfg.excludedIntTokens
    ensures CountedTokens(ClassifyInts(row, cfg)) == 0
    ensures InVocabTokens(ClassifyInts(row, cfg)) == []
  {
    var cls := ClassifyInts(row, cfg);
    CountedTokensExact(cls);
    assert cls == seq(|row|, i => Excluded);
    assert multiset(cls)[Excluded] == |cls| by {
      ConstantMultiset(cls, Excluded);
    }
  }

  /** A row made only of excluded strings adds nothing to either count. */
  lemma ExcludedStringsNotCounted(row: seq<string>, cfg: FeatureConfig)
    requires forall i :: 0 <= i < |row| ==> row[i] in cfg.excludedStringTokens
    ensures CountedTokens(ClassifyStrs(row, cfg)) == 0
    ensures InVocabTokens(ClassifyStrs(row, cfg)) == []
  {
    var cls := ClassifyStrs(row, cfg);
    CountedTokensExact(cls);
    assert multiset(cls)[Excluded] == |cls| by {
      ConstantMultiset(cls, Excluded);
    }
  }

  lemma {:induction false} ConstantMultiset(cls: seq<EntryClass>, c: EntryClass)
    requires forall i :: 0 <= i < |cls| ==> cls[i] == c
    ensures multiset(cls)[c] == |cls|
  {
    if |cls| > 0 {
      var init := cls[..|cls| - 1];
      ConstantMultiset(init, c);
      assert cls == init + [cls[|cls| - 1]];
    }
  }

  // ---------------------------------------------------------------------
  // The metrics of a reported sequence (lines 209-218)

  /** Whether an entry of a resolved row counts toward the metrics: a
      string outside the OOV set. */
  predicate Covered(x: Token, oov: set<string>)
  {
    x.StrToken? && x.text !in oov
  }

  /** `token_lens` (lines 209-212). */
  function CoveredLengths(resolved: seq<Token>, oov: set<string>): (r: seq<nat>)
    ensures |r| <= |resolved|
  {
    if |resolved| == 0 then []
    else
      var last := resolved[|resolved| - 1];
      CoveredLengths(resolved[..|resolved| - 1], oov) + (if Covered(last, oov) then [|last.text|] else [])
  }

  function Sum(xs: seq<nat>): nat
  {
    if |xs| == 0 then 0 else Sum(xs[..|xs| - 1]) + xs[|xs| - 1]
  }

  /** Line 214: the fraction of the row's entries that are covered. */
  function Coverage(resolved: seq<Token>, oov: set<string>): (c: real)
    requires |resolved| > 0
    ensures 0.0 <= c <= 1.0
  {
    (|CoveredLengths(resolved, oov)| as real) / (|resolved| as real)
  }

  /** Lines 215-218: the mean length of the covered entries, 0 when there
      are none. */
  function AvgTokenLength(resolved: seq<Token>, oov: set<string>): (a: real)
    ensures 0.0 <= a
    ensures CoveredLengths(resolved, oov) == [] ==> a == 0.0
  {
    var lens := CoveredLengths(resolved, oov);
    if |lens| == 0 then 0.0 else (Sum(lens) as real) / (|lens| as real)
  }

  lemma {:induction false} CoveredLengthsAppend(a: seq<Token>, b: seq<Token>, oov: set<string>)
    ensures CoveredLengths(a + b, oov) == CoveredLengths(a, oov) + CoveredLengths(b, oov)
    decreases |b|
  {
    if |b| > 0 {
      var init := b[..|b| - 1];
      assert (a + b)[..|a + b| - 1] == a + init;
      CoveredLengthsAppend(a, init, oov);
    } else {
      assert a + b == a;
    }
  }

  /** Unresolved ints never count toward either metric: a row of ints
      with no reverse vocabulary has coverage 0 and average length 0. */
  lemma {:induction false} IntsNotCovered(row: seq<int>, oov: set<string>)
    ensures CoveredLengths(IntRow(row), oov) == []
    ensures |row| > 0 ==> Coverage(IntRow(row), oov) == 0.0
    ensures AvgTokenLength(IntRow(row), oov) == 0.0
  {
    if |row| > 0 {
      IntsNotCovered(row[..|row| - 1], oov);
      assert IntRow(row)[..|row| - 1] == IntRow(row[..|row| - 1]);
    }
  }

  /** The coverage is 1 exactly when every entry is a non-OOV string. */
  lemma {:induction false} FullCoverage(resolved: seq<Token>, oov: set<string>)
    ensures |CoveredLengths(resolved, oov)| == |resolved|
        <==> forall i :: 0 <= i < |resolved| ==> Covered(resolved[i], oov)
  {
    if |resolved| > 0 {
      var init := resolved[..|resolved| - 1];
      FullCoverage(init, oov);
      assert forall i :: 0 <= i < |init| ==> init[i] == resolved[i];
    }
  }

  lemma CoveredOne(x: Token, oov: set<string>)
    ensures CoveredLengths([x], oov) == if Covered(x, oov) then [|x.text|] else []
  {
    assert [x][..0] == [];
  }

  lemma CoveredLengthsExample(oov: set<string>)
    requires oov == {"zz"}
    ensures CoveredLengths([StrToken("ab"), IntToken(7), StrToken("xyz"), StrToken("zz")], oov) == [2, 3]
  {
    var a, b, c, d := StrToken("ab"), IntToken(7), StrToken("xyz"), StrToken("zz");
    CoveredOne(a, oov);
    CoveredOne(b, oov);
    CoveredOne(c, oov);
    CoveredOne(d, oov);
    CoveredLengthsAppend([a], [b], oov);
    CoveredLengthsAppend([a, b], [c], oov);
    CoveredLengthsAppend([a, b, c], [d], oov);
    assert [a] + [b] == [a, b] && [a, b] + [c] == [a, b, c] && [a, b, c] + [d] == [a, b, c, d];
  }

  /** A row of four entries, two of them covered strings of lengths 2
      and 3, one an unresolved int and one an OOV string. */
  lemma CoverageExample()
    ensures Coverage([StrToken("ab"), IntToken(7), StrToken("xyz"), StrToken("zz")], {"zz"}) == 0.5
    ensures AvgTokenLength([StrToken("ab"), IntToken(7), StrToken("xyz"), StrToken("zz")], {"zz"}) == 2.5
  {
    CoveredLengthsExample({"zz"});
    assert [2, 3][..1] == [2] && [2][..0] == [];
    assert Sum([2, 3]) == 5;
  }

  // ---------------------------------------------------------------------
  // One row, on values

  const ONE_EXAMPLE := Counters(0, 0, 0, 1)

  /** Lines 235 and 274: a non-null row is one more example. */
  function CountExample(s: NLStats): NLStats
  {
    s.(counters := MergeCounters(s.counters, ONE_EXAMPLE))
  }

  /** Line 261 or 294, once per counted entry. */
  function CountTokens(s: NLStats, n: nat): NLStats
  {
    s.(counters := MergeCounters(s.counters, Counters(0, n, 0, 0)))
  }

  /** `token_len_list` (line 175). */
  function Lengths(tokens: seq<string>): (r: seq<nat>)
    ensures |r| == |tokens|
  {
    seq(|tokens|, i requires 0 <= i < |tokens| => |tokens[i]|)
  }

  /** `_update_accumulator_with_in_vocab_string_tokens` (lines 170-177):
      the in-vocabulary count and the sum of lengths grow, and both
      sketches are fed. */
  function AddInVocab(s: NLStats, tokens: seq<string>): NLStats
  {
    var lens := Lengths(tokens);
    s.(counters := MergeCounters(s.counters, Counters(|tokens|, 0, Sum(lens), 0)),
       sketches := MergeSketchInputs(s.sketches, SketchInputs(multiset(lens), multiset(tokens))))
  }

  /** `_update_accumulator_reported_sequences` (lines 204-225): the row
      joins each list with its metric, and the list is sorted and cut. */
  function AddReported(s: NLStats, resolved: seq<Token>, oov: set<string>): NLStats
    requires |resolved| > 0
  {
    NLStats(s.invalidate, s.counters, s.sketches, s.tokenStatistics,
      SortAndTruncate(s.reportedSequencesCoverage + [Reported(resolved, Coverage(resolved, oov))]),
      SortAndTruncate(s.reportedSequencesAvgTokenLength + [Reported(resolved, AvgTokenLength(resolved, oov))]))
  }

  /** Lines 236-247: the token statistics and reported sequences of a
      non-empty int row. */
  function IntRowTokens(s: NLStats, row: seq<int>, cfg: FeatureConfig, buckets: int): NLStats
  {
    if |row| == 0 then s
    else
      var resolved := ResolveInts(row, cfg.rvocab);
      var m := UpdateTokens(UpdateTokens(s.tokenStatistics, IntRow(row), TrackedInts(cfg), buckets),
                            resolved, TrackedStrings(cfg), buckets);
      AddReported(s.(tokenStatistics := m), resolved, cfg.oovStringTokens)
  }

  /** `_compute_int_statistics` (lines 228-264) on values. */
  function IntRowUpdate(s: NLStats, row: seq<int>, cfg: FeatureConfig, buckets: int): NLStats
  {
    var cls := ClassifyInts(row, cfg);
    AddInVocab(CountTokens(IntRowTokens(CountExample(s), row, cfg, buckets), CountedTokens(cls)),
               InVocabTokens(cls))
  }

  /** Lines 276-284: the token statistics and reported sequences of a
      non-empty string row; the tracked ints are looked for in the row
      mapped through the vocabulary only when there is one. */
  function StrRowTokens(s: NLStats, row: seq<string>, cfg: FeatureConfig, buckets: int): NLStats
  {
    if |row| == 0 then s
    else
      var tokens := StrRow(row);
      var m := UpdateTokens(s.tokenStatistics, tokens, TrackedStrings(cfg), buckets);
      var r := AddReported(s.(tokenStatistics := m), tokens, cfg.oovStringTokens);
      if |cfg.vocab| > 0 then
        r.(tokenStatistics := UpdateTokens(m, ResolveStrings(row, cfg.vocab), TrackedInts(cfg), buckets))
      else r
  }

  /** `_compute_str_statistics` (lines 267-297) on values. */
  function StrRowUpdate(s: NLStats, row: seq<string>, cfg: FeatureConfig, buckets: int): NLStats
  {
    var cls := ClassifyStrs(row, cfg);
    AddInVocab(CountTokens(StrRowTokens(CountExample(s), row, cfg, buckets), CountedTokens(cls)),
               InVocabTokens(cls))
  }

  // ---------------------------------------------------------------------
  // What a row does to the counters

  /** The token-statistics phase leaves the counters and sketch inputs alone. */
  lemma IntRowTokensCounters(s: NLStats, row: seq<int>, cfg: FeatureConfig, buckets: int)
    ensures IntRowTokens(s, row, cfg, buckets).counters == s.counters
    ensures IntRowTokens(s, row, cfg, buckets).sketches == s.sketches
  {
  }

  lemma StrRowTokensCounters(s: NLStats, row: seq<string>, cfg: FeatureConfig, buckets: int)
    ensures StrRowTokens(s, row, cfg, buckets).counters == s.counters
    ensures StrRowTokens(s, row, cfg, buckets).sketches == s.sketches
  {
  }

  lemma CountersAdd(c: Counters, n: nat, k: nat, l: nat)
    ensures MergeCounters(MergeCounters(MergeCounters(c, ONE_EXAMPLE), Counters(0, n, 0, 0)), Counters(k, 0, l, 0))
         == MergeCounters(c, Counters(k, n, l, 1))
  {
  }

  /** An int row adds one example, its counted entries, and its
      in-vocabulary tokens and their lengths. */
  lemma IntRowCounters(s: NLStats, row: seq<int>, cfg: FeatureConfig, buckets: int)
    ensures var cls := ClassifyInts(row, cfg);
            var iv := InVocabTokens(cls);
            IntRowUpdate(s, row, cfg, buckets).counters
              == MergeCounters(s.counters, Counters(|iv|, CountedTokens(cls), Sum(Lengths(iv)), 1))
  {
    var cls := ClassifyInts(row, cfg);
    var iv := InVocabTokens(cls);
    IntRowTokensCounters(CountExample(s), row, cfg, buckets);
    CountersAdd(s.counters, CountedTokens(cls), |iv|, Sum(Lengths(iv)));
  }

  /** A string row adds one example, its counted entries, and its
      in-vocabulary tokens and their lengths. */
  lemma StrRowCounters(s: NLStats, row: seq<string>, cfg: FeatureConfig, buckets: int)
    ensures var cls := ClassifyStrs(row, cfg);
            var iv := InVocabTokens(cls);
            StrRowUpdate(s, row, cfg, buckets).counters
              == MergeCounters(s.counters, Counters(|iv|, CountedTokens(cls), Sum(Lengths(iv)), 1))
  {
    var cls := ClassifyStrs(row, cfg);
    var iv := InVocabTokens(cls);
    StrRowTokensCounters(CountExample(s), row, cfg, buckets);
    CountersAdd(s.counters, CountedTokens(cls), |iv|, Sum(Lengths(iv)));
  }

  /** Adding no in-vocabulary tokens changes nothing. */
  lemma AddNothing(s: NLStats)
    ensures AddInVocab(s, []) == s
  {
    MergeCountersIdentity(s.counters);
    MergeSketchInputsIdentity(s.sketches);
    assert multiset(Lengths([])) == multiset{};
  }

  /** Counting no entries changes nothing. */
  lemma CountNothing(s: NLStats)
    ensures CountTokens(s, 0) == s
  {
    MergeCountersIdentity(s.counters);
  }

  /** An empty row only counts as an example. */
  lemma EmptyIntRow(s: NLStats, cfg: FeatureConfig, buckets: int)
    ensures IntRowUpdate(s, [], cfg, buckets) == CountExample(s)
  {
    CountNothing(CountExample(s));
    AddNothing(CountExample(s));
  }

  /** An empty row only counts as an example. */
  lemma EmptyStrRow(s: NLStats, cfg: FeatureConfig, buckets: int)
    ensures StrRowUpdate(s, [], cfg, buckets) == CountExample(s)
  {
    CountNothing(CountExample(s));
    AddNothing(CountExample(s));
  }

  // ---------------------------------------------------------------------
  // Processing a row commutes with merging

  lemma CountExampleMerge(a: NLStats, b: NLStats)
    ensures CountExample(MergeStats(a, b)) == MergeStats(a, CountExample(b))
  {
    MergeCountersAssociates(a.counters, b.counters, ONE_EXAMPLE);
  }

  lemma CountTokensMerge(a: NLStats, b: NLStats, n: nat)
    ensures CountTokens(MergeStats(a, b), n) == MergeStats(a, CountTokens(b, n))
  {
    MergeCountersAssociates(a.counters, b.counters, Counters(0, n, 0, 0));
  }

  lemma AddInVocabMerge(a: NLStats, b: NLStats, tokens: seq<string>)
    ensures AddInVocab(MergeStats(a, b), tokens) == MergeStats(a, AddInVocab(b, tokens))
  {
    var lens := Lengths(tokens);
    MergeCountersAssociates(a.counters, b.counters, Counters(|tokens|, 0, Sum(lens), 0));
    MergeSketchInputsAssociates(a.sketches, b.sketches, SketchInputs(multiset(lens), multiset(tokens)));
  }

  lemma AddReportedMerge(a: NLStats, b: NLStats, resolved: seq<Token>, oov: set<string>)
    requires |resolved| > 0
    ensures AddReported(MergeStats(a, b), resolved, oov) == MergeStats(a, AddReported(b, resolved, oov))
  {
    ReportedMergeAssociates(a.reportedSequencesCoverage, b.reportedSequencesCoverage,
      [Reported(resolved, Coverage(resolved, oov))]);
    ReportedMergeAssociates(a.reportedSequencesAvgTokenLength, b.reportedSequencesAvgTokenLength,
      [Reported(resolved, AvgTokenLength(resolved, oov))]);
  }

  /** Replacing the token map of a merge by an update of the merged map is
      replacing the right-hand side's map. */
  lemma WithTokensMerge(a: NLStats, b: NLStats, m: TokenMap)
    ensures MergeStats(a, b).(tokenStatistics := MergeTokenMaps(a.tokenStatistics, m))
         == MergeStats(a, b.(tokenStatistics := m))
  {
  }

  lemma IntRowTokensMerge(a: NLStats, b: NLStats, row: seq<int>, cfg: FeatureConfig, buckets: int)
    ensures IntRowTokens(MergeStats(a, b), row, cfg, buckets) == MergeStats(a, IntRowTokens(b, row, cfg, buckets))
  {
    if |row| > 0 {
      var resolved := ResolveInts(row, cfg.rvocab);
      var m1 := UpdateTokens(b.tokenStatistics, IntRow(row), TrackedInts(cfg), buckets);
      var m2 := UpdateTokens(m1, resolved, TrackedStrings(cfg), buckets);
      UpdateTokensMergeRight(a.tokenStatistics, b.tokenStatistics, IntRow(row), TrackedInts(cfg), buckets);
      UpdateTokensMergeRight(a.tokenStatistics, m1, resolved, TrackedStrings(cfg), buckets);
      WithTokensMerge(a, b, m2);
      AddReportedMerge(a, b.(tokenStatistics := m2), resolved, cfg.oovStringTokens);
    }
  }

  lemma StrRowTokensMerge(a: NLStats, b: NLStats, row: seq<string>, cfg: FeatureConfig, buckets: int)
    ensures StrRowTokens(MergeStats(a, b), row, cfg, buckets) == MergeStats(a, StrRowTokens(b, row, cfg, buckets))
  {
    if |row| > 0 {
      var tokens := StrRow(row);
      var m1 := UpdateTokens(b.tokenStatistics, tokens, TrackedStrings(cfg), buckets);
      UpdateTokensMergeRight(a.tokenStatistics, b.tokenStatistics, tokens, TrackedStrings(cfg), buckets);
      WithTokensMerge(a, b, m1);
      AddReportedMerge(a, b.(tokenStatistics := m1), tokens, cfg.oovStringTokens);
      if |cfg.vocab| > 0 {
        var r := AddReported(b.(tokenStatistics := m1), tokens, cfg.oovStringTokens);
        var m2 := UpdateTokens(m1, ResolveStrings(row, cfg.vocab), TrackedInts(cfg), buckets);
        UpdateTokensMergeRight(a.tokenStatistics, m1, ResolveStrings(row, cfg.vocab), TrackedInts(cfg), buckets);
        WithTokensMerge(a, r, m2);
      }
    }
  }

  /** Processing an int row into a merge is merging with the processed
      right-hand side. */
  lemma IntRowUpdateMerge(a: NLStats, b: NLStats, row: seq<int>, cfg: FeatureConfig, buckets: int)
    ensures IntRowUpdate(MergeStats(a, b), row, cfg, buckets) == MergeStats(a, IntRowUpdate(b, row, cfg, buckets))
  {
    var cls := ClassifyInts(row, cfg);
    var b1 := CountExample(b);
    var b2 := IntRowTokens(b1, row, cfg, buckets);
    var b3 := CountTokens(b2, CountedTokens(cls));
    CountExampleMerge(a, b);
    IntRowTokensMerge(a, b1, row, cfg, buckets);
    CountTokensMerge(a, b2, CountedTokens(cls));
    AddInVocabMerge(a, b3, InVocabTokens(cls));
  }

  /** Processing a string row into a merge is merging with the processed
      right-hand side. */
  lemma StrRowUpdateMerge(a: NLStats, b: NLStats, row: seq<string>, cfg: FeatureConfig, buckets: int)
    ensures StrRowUpdate(MergeStats(a, b), row, cfg, buckets) == MergeStats(a, StrRowUpdate(b, row, cfg, buckets))
  {
    var cls := ClassifyStrs(row, cfg);
    var b1 := CountExample(b);
    var b2 := StrRowTokens(b1, row, cfg, buckets);
    var b3 := CountTokens(b2, CountedTokens(cls));
    CountExampleMerge(a, b);
    StrRowTokensMerge(a, b1, row, cfg, buckets);
    CountTokensMerge(a, b2, CountedTokens(cls));
    AddInVocabMerge(a, b3, InVocabTokens(cls));
  }

  /** Processing an int row is merging in a fresh accumulator that
      processed only that row. */
  lemma IntRowUpdateIsMerge(s: NLStats, row: seq<int>, cfg: FeatureConfig, buckets: int)
    requires WellFormed(s.reportedSequencesCoverage) && WellFormed(s.reportedSequencesAvgTokenLength)
    ensures IntRowUpdate(s, row, cfg, buckets) == MergeStats(s, IntRowUpdate(EMPTY_STATS, row, cfg, buckets))
  {
    MergeStatsIdentity(s);
    IntRowUpdateMerge(s, EMPTY_STATS, row, cfg, buckets);
  }

  /** Processing a string row is merging in a fresh accumulator that
      processed only that row. */
  lemma StrRowUpdateIsMerge(s: NLStats, row: seq<string>, cfg: FeatureConfig, buckets: int)
    requires WellFormed(s.reportedSequencesCoverage) && WellFormed(s.reportedSequencesAvgTokenLength)
    ensures StrRowUpdate(s, row, cfg, buckets) == MergeStats(s, StrRowUpdate(EMPTY_STATS, row, cfg, buckets))
  {
    MergeStatsIdentity(s);
    StrRowUpdateMerge(s, EMPTY_STATS, row, cfg, buckets);
  }

  // ---------------------------------------------------------------------
  // Processing a row keeps the invariant

  lemma TrackedDisjoint(cfg: FeatureConfig, t: Token)
    ensures !(t in TrackedInts(cfg) && t in TrackedStrings(cfg))
  {
  }

  /** Two passes over disjoint sets of tracked tokens add at most one
      sequence to every token. */
  lemma TwoPassesSequences(m: TokenMap, r1: seq<Token>, t1: set<Token>, r2: seq<Token>, t2: set<Token>,
                           buckets: int, n: nat)
    requires SequencesAtMost(m, n)
    requires forall t :: !(t in t1 && t in t2)
    ensures SequencesAtMost(UpdateTokens(UpdateTokens(m, r1, t1, buckets), r2, t2, buckets), n + 1)
  {
    var m1 := UpdateTokens(m, r1, t1, buckets);
    UpdateTokensSequences(m, r1, t1, buckets, n);
    UpdateTokensSequences(m1, r2, t2, buckets, n);
  }

  /** The reported lists stay stored lists with metrics in range. */
  lemma AddReportedValid(s: NLStats, resolved: seq<Token>, oov: set<string>)
    requires ValidStats(s) && |resolved| > 0
    ensures ValidStats(AddReported(s, resolved, oov))
  {
    var x := Reported(resolved, Coverage(resolved, oov));
    var y := Reported(resolved, AvgTokenLength(resolved, oov));
    forall z | z in SortAndTruncate(s.reportedSequencesCoverage + [x])
      ensures 0.0 <= z.metric <= 1.0
    {
      SortAndTruncateWithin(s.reportedSequencesCoverage + [x], z);
    }
    forall z | z in SortAndTruncate(s.reportedSequencesAvgTokenLength + [y])
      ensures 0.0 <= z.metric
    {
      SortAndTruncateWithin(s.reportedSequencesAvgTokenLength + [y], z);
    }
  }

  lemma CountExampleValid(s: NLStats)
    requires ValidStats(s)
    ensures ValidStats(CountExample(s))
  {
  }

  /** Replacing the token map by a valid one within the example count
      keeps the invariant. */
  lemma WithTokensValid(s: NLStats, m: TokenMap)
    requires ValidStats(s) && ValidTokenMap(m) && SequencesAtMost(m, s.counters.numExamples)
    ensures ValidStats(s.(tokenStatistics := m))
  {
  }

  /** The two passes over an int row keep the token map valid. */
  lemma IntPassesValid(m: TokenMap, row: seq<int>, cfg: FeatureConfig, buckets: int, n: nat)
    requires ValidTokenMap(m) && SequencesAtMost(m, n)
    ensures var m1 := UpdateTokens(m, IntRow(row), TrackedInts(cfg), buckets);
            var m2 := UpdateTokens(m1, ResolveInts(row, cfg.rvocab), TrackedStrings(cfg), buckets);
            ValidTokenMap(m2) && SequencesAtMost(m2, n + 1)
  {
    var m1 := UpdateTokens(m, IntRow(row), TrackedInts(cfg), buckets);
    var resolved := ResolveInts(row, cfg.rvocab);
    UpdateTokensValid(m, IntRow(row), TrackedInts(cfg), buckets);
    UpdateTokensValid(m1, resolved, TrackedStrings(cfg), buckets);
    forall t ensures !(t in TrackedInts(cfg) && t in TrackedStrings(cfg)) {
      TrackedDisjoint(cfg, t);
    }
    TwoPassesSequences(m, IntRow(row), TrackedInts(cfg), resolved, TrackedStrings(cfg), buckets, n);
  }

  /** The one or two passes over a string row keep the token map valid. */
  lemma StrPassesValid(m: TokenMap, row: seq<string>, cfg: FeatureConfig, buckets: int, n: nat)
    requires ValidTokenMap(m) && SequencesAtMost(m, n)
    ensures var m1 := UpdateTokens(m, StrRow(row), TrackedStrings(cfg), buckets);
            var m2 := UpdateTokens(m1, ResolveStrings(row, cfg.vocab), TrackedInts(cfg), buckets);
            ValidTokenMap(m1) && SequencesAtMost(m1, n + 1) && ValidTokenMap(m2) && SequencesAtMost(m2, n + 1)
  {
    var m1 := UpdateTokens(m, StrRow(row), TrackedStrings(cfg), buckets);
    var resolved := ResolveStrings(row, cfg.vocab);
    UpdateTokensValid(m, StrRow(row), TrackedStrings(cfg), buckets);
    UpdateTokensValid(m1, resolved, TrackedInts(cfg), buckets);
    UpdateTokensSequences(m, StrRow(row), TrackedStrings(cfg), buckets, n);
    forall t ensures !(t in TrackedStrings(cfg) && t in TrackedInts(cfg)) {
      TrackedDisjoint(cfg, t);
    }
    TwoPassesSequences(m, StrRow(row), TrackedStrings(cfg), resolved, TrackedInts(cfg), buckets, n);
  }

  /** Counting an example and then the row's tokens keeps the invariant. */
  lemma IntRowTokensValid(s: NLStats, row: seq<int>, cfg: FeatureConfig, buckets: int)
    requires ValidStats(s)
    ensures ValidStats(IntRowTokens(CountExample(s), row, cfg, buckets))
  {
    var s1 := CountExample(s);
    CountExampleValid(s);
    if |row| > 0 {
      var resolved := ResolveInts(row, cfg.rvocab);
      var m1 := UpdateTokens(s.tokenStatistics, IntRow(row), TrackedInts(cfg), buckets);
      var m := UpdateTokens(m1, resolved, TrackedStrings(cfg), buckets);
      IntPassesValid(s.tokenStatistics, row, cfg, buckets, s.counters.numExamples);
      WithTokensValid(s1, m);
      AddReportedValid(s1.(tokenStatistics := m), resolved, cfg.oovStringTokens);
    }
  }

  lemma StrRowTokensValid(s: NLStats, row: seq<string>, cfg: FeatureConfig, buckets: int)
    requires ValidStats(s)
    ensures ValidStats(StrRowTokens(CountExample(s), row, cfg, buckets))
  {
    var s1 := CountExample(s);
    CountExampleValid(s);
    if |row| > 0 {
      var tokens := StrRow(row);
      var m1 := UpdateTokens(s.tokenStatistics, tokens, TrackedStrings(cfg), buckets);
      StrPassesValid(s.tokenStatistics, row, cfg, buckets, s.counters.numExamples);
      WithTokensValid(s1, m1);
      var r := AddReported(s1.(tokenStatistics := m1), tokens, cfg.oovStringTokens);
      AddReportedValid(s1.(tokenStatistics := m1), tokens, cfg.oovStringTokens);
      if |cfg.vocab| > 0 {
        WithTokensValid(r, UpdateTokens(m1, ResolveStrings(row, cfg.vocab), TrackedInts(cfg), buckets));
      }
    }
  }

  /** Counting `n` entries of which the `tokens` are in the vocabulary
      keeps the counters matched to the sketch inputs. */
  lemma CountInVocabValid(s: NLStats, n: nat, tokens: seq<string>)
    requires ValidStats(s) && |tokens| <= n
    ensures ValidStats(AddInVocab(CountTokens(s, n), tokens))
  {
  }

  /** Processing an int row keeps the accumulator invariant; in particular
      `num_in_vocab_tokens <= total_num_tokens` and no token is in more
      sequences than there are examples. */
  lemma IntRowUpdateValid(s: NLStats, row: seq<int>, cfg: FeatureConfig, buckets: int)
    requires ValidStats(s)
    ensures ValidStats(IntRowUpdate(s, row, cfg, buckets))
  {
    var cls := ClassifyInts(row, cfg);
    IntRowTokensValid(s, row, cfg, buckets);
    CountInVocabValid(IntRowTokens(CountExample(s), row, cfg, buckets), CountedTokens(cls), InVocabTokens(cls));
  }

  /** Processing a string row keeps the accumulator invariant. */
  lemma StrRowUpdateValid(s: NLStats, row: seq<string>, cfg: FeatureConfig, buckets: int)
    requires ValidStats(s)
    ensures ValidStats(StrRowUpdate(s, row, cfg, buckets))
  {
    var cls := ClassifyStrs(row, cfg);
    StrRowTokensValid(s, row, cfg, buckets);
    CountInVocabValid(StrRowTokens(CountExample(s), row, cfg, buckets), CountedTokens(cls), InVocabTokens(cls));
  }

  /** Every recorded position stays a bucket `Bucket` can produce. */
  lemma IntRowUpdateInRange(s: NLStats, row: seq<int>, cfg: FeatureConfig, buckets: int)
    requires PositionsInRange(s.tokenStatistics, buckets)
    ensures PositionsInRange(IntRowUpdate(s, row, cfg, buckets).tokenStatistics, buckets)
  {
    if |row| > 0 {
      var m1 := UpdateTokens(s.tokenStatistics, IntRow(row), TrackedInts(cfg), buckets);
      UpdateTokensInRange(s.tokenStatistics, IntRow(row), TrackedInts(cfg), buckets);
      UpdateTokensInRange(m1, ResolveInts(row, cfg.rvocab), TrackedStrings(cfg), buckets);
    }
  }

  lemma StrRowUpdateInRange(s: NLStats, row: seq<string>, cfg: FeatureConfig, buckets: int)
    requires PositionsInRange(s.tokenStatistics, buckets)
    ensures PositionsInRange(StrRowUpdate(s, row, cfg, buckets).tokenStatistics, buckets)
  {
    if |row| > 0 {
      var m1 := UpdateTokens(s.tokenStatistics, StrRow(row), TrackedStrings(cfg), buckets);
      UpdateTokensInRange(s.tokenStatistics, StrRow(row), TrackedStrings(cfg), buckets);
      UpdateTokensInRange(m1, ResolveStrings(row, cfg.vocab), TrackedInts(cfg), buckets);
    }
  }

  // ---------------------------------------------------------------------
  // The row processors, updating an accumulator in place

  /** `_update_accumulator_with_in_vocab_string_tokens` (lines 170-177). */
  method UpdateWithInVocabStringTokens(acc: PartialNLStats, tokens: seq<string>)
    modifies acc
    ensures acc.Value() == AddInVocab(old(acc.Value()), tokens)
  {
    var lengths := Lengths(tokens);
    acc.numInVocabTokens := acc.numInVocabTokens + |tokens|;
    acc.tokenOccurrences := acc.tokenOccurrences + multiset(tokens);
    acc.sumInVocabTokenLengths := acc.sumInVocabTokenLengths + Sum(lengths);
    acc.tokenLengths := acc.tokenLengths + multiset(lengths);
  }

  /** Lines 187-188 and 199-201 for one token: the number of occurrences
      of `t` in `row` and the position bucket of each. */
  method CountOccurrences(row: seq<Token>, t: Token, buckets: int) returns (count: nat, positions: multiset<int>)
    ensures count == multiset(row)[t]
    ensures positions == BucketsOf(row, t, buckets, |row|)
  {
    count := 0;
    positions := multiset{};
    for i := 0 to |row|
      invariant count == multiset(row[..i])[t]
      invariant positions == BucketsOf(row, t, buckets, i)
    {
      assert row[..i + 1] == row[..i] + [row[i]];
      if row[i] == t {
        count := count + 1;
        positions := positions + multiset{Bucket(i, |row|, buckets)};
      }
    }
    assert row[..|row|] == row;
  }

  /** Lines 187-201 for one token: its statistics after the row. */
  method UpdatedTokenStats(ts: TokenStats, row: seq<Token>, t: Token, buckets: int) returns (r: TokenStats)
    ensures r == UpdateToken(ts, row, t, buckets)
  {
    var count, positions := CountOccurrences(row, t, buckets);
    var minFrequency := if ts.perSequenceMinFrequency.Some? then Min(ts.perSequenceMinFrequency.value, count) else count;
    var maxFrequency := if ts.perSequenceMaxFrequency.Some? then Max(ts.perSequenceMaxFrequency.value, count) else count;
    r := TokenStats(
      ts.frequency + count,
      ts.numSequences + (if count > 0 then 1 else 0),
      Some(minFrequency),
      Some(maxFrequency),
      ts.positions + positions);
  }

  /** `_update_accumulator_with_token_statistics` (lines 180-201): for each
      tracked token, count its occurrences and collect their buckets in one
      pass over the row, then fold both into the token's statistics. */
  method UpdateWithTokenStatistics(acc: PartialNLStats, row: seq<Token>, tokens: set<Token>, buckets: int)
    modifies acc`tokenStatistics
    ensures acc.tokenStatistics == UpdateTokens(old(acc.tokenStatistics), row, tokens, buckets)
  {
    ghost var m := acc.tokenStatistics;
    var pending := tokens;
    while pending != {}
      invariant pending <= tokens
      invariant acc.tokenStatistics == UpdateTokens(m, row, tokens - pending, buckets)
      decreases pending
    {
      var t :| t in pending;
      ghost var done := tokens - pending;
      var updated := UpdatedTokenStats(Get(acc.tokenStatistics, t), row, t, buckets);
      UpdateOneToken(m, row, done, t, buckets);
      acc.tokenStatistics := acc.tokenStatistics[t := updated];
      pending := pending - {t};
      assert tokens - pending == done + {t};
    }
    assert tokens - pending == tokens;
  }

  /** `_update_accumulator_reported_sequences` (lines 204-225). */
  method UpdateReportedSequences(acc: PartialNLStats, resolved: seq<Token>, oov: set<string>)
    requires |resolved| > 0
    modifies acc`reportedSequencesCoverage, acc`reportedSequencesAvgTokenLength
    ensures acc.Value() == AddReported(old(acc.Value()), resolved, oov)
  {
    ghost var s0 := acc.Value();
    var coverage := Coverage(resolved, oov);
    var avgTokenLength := AvgTokenLength(resolved, oov);
    var byCoverage := SortAndTruncate(acc.reportedSequencesCoverage + [Reported(resolved, coverage)]);
    var byAvgTokenLength := SortAndTruncate(acc.reportedSequencesAvgTokenLength + [Reported(resolved, avgTokenLength)]);
    assert AddReported(s0, resolved, oov)
        == s0.(reportedSequencesCoverage := byCoverage, reportedSequencesAvgTokenLength := byAvgTokenLength);
    acc.reportedSequencesCoverage, acc.reportedSequencesAvgTokenLength := byCoverage, byAvgTokenLength;
  }

  /** Lines 249-261: the filtering loop of an int row. */
  method FilterIntRow(row: seq<int>, acc: PartialNLStats, cfg: FeatureConfig) returns (filtered: seq<string>)
    modifies acc`totalNumTokens
    ensures filtered == InVocabTokens(ClassifyInts(row, cfg))
    ensures acc.Value() == CountTokens(old(acc.Value()), CountedTokens(ClassifyInts(row, cfg)))
  {
    ghost var cls := ClassifyInts(row, cfg);
    filtered := [];
    for i := 0 to |row|
      invariant filtered == InVocabTokens(cls[..i])
      invariant acc.totalNumTokens == old(acc.totalNumTokens) + CountedTokens(cls[..i])
    {
      assert cls[..i + 1][..i] == cls[..i];
      var entry := row[i];
      if entry in cfg.excludedIntTokens {
        continue;
      }
      if entry in cfg.rvocab {
        var entryStr := cfg.rvocab[entry];
        if entryStr in cfg.excludedStringTokens {
          continue;
        }
        if entryStr !in cfg.oovStringTokens {
          filtered := filtered + [entryStr];
        }
      }
      acc.totalNumTokens := acc.totalNumTokens + 1;
    }
    assert cls[..|row|] == cls;
  }

  /** Lines 285-294: the filtering loop of a string row. */
  method FilterStrRow(row: seq<string>, acc: PartialNLStats, cfg: FeatureConfig) returns (filtered: seq<string>)
    modifies acc`totalNumTokens
    ensures filtered == InVocabTokens(ClassifyStrs(row, cfg))
    ensures acc.Value() == CountTokens(old(acc.Value()), CountedTokens(ClassifyStrs(row, cfg)))
  {
    ghost var cls := ClassifyStrs(row, cfg);
    filtered := [];
    for i := 0 to |row|
      invariant filtered == InVocabTokens(cls[..i])
      invariant acc.totalNumTokens == old(acc.totalNumTokens) + CountedTokens(cls[..i])
    {
      assert cls[..i + 1][..i] == cls[..i];
      var entry := row[i];
      if entry in cfg.excludedStringTokens {
        continue;
      }
      if entry in cfg.vocab && cfg.vocab[entry] in cfg.excludedIntTokens {
        continue;
      }
      if entry !in cfg.oovStringTokens {
        filtered := filtered + [entry];
      }
      acc.totalNumTokens := acc.totalNumTokens + 1;
    }
    assert cls[..|row|] == cls;
  }

  /** Lines 236-247: the token statistics and reported sequences of a
      non-empty int row. */
  method UpdateWithIntRow(row: seq<int>, acc: PartialNLStats, cfg: FeatureConfig, buckets: int)
    requires |row| > 0
    modifies acc
    ensures acc.Value() == IntRowTokens(old(acc.Value()), row, cfg, buckets)
  {
    ghost var v0 := acc.Value();
    UpdateWithTokenStatistics(acc, IntRow(row), TrackedInts(cfg), buckets);
    var resolved := ResolveInts(row, cfg.rvocab);
    UpdateWithTokenStatistics(acc, resolved, TrackedStrings(cfg), buckets);
    assert acc.Value() == v0.(tokenStatistics := acc.tokenStatistics);
    UpdateReportedSequences(acc, resolved, cfg.oovStringTokens);
  }

  /** Lines 276-284: the token statistics and reported sequences of a
      non-empty string row. */
  method UpdateWithStrRow(row: seq<string>, acc: PartialNLStats, cfg: FeatureConfig, buckets: int)
    requires |row| > 0
    modifies acc
    ensures acc.Value() == StrRowTokens(old(acc.Value()), row, cfg, buckets)
  {
    ghost var v0 := acc.Value();
    var tokens := StrRow(row);
    UpdateWithTokenStatistics(acc, tokens, TrackedStrings(cfg), buckets);
    assert acc.Value() == v0.(tokenStatistics := acc.tokenStatistics);
    UpdateReportedSequences(acc, tokens, cfg.oovStringTokens);
    if |cfg.vocab| > 0 {
      ghost var v1 := acc.Value();
      UpdateWithTokenStatistics(acc, ResolveStrings(row, cfg.vocab), TrackedInts(cfg), buckets);
      assert acc.Value() == v1.(tokenStatistics := acc.tokenStatistics);
    }
  }

  /** `_compute_int_statistics` (lines 228-264). */
  method ComputeIntStatistics(row: seq<int>, acc: PartialNLStats, cfg: FeatureConfig, buckets: int)
    modifies acc
    ensures acc.Value() == IntRowUpdate(old(acc.Value()), row, cfg, buckets)
  {
    ghost var s0 := acc.Value();
    acc.numExamples := acc.numExamples + 1;
    assert acc.Value() == CountExample(s0);
    if |row| > 0 {
      UpdateWithIntRow(row, acc, cfg, buckets);
    }
    var filtered := FilterIntRow(row, acc, cfg);
    if |filtered| > 0 {
      UpdateWithInVocabStringTokens(acc, filtered);
    } else {
      AddNothing(acc.Value());
    }
  }

  /** `_compute_str_statistics` (lines 267-297). */
  method ComputeStrStatistics(row: seq<string>, acc: PartialNLStats, cfg: FeatureConfig, buckets: int)
    modifies acc
    ensures acc.Value() == StrRowUpdate(old(acc.Value()), row, cfg, buckets)
  {
    ghost var s0 := acc.Value();
    acc.numExamples := acc.numExamples + 1;
    assert acc.Value() == CountExample(s0);
    if |row| > 0 {
      UpdateWithStrRow(row, acc, cfg, buckets);
    }
    var filtered := FilterStrRow(row, acc, cfg);
    if |filtered| > 0 {
      UpdateWithInVocabStringTokens(acc, filtered);
    } else {
      AddNothing(acc.Value());
    }
  }
}
