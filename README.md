# Natural-language statistics combiner, modelled in Dafny

This project models the combiner that TensorFlow Data Validation uses to
compute natural-language statistics for a feature. The combiner is
`NLStatsGenerator` in
`tensorflow_data_validation/statistics/generators/natural_language_stats_generator.py`.

It folds tokenised sequences into a mergeable accumulator (`_PartialNLStats`).
A sequence is a row of ints or a row of strings. For each row the
accumulator records:

- the number of examples;
- the number of counted tokens and of in-vocabulary tokens;
- the total length of the in-vocabulary tokens;
- per-token statistics for the tracked tokens (`_TokenStats`): frequency,
  the number of sequences containing the token, the per-sequence minimum and
  maximum frequency, and a counter of position buckets;
- two bounded lists of reported sequences, one ranked by coverage and one by
  average token length. Each list is sorted stably by metric and cut to 5
  entries.

Accumulators are merged in place. `extract_output` turns an accumulator into
the feature's `NaturalLanguageStatistics`.

Modules, one per file:

| file | module | what it holds |
|---|---|---|
| `wrappers.dfy` | `Wrappers` | `Option` |
| `ratio.dfy` | `Ratios` | exact quotients (`Ratio`) that stand in for the source's float divisions |
| `reported_sequences.dfy` | `ReportedSequences` | `_sort_and_truncate_reported_sequence` as a stable merge sort with truncation; its stability, uniqueness and merge laws |
| `token_stats.dfy` | `TokenStatistics` | `_TokenStats` as a value, its `+=` merge, the per-row token update, the position bucket, and the token map with its key-wise merge |
| `partial_stats.dfy` | `PartialStats` | `NLStats`, the value of a `_PartialNLStats`; its merge and the merge laws; the class `PartialNLStats`, whose fields the methods update in place |
| `row_processor.dfy` | `RowProcessor` | the `_update_accumulator_*` helpers and `_compute_int/str_statistics`, as specification functions on values and as methods on the class |
| `histogram.dfy` | `PositionHistograms` | `_populate_token_position_histogram` |
| `extraction.dfy` | `Extraction` | `_populate_token_statistics`, `_populate_token_rank_histogram` and `extract_output` |
| `generator.dfy` | `Generator` | the class `NLStatsGenerator` (constructor, `create_accumulator`, `add_input`, `merge_accumulators`, `compact`, `extract_output`), the combiner laws and the end-to-end example |

How the source's constructs are represented:

- **Objects updated in place become a class.** Each mutating helper becomes a
  method on `PartialNLStats`. Each method is proved against a specification
  function on `NLStats`, and the properties are proved about those functions.
- **A `_TokenStats` is a value.** Its `positions` Counter only ever holds
  positive counts, so it is a `multiset<int>`.
- **The two approximate sketches** (quantiles and Misra-Gries) are foreign
  code. They are represented by the multisets of values fed to them.
- **An absent vocabulary (`None`) is the empty map.** The row processors
  behave identically on `None` and `{}`. `if vocab:` (line 280) becomes
  `|cfg.vocab| > 0`. `if rvocab:` (line 239) needs no test, because resolving
  through an empty map changes nothing.

The main results:

- Processing a row, a batch, or a batch that invalidates the accumulator
  equals merging in a fresh accumulator that processed only that input.
- Merging is associative and has the empty accumulator as identity. It
  commutes on every field that merges exactly.
- Row processing and merging preserve the accumulator invariant: in-vocabulary
  tokens are at most the counted tokens, frequency is at least the number of
  sequences, `min ≤ max`, the position counts equal the frequency, and both
  reported lists are sorted with at most 5 entries.
- The example batch `["a","b","a"]`, `["a","c"]` for tracked token `"a"`,
  with vocabulary `{a: 1, b: 2, c: 3}`, yields frequency 3, 2 sequences, minimum 1, maximum 2, fraction of
  sequences 1.0 and average frequency 3/2.

All source cells below are lines of
`tensorflow_data_validation/statistics/generators/natural_language_stats_generator.py`.

## Model

| member | source | states |
|---|---|---|
| ReportedSequences.SortByMetric | tensorflow_data_validation/statistics/generators/natural_language_stats_generator.py:85 | the result is sorted ascending by metric and is a permutation of the input |
| ReportedSequences.SortAndTruncate | tensorflow_data_validation/statistics/generators/natural_language_stats_generator.py:84-86 | the kept list is sorted; it has min(n, 5) entries; it is a sub-multiset of the input |
| ReportedSequences.SortKeepsTies | tensorflow_data_validation/statistics/generators/natural_language_stats_generator.py:85 | the sort is stable: for every metric value, the entries with that metric keep their input order |
| ReportedSequences.SortedUnique | tensorflow_data_validation/statistics/generators/natural_language_stats_generator.py:85 | two sorted lists with the same entries per metric, in the same order, are equal; so the stable sort has exactly one result |
| ReportedSequences.SortAppend | tensorflow_data_validation/statistics/generators/natural_language_stats_generator.py:85 | sorting a concatenation equals the stable merge of the two sorted parts |
| ReportedSequences.SortOfSorted | tensorflow_data_validation/statistics/generators/natural_language_stats_generator.py:85 | sorting an already-sorted list leaves it unchanged |
| ReportedSequences.MergeSortedFilter | tensorflow_data_validation/statistics/generators/natural_language_stats_generator.py:85 | merging two sorted lists keeps, for each metric, the left list's tied entries ahead of the right list's |
| ReportedSequences.SortAndTruncateKeepsSmallest | tensorflow_data_validation/statistics/generators/natural_language_stats_generator.py:84-86 | every kept entry has a metric no larger than any dropped entry |
| ReportedSequences.SortAndTruncateStable | tensorflow_data_validation/statistics/generators/natural_language_stats_generator.py:84-86 | for each metric, the kept entries are a prefix of the input's entries with that metric, so earlier entries win ties |
| ReportedSequences.SortAndTruncateIdentity | tensorflow_data_validation/statistics/generators/natural_language_stats_generator.py:84-86 | a stored list (sorted, at most 5 entries) is left unchanged, including when an empty list is appended on either side |
| ReportedSequences.TruncateLeftEarly | tensorflow_data_validation/statistics/generators/natural_language_stats_generator.py:160-166 | sorting and truncating the left part first does not change the result of sorting and truncating a concatenation |
| ReportedSequences.TruncateRightEarly | tensorflow_data_validation/statistics/generators/natural_language_stats_generator.py:160-166 | the same for the right part |
| ReportedSequences.ReportedMergeAssociates | tensorflow_data_validation/statistics/generators/natural_language_stats_generator.py:160-166 | merging reported lists is associative; both groupings equal sorting and truncating all three lists at once |
| ReportedSequences.ReportedMergeMetricsCommute | tensorflow_data_validation/statistics/generators/natural_language_stats_generator.py:160-166 | merging in either order gives the same list of metrics |
| ReportedSequences.SortedSameCounts | tensorflow_data_validation/statistics/generators/natural_language_stats_generator.py:85 | two sorted lists with the same number of entries per metric have the same metrics in order |
| TokenStatistics.CombineMin | tensorflow_data_validation/statistics/generators/natural_language_stats_generator.py:103-110 | the merged minimum is absent only when both sides are absent; it is one of the two sides; it is at most each present side, so an absent receiver adopts the other side's value |
| TokenStatistics.CombineMax | tensorflow_data_validation/statistics/generators/natural_language_stats_generator.py:103-110 | the same for the maximum, with at least each present side |
| TokenStatistics.MergeTokenStats | tensorflow_data_validation/statistics/generators/natural_language_stats_generator.py:99-112 | frequency and number of sequences add; the position counts add key-wise; the bounds combine as `CombineMin` and `CombineMax` state |
| TokenStatistics.MergeTokenStatsCommutes | tensorflow_data_validation/statistics/generators/natural_language_stats_generator.py:99-112 | the `_TokenStats` merge is commutative |
| TokenStatistics.MergeTokenStatsAssociates | tensorflow_data_validation/statistics/generators/natural_language_stats_generator.py:99-112 | the `_TokenStats` merge is associative |
| TokenStatistics.MergeTokenStatsIdentity | tensorflow_data_validation/statistics/generators/natural_language_stats_generator.py:92-112 | a fresh `_TokenStats()` is the identity of the merge on both sides |
| TokenStatistics.MergeTokenStatsValid | tensorflow_data_validation/statistics/generators/natural_language_stats_generator.py:99-112 | the merge keeps the invariant: `num_sequences ≤ frequency`, position count equals frequency, `min ≤ max`, and `min·num_sequences ≤ frequency ≤ max·num_sequences` |
| TokenStatistics.Bucket | tensorflow_data_validation/statistics/generators/natural_language_stats_generator.py:187-201 | the bucket of index i in a row of length n is `i·B/n` truncated toward zero; it lies in [0, B) for B > 0 |
| TokenStatistics.BucketHoldsPosition | tensorflow_data_validation/statistics/generators/natural_language_stats_generator.py:199-201 | with B > 0 buckets, the bucket k of index i in a row of n satisfies k/B ≤ i/n < (k+1)/B |
| TokenStatistics.BucketsOf | tensorflow_data_validation/statistics/generators/natural_language_stats_generator.py:187-201 | each occurrence of the token contributes one bucket, and each bucket is in range |
| TokenStatistics.RowTokenStats | tensorflow_data_validation/statistics/generators/natural_language_stats_generator.py:186-201 | one row's own statistics for a token: frequency is its occurrence count; sequences is 1 exactly when it occurs; both bounds equal the count; the invariant holds |
| TokenStatistics.UpdateTokenIsMerge | tensorflow_data_validation/statistics/generators/natural_language_stats_generator.py:186-201 | the per-row update of a token equals merging that row's own statistics into the old ones |
| TokenStatistics.UpdateTokenEffect | tensorflow_data_validation/statistics/generators/natural_language_stats_generator.py:186-198 | frequency grows by the occurrence count; sequences grows by 1 exactly when the token occurs; the minimum becomes 0 when the token is absent; `min ≤ max`; the invariant is kept |
| TokenStatistics.MergeTokenMaps | tensorflow_data_validation/statistics/generators/natural_language_stats_generator.py:154-158 | the keys are the union; a key on one side only passes through unchanged; shared keys merge |
| TokenStatistics.MergeTokenMapsCommutes | tensorflow_data_validation/statistics/generators/natural_language_stats_generator.py:154-158 | the token map merge is commutative |
| TokenStatistics.MergeTokenMapsAssociates | tensorflow_data_validation/statistics/generators/natural_language_stats_generator.py:154-158 | the token map merge is associative |
| TokenStatistics.MergeTokenMapsIdentity | tensorflow_data_validation/statistics/generators/natural_language_stats_generator.py:139-158 | the empty map is the identity on both sides |
| TokenStatistics.MergeTokenMapsValid | tensorflow_data_validation/statistics/generators/natural_language_stats_generator.py:154-158 | the merge keeps every entry's invariant |
| TokenStatistics.MergeTokenMapsSequences | tensorflow_data_validation/statistics/generators/natural_language_stats_generator.py:147-158 | if no token is in more sequences than each side's examples, none is in more than their sum |
| TokenStatistics.UpdateTokens | tensorflow_data_validation/statistics/generators/natural_language_stats_generator.py:186-201 | every tracked token gains an entry (defaultdict) updated with the row; other entries are unchanged |
| TokenStatistics.UpdateTokensIsMerge | tensorflow_data_validation/statistics/generators/natural_language_stats_generator.py:186-201 | the row update of the map equals merging in the map of the row's own statistics |
| TokenStatistics.UpdateTokensMergeRight | tensorflow_data_validation/statistics/generators/natural_language_stats_generator.py:154-201 | updating a merged map equals merging with the updated right map |
| TokenStatistics.UpdateTokensValid | tensorflow_data_validation/statistics/generators/natural_language_stats_generator.py:186-201 | the row update keeps every entry's invariant |
| TokenStatistics.UpdateTokensInRange | tensorflow_data_validation/statistics/generators/natural_language_stats_generator.py:199-201 | every recorded position stays a valid bucket |
| PartialStats.MergeCountersAssociates | tensorflow_data_validation/statistics/generators/natural_language_stats_generator.py:147-150 | adding the four counters is associative |
| PartialStats.MergeCountersCommutes | tensorflow_data_validation/statistics/generators/natural_language_stats_generator.py:147-150 | adding the four counters is commutative |
| PartialStats.MergeCountersIdentity | tensorflow_data_validation/statistics/generators/natural_language_stats_generator.py:120-150 | the zero counters of `_PartialNLStats()` are the identity |
| PartialStats.MergeSketchInputsAssociates | tensorflow_data_validation/statistics/generators/natural_language_stats_generator.py:151-152 | merging what the sketches were fed is associative |
| PartialStats.MergeSketchInputsCommutes | tensorflow_data_validation/statistics/generators/natural_language_stats_generator.py:151-152 | merging what the sketches were fed is commutative |
| PartialStats.MergeSketchInputsIdentity | tensorflow_data_validation/statistics/generators/natural_language_stats_generator.py:134-152 | fresh sketches are the identity |
| PartialStats.CountersMatchMerge | tensorflow_data_validation/statistics/generators/natural_language_stats_generator.py:147-152 | the merge keeps `num_in_vocab_tokens ≤ total_num_tokens`, and both sketches hold one value per in-vocabulary token |
| PartialStats.MergeStatsAssociates | tensorflow_data_validation/statistics/generators/natural_language_stats_generator.py:143-167 | the accumulator merge is associative on every field |
| PartialStats.MergeStatsCommutes | tensorflow_data_validation/statistics/generators/natural_language_stats_generator.py:143-167 | merging in either order gives the same flag, counters, sketch inputs, token map and reported metrics |
| PartialStats.MergeStatsIdentity | tensorflow_data_validation/statistics/generators/natural_language_stats_generator.py:120-167 | the fresh accumulator is the identity on both sides for any accumulator whose lists are stored lists |
| PartialStats.EmptyStatsValid | tensorflow_data_validation/statistics/generators/natural_language_stats_generator.py:120-141 | the fresh accumulator satisfies the accumulator invariant |
| PartialStats.MergeStatsValid | tensorflow_data_validation/statistics/generators/natural_language_stats_generator.py:143-167 | merging keeps the invariant: counters match, token stats are consistent, no token is in more sequences than examples, and the lists are sorted, at most 5 long, with metrics in range |
| PartialStats.MergeStatsInRange | tensorflow_data_validation/statistics/generators/natural_language_stats_generator.py:154-158 | merging keeps every position a valid bucket |
| PartialStats.MergeTokenMapInto | tensorflow_data_validation/statistics/generators/natural_language_stats_generator.py:154-158 | the loop over the other map's tokens returns the key-wise union merge |
| PartialStats.PartialNLStats.constructor | tensorflow_data_validation/statistics/generators/natural_language_stats_generator.py:120-141 | a new accumulator has the empty value |
| PartialStats.PartialNLStats.MergeFrom | tensorflow_data_validation/statistics/generators/natural_language_stats_generator.py:143-167 | `self += other`: the new value is the merge of the old values; the flags are or-ed, the counters add, the maps merge key-wise, the lists are re-sorted and truncated |
| RowProcessor.CountedTokensExact | tensorflow_data_validation/statistics/generators/natural_language_stats_generator.py:249-294 | exactly the entries that are not excluded are counted in `total_num_tokens` |
| RowProcessor.InVocabTokensExact | tensorflow_data_validation/statistics/generators/natural_language_stats_generator.py:254-293 | each string lands in the in-vocabulary list exactly as many times as entries are classified in-vocabulary with that string |
| RowProcessor.InVocabTokens | tensorflow_data_validation/statistics/generators/natural_language_stats_generator.py:249-294 | the in-vocabulary list is no longer than the number of counted entries |
| RowProcessor.ExcludedIntsNotCounted | tensorflow_data_validation/statistics/generators/natural_language_stats_generator.py:250-252 | a row of excluded ints counts no tokens and adds no in-vocabulary token |
| RowProcessor.ExcludedStringsNotCounted | tensorflow_data_validation/statistics/generators/natural_language_stats_generator.py:286-288 | a row of excluded strings counts no tokens and adds no in-vocabulary token |
| RowProcessor.Coverage | tensorflow_data_validation/statistics/generators/natural_language_stats_generator.py:209-214 | coverage is the share of covered entries, and lies in [0, 1] |
| RowProcessor.AvgTokenLength | tensorflow_data_validation/statistics/generators/natural_language_stats_generator.py:215-218 | the average is non-negative, and 0 when nothing is covered |
| RowProcessor.CoveredLengthsAppend | tensorflow_data_validation/statistics/generators/natural_language_stats_generator.py:209-212 | the covered lengths of a concatenation are the concatenated covered lengths |
| RowProcessor.IntsNotCovered | tensorflow_data_validation/statistics/generators/natural_language_stats_generator.py:209-218 | unresolved ints never count: an all-int row has coverage 0 and average length 0 |
| RowProcessor.FullCoverage | tensorflow_data_validation/statistics/generators/natural_language_stats_generator.py:209-214 | every entry is covered if and only if every entry is a non-OOV string |
| RowProcessor.CoverageExample | tensorflow_data_validation/statistics/generators/natural_language_stats_generator.py:209-218 | `["ab", 7, "xyz", "zz"]` with OOV `{"zz"}` has coverage 0.5 and average length 2.5 |
| RowProcessor.IntRowCounters | tensorflow_data_validation/statistics/generators/natural_language_stats_generator.py:228-264 | an int row adds 1 example, the counted entries, the in-vocabulary entries, and the sum of their lengths |
| RowProcessor.StrRowCounters | tensorflow_data_validation/statistics/generators/natural_language_stats_generator.py:267-297 | the same for a string row |
| RowProcessor.EmptyIntRow | tensorflow_data_validation/statistics/generators/natural_language_stats_generator.py:235-264 | an empty int row only counts one example |
| RowProcessor.EmptyStrRow | tensorflow_data_validation/statistics/generators/natural_language_stats_generator.py:274-297 | an empty string row only counts one example |
| RowProcessor.IntRowUpdateMerge | tensorflow_data_validation/statistics/generators/natural_language_stats_generator.py:228-264 | processing an int row into a merge equals merging with the processed right side |
| RowProcessor.StrRowUpdateMerge | tensorflow_data_validation/statistics/generators/natural_language_stats_generator.py:267-297 | the same for a string row |
| RowProcessor.IntRowUpdateIsMerge | tensorflow_data_validation/statistics/generators/natural_language_stats_generator.py:228-264 | processing an int row equals merging in a fresh accumulator that processed only that row |
| RowProcessor.StrRowUpdateIsMerge | tensorflow_data_validation/statistics/generators/natural_language_stats_generator.py:267-297 | the same for a string row |
| RowProcessor.AddReportedValid | tensorflow_data_validation/statistics/generators/natural_language_stats_generator.py:220-225 | after an insert both lists are sorted, at most 5 long, with coverages in [0, 1] and lengths ≥ 0 |
| RowProcessor.IntRowUpdateValid | tensorflow_data_validation/statistics/generators/natural_language_stats_generator.py:228-264 | processing an int row keeps the accumulator invariant |
| RowProcessor.StrRowUpdateValid | tensorflow_data_validation/statistics/generators/natural_language_stats_generator.py:267-297 | processing a string row keeps the accumulator invariant |
| RowProcessor.IntRowUpdateInRange | tensorflow_data_validation/statistics/generators/natural_language_stats_generator.py:237-245 | every recorded position stays a valid bucket |
| RowProcessor.StrRowUpdateInRange | tensorflow_data_validation/statistics/generators/natural_language_stats_generator.py:277-284 | every recorded position stays a valid bucket |
| RowProcessor.UpdateWithInVocabStringTokens | tensorflow_data_validation/statistics/generators/natural_language_stats_generator.py:170-177 | adds the number of tokens and their total length to the counters, and feeds the tokens and lengths to the sketches |
| RowProcessor.CountOccurrences | tensorflow_data_validation/statistics/generators/natural_language_stats_generator.py:187-201 | the loop returns the occurrence count of the token and the bucket of each occurrence |
| RowProcessor.UpdatedTokenStats | tensorflow_data_validation/statistics/generators/natural_language_stats_generator.py:187-201 | returns the token's statistics after the row, as `UpdateToken` specifies |
| RowProcessor.UpdateWithTokenStatistics | tensorflow_data_validation/statistics/generators/natural_language_stats_generator.py:180-201 | the loop over the tracked tokens leaves the token map as `UpdateTokens` specifies and changes nothing else |
| RowProcessor.UpdateReportedSequences | tensorflow_data_validation/statistics/generators/natural_language_stats_generator.py:204-225 | each list gains the row with its metric, then is sorted and truncated; nothing else changes |
| RowProcessor.FilterIntRow | tensorflow_data_validation/statistics/generators/natural_language_stats_generator.py:249-261 | the loop returns the in-vocabulary strings of the int row and adds the non-excluded entries to `total_num_tokens` |
| RowProcessor.FilterStrRow | tensorflow_data_validation/statistics/generators/natural_language_stats_generator.py:285-294 | the same for a string row |
| RowProcessor.UpdateWithIntRow | tensorflow_data_validation/statistics/generators/natural_language_stats_generator.py:236-247 | two token passes (raw ints against tracked ints, resolved row against tracked strings), then the reported sequences |
| RowProcessor.UpdateWithStrRow | tensorflow_data_validation/statistics/generators/natural_language_stats_generator.py:276-284 | a token pass and the reported sequences; a second pass over the vocabulary ids only when the vocabulary is non-empty |
| RowProcessor.ComputeIntStatistics | tensorflow_data_validation/statistics/generators/natural_language_stats_generator.py:228-264 | `_compute_int_statistics` changes the accumulator as `IntRowUpdate` specifies |
| RowProcessor.ComputeStrStatistics | tensorflow_data_validation/statistics/generators/natural_language_stats_generator.py:267-297 | `_compute_str_statistics` changes the accumulator as `StrRowUpdate` specifies |
| PositionHistograms.SortedKeys | tensorflow_data_validation/statistics/generators/natural_language_stats_generator.py:329-330 | the bucket indexes, each once, strictly ascending |
| PositionHistograms.BucketsFor | tensorflow_data_validation/statistics/generators/natural_language_stats_generator.py:331-335 | bucket k covers [k/B, (k+1)/B) and carries the counter's count for k |
| PositionHistograms.PositionSamplesTotal | tensorflow_data_validation/statistics/generators/natural_language_stats_generator.py:329-335 | the sample counts of the histogram add up to the number of recorded positions |
| PositionHistograms.PositionBucketsFromCounter | tensorflow_data_validation/statistics/generators/natural_language_stats_generator.py:329-335 | every bucket comes from a counter key and carries that key's count |
| PositionHistograms.PositionCounterCovered | tensorflow_data_validation/statistics/generators/natural_language_stats_generator.py:329-335 | every counter key has a bucket |
| PositionHistograms.PositionBucketsAscending | tensorflow_data_validation/statistics/generators/natural_language_stats_generator.py:329-331 | the buckets come in strictly ascending key order |
| PositionHistograms.PositionBucketsInUnit | tensorflow_data_validation/statistics/generators/natural_language_stats_generator.py:332-333 | with in-range keys, every bucket has `0 ≤ low < high ≤ 1` |
| Extraction.TokenOutputFacts | tensorflow_data_validation/statistics/generators/natural_language_stats_generator.py:338-359 | figures are emitted exactly for a token seen in some sequence; then fraction = sequences/examples in (0, 1], avg = frequency/sequences between min and max, and the position counts add up to the frequency |
| Extraction.SliceTo | tensorflow_data_validation/statistics/generators/natural_language_stats_generator.py:320 | Python's `s[:n]`: a prefix of the stated length, where a negative n counts from the end |
| Extraction.RankHistogram | tensorflow_data_validation/statistics/generators/natural_language_stats_generator.py:315-322 | at most n buckets; the i-th is `[i, i]` with the i-th estimate's label and count |
| Extraction.ReportedTexts | tensorflow_data_validation/statistics/generators/natural_language_stats_generator.py:572-575 | one reported text per stored entry, in order |
| Extraction.ExtractOutput | tensorflow_data_validation/statistics/generators/natural_language_stats_generator.py:526-582 | the result is empty exactly for an invalidated accumulator, and a division by zero exactly when some emitted token divides by zero |
| Extraction.ExtractValid | tensorflow_data_validation/statistics/generators/natural_language_stats_generator.py:537-575 | a valid accumulator never divides by zero; coverage is emitted iff `total_num_tokens > 0` and lies in [0, 1]; avg length is emitted iff `num_in_vocab_tokens > 0`; every token has a message; at most 10 reported sequences, coverage list first |
| Extraction.ExtractTokenFigures | tensorflow_data_validation/statistics/generators/natural_language_stats_generator.py:566-570 | each token's message is the one `_populate_token_statistics` builds |
| Extraction.NoBucketsDividesByZero | tensorflow_data_validation/statistics/generators/natural_language_stats_generator.py:332-359 | with 0 histogram buckets, a token with a recorded position makes extraction raise `ZeroDivisionError` |
| Generator.ValidFeaturePaths | tensorflow_data_validation/statistics/generators/natural_language_stats_generator.py:423-437 | a path is valid exactly when it has a natural-language domain that names a vocabulary or sets a coverage constraint |
| Generator.ConfigOf | tensorflow_data_validation/statistics/generators/natural_language_stats_generator.py:486-497 | without a vocabulary name, vocab and rvocab are absent; otherwise the domain's configuration is used |
| Generator.AddIntRowsIsMerge | tensorflow_data_validation/statistics/generators/natural_language_stats_generator.py:500-504 | folding int rows equals merging in a fresh accumulator that folded them |
| Generator.AddStrRowsIsMerge | tensorflow_data_validation/statistics/generators/natural_language_stats_generator.py:500-504 | the same for string rows |
| Generator.AddBatchIsMerge | tensorflow_data_validation/statistics/generators/natural_language_stats_generator.py:456-505 | `add_input` on any accumulator equals merging in `add_input` on a fresh one |
| Generator.InvalidateIsMerge | tensorflow_data_validation/statistics/generators/natural_language_stats_generator.py:470-482 | setting the flag equals merging in an empty, invalidated accumulator |
| Generator.AddIntRowsValid | tensorflow_data_validation/statistics/generators/natural_language_stats_generator.py:500-504 | folding int rows keeps the accumulator invariant |
| Generator.AddStrRowsValid | tensorflow_data_validation/statistics/generators/natural_language_stats_generator.py:500-504 | folding string rows keeps the accumulator invariant |
| Generator.RowKeepsFlag | tensorflow_data_validation/statistics/generators/natural_language_stats_generator.py:228-297 | processing a row never changes the invalidate flag |
| Generator.AddIntRowsCounts | tensorflow_data_validation/statistics/generators/natural_language_stats_generator.py:500-504 | the example count grows by the number of non-null rows |
| Generator.AddStrRowsCounts | tensorflow_data_validation/statistics/generators/natural_language_stats_generator.py:500-504 | the example count grows by the number of non-null rows |
| Generator.AddBatchValid | tensorflow_data_validation/statistics/generators/natural_language_stats_generator.py:456-505 | `add_input` keeps the invariant; it sets the flag exactly for an unknown path or an unsupported type; otherwise it adds the non-null rows to the example count |
| Generator.MergeAllWellFormed | tensorflow_data_validation/statistics/generators/natural_language_stats_generator.py:517-520 | a merged accumulator's lists are sorted and at most 5 long |
| Generator.MergeAllAppend | tensorflow_data_validation/statistics/generators/natural_language_stats_generator.py:517-520 | merging a concatenation equals merging the two merges |
| Generator.MergeAllSingle | tensorflow_data_validation/statistics/generators/natural_language_stats_generator.py:517-520 | merging one accumulator gives it back |
| Generator.MergeAllPair | tensorflow_data_validation/statistics/generators/natural_language_stats_generator.py:517-520 | merging two accumulators equals `a += b` |
| Generator.MergeAllValid | tensorflow_data_validation/statistics/generators/natural_language_stats_generator.py:517-520 | merging valid accumulators gives a valid one |
| Generator.TwoBatches | tensorflow_data_validation/statistics/generators/natural_language_stats_generator.py:456-520 | two batches added in turn equal the merge of the two batches each added to a fresh accumulator |
| Generator.NLStatsGenerator.constructor | tensorflow_data_validation/statistics/generators/natural_language_stats_generator.py:382-417 | stores the domains and bucket counts; requires the rank bucket count to be at most 16384, which the constructor asserts |
| Generator.NLStatsGenerator.CreateAccumulator | tensorflow_data_validation/statistics/generators/natural_language_stats_generator.py:448-454 | returns a new empty accumulator |
| Generator.NLStatsGenerator.AddInput | tensorflow_data_validation/statistics/generators/natural_language_stats_generator.py:456-505 | folds the batch into the given accumulator in place, as `AddBatch` specifies, and returns that accumulator |
| Generator.NLStatsGenerator.MergeAccumulators | tensorflow_data_validation/statistics/generators/natural_language_stats_generator.py:507-520 | returns a new accumulator holding the in-order merge of the given ones; an empty list gives the empty accumulator |
| Generator.MergeInto | tensorflow_data_validation/statistics/generators/natural_language_stats_generator.py:517-520 | the loop `result += accumulator` leaves `result` holding the merge of all values |
| Generator.NLStatsGenerator.Compact | tensorflow_data_validation/statistics/generators/natural_language_stats_generator.py:522-524 | returns the same accumulator, whose value is unchanged |
| Generator.NLStatsGenerator.ExtractOutput | tensorflow_data_validation/statistics/generators/natural_language_stats_generator.py:526-582 | returns what `Extraction.ExtractOutput` specifies for the accumulator's value |
| Generator.StringBatch | tensorflow_data_validation/statistics/generators/natural_language_stats_generator.py:470-504 | a string batch on a valid path is its rows processed in turn |
| Generator.TrackedStringRow | tensorflow_data_validation/statistics/generators/natural_language_stats_generator.py:267-284 | a non-empty string row updates a tracked string's statistics with the row and adds one example, with or without a vocabulary |
| Generator.TwoRowsTracked | tensorflow_data_validation/statistics/generators/natural_language_stats_generator.py:267-284 | two such rows add two examples and apply the two updates in turn |
| Generator.ExampleTracked | tensorflow_data_validation/statistics/generators/natural_language_stats_generator.py:433-442 | the example domain (vocabulary `{a: 1, b: 2, c: 3}`, tracked string `"a"`) makes its path valid and tracks `"a"` |
| Generator.ExampleAccumulator | tensorflow_data_validation/statistics/generators/natural_language_stats_generator.py:456-505 | on any valid path tracking `"a"`, whatever its vocabulary, the batch `["a","b","a"]`, `["a","c"]` gives 2 examples, and `"a"`'s statistics are the two row updates |
| Generator.ExampleCounts | tensorflow_data_validation/statistics/generators/natural_language_stats_generator.py:187-188 | `"a"` occurs twice in the first row and once in the second |
| Generator.TwiceThenOnce | tensorflow_data_validation/statistics/generators/natural_language_stats_generator.py:186-198 | counts 2 then 1 give frequency 3, 2 sequences, minimum 1 and maximum 2 |
| Generator.ExampleTokenFigures | tensorflow_data_validation/statistics/generators/natural_language_stats_generator.py:350-357 | the example token's output: frequency 3, 2 sequences, min 1, max 2, fraction 2/2 = 1.0, average frequency 3/2 |

## Left out

- Floating point: coverage, averages, fractions and histogram bounds are exact `Ratio`s. Python's `int(float(i) / n * B)` can differ from the exact `i·B/n` truncated only at rounding edges.
- The quantiles and Misra-Gries sketches are foreign code. They are represented by the multisets of values fed to them. `Compact` therefore changes nothing. The Misra-Gries `Estimate()` is a parameter of extraction.
- The token length histogram (`_populate_token_length_histogram`, lines 300-312) depends on the quantiles sketch and `quantiles_util`, and is not part of this model. So is the number of quantile buckets, apart from being stored.
- `_QUANTILES_SKETCH_NUM_ELEMENTS = 2 ^ 32` (line 79) is the XOR 34 rather than a power of two. It only configures the foreign sketch, so it is not modelled.
- Protocol buffer output: the `custom_stats` entries and their names, `str(r[0])` with the `'\n'.join` of the reported sequences, and `Any.Pack`. The model returns the statistics as a datatype.
- Token messages are emitted in dictionary order in the source. The model keeps them in a map keyed by token.
- `setup` (lines 419-446): walking the schema and loading vocabulary files. The constructor takes the domains with their loaded vocabularies. A vocabulary name missing from the loaded vocabularies, which raises `KeyError` in `add_input`, is not modelled.
- Arrow arrays and `get_feature_type_from_arrow_type`. A batch is a `FeatureArray` whose element type is already decided.
- `six.ensure_text` (line 275). Strings are already text.
- Object aliasing at line 156. The source shares a one-sided `_TokenStats` between two accumulators, so a later merge also mutates the other accumulator. The model gives token statistics value semantics.
- The in-place `list.sort` of line 85 is modelled on values by `SortAndTruncate`. The stable sort is written as a merge sort, and `SortedUnique` shows that any stable sort gives the same list.
- PartialStats.MergeStatsCommutes: states equality of every field except the two reported lists, whose metrics are equal. Among equal metrics, the lists may keep different entries depending on the merge order, as in the source.
- Beam distribution and parallel execution of the combiner.
