# Sampling loops of transformers-neuronx, in Dafny

This project models the token-generation code of `transformers_neuronx/sampling.py` and proves properties of the model. It covers:

- the parameter validator `validate_top_k_top_p_min_tokens_to_keep` and the temperature check;
- the filtering engine `top_k_top_p_filtering`: pass-through, top-k, nucleus (top-p), and top-k followed by top-p;
- the four decode loops `sample_tokens`, `sample_greedy`, `sample_loop` and `sample_loop_llama`;
- the two wrappers `simple_sample` and `sample_llama`, each of which makes the prefill call and then runs a loop.

Scores are extended reals (`Score = NegInf | Fin(x)`). A batch is a sequence of rows of one width V. Python arguments whose type the validator inspects are `Arg = Absent | IntArg | FloatArg | OtherArg`; a `bool` arrives as an `IntArg`. A raised exception is a `Result` with an `Error`:

- `InvalidParameter(name)` for each `ValueError`;
- `TypeMismatch` for the `TypeError` of `None > input_size`;
- `EmptyBatch` for `max([])` or `indices[0]` on an empty batch;
- `NoCandidate` when `torch.multinomial` finds a row with no positive probability.

The model is a `class Model<Out>`. Its `trace` field records every forward call: the tokens, the cache positions and the start ids. Its answer is a fixed function `respond` of the calls made so far, which stands for the key/value cache. Each loop is a method with a `while` loop. Its contract states:

- the exact history of calls it made;
- that every column it appended was chosen from the scores of its own step;
- what it returns;
- on failure, why the draw failed.

Facts about single steps are lemmas over those relations. Examples: no column of `sample_loop` holds EOS; every token of `sample_loop_llama` is EOS or a vocabulary id; EOS padding sticks.

The filtering functions in `Filtering` are the specification. The methods `TopKTopPFiltering`, `FilterByTopP` and `MaskTails` compute the same result. They mask the tails of `scores_to_keep` in place on a dense `array2`, as the source does.

The filter that `sample_loop_llama` applies at each step travels in the `filter` field of `LlamaDecoding.Settings`. `Sane` ties that field to `LlamaFilter`: `top_k_top_p_filtering` with `min_tokens_to_keep = 1`, applied to the tempered scores. This keeps the large filter definition out of the loop's proof obligations while leaving its meaning fixed.

Two behaviours of the code are worth stating up front:

- **The nucleus cut.** It keeps `clamp(count(cumprob <= top_p), min_tokens_to_keep, V)` entries and adds no entry past `top_p`. `FilteringProps.NucleusCut` proves that, when the floor does not bind, exactly the entries with cumulative probability at most `top_p` are kept.
- **The temperature check of `sample_llama`.** It runs only inside `sample_loop_llama`, after the prefill call, so a bad temperature fails with one model call already made (`LlamaDecoding.SampleLlama`).

## Model

| member | source | states |
|---|---|---|
| Validation.Validate | src/transformers_neuronx/sampling.py:104-112 | succeeds iff top_k is None or an int ≥ 1, top_p is None or a float in (0, 1], and min_tokens_to_keep is None or an int ≥ 0; otherwise it fails naming the first parameter that fails, in the order top_k, top_p, min_tokens_to_keep |
| Validation.ValidateTemperature | src/transformers_neuronx/sampling.py:175-176 | succeeds iff the temperature is a float > 0, returning it; an int is refused |
| Base.MaxOf | src/transformers_neuronx/sampling.py:139 | `max(n_to_keep)` is an element of the list and bounds every entry |
| Base.Cat | src/transformers_neuronx/sampling.py:49 | `torch.cat` along the last axis: each row keeps its prompt as a prefix and its token at offset k is column k's entry for that row |
| Sorting.SortDesc | src/transformers_neuronx/sampling.py:136 | the sort order is a permutation of the row's positions, and the scores along it never increase |
| Filtering.SafeSize | src/transformers_neuronx/sampling.py:120-121 | the clamped count never exceeds V, is at least min_tokens_to_keep when that is ≤ V, and equals the size itself when the size is already in range |
| Filtering.CountAtMost | src/transformers_neuronx/sampling.py:138 | the count of cumulative probabilities ≤ top_p is at most the row length (its prefix property is FilteringProps.CountIsPrefix) |
| Filtering.NoFilter | src/transformers_neuronx/sampling.py:123-124 | scores untouched, and every row of indices is `0 .. V-1` |
| Filtering.TopKOrder | src/transformers_neuronx/sampling.py:127 | k in-range positions of one row (their ordering and dominance are FilteringProps.TopKSelects) |
| Filtering.TopKRows | src/transformers_neuronx/sampling.py:126-127 | both returned matrices are `B x k` and every index is a vocabulary id |
| Filtering.PoolRows | src/transformers_neuronx/sampling.py:135 | `scores_to_filter` is `B x V`, or `B x k` when restricted to the pool |
| Filtering.Orders | src/transformers_neuronx/sampling.py:136 | each row's `sorted_indices` is a permutation of its positions in descending score order |
| Filtering.SortedRows | src/transformers_neuronx/sampling.py:136 | each row's `sorted_scores` is that row sorted (values are in FilteringProps.SortedRowFacts) |
| Filtering.NToKeep | src/transformers_neuronx/sampling.py:138 | one entry of `n_to_keep` is at most V, at least min_tokens_to_keep when that is ≤ V, and equals the count of cumulative probabilities ≤ top_p when that count is already in range |
| Filtering.KeepCounts | src/transformers_neuronx/sampling.py:138 | each `n_to_keep[i]` lies between min_tokens_to_keep and the width, and is `safe_size` of row i's count |
| Filtering.MaskRow | src/transformers_neuronx/sampling.py:147 | positions before n keep their score and the rest are minus infinity |
| Filtering.MaskedRows | src/transformers_neuronx/sampling.py:139-147 | `scores_to_keep` after masking is a dense `B x max(n_to_keep)` matrix |
| Filtering.KeptIndices | src/transformers_neuronx/sampling.py:139-151 | `indices_to_keep` is a dense `B x max(n_to_keep)` matrix |
| Filtering.TopPIndicesInVocab | src/transformers_neuronx/sampling.py:149-151 | every index returned by the nucleus cut, with or without the pool mapping, is a vocabulary id |
| Filtering.TopPFilter | src/transformers_neuronx/sampling.py:129-153 | fails with EmptyBatch iff the batch is empty (`max` of an empty list); otherwise values and indices are both `B x w` and every index is a vocabulary id |
| Filtering.Filter | src/transformers_neuronx/sampling.py:155-168 | fails iff the batch is empty, top_p is set and min_tokens_to_keep ≤ V; otherwise the result is well shaped with vocabulary ids |
| Filtering.TopKTopPFilter | src/transformers_neuronx/sampling.py:115-168 | a validation failure is returned as is; with valid parameters and an int floor the result is Filter's on the typed parameters, and it succeeds on a non-empty batch; with valid parameters and `min_tokens_to_keep=None` it is the unfiltered scores when neither top_k nor top_p is set and TypeMismatch otherwise (`None > input_size`); every success is well shaped |
| Filtering.MaskTails | src/transformers_neuronx/sampling.py:146-147 | after the in-place loop, entry (i, j) is minus infinity iff j ≥ n[i], and every other entry is unchanged |
| Filtering.MaskSorted | src/transformers_neuronx/sampling.py:139-147 | the dense matrix masked in place equals the specification MaskedRows |
| Filtering.FilterByTopP | src/transformers_neuronx/sampling.py:129-153 | the method computes exactly TopPFilter |
| Filtering.TopKTopPFiltering | src/transformers_neuronx/sampling.py:115-168 | the method computes exactly TopKTopPFilter |
| FilteringProps.PrefixDominates | src/transformers_neuronx/sampling.py:127 | a position inside the first k of the descending order scores at least as high as any position outside it |
| FilteringProps.TopKSelects | src/transformers_neuronx/sampling.py:126-127 | `torch.topk` on a row gives k distinct ids, best first, and no dropped id beats a kept one |
| FilteringProps.NothingToFilter | src/transformers_neuronx/sampling.py:155-157 | with neither parameter set, or a floor above V, the scores come back unchanged with identity indices |
| FilteringProps.TopKOnlyPath | src/transformers_neuronx/sampling.py:159-161 | each row keeps exactly `safe_size(top_k)` distinct vocabulary ids with their own scores, in descending order, and every kept score is ≥ every dropped one |
| FilteringProps.CountIsPrefix | src/transformers_neuronx/sampling.py:138 | on non-decreasing cumulative probabilities, the entries ≤ top_p are exactly the first CountAtMost ones |
| FilteringProps.CountMonotone | src/transformers_neuronx/sampling.py:138 | raising top_p never lowers the count |
| FilteringProps.KeepCountMonotone | src/transformers_neuronx/sampling.py:138 | raising top_p never lowers `n_to_keep` |
| FilteringProps.NucleusCut | src/transformers_neuronx/sampling.py:136-138 | when the floor does not bind, position j is kept iff its cumulative probability is ≤ top_p, so no extra entry is added |
| FilteringProps.SortedRowFacts | src/transformers_neuronx/sampling.py:136 | sorted scores are the row's scores at the sorted positions, in non-increasing order |
| FilteringProps.TopPRow | src/transformers_neuronx/sampling.py:136-147 | in one row, ids are distinct, the first n entries are their own scores and the rest minus infinity, values never increase, and no id outside the kept prefix beats a kept score |
| FilteringProps.TopPOnlyPath | src/transformers_neuronx/sampling.py:163-165 | the top-p-only branch succeeds; every row has width `max(n_to_keep)` and satisfies TopPRow with its own `n_to_keep[i]` |
| FilteringProps.TopPKeepsBest | src/transformers_neuronx/sampling.py:138-147 | with a floor ≥ 1, entry 0 of every row is kept and holds the row's maximum |
| FilteringProps.CombinedPath | src/transformers_neuronx/sampling.py:167-168 | the combined branch succeeds with width ≤ `safe_size(top_k)`; every id of row i is among row i's top-k ids; in row 0 every unmasked score is the score of its id |
| Sampler.ScaleRow | src/transformers_neuronx/sampling.py:187 | each score of the row divided by the temperature, minus infinity kept |
| Sampler.Scale | src/transformers_neuronx/sampling.py:186-187 | `next_token_scores /= temperature`, row by row |
| Sampler.ScalePreservesOrder | src/transformers_neuronx/sampling.py:187 | dividing by a positive temperature preserves and reflects the order between two scores, and finiteness |
| Sampler.ScaleByOne | src/transformers_neuronx/sampling.py:186-187 | dividing by 1.0 changes nothing |
| Sampler.ScaleKeepsSort | src/transformers_neuronx/sampling.py:186-189 | a positive temperature leaves the model's stable descending order of a row, hence its top-k ids, unchanged (ties: see Left out) |
| Sampler.ScaleKeepsRanking | src/transformers_neuronx/sampling.py:186-189 | for any list of positions, whatever the tie order: it is descending in the tempered row iff it is descending in the row, and no dropped position beats a kept one in the tempered row iff none does in the row |
| Sampler.Multinomial | src/transformers_neuronx/sampling.py:90-91 | succeeds iff every row has a finite score; it then picks, in each row, a position whose score is finite |
| Sampler.Gather | src/transformers_neuronx/sampling.py:92 | row i's id at its drawn position |
| Sampler.Argmax | src/transformers_neuronx/sampling.py:66 | a position whose score is ≥ every score of the row, with no earlier position reaching it |
| Sampler.ArgmaxRows | src/transformers_neuronx/sampling.py:66 | the argmax of every row |
| Decoding.Model.Forward | src/transformers_neuronx/sampling.py:23 | a forward call appends itself to the trace, and its output is the model's answer to the new trace |
| Decoding.Prefill | src/transformers_neuronx/sampling.py:21-23 | the prefill call passes the whole prompt and the start ids, at cache positions `0 .. start-1`, one per prompt token |
| Decoding.History | src/transformers_neuronx/sampling.py:98-100 | the prior calls plus exactly one call per fed-back column (their contents are HistoryAt) |
| Decoding.HistoryAt | src/transformers_neuronx/sampling.py:46-47 | the history keeps the prior calls, and call k feeds column k as a `B x 1` tensor at cache position start + k |
| Decoding.LastColumn | src/transformers_neuronx/sampling.py:42 | `next_tokens[..., -1:]`: row i's last token |
| Decoding.GreedyPicksAt | src/transformers_neuronx/sampling.py:63-71 | column k of `sample_greedy` is the row-wise argmax of the scores answered after the first k columns were fed back |
| Decoding.TokenPicksAt | src/transformers_neuronx/sampling.py:40-47 | column k of `sample_tokens` is the last column of the model's output after the first k columns were fed back |
| Decoding.SampleGreedy | src/transformers_neuronx/sampling.py:52-73 | appends exactly `max(0, sequence_length - start)` columns; returns the prompt with them appended; the calls are the prefill plus one per column, including after the last; every column is the argmax of its step's scores |
| Decoding.SampleTokens | src/transformers_neuronx/sampling.py:28-49 | same as SampleGreedy, with each column being the last column the model emitted |
| Decoding.MaskColumn | src/transformers_neuronx/sampling.py:84 | column eos of every row is minus infinity and every other entry is unchanged |
| Decoding.Draw | src/transformers_neuronx/sampling.py:90-92 | fails with NoCandidate iff some row has no finite kept score; otherwise each row's token is an id beside a finite kept score of that row |
| Decoding.TopKValuesMatch | src/transformers_neuronx/sampling.py:87 | the values `torch.topk` returns are the scores of the ids beside them |
| Decoding.LegacyDrawAvoidsEos | src/transformers_neuronx/sampling.py:83-92 | a token drawn after masking the EOS column and taking the top k is a vocabulary id other than EOS |
| Decoding.LegacyStep | src/transformers_neuronx/sampling.py:83-92 | fails iff some row keeps no finite score after the mask and top-k; otherwise the draw comes from that top-k |
| Decoding.LegacyDrawAt | src/transformers_neuronx/sampling.py:80-100 | column k of a run was drawn from the scores after the first k columns were fed back |
| Decoding.LegacyNeverEos | src/transformers_neuronx/sampling.py:83-84 | no token `sample_loop` appends is EOS, and all of them are vocabulary ids |
| Decoding.LegacyAdvance | src/transformers_neuronx/sampling.py:80-100 | one pass: on failure the trace is unchanged and the step was not drawable; otherwise the run extends by the draw, and the model is called at `cur_len` iff this was not the last position |
| Decoding.SampleLoop | src/transformers_neuronx/sampling.py:76-101 | the columns are a legal run of at most `sequence_length - start` draws; the model saw all but the last of a successful run; success returns the prompt plus exactly `sequence_length - start` columns (the prompt alone when `start ≥ sequence_length`); a failure is NoCandidate at a step that runs (`start + |cols| < sequence_length`) and whose scores are undrawable |
| Decoding.SimpleSample | src/transformers_neuronx/sampling.py:18-25 | the prefill call at positions `0 .. start-1`, then SampleLoop's outcome on the scores it returned, failure only at a step that runs |
| LlamaDecoding.DoneFlags | src/transformers_neuronx/sampling.py:179-197 | row i is done iff it has drawn EOS at some step so far |
| LlamaDecoding.DoneFlagsMonotone | src/transformers_neuronx/sampling.py:197 | a done flag, once set, stays set |
| LlamaDecoding.AllDoneIffEveryRowHitEos | src/transformers_neuronx/sampling.py:204 | `torch.all(done_flags == True)` holds exactly when every row has drawn the EOS id at some step so far |
| LlamaDecoding.PadColumn | src/transformers_neuronx/sampling.py:202 | EOS in finished rows and the draw elsewhere |
| LlamaDecoding.PadColumns | src/transformers_neuronx/sampling.py:197-202 | one padded column per draw, each with one token per row |
| LlamaDecoding.PadColumnsAt | src/transformers_neuronx/sampling.py:197-202 | token k of row i is EOS iff row i drew EOS at one of steps 0..k, and otherwise it is step k's draw |
| LlamaDecoding.EosSticks | src/transformers_neuronx/sampling.py:198-202 | once a row draws EOS, every later token of that row is EOS |
| LlamaDecoding.BeforeEosKeepsDraw | src/transformers_neuronx/sampling.py:202 | before a row's first EOS, its token is the step's draw |
| LlamaDecoding.RunningAt | src/transformers_neuronx/sampling.py:204-205 | in a run that did not stop early, some row was still not done after every step |
| LlamaDecoding.Tempered | src/transformers_neuronx/sampling.py:186-187 | the tempered scores keep the matrix shape |
| LlamaDecoding.TemperedIsScale | src/transformers_neuronx/sampling.py:186-187 | skipping the division at 1.0 is the same as dividing: the filter always sees scores / t |
| LlamaDecoding.LlamaFilter | src/transformers_neuronx/sampling.py:186-189 | the step filter returns the validator's error for bad top_k/top_p, always succeeds on a non-empty batch with valid ones, and every result is well shaped with vocabulary ids |
| LlamaDecoding.LlamaSettings | src/transformers_neuronx/sampling.py:173-189 | validated settings are Sane: the step filter is `top_k_top_p_filtering(scores / t, top_k, top_p)` with floor 1 |
| LlamaDecoding.LlamaDrawInVocab | src/transformers_neuronx/sampling.py:189-194 | a step draws one vocabulary id per row |
| LlamaDecoding.LlamaStep | src/transformers_neuronx/sampling.py:186-194 | the filter cannot fail after validation; the step fails with NoCandidate iff some filtered row has no finite score, and otherwise draws from the filter's result |
| LlamaDecoding.LlamaDrawAt | src/transformers_neuronx/sampling.py:183-209 | draw k of a run was made from the scores after the first k draws were fed back |
| LlamaDecoding.LlamaTokensInVocab | src/transformers_neuronx/sampling.py:189-202 | every token `sample_loop_llama` appends is EOS or a vocabulary id |
| LlamaDecoding.LlamaAdvance | src/transformers_neuronx/sampling.py:184-209 | one pass updates the flags and the padded columns from the draws; stops iff at the last position or all rows are done; when not stopping, calls the model with the raw draw at `cur_len` |
| LlamaDecoding.LlamaTurn | src/transformers_neuronx/sampling.py:184-209 | one pass either ends the loop with its outcome or yields the next loop state, one draw further |
| LlamaDecoding.LlamaOutcomeNoSteps | src/transformers_neuronx/sampling.py:183 | when the prompt already reaches `sequence_length` the loop outcome is the prompt itself, with no draw and no model call |
| LlamaDecoding.LlamaLoop | src/transformers_neuronx/sampling.py:178-210 | the draws are a legal run; the model saw all but the last draw of a successful run; success returns the prompt plus padded columns and stopped at `sequence_length` or at the first all-done step; a failure is NoCandidate at a step that runs, before which some row was still not done, and whose filtered scores are undrawable |
| LlamaDecoding.SampleLoopLlama | src/transformers_neuronx/sampling.py:171-210 | invalid top_k/top_p or temperature fails without any model call; otherwise LlamaLoop's outcome under the validated settings |
| LlamaDecoding.SampleLlama | src/transformers_neuronx/sampling.py:213-223 | invalid top_k/top_p fails before the prefill; a bad temperature fails after exactly the prefill call; otherwise the loop outcome on the prefill scores |
| PerRowTopKTopP.TopPFilterPerRow | src/transformers_neuronx/sampling.py:135-151 | the corrected combined path succeeds with dense `B x w` values and indices (its correctness is PerRowScoresMatchIds) |
| PerRowTopKTopP.PerRowScoresMatchIds | src/transformers_neuronx/sampling.py:135-151 | in the corrected combined path, every unmasked score is the input score of the id beside it, and every id is from the row's own top-k pool |
| PerRowTopKTopP.PerRowAgreesOnOneRow | src/transformers_neuronx/sampling.py:135-151 | for a batch of one row, the corrected path equals the path as written |
| PerRowTopKTopP.CombinedHead | src/transformers_neuronx/sampling.py:135-151 | with a floor ≥ 1, entry 0 of row i holds row i's best pooled score beside row i's pool id at row 0's best pooled position |
| PerRowTopKTopP.CombinedMismatchExample | src/transformers_neuronx/sampling.py:135-151 | on two rows holding a > b > c in opposite orders with top_k = 2, row 1 returns score b beside id 2, whose score is a |

## Left out

- Softmax and cumsum (lines 90, 137, 192) are floating-point numerics. The cumulative probabilities of a sorted row are a parameter `cum` of which only the length is assumed. The nucleus-cut lemmas assume they do not decrease where they need it.
- `torch.multinomial` is random. A draw is modelled as any choice of a position with positive probability; probabilities themselves are not modelled.
- The model's internals, devices, dtypes, `torch.no_grad` and `int32` cache ids are not modelled. The model is a pure function of its call history.
- Floating-point rounding of `scores / temperature` is not modelled. A float parameter is a real: a `nan` fails every range test, as it does in the source.
- Validation.ValidateTemperature: a temperature of `float('inf')` is accepted by the source (`inf > 0` at line 175) and is not representable as a real, so a run with an infinite temperature is not modelled.
- Sorting: ties are broken stably. `torch.sort` and `torch.topk` leave the tie order unspecified. No property proved here depends on it except Sampler.ScaleKeepsSort.
- Sampler.ScaleKeepsSort: the equality compares the model's own stable orders. For torch it holds on rows without tied scores; Sampler.ScaleKeepsRanking states what holds whatever the tie order.
- Default arguments are not modelled. Every argument is passed explicitly. The source's defaults are `eos_token_id=2`, `top_k=50`, `top_p=1.0`, `temperature=1.0`, `sequence_length=128`, `start_ids=None` and `min_tokens_to_keep=1` (lines 19, 28, 52, 76-77, 115, 171-172, 214). With the default `top_k=50` and a vocabulary of fewer than 50 ids, `torch.topk` raises, which is the exception path excluded below for Decoding.SampleLoop.
- Decoding.SampleLoop: `top_k` must lie in `0 .. V` and `eos_token_id` in `0 .. V-1`. `torch.topk` raises for a larger k and Python accepts a negative EOS index counted from the end; neither exception path nor the negative index is modelled.
- Decoding.SimpleSample: the same preconditions as SampleLoop on `top_k` and `eos_token_id`.
- Every loop requires a non-empty batch of equal-length prompt rows. The model must answer with `B x V` scores, or with `B` non-empty token rows.
- `next_token_scores` is modified in place (lines 84 and 187), which in the first step changes the caller's prefill tensor. The model computes new values and does not capture that aliasing.
- LlamaDecoding.LlamaLoop: the loop draws from `top_k_top_p_filtering` as written, combined-path mismatch included, because that is the function line 189 calls. The corrected per-row filter is proved separately in PerRowTopKTopP.
- Other tensor shapes than `B x V` scores and `B x S` prompts, and `start_ids` beyond being passed through to every call, are not modelled.

## Findings

| source | as written | input that shows it | evidently intended | confidence | as-written member | corrected member |
|---|---|---|---|---|---|---|
| src/transformers_neuronx/sampling.py:135-151 | top-k then top-p restricts every row to row 0's top-k ids (`indices[0]`), sorts each row on its own, then maps row i's kept positions back through row i's own pool at row 0's sorted positions (`indices_to_keep[0]`) | batch of two rows `[a, b, c]` and `[c, b, a]` with a > b > c, V = 3, top_k = 2, min_tokens_to_keep = 1, any top_p: row 1 returns score b beside vocabulary id 2, whose score is a | each row restricted to, sorted within and mapped back through its own top-k ids, so every kept score belongs to the id beside it | not executed | PerRowTopKTopP.CombinedMismatchExample | PerRowTopKTopP.PerRowScoresMatchIds |
