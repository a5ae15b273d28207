/**
 * The decode loops. Each one makes a prefill call over the prompt (or is
 * handed its result), then repeats: choose one token per row, append it as a
 * new column, and feed it back to the model at the next cache position.
 */
module Decoding {
  import opened Base
  import opened Validation
  import opened Sorting
  import opened Filtering
  import opened Sampler

  /** One forward call: the input tokens, the cache positions they occupy, and the start ids passed through. */
  datatype Call = Call(tokens: seq<seq<int>>, cacheIds: seq<int>, startIds: Option<seq<int>>)

  /**
   * The model as the loops see it. Every forward call is recorded in `trace`,
   * and its output is a fixed function of the calls made so far (the
   * key/value cache makes it depend on the whole history).
   */
  class Model<Out> {
    const respond: seq<Call> -> Out
    var trace: seq<Call>

    constructor(respond: seq<Call> -> Out)
      ensures this.respond == respond && trace == []
    {
      this.respond := respond;
      trace := [];
    }

    /** `model(tokens, cache_ids, start_ids)`. */
    method Forward(tokens: seq<seq<int>>, cacheIds: seq<int>, startIds: Option<seq<int>>) returns (out: Out)
      modifies this
      ensures trace == old(trace) + [Call(tokens, cacheIds, startIds)]
      ensures out == respond(trace)
    {
      trace := trace + [Call(tokens, cacheIds, startIds)];
      out := respond(trace);
    }
  }

  /** A prompt: at least one row, all of one width. */
  predicate IsPrompt(inputIds: seq<seq<int>>)
  {
    |inputIds| > 0 && IsMatrix(inputIds, |inputIds|, |inputIds[0]|)
  }

  /** The model returns `B x V` next-token scores on every call. */
  ghost predicate EmitsScores(model: Model<seq<seq<Score>>>, batch: nat, vocab: nat)
  {
    forall h :: IsMatrix(model.respond(h), batch, vocab)
  }

  /** The model returns `B` rows of tokens, none of them empty, on every call. */
  ghost predicate EmitsTokens(model: Model<seq<seq<int>>>, batch: nat)
  {
    forall h :: |model.respond(h)| == batch && forall i :: 0 <= i < batch ==> |model.respond(h)[i]| > 0
  }

  /** Every column holds one token per row. */
  predicate Columns(cols: seq<seq<int>>, batch: nat)
  {
    forall k :: 0 <= k < |cols| ==> |cols[k]| == batch
  }

  /** The prefill call: the whole prompt at cache positions `0 .. start-1`. */
  function Prefill(inputIds: seq<seq<int>>, startIds: Option<seq<int>>): (c: Call)
    requires |inputIds| > 0
    ensures c.tokens == inputIds && c.startIds == startIds
    ensures |c.cacheIds| == |inputIds[0]| && forall p :: 0 <= p < |c.cacheIds| ==> c.cacheIds[p] == p
  {
    Call(inputIds, Arange(|inputIds[0]|), startIds)
  }

  /**
   * The calls made once a loop has fed back `cols` after the calls `prior`:
   * column k goes in as a `B x 1` tensor at cache position `start + k`.
   */
  function History(prior: seq<Call>, cols: seq<seq<int>>, start: nat, startIds: Option<seq<int>>): (r: seq<Call>)
    ensures |r| == |prior| + |cols|
  {
    if cols == [] then prior
    else History(prior, cols[..|cols| - 1], start, startIds) + [Call(AsColumn(cols[|cols| - 1]), [start + |cols| - 1], startIds)]
  }

  /** A history keeps the calls before it, and its call k feeds column k back at cache position `start + k`. */
  lemma {:induction false} HistoryAt(prior: seq<Call>, cols: seq<seq<int>>, start: nat, startIds: Option<seq<int>>)
    ensures var h := History(prior, cols, start, startIds);
      && h[..|prior|] == prior
      && forall k :: 0 <= k < |cols| ==> h[|prior| + k] == Call(AsColumn(cols[k]), [start + k], startIds)
  {
    if cols != [] {
      var fed := cols[..|cols| - 1];
      HistoryAt(prior, fed, start, startIds);
      var h := History(prior, cols, start, startIds);
      assert h[..|prior|] == History(prior, fed, start, startIds)[..|prior|];
      assert forall k :: 0 <= k < |fed| ==> fed[k] == cols[k];
    }
  }

  /** Feeding one more column at the next cache position appends one call. */
  lemma HistorySnoc(prior: seq<Call>, cols: seq<seq<int>>, x: seq<int>, pos: int, start: nat, startIds: Option<seq<int>>)
    requires pos == start + |cols|
    ensures History(prior, cols + [x], start, startIds) == History(prior, cols, start, startIds) + [Call(AsColumn(x), [pos], startIds)]
  {
    assert (cols + [x])[..|cols|] == cols;
  }

  /**
   * The scores a loop handed `first` works on once it has fed back `fed`
   * after the calls `prior`: `first`, then the model's answer to the last call.
   */
  ghost function StepScores<T>(first: T, respond: seq<Call> -> T, prior: seq<Call>, fed: seq<seq<int>>, start: nat,
                               startIds: Option<seq<int>>): T
  {
    if fed == [] then first else respond(History(prior, fed, start, startIds))
  }

  /** The last column of a token output (`next_tokens[..., -1:]`). */
  function LastColumn(m: seq<seq<int>>): (r: seq<int>)
    requires forall i :: 0 <= i < |m| ==> |m[i]| > 0
    ensures |r| == |m|
    ensures forall i :: 0 <= i < |m| ==> r[i] == m[i][|m[i]| - 1]
  {
    seq(|m|, i requires 0 <= i < |m| => m[i][|m[i]| - 1])
  }

  /**
   * The columns `sample_greedy` appended after the calls `prompt`: each is
   * the argmax of every row of the scores the model returned for the calls
   * made before it.
   */
  ghost predicate GreedyPicks(cols: seq<seq<int>>, respond: seq<Call> -> seq<seq<Score>>, prompt: seq<Call>, start: nat,
                              startIds: Option<seq<int>>)
    decreases |cols|
  {
    cols != [] ==>
      var fed := cols[..|cols| - 1];
      && GreedyPicks(fed, respond, prompt, start, startIds)
      && (forall i :: 0 <= i < |respond(History(prompt, fed, start, startIds))| ==>
            |respond(History(prompt, fed, start, startIds))[i]| > 0)
      && cols[|cols| - 1] == ArgmaxRows(respond(History(prompt, fed, start, startIds)))
  }

  /** Column k of `sample_greedy` is the argmax of the scores after feeding back the first k columns. */
  lemma {:induction false} GreedyPicksAt(cols: seq<seq<int>>, respond: seq<Call> -> seq<seq<Score>>, prompt: seq<Call>,
                                         start: nat, startIds: Option<seq<int>>, k: nat)
    requires GreedyPicks(cols, respond, prompt, start, startIds) && k < |cols|
    ensures var scores := respond(History(prompt, cols[..k], start, startIds));
      |cols[k]| == |scores| && forall i :: 0 <= i < |scores| ==> |scores[i]| > 0 && cols[k][i] == Argmax(scores[i])
  {
    var fed := cols[..|cols| - 1];
    if k < |fed| {
      GreedyPicksAt(fed, respond, prompt, start, startIds, k);
      assert fed[k] == cols[k] && fed[..k] == cols[..k];
    }
  }

  /**
   * The columns `sample_tokens` appended after the calls `prompt`: each is
   * the last column of the tokens the model returned for the calls made
   * before it.
   */
  ghost predicate TokenPicks(cols: seq<seq<int>>, respond: seq<Call> -> seq<seq<int>>, prompt: seq<Call>, start: nat,
                             startIds: Option<seq<int>>)
    decreases |cols|
  {
    cols != [] ==>
      var fed := cols[..|cols| - 1];
      && TokenPicks(fed, respond, prompt, start, startIds)
      && (forall i :: 0 <= i < |respond(History(prompt, fed, start, startIds))| ==>
            |respond(History(prompt, fed, start, startIds))[i]| > 0)
      && cols[|cols| - 1] == LastColumn(respond(History(prompt, fed, start, startIds)))
  }

  /** Column k of `sample_tokens` is the last column the model emitted after the first k columns were fed back. */
  lemma {:induction false} TokenPicksAt(cols: seq<seq<int>>, respond: seq<Call> -> seq<seq<int>>, prompt: seq<Call>,
                                        start: nat, startIds: Option<seq<int>>, k: nat)
    requires TokenPicks(cols, respond, prompt, start, startIds) && k < |cols|
    ensures var out := respond(History(prompt, cols[..k], start, startIds));
      |cols[k]| == |out| && forall i :: 0 <= i < |out| ==> |out[i]| > 0 && cols[k][i] == out[i][|out[i]| - 1]
  {
    var fed := cols[..|cols| - 1];
    if k < |fed| {
      TokenPicksAt(fed, respond, prompt, start, startIds, k);
      assert fed[k] == cols[k] && fed[..k] == cols[..k];
    }
  }

  /**
   * `sample_greedy`: prefill, then for every `cur_len` in `start ..
   * sequence_length-1` append each row's argmax and call the model on it at
   * cache position `cur_len`, the last step included.
   */
  method SampleGreedy(model: Model<seq<seq<Score>>>, inputIds: seq<seq<int>>, startIds: Option<seq<int>>,
                      seqLen: int, ghost vocab: nat)
    returns (tokens: seq<seq<int>>, ghost cols: seq<seq<int>>)
    requires IsPrompt(inputIds) && vocab > 0 && EmitsScores(model, |inputIds|, vocab)
    modifies model
    ensures var start, prompt := |inputIds[0]|, old(model.trace) + [Prefill(inputIds, startIds)];
      && |cols| == Max(0, seqLen - start) && Columns(cols, |inputIds|)
      && tokens == Cat(inputIds, cols)
      && model.trace == History(prompt, cols, start, startIds)
      && GreedyPicks(cols, model.respond, prompt, start, startIds)
  {
    var start := |inputIds[0]|;
    var scores := model.Forward(inputIds, Arange(start), startIds);
    ghost var prompt := model.trace;
    var generated: seq<seq<int>> := [];
    var curLen := start;
    while curLen < seqLen
      invariant start <= curLen <= Max(start, seqLen) && |generated| == curLen - start
      invariant Columns(generated, |inputIds|)
      invariant model.trace == History(prompt, generated, start, startIds)
      invariant GreedyPicks(generated, model.respond, prompt, start, startIds)
      invariant scores == model.respond(model.trace)
    {
      var inputs := ArgmaxRows(scores);
      HistorySnoc(prompt, generated, inputs, curLen, start, startIds);
      assert (generated + [inputs])[..|generated|] == generated;
      generated := generated + [inputs];
      scores := model.Forward(AsColumn(inputs), [curLen], startIds);
      curLen := curLen + 1;
    }
    tokens, cols := Cat(inputIds, generated), generated;
  }

  /**
   * `sample_tokens`: like `sample_greedy`, for a model that selects its own
   * tokens; each step appends the last column the model emitted.
   */
  method SampleTokens(model: Model<seq<seq<int>>>, inputIds: seq<seq<int>>, startIds: Option<seq<int>>, seqLen: int)
    returns (tokens: seq<seq<int>>, ghost cols: seq<seq<int>>)
    requires IsPrompt(inputIds) && EmitsTokens(model, |inputIds|)
    modifies model
    ensures var start, prompt := |inputIds[0]|, old(model.trace) + [Prefill(inputIds, startIds)];
      && |cols| == Max(0, seqLen - start) && Columns(cols, |inputIds|)
      && tokens == Cat(inputIds, cols)
      && model.trace == History(prompt, cols, start, startIds)
      && TokenPicks(cols, model.respond, prompt, start, startIds)
  {
    var start := |inputIds[0]|;
    var nextTokens := model.Forward(inputIds, Arange(start), startIds);
    ghost var prompt := model.trace;
    var generated: seq<seq<int>> := [];
    var curLen := start;
    while curLen < seqLen
      invariant start <= curLen <= Max(start, seqLen) && |generated| == curLen - start
      invariant Columns(generated, |inputIds|)
      invariant model.trace == History(prompt, generated, start, startIds)
      invariant TokenPicks(generated, model.respond, prompt, start, startIds)
      invariant nextTokens == model.respond(model.trace)
    {
      var last := LastColumn(nextTokens);
      HistorySnoc(prompt, generated, last, curLen, start, startIds);
      assert (generated + [last])[..|generated|] == generated;
      generated := generated + [last];
      nextTokens := model.Forward(AsColumn(last), [curLen], startIds);
      curLen := curLen + 1;
    }
    tokens, cols := Cat(inputIds, generated), generated;
  }

  /** `next_token_scores[:, eos_token_id] = -inf`: column `c` of every row set to minus infinity. */
  function MaskColumn(scores: seq<seq<Score>>, c: nat): (r: seq<seq<Score>>)
    ensures |r| == |scores|
    ensures forall i :: 0 <= i < |scores| ==> |r[i]| == |scores[i]|
    ensures forall i, j :: 0 <= i < |scores| && 0 <= j < |scores[i]| ==>
      r[i][j] == if j == c then NegInf else scores[i][j]
  {
    seq(|scores|, i requires 0 <= i < |scores| =>
      seq(|scores[i]|, j requires 0 <= j < |scores[i]| => if j == c then NegInf else scores[i][j]))
  }

  /** `t` is an id of `ids` beside a finite score of `values`: a value a multinomial draw over that row can yield. */
  ghost predicate RowDrawn(t: int, values: seq<Score>, ids: seq<nat>)
  {
    exists p :: 0 <= p < |values| && p < |ids| && values[p].Fin? && t == ids[p]
  }

  /** Each row's token is drawn from that row of the filter's result. */
  ghost predicate DrawnFrom(draw: seq<int>, f: Filtered)
  {
    && |draw| == |f.indices| && |f.values| == |f.indices|
    && forall i :: 0 <= i < |draw| ==> RowDrawn(draw[i], f.values[i], f.indices[i])
  }

  /** `torch.multinomial` over the kept scores of each row, then `torch.gather` of the drawn positions' ids. */
  method Draw(f: Filtered) returns (r: Result<seq<int>>)
    requires |f.values| == |f.indices| && forall i :: 0 <= i < |f.values| ==> |f.values[i]| == |f.indices[i]|
    ensures r.Err? <==> exists i :: 0 <= i < |f.values| && !HasCandidate(f.values[i])
    ensures r.Err? ==> r.error == NoCandidate
    ensures r.Ok? ==> DrawnFrom(r.value, f)
  {
    var picks := Multinomial(f.values);
    if picks.Err? {
      return Err(NoCandidate);
    }
    var draw := Gather(f.indices, picks.value);
    forall i | 0 <= i < |draw| ensures RowDrawn(draw[i], f.values[i], f.indices[i]) {
      var p := picks.value[i];
      assert 0 <= p < |f.values[i]| && p < |f.indices[i]| && f.values[i][p].Fin? && draw[i] == f.indices[i][p];
    }
    return Ok(draw);
  }

  /** The scores `torch.topk` returns are the scores of the ids beside them. */
  lemma TopKValuesMatch(scores: seq<seq<Score>>, vocab: nat, k: nat)
    requires IsMatrix(scores, |scores|, vocab) && k <= vocab
    ensures var f := TopKRows(scores, vocab, k);
      forall i, p :: 0 <= i < |scores| && 0 <= p < k ==> f.values[i][p] == scores[i][f.indices[i][p]]
  {
  }

  /**
   * A step of `sample_loop` never draws the EOS id: its column is minus
   * infinity when `torch.topk` runs, so it has no probability.
   */
  lemma LegacyDrawAvoidsEos(scores: seq<seq<Score>>, vocab: nat, eos: nat, k: nat, draw: seq<int>)
    requires IsMatrix(scores, |scores|, vocab) && eos < vocab && k <= vocab
    requires DrawnFrom(draw, TopKRows(MaskColumn(scores, eos), vocab, k))
    ensures forall i :: 0 <= i < |draw| ==> 0 <= draw[i] < vocab && draw[i] != eos
  {
    var masked := MaskColumn(scores, eos);
    var f := TopKRows(masked, vocab, k);
    TopKValuesMatch(masked, vocab, k);
    forall i | 0 <= i < |draw| ensures 0 <= draw[i] < vocab && draw[i] != eos {
      var p :| 0 <= p < |f.values[i]| && p < |f.indices[i]| && f.values[i][p].Fin? && draw[i] == f.indices[i][p];
      assert f.values[i][p] == masked[i][f.indices[i][p]];
    }
  }

  /** A step of `sample_loop`: the draw comes from the top k of the scores with the EOS column masked. */
  ghost predicate LegacyDrawn(draw: seq<int>, scores: seq<seq<Score>>, vocab: nat, eos: nat, topK: nat)
  {
    IsMatrix(scores, |scores|, vocab) && topK <= vocab && DrawnFrom(draw, TopKRows(MaskColumn(scores, eos), vocab, topK))
  }

  /** Every row keeps a finite score once the EOS column is masked and the top k taken: the draw can succeed. */
  ghost predicate LegacyDrawable(scores: seq<seq<Score>>, vocab: nat, eos: nat, topK: nat)
    requires IsMatrix(scores, |scores|, vocab) && topK <= vocab
  {
    forall i :: 0 <= i < |scores| ==> HasCandidate(TopKRows(MaskColumn(scores, eos), vocab, topK).values[i])
  }

  /** One step of `sample_loop`: mask the EOS column, take the top k of each row, draw. */
  method LegacyStep(scores: seq<seq<Score>>, vocab: nat, eos: nat, topK: nat) returns (r: Result<seq<int>>)
    requires IsMatrix(scores, |scores|, vocab) && eos < vocab && topK <= vocab
    ensures r.Err? <==> !LegacyDrawable(scores, vocab, eos, topK)
    ensures r.Err? ==> r.error == NoCandidate
    ensures r.Ok? ==> LegacyDrawn(r.value, scores, vocab, eos, topK)
  {
    var masked := MaskColumn(scores, eos);
    var top := TopKRows(masked, vocab, topK);
    r := Draw(top);
  }

  /**
   * The columns `sample_loop` drew, handed `scores0` after the calls `t0`:
   * each comes from the top k of the scores its step worked on, with the EOS
   * column masked.
   */
  ghost predicate LegacyDraws(cols: seq<seq<int>>, scores0: seq<seq<Score>>, respond: seq<Call> -> seq<seq<Score>>,
                              t0: seq<Call>, start: nat, startIds: Option<seq<int>>, vocab: nat, eos: nat, topK: nat)
    decreases |cols|, 1
  {
    cols != [] ==> LegacyColumn(cols, |cols| - 1, scores0, respond, t0, start, startIds, vocab, eos, topK)
  }

  /** Column k of a `sample_loop` run was drawn like those before it, from the scores after feeding back the first k. */
  ghost predicate LegacyColumn(cols: seq<seq<int>>, k: nat, scores0: seq<seq<Score>>, respond: seq<Call> -> seq<seq<Score>>,
                               t0: seq<Call>, start: nat, startIds: Option<seq<int>>, vocab: nat, eos: nat, topK: nat)
    requires k < |cols|
    decreases k + 1, 0
  {
    && LegacyDraws(cols[..k], scores0, respond, t0, start, startIds, vocab, eos, topK)
    && LegacyDrawn(cols[k], StepScores(scores0, respond, t0, cols[..k], start, startIds), vocab, eos, topK)
  }

  /** A draw from the scores the next step works on extends the run by one column. */
  lemma LegacyDrawsSnoc(cols: seq<seq<int>>, x: seq<int>, scores0: seq<seq<Score>>, respond: seq<Call> -> seq<seq<Score>>,
                        t0: seq<Call>, start: nat, startIds: Option<seq<int>>, vocab: nat, eos: nat, topK: nat)
    requires LegacyDraws(cols, scores0, respond, t0, start, startIds, vocab, eos, topK)
    requires LegacyDrawn(x, StepScores(scores0, respond, t0, cols, start, startIds), vocab, eos, topK)
    ensures LegacyDraws(cols + [x], scores0, respond, t0, start, startIds, vocab, eos, topK)
  {
    assert (cols + [x])[..|cols|] == cols;
  }

  /** Column k of a run was drawn from the scores of step k, those after feeding back the first k columns. */
  lemma {:induction false} LegacyDrawAt(cols: seq<seq<int>>, scores0: seq<seq<Score>>, respond: seq<Call> -> seq<seq<Score>>,
                                        t0: seq<Call>, start: nat, startIds: Option<seq<int>>, vocab: nat, eos: nat, topK: nat,
                                        k: nat)
    requires LegacyDraws(cols, scores0, respond, t0, start, startIds, vocab, eos, topK) && k < |cols|
    ensures LegacyDrawn(cols[k], StepScores(scores0, respond, t0, cols[..k], start, startIds), vocab, eos, topK)
  {
    var fed := cols[..|cols| - 1];
    if k < |fed| {
      LegacyDrawAt(fed, scores0, respond, t0, start, startIds, vocab, eos, topK, k);
      assert fed[k] == cols[k] && fed[..k] == cols[..k];
    }
  }

  /** No column `sample_loop` appends holds the EOS id, and every token is a vocabulary id. */
  lemma LegacyNeverEos(cols: seq<seq<int>>, scores0: seq<seq<Score>>, respond: seq<Call> -> seq<seq<Score>>,
                       t0: seq<Call>, start: nat, startIds: Option<seq<int>>, vocab: nat, eos: nat, topK: nat)
    requires LegacyDraws(cols, scores0, respond, t0, start, startIds, vocab, eos, topK) && eos < vocab
    ensures forall k, i :: 0 <= k < |cols| && 0 <= i < |cols[k]| ==> 0 <= cols[k][i] < vocab && cols[k][i] != eos
  {
    forall k | 0 <= k < |cols| ensures forall i :: 0 <= i < |cols[k]| ==> 0 <= cols[k][i] < vocab && cols[k][i] != eos {
      LegacyDrawAt(cols, scores0, respond, t0, start, startIds, vocab, eos, topK, k);
      LegacyDrawAvoidsEos(StepScores(scores0, respond, t0, cols[..k], start, startIds), vocab, eos, topK, cols[k]);
    }
  }

  /** The state of `sample_loop` before step `|cols|`: the calls made so far, and the scores that step works on. */
  ghost predicate LegacyState(trace: seq<Call>, scores: seq<seq<Score>>, cols: seq<seq<int>>, scores0: seq<seq<Score>>,
                              respond: seq<Call> -> seq<seq<Score>>, t0: seq<Call>, start: nat, startIds: Option<seq<int>>,
                              batch: nat, vocab: nat, eos: nat, topK: nat)
  {
    && Columns(cols, batch)
    && trace == History(t0, cols, start, startIds)
    && LegacyDraws(cols, scores0, respond, t0, start, startIds, vocab, eos, topK)
    && scores == StepScores(scores0, respond, t0, cols, start, startIds)
    && IsMatrix(scores, batch, vocab)
  }

  /**
   * One pass of the `sample_loop` body at `cur_len`: draw, and unless that
   * was the last position, feed the draw back to the model.
   */
  method LegacyAdvance(model: Model<seq<seq<Score>>>, scores: seq<seq<Score>>, curLen: int, seqLen: int,
                       startIds: Option<seq<int>>, eos: nat, topK: nat, vocab: nat, ghost cols: seq<seq<int>>,
                       ghost scores0: seq<seq<Score>>, ghost t0: seq<Call>, ghost start: nat, ghost batch: nat)
    returns (next: Result<seq<int>>, nextScores: seq<seq<Score>>)
    requires eos < vocab && topK <= vocab && EmitsScores(model, batch, vocab) && curLen == start + |cols|
    requires LegacyState(model.trace, scores, cols, scores0, model.respond, t0, start, startIds, batch, vocab, eos, topK)
    modifies model
    ensures next.Err? ==> next.error == NoCandidate && model.trace == old(model.trace)
    ensures next.Err? ==> !LegacyDrawable(scores, vocab, eos, topK)
    ensures next.Ok? ==> |next.value| == batch && LegacyDraws(cols + [next.value], scores0, model.respond, t0, start, startIds, vocab, eos, topK)
    ensures next.Ok? && curLen + 1 >= seqLen ==> model.trace == old(model.trace)
    ensures next.Ok? && curLen + 1 < seqLen ==>
      LegacyState(model.trace, nextScores, cols + [next.value], scores0, model.respond, t0, start, startIds, batch, vocab, eos, topK)
  {
    nextScores := scores;
    next := LegacyStep(scores, vocab, eos, topK);
    if next.Err? {
      return;
    }
    var inputs := next.value;
    LegacyDrawsSnoc(cols, inputs, scores0, model.respond, t0, start, startIds, vocab, eos, topK);
    if curLen + 1 < seqLen {
      HistorySnoc(t0, cols, inputs, curLen, start, startIds);
      nextScores := model.Forward(AsColumn(inputs), [curLen], startIds);
    }
  }

  /**
   * `sample_loop`, handed the prefill scores: for every `cur_len` in `start ..
   * sequence_length-1`, mask EOS, take the top k, draw and append; no model
   * call follows the last token. A failed draw ends the loop with an error.
   */
  method SampleLoop(model: Model<seq<seq<Score>>>, inputIds: seq<seq<int>>, startIds: Option<seq<int>>,
                    scores0: seq<seq<Score>>, seqLen: int, eos: nat, topK: nat, ghost vocab: nat)
    returns (r: Result<seq<seq<int>>>, ghost cols: seq<seq<int>>)
    requires IsPrompt(inputIds) && IsMatrix(scores0, |inputIds|, vocab) && EmitsScores(model, |inputIds|, vocab)
    requires eos < vocab && topK <= vocab
    modifies model
    ensures var start, t0 := |inputIds[0]|, old(model.trace);
      var fed := if r.Ok? && cols != [] then cols[..|cols| - 1] else cols;
      && Columns(cols, |inputIds|) && |cols| <= Max(0, seqLen - start)
      && model.trace == History(t0, fed, start, startIds)
      && LegacyDraws(cols, scores0, model.respond, t0, start, startIds, vocab, eos, topK)
      && (r.Err? ==> r.error == NoCandidate && start + |cols| < seqLen)
      && (r.Err? ==> !LegacyDrawable(StepScores(scores0, model.respond, t0, cols, start, startIds), vocab, eos, topK))
      && (r.Ok? ==> |cols| == Max(0, seqLen - start) && r.value == Cat(inputIds, cols))
  {
    var start, width := |inputIds[0]|, |scores0[0]|;
    ghost var t0 := model.trace;
    var scores := scores0;
    var generated: seq<seq<int>> := [];
    var curLen := start;
    while curLen < seqLen
      invariant start <= curLen <= Max(start, seqLen) && |generated| == curLen - start
      invariant generated != [] ==> curLen < seqLen
      invariant LegacyState(model.trace, scores, generated, scores0, model.respond, t0, start, startIds, |inputIds|, vocab, eos, topK)
    {
      var next;
      next, scores := LegacyAdvance(model, scores, curLen, seqLen, startIds, eos, topK, width, generated, scores0, t0, start, |inputIds|);
      if next.Err? {
        return Err(NoCandidate), generated;
      }
      ghost var fed := generated;
      generated := generated + [next.value];
      if curLen + 1 >= seqLen {
        assert generated[..|generated| - 1] == fed;
        return Ok(Cat(inputIds, generated)), generated;
      }
      curLen := curLen + 1;
    }
    return Ok(Cat(inputIds, generated)), generated;
  }

  /**
   * `simple_sample`: the prefill call over the prompt at cache positions `0 ..
   * start-1`, then `sample_loop` on the scores it returns.
   */
  method SimpleSample(model: Model<seq<seq<Score>>>, inputIds: seq<seq<int>>, startIds: Option<seq<int>>, seqLen: int,
                      eos: nat, topK: nat, ghost vocab: nat)
    returns (r: Result<seq<seq<int>>>, ghost cols: seq<seq<int>>)
    requires IsPrompt(inputIds) && EmitsScores(model, |inputIds|, vocab) && eos < vocab && topK <= vocab
    modifies model
    ensures var start, prompt := |inputIds[0]|, old(model.trace) + [Prefill(inputIds, startIds)];
      var fed := if r.Ok? && cols != [] then cols[..|cols| - 1] else cols;
      && Columns(cols, |inputIds|) && |cols| <= Max(0, seqLen - start)
      && model.trace == History(prompt, fed, start, startIds)
      && LegacyDraws(cols, model.respond(prompt), model.respond, prompt, start, startIds, vocab, eos, topK)
      && (r.Err? ==> r.error == NoCandidate && start + |cols| < seqLen)
      && (r.Err? ==> !LegacyDrawable(model.respond(History(prompt, cols, start, startIds)), vocab, eos, topK))
      && (r.Ok? ==> |cols| == Max(0, seqLen - start) && r.value == Cat(inputIds, cols))
  {
    var start := |inputIds[0]|;
    var scores := model.Forward(inputIds, Arange(start), startIds);
    ghost var prompt := model.trace;
    r, cols := SampleLoop(model, inputIds, startIds, scores, seqLen, eos, topK, vocab);
    assert StepScores(scores, model.respond, prompt, cols, start, startIds) == model.respond(History(prompt, cols, start, startIds));
  }
}
