/**
 * `sample_loop_llama` and `sample_llama`: the decode loop that divides the
 * scores by a temperature, filters them with `top_k_top_p_filtering`, draws,
 * keeps one done flag per row, pads finished rows with the EOS id and stops
 * the whole batch once every row is done.
 */
module LlamaDecoding {
  import opened Base
  import opened Validation
  import opened Filtering
  import opened Sampler
  import opened Decoding

  /**
   * The sampling settings one run of `sample_loop_llama` uses at every step:
   * the vocabulary width, top_k and top_p as passed, the validated
   * temperature, the softmax-then-cumsum of the nucleus cut, and `filter`,
   * which maps the scores of a step to the candidates the step draws from.
   */
  datatype Settings = Settings(vocab: nat, topK: Arg, topP: Arg, temperature: real, cum: seq<Score> -> seq<real>,
                               filter: seq<seq<Score>> --> Result<Filtered>)

  /**
   * Settings that got past both checks at the top of `sample_loop_llama`,
   * whose `filter` is the one the loop body applies (LlamaFilter).
   */
  ghost predicate Sane(s: Settings)
  {
    && s.temperature > 0.0 && CumShaped(s.cum) && Validate(s.topK, s.topP, Absent).Ok?
    && forall scores {:trigger LlamaFilter(scores, s)} :: IsMatrix(scores, |scores|, s.vocab) ==>
         s.filter.requires(scores) && s.filter(scores) == LlamaFilter(scores, s)
  }

  /** Row i has drawn the EOS id at one of the first n steps. */
  ghost predicate HitEos(draws: seq<seq<int>>, i: nat, n: nat, eos: int)
  {
    exists j :: 0 <= j < n && j < |draws| && i < |draws[j]| && draws[j][i] == eos
  }

  /**
   * `done_flags` after the draws `draws`, each step or-ing in `inputs ==
   * eos_token_id`: row i is done exactly when it has drawn the EOS id.
   */
  function DoneFlags(draws: seq<seq<int>>, eos: int, batch: nat): (r: seq<bool>)
    requires Columns(draws, batch)
    ensures |r| == batch
    ensures forall i :: 0 <= i < batch ==> (r[i] <==> HitEos(draws, i, |draws|, eos))
    decreases |draws|
  {
    if draws == [] then seq(batch, i => false)
    else
      var fed := draws[..|draws| - 1];
      var done := DoneFlags(fed, eos, batch);
      assert forall i, j :: 0 <= i < batch && 0 <= j < |fed| ==> fed[j][i] == draws[j][i];
      seq(batch, i requires 0 <= i < batch => done[i] || draws[|draws| - 1][i] == eos)
  }

  /** A done flag, once set, stays set: the flags after n steps imply those after any later step. */
  lemma DoneFlagsMonotone(draws: seq<seq<int>>, eos: int, batch: nat, n: nat, m: nat)
    requires Columns(draws, batch) && n <= m <= |draws|
    ensures forall i :: 0 <= i < batch && DoneFlags(draws[..n], eos, batch)[i] ==> DoneFlags(draws[..m], eos, batch)[i]
  {
    forall i | 0 <= i < batch && DoneFlags(draws[..n], eos, batch)[i] ensures DoneFlags(draws[..m], eos, batch)[i] {
      var j :| 0 <= j < n && j < |draws[..n]| && i < |draws[..n][j]| && draws[..n][j][i] == eos;
      assert draws[..m][j] == draws[j];
    }
  }

  /** `torch.all(done_flags == True)`. */
  predicate AllDone(done: seq<bool>)
  {
    forall i :: 0 <= i < |done| ==> done[i]
  }

  /** The loop's early stop fires exactly when every row of the batch has drawn the EOS id. */
  lemma AllDoneIffEveryRowHitEos(draws: seq<seq<int>>, eos: int, batch: nat)
    requires Columns(draws, batch)
    ensures AllDone(DoneFlags(draws, eos, batch)) <==> forall i :: 0 <= i < batch ==> HitEos(draws, i, |draws|, eos)
  {
  }

  /** `torch.where(done_flags == True, eos_token_id, inputs)`. */
  function PadColumn(done: seq<bool>, draw: seq<int>, eos: int): (r: seq<int>)
    requires |draw| == |done|
    ensures |r| == |done|
    ensures forall i :: 0 <= i < |done| ==> r[i] == if done[i] then eos else draw[i]
  {
    seq(|done|, i requires 0 <= i < |done| => if done[i] then eos else draw[i])
  }

  /** The columns `sample_loop_llama` appends for the draws `draws`: each draw with the finished rows set to EOS. */
  function PadColumns(draws: seq<seq<int>>, eos: int, batch: nat): (r: seq<seq<int>>)
    requires Columns(draws, batch)
    ensures |r| == |draws| && Columns(r, batch)
    decreases |draws|
  {
    if draws == [] then []
    else PadColumns(draws[..|draws| - 1], eos, batch) + [PadColumn(DoneFlags(draws, eos, batch), draws[|draws| - 1], eos)]
  }

  /**
   * Token k of row i is the EOS id once row i has drawn EOS at one of the
   * steps `0 .. k`, and that step's draw otherwise.
   */
  lemma {:induction false} PadColumnsAt(draws: seq<seq<int>>, eos: int, batch: nat)
    requires Columns(draws, batch)
    ensures forall k, i :: 0 <= k < |draws| && 0 <= i < batch ==>
      PadColumns(draws, eos, batch)[k][i] == if HitEos(draws, i, k + 1, eos) then eos else draws[k][i]
  {
    if draws != [] {
      var fed := draws[..|draws| - 1];
      PadColumnsAt(fed, eos, batch);
      forall k, i | 0 <= k < |fed| && 0 <= i < batch
        ensures PadColumns(draws, eos, batch)[k][i] == if HitEos(draws, i, k + 1, eos) then eos else draws[k][i]
      {
        assert fed[k] == draws[k];
        assert HitEos(fed, i, k + 1, eos) <==> HitEos(draws, i, k + 1, eos) by {
          assert forall j :: 0 <= j <= k ==> fed[j] == draws[j];
        }
      }
    }
  }

  /** Once a row draws the EOS id, every token appended to it from that step on is EOS. */
  lemma EosSticks(draws: seq<seq<int>>, eos: int, batch: nat, i: nat, k: nat, later: nat)
    requires Columns(draws, batch) && i < batch && k <= later < |draws| && draws[k][i] == eos
    ensures PadColumns(draws, eos, batch)[later][i] == eos
  {
    PadColumnsAt(draws, eos, batch);
    assert HitEos(draws, i, later + 1, eos);
  }

  /** Before a row's first EOS, the appended token is the step's draw itself. */
  lemma BeforeEosKeepsDraw(draws: seq<seq<int>>, eos: int, batch: nat, i: nat, k: nat)
    requires Columns(draws, batch) && i < batch && k < |draws|
    requires forall j :: 0 <= j <= k ==> draws[j][i] != eos
    ensures PadColumns(draws, eos, batch)[k][i] == draws[k][i]
  {
    PadColumnsAt(draws, eos, batch);
  }

  /**
   * No step before the last one left every row done: had it, the loop would
   * have stopped there.
   */
  ghost predicate Running(draws: seq<seq<int>>, eos: int, batch: nat)
    requires Columns(draws, batch)
    decreases |draws|
  {
    draws != [] ==> Running(draws[..|draws| - 1], eos, batch) && !AllDone(DoneFlags(draws, eos, batch))
  }

  /** A running loop had a row not yet done after each of its steps. */
  lemma {:induction false} RunningAt(draws: seq<seq<int>>, eos: int, batch: nat)
    requires Columns(draws, batch) && Running(draws, eos, batch)
    ensures forall n :: 1 <= n <= |draws| ==> !AllDone(DoneFlags(draws[..n], eos, batch))
  {
    if draws != [] {
      var fed := draws[..|draws| - 1];
      RunningAt(fed, eos, batch);
      forall n | 1 <= n <= |draws| ensures !AllDone(DoneFlags(draws[..n], eos, batch)) {
        if n < |draws| {
          assert fed[..n] == draws[..n];
        } else {
          assert draws[..n] == draws;
        }
      }
    }
  }

  /** The scores the filter sees: `next_token_scores /= temperature`, skipped when the temperature is exactly 1.0. */
  function Tempered(scores: seq<seq<Score>>, t: real): (r: seq<seq<Score>>)
    requires t > 0.0
    ensures |r| == |scores| && forall i :: 0 <= i < |scores| ==> |r[i]| == |scores[i]|
  {
    if t != 1.0 then Scale(scores, t) else scores
  }

  /** Skipping the division at a temperature of 1.0 changes nothing: the filter always sees the scores divided by t. */
  lemma TemperedIsScale(scores: seq<seq<Score>>, t: real)
    requires t > 0.0
    ensures Tempered(scores, t) == Scale(scores, t)
  {
    if t == 1.0 {
      ScaleByOne(scores);
    }
  }

  /** The filter of one step: `top_k_top_p_filtering` with the default min_tokens_to_keep of 1, on the tempered scores. */
  function LlamaFilter(scores: seq<seq<Score>>, s: Settings): (r: Result<Filtered>)
    requires IsMatrix(scores, |scores|, s.vocab) && s.temperature > 0.0 && CumShaped(s.cum)
    ensures Validate(s.topK, s.topP, Absent).Err? ==> r == Err(Validate(s.topK, s.topP, Absent).error)
    ensures Validate(s.topK, s.topP, Absent).Ok? && |scores| > 0 ==> r.Ok?
    ensures r.Ok? ==> WellShaped(r.value, |scores|, s.vocab)
  {
    TopKTopPFilter(Tempered(scores, s.temperature), s.vocab, s.topK, s.topP, IntArg(1), s.cum)
  }

  /** The settings `sample_loop_llama` runs with once top_k, top_p and the temperature are checked. */
  function LlamaSettings(vocab: nat, topK: Arg, topP: Arg, t: real, cum: seq<Score> -> seq<real>): (s: Settings)
    requires t > 0.0 && CumShaped(cum) && Validate(topK, topP, Absent).Ok?
    ensures Sane(s)
    ensures s.vocab == vocab && s.topK == topK && s.topP == topP && s.temperature == t && s.cum == cum
  {
    Settings(vocab, topK, topP, t, cum,
             scores requires IsMatrix(scores, |scores|, vocab) =>
               TopKTopPFilter(Tempered(scores, t), vocab, topK, topP, IntArg(1), cum))
  }

  /** A step of `sample_loop_llama`: the draw comes from the step's filter result. */
  ghost predicate LlamaDrawn(draw: seq<int>, scores: seq<seq<Score>>, s: Settings)
  {
    && IsMatrix(scores, |scores|, s.vocab) && s.filter.requires(scores)
    && s.filter(scores).Ok? && DrawnFrom(draw, s.filter(scores).value)
  }

  /** Every row keeps a finite score after filtering: the draw can succeed. */
  ghost predicate LlamaDrawable(scores: seq<seq<Score>>, s: Settings)
  {
    && s.filter.requires(scores) && s.filter(scores).Ok?
    && forall i :: 0 <= i < |s.filter(scores).value.values| ==> HasCandidate(s.filter(scores).value.values[i])
  }

  /** Every token a step draws is a vocabulary id, and there is one per row. */
  lemma LlamaDrawInVocab(draw: seq<int>, scores: seq<seq<Score>>, s: Settings)
    requires Sane(s) && LlamaDrawn(draw, scores, s)
    ensures |draw| == |scores| && forall i :: 0 <= i < |draw| ==> 0 <= draw[i] < s.vocab
  {
    assert s.filter(scores) == LlamaFilter(scores, s);
    var f := LlamaFilter(scores, s).value;
    assert WellShaped(f, |scores|, s.vocab);
    forall i | 0 <= i < |draw| ensures 0 <= draw[i] < s.vocab {
      var p :| 0 <= p < |f.values[i]| && p < |f.indices[i]| && f.values[i][p].Fin? && draw[i] == f.indices[i][p];
      assert |f.values[i]| == |f.values[0]|;
    }
  }

  /**
   * One step of `sample_loop_llama`: divide by the temperature unless it is
   * 1.0, filter, draw. The filter cannot fail here: its parameters were
   * validated and the batch is not empty.
   */
  method LlamaStep(scores: seq<seq<Score>>, s: Settings) returns (r: Result<seq<int>>)
    requires IsMatrix(scores, |scores|, s.vocab) && |scores| > 0 && Sane(s)
    ensures r.Err? ==> r.error == NoCandidate && !LlamaDrawable(scores, s)
    ensures r.Ok? ==> LlamaDrawn(r.value, scores, s)
  {
    var tempered := scores;
    if s.temperature != 1.0 {
      tempered := Scale(scores, s.temperature);
    }
    var f := TopKTopPFiltering(tempered, s.vocab, s.topK, s.topP, IntArg(1), s.cum);
    assert f == LlamaFilter(scores, s) && f.Ok?;
    r := Draw(f.value);
  }

  /**
   * The draws `sample_loop_llama` made, handed `scores0` after the calls
   * `t0`: each comes from the filter's result on the tempered scores its step
   * worked on.
   */
  ghost predicate LlamaDraws(draws: seq<seq<int>>, scores0: seq<seq<Score>>, respond: seq<Call> -> seq<seq<Score>>,
                             t0: seq<Call>, start: nat, startIds: Option<seq<int>>, s: Settings)
    decreases |draws|, 1
  {
    draws != [] ==> LlamaColumn(draws, |draws| - 1, scores0, respond, t0, start, startIds, s)
  }

  /** Draw k of a run was made like those before it, from the scores after feeding back the first k draws. */
  ghost predicate LlamaColumn(draws: seq<seq<int>>, k: nat, scores0: seq<seq<Score>>, respond: seq<Call> -> seq<seq<Score>>,
                              t0: seq<Call>, start: nat, startIds: Option<seq<int>>, s: Settings)
    requires k < |draws|
    decreases k + 1, 0
  {
    && LlamaDraws(draws[..k], scores0, respond, t0, start, startIds, s)
    && LlamaDrawn(draws[k], StepScores(scores0, respond, t0, draws[..k], start, startIds), s)
  }

  /** Draw k of a run was made from the scores of step k, those after feeding back the first k draws. */
  lemma {:induction false} LlamaDrawAt(draws: seq<seq<int>>, scores0: seq<seq<Score>>, respond: seq<Call> -> seq<seq<Score>>,
                                       t0: seq<Call>, start: nat, startIds: Option<seq<int>>, s: Settings, k: nat)
    requires LlamaDraws(draws, scores0, respond, t0, start, startIds, s) && k < |draws|
    ensures LlamaDrawn(draws[k], StepScores(scores0, respond, t0, draws[..k], start, startIds), s)
  {
    var fed := draws[..|draws| - 1];
    if k < |fed| {
      LlamaDrawAt(fed, scores0, respond, t0, start, startIds, s, k);
      assert fed[k] == draws[k] && fed[..k] == draws[..k];
    }
  }

  /** Every token `sample_loop_llama` appends is the EOS id or a vocabulary id. */
  lemma LlamaTokensInVocab(draws: seq<seq<int>>, scores0: seq<seq<Score>>, respond: seq<Call> -> seq<seq<Score>>,
                           t0: seq<Call>, start: nat, startIds: Option<seq<int>>, s: Settings, eos: int, batch: nat)
    requires Sane(s) && Columns(draws, batch) && LlamaDraws(draws, scores0, respond, t0, start, startIds, s)
    ensures forall k, i :: 0 <= k < |draws| && 0 <= i < batch ==>
      var token := PadColumns(draws, eos, batch)[k][i]; token == eos || 0 <= token < s.vocab
  {
    PadColumnsAt(draws, eos, batch);
    forall k | 0 <= k < |draws| ensures forall i :: 0 <= i < batch ==> 0 <= draws[k][i] < s.vocab {
      LlamaDrawAt(draws, scores0, respond, t0, start, startIds, s, k);
      LlamaDrawInVocab(draws[k], StepScores(scores0, respond, t0, draws[..k], start, startIds), s);
    }
  }

  /**
   * The state of `sample_loop_llama` before step `|draws|`: the calls made so
   * far fed back the raw draws, the scores are the model's answer to the last
   * of them, and the flags and appended columns follow from the draws.
   */
  ghost predicate LlamaState(trace: seq<Call>, scores: seq<seq<Score>>, done: seq<bool>, cols: seq<seq<int>>,
                             draws: seq<seq<int>>, scores0: seq<seq<Score>>, respond: seq<Call> -> seq<seq<Score>>,
                             t0: seq<Call>, start: nat, startIds: Option<seq<int>>, batch: nat, eos: int, s: Settings)
  {
    && Columns(draws, batch)
    && trace == History(t0, draws, start, startIds)
    && LlamaDraws(draws, scores0, respond, t0, start, startIds, s)
    && scores == StepScores(scores0, respond, t0, draws, start, startIds)
    && IsMatrix(scores, batch, s.vocab)
    && done == DoneFlags(draws, eos, batch)
    && cols == PadColumns(draws, eos, batch)
    && Running(draws, eos, batch)
  }

  /**
   * One pass of the `sample_loop_llama` body at `cur_len`: draw, update the
   * flags, pad, and unless this was the last position or every row is now
   * done, feed the raw draw back to the model.
   */
  method LlamaAdvance(model: Model<seq<seq<Score>>>, scores: seq<seq<Score>>, done: seq<bool>, curLen: int, seqLen: int,
                      startIds: Option<seq<int>>, eos: int, s: Settings, ghost draws: seq<seq<int>>,
                      ghost cols: seq<seq<int>>, ghost scores0: seq<seq<Score>>, ghost t0: seq<Call>, ghost start: nat,
                      ghost batch: nat)
    returns (next: Result<seq<int>>, nextDone: seq<bool>, padded: seq<int>, stop: bool, nextScores: seq<seq<Score>>)
    requires Sane(s) && batch > 0 && EmitsScores(model, batch, s.vocab) && curLen == start + |draws|
    requires LlamaState(model.trace, scores, done, cols, draws, scores0, model.respond, t0, start, startIds, batch, eos, s)
    modifies model
    ensures next.Err? ==> next.error == NoCandidate && model.trace == old(model.trace)
    ensures next.Err? ==> !LlamaDrawable(StepScores(scores0, model.respond, t0, draws, start, startIds), s)
    ensures next.Ok? ==> var drawn := draws + [next.value];
      && |next.value| == batch
      && LlamaDraws(drawn, scores0, model.respond, t0, start, startIds, s)
      && nextDone == DoneFlags(drawn, eos, batch)
      && cols + [padded] == PadColumns(drawn, eos, batch)
      && (stop <==> curLen + 1 >= seqLen || AllDone(nextDone))
      && (stop ==> model.trace == old(model.trace) && Running(draws, eos, batch))
      && (!stop ==>
            LlamaState(model.trace, nextScores, nextDone, cols + [padded], drawn, scores0, model.respond, t0, start, startIds,
                       batch, eos, s))
  {
    nextScores, nextDone, padded, stop := scores, done, [], true;
    next := LlamaStep(scores, s);
    if next.Err? {
      return;
    }
    var inputs := next.value;
    LlamaDrawInVocab(inputs, scores, s);
    ghost var drawn := draws + [inputs];
    assert drawn[..|draws|] == draws;
    nextDone := seq(|done|, i requires 0 <= i < |done| => done[i] || inputs[i] == eos);
    padded := PadColumn(nextDone, inputs, eos);
    stop := curLen + 1 >= seqLen || AllDone(nextDone);
    if !stop {
      HistorySnoc(t0, draws, inputs, curLen, start, startIds);
      nextScores := model.Forward(AsColumn(inputs), [curLen], startIds);
    }
  }

  /**
   * What the loop of `sample_loop_llama` leaves behind: the raw draws are
   * columns, one per step run, each drawn from the scores of its step; the
   * model saw every draw but the last of a successful run; a failed draw
   * found no candidate in some row; a successful run returns the prompt with
   * the padded columns appended, and stopped either at `sequence_length` or
   * at the first step after which every row was done.
   */
  ghost predicate LlamaOutcome(r: Result<seq<seq<int>>>, draws: seq<seq<int>>, trace: seq<Call>, inputIds: seq<seq<int>>,
                               startIds: Option<seq<int>>, scores0: seq<seq<Score>>,
                               respond: seq<Call> -> seq<seq<Score>>, t0: seq<Call>, seqLen: int, eos: int, s: Settings)
    requires IsPrompt(inputIds)
  {
    var batch, start := |inputIds|, |inputIds[0]|;
    var fed := if r.Ok? && draws != [] then draws[..|draws| - 1] else draws;
    && Columns(draws, batch) && |draws| <= Max(0, seqLen - start)
    && trace == History(t0, fed, start, startIds)
    && LlamaDraws(draws, scores0, respond, t0, start, startIds, s)
    && (r.Err? ==> r.error == NoCandidate && start + |draws| < seqLen && Running(draws, eos, batch))
    && (r.Err? ==> !LlamaDrawable(StepScores(scores0, respond, t0, draws, start, startIds), s))
    && (r.Ok? ==> r.value == Cat(inputIds, PadColumns(draws, eos, batch)))
    && (r.Ok? ==> |draws| == Max(0, seqLen - start) || AllDone(DoneFlags(draws, eos, batch)))
    && (r.Ok? && draws != [] ==> Running(draws[..|draws| - 1], eos, batch))
  }

  /**
   * When the prompt already reaches `sequence_length` the loop body never
   * runs: the outcome is the prompt itself, with no draw and no model call.
   */
  lemma LlamaOutcomeNoSteps(r: Result<seq<seq<int>>>, draws: seq<seq<int>>, trace: seq<Call>, inputIds: seq<seq<int>>,
                            startIds: Option<seq<int>>, scores0: seq<seq<Score>>,
                            respond: seq<Call> -> seq<seq<Score>>, t0: seq<Call>, seqLen: int, eos: int, s: Settings)
    requires IsPrompt(inputIds) && |inputIds[0]| >= seqLen
    requires LlamaOutcome(r, draws, trace, inputIds, startIds, scores0, respond, t0, seqLen, eos, s)
    ensures r == Ok(inputIds) && draws == [] && trace == t0
  {
  }

  /** A draw that failed at step |draws| ends the loop with `NoCandidate`. */
  lemma LlamaFailed(trace: seq<Call>, draws: seq<seq<int>>, inputIds: seq<seq<int>>, startIds: Option<seq<int>>,
                    scores0: seq<seq<Score>>, respond: seq<Call> -> seq<seq<Score>>, t0: seq<Call>, seqLen: int, eos: int,
                    s: Settings)
    requires IsPrompt(inputIds) && Columns(draws, |inputIds|) && |inputIds[0]| + |draws| < seqLen
    requires trace == History(t0, draws, |inputIds[0]|, startIds)
    requires LlamaDraws(draws, scores0, respond, t0, |inputIds[0]|, startIds, s)
    requires !LlamaDrawable(StepScores(scores0, respond, t0, draws, |inputIds[0]|, startIds), s)
    requires Running(draws, eos, |inputIds|)
    ensures LlamaOutcome(Err(NoCandidate), draws, trace, inputIds, startIds, scores0, respond, t0, seqLen, eos, s)
  {
  }

  /** A successful draw at the last position, or one after which every row is done, ends the loop. */
  lemma LlamaStopped(trace: seq<Call>, cols: seq<seq<int>>, draws: seq<seq<int>>, inputIds: seq<seq<int>>,
                     startIds: Option<seq<int>>, scores0: seq<seq<Score>>, respond: seq<Call> -> seq<seq<Score>>,
                     t0: seq<Call>, seqLen: int, eos: int, s: Settings)
    requires IsPrompt(inputIds) && Columns(draws, |inputIds|) && draws != []
    requires |inputIds[0]| + |draws| <= seqLen
    requires trace == History(t0, draws[..|draws| - 1], |inputIds[0]|, startIds)
    requires LlamaDraws(draws, scores0, respond, t0, |inputIds[0]|, startIds, s)
    requires cols == PadColumns(draws, eos, |inputIds|)
    requires |inputIds[0]| + |draws| >= seqLen || AllDone(DoneFlags(draws, eos, |inputIds|))
    requires Running(draws[..|draws| - 1], eos, |inputIds|)
    ensures LlamaOutcome(Ok(Cat(inputIds, cols)), draws, trace, inputIds, startIds, scores0, respond, t0, seqLen, eos, s)
  {
  }

  /** A loop that starts at or past `sequence_length` runs no step and returns the prompt. */
  lemma LlamaNoSteps(trace: seq<Call>, inputIds: seq<seq<int>>, startIds: Option<seq<int>>, scores0: seq<seq<Score>>,
                     respond: seq<Call> -> seq<seq<Score>>, seqLen: int, eos: int, s: Settings)
    requires IsPrompt(inputIds) && |inputIds[0]| >= seqLen
    ensures LlamaOutcome(Ok(Cat(inputIds, [])), [], trace, inputIds, startIds, scores0, respond, trace, seqLen, eos, s)
  {
  }

  /**
   * One pass of the loop body as the loop sees it: either the loop ends here
   * (a failed draw, the last position, or every row done) with its outcome,
   * or the state it continues from, one draw further.
   */
  method LlamaTurn(model: Model<seq<seq<Score>>>, inputIds: seq<seq<int>>, startIds: Option<seq<int>>,
                   scores: seq<seq<Score>>, done: seq<bool>, cols: seq<seq<int>>, curLen: int, seqLen: int, eos: int,
                   s: Settings, ghost draws: seq<seq<int>>, ghost scores0: seq<seq<Score>>, ghost t0: seq<Call>)
    returns (ended: bool, out: Result<seq<seq<int>>>, nextDone: seq<bool>, nextCols: seq<seq<int>>,
             nextScores: seq<seq<Score>>, ghost drawn: seq<seq<int>>)
    requires IsPrompt(inputIds) && Sane(s) && EmitsScores(model, |inputIds|, s.vocab)
    requires curLen == |inputIds[0]| + |draws| < seqLen
    requires LlamaState(model.trace, scores, done, cols, draws, scores0, model.respond, t0, |inputIds[0]|, startIds,
                        |inputIds|, eos, s)
    modifies model
    ensures ended ==>
      LlamaOutcome(out, drawn, model.trace, inputIds, startIds, scores0, model.respond, t0, seqLen, eos, s)
    ensures !ended ==>
      && curLen + 1 < seqLen && |drawn| == |draws| + 1
      && LlamaState(model.trace, nextScores, nextDone, nextCols, drawn, scores0, model.respond, t0, |inputIds[0]|,
                    startIds, |inputIds|, eos, s)
  {
    var next, padded, stop;
    next, nextDone, padded, stop, nextScores := LlamaAdvance(model, scores, done, curLen, seqLen, startIds, eos, s, draws,
                                                             cols, scores0, t0, |inputIds[0]|, |inputIds|);
    nextCols, drawn := cols, draws;
    if next.Err? {
      LlamaFailed(model.trace, draws, inputIds, startIds, scores0, model.respond, t0, seqLen, eos, s);
      return true, Err(NoCandidate), nextDone, nextCols, nextScores, drawn;
    }
    drawn := draws + [next.value];
    nextCols := cols + [padded];
    if stop {
      assert drawn[..|drawn| - 1] == draws;
      LlamaStopped(model.trace, nextCols, drawn, inputIds, startIds, scores0, model.respond, t0, seqLen, eos, s);
      return true, Ok(Cat(inputIds, nextCols)), nextDone, nextCols, nextScores, drawn;
    }
    ended, out := false, Err(NoCandidate);
  }

  /**
   * The loop of `sample_loop_llama` once its parameters are checked: for
   * every `cur_len` in `start .. sequence_length-1` filter, draw, update the
   * done flags and append the padded column; stop after the last position or
   * once every row is done, and otherwise feed the raw draw back at cache
   * position `cur_len`.
   */
  method LlamaLoop(model: Model<seq<seq<Score>>>, inputIds: seq<seq<int>>, startIds: Option<seq<int>>,
                   scores0: seq<seq<Score>>, seqLen: int, eos: int, s: Settings)
    returns (r: Result<seq<seq<int>>>, ghost draws: seq<seq<int>>)
    requires IsPrompt(inputIds) && IsMatrix(scores0, |inputIds|, s.vocab) && EmitsScores(model, |inputIds|, s.vocab)
    requires Sane(s)
    modifies model
    ensures LlamaOutcome(r, draws, model.trace, inputIds, startIds, scores0, model.respond, old(model.trace), seqLen, eos, s)
  {
    var batch, start := |inputIds|, |inputIds[0]|;
    ghost var t0 := model.trace;
    var done := DoneFlags([], eos, batch);  // `torch.full((B, 1), False)`
    var cols: seq<seq<int>> := [];
    var scores := scores0;
    var curLen := start;
    draws := [];
    while curLen < seqLen
      invariant start <= curLen <= Max(start, seqLen) && |draws| == curLen - start
      invariant draws != [] ==> curLen < seqLen
      invariant LlamaState(model.trace, scores, done, cols, draws, scores0, model.respond, t0, start, startIds, batch, eos, s)
    {
      var ended;
      ended, r, done, cols, scores, draws := LlamaTurn(model, inputIds, startIds, scores, done, cols, curLen, seqLen, eos,
                                                       s, draws, scores0, t0);
      if ended {
        return;
      }
      curLen := curLen + 1;
    }
    LlamaNoSteps(model.trace, inputIds, startIds, scores0, model.respond, seqLen, eos, s);
    return Ok(Cat(inputIds, [])), [];
  }

  /**
   * `sample_loop_llama`, handed the prefill scores: validate top_k and top_p
   * (min_tokens_to_keep is `None` here), check the temperature, then run the
   * loop with the vocabulary width taken from the scores.
   */
  method SampleLoopLlama(model: Model<seq<seq<Score>>>, inputIds: seq<seq<int>>, startIds: Option<seq<int>>,
                         scores0: seq<seq<Score>>, seqLen: int, eos: int, topK: Arg, topP: Arg, temperature: Arg,
                         cum: seq<Score> -> seq<real>, ghost vocab: nat)
    returns (r: Result<seq<seq<int>>>, ghost draws: seq<seq<int>>)
    requires IsPrompt(inputIds) && IsMatrix(scores0, |inputIds|, vocab) && EmitsScores(model, |inputIds|, vocab)
    requires CumShaped(cum)
    modifies model
    ensures Validate(topK, topP, Absent).Err? ==>
      r == Err(Validate(topK, topP, Absent).error) && model.trace == old(model.trace)
    ensures Validate(topK, topP, Absent).Ok? && ValidateTemperature(temperature).Err? ==>
      r == Err(InvalidParameter("temperature")) && model.trace == old(model.trace)
    ensures Validate(topK, topP, Absent).Ok? && ValidateTemperature(temperature).Ok? ==>
      LlamaOutcome(r, draws, model.trace, inputIds, startIds, scores0, model.respond, old(model.trace), seqLen, eos,
                   LlamaSettings(vocab, topK, topP, temperature.f, cum))
  {
    var v := Validate(topK, topP, Absent);
    if v.Err? {
      return Err(v.error), [];
    }
    var t := ValidateTemperature(temperature);
    if t.Err? {
      return Err(t.error), [];
    }
    r, draws := LlamaLoop(model, inputIds, startIds, scores0, seqLen, eos, LlamaSettings(|scores0[0]|, topK, topP, t.value, cum));
  }

  /**
   * `sample_llama`: validate top_k and top_p, make the prefill call over the
   * prompt at cache positions `0 .. start-1`, then run `sample_loop_llama` on
   * its scores. The temperature is only checked inside the loop, after the
   * prefill call has been made.
   */
  method SampleLlama(model: Model<seq<seq<Score>>>, inputIds: seq<seq<int>>, startIds: Option<seq<int>>, seqLen: int,
                     eos: int, topK: Arg, topP: Arg, temperature: Arg, cum: seq<Score> -> seq<real>, ghost vocab: nat)
    returns (r: Result<seq<seq<int>>>, ghost draws: seq<seq<int>>)
    requires IsPrompt(inputIds) && EmitsScores(model, |inputIds|, vocab) && CumShaped(cum)
    modifies model
    ensures Validate(topK, topP, Absent).Err? ==>
      r == Err(Validate(topK, topP, Absent).error) && model.trace == old(model.trace)
    ensures var prompt := old(model.trace) + [Prefill(inputIds, startIds)];
      Validate(topK, topP, Absent).Ok? && ValidateTemperature(temperature).Err? ==>
        r == Err(InvalidParameter("temperature")) && model.trace == prompt
    ensures var prompt := old(model.trace) + [Prefill(inputIds, startIds)];
      Validate(topK, topP, Absent).Ok? && ValidateTemperature(temperature).Ok? ==>
        LlamaOutcome(r, draws, model.trace, inputIds, startIds, model.respond(prompt), model.respond, prompt, seqLen, eos,
                     LlamaSettings(vocab, topK, topP, temperature.f, cum))
  {
    var v := Validate(topK, topP, Absent);
    if v.Err? {
      return Err(v.error), [];
    }
    var start := |inputIds[0]|;
    var scores := model.Forward(inputIds, Arange(start), startIds);
    r, draws := SampleLoopLlama(model, inputIds, startIds, scores, seqLen, eos, topK, topP, temperature, cum, vocab);
  }
}
