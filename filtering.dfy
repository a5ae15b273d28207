/**
 * The filtering engine `top_k_top_p_filtering`: given a batch of score rows
 * of width V it returns, per row, the kept scores and the vocabulary ids they
 * belong to, by top-k selection, nucleus (top-p) cut, both, or neither.
 *
 * The functions below are the specification; the methods FilterByTopP and
 * TopKTopPFiltering compute the same result with the tail masking done in
 * place on a dense matrix, as the source does.
 */
module Filtering {
  import opened Base
  import opened Validation
  import opened Sorting

  /** Kept scores and, position by position, the vocabulary ids they stand for. */
  datatype Filtered = Filtered(values: seq<seq<Score>>, indices: seq<seq<nat>>)

  /**
   * The softmax-then-cumsum of a descending score row is external numerics:
   * it is a parameter `cum`, of which only the shape is assumed here.
   */
  ghost predicate CumShaped(cum: seq<Score> -> seq<real>)
  {
    forall s: seq<Score> :: |cum(s)| == |s|
  }

  /** The returned matrices are both `B x w` for one width w, and every index is a vocabulary id. */
  ghost predicate WellShaped(f: Filtered, batch: nat, vocab: nat)
  {
    var w := if |f.values| == 0 then 0 else |f.values[0]|;
    IsMatrix(f.values, batch, w) && IsMatrix(f.indices, batch, w)
    && forall i, j :: 0 <= i < batch && 0 <= j < w ==> f.indices[i][j] < vocab
  }

  function Min(a: int, b: int): int
  {
    if a <= b then a else b
  }

  /** `safe_size`: a keep count clamped to `[min_tokens_to_keep, V]` (the upper bound wins). */
  function SafeSize(size: int, minKeep: nat, vocab: nat): (r: nat)
    ensures r <= vocab
    ensures minKeep <= vocab ==> minKeep <= r
    ensures minKeep <= size <= vocab ==> r == size
    ensures size <= minKeep <= vocab ==> r == minKeep
  {
    Min(Max(size, minKeep), vocab)
  }

  /** `(cumulative_probs <= top_p).int().sum()` on one row. */
  function CountAtMost(cs: seq<real>, p: real): (c: nat)
    ensures c <= |cs|
  {
    if cs == [] then 0 else (if cs[0] <= p then 1 else 0) + CountAtMost(cs[1..], p)
  }

  /** `input_value_and_indices`: the scores untouched and every row of indices `0..V-1`. */
  function NoFilter(scores: seq<seq<Score>>, vocab: nat): (r: Filtered)
    ensures r.values == scores && |r.indices| == |scores|
    ensures forall i :: 0 <= i < |scores| ==> r.indices[i] == Arange(vocab)
  {
    Filtered(scores, seq(|scores|, _ => Arange(vocab)))
  }

  /** The `k` best positions of one row, best first (`torch.topk` on one row). */
  function TopKOrder(row: seq<Score>, k: nat): (r: seq<nat>)
    requires k <= |row|
    ensures |r| == k && InRange(r, |row|)
  {
    SortDesc(row)[..k]
  }

  /** `filter_by_top_k`: `torch.topk(scores, k)` row by row. */
  function TopKRows(scores: seq<seq<Score>>, vocab: nat, k: nat): (r: Filtered)
    requires IsMatrix(scores, |scores|, vocab) && k <= vocab
    ensures IsMatrix(r.values, |scores|, k) && IsMatrix(r.indices, |scores|, k)
    ensures forall i :: 0 <= i < |scores| ==> InRange(r.indices[i], vocab)
  {
    var order := seq(|scores|, i requires 0 <= i < |scores| => TopKOrder(scores[i], k));
    Filtered(seq(|scores|, i requires 0 <= i < |scores| => Select(scores[i], order[i])), order)
  }

  /** The candidate ids of `filter_by_top_k`, as `B x k` positions into the vocabulary. */
  ghost predicate IsPool(pool: seq<seq<nat>>, batch: nat, k: nat, vocab: nat)
  {
    IsMatrix(pool, batch, k) && forall i :: 0 <= i < batch ==> InRange(pool[i], vocab)
  }

  /**
   * `scores_to_filter`: the whole rows, or every row restricted to the
   * candidate ids of row 0 of the pool (`index_select(..., indices[0])`).
   */
  function PoolRows(scores: seq<seq<Score>>, vocab: nat, pool: Option<seq<seq<nat>>>): (r: seq<seq<Score>>)
    requires IsMatrix(scores, |scores|, vocab) && |scores| > 0
    requires pool.Some? ==> |pool.value| > 0 && IsPool(pool.value, |scores|, |pool.value[0]|, vocab)
    ensures IsMatrix(r, |scores|, PoolWidth(vocab, pool))
  {
    match pool
    case None => scores
    case Some(ids) => seq(|scores|, i requires 0 <= i < |scores| => Select(scores[i], ids[0]))
  }

  function PoolWidth(vocab: nat, pool: Option<seq<seq<nat>>>): nat
  {
    if pool.None? || |pool.value| == 0 then vocab else |pool.value[0]|
  }

  /** Each row's positions in descending score order (`sorted_indices`). */
  function Orders(m: seq<seq<Score>>): (r: seq<seq<nat>>)
    ensures |r| == |m|
    ensures forall i :: 0 <= i < |m| ==> IsPermutation(r[i], |m[i]|) && Descending(m[i], r[i])
  {
    seq(|m|, i requires 0 <= i < |m| => SortDesc(m[i]))
  }

  /** One row's scores in descending order. */
  function SortedRow(row: seq<Score>): (r: seq<Score>)
    ensures |r| == |row|
  {
    Select(row, SortDesc(row))
  }

  /** Each row's scores in descending order (`sorted_scores`). */
  function SortedRows(m: seq<seq<Score>>): (r: seq<seq<Score>>)
    ensures |r| == |m|
    ensures forall i :: 0 <= i < |m| ==> r[i] == SortedRow(m[i])
  {
    seq(|m|, i requires 0 <= i < |m| => SortedRow(m[i]))
  }

  /** One entry of `n_to_keep`: `safe_size` of the number of cumulative probabilities at most `top_p`. */
  function NToKeep(sortedRow: seq<Score>, p: real, minKeep: nat, vocab: nat, cum: seq<Score> -> seq<real>): (n: nat)
    ensures n <= vocab
    ensures minKeep <= vocab ==> minKeep <= n
    ensures minKeep <= CountAtMost(cum(sortedRow), p) <= vocab ==> n == CountAtMost(cum(sortedRow), p)
  {
    SafeSize(CountAtMost(cum(sortedRow), p), minKeep, vocab)
  }

  /** `n_to_keep`, row by row. */
  function KeepCounts(sorted: seq<seq<Score>>, width: nat, p: real, minKeep: nat, vocab: nat,
                      cum: seq<Score> -> seq<real>): (n: seq<nat>)
    requires IsMatrix(sorted, |sorted|, width) && minKeep <= width <= vocab && CumShaped(cum)
    ensures |n| == |sorted|
    ensures forall i :: 0 <= i < |sorted| ==> minKeep <= n[i] <= width
    ensures forall i :: 0 <= i < |sorted| ==> n[i] == NToKeep(sorted[i], p, minKeep, vocab, cum)
  {
    seq(|sorted|, i requires 0 <= i < |sorted| => NToKeep(sorted[i], p, minKeep, vocab, cum))
  }

  /** One row with every position at or after `n` set to minus infinity. */
  function MaskRow(row: seq<Score>, n: nat): (r: seq<Score>)
    ensures |r| == |row|
    ensures forall j :: 0 <= j < |row| ==> r[j] == (if j < n then row[j] else NegInf)
  {
    seq(|row|, j requires 0 <= j < |row| => if j < n then row[j] else NegInf)
  }

  /** `scores_to_keep` after the masking loop: the first `w` sorted scores of each row, masked past its own count. */
  function MaskedRows(sorted: seq<seq<Score>>, w: nat, n: seq<nat>): (r: seq<seq<Score>>)
    requires |n| == |sorted| && forall i :: 0 <= i < |sorted| ==> w <= |sorted[i]|
    ensures IsMatrix(r, |sorted|, w)
  {
    seq(|sorted|, i requires 0 <= i < |sorted| => MaskRow(sorted[i][..w], n[i]))
  }

  /**
   * `indices_to_keep`: the first `w` sorted positions of each row; after a
   * top-k pool, row i instead takes its own pool ids at the positions row 0
   * kept (`index_select(indices, -1, indices_to_keep[0])`).
   */
  function KeptIndices(order: seq<seq<nat>>, w: nat, pool: Option<seq<seq<nat>>>): (r: seq<seq<nat>>)
    requires |order| > 0 && forall i :: 0 <= i < |order| ==> w <= |order[i]|
    requires pool.Some? ==> (|pool.value| == |order| &&
      forall i, j :: 0 <= i < |order| && 0 <= j < w ==> order[0][j] < |pool.value[i]|)
    ensures IsMatrix(r, |order|, w)
  {
    match pool
    case None => seq(|order|, i requires 0 <= i < |order| => order[i][..w])
    case Some(ids) => seq(|order|, i requires 0 <= i < |order| => Select(ids[i], order[0][..w]))
  }

  /** Preconditions shared by the specification and the implementation of `filter_by_top_p`. */
  ghost predicate TopPArgs(scores: seq<seq<Score>>, vocab: nat, pool: Option<seq<seq<nat>>>, minKeep: nat,
                           cum: seq<Score> -> seq<real>)
  {
    && IsMatrix(scores, |scores|, vocab)
    && CumShaped(cum)
    && minKeep <= PoolWidth(vocab, pool) <= vocab
    && (pool.Some? ==> |pool.value| > 0 && IsPool(pool.value, |scores|, |pool.value[0]|, vocab))
  }

  /**
   * `filter_by_top_p`: the nucleus cut on the whole rows (`pool == None`) or
   * on the top-k pool.
   */
  function TopPFilter(scores: seq<seq<Score>>, vocab: nat, pool: Option<seq<seq<nat>>>, p: real, minKeep: nat,
                      cum: seq<Score> -> seq<real>): (r: Result<Filtered>)
    requires TopPArgs(scores, vocab, pool, minKeep, cum)
    ensures r.Err? <==> |scores| == 0
    ensures r.Err? ==> r.error == EmptyBatch
    ensures r.Ok? ==> WellShaped(r.value, |scores|, vocab)
  {
    if |scores| == 0 then Err(EmptyBatch)
    else
      var width := PoolWidth(vocab, pool);
      var rows := PoolRows(scores, vocab, pool);
      var order := Orders(rows);
      var sorted := SortedRows(rows);
      var n := KeepCounts(sorted, width, p, minKeep, vocab, cum);
      var w := MaxOf(n);
      var f := Filtered(MaskedRows(sorted, w, n), KeptIndices(order, w, pool));
      assert WellShaped(f, |scores|, vocab) by { TopPIndicesInVocab(scores, vocab, pool, order, w); }
      Ok(f)
  }

  lemma TopPIndicesInVocab(scores: seq<seq<Score>>, vocab: nat, pool: Option<seq<seq<nat>>>,
                           order: seq<seq<nat>>, w: nat)
    requires IsMatrix(scores, |scores|, vocab) && |scores| > 0
    requires pool.Some? ==> |pool.value| > 0 && IsPool(pool.value, |scores|, |pool.value[0]|, vocab)
    requires order == Orders(PoolRows(scores, vocab, pool)) && w <= PoolWidth(vocab, pool)
    ensures forall i, j :: 0 <= i < |scores| && 0 <= j < w ==> KeptIndices(order, w, pool)[i][j] < vocab
  {
    var rows := PoolRows(scores, vocab, pool);
    forall i, j | 0 <= i < |scores| && 0 <= j < w ensures KeptIndices(order, w, pool)[i][j] < vocab {
      assert IsPermutation(order[i], |rows[i]|);
      if pool.Some? {
        assert IsPermutation(order[0], |rows[0]|);
        assert order[0][j] < |pool.value[i]|;
      }
    }
  }

  /** The filtering decision of `top_k_top_p_filtering` once the parameters are typed. */
  function Filter(scores: seq<seq<Score>>, vocab: nat, topK: Option<nat>, topP: Option<real>, minKeep: nat,
                  cum: seq<Score> -> seq<real>): (r: Result<Filtered>)
    requires IsMatrix(scores, |scores|, vocab) && CumShaped(cum)
    ensures r.Err? <==> |scores| == 0 && topP.Some? && minKeep <= vocab
    ensures r.Ok? ==> WellShaped(r.value, |scores|, vocab)
  {
    if (topK.None? && topP.None?) || minKeep > vocab then
      Ok(NoFilter(scores, vocab))
    else if topK.Some? && topP.None? then
      Ok(TopKRows(scores, vocab, SafeSize(topK.value, minKeep, vocab)))
    else if topK.None? then
      TopPFilter(scores, vocab, None, topP.value, minKeep, cum)
    else if |scores| == 0 then
      Err(EmptyBatch)
    else
      TopPFilter(scores, vocab, Some(TopKRows(scores, vocab, SafeSize(topK.value, minKeep, vocab)).indices),
                 topP.value, minKeep, cum)
  }

  function TopKOf(a: Arg): Option<nat>
  {
    if a.IntArg? && a.i >= 0 then Some(a.i) else None
  }

  function TopPOf(a: Arg): Option<real>
  {
    if a.FloatArg? then Some(a.f) else None
  }

  /**
   * `top_k_top_p_filtering(scores, top_k, top_p, min_tokens_to_keep)` on the
   * Python arguments: validation first, then the decision of Filter. A
   * `None` min_tokens_to_keep only survives when nothing is to be filtered,
   * because the `or` at the first test short-circuits.
   */
  function TopKTopPFilter(scores: seq<seq<Score>>, vocab: nat, topK: Arg, topP: Arg, minKeep: Arg,
                          cum: seq<Score> -> seq<real>): (r: Result<Filtered>)
    requires IsMatrix(scores, |scores|, vocab) && CumShaped(cum)
    ensures Validate(topK, topP, minKeep).Err? ==> r == Err(Validate(topK, topP, minKeep).error)
    ensures Validate(topK, topP, minKeep).Ok? && minKeep.IntArg? && |scores| > 0 ==> r.Ok?
    ensures Validate(topK, topP, minKeep).Ok? && minKeep.IntArg? ==>
      r == Filter(scores, vocab, TopKOf(topK), TopPOf(topP), minKeep.i, cum)
    ensures Validate(topK, topP, minKeep).Ok? && minKeep.Absent? ==>
      r == if topK.Absent? && topP.Absent? then Ok(NoFilter(scores, vocab)) else Err(TypeMismatch)
    ensures r.Ok? ==> WellShaped(r.value, |scores|, vocab)
  {
    match Validate(topK, topP, minKeep)
    case Err(e) => Err(e)
    case Ok(_) =>
      if topK.Absent? && topP.Absent? then Ok(NoFilter(scores, vocab))
      else if minKeep.Absent? then Err(TypeMismatch)
      else Filter(scores, vocab, TopKOf(topK), TopPOf(topP), minKeep.i, cum)
  }

  /** The masking loop of `filter_by_top_p`: row i is overwritten with minus infinity from column `n[i]` on. */
  method MaskTails(m: array2<Score>, n: seq<nat>)
    requires |n| == m.Length0
    modifies m
    ensures forall i, j :: 0 <= i < m.Length0 && 0 <= j < m.Length1 ==>
      m[i, j] == (if j < n[i] then old(m[i, j]) else NegInf)
  {
    for i := 0 to m.Length0
      invariant forall r, c :: 0 <= r < m.Length0 && 0 <= c < m.Length1 ==>
        m[r, c] == (if r < i && c >= n[r] then NegInf else old(m[r, c]))
    {
      forall c | n[i] <= c < m.Length1 {
        m[i, c] := NegInf;
      }
    }
  }

  /**
   * `scores_to_keep` built as a fresh dense `B x w` matrix of the sorted
   * scores, then masked in place past each row's own keep count.
   */
  method MaskSorted(sorted: seq<seq<Score>>, w: nat, n: seq<nat>) returns (values: seq<seq<Score>>)
    requires |n| == |sorted| && forall i :: 0 <= i < |sorted| ==> w <= |sorted[i]|
    ensures values == MaskedRows(sorted, w, n)
  {
    var batch := |sorted|;
    var keep := new Score[batch, w]((i, j) requires 0 <= i < batch && 0 <= j < w => sorted[i][j]);
    MaskTails(keep, n);
    values := seq(batch, i requires 0 <= i < batch reads keep =>
                    seq(w, j requires 0 <= j < w reads keep => keep[i, j]));
    forall i | 0 <= i < batch ensures values[i] == MaskedRows(sorted, w, n)[i] {
      assert values[i] == MaskRow(sorted[i][..w], n[i]);
    }
  }

  /** `filter_by_top_p`, with `scores_to_keep` a fresh dense matrix masked in place. */
  method FilterByTopP(scores: seq<seq<Score>>, vocab: nat, pool: Option<seq<seq<nat>>>, p: real, minKeep: nat,
                      cum: seq<Score> -> seq<real>) returns (r: Result<Filtered>)
    requires TopPArgs(scores, vocab, pool, minKeep, cum)
    ensures r == TopPFilter(scores, vocab, pool, p, minKeep, cum)
  {
    if |scores| == 0 {
      return Err(EmptyBatch);
    }
    var batch, width := |scores|, PoolWidth(vocab, pool);
    var rows := PoolRows(scores, vocab, pool);
    var order := Orders(rows);
    var sorted := SortedRows(rows);
    var n := KeepCounts(sorted, width, p, minKeep, vocab, cum);
    var w := MaxOf(n);
    var values := MaskSorted(sorted, w, n);
    return Ok(Filtered(values, KeptIndices(order, w, pool)));
  }

  /** `top_k_top_p_filtering`: validation, then one of the four branches. */
  method TopKTopPFiltering(scores: seq<seq<Score>>, vocab: nat, topK: Arg, topP: Arg, minKeep: Arg,
                           cum: seq<Score> -> seq<real>) returns (r: Result<Filtered>)
    requires IsMatrix(scores, |scores|, vocab) && CumShaped(cum)
    ensures r == TopKTopPFilter(scores, vocab, topK, topP, minKeep, cum)
  {
    var v := Validate(topK, topP, minKeep);
    if v.Err? {
      return Err(v.error);
    }
    if topK.Absent? && topP.Absent? {
      return Ok(NoFilter(scores, vocab));
    }
    if minKeep.Absent? {
      return Err(TypeMismatch);
    }
    var m := minKeep.i;
    if m > vocab {
      return Ok(NoFilter(scores, vocab));
    }
    if topK.IntArg? && topP.Absent? {
      return Ok(TopKRows(scores, vocab, SafeSize(topK.i, m, vocab)));
    }
    if topK.Absent? {
      r := FilterByTopP(scores, vocab, None, topP.f, m, cum);
      return;
    }
    if |scores| == 0 {
      return Err(EmptyBatch);
    }
    var pool := TopKRows(scores, vocab, SafeSize(topK.i, m, vocab)).indices;
    r := FilterByTopP(scores, vocab, Some(pool), topP.f, m, cum);
  }
}
