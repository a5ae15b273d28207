/**
 * The combined top-k then top-p path restricts every row to row 0's top-k
 * ids, sorts each row on its own, and then maps row i's kept positions back
 * through row i's top-k ids at the positions row 0 kept. With more than one
 * row, a score and the id returned beside it can belong to different
 * vocabulary entries. This module exhibits that on a two-row batch and gives
 * the per-row version, for which every kept score is the score of its id.
 */
module PerRowTopKTopP {
  import opened Base
  import opened Sorting
  import opened Filtering

  /** Every unmasked score is the score, in the input, of the id returned beside it. */
  ghost predicate ScoresMatchIds(scores: seq<seq<Score>>, f: Filtered)
  {
    |f.values| == |scores| && |f.indices| == |scores| &&
    forall i, j :: 0 <= i < |scores| && 0 <= j < |f.values[i]| && f.values[i][j] != NegInf ==>
      j < |f.indices[i]| && f.indices[i][j] < |scores[i]| && f.values[i][j] == scores[i][f.indices[i][j]]
  }

  /** The combined path with each row restricted to, and mapped back through, its own top-k ids. */
  function TopPFilterPerRow(scores: seq<seq<Score>>, vocab: nat, pool: seq<seq<nat>>, p: real, minKeep: nat,
                            cum: seq<Score> -> seq<real>): (r: Result<Filtered>)
    requires IsMatrix(scores, |scores|, vocab) && CumShaped(cum) && |scores| > 0
    requires |pool| == |scores| && IsPool(pool, |scores|, |pool[0]|, vocab) && minKeep <= |pool[0]| <= vocab
    ensures r.Ok? && |r.value.values| == |scores| && IsMatrix(r.value.values, |scores|, |r.value.values[0]|)
    ensures IsMatrix(r.value.indices, |scores|, |r.value.values[0]|)
  {
    var batch, width := |scores|, |pool[0]|;
    var rows := PerRowPool(scores, pool);
    var sorted := SortedRows(rows);
    var n := KeepCounts(sorted, width, p, minKeep, vocab, cum);
    var w := MaxOf(n);
    var indices := seq(batch, i requires 0 <= i < batch => Select(pool[i], SortDesc(rows[i])[..w]));
    Ok(Filtered(MaskedRows(sorted, w, n), indices))
  }

  /** Row i restricted to its own pool ids. */
  function PerRowPool(scores: seq<seq<Score>>, pool: seq<seq<nat>>): (r: seq<seq<Score>>)
    requires |pool| == |scores|
    requires forall i, j :: 0 <= i < |scores| && 0 <= j < |pool[i]| ==> pool[i][j] < |scores[i]|
    ensures |r| == |scores| && forall i :: 0 <= i < |scores| ==> r[i] == Select(scores[i], pool[i])
  {
    seq(|scores|, i requires 0 <= i < |scores| => Select(scores[i], pool[i]))
  }

  /** In the per-row version every kept score is the score of its id, and every id is from the row's own pool. */
  lemma PerRowScoresMatchIds(scores: seq<seq<Score>>, vocab: nat, pool: seq<seq<nat>>, p: real, minKeep: nat,
                             cum: seq<Score> -> seq<real>)
    requires IsMatrix(scores, |scores|, vocab) && CumShaped(cum) && |scores| > 0
    requires |pool| == |scores| && IsPool(pool, |scores|, |pool[0]|, vocab) && minKeep <= |pool[0]| <= vocab
    ensures var f := TopPFilterPerRow(scores, vocab, pool, p, minKeep, cum).value;
      && ScoresMatchIds(scores, f)
      && forall i, j :: 0 <= i < |scores| && 0 <= j < |f.indices[i]| ==> f.indices[i][j] in pool[i]
  {
    var batch, width := |scores|, |pool[0]|;
    var rows := PerRowPool(scores, pool);
    var sorted := SortedRows(rows);
    var n := KeepCounts(sorted, width, p, minKeep, vocab, cum);
    var w := MaxOf(n);
    var f := TopPFilterPerRow(scores, vocab, pool, p, minKeep, cum).value;
    forall i, j | 0 <= i < batch && 0 <= j < w
      ensures f.indices[i][j] in pool[i]
      ensures f.values[i][j] == NegInf || f.values[i][j] == scores[i][f.indices[i][j]]
    {
      var order := SortDesc(rows[i]);
      assert IsPermutation(order, width);
      assert f.indices[i][j] == pool[i][order[j]];
      assert sorted[i][j] == rows[i][order[j]];
    }
  }

  /** For a batch of one row the per-row version is the path as written. */
  lemma PerRowAgreesOnOneRow(scores: seq<seq<Score>>, vocab: nat, pool: seq<seq<nat>>, p: real, minKeep: nat,
                             cum: seq<Score> -> seq<real>)
    requires IsMatrix(scores, 1, vocab) && CumShaped(cum)
    requires |pool| == 1 && IsPool(pool, 1, |pool[0]|, vocab) && minKeep <= |pool[0]| <= vocab
    ensures TopPFilterPerRow(scores, vocab, pool, p, minKeep, cum) == TopPFilter(scores, vocab, Some(pool), p, minKeep, cum)
  {
    var rows := PerRowPool(scores, pool);
    assert rows == PoolRows(scores, vocab, Some(pool));
    var order := Orders(rows);
    var n := KeepCounts(SortedRows(rows), |pool[0]|, p, minKeep, vocab, cum);
    var w := MaxOf(n);
    assert seq(1, i requires 0 <= i < 1 => Select(pool[i], SortDesc(rows[i])[..w])) == KeptIndices(order, w, Some(pool));
  }

  /** A position scoring strictly above every other position comes first in the descending order. */
  lemma SortHead(row: seq<Score>, v: nat)
    requires v < |row|
    requires forall u :: 0 <= u < |row| && u != v ==> !AtLeast(row[u], row[v])
    ensures SortDesc(row)[0] == v
  {
    var order := SortDesc(row);
    assert v in order;
    var b :| 0 <= b < |order| && order[b] == v;
    assert AtLeast(row[order[0]], row[order[b]]);
  }

  /** The strict runner-up comes second in the descending order. */
  lemma SortSecond(row: seq<Score>, v: nat, u: nat)
    requires v < |row| && u < |row| && u != v
    requires forall x :: 0 <= x < |row| && x != v ==> !AtLeast(row[x], row[v])
    requires forall x :: 0 <= x < |row| && x != v && x != u ==> !AtLeast(row[x], row[u])
    ensures SortDesc(row)[1] == u
  {
    SortHead(row, v);
    var order := SortDesc(row);
    assert u in order;
    var b :| 0 <= b < |order| && order[b] == u;
    assert b != 0;
    assert AtLeast(row[order[1]], row[order[b]]) && order[1] != order[0];
  }

  lemma CombinedUnfolds(scores: seq<seq<Score>>, vocab: nat, k: nat, p: real, minKeep: nat,
                        cum: seq<Score> -> seq<real>)
    requires IsMatrix(scores, |scores|, vocab) && CumShaped(cum)
    requires k >= 1 && minKeep <= vocab && |scores| > 0
    ensures var pool := TopKRows(scores, vocab, SafeSize(k, minKeep, vocab)).indices;
            var rows := PoolRows(scores, vocab, Some(pool));
            var sorted := SortedRows(rows);
            var n := KeepCounts(sorted, SafeSize(k, minKeep, vocab), p, minKeep, vocab, cum);
      Filter(scores, vocab, Some(k), Some(p), minKeep, cum)
        == Ok(Filtered(MaskedRows(sorted, MaxOf(n), n), KeptIndices(Orders(rows), MaxOf(n), Some(pool))))
  {
  }

  /** The top-2 pools of two rows holding a > b > c in opposite orders. */
  lemma OppositeRowsPool(scores: seq<seq<Score>>, a: real, b: real, c: real)
    requires a > b > c
    requires scores == [[Fin(a), Fin(b), Fin(c)], [Fin(c), Fin(b), Fin(a)]]
    ensures var pool := TopKRows(scores, 3, 2).indices;
      pool[0] == [0, 1] && pool[1][0] == 2
  {
    SortHead(scores[0], 0);
    SortSecond(scores[0], 0, 1);
    SortHead(scores[1], 2);
    var pool := TopKRows(scores, 3, 2).indices;
    assert pool[0] == TopKOrder(scores[0], 2);
    assert pool[1] == TopKOrder(scores[1], 2);
  }

  /** Restricted to row 0's pool, row 0 stays best-first and row 1's best entry is b, at position 1. */
  lemma OppositeRowsSorted(scores: seq<seq<Score>>, a: real, b: real, c: real, pool: seq<seq<nat>>)
    requires a > b > c
    requires scores == [[Fin(a), Fin(b), Fin(c)], [Fin(c), Fin(b), Fin(a)]]
    requires IsPool(pool, 2, 2, 3) && pool[0] == [0, 1]
    ensures var rows := PoolRows(scores, 3, Some(pool));
      Orders(rows)[0][0] == 0 && SortedRows(rows)[1][0] == Fin(b)
  {
    var rows := PoolRows(scores, 3, Some(pool));
    assert rows[0] == [Fin(a), Fin(b)] && rows[1] == [Fin(c), Fin(b)];
    SortHead(rows[0], 0);
    SortHead(rows[1], 1);
    assert SortedRows(rows)[1] == Select(rows[1], SortDesc(rows[1]));
  }

  /**
   * With a floor of at least one, position 0 of every row of the combined path
   * holds that row's best pooled score, beside row i's pool id at row 0's best
   * pooled position.
   */
  lemma CombinedHead(scores: seq<seq<Score>>, vocab: nat, k: nat, p: real, minKeep: nat,
                     cum: seq<Score> -> seq<real>)
    requires IsMatrix(scores, |scores|, vocab) && CumShaped(cum)
    requires k >= 1 && 1 <= minKeep <= vocab && |scores| > 0
    ensures var size := SafeSize(k, minKeep, vocab);
            var pool := TopKRows(scores, vocab, size).indices;
            var rows := PoolRows(scores, vocab, Some(pool));
            var f := Filter(scores, vocab, Some(k), Some(p), minKeep, cum);
      && f.Ok? && |f.value.values| == |scores| && |f.value.indices| == |scores|
      && forall i :: 0 <= i < |scores| ==>
           && |f.value.values[i]| > 0 && |f.value.indices[i]| > 0
           && f.value.values[i][0] == SortedRows(rows)[i][0]
           && f.value.indices[i][0] == pool[i][Orders(rows)[0][0]]
  {
    var size := SafeSize(k, minKeep, vocab);
    var pool := TopKRows(scores, vocab, size).indices;
    var rows := PoolRows(scores, vocab, Some(pool));
    var order := Orders(rows);
    var sorted := SortedRows(rows);
    var n := KeepCounts(sorted, size, p, minKeep, vocab, cum);
    var w := MaxOf(n);
    CombinedUnfolds(scores, vocab, k, p, minKeep, cum);
    var f := Filtered(MaskedRows(sorted, w, n), KeptIndices(order, w, Some(pool)));
    forall i | 0 <= i < |scores|
      ensures |f.values[i]| > 0 && |f.indices[i]| > 0
      ensures f.values[i][0] == sorted[i][0] && f.indices[i][0] == pool[i][order[0][0]]
    {
      assert n[i] >= 1 && n[0] <= w;
      assert f.values[i] == MaskRow(sorted[i][..w], n[i]);
      assert f.indices[i] == Select(pool[i], order[0][..w]);
    }
  }

  /**
   * Two rows over V = 3 holding the same three scores a > b > c in opposite
   * orders, top_k = 2 and min_tokens_to_keep = 1, whatever top_p and
   * cumulative probabilities: row 1 comes back with score b beside vocabulary
   * id 2, whose score is a.
   */
  lemma CombinedMismatchExample(scores: seq<seq<Score>>, a: real, b: real, c: real, p: real,
                                cum: seq<Score> -> seq<real>)
    requires a > b > c && CumShaped(cum)
    requires scores == [[Fin(a), Fin(b), Fin(c)], [Fin(c), Fin(b), Fin(a)]]
    ensures var f := Filter(scores, 3, Some(2), Some(p), 1, cum);
      && f.Ok? && f.value.values[1][0] == Fin(b) && f.value.indices[1][0] == 2 && scores[1][2] == Fin(a)
      && !ScoresMatchIds(scores, f.value)
  {
    assert SafeSize(2, 1, 3) == 2;
    OppositeRowsPool(scores, a, b, c);
    var pool := TopKRows(scores, 3, 2).indices;
    OppositeRowsSorted(scores, a, b, c, pool);
    CombinedHead(scores, 3, 2, p, 1, cum);
  }
}
