/**
 * What `top_k_top_p_filtering` guarantees, branch by branch: the clamp, the
 * untouched pass-through, top-k selection, the nucleus cut and its masking,
 * and the combined path (whose pool and index mapping come from row 0).
 */
module FilteringProps {
  import opened Base
  import opened Sorting
  import opened Filtering

  /** The positions before `k` in a descending order score at least as high as any position not among them. */
  lemma PrefixDominates(row: seq<Score>, k: nat, v: nat, j: nat)
    requires k <= |row| && v < |row| && j < k
    requires v !in SortDesc(row)[..k]
    ensures AtLeast(row[SortDesc(row)[j]], row[v])
  {
    var order := SortDesc(row);
    assert order == order[..k] + order[k..];
    assert v in order;
    assert v in order[k..];
    var b :| 0 <= b < |order[k..]| && order[k..][b] == v;
    assert order[k + b] == v;
  }

  /** `torch.topk` on one row: k distinct ids, best first, and none dropped beats one kept. */
  lemma TopKSelects(row: seq<Score>, k: nat)
    requires k <= |row|
    ensures var idx := TopKOrder(row, k);
      && Distinct(idx)
      && (forall a, b :: 0 <= a < b < k ==> AtLeast(row[idx[a]], row[idx[b]]))
      && (forall v: nat, j :: v < |row| && v !in idx && 0 <= j < k ==> AtLeast(row[idx[j]], row[v]))
  {
    var idx := TopKOrder(row, k);
    forall v: nat, j | v < |row| && v !in idx && 0 <= j < k ensures AtLeast(row[idx[j]], row[v]) {
      PrefixDominates(row, k, v, j);
    }
  }

  /** With neither parameter set, or a floor above V, the scores come back untouched with identity ids. */
  lemma NothingToFilter(scores: seq<seq<Score>>, vocab: nat, topK: Option<nat>, topP: Option<real>, minKeep: nat,
                        cum: seq<Score> -> seq<real>)
    requires IsMatrix(scores, |scores|, vocab) && CumShaped(cum)
    requires (topK.None? && topP.None?) || minKeep > vocab
    ensures Filter(scores, vocab, topK, topP, minKeep, cum).Ok?
    ensures Filter(scores, vocab, topK, topP, minKeep, cum).value.values == scores
    ensures forall i :: 0 <= i < |scores| ==> Filter(scores, vocab, topK, topP, minKeep, cum).value.indices[i] == Arange(vocab)
  {
  }

  /**
   * Top-k only: each row keeps exactly `safe_size(top_k)` distinct ids, with
   * their own scores, in descending order, and every kept score is at least
   * every dropped one.
   */
  lemma TopKOnlyPath(scores: seq<seq<Score>>, vocab: nat, k: nat, minKeep: nat, cum: seq<Score> -> seq<real>)
    requires IsMatrix(scores, |scores|, vocab) && CumShaped(cum)
    requires k >= 1 && minKeep <= vocab
    ensures Filter(scores, vocab, Some(k), None, minKeep, cum).Ok?
    ensures var f := Filter(scores, vocab, Some(k), None, minKeep, cum).value;
            var size := SafeSize(k, minKeep, vocab);
      forall i :: 0 <= i < |scores| ==>
        && |f.values[i]| == size && |f.indices[i]| == size
        && Distinct(f.indices[i])
        && (forall j :: 0 <= j < size ==> f.indices[i][j] < vocab && f.values[i][j] == scores[i][f.indices[i][j]])
        && (forall a, b :: 0 <= a < b < size ==> AtLeast(f.values[i][a], f.values[i][b]))
        && (forall v: nat, j :: v < vocab && v !in f.indices[i] && 0 <= j < size ==> AtLeast(f.values[i][j], scores[i][v]))
  {
    var size := SafeSize(k, minKeep, vocab);
    var f := TopKRows(scores, vocab, size);
    forall i | 0 <= i < |scores| ensures
        && Distinct(f.indices[i])
        && (forall j :: 0 <= j < size ==> f.values[i][j] == scores[i][f.indices[i][j]])
        && (forall a, b :: 0 <= a < b < size ==> AtLeast(f.values[i][a], f.values[i][b]))
        && (forall v: nat, j :: v < vocab && v !in f.indices[i] && 0 <= j < size ==> AtLeast(f.values[i][j], scores[i][v]))
    {
      TopKSelects(scores[i], size);
    }
  }

  /** With non-decreasing cumulative probabilities, the entries at most `p` are exactly a prefix of length CountAtMost. */
  lemma {:induction false} CountIsPrefix(cs: seq<real>, p: real)
    requires forall a, b :: 0 <= a < b < |cs| ==> cs[a] <= cs[b]
    ensures forall j :: 0 <= j < |cs| ==> (j < CountAtMost(cs, p) <==> cs[j] <= p)
  {
    if cs != [] {
      CountIsPrefix(cs[1..], p);
      forall j | 0 <= j < |cs| ensures j < CountAtMost(cs, p) <==> cs[j] <= p {
        if j > 0 {
          assert cs[1..][j - 1] == cs[j];
        } else if cs[0] > p && |cs| > 1 {
          assert cs[1..][0] > p;
        }
      }
    }
  }

  /** A larger `top_p` never counts fewer entries. */
  lemma {:induction false} CountMonotone(cs: seq<real>, p: real, q: real)
    requires p <= q
    ensures CountAtMost(cs, p) <= CountAtMost(cs, q)
  {
    if cs != [] {
      CountMonotone(cs[1..], p, q);
    }
  }

  /** Raising `top_p` never shrinks a row's keep count. */
  lemma KeepCountMonotone(sortedRow: seq<Score>, p: real, q: real, minKeep: nat, vocab: nat,
                          cum: seq<Score> -> seq<real>)
    requires p <= q
    ensures NToKeep(sortedRow, p, minKeep, vocab, cum) <= NToKeep(sortedRow, q, minKeep, vocab, cum)
  {
    CountMonotone(cum(sortedRow), p, q);
  }

  /**
   * The nucleus cut keeps exactly the sorted entries whose cumulative
   * probability is at most `top_p` whenever the floor does not bind: the first
   * entry whose cumulative probability exceeds `top_p` is dropped, not added.
   */
  lemma NucleusCut(sortedRow: seq<Score>, p: real, minKeep: nat, vocab: nat, cum: seq<Score> -> seq<real>)
    requires CumShaped(cum) && |sortedRow| <= vocab
    requires forall a, b :: 0 <= a < b < |sortedRow| ==> cum(sortedRow)[a] <= cum(sortedRow)[b]
    requires minKeep <= CountAtMost(cum(sortedRow), p)
    ensures forall j :: 0 <= j < |sortedRow| ==>
      (j < NToKeep(sortedRow, p, minKeep, vocab, cum) <==> cum(sortedRow)[j] <= p)
  {
    CountIsPrefix(cum(sortedRow), p);
  }

  /** Sorted scores are the row's scores at the sorted positions, in non-increasing order. */
  lemma SortedRowFacts(row: seq<Score>)
    ensures forall j :: 0 <= j < |row| ==> SortedRow(row)[j] == row[SortDesc(row)[j]]
    ensures forall a, b :: 0 <= a < b < |row| ==> AtLeast(SortedRow(row)[a], SortedRow(row)[b])
  {
  }

  /**
   * Top-p only: the width is the largest keep count; in row i the first
   * `n_to_keep[i]` entries are the row's best scores with their own ids,
   * everything after is minus infinity, and no id outside the kept prefix
   * scores higher than a kept one.
   */
  lemma TopPOnlyPath(scores: seq<seq<Score>>, vocab: nat, p: real, minKeep: nat, cum: seq<Score> -> seq<real>)
    requires IsMatrix(scores, |scores|, vocab) && CumShaped(cum)
    requires minKeep <= vocab && |scores| > 0
    ensures Filter(scores, vocab, None, Some(p), minKeep, cum).Ok?
    ensures var f := Filter(scores, vocab, None, Some(p), minKeep, cum).value;
            var n := KeepCounts(SortedRows(scores), vocab, p, minKeep, vocab, cum);
      forall i :: 0 <= i < |scores| ==>
        && |f.values[i]| == MaxOf(n) && |f.indices[i]| == MaxOf(n)
        && n[i] == NToKeep(SortedRow(scores[i]), p, minKeep, vocab, cum)
        && Distinct(f.indices[i])
        && (forall j :: 0 <= j < MaxOf(n) ==>
              f.values[i][j] == if j < n[i] then scores[i][f.indices[i][j]] else NegInf)
        && (forall a, b :: 0 <= a < b < MaxOf(n) ==> AtLeast(f.values[i][a], f.values[i][b]))
        && (forall v: nat, j :: v < vocab && v !in f.indices[i][..n[i]] && 0 <= j < n[i] ==>
              AtLeast(f.values[i][j], scores[i][v]))
  {
    var sorted := SortedRows(scores);
    var n := KeepCounts(sorted, vocab, p, minKeep, vocab, cum);
    var w := MaxOf(n);
    var f := Filter(scores, vocab, None, Some(p), minKeep, cum).value;
    assert f == Filtered(MaskedRows(sorted, w, n), KeptIndices(Orders(scores), w, None));
    forall i | 0 <= i < |scores| ensures
        && Distinct(f.indices[i])
        && (forall j :: 0 <= j < w ==> f.values[i][j] == if j < n[i] then scores[i][f.indices[i][j]] else NegInf)
        && (forall a, b :: 0 <= a < b < w ==> AtLeast(f.values[i][a], f.values[i][b]))
        && (forall v: nat, j :: v < vocab && v !in f.indices[i][..n[i]] && 0 <= j < n[i] ==>
              AtLeast(f.values[i][j], scores[i][v]))
    {
      assert n[i] in n;
      TopPRow(scores[i], w, n[i], f.values[i], f.indices[i]);
    }
  }

  /** One row of the nucleus cut on whole rows: the masked sorted scores beside the sorted ids. */
  lemma TopPRow(row: seq<Score>, w: nat, keep: nat, values: seq<Score>, ids: seq<nat>)
    requires keep <= w <= |row|
    requires values == MaskRow(SortedRow(row)[..w], keep) && ids == SortDesc(row)[..w]
    ensures Distinct(ids)
    ensures forall j :: 0 <= j < w ==> values[j] == if j < keep then row[ids[j]] else NegInf
    ensures forall a, b :: 0 <= a < b < w ==> AtLeast(values[a], values[b])
    ensures forall v: nat, j :: v < |row| && v !in ids[..keep] && 0 <= j < keep ==> AtLeast(values[j], row[v])
  {
    SortedRowFacts(row);
    assert ids[..keep] == SortDesc(row)[..keep];
    forall v: nat, j | v < |row| && v !in ids[..keep] && 0 <= j < keep ensures AtLeast(values[j], row[v]) {
      PrefixDominates(row, keep, v, j);
    }
  }

  /**
   * With a floor of at least one (the default), position 0 of every row is
   * never masked and holds the row's maximum, so a row with any finite score
   * keeps a finite candidate.
   */
  lemma TopPKeepsBest(scores: seq<seq<Score>>, vocab: nat, p: real, minKeep: nat, cum: seq<Score> -> seq<real>)
    requires IsMatrix(scores, |scores|, vocab) && CumShaped(cum)
    requires 1 <= minKeep <= vocab && |scores| > 0
    ensures Filter(scores, vocab, None, Some(p), minKeep, cum).Ok?
    ensures var f := Filter(scores, vocab, None, Some(p), minKeep, cum).value;
      forall i :: 0 <= i < |scores| ==>
        |f.values[i]| > 0 && forall v :: 0 <= v < vocab ==> AtLeast(f.values[i][0], scores[i][v])
  {
    TopPOnlyPath(scores, vocab, p, minKeep, cum);
    var f := Filter(scores, vocab, None, Some(p), minKeep, cum).value;
    forall i, v | 0 <= i < |scores| && 0 <= v < vocab ensures AtLeast(f.values[i][0], scores[i][v]) {
      var order := SortDesc(scores[i]);
      assert f.values[i][0] == scores[i][order[0]];
      assert v in order;
      var b :| 0 <= b < |order| && order[b] == v;
      if b > 0 {
        assert Descending(scores[i], order);
      }
    }
  }

  /**
   * Top-k then top-p: the width never exceeds `safe_size(top_k)`; every id
   * returned for row i is one of row i's top-k ids; and in row 0, every
   * unmasked score is the score of the id beside it.
   */
  lemma CombinedPath(scores: seq<seq<Score>>, vocab: nat, k: nat, p: real, minKeep: nat,
                     cum: seq<Score> -> seq<real>)
    requires IsMatrix(scores, |scores|, vocab) && CumShaped(cum)
    requires k >= 1 && minKeep <= vocab && |scores| > 0
    ensures Filter(scores, vocab, Some(k), Some(p), minKeep, cum).Ok?
    ensures var f := Filter(scores, vocab, Some(k), Some(p), minKeep, cum).value;
            var size := SafeSize(k, minKeep, vocab);
      && |f.values[0]| <= size
      && (forall i, j :: 0 <= i < |scores| && 0 <= j < |f.indices[i]| ==>
            f.indices[i][j] in TopKOrder(scores[i], size))
      && (forall j :: 0 <= j < |f.values[0]| && f.values[0][j] != NegInf ==>
            f.values[0][j] == scores[0][f.indices[0][j]])
  {
    var size := SafeSize(k, minKeep, vocab);
    var pool := TopKRows(scores, vocab, size).indices;
    var rows := PoolRows(scores, vocab, Some(pool));
    var order := Orders(rows);
    var sorted := SortedRows(rows);
    var n := KeepCounts(sorted, size, p, minKeep, vocab, cum);
    var w := MaxOf(n);
    var f := Filter(scores, vocab, Some(k), Some(p), minKeep, cum).value;
    assert f == Filtered(MaskedRows(sorted, w, n), KeptIndices(order, w, Some(pool)));
    assert IsPermutation(order[0], size);
    forall i, j | 0 <= i < |scores| && 0 <= j < |f.indices[i]| ensures f.indices[i][j] in TopKOrder(scores[i], size) {
      assert f.indices[i][j] == pool[i][order[0][j]];
    }
    forall j | 0 <= j < w && f.values[0][j] != NegInf ensures f.values[0][j] == scores[0][f.indices[0][j]] {
      assert f.values[0][j] == sorted[0][j] == rows[0][order[0][j]];
    }
  }
}
