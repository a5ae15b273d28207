/**
 * The per-step choices of the decode loops: temperature scaling, the
 * multinomial draw (a choice among the positions of positive probability),
 * `torch.gather` of the drawn positions, and `torch.argmax`.
 */
module Sampler {
  import opened Base
  import opened Sorting

  /** One score divided by a positive temperature; minus infinity stays minus infinity. */
  function ScaleScore(s: Score, t: real): Score
    requires t > 0.0
  {
    match s
    case NegInf => NegInf
    case Fin(x) => Fin(x / t)
  }

  function ScaleRow(row: seq<Score>, t: real): (r: seq<Score>)
    requires t > 0.0
    ensures |r| == |row|
    ensures forall j :: 0 <= j < |row| ==> r[j] == ScaleScore(row[j], t)
  {
    seq(|row|, j requires 0 <= j < |row| => ScaleScore(row[j], t))
  }

  /** `next_token_scores /= temperature`: every row divided by the temperature (LlamaDecoding.Tempered skips it at 1.0). */
  function Scale(scores: seq<seq<Score>>, t: real): (r: seq<seq<Score>>)
    requires t > 0.0
    ensures |r| == |scores|
    ensures forall i :: 0 <= i < |scores| ==> r[i] == ScaleRow(scores[i], t)
  {
    seq(|scores|, i requires 0 <= i < |scores| => ScaleRow(scores[i], t))
  }

  /** Dividing by a positive temperature neither creates nor reverses an order between two scores. */
  lemma ScalePreservesOrder(a: Score, b: Score, t: real)
    requires t > 0.0
    ensures AtLeast(ScaleScore(a, t), ScaleScore(b, t)) <==> AtLeast(a, b)
    ensures ScaleScore(a, t).Fin? <==> a.Fin?
  {
    if a.Fin? && b.Fin? {
      if a.x >= b.x {
        assert a.x / t - b.x / t == (a.x - b.x) / t;
      } else {
        assert b.x / t - a.x / t == (b.x - a.x) / t;
      }
    }
  }

  /** A temperature of 1.0 changes nothing. */
  lemma ScaleByOne(scores: seq<seq<Score>>)
    ensures Scale(scores, 1.0) == scores
  {
    forall i | 0 <= i < |scores| ensures Scale(scores, 1.0)[i] == scores[i] {
      forall j | 0 <= j < |scores[i]| ensures ScaleRow(scores[i], 1.0)[j] == scores[i][j] {
        if scores[i][j].Fin? {
          assert scores[i][j].x / 1.0 == scores[i][j].x;
        }
      }
    }
  }

  lemma {:induction false} ScaleKeepsInsert(row: seq<Score>, s: seq<nat>, i: nat, t: real)
    requires t > 0.0 && InRange(s, |row|) && i < |row|
    ensures Insert(ScaleRow(row, t), s, i) == Insert(row, s, i)
    decreases |s|
  {
    if s != [] {
      ScalePreservesOrder(row[s[0]], row[i], t);
      ScaleKeepsInsert(row, s[1..], i, t);
    }
  }

  lemma {:induction false} ScaleKeepsSortPrefix(row: seq<Score>, n: nat, t: real)
    requires t > 0.0 && n <= |row|
    ensures SortPrefix(ScaleRow(row, t), n) == SortPrefix(row, n)
  {
    if n > 0 {
      ScaleKeepsSortPrefix(row, n - 1, t);
      ScaleKeepsInsert(row, SortPrefix(row, n - 1), n - 1, t);
    }
  }

  /**
   * A positive temperature never changes the model's stable descending order
   * of a row, so the model's top-k keeps the same ids; only the cumulative
   * probabilities move. For a row with tied scores this compares the model's
   * own tie-break; ScaleKeepsRanking states what holds whatever the tie-break.
   */
  lemma ScaleKeepsSort(row: seq<Score>, t: real)
    requires t > 0.0
    ensures SortDesc(ScaleRow(row, t)) == SortDesc(row)
  {
    ScaleKeepsSortPrefix(row, |row|, t);
  }

  /**
   * Whatever order a sort picks among ties: a list of positions is in
   * descending order of the tempered row iff it is in descending order of
   * the row, and a set of kept positions that no dropped position beats in
   * the tempered row is one that no dropped position beats in the row.
   */
  lemma ScaleKeepsRanking(row: seq<Score>, s: seq<nat>, t: real)
    requires t > 0.0 && InRange(s, |row|)
    ensures Descending(ScaleRow(row, t), s) <==> Descending(row, s)
    ensures (forall v: nat, j :: v < |row| && v !in s && 0 <= j < |s| ==> AtLeast(ScaleRow(row, t)[s[j]], ScaleRow(row, t)[v]))
        <==> (forall v: nat, j :: v < |row| && v !in s && 0 <= j < |s| ==> AtLeast(row[s[j]], row[v]))
  {
    var scaled := ScaleRow(row, t);
    forall a, b | 0 <= a < |row| && 0 <= b < |row|
      ensures AtLeast(scaled[a], scaled[b]) <==> AtLeast(row[a], row[b])
    {
      ScalePreservesOrder(row[a], row[b], t);
    }
  }

  /** A row from which a multinomial draw is possible: some score is finite, so its probability is positive. */
  predicate HasCandidate(row: seq<Score>)
  {
    exists j :: 0 <= j < |row| && row[j].Fin?
  }

  /**
   * `torch.multinomial(softmax(values), num_samples=1)`: one position per row
   * whose probability is positive. A row in which every score is minus
   * infinity has no such position and the draw fails.
   */
  method Multinomial(values: seq<seq<Score>>) returns (r: Result<seq<nat>>)
    ensures r.Ok? <==> forall i :: 0 <= i < |values| ==> HasCandidate(values[i])
    ensures r.Err? ==> r.error == NoCandidate
    ensures r.Ok? ==> |r.value| == |values|
    ensures r.Ok? ==> forall i :: 0 <= i < |values| ==> r.value[i] < |values[i]| && values[i][r.value[i]].Fin?
  {
    var picks: seq<nat> := [];
    for i := 0 to |values|
      invariant |picks| == i
      invariant forall k :: 0 <= k < i ==> HasCandidate(values[k])
      invariant forall k :: 0 <= k < i ==> picks[k] < |values[k]| && values[k][picks[k]].Fin?
    {
      if !HasCandidate(values[i]) {
        return Err(NoCandidate);
      }
      var p :| 0 <= p < |values[i]| && values[i][p].Fin?;
      picks := picks + [p];
    }
    return Ok(picks);
  }

  /** `torch.gather(ids, 1, picks)`: row i's id at its drawn position. */
  function Gather(ids: seq<seq<nat>>, picks: seq<nat>): (r: seq<int>)
    requires |picks| == |ids| && forall i :: 0 <= i < |ids| ==> picks[i] < |ids[i]|
    ensures |r| == |ids|
    ensures forall i :: 0 <= i < |ids| ==> r[i] == ids[i][picks[i]]
  {
    seq(|ids|, i requires 0 <= i < |ids| => ids[i][picks[i]])
  }

  /** The position of the first maximal score of a non-empty row (`torch.argmax`). */
  function Argmax(row: seq<Score>): (r: nat)
    requires |row| > 0
    ensures r < |row|
    ensures forall j :: 0 <= j < |row| ==> AtLeast(row[r], row[j])
    ensures forall j :: 0 <= j < r ==> !AtLeast(row[j], row[r])
  {
    if |row| == 1 then 0
    else
      var m := 1 + Argmax(row[1..]);
      assert forall j :: 1 <= j < |row| ==> row[j] == row[1..][j - 1];
      AtLeastTotalOrder(row[0], row[m], row[m]);
      if AtLeast(row[0], row[m]) then
        forall j | 1 <= j < |row| ensures AtLeast(row[0], row[j]) {
          AtLeastTotalOrder(row[0], row[m], row[j]);
        }
        0
      else m
  }

  /** `torch.argmax(scores, dim=1)`: the first maximal position of each row. */
  function ArgmaxRows(scores: seq<seq<Score>>): (r: seq<int>)
    requires forall i :: 0 <= i < |scores| ==> |scores[i]| > 0
    ensures |r| == |scores|
    ensures forall i :: 0 <= i < |scores| ==> r[i] == Argmax(scores[i])
  {
    seq(|scores|, i requires 0 <= i < |scores| => Argmax(scores[i]))
  }
}
