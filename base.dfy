/**
 * Shared vocabulary of the sampling model: extended-real scores, the error
 * outcomes of a generation call, and helpers over dense matrices (a batch of
 * rows of equal width).
 */
module Base {

  datatype Option<T> = None | Some(value: T)

  /** The ways a call into the sampling code can fail. */
  datatype Error =
    | InvalidParameter(name: string)  // a ValueError raised by a validator
    | TypeMismatch                    // `None > input_size` raises a TypeError
    | EmptyBatch                      // `max(...)` or `indices[0]` on an empty batch
    | NoCandidate                     // the multinomial draw finds no positive probability in a row

  datatype Result<T> = Ok(value: T) | Err(error: Error)

  /** A score (logit): a finite real, or minus infinity for a masked entry. */
  datatype Score = NegInf | Fin(x: real)

  /** `a >= b` on extended reals. */
  predicate AtLeast(a: Score, b: Score)
  {
    b.NegInf? || (a.Fin? && a.x >= b.x)
  }

  lemma AtLeastTotalOrder(a: Score, b: Score, c: Score)
    ensures AtLeast(a, a)
    ensures AtLeast(a, b) || AtLeast(b, a)
    ensures AtLeast(a, b) && AtLeast(b, c) ==> AtLeast(a, c)
    ensures AtLeast(a, b) && AtLeast(b, a) ==> a == b
  {
  }

  /** The list `0, 1, ..., n-1` (`torch.arange(n)`). */
  function Arange(n: nat): (r: seq<nat>)
    ensures |r| == n
    ensures forall i :: 0 <= i < n ==> r[i] == i
  {
    seq(n, i => i)
  }

  /** A dense `rows x cols` matrix. */
  predicate IsMatrix<T>(m: seq<seq<T>>, rows: nat, cols: nat)
  {
    |m| == rows && forall i :: 0 <= i < rows ==> |m[i]| == cols
  }

  /** The entries of `row` at `positions` (`torch.index_select` / `torch.gather` on one row). */
  function Select<T>(row: seq<T>, positions: seq<nat>): (r: seq<T>)
    requires forall j :: 0 <= j < |positions| ==> positions[j] < |row|
    ensures |r| == |positions|
    ensures forall j :: 0 <= j < |positions| ==> r[j] == row[positions[j]]
  {
    seq(|positions|, j requires 0 <= j < |positions| => row[positions[j]])
  }

  function Max(a: int, b: int): int
  {
    if a >= b then a else b
  }

  /** The largest element of a non-empty list (`max(n_to_keep)`). */
  function MaxOf(n: seq<nat>): (m: nat)
    requires |n| > 0
    ensures m in n
    ensures forall i :: 0 <= i < |n| ==> n[i] <= m
  {
    if |n| == 1 then n[0] else Max(n[0], MaxOf(n[1..]))
  }

  /** One token per row as a `B x 1` tensor. */
  function AsColumn(col: seq<int>): (r: seq<seq<int>>)
    ensures |r| == |col|
    ensures forall i :: 0 <= i < |col| ==> r[i] == [col[i]]
  {
    seq(|col|, i requires 0 <= i < |col| => [col[i]])
  }

  /** `torch.cat([m, col], dim=-1)`: one more token at the end of every row. */
  function AppendColumn(m: seq<seq<int>>, col: seq<int>): (r: seq<seq<int>>)
    requires |col| == |m|
    ensures |r| == |m|
    ensures forall i {:trigger r[i]} :: 0 <= i < |m| ==> r[i] == m[i] + [col[i]]
  {
    seq(|m|, i requires 0 <= i < |m| => m[i] + [col[i]])
  }

  /**
   * `torch.cat([m] + cols, dim=-1)`: the matrix `m` followed by the columns
   * `cols`, each holding one token per row.
   */
  function Cat(m: seq<seq<int>>, cols: seq<seq<int>>): (r: seq<seq<int>>)
    requires forall k :: 0 <= k < |cols| ==> |cols[k]| == |m|
    ensures |r| == |m|
    ensures forall i :: 0 <= i < |m| ==> |r[i]| == |m[i]| + |cols| && r[i][..|m[i]|] == m[i]
    ensures forall i, k :: 0 <= i < |m| && 0 <= k < |cols| ==> r[i][|m[i]| + k] == cols[k][i]
    decreases |cols|
  {
    if cols == [] then m
    else AppendColumn(Cat(m, cols[..|cols| - 1]), cols[|cols| - 1])
  }
}
