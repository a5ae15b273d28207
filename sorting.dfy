/**
 * Descending sort of a score row, returning the permutation of positions
 * (`torch.sort(..., descending=True)` and the order behind `torch.topk`).
 * Ties are broken stably here. Only Sampler.ScaleKeepsSort compares two of
 * these stable orders; Sampler.ScaleKeepsRanking states the same fact for any
 * tie-break.
 */
module Sorting {
  import opened Base

  predicate InRange(s: seq<nat>, n: nat)
  {
    forall j :: 0 <= j < |s| ==> s[j] < n
  }

  predicate Distinct(s: seq<nat>)
  {
    forall a, b :: 0 <= a < b < |s| ==> s[a] != s[b]
  }

  /** The scores of `row` at the positions `s` never increase. */
  predicate Descending(row: seq<Score>, s: seq<nat>)
    requires InRange(s, |row|)
  {
    forall a, b :: 0 <= a < b < |s| ==> AtLeast(row[s[a]], row[s[b]])
  }

  /** `s` lists each position of `0..n-1` exactly once. */
  ghost predicate IsPermutation(s: seq<nat>, n: nat)
  {
    |s| == n && InRange(s, n) && Distinct(s) && forall x: nat :: x in s <==> x < n
  }

  /** Insert position `i` into the list `s`, after every leading position scoring at least as high. */
  function Insert(row: seq<Score>, s: seq<nat>, i: nat): (r: seq<nat>)
    requires InRange(s, |row|) && i < |row|
    ensures |r| == |s| + 1
    ensures forall x :: x in r <==> x in s || x == i
    decreases |s|
  {
    if s == [] then [i]
    else if AtLeast(row[s[0]], row[i]) then
      var rest := Insert(row, s[1..], i);
      assert s == [s[0]] + s[1..];
      [s[0]] + rest
    else
      [i] + s
  }

  /** Inserting into a descending list keeps it descending. */
  lemma {:induction false} InsertDescending(row: seq<Score>, s: seq<nat>, i: nat)
    requires InRange(s, |row|) && i < |row|
    requires Descending(row, s)
    ensures InRange(Insert(row, s, i), |row|)
    ensures Descending(row, Insert(row, s, i))
    decreases |s|
  {
    var r := Insert(row, s, i);
    assert InRange(r, |row|) by {
      forall j | 0 <= j < |r| ensures r[j] < |row| { assert r[j] in r; }
    }
    if s == [] {
    } else if AtLeast(row[s[0]], row[i]) {
      var rest := Insert(row, s[1..], i);
      InsertDescending(row, s[1..], i);
      assert r == [s[0]] + rest;
      forall a, b | 0 <= a < b < |r| ensures AtLeast(row[r[a]], row[r[b]]) {
        if a == 0 {
          var x := rest[b - 1];
          assert x in rest;
          if x != i {
            var c :| 0 <= c < |s[1..]| && s[1..][c] == x;
            assert s[c + 1] == x;
          }
        } else {
          assert r[a] == rest[a - 1] && r[b] == rest[b - 1];
        }
      }
    } else {
      assert r == [i] + s;
      AtLeastTotalOrder(row[i], row[s[0]], row[s[0]]);
      forall a, b | 0 <= a < b < |r| ensures AtLeast(row[r[a]], row[r[b]]) {
        if a == 0 {
          if b > 1 { AtLeastTotalOrder(row[i], row[s[0]], row[s[b - 1]]); }
        } else {
          assert r[a] == s[a - 1] && r[b] == s[b - 1];
        }
      }
    }
  }

  /** Inserting a position not yet listed keeps the list free of repeats. */
  lemma {:induction false} InsertDistinct(row: seq<Score>, s: seq<nat>, i: nat)
    requires InRange(s, |row|) && i < |row|
    requires Distinct(s) && i !in s
    ensures Distinct(Insert(row, s, i))
    decreases |s|
  {
    var r := Insert(row, s, i);
    if s == [] {
    } else if AtLeast(row[s[0]], row[i]) {
      var rest := Insert(row, s[1..], i);
      assert s == [s[0]] + s[1..];
      InsertDistinct(row, s[1..], i);
      assert r == [s[0]] + rest;
      forall a, b | 0 <= a < b < |r| ensures r[a] != r[b] {
        if a == 0 {
          assert r[b] in rest;
        } else {
          assert r[a] == rest[a - 1] && r[b] == rest[b - 1];
        }
      }
    } else {
      assert r == [i] + s;
      forall a, b | 0 <= a < b < |r| ensures r[a] != r[b] {
        if a == 0 {
          assert r[b] in s;
        } else {
          assert r[a] == s[a - 1] && r[b] == s[b - 1];
        }
      }
    }
  }

  /** The positions `0..n-1` of `row`, sorted by descending score. */
  function SortPrefix(row: seq<Score>, n: nat): (r: seq<nat>)
    requires n <= |row|
    ensures InRange(r, |row|) && Descending(row, r) && IsPermutation(r, n)
  {
    if n == 0 then []
    else
      var s := SortPrefix(row, n - 1);
      var r := Insert(row, s, n - 1);
      InsertDescending(row, s, n - 1);
      InsertDistinct(row, s, n - 1);
      assert forall j :: 0 <= j < |r| ==> r[j] < n by {
        forall j | 0 <= j < |r| ensures r[j] < n { assert r[j] in r; }
      }
      r
  }

  /** The positions of `row`, sorted by descending score. */
  function SortDesc(row: seq<Score>): (r: seq<nat>)
    ensures IsPermutation(r, |row|) && Descending(row, r)
  {
    SortPrefix(row, |row|)
  }
}
