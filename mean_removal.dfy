/** Per-channel mean centering of the wind sequences (`remove_mean` of the
    wind driver): every channel of every sequence is shifted by the mean of
    that channel over all sequences and all time steps. */
module MeanRemoval {
  import opened Series

  /** Every sequence has `dims` channels of one common length. */
  predicate Shaped(Xs: seq<Matrix>, dims: nat)
  {
    forall i :: 0 <= i < |Xs| ==>
      |Xs[i]| == dims && forall d :: 0 <= d < dims ==> |Xs[i][d]| == |Xs[i][0]|
  }

  /** The summed sequence lengths, each read off its first channel. */
  function Count(Xs: seq<Matrix>): nat
    requires forall i :: 0 <= i < |Xs| ==> 0 < |Xs[i]|
  {
    if |Xs| == 0 then 0 else Count(Xs[..|Xs| - 1]) + |Xs[|Xs| - 1][0]|
  }

  /** The summed lengths of channel `d` over all sequences. */
  function RowLength(Xs: seq<Matrix>, d: nat): nat
    requires forall i :: 0 <= i < |Xs| ==> d < |Xs[i]|
  {
    if |Xs| == 0 then 0 else RowLength(Xs[..|Xs| - 1], d) + |Xs[|Xs| - 1][d]|
  }

  /** The sum of channel `d` over all sequences and time steps. */
  function ChannelTotal(Xs: seq<Matrix>, d: nat): real
    requires forall i :: 0 <= i < |Xs| ==> d < |Xs[i]|
  {
    if |Xs| == 0 then 0.0 else ChannelTotal(Xs[..|Xs| - 1], d) + Sum(Xs[|Xs| - 1][d])
  }

  /** The per-channel means: channel total over the summed sequence lengths. */
  function Means(Xs: seq<Matrix>, dims: nat): (m: seq<real>)
    requires 0 < dims && Shaped(Xs, dims) && 0 < Count(Xs)
    ensures |m| == dims
  {
    seq(dims, (d: int) requires 0 <= d < dims => ChannelTotal(Xs, d) / Count(Xs) as real)
  }

  /** A channel with the constant `c` taken off every entry. */
  function Shift(r: seq<real>, c: real): seq<real>
  {
    seq(|r|, (t: int) requires 0 <= t < |r| => r[t] - c)
  }

  /** Every sequence with `mean[d]` taken off every entry of channel `d`. */
  function CenterAll(Xs: seq<Matrix>, mean: seq<real>): seq<Matrix>
    requires forall i :: 0 <= i < |Xs| ==> |Xs[i]| <= |mean|
  {
    seq(|Xs|, (i: int) requires 0 <= i < |Xs| => CenterMatrix(Xs[i], mean))
  }

  function CenterMatrix(m: Matrix, mean: seq<real>): Matrix
    requires |m| <= |mean|
  {
    seq(|m|, (d: int) requires 0 <= d < |m| => Shift(m[d], mean[d]))
  }

  /** The sequences after `remove_mean`: as many as before, each of the same
      shape, with the same summed length. */
  function Centered(Xs: seq<Matrix>, dims: nat): (r: seq<Matrix>)
    requires 0 < dims && Shaped(Xs, dims) && 0 < Count(Xs)
    ensures |r| == |Xs| && Shaped(r, dims) && Count(r) == Count(Xs)
    ensures forall i, d :: 0 <= i < |Xs| && 0 <= d < dims ==> |r[i][d]| == |Xs[i][d]|
  {
    CenterAllCount(Xs, Means(Xs, dims));
    CenterAll(Xs, Means(Xs, dims))
  }

  // ---------------------------------------------------------------------
  // Properties

  /** The sum of `n` copies of `c`: the amount a shift by `c` takes off `n` entries. */
  function Copies(n: nat, c: real): real
  {
    if n == 0 then 0.0 else Copies(n - 1, c) + c
  }

  lemma {:induction false} CopiesAdd(p: nat, q: nat, c: real)
    ensures Copies(p + q, c) == Copies(p, c) + Copies(q, c)
  {
    if q > 0 {
      CopiesAdd(p, q - 1, c);
    }
  }

  lemma {:induction false} CopiesIsProduct(n: nat, c: real)
    ensures Copies(n, c) == n as real * c
  {
    if n > 0 {
      CopiesIsProduct(n - 1, c);
    }
  }

  /** Shifting every entry of a channel by `c` lowers its sum by `|r|` copies of `c`. */
  lemma {:induction false} SumShift(r: seq<real>, c: real)
    ensures Sum(Shift(r, c)) == Sum(r) - Copies(|r|, c)
  {
    if |r| > 0 {
      var n := |r| - 1;
      assert Shift(r, c)[..n] == Shift(r[..n], c);
      SumShift(r[..n], c);
    }
  }

  /** Centering by any `mean` lowers the total of channel `d` by one copy of
      `mean[d]` per time step. */
  lemma {:induction false} CenterAllTotal(Xs: seq<Matrix>, mean: seq<real>, d: nat)
    requires d < |mean|
    requires forall i :: 0 <= i < |Xs| ==> d < |Xs[i]| <= |mean|
    ensures ChannelTotal(CenterAll(Xs, mean), d)
         == ChannelTotal(Xs, d) - Copies(RowLength(Xs, d), mean[d])
  {
    if |Xs| > 0 {
      var n := |Xs| - 1;
      var c := CenterAll(Xs, mean);
      assert c[..n] == CenterAll(Xs[..n], mean);
      CenterAllTotal(Xs[..n], mean, d);
      assert c[n][d] == Shift(Xs[n][d], mean[d]);
      SumShift(Xs[n][d], mean[d]);
      CopiesAdd(RowLength(Xs[..n], d), |Xs[n][d]|, mean[d]);
    }
  }

  /** In shaped data every channel has the summed sequence length. */
  lemma {:induction false} RowLengthIsCount(Xs: seq<Matrix>, dims: nat, d: nat)
    requires Shaped(Xs, dims) && d < dims
    ensures RowLength(Xs, d) == Count(Xs)
  {
    if |Xs| > 0 {
      RowLengthIsCount(Xs[..|Xs| - 1], dims, d);
    }
  }

  /** Centering never changes the summed sequence length. */
  lemma {:induction false} CenterAllCount(Xs: seq<Matrix>, mean: seq<real>)
    requires forall i :: 0 <= i < |Xs| ==> 0 < |Xs[i]| <= |mean|
    ensures Count(CenterAll(Xs, mean)) == Count(Xs)
  {
    if |Xs| > 0 {
      var n := |Xs| - 1;
      assert CenterAll(Xs, mean)[..n] == CenterAll(Xs[..n], mean);
      CenterAllCount(Xs[..n], mean);
    }
  }

  /** Every entry of channel `d` loses the same constant: the channel total
      divided by the summed sequence lengths. */
  lemma CenteredEntry(Xs: seq<Matrix>, dims: nat, i: nat, d: nat, t: nat)
    requires 0 < dims && Shaped(Xs, dims) && 0 < Count(Xs)
    requires i < |Xs| && d < dims && t < |Xs[i][d]|
    ensures Xs[i][d][t] - Centered(Xs, dims)[i][d][t] == ChannelTotal(Xs, d) / Count(Xs) as real
  {
  }

  /** After centering, every channel sums to zero over all sequences and time steps. */
  lemma ChannelsSumToZero(Xs: seq<Matrix>, dims: nat, d: nat)
    requires 0 < dims && Shaped(Xs, dims) && 0 < Count(Xs) && d < dims
    ensures ChannelTotal(Centered(Xs, dims), d) == 0.0
  {
    CenterAllTotal(Xs, Means(Xs, dims), d);
    RowLengthIsCount(Xs, dims, d);
    CopiesIsProduct(Count(Xs), Means(Xs, dims)[d]);
    Cancel(Count(Xs) as real, ChannelTotal(Xs, d));
  }

  lemma Cancel(n: real, total: real)
    requires n != 0.0
    ensures n * (total / n) == total
  {
  }

  /** The mean recomputed after centering is zero in every channel. */
  lemma ResidualMeansZero(Xs: seq<Matrix>, dims: nat)
    requires 0 < dims && Shaped(Xs, dims) && 0 < Count(Xs)
    ensures Means(Centered(Xs, dims), dims) == seq(dims, _ => 0.0)
  {
    var Ys := Centered(Xs, dims);
    forall d | 0 <= d < dims
      ensures Means(Ys, dims)[d] == 0.0
    {
      ChannelsSumToZero(Xs, dims, d);
      ZeroOver(ChannelTotal(Ys, d), Count(Ys) as real);
    }
  }

  lemma ZeroOver(total: real, n: real)
    requires total == 0.0 && n != 0.0
    ensures total / n == 0.0
  {
  }

  /** Centering data that is already centered changes nothing. */
  lemma CenteredIdempotent(Xs: seq<Matrix>, dims: nat)
    requires 0 < dims && Shaped(Xs, dims) && 0 < Count(Xs)
    ensures Centered(Centered(Xs, dims), dims) == Centered(Xs, dims)
  {
    ResidualMeansZero(Xs, dims);
    var Ys := Centered(Xs, dims);
    forall i | 0 <= i < |Ys|
      ensures Centered(Ys, dims)[i] == Ys[i]
    {
      forall d | 0 <= d < dims
        ensures Centered(Ys, dims)[i][d] == Ys[i][d]
      {
      }
    }
  }

  // ---------------------------------------------------------------------
  // The in-place pass over the caller's matrices

  /** Arrays with `dims` channels each, seen as values, are shaped. */
  lemma SnapshotShaped(X: seq<array2<real>>, dims: nat)
    requires forall i :: 0 <= i < |X| ==> X[i].Length0 == dims
    ensures Shaped(Snapshot(X), dims)
  {
  }

  /** The summed sequence length of the values is the arrays' summed column count. */
  lemma {:induction false} CountIsColumns(X: seq<array2<real>>, dims: nat)
    requires 0 < dims
    requires forall i :: 0 <= i < |X| ==> X[i].Length0 == dims
    ensures Count(Snapshot(X)) == Columns(X)
  {
    if |X| > 0 {
      var n := |X| - 1;
      assert Snapshot(X)[..n] == Snapshot(X[..n]);
      CountIsColumns(X[..n], dims);
    }
  }

  /** The product `ones(1, lens) * m.trans()` of lines 28 and 39: the sum of
      every channel of one matrix. */
  method MatrixChannelSums(m: array2<real>) returns (sums: seq<real>)
    ensures |sums| == m.Length0
    ensures forall d :: 0 <= d < m.Length0 ==> sums[d] == Sum(Cells(m)[d])
  {
    sums := [];
    var d := 0;
    while d < m.Length0
      invariant 0 <= d <= m.Length0 && |sums| == d
      invariant forall e :: 0 <= e < d ==> sums[e] == Sum(Cells(m)[e])
    {
      ghost var row := Cells(m)[d];
      var rowSum := 0.0;
      var t := 0;
      while t < m.Length1
        invariant 0 <= t <= m.Length1
        invariant rowSum == Sum(row[..t])
      {
        SumStep(row, t);
        rowSum := rowSum + m[d, t];
        t := t + 1;
      }
      assert row[..m.Length1] == row;
      sums := sums + [rowSum];
      d := d + 1;
    }
  }

  /** One more sequence adds its length to the count and its channel sums to the totals. */
  lemma PrefixStep(Xs: seq<Matrix>, dims: nat, i: nat)
    requires 0 < dims && Shaped(Xs, dims) && i < |Xs|
    ensures Count(Xs[..i + 1]) == Count(Xs[..i]) + |Xs[i][0]|
    ensures forall d :: 0 <= d < dims ==>
      ChannelTotal(Xs[..i + 1], d) == ChannelTotal(Xs[..i], d) + Sum(Xs[i][d])
  {
    assert Xs[..i + 1][..i] == Xs[..i];
  }

  /** Lines 23-28: the summed sequence length and the per-channel totals,
      accumulated matrix by matrix. */
  method ChannelTotals(X: seq<array2<real>>, dims: nat) returns (cnt: nat, total: seq<real>)
    requires 0 < dims
    requires forall i :: 0 <= i < |X| ==> X[i].Length0 == dims
    ensures Shaped(Snapshot(X), dims) && cnt == Count(Snapshot(X))
    ensures |total| == dims && forall d :: 0 <= d < dims ==> total[d] == ChannelTotal(Snapshot(X), d)
  {
    ghost var S := Snapshot(X);
    SnapshotShaped(X, dims);
    cnt := 0;
    total := seq(dims, _ => 0.0);
    var i := 0;
    while i < |X|
      invariant 0 <= i <= |X| && |total| == dims
      invariant cnt == Count(S[..i])
      invariant forall d :: 0 <= d < dims ==> total[d] == ChannelTotal(S[..i], d)
      invariant Snapshot(X) == S
    {
      PrefixStep(S, dims, i);
      cnt := cnt + X[i].Length1;
      var sums := MatrixChannelSums(X[i]);
      total := seq(dims, (d: int) requires 0 <= d < dims => total[d] + sums[d]);
      i := i + 1;
    }
    assert S[..|X|] == S;
  }

  /** The channel means of lines 23-29 (and again 34-40): `cnt` is the summed
      sequence length and `mean[d]` the mean of channel `d`. */
  method ChannelMeans(X: seq<array2<real>>, dims: nat) returns (cnt: nat, mean: seq<real>)
    requires 0 < dims
    requires forall i :: 0 <= i < |X| ==> X[i].Length0 == dims
    requires 0 < Columns(X)
    ensures Shaped(Snapshot(X), dims) && cnt == Count(Snapshot(X)) == Columns(X)
    ensures mean == Means(Snapshot(X), dims)
  {
    var total;
    cnt, total := ChannelTotals(X, dims);
    CountIsColumns(X, dims);
    mean := seq(dims, (d: int) requires 0 <= d < dims => total[d] / cnt as real);
  }

  /** Lines 32-33 for one matrix: every entry of channel `d` loses `mean[d]`. */
  method CenterInPlace(m: array2<real>, mean: seq<real>)
    requires m.Length0 <= |mean|
    modifies m
    ensures Cells(m) == CenterMatrix(old(Cells(m)), mean)
  {
    ghost var before := Cells(m);
    var d := 0;
    while d < m.Length0
      invariant 0 <= d <= m.Length0
      invariant forall e, t :: 0 <= e < m.Length0 && 0 <= t < m.Length1 ==>
        m[e, t] == if e < d then before[e][t] - mean[e] else before[e][t]
    {
      var t := 0;
      while t < m.Length1
        invariant 0 <= t <= m.Length1
        invariant forall e, u :: 0 <= e < m.Length0 && 0 <= u < m.Length1 ==>
          m[e, u] == if e < d || (e == d && u < t) then before[e][u] - mean[e] else before[e][u]
      {
        m[d, t] := m[d, t] - mean[d];
        t := t + 1;
      }
      d := d + 1;
    }
    CellsEqual(m, CenterMatrix(before, mean));
  }

  /** Lines 31-33: every matrix of the list loses `mean` channel by channel,
      in place; the matrices are distinct, so each is centered once. */
  method CenterEach(X: seq<array2<real>>, mean: seq<real>)
    requires forall i :: 0 <= i < |X| ==> X[i].Length0 <= |mean|
    requires forall i, j :: 0 <= i < j < |X| ==> X[i] != X[j]
    modifies Frame(X)
    ensures Snapshot(X) == CenterAll(old(Snapshot(X)), mean)
  {
    ghost var S := Snapshot(X);
    var i := 0;
    while i < |X|
      invariant 0 <= i <= |X|
      invariant forall j :: 0 <= j < i ==> Cells(X[j]) == CenterMatrix(S[j], mean)
      invariant forall j :: i <= j < |X| ==> Cells(X[j]) == S[j]
    {
      label Before:
      CenterInPlace(X[i], mean);
      forall j | 0 <= j < |X| && j != i
        ensures Cells(X[j]) == old@Before(Cells(X[j]))
      {
        assert X[j] != X[i];
      }
      i := i + 1;
    }
    assert Snapshot(X) == CenterAll(S, mean);
  }

  /** `remove_mean`: centers every channel of the caller's matrices in place,
      returns the same list, and returns the mean recomputed afterwards. */
  method RemoveMean(X: seq<array2<real>>, dims: nat) returns (Y: seq<array2<real>>, residual: seq<real>)
    requires 0 < dims
    requires forall i :: 0 <= i < |X| ==> X[i].Length0 == dims
    requires forall i, j :: 0 <= i < j < |X| ==> X[i] != X[j]
    requires 0 < Columns(X)
    modifies Frame(X)
    ensures Y == X
    ensures old(Shaped(Snapshot(X), dims) && 0 < Count(Snapshot(X)))
    ensures Snapshot(X) == Centered(old(Snapshot(X)), dims)
    ensures residual == seq(dims, _ => 0.0)
  {
    ghost var S := Snapshot(X);
    var cnt, mean := ChannelMeans(X, dims);
    CenterEach(X, mean);
    var cnt2;
    cnt2, residual := ChannelMeans(X, dims);
    ResidualMeansZero(S, dims);
    Y := X;
  }
}
