/** Sums of exact reals and value views of the two-dimensional arrays that
    stand for the numeric matrices of the driver (channel rows, time columns). */
module Series {

  /** A matrix as a value: one sequence per channel, indexed by time step. */
  type Matrix = seq<seq<real>>

  /** The sum of a sequence, peeling off its last element. */
  function Sum(s: seq<real>): real
  {
    if |s| == 0 then 0.0 else Sum(s[..|s| - 1]) + s[|s| - 1]
  }

  /** Extending a prefix by one element adds that element to the sum. */
  lemma SumStep(s: seq<real>, t: nat)
    requires t < |s|
    ensures Sum(s[..t + 1]) == Sum(s[..t]) + s[t]
  {
    assert s[..t + 1][..t] == s[..t];
  }

  /** The value of an array: row `d` of `Cells(m)` is channel `d` of `m`. */
  ghost function Cells(m: array2<real>): (r: Matrix)
    reads m
    ensures |r| == m.Length0
    ensures forall d :: 0 <= d < |r| ==> |r[d]| == m.Length1
  {
    seq(m.Length0, (d: int) requires 0 <= d < m.Length0 reads m =>
      seq(m.Length1, (t: int) requires 0 <= t < m.Length1 reads m => m[d, t]))
  }

  /** The cells of an array, read one at a time. */
  lemma CellsAt(m: array2<real>, d: nat, t: nat)
    requires d < m.Length0 && t < m.Length1
    ensures Cells(m)[d][t] == m[d, t]
  {
  }

  /** An array whose every cell agrees with a rectangular value has that value. */
  lemma CellsEqual(m: array2<real>, v: Matrix)
    requires |v| == m.Length0
    requires forall d :: 0 <= d < |v| ==> |v[d]| == m.Length1
    requires forall d, t :: 0 <= d < m.Length0 && 0 <= t < m.Length1 ==> m[d, t] == v[d][t]
    ensures Cells(m) == v
  {
    forall d | 0 <= d < |v|
      ensures Cells(m)[d] == v[d]
    {
      forall t | 0 <= t < m.Length1
        ensures Cells(m)[d][t] == v[d][t]
      {
        CellsAt(m, d, t);
      }
    }
  }

  /** The set of arrays of a list, as the frame of the functions and methods over it. */
  function Frame(X: seq<array2<real>>): set<array2<real>>
  {
    set i | 0 <= i < |X| :: X[i]
  }

  /** The values of a list of arrays, in list order. */
  ghost function Snapshot(X: seq<array2<real>>): (r: seq<Matrix>)
    reads Frame(X)
    ensures |r| == |X|
    ensures forall i :: 0 <= i < |X| ==> r[i] == Cells(X[i])
  {
    seq(|X|, (i: int) requires 0 <= i < |X| reads Frame(X) => Cells(X[i]))
  }

  /** The summed column counts of a list of arrays (its total number of time steps). */
  function Columns(X: seq<array2<real>>): nat
  {
    if |X| == 0 then 0 else Columns(X[..|X| - 1]) + X[|X| - 1].Length1
  }
}
