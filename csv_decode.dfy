/** The row layout of one wind data file, as `load_data` decodes it, and the
    loading of a whole list of examples. The file is taken as already read
    and parsed: a table of rows, each a sequence of cells. Column 0 of every
    row is a caption and is skipped; row 1 holds the one-based state labels;
    rows 3 and on hold one channel each; rows 0 and 2 are not read. */
module CsvDecode {
  import opened Results
  import opened Series
  import opened FileNames

  /** The sequence length and the channel count fixed in `load_data`. */
  const LEN: nat := 800
  const DIMS: nat := 5

  /** A parsed cell: an integer numeral or any other decimal number. */
  datatype Value = Int(i: int) | Num(r: real)

  /** Python's `float(cell)`, which accepts both kinds of cell. */
  function AsReal(v: Value): real
  {
    match v
    case Int(i) => i as real
    case Num(r) => r
  }

  /** The integer of a cell `int(cell)` accepts (0 for the others, never used). */
  function IntValue(v: Value): int
  {
    match v
    case Int(i) => i
    case Num(_) => 0
  }

  type Row = seq<Value>
  type Table = seq<Row>

  datatype LoadError =
    | NotAnInteger(row: nat, col: nat)  // `int(row[t+1])` raises ValueError
    | OutOfRange(row: nat, col: nat)    // a matrix index past LEN or DIMS raises IndexError
    | MissingIndex(i: nat)              // `inds[i]` raises IndexError
    | MissingFile(name: string)         // `open` fails
    | ZeroNorm(i: nat)                  // `phi_i /= norm` with a zero norm raises ZeroDivisionError

  /** One decoded example: LEN zero-based labels, a DIMS x LEN channel matrix,
      and the per-channel sums (before the L2 normalisation). */
  datatype Example = Example(labels: seq<int>, channels: Matrix, phi: seq<real>)

  /** The number of data cells of a row: `len(row) - 1`, never below zero. */
  function Width(row: Row): nat
  {
    if |row| == 0 then 0 else |row| - 1
  }

  /** The data cells of a row as numbers. */
  function Data(row: Row): (r: seq<real>)
    ensures |r| == Width(row)
  {
    seq(Width(row), (t: int) requires 0 <= t < Width(row) => AsReal(row[t + 1]))
  }

  // ---------------------------------------------------------------------
  // Which cell, if any, makes the decoding fail

  /** The failure, if any, of the cell in column `col` (data cell `col - 1`) of row `k`. */
  function CellError(k: nat, col: nat, v: Value): Option<LoadError>
  {
    if k == 1 then
      if v.Num? then Some(NotAnInteger(k, col))
      else if col > LEN then Some(OutOfRange(k, col))
      else None
    else if k >= 3 then
      if k - 3 >= DIMS || col > LEN then Some(OutOfRange(k, col)) else None
    else None
  }

  /** The first failure among the first `n` data cells of row `k`. */
  function RowError(row: Row, k: nat, n: nat): Option<LoadError>
    requires n <= Width(row)
  {
    if n == 0 then None
    else match RowError(row, k, n - 1)
      case Some(e) => Some(e)
      case None => CellError(k, n, row[n])
  }

  /** The first failure among the first `n` rows, in reading order. */
  function TableError(rows: Table, n: nat): Option<LoadError>
    requires n <= |rows|
  {
    if n == 0 then None
    else match TableError(rows, n - 1)
      case Some(e) => Some(e)
      case None => RowError(rows[n - 1], n - 1, Width(rows[n - 1]))
  }

  // ---------------------------------------------------------------------
  // What the first `n` rows write

  /** `lbl[t]` after the first `n` rows: `int(row[t+1]) - 1` from row 1, else 0. */
  function LabelAt(rows: Table, n: nat, t: nat): int
    requires n <= |rows|
  {
    if 1 < n && t < Width(rows[1]) then IntValue(rows[1][t + 1]) - 1 else 0
  }

  /** `exm[d, t]` after the first `n` rows: cell `t + 1` of row `d + 3`, else 0. */
  function ChannelAt(rows: Table, n: nat, d: nat, t: nat): real
    requires n <= |rows|
  {
    if d + 3 < n && t < Width(rows[d + 3]) then Data(rows[d + 3])[t] else 0.0
  }

  /** `phi_i[d]` after the first `n` rows: the sum of the data cells of row `d + 3`. */
  function PhiAt(rows: Table, n: nat, d: nat): real
    requires n <= |rows|
  {
    if d + 3 < n then Sum(Data(rows[d + 3])) else 0.0
  }

  /** The decoding of a whole file. */
  function Decode(rows: Table): Result<Example, LoadError>
  {
    match TableError(rows, |rows|)
    case Some(e) => Err(e)
    case None => Ok(Example(
      seq(LEN, (t: int) requires 0 <= t < LEN => LabelAt(rows, |rows|, t)),
      seq(DIMS, (d: int) requires 0 <= d < DIMS =>
        seq(LEN, (t: int) requires 0 <= t < LEN => ChannelAt(rows, |rows|, d, t))),
      seq(DIMS, (d: int) requires 0 <= d < DIMS => PhiAt(rows, |rows|, d))))
  }

  /** A file decodes without failure exactly when this holds. */
  predicate Fits(rows: Table)
  {
    (1 < |rows| ==> Width(rows[1]) <= LEN && forall c :: 1 <= c < |rows[1]| ==> rows[1][c].Int?)
    && (forall k :: 3 <= k < |rows| ==> Width(rows[k]) <= LEN)
    && (forall k :: DIMS + 3 <= k < |rows| ==> Width(rows[k]) == 0)
  }

  // ---------------------------------------------------------------------
  // Properties of the decoding

  /** Once a row has failed, it stays failed with the same error. */
  lemma {:induction false} RowErrorSticky(row: Row, k: nat, m: nat, n: nat)
    requires m <= n <= Width(row) && RowError(row, k, m).Some?
    ensures RowError(row, k, n) == RowError(row, k, m)
  {
    if m < n {
      RowErrorSticky(row, k, m, n - 1);
    }
  }

  /** Once a file has failed, it stays failed with the same error. */
  lemma {:induction false} TableErrorSticky(rows: Table, m: nat, n: nat)
    requires m <= n <= |rows| && TableError(rows, m).Some?
    ensures TableError(rows, n) == TableError(rows, m)
  {
    if m < n {
      TableErrorSticky(rows, m, n - 1);
    }
  }

  /** A row fails within its first `n` cells exactly when one of them is bad. */
  lemma {:induction false} RowErrorIff(row: Row, k: nat, n: nat)
    requires n <= Width(row)
    ensures RowError(row, k, n).None? <==> forall c :: 1 <= c <= n ==> CellError(k, c, row[c]).None?
  {
    if n > 0 {
      RowErrorIff(row, k, n - 1);
    }
  }

  /** A row is accepted exactly when it fits the label or channel layout. */
  lemma RowFits(row: Row, k: nat)
    ensures RowError(row, k, Width(row)).None? <==>
      (k == 1 ==> Width(row) <= LEN && forall c :: 1 <= c < |row| ==> row[c].Int?) &&
      (3 <= k ==> Width(row) <= LEN && (DIMS + 3 <= k ==> Width(row) == 0))
  {
    RowErrorIff(row, k, Width(row));
    if Width(row) > LEN && (k == 1 || 3 <= k) {
      assert CellError(k, LEN + 1, row[LEN + 1]).Some?;
    }
    if 3 <= k && Width(row) > 0 {
      assert CellError(k, 1, row[1]).None? <==> k - 3 < DIMS;
    }
  }

  /** The first `n` rows are accepted exactly when each of them is. */
  lemma {:induction false} TableErrorIff(rows: Table, n: nat)
    requires n <= |rows|
    ensures TableError(rows, n).None? <==>
      forall k :: 0 <= k < n ==> RowError(rows[k], k, Width(rows[k])).None?
  {
    if n > 0 {
      TableErrorIff(rows, n - 1);
    }
  }

  /** Decoding fails exactly on the files that do not fit the layout. */
  lemma DecodeSucceedsIff(rows: Table)
    ensures Decode(rows).Ok? <==> Fits(rows)
  {
    TableErrorIff(rows, |rows|);
    forall k | 0 <= k < |rows|
      ensures RowError(rows[k], k, Width(rows[k])).None? <==>
        (k == 1 ==> Width(rows[k]) <= LEN && forall c :: 1 <= c < |rows[k]| ==> rows[k][c].Int?) &&
        (3 <= k ==> Width(rows[k]) <= LEN && (DIMS + 3 <= k ==> Width(rows[k]) == 0))
    {
      RowFits(rows[k], k);
    }
  }

  /** A file that fits decodes, and its channel `d` is row `d + 3`'s data cells
      padded with zeros to LEN (all zeros when there is no such row). */
  lemma DecodedChannel(rows: Table, d: nat)
    requires Fits(rows) && d < DIMS
    ensures Decode(rows).Ok?
    ensures d + 3 < |rows| ==>
      Decode(rows).value.channels[d] == Data(rows[d + 3]) + seq(LEN - Width(rows[d + 3]), _ => 0.0)
    ensures d + 3 >= |rows| ==> Decode(rows).value.channels[d] == seq(LEN, _ => 0.0)
  {
    DecodeSucceedsIff(rows);
  }

  /** Zeros appended to a sequence do not change its sum. */
  lemma {:induction false} SumZeroPadded(s: seq<real>, k: nat)
    ensures Sum(s + seq(k, _ => 0.0)) == Sum(s)
  {
    if k > 0 {
      var z := seq(k, _ => 0.0);
      assert (s + z)[..|s + z| - 1] == s + seq(k - 1, _ => 0.0);
      SumZeroPadded(s, k - 1);
    } else {
      assert s + seq(k, _ => 0.0) == s;
    }
  }

  lemma {:induction false} SumZeros(k: nat)
    ensures Sum(seq(k, _ => 0.0)) == 0.0
  {
    if k > 0 {
      assert seq(k, _ => 0.0)[..k - 1] == seq(k - 1, _ => 0.0);
      SumZeros(k - 1);
    }
  }

  /** The summary feature `phi[d]` of a decoded file is the sum of its channel `d`. */
  lemma PhiIsChannelSum(rows: Table, d: nat)
    requires Decode(rows).Ok? && d < DIMS
    ensures Decode(rows).value.phi[d] == Sum(Decode(rows).value.channels[d])
  {
    DecodeSucceedsIff(rows);
    DecodedChannel(rows, d);
    if d + 3 < |rows| {
      SumZeroPadded(Data(rows[d + 3]), LEN - Width(rows[d + 3]));
    } else {
      SumZeros(LEN);
    }
  }

  /** Row 0 or row 2 replaced by any other row: the first failure among the
      first `n` rows is the same. */
  lemma {:induction false} TableErrorOtherRow(rows: Table, k: nat, r: Row, n: nat)
    requires k < |rows| && (k == 0 || k == 2) && n <= |rows|
    ensures TableError(rows[k := r], n) == TableError(rows, n)
  {
    if n > 0 {
      TableErrorOtherRow(rows, k, r, n - 1);
      if n - 1 == k {
        RowErrorIff(r, k, Width(r));
        RowErrorIff(rows[k], k, Width(rows[k]));
      }
    }
  }

  /** Rows 0 and 2 are never read: whatever they hold, the decoding is the same. */
  lemma IgnoredRows(rows: Table, k: nat, r: Row)
    requires k < |rows| && (k == 0 || k == 2)
    ensures Decode(rows[k := r]) == Decode(rows)
  {
    TableErrorOtherRow(rows, k, r, |rows|);
    var rows' := rows[k := r];
    if Decode(rows).Ok? {
      var a, b := Decode(rows').value, Decode(rows).value;
      assert a.labels == b.labels;
      forall d | 0 <= d < DIMS
        ensures a.channels[d] == b.channels[d]
      {
      }
      assert a.channels == b.channels;
      assert a.phi == b.phi;
    }
  }

  // ---------------------------------------------------------------------
  // The decoding loop of `load_data`, lines 57-72

  /** One loaded example: the channel matrix is a fresh array the caller owns. */
  datatype Loaded = Loaded(exm: array2<real>, labels: seq<int>, phi: seq<real>)

  /** Lines 64-66: row 1 writes `lbl[t] = int(row[t+1]) - 1` for each data cell. */
  method ReadLabelRow(row: Row, lbl: array<int>) returns (err: Option<LoadError>)
    requires lbl.Length == LEN
    modifies lbl
    ensures err == RowError(row, 1, Width(row))
    ensures err.None? ==> forall u :: 0 <= u < LEN ==>
      lbl[u] == if u < Width(row) then IntValue(row[u + 1]) - 1 else old(lbl[u])
  {
    var t := 0;
    while t < Width(row)
      invariant 0 <= t <= Width(row)
      invariant RowError(row, 1, t) == None
      invariant forall u :: 0 <= u < LEN ==> lbl[u] == if u < t then IntValue(row[u + 1]) - 1 else old(lbl[u])
    {
      if row[t + 1].Num? {
        RowErrorSticky(row, 1, t + 1, Width(row));
        return Some(NotAnInteger(1, t + 1));
      }
      if t >= LEN {
        RowErrorSticky(row, 1, t + 1, Width(row));
        return Some(OutOfRange(1, t + 1));
      }
      lbl[t] := IntValue(row[t + 1]) - 1;
      t := t + 1;
    }
    err := None;
  }

  /** Lines 67-70: row `k >= 3` writes channel `k - 3` and adds its cells to `phi_i[k - 3]`. */
  method ReadChannelRow(row: Row, k: nat, exm: array2<real>, phi: array<real>) returns (err: Option<LoadError>)
    requires 3 <= k && exm.Length0 == DIMS && exm.Length1 == LEN && phi.Length == DIMS
    modifies exm, phi
    ensures err == RowError(row, k, Width(row))
    ensures err.None? ==> forall d, u :: 0 <= d < DIMS && 0 <= u < LEN ==>
      exm[d, u] == if d == k - 3 && u < Width(row) then Data(row)[u] else old(exm[d, u])
    ensures err.None? ==> forall d :: 0 <= d < DIMS ==>
      phi[d] == if d == k - 3 then old(phi[d]) + Sum(Data(row)) else old(phi[d])
  {
    var t := 0;
    while t < Width(row)
      invariant 0 <= t <= Width(row)
      invariant RowError(row, k, t) == None
      invariant forall d, u :: 0 <= d < DIMS && 0 <= u < LEN ==>
        exm[d, u] == if d == k - 3 && u < t then Data(row)[u] else old(exm[d, u])
      invariant forall d :: 0 <= d < DIMS ==>
        phi[d] == if d == k - 3 then old(phi[d]) + Sum(Data(row)[..t]) else old(phi[d])
    {
      if k - 3 >= DIMS || t >= LEN {
        RowErrorSticky(row, k, t + 1, Width(row));
        return Some(OutOfRange(k, t + 1));
      }
      var x := AsReal(row[t + 1]);
      SumStep(Data(row), t);
      exm[k - 3, t] := x;
      phi[k - 3] := phi[k - 3] + x;
      t := t + 1;
    }
    assert Data(row)[..Width(row)] == Data(row);
    err := None;
  }

  /** Lines 57-72: reads the rows of one file in order with a row counter,
      writing the label vector, the channel matrix and the channel sums;
      fails at the first cell `load_data` would fail at. */
  method ReadExample(rows: Table) returns (r: Result<Loaded, LoadError>)
    ensures r.Err? ==> Decode(rows) == Err(r.error)
    ensures r.Ok? ==> fresh(r.value.exm) && r.value.exm.Length0 == DIMS && r.value.exm.Length1 == LEN
    ensures r.Ok? ==> Decode(rows) == Ok(Example(r.value.labels, Cells(r.value.exm), r.value.phi))
  {
    var phi := new real[DIMS](_ => 0.0);
    var lbl := new int[LEN](_ => 0);
    var exm := new real[DIMS, LEN]((_, _) => 0.0);
    var idx := 0;
    while idx < |rows|
      invariant 0 <= idx <= |rows|
      invariant TableError(rows, idx) == None
      invariant forall t :: 0 <= t < LEN ==> lbl[t] == LabelAt(rows, idx, t)
      invariant forall d, t :: 0 <= d < DIMS && 0 <= t < LEN ==> exm[d, t] == ChannelAt(rows, idx, d, t)
      invariant forall d :: 0 <= d < DIMS ==> phi[d] == PhiAt(rows, idx, d)
    {
      var err: Option<LoadError> := None;
      if idx == 1 {
        err := ReadLabelRow(rows[idx], lbl);
      } else if idx >= 3 {
        err := ReadChannelRow(rows[idx], idx, exm, phi);
      } else {
        RowErrorIff(rows[idx], idx, Width(rows[idx]));
      }
      if err.Some? {
        TableErrorSticky(rows, idx + 1, |rows|);
        return Err(err.value);
      }
      idx := idx + 1;
    }
    ghost var ex := Decode(rows).value;
    assert lbl[..] == ex.labels;
    assert phi[..] == ex.phi;
    CellsEqual(exm, ex.channels);
    r := Ok(Loaded(exm, lbl[..], phi[..]));
  }

  // ---------------------------------------------------------------------
  // `load_data`: `num_exms` examples from numbered files

  /** `np.linalg.norm(phi_i, 2)` of line 73 is zero exactly when every entry
      of `phi_i` is zero, so this is the case where `phi_i /= norm` fails. */
  predicate ZeroVector(v: seq<real>)
  {
    forall d :: 0 <= d < |v| ==> v[d] == 0.0
  }

  /** Example `i` of a load: the file numbered `inds[i] + 1`, decoded; its
      channel sums are then divided by their norm (lines 73-75), which fails
      when the norm is zero. */
  function LoadOne(path: string, fname: string, inds: seq<int>, i: nat, files: map<string, Table>): Result<Example, LoadError>
  {
    if i >= |inds| then Err(MissingIndex(i))
    else
      var name := FileName(path, fname, inds[i] + 1);
      if name !in files then Err(MissingFile(name))
      else match Decode(files[name])
        case Err(e) => Err(e)
        case Ok(ex) => if ZeroVector(ex.phi) then Err(ZeroNorm(i)) else Ok(ex)
  }

  /** A file with no channel rows (at most its three header rows, whatever
      they hold, as long as they fit the layout) decodes with zero channel
      sums, and so fails to load. */
  lemma HeaderOnlyFails(path: string, fname: string, inds: seq<int>, i: nat, files: map<string, Table>)
    requires i < |inds| && FileName(path, fname, inds[i] + 1) in files
    requires |files[FileName(path, fname, inds[i] + 1)]| <= 3 && Fits(files[FileName(path, fname, inds[i] + 1)])
    ensures LoadOne(path, fname, inds, i, files) == Err(ZeroNorm(i))
  {
    DecodeSucceedsIff(files[FileName(path, fname, inds[i] + 1)]);
  }

  /** The values of a list of outcomes, or the first failure among them. */
  function Collect(outs: seq<Result<Example, LoadError>>): Result<seq<Example>, LoadError>
  {
    if |outs| == 0 then Ok([])
    else match Collect(outs[..|outs| - 1])
      case Err(e) => Err(e)
      case Ok(exs) =>
        match outs[|outs| - 1]
        case Err(e) => Err(e)
        case Ok(ex) => Ok(exs + [ex])
  }

  /** The outcomes of the first `n` examples of a load, in order. */
  function Outcomes(n: nat, path: string, fname: string, inds: seq<int>, files: map<string, Table>): (outs: seq<Result<Example, LoadError>>)
    ensures |outs| == n
  {
    seq(n, (i: int) requires 0 <= i < n => LoadOne(path, fname, inds, i, files))
  }

  /** The first `n` examples of a load, or the first failure among them. */
  function LoadAll(n: nat, path: string, fname: string, inds: seq<int>, files: map<string, Table>): Result<seq<Example>, LoadError>
  {
    Collect(Outcomes(n, path, fname, inds, files))
  }

  /** Collecting succeeds exactly when every outcome does. */
  lemma {:induction false} CollectIff(outs: seq<Result<Example, LoadError>>)
    ensures Collect(outs).Ok? <==> forall i :: 0 <= i < |outs| ==> outs[i].Ok?
  {
    if |outs| > 0 {
      var n := |outs| - 1;
      CollectIff(outs[..n]);
      assert forall i :: 0 <= i < n ==> outs[..n][i] == outs[i];
    }
  }

  /** A successful collection holds every outcome's value, in order. */
  lemma {:induction false} CollectContents(outs: seq<Result<Example, LoadError>>)
    requires Collect(outs).Ok?
    ensures |Collect(outs).value| == |outs|
    ensures forall i :: 0 <= i < |outs| ==> outs[i] == Ok(Collect(outs).value[i])
  {
    if |outs| > 0 {
      var n := |outs| - 1;
      CollectContents(outs[..n]);
      assert forall i :: 0 <= i < n ==> outs[..n][i] == outs[i];
    }
  }

  /** Once a collection has failed, collecting more outcomes fails the same way. */
  lemma {:induction false} CollectSticky(outs: seq<Result<Example, LoadError>>, m: nat)
    requires m <= |outs| && Collect(outs[..m]).Err?
    ensures Collect(outs) == Collect(outs[..m])
  {
    if m < |outs| {
      var n := |outs| - 1;
      assert outs[..n][..m] == outs[..m];
      CollectSticky(outs[..n], m);
    } else {
      assert outs[..m] == outs;
    }
  }

  /** A load succeeds exactly when every one of its examples does, and then
      example `i` is the decoding of file `inds[i] + 1`. */
  lemma LoadAllIff(n: nat, path: string, fname: string, inds: seq<int>, files: map<string, Table>)
    ensures LoadAll(n, path, fname, inds, files).Ok? <==>
      forall i :: 0 <= i < n ==> LoadOne(path, fname, inds, i, files).Ok?
    ensures LoadAll(n, path, fname, inds, files).Ok? ==>
      |LoadAll(n, path, fname, inds, files).value| == n &&
      forall i :: 0 <= i < n ==>
        LoadOne(path, fname, inds, i, files) == Ok(LoadAll(n, path, fname, inds, files).value[i])
  {
    var outs := Outcomes(n, path, fname, inds, files);
    forall i | 0 <= i < n
      ensures outs[i] == LoadOne(path, fname, inds, i, files)
    {
    }
    CollectIff(outs);
    if Collect(outs).Ok? {
      CollectContents(outs);
    }
  }

  /** Distinct indices name distinct files, so no file is read for two examples. */
  lemma DistinctFiles(path: string, fname: string, inds: seq<int>, i: nat, j: nat)
    requires i < j < |inds| && inds[i] != inds[j]
    ensures FileName(path, fname, inds[i] + 1) != FileName(path, fname, inds[j] + 1)
  {
    if FileName(path, fname, inds[i] + 1) == FileName(path, fname, inds[j] + 1) {
      FileNameInjective(path, fname, inds[i] + 1, inds[j] + 1);
    }
  }

  /** The four lists `load_data` returns. */
  datatype Dataset = Dataset(xs: seq<array2<real>>, ys: seq<seq<int>>, phis: seq<seq<real>>, markers: seq<int>)

  /** `n` examples, each a distinct DIMS x LEN matrix, every marker `mark`. */
  predicate Loads(ds: Dataset, n: nat, mark: int)
  {
    |ds.xs| == |ds.ys| == |ds.phis| == |ds.markers| == n && (forall i :: 0 <= i < n ==> ds.markers[i] == mark) &&
    (forall i :: 0 <= i < n ==> ds.xs[i].Length0 == DIMS && ds.xs[i].Length1 == LEN) &&
    (forall i, j :: 0 <= i < j < n ==> ds.xs[i] != ds.xs[j])
  }

  /** The examples a dataset holds, read from its matrices. */
  ghost function Examples(ds: Dataset): (exs: seq<Example>)
    requires |ds.xs| == |ds.ys| == |ds.phis|
    reads Frame(ds.xs)
    ensures |exs| == |ds.xs|
  {
    seq(|ds.xs|, (i: int) requires 0 <= i < |ds.xs| reads Frame(ds.xs) =>
      Example(ds.ys[i], Cells(ds.xs[i]), ds.phis[i]))
  }

  /** One more outcome: a successful load of `i` examples followed by a
      successful example is a successful load of `i + 1`; followed by a
      failure it is that failure. */
  lemma LoadStep(path: string, fname: string, inds: seq<int>, files: map<string, Table>, i: nat, exs: seq<Example>)
    requires LoadAll(i, path, fname, inds, files) == Ok(exs)
    ensures LoadOne(path, fname, inds, i, files).Ok? ==>
      LoadAll(i + 1, path, fname, inds, files) == Ok(exs + [LoadOne(path, fname, inds, i, files).value])
    ensures LoadOne(path, fname, inds, i, files).Err? ==>
      LoadAll(i + 1, path, fname, inds, files) == Err(LoadOne(path, fname, inds, i, files).error)
  {
    OutcomesPrefix(i, i + 1, path, fname, inds, files);
  }

  /** The first `m` outcomes of a longer load are those of the shorter load. */
  lemma OutcomesPrefix(m: nat, n: nat, path: string, fname: string, inds: seq<int>, files: map<string, Table>)
    requires m <= n
    ensures Outcomes(n, path, fname, inds, files)[..m] == Outcomes(m, path, fname, inds, files)
  {
  }

  /** A load that has failed fails the same way whatever is loaded after. */
  lemma LoadSticky(path: string, fname: string, inds: seq<int>, files: map<string, Table>, m: nat, n: nat)
    requires m <= n && LoadAll(m, path, fname, inds, files).Err?
    ensures LoadAll(n, path, fname, inds, files) == LoadAll(m, path, fname, inds, files)
  {
    OutcomesPrefix(m, n, path, fname, inds, files);
    CollectSticky(Outcomes(n, path, fname, inds, files), m);
  }

  /** Lines 56-75 for example `i`: open the file numbered `inds[i] + 1`, read
      it, and fail where the normalisation of its channel sums would. */
  method LoadExample(path: string, fname: string, inds: seq<int>, i: nat, files: map<string, Table>)
    returns (r: Result<Loaded, LoadError>)
    ensures r.Err? ==> LoadOne(path, fname, inds, i, files) == Err(r.error)
    ensures r.Ok? ==> fresh(r.value.exm) && r.value.exm.Length0 == DIMS && r.value.exm.Length1 == LEN
    ensures r.Ok? ==>
      LoadOne(path, fname, inds, i, files) == Ok(Example(r.value.labels, Cells(r.value.exm), r.value.phi))
  {
    if i >= |inds| {
      return Err(MissingIndex(i));
    }
    var name := FileName(path, fname, inds[i] + 1);
    if name !in files {
      return Err(MissingFile(name));
    }
    r := ReadExample(files[name]);
    if r.Ok? && ZeroVector(r.value.phi) {
      r := Err(ZeroNorm(i));
    }
  }

  /** Lines 77-80: each of the four lists is extended by its part of one example. */
  function Append(ds: Dataset, loaded: Loaded, mark: int): (ds': Dataset)
  {
    Dataset(ds.xs + [loaded.exm], ds.ys + [loaded.labels], ds.phis + [loaded.phi], ds.markers + [mark])
  }

  /** Appending one example to a dataset appends it to the examples it holds. */
  lemma ExamplesAppend(ds: Dataset, loaded: Loaded, mark: int)
    requires |ds.xs| == |ds.ys| == |ds.phis|
    ensures Examples(Append(ds, loaded, mark)) == Examples(ds) + [Example(loaded.labels, Cells(loaded.exm), loaded.phi)]
  {
  }

  /** Appending a new matrix of the right shape keeps a dataset well formed. */
  lemma LoadsAppend(ds: Dataset, n: nat, mark: int, loaded: Loaded)
    requires Loads(ds, n, mark) && loaded.exm !in Frame(ds.xs)
    requires loaded.exm.Length0 == DIMS && loaded.exm.Length1 == LEN
    ensures Loads(Append(ds, loaded, mark), n + 1, mark)
  {
    var ds' := Append(ds, loaded, mark);
    assert ds'.markers == seq(n + 1, _ => mark);
    forall i, j | 0 <= i < j < n + 1
      ensures ds'.xs[i] != ds'.xs[j]
    {
      if j == n {
        assert ds'.xs[i] in Frame(ds.xs);
      }
    }
  }

  /** `load_data(num_exms, path, fname, inds, mark)`. */
  method LoadData(numExms: nat, path: string, fname: string, inds: seq<int>, mark: int, files: map<string, Table>)
    returns (r: Result<Dataset, LoadError>)
    ensures r.Err? ==> LoadAll(numExms, path, fname, inds, files) == Err(r.error)
    ensures r.Ok? ==> Loads(r.value, numExms, mark)
    ensures r.Ok? ==> forall j :: 0 <= j < |r.value.xs| ==> fresh(r.value.xs[j])
    ensures r.Ok? ==> LoadAll(numExms, path, fname, inds, files) == Ok(Examples(r.value))
  {
    var ds := Dataset([], [], [], []);
    var i := 0;
    while i < numExms
      invariant 0 <= i <= numExms
      invariant Loads(ds, i, mark)
      invariant forall j :: 0 <= j < |ds.xs| ==> fresh(ds.xs[j])
      invariant LoadAll(i, path, fname, inds, files) == Ok(Examples(ds))
    {
      LoadStep(path, fname, inds, files, i, Examples(ds));
      var loaded := LoadExample(path, fname, inds, i, files);
      if loaded.Err? {
        LoadSticky(path, fname, inds, files, i + 1, numExms);
        return Err(loaded.error);
      }
      LoadsAppend(ds, i, mark, loaded.value);
      ExamplesAppend(ds, loaded.value, mark);
      ds := Append(ds, loaded.value, mark);
      i := i + 1;
    }
    r := Ok(ds);
  }
}
