/** The main block of the wind driver, once the data is loaded: the anomalous
    and the normal examples are joined into one list, centered per channel,
    and cut into a training set and a test set of 120 examples each. The
    shuffling permutations of the example files are inputs here. */
module Split {
  import opened Results
  import opened Series
  import opened MeanRemoval
  import CsvDecode

  /** The channel count the driver passes to `remove_mean`. */
  const DIMS: nat := 5
  /** The number of anomalous and of normal files available. */
  const EXMS_ANOM: nat := 200
  const EXMS_NON: nat := 200

  const NUM_TRAIN_ANOM: nat := 20
  const NUM_TRAIN_NON: nat := 100
  const NUM_TEST_ANOM: nat := 20
  const NUM_TEST_NON: nat := 100

  const NUM_COMB_ANOM: nat := NUM_TRAIN_ANOM + NUM_TEST_ANOM
  const NUM_COMB_NON: nat := NUM_TRAIN_NON + NUM_TEST_NON

  /** The share of anomalies among all the examples loaded. */
  const ANOM_PROB: real := NUM_COMB_ANOM as real / (NUM_COMB_ANOM + NUM_COMB_NON) as real

  /** Where the driver reads its example files from, and the file name
      prefixes of the anomalous and the normal examples. */
  const DIRECTORY: string := "/home/nicococo/Code/wind/"
  const ANOM_FILES: string := "winddata_A15_only_"
  const NON_FILES: string := "winddata_C10_only_"

  /** The marker `load_data` gives the anomalous and the normal examples. */
  const ANOM_MARK: int := 1
  const NON_MARK: int := 0

  function Min(a: nat, b: nat): nat
  {
    if a <= b then a else b
  }

  /** Python's `s[lo:hi]` for non-negative bounds: both bounds are clamped to
      the list, and a slice whose end is not past its start is empty. */
  function Slice<T>(s: seq<T>, lo: nat, hi: nat): (r: seq<T>)
    ensures |r| == if Min(lo, |s|) <= Min(hi, |s|) then Min(hi, |s|) - Min(lo, |s|) else 0
    ensures forall k :: 0 <= k < |r| ==> lo + k < |s| && r[k] == s[lo + k]
  {
    if Min(hi, |s|) <= lo then [] else s[lo..Min(hi, |s|)]
  }

  // ---------------------------------------------------------------------
  // Where each example of the two sets comes from

  /** The index in the joined list of example `k` of the training set:
      anomalies 0..19, then normals 0..99 (joined indices 40..139). */
  function TrainIndex(k: nat): nat
  {
    if k < NUM_TRAIN_ANOM then k else NUM_COMB_ANOM + (k - NUM_TRAIN_ANOM)
  }

  /** The index in the joined list of example `k` of the test set:
      anomalies 20..39, then normals 100..199 (joined indices 140..239). */
  function TestIndex(k: nat): nat
  {
    if k < NUM_TEST_ANOM then NUM_TRAIN_ANOM + k else NUM_COMB_ANOM + NUM_TRAIN_NON + (k - NUM_TEST_ANOM)
  }

  /** `comb` is the list of anomalies extended by the list `non` of normals,
      both as long as the driver loads them. */
  predicate Joined<T(==)>(comb: seq<T>, non: seq<T>)
  {
    |non| == NUM_COMB_NON && |comb| == NUM_COMB_ANOM + NUM_COMB_NON && comb[NUM_COMB_ANOM..] == non
  }

  /** Lines 125-133 for one pair of lists (the matrices, or the label
      sequences): the training set takes the first anomalies of the joined
      list and the first normals of the normal list, the test set the rest. */
  method SplitLists<T(==)>(comb: seq<T>, non: seq<T>) returns (train: seq<T>, test: seq<T>)
    ensures Joined(comb, non) ==> |train| == NUM_TRAIN_ANOM + NUM_TRAIN_NON
    ensures Joined(comb, non) ==> |test| == NUM_TEST_ANOM + NUM_TEST_NON
    ensures Joined(comb, non) ==> forall k :: 0 <= k < |train| ==> train[k] == comb[TrainIndex(k)]
    ensures Joined(comb, non) ==> forall k :: 0 <= k < |test| ==> test[k] == comb[TestIndex(k)]
  {
    train := Slice(comb, 0, NUM_TRAIN_ANOM);
    train := train + Slice(non, 0, NUM_TRAIN_NON);
    test := Slice(comb, NUM_TRAIN_ANOM, NUM_COMB_ANOM);
    test := test + Slice(non, NUM_TRAIN_NON, NUM_COMB_NON);
  }

  // ---------------------------------------------------------------------
  // Properties of the split

  /** A place in one of the two sets. */
  datatype Place = Train(k: nat) | Test(k: nat)

  /** The joined index of the example at a place. */
  function IndexOf(p: Place): nat
  {
    match p
    case Train(k) => TrainIndex(k)
    case Test(k) => TestIndex(k)
  }

  /** Where joined example `j` ends up. */
  function PlaceOf(j: nat): Place
  {
    if j < NUM_TRAIN_ANOM then Train(j)
    else if j < NUM_COMB_ANOM then Test(j - NUM_TRAIN_ANOM)
    else if j < NUM_COMB_ANOM + NUM_TRAIN_NON then Train(j - NUM_COMB_ANOM + NUM_TRAIN_ANOM)
    else Test(j - NUM_COMB_ANOM - NUM_TRAIN_NON + NUM_TEST_ANOM)
  }

  /** Every joined example has exactly one place, in one of the two sets of
      120: the sets are disjoint, neither repeats an example, and together
      they hold all 240. */
  lemma SplitPartition()
    ensures forall j :: 0 <= j < NUM_COMB_ANOM + NUM_COMB_NON ==> PlaceOf(j).k < 120 && IndexOf(PlaceOf(j)) == j
    ensures forall p: Place :: p.k < 120 ==> IndexOf(p) < NUM_COMB_ANOM + NUM_COMB_NON && PlaceOf(IndexOf(p)) == p
  {
    forall p: Place | p.k < 120
      ensures IndexOf(p) < NUM_COMB_ANOM + NUM_COMB_NON && PlaceOf(IndexOf(p)) == p
    {
      if p.Train? {
        assert IndexOf(p) == TrainIndex(p.k);
      } else {
        assert IndexOf(p) == TestIndex(p.k);
      }
    }
  }

  /** Consequently no example is both in training and in test. */
  lemma SplitDisjoint(k: nat, l: nat)
    requires k < 120 && l < 120
    ensures TrainIndex(k) != TestIndex(l)
  {
    SplitPartition();
    assert IndexOf(Train(k)) == TrainIndex(k) && IndexOf(Test(l)) == TestIndex(l);
  }

  /** Each set holds 20 anomalies, in its first 20 places, and 100 normals. */
  lemma SplitAnomalies(k: nat)
    requires k < 120
    ensures TrainIndex(k) < NUM_COMB_ANOM <==> k < NUM_TRAIN_ANOM
    ensures TestIndex(k) < NUM_COMB_ANOM <==> k < NUM_TEST_ANOM
  {
  }

  /** The anomaly probability is the 40 anomalies over the 240 examples, one in six. */
  lemma AnomalyProbability()
    ensures NUM_COMB_ANOM == 40 && NUM_COMB_NON == 200
    ensures ANOM_PROB == 40.0 / 240.0 == 1.0 / 6.0
  {
  }

  /** The bound `C = 1/(comb.samples * anom_prob)` the one-class trainers are
      given (lines 148 and 184): over the 240 joined examples it is one over
      the number of anomalies. */
  function BoundC(samples: nat): (c: real)
    requires 0 < samples
    ensures samples == NUM_COMB_ANOM + NUM_COMB_NON ==> c * NUM_COMB_ANOM as real == 1.0
  {
    1.0 / (samples as real * ANOM_PROB)
  }

  /** The summed column count of matrices that all have `n` columns. */
  lemma {:induction false} ColumnsUniform(X: seq<array2<real>>, n: nat)
    requires forall i :: 0 <= i < |X| ==> X[i].Length1 == n
    ensures Columns(X) == |X| * n
  {
    if |X| > 0 {
      ColumnsUniform(X[..|X| - 1], n);
    }
  }

  // ---------------------------------------------------------------------
  // Lines 117-133: join, center, split

  /** What the main block holds after the split. */
  datatype Prepared = Prepared(
    combX: seq<array2<real>>, combY: seq<seq<int>>, phis: seq<seq<real>>, marker: seq<int>,
    trainX: seq<array2<real>>, trainY: seq<seq<int>>,
    testX: seq<array2<real>>, testY: seq<seq<int>>)

  /** Joins the anomalies and the normals loaded by `load_data`, centers the
      joined matrices in place and splits them. The normal matrices are shared
      between the joined list and the normal list, so the normals the split
      takes from the normal list are centered too. */
  method Prepare(anom: CsvDecode.Dataset, non: CsvDecode.Dataset) returns (p: Prepared)
    requires CsvDecode.Loads(anom, NUM_COMB_ANOM, ANOM_MARK)
    requires CsvDecode.Loads(non, NUM_COMB_NON, NON_MARK)
    requires Frame(anom.xs) !! Frame(non.xs)
    modifies Frame(anom.xs), Frame(non.xs)
    ensures p.combX == anom.xs + non.xs && p.combY == anom.ys + non.ys
    ensures p.phis == anom.phis + non.phis
    ensures |p.marker| == NUM_COMB_ANOM + NUM_COMB_NON
    ensures forall j :: 0 <= j < |p.marker| ==> (p.marker[j] == ANOM_MARK <==> j < NUM_COMB_ANOM)
    ensures p.marker == seq(NUM_COMB_ANOM, _ => ANOM_MARK) + seq(NUM_COMB_NON, _ => NON_MARK)
    ensures old(Shaped(Snapshot(anom.xs + non.xs), DIMS) && 0 < Count(Snapshot(anom.xs + non.xs)))
    ensures Snapshot(p.combX) == Centered(old(Snapshot(anom.xs + non.xs)), DIMS)
    ensures |p.trainX| == |p.trainY| == |p.testX| == |p.testY| == 120
    ensures forall k :: 0 <= k < 120 ==>
      p.trainX[k] == p.combX[TrainIndex(k)] && p.trainY[k] == p.combY[TrainIndex(k)] &&
      p.testX[k] == p.combX[TestIndex(k)] && p.testY[k] == p.combY[TestIndex(k)]
  {
    var combX := anom.xs + non.xs;
    var combY := anom.ys + non.ys;
    var phis := anom.phis + non.phis;
    var marker := anom.markers + non.markers;
    assert forall i :: 0 <= i < |combX| ==> combX[i].Length0 == DIMS && combX[i].Length1 == CsvDecode.LEN;
    forall i, j | 0 <= i < j < |combX|
      ensures combX[i] != combX[j]
    {
      if j < NUM_COMB_ANOM || NUM_COMB_ANOM <= i {
      } else {
        assert combX[i] in Frame(anom.xs) && combX[j] in Frame(non.xs);
      }
    }
    ColumnsUniform(combX, CsvDecode.LEN);
    forall a | a in Frame(combX)
      ensures a in Frame(anom.xs) || a in Frame(non.xs)
    {
      var i :| 0 <= i < |combX| && combX[i] == a;
      if i >= NUM_COMB_ANOM {
        assert non.xs[i - NUM_COMB_ANOM] == a;
      }
    }
    var residual;
    combX, residual := RemoveMean(combX, DIMS);
    assert combX[NUM_COMB_ANOM..] == non.xs;
    assert combY[NUM_COMB_ANOM..] == non.ys;
    var trainX, testX := SplitLists(combX, non.xs);
    var trainY, testY := SplitLists(combY, non.ys);
    p := Prepared(combX, combY, phis, marker, trainX, trainY, testX, testY);
  }

  // ---------------------------------------------------------------------
  // One repetition of the experiment, from the files to the two sets

  /** The channels, the labels and the summary features of a list of examples. */
  function ChannelsOf(exs: seq<CsvDecode.Example>): seq<Matrix>
  {
    seq(|exs|, (i: int) requires 0 <= i < |exs| => exs[i].channels)
  }

  function LabelsOf(exs: seq<CsvDecode.Example>): seq<seq<int>>
  {
    seq(|exs|, (i: int) requires 0 <= i < |exs| => exs[i].labels)
  }

  function PhisOf(exs: seq<CsvDecode.Example>): seq<seq<real>>
  {
    seq(|exs|, (i: int) requires 0 <= i < |exs| => exs[i].phi)
  }

  /** The anomalous and the normal loads of lines 117-118. */
  function AnomLoad(anomInds: seq<int>, files: map<string, CsvDecode.Table>): Result<seq<CsvDecode.Example>, CsvDecode.LoadError>
  {
    CsvDecode.LoadAll(NUM_COMB_ANOM, DIRECTORY, ANOM_FILES, anomInds, files)
  }

  function NonLoad(nonInds: seq<int>, files: map<string, CsvDecode.Table>): Result<seq<CsvDecode.Example>, CsvDecode.LoadError>
  {
    CsvDecode.LoadAll(NUM_COMB_NON, DIRECTORY, NON_FILES, nonInds, files)
  }

  /** What a run of lines 117-133 yields from the examples it loaded,
      anomalies first: their labels and summary features in order, their
      channels centered in the joined matrices, the markers, and the two
      sets cut from the joined list. */
  ghost predicate PreparedFrom(p: Prepared, exs: seq<CsvDecode.Example>)
    reads Frame(p.combX)
  {
    |exs| == NUM_COMB_ANOM + NUM_COMB_NON &&
    p.combY == LabelsOf(exs) && p.phis == PhisOf(exs) &&
    Shaped(ChannelsOf(exs), DIMS) && 0 < Count(ChannelsOf(exs)) &&
    Snapshot(p.combX) == Centered(ChannelsOf(exs), DIMS) &&
    |p.marker| == |exs| && (forall j :: 0 <= j < |p.marker| ==> (p.marker[j] == ANOM_MARK <==> j < NUM_COMB_ANOM)) &&
    p.marker == seq(NUM_COMB_ANOM, _ => ANOM_MARK) + seq(NUM_COMB_NON, _ => NON_MARK) &&
    |p.trainX| == |p.trainY| == |p.testX| == |p.testY| == 120 &&
    forall k :: 0 <= k < 120 ==>
      p.trainX[k] == p.combX[TrainIndex(k)] && p.trainY[k] == p.combY[TrainIndex(k)] &&
      p.testX[k] == p.combX[TestIndex(k)] && p.testY[k] == p.combY[TestIndex(k)]
  }

  /** The joined lists hold the values of the examples of both loads, in order. */
  lemma JoinedExamples(a: CsvDecode.Dataset, n: CsvDecode.Dataset)
    requires |a.xs| == |a.ys| == |a.phis| && |n.xs| == |n.ys| == |n.phis|
    ensures Snapshot(a.xs + n.xs) == ChannelsOf(CsvDecode.Examples(a) + CsvDecode.Examples(n))
    ensures a.ys + n.ys == LabelsOf(CsvDecode.Examples(a) + CsvDecode.Examples(n))
    ensures a.phis + n.phis == PhisOf(CsvDecode.Examples(a) + CsvDecode.Examples(n))
  {
  }

  /** Lines 117-133: load the 40 anomalies and the 200 normals with the
      shuffled file indices, then join, center and split them. The run
      fails with the first load's error, else with the second's; otherwise
      it is prepared from the examples of the two loads. */
  method Experiment(anomInds: seq<int>, nonInds: seq<int>, files: map<string, CsvDecode.Table>)
    returns (r: Result<Prepared, CsvDecode.LoadError>)
    ensures AnomLoad(anomInds, files).Err? ==> r == Err(AnomLoad(anomInds, files).error)
    ensures AnomLoad(anomInds, files).Ok? && NonLoad(nonInds, files).Err? ==> r == Err(NonLoad(nonInds, files).error)
    ensures r.Ok? <==> AnomLoad(anomInds, files).Ok? && NonLoad(nonInds, files).Ok?
    ensures r.Ok? ==> PreparedFrom(r.value, AnomLoad(anomInds, files).value + NonLoad(nonInds, files).value)
  {
    var anom := CsvDecode.LoadData(NUM_COMB_ANOM, DIRECTORY, ANOM_FILES, anomInds, ANOM_MARK, files);
    if anom.Err? {
      return Err(anom.error);
    }
    var non := CsvDecode.LoadData(NUM_COMB_NON, DIRECTORY, NON_FILES, nonInds, NON_MARK, files);
    if non.Err? {
      return Err(non.error);
    }
    var a, n := anom.value, non.value;
    forall i, j | 0 <= i < |a.xs| && 0 <= j < |n.xs|
      ensures a.xs[i] != n.xs[j]
    {
    }
    ghost var exs := CsvDecode.Examples(a) + CsvDecode.Examples(n);
    JoinedExamples(a, n);
    var p := Prepare(a, n);
    r := Ok(p);
  }
}
