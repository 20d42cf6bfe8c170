# Wind anomaly driver and structured-object contract, modelled in Dafny

This project models two pieces of the `tilitools` structured-output library
in Dafny and proves properties of them:

- **`SOInterface`** (`so_interface.py`): the base contract every structured
  model fulfils. The constructor stores the data `X` and the state sequences
  `y`, and it derives `samples` and `dims` from `X`. A single matrix gives
  its column and row counts. A list of matrices gives its length and the
  row count of its first matrix. `get_num_samples` returns the stored count.
  `argmin` is `argmax` with the quadratic objective. `argmax`, `calc_loss`,
  `get_joint_feature_map` and `get_num_dims` raise NotImplementedError
  until a concrete model overrides them.
- **The data preparation of the wind experiment** (`14_nips_wind.py`):
  - `remove_mean` centers every channel of a list of channel × time matrices
    in place, then recomputes the mean (which is zero).
  - `load_data` reads `num_exms` numbered CSV files. Row 1 of each file
    holds the one-based labels, rows 3 and on one channel each. Rows 0 and 2
    are not read. The channel sums are then divided by their norm, which
    fails when they are all zero.
  - The main block joins the anomalous and the normal examples, centers
    them, and splits them into a training set and a test set.

Modules, one per file:

| file | module | what |
|---|---|---|
| `results.dfy` | `Results` | `Option` and `Result`, the outcome of an operation that may fail |
| `series.dfy` | `Series` | sums of real sequences; the values held by an array of matrices (`Cells`, `Snapshot`) and the arrays themselves (`Frame`) |
| `so_interface.dfy` | `StructuredObject` | class `SOInterface`, `Create` |
| `mean_removal.dfy` | `MeanRemoval` | the centering as a function on values, its properties, and the in-place methods |
| `file_names.dfy` | `FileNames` | `'{0}{1}{2:03d}.csv'`, with its round trip and injectivity |
| `csv_decode.dfy` | `CsvDecode` | the row layout of a file (`Decode`), the row-by-row reader, and `LoadData` |
| `split.dfy` | `Split` | the experiment's constants, Python slicing, the split, `Prepare` and one run of the experiment (`Experiment`) |

Numbers are exact reals, so the algebraic properties of the centering hold
exactly. The CSV files come in already read and parsed: a map from file
name to a table of rows, each a sequence of cells that are integers or
other numbers. A file missing from the map is the case where `open` fails.
The concrete model a subclass supplies is an `Overrides` record of optional
functions, one per abstract member. `None` keeps the base class's
NotImplementedError.

## Model

| member | source | states |
|---|---|---|
| StructuredObject.SOInterface.constructor | so_interface.py:16-25 | `X` and `y` are stored as given. For a matrix, `dims` is its row count and `samples` its column count. For a non-empty list, `samples` is its length and `dims` the row count of its first matrix. |
| StructuredObject.Create | so_interface.py:16-25 | Construction fails with IndexError exactly when `X` is an empty list. Otherwise it yields a fresh, valid object that stores `X` and `y`. |
| StructuredObject.SOInterface.Argmax | so_interface.py:32 | Fails with NotImplementedError exactly when no model overrides it. Otherwise it is the override applied to `sol`, `idx`, `add_loss` and `opt_type` (defaults `False` and linear). |
| StructuredObject.SOInterface.Argmin | so_interface.py:29-30 | Equals `argmax(sol, idx)` with `add_loss` false and the quadratic objective. Fails on the base class. |
| StructuredObject.SOInterface.CalcLoss | so_interface.py:34 | Fails with NotImplementedError exactly when not overridden. Otherwise it is the override's loss. |
| StructuredObject.SOInterface.GetJointFeatureMap | so_interface.py:36 | Fails with NotImplementedError exactly when not overridden. Otherwise it is the override's feature vector (`y` defaults to empty). |
| StructuredObject.SOInterface.GetNumDims | so_interface.py:41 | Fails with NotImplementedError exactly when not overridden. |
| StructuredObject.SOInterface.GetNumSamples | so_interface.py:38-39 | Returns the stored `samples`, which is the number of samples in `X` when the object is valid. |
| MeanRemoval.RemoveMean | 14_nips_wind.py:22-41 | Returns the same list. Afterwards the matrices hold the centered values of what they held before. The recomputed mean is zero in every channel. |
| MeanRemoval.Centered | 14_nips_wind.py:31-33 | Centering keeps the number of sequences, every matrix's shape and the summed sequence length. |
| MeanRemoval.ChannelTotals | 14_nips_wind.py:23-28 | `cnt` is the summed sequence length over all matrices, and `total[d]` is the sum of channel `d` over every sequence and time step. |
| MeanRemoval.ChannelMeans | 14_nips_wind.py:23-29 | `cnt` equals the summed column count. `mean[d]` is the channel-`d` total divided by `cnt`. |
| MeanRemoval.Means | 14_nips_wind.py:23-29 | `tst_mean / cnt`: per channel, the total over all sequences and time steps divided by the summed length. |
| MeanRemoval.CenterAll | 14_nips_wind.py:31-33 | Every matrix with `mean[d]` taken off each entry of channel `d`. |
| MeanRemoval.MatrixChannelSums | 14_nips_wind.py:28 | `ones(1, lens) * X[i].trans()` is, for each channel, the sum of that channel's row. |
| MeanRemoval.CenterInPlace | 14_nips_wind.py:32-33 | Every entry of channel `d` of one matrix loses `mean[d]`, and nothing else in the matrix changes. |
| MeanRemoval.CenterEach | 14_nips_wind.py:31-33 | For distinct matrices, each is centered exactly once by the same mean. |
| MeanRemoval.CenterAllTotal | 14_nips_wind.py:31-33 | Subtracting any per-channel constant lowers a channel total by that constant once per time step. |
| MeanRemoval.CenteredEntry | 14_nips_wind.py:23-33 | Every entry of channel `d` loses the same constant: the channel total divided by `cnt`. |
| MeanRemoval.ChannelsSumToZero | 14_nips_wind.py:22-33 | After centering, each channel sums to zero over all sequences and time steps. |
| MeanRemoval.ResidualMeansZero | 14_nips_wind.py:34-40 | The mean recomputed after centering is zero in every channel. |
| MeanRemoval.CenteredIdempotent | 14_nips_wind.py:22-41 | Centering already-centered data changes nothing. |
| FileNames.Format03 | 14_nips_wind.py:60 | `{2:03d}`: a number zero-padded to three characters, with a minus sign and two padded digits for a negative number (`-05`). |
| FileNames.FileName | 14_nips_wind.py:60 | `'{0}{1}{2:03d}.csv'`: the directory, the prefix, the padded number and `.csv`, joined. |
| FileNames.FormatNatural | 14_nips_wind.py:60 | `{2:03d}` of a non-negative number is all digits, and at least three of them. |
| FileNames.FormatRoundTrip | 14_nips_wind.py:60 | The padded number reads back as the number it came from, negative numbers included. |
| FileNames.FileNameInjective | 14_nips_wind.py:60 | Different file numbers give different file names. |
| CsvDecode.Decode | 14_nips_wind.py:57-72 | The decoding of one file's rows: the labels of row 1, channel `d` from row `d + 3`, and `phi[d]` the channel's sum, or the first error a row raises. |
| CsvDecode.Fits | 14_nips_wind.py:63-72 | The layout a file must have to be read without an exception. |
| CsvDecode.ReadLabelRow | 14_nips_wind.py:64-66 | Each data cell `t` of row 1 writes `lbl[t] = int(row[t+1]) - 1`; the first column is skipped. It fails at the first non-integer cell or the first cell past `LEN`. |
| CsvDecode.ReadChannelRow | 14_nips_wind.py:67-70 | Row `k >= 3` writes channel `k - 3` from column 1 on, and adds the row's sum to `phi[k - 3]`. It fails at the first cell whose channel or time index is out of range. |
| CsvDecode.ReadExample | 14_nips_wind.py:57-72 | Reading a file row by row gives its decoding, or the first error the reading meets. |
| CsvDecode.RowFits | 14_nips_wind.py:64-70 | A row is accepted exactly when it fits the layout. Row 1 has at most `LEN` cells, all integers. Row `k >= 3` has at most `LEN` cells, and none when `k - 3 >= DIMS`. |
| CsvDecode.DecodeSucceedsIff | 14_nips_wind.py:63-72 | A file decodes without error exactly when every row fits the layout. |
| CsvDecode.DecodedChannel | 14_nips_wind.py:59-69 | Channel `d` is row `d + 3`'s data cells, padded with zeros to `LEN` (all zeros when that row is absent). |
| CsvDecode.PhiIsChannelSum | 14_nips_wind.py:67-70 | The un-normalised `phi[d]` is the sum of decoded channel `d`. |
| CsvDecode.IgnoredRows | 14_nips_wind.py:63-72 | Whatever rows 0 and 2 hold, the decoding is the same. |
| CsvDecode.ZeroVector | 14_nips_wind.py:73-75 | The case where the 2-norm of `phi_i` is zero: every entry is zero. |
| CsvDecode.LoadOne | 14_nips_wind.py:54-75 | Example `i`: a missing index, a missing file, the file's decoding error, a zero norm, or the decoded example. |
| CsvDecode.HeaderOnlyFails | 14_nips_wind.py:57-75 | A file with no channel rows, only up to three header rows with any content that fits the layout, decodes with zero channel sums, so its load fails on the zero norm. |
| CsvDecode.LoadAll | 14_nips_wind.py:54-82 | The first `n` examples of a load in order, or the error of the first one that fails. |
| CsvDecode.LoadAllIff | 14_nips_wind.py:54-75 | A load of `n` examples succeeds exactly when each of its examples does. Example `i` is then the decoding of the file numbered `inds[i] + 1`, whose channel sums are not all zero. |
| CsvDecode.LoadSticky | 14_nips_wind.py:54-60 | The first failing example ends the load with its error. |
| CsvDecode.DistinctFiles | 14_nips_wind.py:60 | Distinct indices name distinct files. |
| CsvDecode.LoadExample | 14_nips_wind.py:56-75 | Example `i`: a missing index, a missing file, the file's decoding error, a zero norm, or the file's decoding in a fresh `DIMS × LEN` matrix. |
| CsvDecode.Append | 14_nips_wind.py:77-80 | Each of the four lists is extended by its part of one example. |
| CsvDecode.LoadData | 14_nips_wind.py:44-82 | It fails with the load's first error, or it returns four lists of length `num_exms` holding the decoded examples in order. The matrices are fresh and distinct, and every marker equals `label`. |
| Split.TrainIndex | 14_nips_wind.py:125-133 | Where training example `k` sits in the joined list: anomalies 0-19, then normals 0-99 (joined 40-139). |
| Split.TestIndex | 14_nips_wind.py:125-133 | Where test example `k` sits in the joined list: anomalies 20-39, then normals 100-199 (joined 140-239). |
| Split.Slice | 14_nips_wind.py:125-133 | Python's `s[lo:hi]`: both bounds are clamped to the list, and element `k` is `s[lo + k]`. |
| Split.SplitLists | 14_nips_wind.py:125-133 | Both sets have 120 elements. Training element `k` is joined element `TrainIndex(k)`, test element `k` is joined element `TestIndex(k)`. |
| Split.SplitPartition | 14_nips_wind.py:125-133 | Each of the 240 joined examples has exactly one place in the two sets of 120, and each place holds exactly one example. |
| Split.SplitDisjoint | 14_nips_wind.py:125-133 | No example is in both the training set and the test set. |
| Split.SplitAnomalies | 14_nips_wind.py:125-133 | Each set holds anomalies in its first 20 places and normals in the other 100. |
| Split.AnomalyProbability | 14_nips_wind.py:99-102 | 40 anomalies and 200 normals, so `anom_prob` is 40/240, one in six. |
| Split.BoundC | 14_nips_wind.py:148 | The bound `1/(samples * anom_prob)` over the 240 joined examples is one over the 40 anomalies. |
| Split.Prepare | 14_nips_wind.py:117-133 | The joined lists are the anomalies followed by the normals, and the markers are 40 ones followed by 200 zeros. The joined matrices are centered in place. The training and test sets are the split of the joined list, including the centered normals shared with the normal list. |
| Split.Experiment | 14_nips_wind.py:87-133 | Loads 40 anomalies from `winddata_A15_only_` files and 200 normals from `winddata_C10_only_` files in `/home/nicococo/Code/wind/`, marked 1 and 0. It fails with the first load's error, else with the second's. Otherwise the joined labels and features are those of the loaded examples in order, and the markers are 40 ones followed by 200 zeros. The joined matrices hold their centered channels, and the two sets are cut from the joined list. |

## Left out

- Opening files and parsing CSV text (lines 60-63) are not modelled. Files are a map from name to parsed rows, and a name missing from the map is a failed `open`.
- A cell is an integer or another number, so the ValueError that `int()` (line 66) or `float()` (lines 69-70) raise on a non-numeric cell is not modelled.
- CsvDecode.LoadData: returns `phi` before the L2 normalisation of lines 73-75, which needs a square root and floating-point behaviour. The failure of that division when the norm is zero is modelled (`ZeroNorm`).
- The shuffles `np.random.permutation` (lines 113-114) are not modelled. The index lists are inputs of `Split.Experiment` and `LoadData`. The file counts `EXMS_ANOM` and `EXMS_NON` of lines 90-91, which only size those shuffles, are kept as constants but used nowhere else.
- Everything after line 133 is left out: the `SOHMM` objects, the structured and plain one-class trainers, `Kernel`, plotting, ROC/AUC, `io.savemat` and the prints after line 133. The exception is the bound `C` of lines 148 and 184 (`Split.BoundC`). These classes are not part of this model.
- `Split.Prepare` starts from two successful loads. A failed load raises before the main block continues, which `Split.Experiment` models as an error result.
- The repetition loop of line 111 runs once (`REPS = 1`); `Split.Experiment` models one repetition.
- MeanRemoval.RemoveMean: requires what the code needs to run without an exception:
  - at least one channel;
  - `dims` rows in every matrix: a matrix with another row count makes the product of line 28 a row of the wrong length, and the `+=` into the `1 × dims` `tst_mean` fails; with `dims > 1`, a one-row matrix instead fails at the row index of line 33;
  - a non-zero summed length, since the division at line 29 fails otherwise.
  It also requires distinct matrices, because one matrix listed twice would be centered twice.
- The prints before line 133 are left out too: so_interface.py:26 and 14_nips_wind.py:30 and 103. The print of the recomputed mean at line 40 is modelled as the `residual` output of `MeanRemoval.RemoveMean`.
- Floating-point rounding is not modelled: entries are exact reals. This holds for the centering of `remove_mean` and for the channel sums of `load_data` (lines 69-70). The zero-norm test behind `ZeroNorm` therefore uses exact sums. A row 3 of `0.1, 0.2, -0.3` sums to zero here and the load fails, while in floating point it sums to about 5.6e-17 and the load succeeds.
- StructuredObject.SOInterface: `X` is stored as a value. Python stores a reference, so a caller that later extends its list would see `samples` go stale; the driver never does this.
- StructuredObject.SOInterface.constructor: requires a non-empty list or a matrix. The empty-list failure at line 25 is modelled by `StructuredObject.Create`.
- The class attributes `X = []`, `y = []`, `samples = -1` and `dims = -1` (lines 10-14) are per-instance fields here. The constructor always overwrites them, so their defaults are not visible.
- Subclass overrides are modelled as an `Overrides` record of optional functions, and `opt_type` as a two-value datatype instead of a string.
- The label matrix is a sequence of integers, and `phi` a sequence of reals, instead of cvxopt row matrices.
