/** The structured-object contract every structured model of the library
    fulfils (`SOInterface`): it holds the data `X`, the optional state
    sequences `y`, and the two derived sizes `samples` and `dims`; it answers
    `get_num_samples`, and it offers `argmin` on top of the `argmax` oracle a
    concrete model supplies. The base class itself implements neither
    `argmax`, `calc_loss`, `get_joint_feature_map` nor `get_num_dims`: each
    fails with NotImplementedError until a concrete model overrides it. */
module StructuredObject {
  import opened Results

  /** The objective an `argmax` call optimises (`opt_type`). */
  datatype OptType = Linear | Quadratic

  datatype Error =
    | NotImplemented  // NotImplementedError of an abstract member
    | IndexError      // `X[0]` of an empty list

  /** A state sequence, one discrete state per time step. */
  type Labels = seq<int>

  /** A dense vector: a solution vector or a joint feature vector. */
  type Vector = seq<real>

  /** The data a structured object is built from: either one numeric matrix
      (one column per sample) or a list of matrices (one per sample). */
  datatype Data =
    | Single(m: array2<real>)
    | Many(xs: seq<array2<real>>)

  /** The members a concrete structured model overrides; `None` keeps the
      base class's abstract member. */
  datatype Overrides = Overrides(
    argmax: Option<(Vector, int, bool, OptType) -> Labels>,
    calcLoss: Option<(int, Labels) -> real>,
    jointFeatureMap: Option<(int, Labels) -> Vector>,
    numDims: Option<int>)

  /** The base class on its own: every overridable member is abstract. */
  const Abstract := Overrides(None, None, None, None)

  /** The data `__init__` can take apart: a matrix, or a list with a first element. */
  predicate Sizable(X: Data)
  {
    X.Many? ==> 0 < |X.xs|
  }

  class SOInterface {
    /** The data, as given to the constructor. */
    var X: Data
    /** The state sequences, as given to the constructor (none by default). */
    var y: seq<Labels>
    /** The number of samples. */
    var samples: int
    /** The number of input dimensions of a sample. */
    var dims: int
    /** The members the concrete model supplies. */
    const impl: Overrides

    /** `samples` and `dims` are the ones derived from `X`: the column and row
        counts of a matrix; the length of a list and the row count of its
        first matrix. */
    predicate Valid()
      reads this
    {
      match X
      case Single(m) => dims == m.Length0 && samples == m.Length1
      case Many(xs) => 0 < |xs| && samples == |xs| && dims == xs[0].Length0
    }

    /** `__init__(X, y=[])` for data it can take apart. */
    constructor (X: Data, y: seq<Labels> := [], impl: Overrides := Abstract)
      requires Sizable(X)
      ensures Valid()
      ensures this.X == X && this.y == y && this.impl == impl
      ensures X.Single? ==> dims == X.m.Length0 && samples == X.m.Length1
      ensures X.Many? ==> samples == |X.xs| && dims == X.xs[0].Length0
    {
      this.X := X;
      this.y := y;
      this.impl := impl;
      if X.Single? {
        dims, samples := X.m.Length0, X.m.Length1;
      } else {
        samples := |X.xs|;
        dims := X.xs[0].Length0;
      }
    }

    /** `argmax(sol, idx, add_loss=False, opt_type='linear')`: the concrete
        model's oracle, or NotImplementedError on the base class. */
    function Argmax(sol: Vector, idx: int, addLoss: bool := false, opt: OptType := Linear): (r: Result<Labels, Error>)
      ensures impl.argmax.None? <==> r == Err(NotImplemented)
      ensures impl.argmax.Some? ==> r == Ok(impl.argmax.value(sol, idx, addLoss, opt))
    {
      match impl.argmax
      case None => Err(NotImplemented)
      case Some(oracle) => Ok(oracle(sol, idx, addLoss, opt))
    }

    /** `argmin(sol, idx)`: the oracle with the quadratic objective and no
        loss augmentation. */
    function Argmin(sol: Vector, idx: int): (r: Result<Labels, Error>)
      ensures r == Argmax(sol, idx, false, Quadratic)
      ensures impl.argmax.None? ==> r == Err(NotImplemented)
    {
      Argmax(sol, idx, opt := Quadratic)
    }

    /** `calc_loss(idx, y)`: abstract on the base class. */
    function CalcLoss(idx: int, y: Labels): (r: Result<real, Error>)
      ensures impl.calcLoss.None? <==> r == Err(NotImplemented)
      ensures impl.calcLoss.Some? ==> r == Ok(impl.calcLoss.value(idx, y))
    {
      match impl.calcLoss
      case None => Err(NotImplemented)
      case Some(loss) => Ok(loss(idx, y))
    }

    /** `get_joint_feature_map(idx, y=[])`: abstract on the base class. */
    function GetJointFeatureMap(idx: int, y: Labels := []): (r: Result<Vector, Error>)
      ensures impl.jointFeatureMap.None? <==> r == Err(NotImplemented)
      ensures impl.jointFeatureMap.Some? ==> r == Ok(impl.jointFeatureMap.value(idx, y))
    {
      match impl.jointFeatureMap
      case None => Err(NotImplemented)
      case Some(psi) => Ok(psi(idx, y))
    }

    /** `get_num_dims()`: abstract on the base class. */
    function GetNumDims(): (r: Result<int, Error>)
      ensures impl.numDims.None? <==> r == Err(NotImplemented)
      ensures impl.numDims.Some? ==> r == Ok(impl.numDims.value)
    {
      match impl.numDims
      case None => Err(NotImplemented)
      case Some(n) => Ok(n)
    }

    /** `get_num_samples()`: the stored sample count; on an object whose sizes
        were derived from its data, the number of samples in that data. */
    method GetNumSamples() returns (n: int)
      ensures n == samples
      ensures Valid() ==> n == if X.Single? then X.m.Length1 else |X.xs|
    {
      n := samples;
    }
  }

  /** `SOInterface(X, y)` for any data: fails with IndexError exactly when `X`
      is an empty list, since `X[0]` does not exist. */
  method Create(X: Data, y: seq<Labels> := [], impl: Overrides := Abstract) returns (r: Result<SOInterface, Error>)
    ensures r.Err? <==> X.Many? && |X.xs| == 0
    ensures r.Err? ==> r.error == IndexError
    ensures r.Ok? ==> fresh(r.value) && r.value.Valid()
    ensures r.Ok? ==> r.value.X == X && r.value.y == y && r.value.impl == impl
  {
    if X.Many? && |X.xs| == 0 {
      return Err(IndexError);
    }
    var so := new SOInterface(X, y, impl);
    r := Ok(so);
  }
}
