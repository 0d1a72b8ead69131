/** Device arrays as the kernel dispatch layer sees them: an element type, a
    shape, and a flat row-major buffer of elements.  Floating-point elements
    are modelled as reals (rounding is not modelled); the integer element
    types hold integral values. */
module Arrays {

  /** The NumPy/CuPy element types that can reach the dispatch layer. */
  datatype DType = Float16 | Float32 | Float64 | Int32 | Int64 | UInt32 | UInt64

  /** The element types the kernels are compiled for (float16 is not one of them). */
  predicate IsFloatType(d: DType) {
    d == Float32 || d == Float64
  }

  predicate IsIntegerType(d: DType) {
    d == Int32 || d == Int64 || d == UInt32 || d == UInt64
  }

  predicate IsUnsignedType(d: DType) {
    d == UInt32 || d == UInt64
  }

  predicate IsIntegral(x: real) {
    x.Floor as real == x
  }

  /** Whether an element of type `d` can hold the value `x`. */
  predicate Representable(d: DType, x: real) {
    (IsIntegerType(d) ==> IsIntegral(x)) && (IsUnsignedType(d) ==> x >= 0.0)
  }

  /** Number of elements of an array of the given shape. */
  function Product(shape: seq<nat>): nat {
    if shape == [] then 1 else shape[0] * Product(shape[1..])
  }

  lemma ProductOfVector(n: nat)
    ensures Product([n]) == n
  {
    assert [n][1..] == [];
  }

  lemma ProductOfMatrix(rows: nat, cols: nat)
    ensures Product([rows, cols]) == rows * cols
  {
    assert [rows, cols][1..] == [cols];
    assert [cols][1..] == [];
    assert Product([cols]) == cols * Product([]) == cols;
  }

  lemma ProductOfCube(b: nat, i: nat, p: nat)
    ensures Product([b, i, p]) == b * i * p
  {
    assert [b, i, p][1..] == [i, p];
    ProductOfMatrix(i, p);
  }

  /** Python's exception kinds that the dispatch layer raises. */
  datatype Error = AssertionError | ValueError | IndexError | TypeError

  /** The result of a check that raises or returns nothing. */
  datatype Outcome = Pass | Fail(error: Error)

  /** The result of an operation that raises or returns a value. */
  datatype Result<T> = Ok(value: T) | Err(error: Error)

  datatype Option<T> = None | Some(value: T)

  /** A snapshot of an array: its element type, its shape and its elements in
      row-major order. */
  datatype ArrayValue = ArrayValue(dtype: DType, shape: seq<nat>, elems: seq<real>) {

    /** Every real array has as many elements as its shape says, each of
        its element type. */
    predicate WellFormed() {
      && |elems| == Product(shape)
      && forall i :: 0 <= i < |elems| ==> Representable(dtype, elems[i])
    }
  }

  /** A one-dimensional array has as many elements as its one dimension. */
  lemma VectorLength(a: ArrayValue)
    ensures a.WellFormed() && |a.shape| == 1 ==> |a.elems| == a.shape[0]
  {
    if a.WellFormed() && |a.shape| == 1 {
      assert a.shape == [a.shape[0]];
      ProductOfVector(a.shape[0]);
    }
  }

  /** Multiplying both sides of x <= y by the same non-negative k. */
  lemma MulMonotone(x: int, y: int, k: nat)
    requires x <= y
    ensures x * k <= y * k
  {
    assert y * k == x * k + (y - x) * k;
  }

  /** Row b of a row-major matrix ends no later than the matrix does. */
  lemma RowEndBound(b: nat, rows: nat, cols: nat)
    requires b < rows
    ensures b * cols + cols <= rows * cols
  {
    assert b * cols + cols == (b + 1) * cols;
    var k := rows - (b + 1);
    assert rows * cols == (b + 1) * cols + k * cols;
  }

  /** Element (b, o) of a row-major matrix with `rows` rows and `cols` columns. */
  function At(xs: seq<real>, rows: nat, cols: nat, b: nat, o: nat): real
    requires |xs| == rows * cols && b < rows && o < cols
  {
    RowEndBound(b, rows, cols);
    xs[b * cols + o]
  }

  /** The elements of a new array of the given shape filled with zeros. */
  function ZeroElems(shape: seq<nat>): (r: seq<real>)
    ensures |r| == Product(shape)
    ensures forall i :: 0 <= i < |r| ==> r[i] == 0.0
  {
    seq(Product(shape), _ => 0.0)
  }

  /** `a[b][o]` for a two-dimensional array `a`. */
  function Elem2(a: ArrayValue, b: nat, o: nat): real
    requires a.WellFormed() && |a.shape| == 2 && b < a.shape[0] && o < a.shape[1]
  {
    ProductOfMatrix(a.shape[0], a.shape[1]);
    assert a.shape == [a.shape[0], a.shape[1]];
    At(a.elems, a.shape[0], a.shape[1], b, o)
  }

  /** A device array.  Its element type and shape never change; its elements
      are written in place by kernels and by in-place arithmetic. */
  class NDArray {
    const dtype: DType
    const shape: seq<nat>
    const data: array<real>

    function Value(): ArrayValue
      reads data
    {
      ArrayValue(dtype, shape, data[..])
    }

    ghost predicate Valid()
      reads data
    {
      Value().WellFormed()
    }

    /** `cupy.zeros(shape, dtype=dtype)`: a new array filled with zeros. */
    constructor Zeros(shape: seq<nat>, dtype: DType)
      ensures this.shape == shape && this.dtype == dtype
      ensures fresh(data) && Valid()
      ensures data[..] == ZeroElems(shape)
    {
      this.dtype := dtype;
      this.shape := shape;
      data := new real[Product(shape)](_ => 0.0);
      new;
      assert data[..] == ZeroElems(shape);
    }

    /** `cupy.array(elems, dtype=dtype)` for a vector. */
    constructor Vector(dtype: DType, elems: seq<real>)
      requires forall i :: 0 <= i < |elems| ==> Representable(dtype, elems[i])
      ensures Value() == ArrayValue(dtype, [|elems|], elems)
      ensures fresh(data) && Valid()
    {
      this.dtype := dtype;
      this.shape := [|elems|];
      data := new real[|elems|](i requires 0 <= i < |elems| => elems[i]);
      new;
      assert data[..] == elems;
      assert [|elems|][1..] == [];
    }
  }
}
