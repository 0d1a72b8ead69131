/** What each dispatch function does before it allocates or launches
    anything: the checks it runs, in the order it runs them, and the shape of
    the output it allocates.  Python's own failures on the way count too:
    indexing a shape past its rank raises IndexError, unpacking a shape of
    the wrong rank raises ValueError, and allocating with a negative
    dimension raises ValueError. */
module Shapes {
  import opened Arrays
  import opened Validation

  /** Python's `int(x)` on a float: truncation toward zero. */
  function Trunc(x: real): (r: int)
    ensures x >= 0.0 ==> r as real <= x < r as real + 1.0
    ensures x < 0.0 ==> r as real - 1.0 < x <= r as real
  {
    if x >= 0.0 then x.Floor else -((-x).Floor)
  }

  lemma TruncOfIntegral(x: real)
    requires IsIntegral(x)
    ensures Trunc(x) as real == x
  {
    var n := x.Floor;
    if x < 0.0 {
      assert -x == (-n) as real;
      assert ((-n) as real).Floor == -n;
    }
  }

  /** Python's floor division `a // b`: the quotient rounded down, whatever
      the signs. */
  function FloorDiv(a: int, b: int): (r: int)
    requires b != 0
    ensures b > 0 ==> r * b <= a < r * b + b
    ensures b < 0 ==> r * b + b < a <= r * b
  {
    if b > 0 then a / b else (-a) / (-b)
  }

  /** The window width `nF = nW * 2 + 1` of seq2col: the row itself and nW
      neighbours on each side. */
  function Window(nW: int): (r: int)
    ensures r % 2 == 1 && (r - 1) / 2 == nW
    ensures r >= 1 <==> nW >= 0
  {
    nW * 2 + 1
  }

  /** `cupy.array([B], dtype="int32")`: one sequence covering the batch,
      which always passes `_check_lengths(_, B)`. */
  function OneSequence(B: nat): (r: ArrayValue)
    ensures r.WellFormed() && |r.shape| == 1 && |r.elems| == 1
    ensures CheckLengths(r, B) == Pass
  {
    var r := ArrayValue(Int32, [1], [B as real]);
    assert Sum(r.elems) == Offset([B as real], 0) + B as real;
    ProductOfVector(1);
    r
  }

  /** `len(a)`: the first dimension; a zero-dimensional array has no length
      and raises TypeError.  The length of a vector is its element count. */
  function Len(a: ArrayValue): (r: Result<nat>)
    ensures r.Ok? <==> |a.shape| >= 1
    ensures r.Ok? ==> r.value == a.shape[0]
    ensures r.Err? ==> r.error == TypeError
    ensures a.WellFormed() && |a.shape| == 1 ==> r == Ok(|a.elems|)
  {
    VectorLength(a);
    if |a.shape| == 0 then Err(TypeError) else Ok(a.shape[0])
  }

  /** `check_seq2col_lengths(lengths, B)`: the lengths seq2col hands to its
      kernel.  Whatever it hands on passes `_check_lengths(_, B)`. */
  function Seq2colLengths(lengths: Option<ArrayValue>, B: nat): (r: Result<ArrayValue>)
    ensures r.Ok? ==> CheckLengths(r.value, B) == Pass
    ensures lengths.None? ==> r == Ok(OneSequence(B))
    ensures lengths.Some? ==> (r.Ok? <==> CheckLengths(lengths.value, B) == Pass)
    ensures lengths.Some? && r.Ok? ==> r.value == lengths.value
    ensures lengths.Some? && r.Err? ==> CheckLengths(lengths.value, B) == Fail(r.error)
  {
    match lengths
    case None => Ok(OneSequence(B))
    case Some(l) =>
      var c := CheckLengths(l, B);
      if c.Fail? then Err(c.error) else Ok(l)
  }

  /** Leaving `lengths` out is the same as passing the single length `[B]`. */
  lemma OmittedLengthsAreOneSequence(B: nat)
    ensures Seq2colLengths(None, B) == Seq2colLengths(Some(OneSequence(B)), B)
  {
    assert Seq2colLengths(None, B).Ok?;
  }

  // ---------------------------------------------------------------------
  // seq2col and backprop_seq2col
  // ---------------------------------------------------------------------

  /** `seq2col(X, nW, lengths=lengths)` up to allocation: on success, the
      (B, I * nF) shape of its output.  Zero-dimensional lengths pass their
      check and then fail when `lengths.shape[0]` is read. */
  function Seq2colOut(dtype: DType, shape: seq<nat>, nW: int, lengths: Option<ArrayValue>): (r: Result<seq<nat>>)
    ensures r.Ok? <==>
              && IsFloatType(dtype) && |shape| >= 2
              && Seq2colLengths(lengths, shape[0]).Ok?
              && |Seq2colLengths(lengths, shape[0]).value.shape| >= 1
              && shape[1] * Window(nW) >= 0
    ensures r.Ok? ==> r.value == [shape[0], shape[1] * Window(nW)]
    ensures !IsFloatType(dtype) ==> r == Err(AssertionError)
    ensures IsFloatType(dtype) && |shape| < 2 ==> r == Err(IndexError)
    ensures IsFloatType(dtype) && |shape| >= 2 && Seq2colLengths(lengths, shape[0]).Err? ==>
              r == Err(Seq2colLengths(lengths, shape[0]).error)
    ensures IsFloatType(dtype) && |shape| >= 2 && Seq2colLengths(lengths, shape[0]).Ok? &&
              |Seq2colLengths(lengths, shape[0]).value.shape| == 0 ==>
              r == Err(IndexError)
    ensures IsFloatType(dtype) && |shape| >= 2 && Seq2colLengths(lengths, shape[0]).Ok? &&
              |Seq2colLengths(lengths, shape[0]).value.shape| >= 1 && shape[1] * Window(nW) < 0 ==>
              r == Err(ValueError)
  {
    var c := IsFloatArray(dtype, shape, None);
    if c.Fail? then Err(c.error)
    else if |shape| < 2 then Err(IndexError)
    else
      var B, I := shape[0], shape[1];
      match Seq2colLengths(lengths, B)
      case Err(e) => Err(e)
      case Ok(l) =>
        if |l.shape| == 0 then Err(IndexError)
        else if I * Window(nW) < 0 then Err(ValueError)
        else Ok([B, I * Window(nW)])
  }

  /** `backprop_seq2col(dY, nW, lengths=lengths)` up to allocation: on
      success, the (B, dY.shape[1] // nF) shape of its output. */
  function BackpropSeq2colOut(dtype: DType, shape: seq<nat>, nW: int, lengths: Option<ArrayValue>): (r: Result<seq<nat>>)
    ensures r.Ok? <==>
              && IsFloatType(dtype) && |shape| >= 2
              && Seq2colLengths(lengths, shape[0]).Ok?
              && |Seq2colLengths(lengths, shape[0]).value.shape| >= 1
              && FloorDiv(shape[1], Window(nW)) >= 0
    ensures r.Ok? ==> r.value == [shape[0], FloorDiv(shape[1], Window(nW))]
    ensures !IsFloatType(dtype) ==> r == Err(AssertionError)
    ensures IsFloatType(dtype) && |shape| < 2 ==> r == Err(IndexError)
    ensures IsFloatType(dtype) && |shape| >= 2 && Seq2colLengths(lengths, shape[0]).Err? ==>
              r == Err(Seq2colLengths(lengths, shape[0]).error)
    ensures IsFloatType(dtype) && |shape| >= 2 && Seq2colLengths(lengths, shape[0]).Ok? &&
              |Seq2colLengths(lengths, shape[0]).value.shape| == 0 ==>
              r == Err(IndexError)
    ensures IsFloatType(dtype) && |shape| >= 2 && Seq2colLengths(lengths, shape[0]).Ok? &&
              |Seq2colLengths(lengths, shape[0]).value.shape| >= 1 && FloorDiv(shape[1], Window(nW)) < 0 ==>
              r == Err(ValueError)
  {
    var c := IsFloatArray(dtype, shape, None);
    if c.Fail? then Err(c.error)
    else if |shape| < 2 then Err(IndexError)
    else
      var B, I := shape[0], FloorDiv(shape[1], Window(nW));
      match Seq2colLengths(lengths, B)
      case Err(e) => Err(e)
      case Ok(l) =>
        if |l.shape| == 0 then Err(IndexError)
        else if I < 0 then Err(ValueError)
        else Ok([B, I])
  }

  /** Whether seq2col and backprop_seq2col launch their kernel: only when
      both the input and the lengths are non-empty; otherwise the output
      stays all zeros. */
  predicate Seq2colLaunches(shape: seq<nat>, lengths: ArrayValue) {
    Product(shape) != 0 && |lengths.elems| != 0
  }

  /** With a non-negative window, the gradient of seq2col's output has the
      shape of seq2col's input: backprop_seq2col reads the width back as
      (I * nF) // nF = I. */
  lemma Seq2colRoundTrip(dtype: DType, B: nat, I: nat, nW: nat, lengths: Option<ArrayValue>)
    requires Seq2colOut(dtype, [B, I], nW, lengths).Ok?
    ensures BackpropSeq2colOut(dtype, Seq2colOut(dtype, [B, I], nW, lengths).value, nW, lengths) == Ok([B, I])
  {
    var nF := Window(nW);
    ExactQuotient(I, nF);
  }

  /** A non-negative window never makes seq2col or backprop_seq2col fail
      on allocation: every failure is the float check, a missing dimension
      or the lengths. */
  lemma NonNegativeWindowAllocates(dtype: DType, shape: seq<nat>, nW: nat, lengths: Option<ArrayValue>)
    requires IsFloatType(dtype) && |shape| >= 2 && Seq2colLengths(lengths, shape[0]).Ok?
    requires |Seq2colLengths(lengths, shape[0]).value.shape| >= 1
    ensures Seq2colOut(dtype, shape, nW, lengths) == Ok([shape[0], shape[1] * Window(nW)])
    ensures BackpropSeq2colOut(dtype, shape, nW, lengths).Ok?
  {
    var nF := Window(nW);
    MulMonotone(0, shape[1], nF);
    assert FloorDiv(shape[1], nF) == shape[1] / nF;
  }

  /** backprop_seq2col ignores trailing columns that do not fill a whole
      window: dY of width I * nF + k, for k < nF, gives the width I. */
  lemma BackpropSeq2colDropsPartialWindow(dtype: DType, B: nat, I: nat, k: nat, nW: nat, lengths: Option<ArrayValue>)
    requires k < Window(nW)
    requires BackpropSeq2colOut(dtype, [B, I * Window(nW) + k], nW, lengths).Ok?
    ensures BackpropSeq2colOut(dtype, [B, I * Window(nW) + k], nW, lengths).value == [B, I]
  {
    var nF := Window(nW);
    var q := FloorDiv(I * nF + k, nF);
    if q < I {
      MulMonotone(q + 1, I, nF);
      assert false;
    } else if q > I {
      MulMonotone(I + 1, q, nF);
      assert false;
    }
  }

  /** (a * b) // b == a for a positive b. */
  lemma ExactQuotient(a: nat, b: int)
    requires b > 0
    ensures FloorDiv(a * b, b) == a
  {
    var q := FloorDiv(a * b, b);
    if q < a {
      MulMonotone(q + 1, a, b);
      assert false;
    } else if q > a {
      MulMonotone(a + 1, q, b);
      assert false;
    }
  }

  // ---------------------------------------------------------------------
  // maxout and backprop_maxout
  // ---------------------------------------------------------------------

  /** `maxout(X)` up to allocation: X must have exactly three dimensions
      (B, I, P); on success, the (B, I) shape of both outputs. */
  function MaxoutOut(dtype: DType, shape: seq<nat>): (r: Result<seq<nat>>)
    ensures r.Ok? <==> IsFloatType(dtype) && |shape| == 3
    ensures r.Ok? ==> r.value == shape[..2]
    ensures !IsFloatType(dtype) ==> r == Err(AssertionError)
    ensures IsFloatType(dtype) && |shape| != 3 ==> r == Err(ValueError)
  {
    var c := IsFloatArray(dtype, shape, None);
    if c.Fail? then Err(c.error)
    else if |shape| != 3 then Err(ValueError)
    else Ok([shape[0], shape[1]])
  }

  /** `backprop_maxout(dY, which, P)` up to allocation: the (B, I, P) output
      is allocated before `which` is checked, so a negative P fails first. */
  function BackpropMaxoutOut(dtype: DType, shape: seq<nat>, which: ArrayValue, P: int): (r: Result<seq<nat>>)
    ensures r.Ok? <==>
              && IsFloatType(dtype) && |shape| >= 2 && P >= 0
              && CheckWhichMaxout(which, shape[0], shape[1], P) == Pass
    ensures r.Ok? ==> r.value == [shape[0], shape[1], P]
    ensures !IsFloatType(dtype) ==> r == Err(AssertionError)
    ensures IsFloatType(dtype) && |shape| < 2 ==> r == Err(IndexError)
    ensures IsFloatType(dtype) && |shape| >= 2 && P < 0 ==> r == Err(ValueError)
    ensures IsFloatType(dtype) && |shape| >= 2 && P >= 0 && r.Err? ==>
              Fail(r.error) == CheckWhichMaxout(which, shape[0], shape[1], P)
  {
    var c := IsFloatArray(dtype, shape, None);
    if c.Fail? then Err(c.error)
    else if |shape| < 2 then Err(IndexError)
    else
      var B, I := shape[0], shape[1];
      if P < 0 then Err(ValueError)
      else
        var w := CheckWhichMaxout(which, B, I, P);
        if w.Fail? then Err(w.error) else Ok([B, I, P])
  }

  /** The shapes maxout produces feed back into backprop_maxout: its
      gradient has maxout's input shape, exactly when every index in `which`
      names one of the P candidates; otherwise IndexError. */
  lemma MaxoutRoundTrip(dtype: DType, B: nat, I: nat, P: nat, which: ArrayValue)
    requires MaxoutOut(dtype, [B, I, P]).Ok?
    requires which.dtype == Int32 && which.shape == MaxoutOut(dtype, [B, I, P]).value
    ensures (forall i :: 0 <= i < |which.elems| ==> 0.0 <= which.elems[i] < P as real) ==>
              BackpropMaxoutOut(dtype, [B, I], which, P) == Ok([B, I, P])
    ensures (exists i :: 0 <= i < |which.elems| && !(0.0 <= which.elems[i] < P as real)) ==>
              BackpropMaxoutOut(dtype, [B, I], which, P) == Err(IndexError)
  {
    assert which.shape == [B, I];
  }

  // ---------------------------------------------------------------------
  // reduce_sum, reduce_mean, reduce_max and their gradients
  // ---------------------------------------------------------------------

  /** `reduce_sum`, `reduce_mean` and `reduce_max` of a (T, O) input up to
      allocation: the lengths must sum to T; on success, the (B, O) shape of
      the output, one row per sequence. */
  function ReduceOut(dtype: DType, shape: seq<nat>, lengths: ArrayValue): (r: Result<seq<nat>>)
    ensures r.Ok? <==>
              IsFloatType(dtype) && |lengths.shape| >= 1 && |shape| >= 2 && CheckLengths(lengths, shape[0]) == Pass
    ensures r.Ok? ==> r.value == [lengths.shape[0], shape[1]]
    ensures !IsFloatType(dtype) ==> r == Err(AssertionError)
    ensures IsFloatType(dtype) && |lengths.shape| == 0 ==> r == Err(TypeError)
    ensures IsFloatType(dtype) && |lengths.shape| >= 1 && |shape| < 2 ==> r == Err(IndexError)
    ensures IsFloatType(dtype) && |lengths.shape| >= 1 && |shape| >= 2 && r.Err? ==>
              Fail(r.error) == CheckLengths(lengths, shape[0])
  {
    var c := IsFloatArray(dtype, shape, None);
    if c.Fail? then Err(c.error)
    else
      match Len(lengths)
      case Err(e) => Err(e)
      case Ok(B) =>
        if |shape| < 2 then Err(IndexError)
        else
          var T, O := shape[0], shape[1];
          var l := CheckLengths(lengths, T);
          if l.Fail? then Err(l.error) else Ok([B, O])
  }

  /** The number of rows the gradient of a reduction has:
      `int(lengths.sum())`, which is the sum itself for int32 lengths. */
  function Rows(lengths: ArrayValue): (r: int)
    ensures lengths.WellFormed() && lengths.dtype == Int32 ==> r as real == Sum(lengths.elems)
  {
    Int32SumIsExact(lengths);
    Trunc(Sum(lengths.elems))
  }

  lemma Int32SumIsExact(lengths: ArrayValue)
    ensures lengths.WellFormed() && lengths.dtype == Int32 ==> Trunc(Sum(lengths.elems)) as real == Sum(lengths.elems)
  {
    if lengths.WellFormed() && lengths.dtype == Int32 {
      assert forall i :: 0 <= i < |lengths.elems| ==> IsIntegral(lengths.elems[i]) by {
        forall i | 0 <= i < |lengths.elems| ensures IsIntegral(lengths.elems[i]) {
          assert Representable(Int32, lengths.elems[i]);
        }
      }
      SumIntegral(lengths.elems);
      TruncOfIntegral(Sum(lengths.elems));
    }
  }

  /** `backprop_reduce_sum` and `backprop_reduce_mean` up to allocation: T
      is taken from the lengths themselves; on success, the (T, O) shape of
      the output.  The row count of the incoming gradient is not read. */
  function BackpropReduceOut(dtype: DType, shape: seq<nat>, lengths: ArrayValue): (r: Result<seq<nat>>)
    ensures r.Ok? <==>
              IsFloatType(dtype) && |lengths.shape| >= 1 && |shape| >= 2 && CheckLengths(lengths, Rows(lengths)) == Pass
    ensures r.Ok? ==> Rows(lengths) >= 0 && r.value == [Rows(lengths), shape[1]]
    ensures !IsFloatType(dtype) ==> r == Err(AssertionError)
    ensures IsFloatType(dtype) && |lengths.shape| == 0 ==> r == Err(TypeError)
    ensures IsFloatType(dtype) && |lengths.shape| >= 1 && |shape| < 2 ==> r == Err(IndexError)
    ensures IsFloatType(dtype) && |lengths.shape| >= 1 && |shape| >= 2 && r.Err? ==>
              Fail(r.error) == CheckLengths(lengths, Rows(lengths))
  {
    var c := IsFloatArray(dtype, shape, None);
    if c.Fail? then Err(c.error)
    else if Len(lengths).Err? then Err(Len(lengths).error)
    else
      var T := Rows(lengths);
      if |shape| < 2 then Err(IndexError)
      else
        var O := shape[1];
        var l := CheckLengths(lengths, T);
        if l.Fail? then Err(l.error)
        else
          SegmentsTile(lengths, T);
          Ok([T as nat, O])
  }

  /** `backprop_reduce_max` up to allocation: as the other reduction
      gradients, and then `which` is checked against the (B, O) shape and
      the per-sequence bounds, after the lengths.  For lengths of at most
      one dimension B = len(lengths) is the number of lengths. */
  function BackpropReduceMaxOut(dtype: DType, shape: seq<nat>, which: ArrayValue, lengths: ArrayValue): (r: Result<seq<nat>>)
    requires which.WellFormed()
    requires lengths.WellFormed() && |lengths.shape| <= 1
    ensures r.Ok? <==>
              && BackpropReduceOut(dtype, shape, lengths).Ok?
              && CheckWhichReduceMax(which, [|lengths.elems|, shape[1]], lengths) == Pass
    ensures r.Ok? ==> r == BackpropReduceOut(dtype, shape, lengths)
    ensures BackpropReduceOut(dtype, shape, lengths).Err? ==> r == BackpropReduceOut(dtype, shape, lengths)
    ensures BackpropReduceOut(dtype, shape, lengths).Ok? && r.Err? ==>
              Fail(r.error) == CheckWhichReduceMax(which, [|lengths.elems|, shape[1]], lengths)
  {
    match BackpropReduceOut(dtype, shape, lengths)
    case Err(e) => Err(e)
    case Ok(outShape) =>
      var w := CheckWhichReduceMax(which, [|lengths.elems|, shape[1]], lengths);
      if w.Fail? then Err(w.error) else Ok(outShape)
  }

  /** The sum-mismatch IndexError of `_check_lengths` cannot fire in the
      reduction gradients, since T is the sum itself: their only IndexError
      is a missing dimension of the incoming gradient. */
  lemma BackpropReduceHasNoSumMismatch(dtype: DType, shape: seq<nat>, lengths: ArrayValue)
    requires lengths.WellFormed()
    ensures BackpropReduceOut(dtype, shape, lengths) == Err(IndexError) ==> |shape| < 2
  {
    if lengths.dtype == Int32 {
      assert CheckLengths(lengths, Rows(lengths)) != Fail(IndexError);
    }
  }

  /** A reduction's gradient has the reduction's input shape: the (B, O)
      output of reduce_sum or reduce_mean on (T, O) goes back to (T, O). */
  lemma ReduceRoundTrip(dtype: DType, T: nat, O: nat, lengths: ArrayValue)
    requires ReduceOut(dtype, [T, O], lengths).Ok?
    ensures BackpropReduceOut(dtype, ReduceOut(dtype, [T, O], lengths).value, lengths) == Ok([T, O])
  {
    assert Rows(lengths) == T;
  }

  /** The same for reduce_max, whose gradient also needs the argmax indices:
      it goes back to (T, O) exactly when every `which[b][o]` lies inside
      sequence b, and a `which` of the forward output's shape fails only
      with IndexError. */
  lemma ReduceMaxRoundTrip(dtype: DType, T: nat, O: nat, which: ArrayValue, lengths: ArrayValue)
    requires ReduceOut(dtype, [T, O], lengths).Ok?
    requires lengths.WellFormed() && |lengths.shape| <= 1
    requires which.WellFormed() && which.dtype == Int32
    requires which.shape == ReduceOut(dtype, [T, O], lengths).value
    ensures BackpropReduceMaxOut(dtype, which.shape, which, lengths) == Ok([T, O]) <==>
              forall b, o :: 0 <= b < |lengths.elems| && 0 <= o < O ==>
                               0.0 <= Elem2(which, b, o) < lengths.elems[b]
    ensures BackpropReduceMaxOut(dtype, which.shape, which, lengths).Err? ==>
              BackpropReduceMaxOut(dtype, which.shape, which, lengths) == Err(IndexError)
  {
    ReduceRoundTrip(dtype, T, O, lengths);
    assert Len(lengths) == Ok(|lengths.elems|);
  }

  // ---------------------------------------------------------------------
  // Activations and hash
  // ---------------------------------------------------------------------

  /** The checks of an activation gradient: `_is_float_array(dY)`, then
      `_is_float_array(x, shape=dY.shape)` for each further input in turn.
      A forward activation has no further inputs. */
  function ActivationCheck(dtype: DType, shape: seq<nat>, others: seq<(DType, seq<nat>)>): (r: Outcome)
    ensures r == Pass <==>
              IsFloatType(dtype) && forall i :: 0 <= i < |others| ==> IsFloatType(others[i].0) && others[i].1 == shape
    ensures !IsFloatType(dtype) ==> r == Fail(AssertionError)
    ensures IsFloatType(dtype) ==> r == FirstMismatch(shape, others)
  {
    var c := IsFloatArray(dtype, shape, None);
    if c.Fail? then c else FirstMismatch(shape, others)
  }

  /** The outcome of checking each input against the type and shape of
      `dY` in turn: the first input that fails decides the exception. */
  function FirstMismatch(shape: seq<nat>, others: seq<(DType, seq<nat>)>): (r: Outcome)
    ensures r == Pass <==> forall i :: 0 <= i < |others| ==> IsFloatType(others[i].0) && others[i].1 == shape
    ensures forall i :: 0 <= i < |others| && IsFloatArray(others[i].0, others[i].1, Some(shape)) != Pass ==>
              (forall j :: 0 <= j < i ==> IsFloatArray(others[j].0, others[j].1, Some(shape)) == Pass) ==>
                r == IsFloatArray(others[i].0, others[i].1, Some(shape))
  {
    if others == [] then Pass
    else
      var c := IsFloatArray(others[0].0, others[0].1, Some(shape));
      if c.Fail? then c
      else
        var rest := FirstMismatch(shape, others[1..]);
        assert forall i :: 1 <= i < |others| ==> others[i] == others[1..][i - 1];
        rest
  }

  /** The input checks compare shapes and that each input is a float array,
      not that the element types agree: a float32 gradient with a float64
      input passes, and the `<float>` kernel is chosen from dY alone. */
  lemma MixedPrecisionPasses(shape: seq<nat>)
    ensures ActivationCheck(Float32, shape, [(Float64, shape)]) == Pass
  {
    assert FirstMismatch(shape, [(Float64, shape)]) == FirstMismatch(shape, []);
  }

  /** `hash(ids, seed)` up to allocation: one row of four uint32 words per
      id.  The element type of `ids` is not checked. */
  function HashOut(shape: seq<nat>): (r: Result<seq<nat>>)
    ensures r.Ok? <==> |shape| >= 1
    ensures r.Ok? ==> r.value == [shape[0], 4]
    ensures r.Err? ==> r.error == IndexError
  {
    if |shape| == 0 then Err(IndexError) else Ok([shape[0], 4])
  }
}
