/** The dispatch functions: each validates its inputs, allocates its outputs
    and queues one kernel instance on the device.  A failed check raises
    before anything is launched; a kernel writes only into the buffers it
    is given as outputs. */
module Dispatch {
  import opened Arrays
  import opened Validation
  import opened Shapes
  import K = Kernels

  /** The device queued exactly `call` during the operation. */
  twostate predicate LaunchedOnce(dev: K.Device, new call: K.KernelCall)
    reads dev
  {
    dev.launches == old(dev.launches) + [call]
  }

  /** The device queued nothing during the operation. */
  twostate predicate LaunchedNothing(dev: K.Device)
    reads dev
  {
    dev.launches == old(dev.launches)
  }

  /** A new array the operation allocated with the given type and shape. */
  twostate predicate Allocated(new a: NDArray, dtype: DType, shape: seq<nat>)
    reads a.data
  {
    fresh(a) && fresh(a.data) && a.dtype == dtype && a.shape == shape && a.Valid()
  }

  // ---------------------------------------------------------------------
  // Activations and their gradients
  //
  // Their scalar parameters are passed to the kernel as given: a Python int
  // as an integer argument, a float as a real one.  The defaults keep the
  // source's types, so mish's threshold 5 is an integer.
  // ---------------------------------------------------------------------

  /** What an activation (or activation gradient) with primary input `dY`
      did, given the outcome of its checks: on failure it raised and
      launched nothing; on success it wrote into `dY` itself when
      `inplace`, and otherwise into a new array of `dY`'s shape and type
      that held zeros when the kernel started, by the kernel instance for
      `dY`'s type, with `inputs` and the element count as the remaining
      arguments. */
  twostate predicate ActivationDone(dev: K.Device, kernel: K.Kernel, dY: NDArray, checked: Outcome,
                                    inputs: seq<K.Arg>, inplace: bool, new r: Result<NDArray>)
    reads dev, dY.data, if r.Ok? then {r.value.data} else {}
  {
    match checked
    case Fail(e) => r == Err(e) && LaunchedNothing(dev) && unchanged(dY.data)
    case Pass =>
      && r.Ok?
      && (inplace ==> r.value == dY)
      && (!inplace ==> fresh(r.value) && fresh(r.value.data) && r.value.shape == dY.shape && r.value.dtype == dY.dtype)
      && LaunchedOnce(dev, K.KernelCall(kernel, K.VariantFor(dY.dtype), [r.value],
                                        [K.Buf(r.value)] + inputs + [K.IntArg(Product(dY.shape))],
                                        [if inplace then old(dY.data[..]) else ZeroElems(dY.shape)], K.Contents([r.value])))
  }

  /** The common tail of every activation: `out = dY` when `inplace`, else
      `cupy.zeros_like(dY)`; then the kernel instance for `dY`'s type. */
  method Elementwise(dev: K.Device, kernel: K.Kernel, dY: NDArray, inputs: seq<K.Arg>, inplace: bool)
      returns (out: NDArray)
    requires dY.Valid()
    modifies dev, if inplace then {dY.data} else {}
    ensures inplace ==> out == dY
    ensures !inplace ==> Allocated(out, dY.dtype, dY.shape)
    ensures out.Valid()
    ensures LaunchedOnce(dev, K.KernelCall(kernel, K.VariantFor(dY.dtype), [out],
                                           [K.Buf(out)] + inputs + [K.IntArg(Product(dY.shape))],
                                           [if inplace then old(dY.data[..]) else ZeroElems(dY.shape)], K.Contents([out])))
  {
    if inplace {
      out := dY;
    } else {
      out := new NDArray.Zeros(dY.shape, dY.dtype);
    }
    assert K.Contents([out]) == [if inplace then old(dY.data[..]) else ZeroElems(dY.shape)];
    dev.Launch(kernel, K.VariantFor(dY.dtype), [out], [K.Buf(out)] + inputs + [K.IntArg(Product(dY.shape))]);
  }

  /** `clipped_linear(X, inplace, slope, offset, min_val, max_val)`. */
  method ClippedLinear(dev: K.Device, X: NDArray, inplace: bool := false,
                       slope: K.Arg := K.RealArg(1.0), offset: K.Arg := K.RealArg(0.0),
                       minVal: K.Arg := K.RealArg(0.0), maxVal: K.Arg := K.RealArg(1.0))
      returns (r: Result<NDArray>)
    requires X.Valid()
    modifies dev, if inplace then {X.data} else {}
    ensures ActivationDone(dev, K.ClippedLinear, X, ActivationCheck(X.dtype, X.shape, []),
                           [K.Buf(X), slope, offset, minVal, maxVal], inplace, r)
    ensures r.Ok? ==> r.value.Valid()
  {
    var checked := ActivationCheck(X.dtype, X.shape, []);
    if checked.Fail? {
      return Err(checked.error);
    }
    var out := Elementwise(dev, K.ClippedLinear, X,
                           [K.Buf(X), slope, offset, minVal, maxVal], inplace);
    r := Ok(out);
  }

  /** `gelu(X, inplace, threshold)`. */
  method Gelu(dev: K.Device, X: NDArray, inplace: bool := false, threshold: K.Arg := K.RealArg(6.0)) returns (r: Result<NDArray>)
    requires X.Valid()
    modifies dev, if inplace then {X.data} else {}
    ensures ActivationDone(dev, K.Gelu, X, ActivationCheck(X.dtype, X.shape, []),
                           [K.Buf(X), threshold], inplace, r)
    ensures r.Ok? ==> r.value.Valid()
  {
    var checked := ActivationCheck(X.dtype, X.shape, []);
    if checked.Fail? {
      return Err(checked.error);
    }
    var out := Elementwise(dev, K.Gelu, X, [K.Buf(X), threshold], inplace);
    r := Ok(out);
  }

  /** `mish(X, inplace, threshold)`. */
  method Mish(dev: K.Device, X: NDArray, inplace: bool := false, threshold: K.Arg := K.IntArg(5)) returns (r: Result<NDArray>)
    requires X.Valid()
    modifies dev, if inplace then {X.data} else {}
    ensures ActivationDone(dev, K.Mish, X, ActivationCheck(X.dtype, X.shape, []),
                           [K.Buf(X), threshold], inplace, r)
    ensures r.Ok? ==> r.value.Valid()
  {
    var checked := ActivationCheck(X.dtype, X.shape, []);
    if checked.Fail? {
      return Err(checked.error);
    }
    var out := Elementwise(dev, K.Mish, X, [K.Buf(X), threshold], inplace);
    r := Ok(out);
  }

  /** `swish(X, inplace, threshold)`. */
  method Swish(dev: K.Device, X: NDArray, inplace: bool := false, threshold: K.Arg := K.RealArg(17.0)) returns (r: Result<NDArray>)
    requires X.Valid()
    modifies dev, if inplace then {X.data} else {}
    ensures ActivationDone(dev, K.Swish, X, ActivationCheck(X.dtype, X.shape, []),
                           [K.Buf(X), threshold], inplace, r)
    ensures r.Ok? ==> r.value.Valid()
  {
    var checked := ActivationCheck(X.dtype, X.shape, []);
    if checked.Fail? {
      return Err(checked.error);
    }
    var out := Elementwise(dev, K.Swish, X, [K.Buf(X), threshold], inplace);
    r := Ok(out);
  }

  /** `backprop_clipped_linear(dY, X, slope, offset, min_val, max_val, inplace)`. */
  method BackpropClippedLinear(dev: K.Device, dY: NDArray, X: NDArray,
                               slope: K.Arg := K.RealArg(1.0), offset: K.Arg := K.RealArg(0.0),
                               minVal: K.Arg := K.RealArg(0.0), maxVal: K.Arg := K.RealArg(1.0),
                               inplace: bool := false)
      returns (r: Result<NDArray>)
    requires dY.Valid()
    modifies dev, if inplace then {dY.data} else {}
    ensures ActivationDone(dev, K.BackpropClippedLinear, dY, ActivationCheck(dY.dtype, dY.shape, [(X.dtype, X.shape)]),
                           [K.Buf(dY), K.Buf(X), slope, offset, minVal, maxVal],
                           inplace, r)
    ensures r.Ok? ==> r.value.Valid()
  {
    var checked := ActivationCheck(dY.dtype, dY.shape, [(X.dtype, X.shape)]);
    if checked.Fail? {
      return Err(checked.error);
    }
    var out := Elementwise(dev, K.BackpropClippedLinear, dY,
                           [K.Buf(dY), K.Buf(X), slope, offset, minVal, maxVal],
                           inplace);
    r := Ok(out);
  }

  /** `backprop_hard_swish(dY, X, inplace)`. */
  method BackpropHardSwish(dev: K.Device, dY: NDArray, X: NDArray, inplace: bool := false) returns (r: Result<NDArray>)
    requires dY.Valid()
    modifies dev, if inplace then {dY.data} else {}
    ensures ActivationDone(dev, K.BackpropHardSwish, dY, ActivationCheck(dY.dtype, dY.shape, [(X.dtype, X.shape)]),
                           [K.Buf(dY), K.Buf(X)], inplace, r)
    ensures r.Ok? ==> r.value.Valid()
  {
    var checked := ActivationCheck(dY.dtype, dY.shape, [(X.dtype, X.shape)]);
    if checked.Fail? {
      return Err(checked.error);
    }
    var out := Elementwise(dev, K.BackpropHardSwish, dY, [K.Buf(dY), K.Buf(X)], inplace);
    r := Ok(out);
  }

  /** `backprop_hard_swish_mobilenet(dY, X, inplace)`. */
  method BackpropHardSwishMobilenet(dev: K.Device, dY: NDArray, X: NDArray, inplace: bool := false) returns (r: Result<NDArray>)
    requires dY.Valid()
    modifies dev, if inplace then {dY.data} else {}
    ensures ActivationDone(dev, K.BackpropHardSwishMobilenet, dY, ActivationCheck(dY.dtype, dY.shape, [(X.dtype, X.shape)]),
                           [K.Buf(dY), K.Buf(X)], inplace, r)
    ensures r.Ok? ==> r.value.Valid()
  {
    var checked := ActivationCheck(dY.dtype, dY.shape, [(X.dtype, X.shape)]);
    if checked.Fail? {
      return Err(checked.error);
    }
    var out := Elementwise(dev, K.BackpropHardSwishMobilenet, dY, [K.Buf(dY), K.Buf(X)], inplace);
    r := Ok(out);
  }

  /** `backprop_gelu(dY, X, inplace, threshold)`. */
  method BackpropGelu(dev: K.Device, dY: NDArray, X: NDArray, inplace: bool := false, threshold: K.Arg := K.RealArg(6.0)) returns (r: Result<NDArray>)
    requires dY.Valid()
    modifies dev, if inplace then {dY.data} else {}
    ensures ActivationDone(dev, K.BackpropGelu, dY, ActivationCheck(dY.dtype, dY.shape, [(X.dtype, X.shape)]),
                           [K.Buf(dY), K.Buf(X), threshold], inplace, r)
    ensures r.Ok? ==> r.value.Valid()
  {
    var checked := ActivationCheck(dY.dtype, dY.shape, [(X.dtype, X.shape)]);
    if checked.Fail? {
      return Err(checked.error);
    }
    var out := Elementwise(dev, K.BackpropGelu, dY, [K.Buf(dY), K.Buf(X), threshold], inplace);
    r := Ok(out);
  }

  /** `backprop_mish(dY, X, inplace, threshold)`. */
  method BackpropMish(dev: K.Device, dY: NDArray, X: NDArray, inplace: bool := false, threshold: K.Arg := K.IntArg(5)) returns (r: Result<NDArray>)
    requires dY.Valid()
    modifies dev, if inplace then {dY.data} else {}
    ensures ActivationDone(dev, K.BackpropMish, dY, ActivationCheck(dY.dtype, dY.shape, [(X.dtype, X.shape)]),
                           [K.Buf(dY), K.Buf(X), threshold], inplace, r)
    ensures r.Ok? ==> r.value.Valid()
  {
    var checked := ActivationCheck(dY.dtype, dY.shape, [(X.dtype, X.shape)]);
    if checked.Fail? {
      return Err(checked.error);
    }
    var out := Elementwise(dev, K.BackpropMish, dY, [K.Buf(dY), K.Buf(X), threshold], inplace);
    r := Ok(out);
  }

  /** `backprop_swish(dY, X, Y, inplace, threshold)`: X is checked before Y. */
  method BackpropSwish(dev: K.Device, dY: NDArray, X: NDArray, Y: NDArray, inplace: bool := false,
                       threshold: K.Arg := K.RealArg(17.0))
      returns (r: Result<NDArray>)
    requires dY.Valid()
    modifies dev, if inplace then {dY.data} else {}
    ensures ActivationDone(dev, K.BackpropSwish, dY,
                           ActivationCheck(dY.dtype, dY.shape, [(X.dtype, X.shape), (Y.dtype, Y.shape)]),
                           [K.Buf(dY), K.Buf(X), K.Buf(Y), threshold], inplace, r)
    ensures r.Ok? ==> r.value.Valid()
  {
    var checked := ActivationCheck(dY.dtype, dY.shape, [(X.dtype, X.shape), (Y.dtype, Y.shape)]);
    if checked.Fail? {
      return Err(checked.error);
    }
    var out := Elementwise(dev, K.BackpropSwish, dY, [K.Buf(dY), K.Buf(X), K.Buf(Y), threshold], inplace);
    r := Ok(out);
  }

  // ---------------------------------------------------------------------
  // seq2col and backprop_seq2col
  // ---------------------------------------------------------------------

  /** The value of optional lengths, as the checks see them. */
  function LengthsValue(lengths: Option<NDArray>): Option<ArrayValue>
    reads if lengths.Some? then {lengths.value.data} else {}
  {
    if lengths.Some? then Some(lengths.value.Value()) else None
  }

  /** `check_seq2col_lengths(lengths, B)`: the given lengths once checked,
      or a new one-element int32 array holding B. */
  method CheckSeq2colLengths(lengths: Option<NDArray>, B: nat) returns (r: Result<NDArray>)
    requires lengths.Some? ==> lengths.value.Valid()
    ensures r.Err? <==> Seq2colLengths(LengthsValue(lengths), B).Err?
    ensures r.Err? ==> r.error == Seq2colLengths(LengthsValue(lengths), B).error
    ensures r.Ok? ==> r.value.Valid() && r.value.Value() == Seq2colLengths(LengthsValue(lengths), B).value
    ensures r.Ok? && lengths.Some? ==> r.value == lengths.value
    ensures r.Ok? && lengths.None? ==> fresh(r.value) && fresh(r.value.data)
  {
    if lengths.None? {
      var one := new NDArray.Vector(Int32, [B as real]);
      r := Ok(one);
    } else {
      var c := CheckLengths(lengths.value.Value(), B);
      if c.Fail? {
        r := Err(c.error);
      } else {
        r := Ok(lengths.value);
      }
    }
  }

  /** `seq2col(X, nW, lengths=lengths)`: a (B, I * nF) output, written by the
      kernel only when X and the lengths are both non-empty.  `used` is the
      lengths array the kernel is given. */
  method Seq2col(dev: K.Device, X: NDArray, nW: int, lengths: Option<NDArray> := None)
      returns (r: Result<NDArray>, ghost used: Option<NDArray>)
    requires X.Valid()
    requires lengths.Some? ==> lengths.value.Valid()
    modifies dev
    ensures r.Err? <==> Seq2colOut(X.dtype, X.shape, nW, LengthsValue(lengths)).Err?
    ensures r.Err? ==> r.error == Seq2colOut(X.dtype, X.shape, nW, LengthsValue(lengths)).error && LaunchedNothing(dev)
    ensures r.Ok? ==>
              && Allocated(r.value, X.dtype, Seq2colOut(X.dtype, X.shape, nW, LengthsValue(lengths)).value)
              && used.Some? && used.value.Valid()
              && used.value.Value() == Seq2colLengths(LengthsValue(lengths), X.shape[0]).value
              && (lengths.Some? ==> used == lengths)
              && (lengths.None? ==> fresh(used.value.data))
    ensures r.Ok? && !Seq2colLaunches(X.shape, used.value.Value()) ==>
              LaunchedNothing(dev) && r.value.data[..] == ZeroElems(r.value.shape)
    ensures r.Ok? && Seq2colLaunches(X.shape, used.value.Value()) ==>
              LaunchedOnce(dev, K.KernelCall(K.Seq2col, K.VariantFor(X.dtype), [r.value],
                                             [K.Buf(r.value), K.Buf(X), K.Buf(used.value), K.IntArg(nW),
                                              K.IntArg(X.shape[0]), K.IntArg(X.shape[1]), K.IntArg(used.value.shape[0])],
                                             [ZeroElems(r.value.shape)], K.Contents([r.value])))
  {
    used := None;
    var c := IsFloatArray(X.dtype, X.shape, None);
    if c.Fail? {
      return Err(c.error), used;
    }
    if |X.shape| < 2 {
      return Err(IndexError), used;
    }
    var B, nF, I := X.shape[0], Window(nW), X.shape[1];
    var checked := CheckSeq2colLengths(lengths, B);
    if checked.Err? {
      return Err(checked.error), used;
    }
    var L := checked.value;
    used := Some(L);
    if |L.shape| == 0 {
      return Err(IndexError), used;
    }
    var nL := L.shape[0];
    if I * nF < 0 {
      return Err(ValueError), used;
    }
    var out := new NDArray.Zeros([B, I * nF], X.dtype);
    if Product(X.shape) != 0 && L.data.Length != 0 {
      assert K.Contents([out]) == [ZeroElems(out.shape)];
      dev.Launch(K.Seq2col, K.VariantFor(X.dtype), [out],
                 [K.Buf(out), K.Buf(X), K.Buf(L), K.IntArg(nW), K.IntArg(B), K.IntArg(I), K.IntArg(nL)]);
    }
    r := Ok(out);
  }

  /** `backprop_seq2col(dY, nW, lengths=lengths)`: a (B, dY.shape[1] // nF)
      output, written by the kernel only when dY and the lengths are both
      non-empty.  `used` is the lengths array the kernel is given. */
  method BackpropSeq2col(dev: K.Device, dY: NDArray, nW: int, lengths: Option<NDArray> := None)
      returns (r: Result<NDArray>, ghost used: Option<NDArray>)
    requires dY.Valid()
    requires lengths.Some? ==> lengths.value.Valid()
    modifies dev
    ensures r.Err? <==> BackpropSeq2colOut(dY.dtype, dY.shape, nW, LengthsValue(lengths)).Err?
    ensures r.Err? ==> r.error == BackpropSeq2colOut(dY.dtype, dY.shape, nW, LengthsValue(lengths)).error && LaunchedNothing(dev)
    ensures r.Ok? ==>
              && Allocated(r.value, dY.dtype, BackpropSeq2colOut(dY.dtype, dY.shape, nW, LengthsValue(lengths)).value)
              && used.Some? && used.value.Valid()
              && used.value.Value() == Seq2colLengths(LengthsValue(lengths), dY.shape[0]).value
              && (lengths.Some? ==> used == lengths)
              && (lengths.None? ==> fresh(used.value.data))
    ensures r.Ok? && !Seq2colLaunches(dY.shape, used.value.Value()) ==>
              LaunchedNothing(dev) && r.value.data[..] == ZeroElems(r.value.shape)
    ensures r.Ok? && Seq2colLaunches(dY.shape, used.value.Value()) ==>
              LaunchedOnce(dev, K.KernelCall(K.BackpropSeq2col, K.VariantFor(dY.dtype), [r.value],
                                             [K.Buf(r.value), K.Buf(dY), K.Buf(used.value), K.IntArg(nW),
                                              K.IntArg(dY.shape[0]), K.IntArg(r.value.shape[1]),
                                              K.IntArg(used.value.shape[0])],
                                             [ZeroElems(r.value.shape)], K.Contents([r.value])))
  {
    used := None;
    var c := IsFloatArray(dY.dtype, dY.shape, None);
    if c.Fail? {
      return Err(c.error), used;
    }
    if |dY.shape| < 2 {
      return Err(IndexError), used;
    }
    var B, nF := dY.shape[0], Window(nW);
    var I := FloorDiv(dY.shape[1], nF);
    var checked := CheckSeq2colLengths(lengths, B);
    if checked.Err? {
      return Err(checked.error), used;
    }
    var L := checked.value;
    used := Some(L);
    if |L.shape| == 0 {
      return Err(IndexError), used;
    }
    var nL := L.shape[0];
    if I < 0 {
      return Err(ValueError), used;
    }
    var out := new NDArray.Zeros([B, I], dY.dtype);
    if Product(dY.shape) != 0 && L.data.Length != 0 {
      assert K.Contents([out]) == [ZeroElems(out.shape)];
      dev.Launch(K.BackpropSeq2col, K.VariantFor(dY.dtype), [out],
                 [K.Buf(out), K.Buf(dY), K.Buf(L), K.IntArg(nW), K.IntArg(B), K.IntArg(I), K.IntArg(nL)]);
    }
    r := Ok(out);
  }

  // ---------------------------------------------------------------------
  // maxout and backprop_maxout
  // ---------------------------------------------------------------------

  /** `maxout(X)` on a (B, I, P) input: the best of the P candidates and its
      int32 index, both (B, I). */
  method Maxout(dev: K.Device, X: NDArray) returns (r: Result<(NDArray, NDArray)>)
    requires X.Valid()
    modifies dev
    ensures r.Err? <==> MaxoutOut(X.dtype, X.shape).Err?
    ensures r.Err? ==> r.error == MaxoutOut(X.dtype, X.shape).error && LaunchedNothing(dev)
    ensures r.Ok? ==>
              && Allocated(r.value.0, X.dtype, MaxoutOut(X.dtype, X.shape).value)
              && Allocated(r.value.1, Int32, MaxoutOut(X.dtype, X.shape).value)
              && r.value.0.data != r.value.1.data
              && LaunchedOnce(dev, K.KernelCall(K.Maxout, K.VariantFor(X.dtype), [r.value.0, r.value.1],
                                                [K.Buf(r.value.0), K.Buf(r.value.1), K.Buf(X),
                                                 K.IntArg(X.shape[0]), K.IntArg(X.shape[1]), K.IntArg(X.shape[2])],
                                                [ZeroElems(r.value.0.shape), ZeroElems(r.value.1.shape)],
                                                K.Contents([r.value.0, r.value.1])))
  {
    var c := IsFloatArray(X.dtype, X.shape, None);
    if c.Fail? {
      return Err(c.error);
    }
    if |X.shape| != 3 {
      return Err(ValueError);
    }
    var B, I, P := X.shape[0], X.shape[1], X.shape[2];
    var best := new NDArray.Zeros([B, I], X.dtype);
    var which := new NDArray.Zeros([B, I], Int32);
    assert K.Contents([best, which]) == [ZeroElems(best.shape), ZeroElems(which.shape)];
    dev.Launch(K.Maxout, K.VariantFor(X.dtype), [best, which],
               [K.Buf(best), K.Buf(which), K.Buf(X), K.IntArg(B), K.IntArg(I), K.IntArg(P)]);
    r := Ok((best, which));
  }

  /** `backprop_maxout(dY, which, P)`: a (B, I, P) gradient, launched only
      once `which` has passed its check. */
  method BackpropMaxout(dev: K.Device, dY: NDArray, which: NDArray, P: int) returns (r: Result<NDArray>)
    requires dY.Valid() && which.Valid()
    modifies dev
    ensures r.Err? <==> BackpropMaxoutOut(dY.dtype, dY.shape, which.Value(), P).Err?
    ensures r.Err? ==> r.error == BackpropMaxoutOut(dY.dtype, dY.shape, which.Value(), P).error && LaunchedNothing(dev)
    ensures r.Ok? ==>
              && Allocated(r.value, dY.dtype, BackpropMaxoutOut(dY.dtype, dY.shape, which.Value(), P).value)
              && LaunchedOnce(dev, K.KernelCall(K.BackpropMaxout, K.VariantFor(dY.dtype), [r.value],
                                                [K.Buf(r.value), K.Buf(dY), K.Buf(which),
                                                 K.IntArg(dY.shape[0]), K.IntArg(dY.shape[1]), K.IntArg(P)],
                                                [ZeroElems(r.value.shape)], K.Contents([r.value])))
  {
    var c := IsFloatArray(dY.dtype, dY.shape, None);
    if c.Fail? {
      return Err(c.error);
    }
    if |dY.shape| < 2 {
      return Err(IndexError);
    }
    var B, I := dY.shape[0], dY.shape[1];
    if P < 0 {
      return Err(ValueError);
    }
    var out := new NDArray.Zeros([B, I, P], dY.dtype);
    var w := CheckWhichMaxout(which.Value(), B, I, P);
    if w.Fail? {
      return Err(w.error);
    }
    assert K.Contents([out]) == [ZeroElems(out.shape)];
    dev.Launch(K.BackpropMaxout, K.VariantFor(dY.dtype), [out],
               [K.Buf(out), K.Buf(dY), K.Buf(which), K.IntArg(B), K.IntArg(I), K.IntArg(P)]);
    r := Ok(out);
  }

  // ---------------------------------------------------------------------
  // Reductions
  // ---------------------------------------------------------------------

  /** `reduce_sum(X, lengths)`: the (B, O) per-sequence sums of a (T, O)
      input. */
  method ReduceSum(dev: K.Device, X: NDArray, lengths: NDArray) returns (r: Result<NDArray>)
    requires X.Valid() && lengths.Valid()
    modifies dev
    ensures r.Err? <==> ReduceOut(X.dtype, X.shape, lengths.Value()).Err?
    ensures r.Err? ==> r.error == ReduceOut(X.dtype, X.shape, lengths.Value()).error && LaunchedNothing(dev)
    ensures r.Ok? ==>
              && Allocated(r.value, X.dtype, ReduceOut(X.dtype, X.shape, lengths.Value()).value)
              && LaunchedOnce(dev, K.KernelCall(K.ReduceSum, K.VariantFor(X.dtype), [r.value],
                                                [K.Buf(r.value), K.Buf(X), K.Buf(lengths), K.IntArg(lengths.shape[0]),
                                                 K.IntArg(X.shape[0]), K.IntArg(X.shape[1])],
                                                [ZeroElems(r.value.shape)], K.Contents([r.value])))
  {
    var c := IsFloatArray(X.dtype, X.shape, None);
    if c.Fail? {
      return Err(c.error);
    }
    if |lengths.shape| == 0 {
      return Err(TypeError);
    }
    var B := lengths.shape[0];
    if |X.shape| < 2 {
      return Err(IndexError);
    }
    var T, O := X.shape[0], X.shape[1];
    var l := CheckLengths(lengths.Value(), T);
    if l.Fail? {
      return Err(l.error);
    }
    var out := new NDArray.Zeros([B, O], X.dtype);
    assert K.Contents([out]) == [ZeroElems(out.shape)];
    dev.Launch(K.ReduceSum, K.VariantFor(X.dtype), [out],
               [K.Buf(out), K.Buf(X), K.Buf(lengths), K.IntArg(B), K.IntArg(T), K.IntArg(O)]);
    r := Ok(out);
  }

  /** `1e-10`, added to each length before dividing so that an empty
      sequence does not divide by zero. */
  const Epsilon: real := 0.0000000001

  /** `sums / (lengths.reshape((-1, 1)) + 1e-10)` for a matrix with one row
      per length: each row divided by its length plus 1e-10.  Multiplying
      back by the divisor gives the sums again. */
  function MeanDivide(sums: seq<real>, lengths: seq<real>, cols: nat): (r: seq<real>)
    requires |sums| == |lengths| * cols
    requires forall b :: 0 <= b < |lengths| ==> lengths[b] >= 0.0
    ensures |r| == |sums|
    ensures forall k :: 0 <= k < |r| ==> r[k] * (BroadcastRows(lengths, cols)[k] + Epsilon) == sums[k]
  {
    var bounds := BroadcastRows(lengths, cols);
    BroadcastRowsNonNegative(lengths, cols);
    seq(|sums|, k requires 0 <= k < |sums| => sums[k] / (bounds[k] + Epsilon))
  }

  lemma {:induction false} BroadcastRowsNonNegative(lengths: seq<real>, cols: nat)
    requires forall b :: 0 <= b < |lengths| ==> lengths[b] >= 0.0
    ensures forall k :: 0 <= k < |BroadcastRows(lengths, cols)| ==> BroadcastRows(lengths, cols)[k] >= 0.0
  {
    if lengths != [] {
      BroadcastRowsNonNegative(lengths[1..], cols);
    }
  }

  /** Entry (b, o) of the mean is the sum of sequence b in column o divided
      by the length of sequence b plus 1e-10. */
  lemma MeanDivideAt(sums: seq<real>, lengths: seq<real>, cols: nat, b: nat, o: nat)
    requires |sums| == |lengths| * cols
    requires forall i :: 0 <= i < |lengths| ==> lengths[i] >= 0.0
    requires b < |lengths| && o < cols
    ensures At(MeanDivide(sums, lengths, cols), |lengths|, cols, b, o) ==
            At(sums, |lengths|, cols, b, o) / (lengths[b] + Epsilon)
  {
    BroadcastRowsAt(lengths, cols, b, o);
    RowEndBound(b, |lengths|, cols);
    var k := b * cols + o;
    assert At(BroadcastRows(lengths, cols), |lengths|, cols, b, o) == BroadcastRows(lengths, cols)[k];
  }

  /** `out /= lengths.reshape((-1, 1)) + 1e-10`, in place, element by
      element. */
  method DivideRows(out: NDArray, lengths: seq<real>, cols: nat)
    requires out.Valid() && IsFloatType(out.dtype)
    requires out.data.Length == |lengths| * cols
    requires forall b :: 0 <= b < |lengths| ==> lengths[b] >= 0.0
    modifies out.data
    ensures out.data[..] == MeanDivide(old(out.data[..]), lengths, cols)
    ensures out.Valid()
  {
    var bounds := BroadcastRows(lengths, cols);
    BroadcastRowsNonNegative(lengths, cols);
    ghost var sums := out.data[..];
    var k := 0;
    while k < out.data.Length
      invariant 0 <= k <= out.data.Length
      invariant forall j :: 0 <= j < k ==> out.data[j] == sums[j] / (bounds[j] + Epsilon)
      invariant forall j :: k <= j < out.data.Length ==> out.data[j] == sums[j]
    {
      out.data[k] := out.data[k] / (bounds[k] + Epsilon);
      k := k + 1;
    }
    assert out.data[..] == MeanDivide(sums, lengths, cols);
  }

  /** `reduce_mean(X, lengths)`: the sums of `reduce_sum`'s kernel, divided
      in place by each sequence's length plus 1e-10.  `sums` is the buffer
      as the kernel left it. */
  method ReduceMean(dev: K.Device, X: NDArray, lengths: NDArray) returns (r: Result<NDArray>, ghost sums: seq<real>)
    requires X.Valid() && lengths.Valid() && |lengths.shape| <= 1
    modifies dev
    ensures r.Err? <==> ReduceOut(X.dtype, X.shape, lengths.Value()).Err?
    ensures r.Err? ==> r.error == ReduceOut(X.dtype, X.shape, lengths.Value()).error && LaunchedNothing(dev)
    ensures r.Ok? ==>
              && Allocated(r.value, X.dtype, ReduceOut(X.dtype, X.shape, lengths.Value()).value)
              && LaunchedOnce(dev, K.KernelCall(K.ReduceSum, K.VariantFor(X.dtype), [r.value],
                                                [K.Buf(r.value), K.Buf(X), K.Buf(lengths), K.IntArg(lengths.shape[0]),
                                                 K.IntArg(X.shape[0]), K.IntArg(X.shape[1])],
                                                [ZeroElems(r.value.shape)], [sums]))
              && |sums| == |lengths.data[..]| * X.shape[1]
              && r.value.data[..] == MeanDivide(sums, lengths.data[..], X.shape[1])
  {
    sums := [];
    var c := IsFloatArray(X.dtype, X.shape, None);
    if c.Fail? {
      return Err(c.error), sums;
    }
    if |lengths.shape| == 0 {
      return Err(TypeError), sums;
    }
    var B := lengths.shape[0];
    VectorLength(lengths.Value());
    if |X.shape| < 2 {
      return Err(IndexError), sums;
    }
    var T, O := X.shape[0], X.shape[1];
    var l := CheckLengths(lengths.Value(), T);
    if l.Fail? {
      return Err(l.error), sums;
    }
    var out := new NDArray.Zeros([B, O], X.dtype);
    assert K.Contents([out]) == [ZeroElems(out.shape)];
    dev.Launch(K.ReduceSum, K.VariantFor(X.dtype), [out],
               [K.Buf(out), K.Buf(X), K.Buf(lengths), K.IntArg(B), K.IntArg(T), K.IntArg(O)]);
    sums := out.data[..];
    assert K.Contents([out]) == [sums];
    ProductOfMatrix(B, O);
    DivideRows(out, lengths.data[..], O);
    r := Ok(out);
  }

  /** `reduce_max(X, lengths)`: the (B, O) per-sequence maxima of a (T, O)
      input and their int32 row indices. */
  method ReduceMax(dev: K.Device, X: NDArray, lengths: NDArray) returns (r: Result<(NDArray, NDArray)>)
    requires X.Valid() && lengths.Valid()
    modifies dev
    ensures r.Err? <==> ReduceOut(X.dtype, X.shape, lengths.Value()).Err?
    ensures r.Err? ==> r.error == ReduceOut(X.dtype, X.shape, lengths.Value()).error && LaunchedNothing(dev)
    ensures r.Ok? ==>
              && Allocated(r.value.0, X.dtype, ReduceOut(X.dtype, X.shape, lengths.Value()).value)
              && Allocated(r.value.1, Int32, ReduceOut(X.dtype, X.shape, lengths.Value()).value)
              && r.value.0.data != r.value.1.data
              && LaunchedOnce(dev, K.KernelCall(K.ReduceMax, K.VariantFor(X.dtype), [r.value.0, r.value.1],
                                                [K.Buf(r.value.0), K.Buf(r.value.1), K.Buf(X), K.Buf(lengths),
                                                 K.IntArg(lengths.shape[0]), K.IntArg(X.shape[0]), K.IntArg(X.shape[1])],
                                                [ZeroElems(r.value.0.shape), ZeroElems(r.value.1.shape)],
                                                K.Contents([r.value.0, r.value.1])))
  {
    var c := IsFloatArray(X.dtype, X.shape, None);
    if c.Fail? {
      return Err(c.error);
    }
    if |lengths.shape| == 0 {
      return Err(TypeError);
    }
    var B := lengths.shape[0];
    if |X.shape| < 2 {
      return Err(IndexError);
    }
    var T, O := X.shape[0], X.shape[1];
    var l := CheckLengths(lengths.Value(), T);
    if l.Fail? {
      return Err(l.error);
    }
    var maxes := new NDArray.Zeros([B, O], X.dtype);
    var which := new NDArray.Zeros([B, O], Int32);
    assert K.Contents([maxes, which]) == [ZeroElems(maxes.shape), ZeroElems(which.shape)];
    dev.Launch(K.ReduceMax, K.VariantFor(X.dtype), [maxes, which],
               [K.Buf(maxes), K.Buf(which), K.Buf(X), K.Buf(lengths), K.IntArg(B), K.IntArg(T), K.IntArg(O)]);
    r := Ok((maxes, which));
  }

  /** The common body of `backprop_reduce_sum` and `backprop_reduce_mean`:
      a (T, O) gradient with T = int(lengths.sum()). */
  method BackpropReduce(dev: K.Device, kernel: K.Kernel, dX: NDArray, lengths: NDArray) returns (r: Result<NDArray>)
    requires dX.Valid() && lengths.Valid()
    modifies dev
    ensures r.Err? <==> BackpropReduceOut(dX.dtype, dX.shape, lengths.Value()).Err?
    ensures r.Err? ==> r.error == BackpropReduceOut(dX.dtype, dX.shape, lengths.Value()).error && LaunchedNothing(dev)
    ensures r.Ok? ==>
              && Allocated(r.value, dX.dtype, BackpropReduceOut(dX.dtype, dX.shape, lengths.Value()).value)
              && LaunchedOnce(dev, K.KernelCall(kernel, K.VariantFor(dX.dtype), [r.value],
                                                [K.Buf(r.value), K.Buf(dX), K.Buf(lengths), K.IntArg(lengths.shape[0]),
                                                 K.IntArg(Rows(lengths.Value())), K.IntArg(dX.shape[1])],
                                                [ZeroElems(r.value.shape)], K.Contents([r.value])))
  {
    var c := IsFloatArray(dX.dtype, dX.shape, None);
    if c.Fail? {
      return Err(c.error);
    }
    if |lengths.shape| == 0 {
      return Err(TypeError);
    }
    var B := lengths.shape[0];
    var T := Rows(lengths.Value());
    if |dX.shape| < 2 {
      return Err(IndexError);
    }
    var O := dX.shape[1];
    var l := CheckLengths(lengths.Value(), T);
    if l.Fail? {
      return Err(l.error);
    }
    SegmentsTile(lengths.Value(), T);
    var out := new NDArray.Zeros([T, O], dX.dtype);
    assert K.Contents([out]) == [ZeroElems(out.shape)];
    dev.Launch(kernel, K.VariantFor(dX.dtype), [out],
               [K.Buf(out), K.Buf(dX), K.Buf(lengths), K.IntArg(B), K.IntArg(T), K.IntArg(O)]);
    r := Ok(out);
  }

  /** `backprop_reduce_sum(d_sum, lengths)`. */
  method BackpropReduceSum(dev: K.Device, dSum: NDArray, lengths: NDArray) returns (r: Result<NDArray>)
    requires dSum.Valid() && lengths.Valid()
    modifies dev
    ensures r.Err? <==> BackpropReduceOut(dSum.dtype, dSum.shape, lengths.Value()).Err?
    ensures r.Err? ==> r.error == BackpropReduceOut(dSum.dtype, dSum.shape, lengths.Value()).error && LaunchedNothing(dev)
    ensures r.Ok? ==>
              && Allocated(r.value, dSum.dtype, BackpropReduceOut(dSum.dtype, dSum.shape, lengths.Value()).value)
              && LaunchedOnce(dev, K.KernelCall(K.BackpropReduceSum, K.VariantFor(dSum.dtype), [r.value],
                                                [K.Buf(r.value), K.Buf(dSum), K.Buf(lengths), K.IntArg(lengths.shape[0]),
                                                 K.IntArg(Rows(lengths.Value())), K.IntArg(dSum.shape[1])],
                                                [ZeroElems(r.value.shape)], K.Contents([r.value])))
  {
    r := BackpropReduce(dev, K.BackpropReduceSum, dSum, lengths);
  }

  /** `backprop_reduce_mean(d_mean, lengths)`. */
  method BackpropReduceMean(dev: K.Device, dMean: NDArray, lengths: NDArray) returns (r: Result<NDArray>)
    requires dMean.Valid() && lengths.Valid()
    modifies dev
    ensures r.Err? <==> BackpropReduceOut(dMean.dtype, dMean.shape, lengths.Value()).Err?
    ensures r.Err? ==> r.error == BackpropReduceOut(dMean.dtype, dMean.shape, lengths.Value()).error && LaunchedNothing(dev)
    ensures r.Ok? ==>
              && Allocated(r.value, dMean.dtype, BackpropReduceOut(dMean.dtype, dMean.shape, lengths.Value()).value)
              && LaunchedOnce(dev, K.KernelCall(K.BackpropReduceMean, K.VariantFor(dMean.dtype), [r.value],
                                                [K.Buf(r.value), K.Buf(dMean), K.Buf(lengths), K.IntArg(lengths.shape[0]),
                                                 K.IntArg(Rows(lengths.Value())), K.IntArg(dMean.shape[1])],
                                                [ZeroElems(r.value.shape)], K.Contents([r.value])))
  {
    r := BackpropReduce(dev, K.BackpropReduceMean, dMean, lengths);
  }

  /** `backprop_reduce_max(d_maxes, which, lengths)`: `which` is checked
      after the lengths, against (B, O) and each sequence's own length. */
  method BackpropReduceMax(dev: K.Device, dMaxes: NDArray, which: NDArray, lengths: NDArray) returns (r: Result<NDArray>)
    requires dMaxes.Valid() && which.Valid() && lengths.Valid() && |lengths.shape| <= 1
    modifies dev
    ensures r.Err? <==> BackpropReduceMaxOut(dMaxes.dtype, dMaxes.shape, which.Value(), lengths.Value()).Err?
    ensures r.Err? ==>
              r.error == BackpropReduceMaxOut(dMaxes.dtype, dMaxes.shape, which.Value(), lengths.Value()).error
              && LaunchedNothing(dev)
    ensures r.Ok? ==>
              && Allocated(r.value, dMaxes.dtype, BackpropReduceMaxOut(dMaxes.dtype, dMaxes.shape, which.Value(), lengths.Value()).value)
              && LaunchedOnce(dev, K.KernelCall(K.BackpropReduceMax, K.VariantFor(dMaxes.dtype), [r.value],
                                                [K.Buf(r.value), K.Buf(dMaxes), K.Buf(which), K.Buf(lengths),
                                                 K.IntArg(lengths.shape[0]), K.IntArg(Rows(lengths.Value())),
                                                 K.IntArg(dMaxes.shape[1])],
                                                [ZeroElems(r.value.shape)], K.Contents([r.value])))
  {
    var c := IsFloatArray(dMaxes.dtype, dMaxes.shape, None);
    if c.Fail? {
      return Err(c.error);
    }
    if |lengths.shape| == 0 {
      return Err(TypeError);
    }
    var B := lengths.shape[0];
    VectorLength(lengths.Value());
    var T := Rows(lengths.Value());
    if |dMaxes.shape| < 2 {
      return Err(IndexError);
    }
    var O := dMaxes.shape[1];
    var l := CheckLengths(lengths.Value(), T);
    if l.Fail? {
      return Err(l.error);
    }
    SegmentsTile(lengths.Value(), T);
    var out := new NDArray.Zeros([T, O], dMaxes.dtype);
    var w := CheckWhichReduceMax(which.Value(), [B, O], lengths.Value());
    if w.Fail? {
      return Err(w.error);
    }
    assert K.Contents([out]) == [ZeroElems(out.shape)];
    dev.Launch(K.BackpropReduceMax, K.VariantFor(dMaxes.dtype), [out],
               [K.Buf(out), K.Buf(dMaxes), K.Buf(which), K.Buf(lengths), K.IntArg(B), K.IntArg(T), K.IntArg(O)]);
    r := Ok(out);
  }

  // ---------------------------------------------------------------------
  // hash
  // ---------------------------------------------------------------------

  /** Bytes the hash kernel writes per id: four uint32 words. */
  const HashOutBytes: int := 4 * 4
  /** Bytes the hash kernel reads per id: one uint64. */
  const HashInBytes: int := 8

  /** `hash(ids, seed)`: four uint32 words per id from the untemplated hash
      kernel. */
  method Hash(dev: K.Device, ids: NDArray, seed: int) returns (r: Result<NDArray>)
    requires ids.Valid()
    modifies dev
    ensures r.Err? <==> HashOut(ids.shape).Err?
    ensures r.Err? ==> r.error == HashOut(ids.shape).error && LaunchedNothing(dev)
    ensures r.Ok? ==>
              && Allocated(r.value, UInt32, HashOut(ids.shape).value)
              && LaunchedOnce(dev, K.KernelCall(K.HashData, K.Untemplated, [r.value],
                                                [K.Buf(r.value), K.Buf(ids), K.IntArg(HashOutBytes), K.IntArg(HashInBytes),
                                                 K.IntArg(ids.shape[0]), K.IntArg(seed)],
                                                [ZeroElems(r.value.shape)], K.Contents([r.value])))
  {
    if |ids.shape| == 0 {
      return Err(IndexError);
    }
    var out := new NDArray.Zeros([ids.shape[0], 4], UInt32);
    assert K.Contents([out]) == [ZeroElems(out.shape)];
    dev.Launch(K.HashData, K.Untemplated, [out],
               [K.Buf(out), K.Buf(ids), K.IntArg(HashOutBytes), K.IntArg(HashInBytes), K.IntArg(ids.shape[0]), K.IntArg(seed)]);
    r := Ok(out);
  }
}
