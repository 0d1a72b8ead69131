# thinc custom CUDA kernel dispatch, in Dafny

This project models the Python dispatch layer of thinc's custom CUDA kernels
(`thinc/backends/_custom_kernels.py`). Each public operation does the same
steps in order:

- it validates its inputs' element types, shapes and index ranges;
- it allocates zeroed outputs, or reuses its input when `inplace` is set;
- it picks the `<float>` or `<double>` kernel instance;
- it queues the kernel on the device.

The kernels themselves are compiled CUDA code outside the model. A launch is
recorded on a `Kernels.Device` and may write into its output buffers and
nothing else. Nothing is known about the values it writes.

Modules:

- `Arrays`: element types, shapes, the exception kinds, and `NDArray`, a
  device array whose flat buffer kernels write in place.
- `Validation`: the checks `_is_float_array`, `_check_lengths`,
  `_check_which_maxout`, `_values_within_range` and
  `_check_which_reduce_max`. Each is a pure function that passes or names the
  exception it raises. This module also proves what passing guarantees to the
  kernels: lengths cut the rows into consecutive segments, and every index
  lands inside its own segment or maxout slot.
- `Kernels`: the kernel and instance chosen, the launch record, and the
  device's launch method.
- `Shapes`: for each operation, a function (`Seq2colOut`, `MaxoutOut`,
  `ReduceOut` and so on) that gives the checks in the order the source runs them,
  Python's own failures on the way, and the output shapes. Python's own
  failures are indexing a shape past its rank, unpacking a shape of the wrong
  rank, taking `len()` of a zero-dimensional array, and allocating with a
  negative dimension. The round-trip lemmas show that the gradients of
  seq2col, maxout and the three reductions read back the shape of their
  forward operation's input.
- `Dispatch`: the 21 dispatch functions as methods, with the source's
  default arguments. Each is proved against the `Shapes` function for its
  operation. Each states what it allocated, whether it aliased its input,
  and exactly what it queued on the device, including what every output
  buffer held when its kernel started (all zeros for a freshly allocated
  one) and what it held when the kernel was done. Except in `reduce_mean`,
  which divides the kernel's sums afterwards, that is what the method
  returns.

Floating-point elements are modelled as reals. Integer element types hold
integral values.

## Model

| member | source | states |
|---|---|---|
| Arrays.NDArray.Zeros | thinc/backends/_custom_kernels.py:141 | `zeros_like`/`zeros`: a new buffer of the requested type and shape whose elements are exactly `ZeroElems(shape)`, every one 0 |
| Arrays.NDArray.Vector | thinc/backends/_custom_kernels.py:176 | `cupy.array([B], dtype="int32")`: a new one-dimensional array holding exactly the given elements |
| Arrays.VectorLength | thinc/backends/_custom_kernels.py:250 | a one-dimensional array has as many elements as its one dimension, so `len(lengths)` is the number of lengths |
| Validation.IsFloatArray | thinc/backends/_custom_kernels.py:612-619 | passes iff the type is float32/float64 and, when a shape is given, the shapes are equal; a non-float type is an AssertionError whatever the shape; a shape mismatch is a ValueError |
| Validation.Sum | thinc/backends/_custom_kernels.py:626 | `cupy.sum(lengths)` is the offset just past the last segment, so the lengths tile exactly `Sum` rows (see `SegmentsTile`) |
| Validation.AllNonNegative | thinc/backends/_custom_kernels.py:624 | the `cupy.all(lengths >= 0)` fold is true iff every length is non-negative |
| Validation.CheckLengths | thinc/backends/_custom_kernels.py:622-627 | passes iff the lengths are int32, all non-negative and sum to `n_elems`; a wrong type is an AssertionError first; any negative entry is a ValueError even when the sum is right; int32, non-negative lengths fail exactly when their sum differs from `n_elems`, and then with IndexError |
| Validation.ValuesWithinRange | thinc/backends/_custom_kernels.py:641-653 | the reduction kernel is true iff every value lies in [lower, upper); its identity is `true` |
| Validation.CheckWhichMaxout | thinc/backends/_custom_kernels.py:630-638 | passes iff `which` is int32, of shape exactly (B, I), and every value lies in [0, P), one bound for all entries; the failures are AssertionError, then ValueError, then IndexError |
| Validation.AllBelow | thinc/backends/_custom_kernels.py:662 | the elementwise `(which >= 0) & (which < bounds)` reduced by `cupy.all` is true iff every entry is below its own bound |
| Validation.BroadcastRows | thinc/backends/_custom_kernels.py:662 | `expand_dims(lengths, -1)` broadcast over O columns: one entry per (b, o), `lengths[b]` repeated across row b (see `BroadcastRowsAt`) |
| Validation.BroadcastRowsAt | thinc/backends/_custom_kernels.py:662 | `expand_dims(lengths, -1)` broadcast over O columns puts `lengths[b]` at every (b, o) |
| Validation.BelowBroadcastIsRowwise | thinc/backends/_custom_kernels.py:662 | the flat comparison against the broadcast lengths holds iff `0 <= which[b][o] < lengths[b]` for every (b, o) |
| Validation.SegmentBoundCheck | thinc/backends/_custom_kernels.py:662 | for a (B, O) `which`, the broadcast test is the per-segment bound, stated through 2-D indexing |
| Validation.CheckWhichReduceMax | thinc/backends/_custom_kernels.py:656-663 | for lengths of at most one dimension, passes iff `which` is int32, has the given (B, O) shape, and `0 <= which[b][o] < lengths[b]` for every entry, each entry bounded by its own segment; the failures are AssertionError, then ValueError, then IndexError |
| Validation.ZeroLengthSegmentRejected | thinc/backends/_custom_kernels.py:656-663 | a zero-length segment makes any int32 `which` of the right non-empty shape fail with IndexError |
| Validation.EmptyWhichPassesMaxout | thinc/backends/_custom_kernels.py:641-653 | an empty int32 `which` of shape (B, I) passes the maxout check for every P |
| Validation.SegmentsTile | thinc/backends/_custom_kernels.py:622-627 | lengths that pass the check cut rows 0..T into consecutive segments: offsets start at 0, end at T, and every boundary lies in [0, T] |
| Validation.ReduceMaxScatterInSegment | thinc/backends/_custom_kernels.py:550-571 | after both checks of `backprop_reduce_max` pass, the row that `which[b][o]` selects lies inside segment b, and that segment lies inside the T output rows |
| Validation.MaxoutScatterInSlot | thinc/backends/_custom_kernels.py:462-481 | after the `which` check passes, the candidate `which[b][i]` selects lies in the P-slot of (b, i), and that slot lies inside the (B, I, P) output |
| Validation.SumIntegral | thinc/backends/_custom_kernels.py:510 | the sum of int32 lengths is integral, so `int(lengths.sum())` is exactly the sum |
| Kernels.VariantFor | thinc/backends/_custom_kernels.py:142-153 | float32 selects the `<float>` instance and every other type the `<double>` instance; a templated kernel is never untemplated |
| Kernels.Device.Launch | thinc/backends/_custom_kernels.py:143-147 | a launch appends exactly its own record to the device log, including what each output buffer held when the kernel started and what it holds once the kernel is done; it may change only its output buffers, which keep values of their element types |
| Kernels.Contents | thinc/backends/_custom_kernels.py:141-147 | the elements each output buffer holds, one sequence per buffer, as the launch record keeps them |
| Shapes.Trunc | thinc/backends/_custom_kernels.py:510 | Python's `int()` truncates toward zero: the result is within 1 of x, on the side of 0 |
| Shapes.TruncOfIntegral | thinc/backends/_custom_kernels.py:510 | `int()` of an integral value is that value |
| Shapes.FloorDiv | thinc/backends/_custom_kernels.py:342 | Python's `//` rounds down for either sign of the divisor |
| Shapes.Window | thinc/backends/_custom_kernels.py:186 | `nF = nW * 2 + 1` is odd and centred: (nF - 1) / 2 gives back nW, and nF >= 1 exactly when nW >= 0 |
| Shapes.OneSequence | thinc/backends/_custom_kernels.py:176 | `cupy.array([B], dtype="int32")` is a well-formed one-dimensional array of one length that passes `_check_lengths(_, B)` |
| Shapes.Len | thinc/backends/_custom_kernels.py:250 | `len()` of an array is its first dimension, TypeError for a zero-dimensional array, and the element count of a one-dimensional one |
| Shapes.Seq2colLengths | thinc/backends/_custom_kernels.py:174-179 | whatever `check_seq2col_lengths` hands on passes `_check_lengths(_, B)`; omitted lengths become the single length [B]; given lengths are returned unchanged or their check's error is raised |
| Shapes.OmittedLengthsAreOneSequence | thinc/backends/_custom_kernels.py:174-179 | leaving the lengths out behaves exactly like passing [B] |
| Shapes.Seq2colOut | thinc/backends/_custom_kernels.py:182-194 | succeeds iff X is a float array with at least two dimensions, the lengths pass, the lengths used have a first dimension, and I * nF is not negative; the output is (B, I * (2nW + 1)); the type check comes first, then the missing dimension, then the lengths, then IndexError for zero-dimensional lengths at `lengths.shape[0]`, then ValueError from `cupy.zeros` when I * nF is negative |
| Shapes.BackpropSeq2colOut | thinc/backends/_custom_kernels.py:337-349 | succeeds iff dY is a float array with at least two dimensions, the lengths pass and have a first dimension, and dY.shape[1] // nF is not negative; the output is (B, dY.shape[1] // nF); the checks run in the same order as in seq2col, ending with ValueError from `cupy.zeros` when dY.shape[1] // nF is negative |
| Shapes.Seq2colLaunches | thinc/backends/_custom_kernels.py:194 | the kernel runs only when X (or dY, line 349) and the lengths are both non-empty; otherwise the zeroed output is returned as it is |
| Shapes.Seq2colRoundTrip | thinc/backends/_custom_kernels.py:337-347 | for nW >= 0, backprop_seq2col applied to seq2col's output shape gives back seq2col's input shape (B, I) |
| Shapes.NonNegativeWindowAllocates | thinc/backends/_custom_kernels.py:186-192 | with nW >= 0 and lengths that pass with a first dimension, neither seq2col nor backprop_seq2col can fail on allocation |
| Shapes.BackpropSeq2colDropsPartialWindow | thinc/backends/_custom_kernels.py:341-342 | a gradient of width I * nF + k, for k < nF, gives width I: columns that do not fill a window are ignored |
| Shapes.MaxoutOut | thinc/backends/_custom_kernels.py:207-214 | succeeds iff X is a float array of exactly three dimensions (B, I, P); any other rank is the ValueError of tuple unpacking; both outputs are (B, I) |
| Shapes.BackpropMaxoutOut | thinc/backends/_custom_kernels.py:462-470 | succeeds iff dY is a float array with at least two dimensions, P >= 0 and `which` passes its check for (B, I, P); a negative P fails when the output is allocated, before `which` is checked; the output is (B, I, P) |
| Shapes.MaxoutRoundTrip | thinc/backends/_custom_kernels.py:462-470 | a (B, I) int32 `which` from maxout goes back to (B, I, P) iff all its values lie in [0, P); otherwise the error is IndexError |
| Shapes.ReduceOut | thinc/backends/_custom_kernels.py:247-256 | succeeds iff X is a float array, the lengths have a first dimension, X has at least two dimensions and the lengths pass against T = X.shape[0]; the output is (len(lengths), O); the type check comes first, then TypeError for zero-dimensional lengths, then the missing dimension, then the lengths |
| Shapes.Rows | thinc/backends/_custom_kernels.py:510 | `int(lengths.sum())`; for well-formed int32 lengths it is exactly the sum |
| Shapes.BackpropReduceOut | thinc/backends/_custom_kernels.py:506-514 | succeeds iff the gradient is a float array, the lengths have a first dimension, the gradient has at least two dimensions and the lengths pass against T = int(sum(lengths)); the output is (T, O) with T >= 0; the gradient's row count is never read; zero-dimensional lengths are a TypeError after the type check |
| Shapes.BackpropReduceMaxOut | thinc/backends/_custom_kernels.py:550-560 | for lengths of at most one dimension: a lengths failure wins over any `which` failure; with the lengths passing, `which` is checked against (len(lengths), O) and the per-segment bounds; the output is that of the other reduction gradients |
| Shapes.BackpropReduceHasNoSumMismatch | thinc/backends/_custom_kernels.py:506-514 | for well-formed lengths, the reduction gradients raise IndexError only for a gradient with fewer than two dimensions: the sum-mismatch IndexError cannot fire |
| Shapes.ReduceRoundTrip | thinc/backends/_custom_kernels.py:506-514 | the (B, O) output of reduce_sum/reduce_mean on (T, O) goes back to (T, O) |
| Shapes.ReduceMaxRoundTrip | thinc/backends/_custom_kernels.py:550-560 | reduce_max's (B, O) `which` goes back to (T, O) iff every `which[b][o]` lies inside segment b; otherwise the error is IndexError |
| Shapes.ActivationCheck | thinc/backends/_custom_kernels.py:373-374 | passes iff dY and every further input are float arrays of dY's shape; a non-float dY is an AssertionError whatever the other inputs are |
| Shapes.FirstMismatch | thinc/backends/_custom_kernels.py:577-579 | the inputs are checked in order, and the first failing input decides the exception |
| Shapes.MixedPrecisionPasses | thinc/backends/_custom_kernels.py:373-380 | a float32 dY with a float64 X of the same shape passes, since only shapes are compared |
| Shapes.HashOut | thinc/backends/_custom_kernels.py:597-598 | succeeds iff `ids` has at least one dimension, otherwise IndexError; the output is (N, 4) |
| Dispatch.Elementwise | thinc/backends/_custom_kernels.py:139-153 | with `inplace`, the output is the input object itself and the kernel starts from the input's old contents; otherwise it is a new array of the input's shape and type that holds zeros when the kernel starts; either way exactly one launch of the input type's instance writes into it |
| Dispatch.ClippedLinear | thinc/backends/_custom_kernels.py:127-154 | a non-float X raises and launches nothing; otherwise X is aliased or a fresh array is allocated, and one launch records the slope, offset and bounds as given (int or float) and X.size, with a fresh output all zeros when the kernel starts; `inplace`, slope, offset and the bounds default to False and the floats 1.0, 0.0, 0.0 and 1.0 |
| Dispatch.Gelu | thinc/backends/_custom_kernels.py:157-171 | as clipped_linear, with the threshold, the float 6.0 by default |
| Dispatch.Mish | thinc/backends/_custom_kernels.py:228-244 | as clipped_linear, with the threshold, the integer 5 by default, which the launch records as an integer argument |
| Dispatch.Swish | thinc/backends/_custom_kernels.py:320-334 | as clipped_linear, with the threshold, the float 17.0 by default |
| Dispatch.BackpropClippedLinear | thinc/backends/_custom_kernels.py:362-393 | dY's type, then X's type and shape, are checked before anything is allocated; on success dY is aliased or a fresh array of dY's shape is allocated, which is all zeros when the one launch starts; same defaults as clipped_linear |
| Dispatch.BackpropHardSwish | thinc/backends/_custom_kernels.py:396-415 | as backprop_clipped_linear, with no parameters |
| Dispatch.BackpropHardSwishMobilenet | thinc/backends/_custom_kernels.py:418-437 | as backprop_clipped_linear, with no parameters |
| Dispatch.BackpropGelu | thinc/backends/_custom_kernels.py:440-459 | as backprop_clipped_linear, with the threshold, the float 6.0 by default |
| Dispatch.BackpropMish | thinc/backends/_custom_kernels.py:484-503 | as backprop_clipped_linear, with the threshold, the integer 5 by default, recorded as an integer argument |
| Dispatch.BackpropSwish | thinc/backends/_custom_kernels.py:574-594 | X and then Y are checked against dY; as backprop_clipped_linear, with the threshold, the float 17.0 by default |
| Dispatch.CheckSeq2colLengths | thinc/backends/_custom_kernels.py:174-179 | returns the given lengths once they pass, or a fresh one-element int32 array holding B |
| Dispatch.Seq2col | thinc/backends/_custom_kernels.py:182-204 | the errors are those of `Shapes.Seq2colOut`; on success the output is a fresh (B, I * nF) array; when X or the lengths are empty nothing is launched and the output stays all zeros; otherwise one launch gets the lengths actually used and starts from the all-zero output; `lengths` defaults to None |
| Dispatch.BackpropSeq2col | thinc/backends/_custom_kernels.py:337-359 | as seq2col, with a fresh (B, dY.shape[1] // nF) output, all zeros when the kernel starts |
| Dispatch.Maxout | thinc/backends/_custom_kernels.py:207-225 | the errors are those of `Shapes.MaxoutOut`; on success there are two distinct fresh (B, I) arrays, values of X's type and int32 indices, both all zeros when the one launch starts |
| Dispatch.BackpropMaxout | thinc/backends/_custom_kernels.py:462-481 | the errors are those of `Shapes.BackpropMaxoutOut` and nothing is launched; on success one launch scatters into a fresh (B, I, P) array that is all zeros when it starts |
| Dispatch.ReduceSum | thinc/backends/_custom_kernels.py:247-267 | the errors are those of `Shapes.ReduceOut` and nothing is launched; on success one launch accumulates into a fresh (len(lengths), O) array that is all zeros when it starts |
| Dispatch.Epsilon | thinc/backends/_custom_kernels.py:291 | the `1e-10` added to every length before dividing |
| Dispatch.MeanDivide | thinc/backends/_custom_kernels.py:290-291 | dividing each row by its length plus 1e-10 is undone by multiplying back: `r[k] * (lengths[row k] + 1e-10) == sums[k]` |
| Dispatch.MeanDivideAt | thinc/backends/_custom_kernels.py:291 | entry (b, o) of the mean is the sum at (b, o) divided by `lengths[b] + 1e-10` |
| Dispatch.DivideRows | thinc/backends/_custom_kernels.py:291 | the in-place `out /= lengths + 1e-10` leaves `out` equal to the divided old contents |
| Dispatch.ReduceMean | thinc/backends/_custom_kernels.py:270-292 | as reduce_sum, with the same `reduce_sum` kernel starting from zeros; the launch records the sums the kernel left in the buffer, and the result is those sums divided in place by each length plus 1e-10 |
| Dispatch.ReduceMax | thinc/backends/_custom_kernels.py:295-317 | as reduce_sum; on success there are two distinct fresh (B, O) arrays, maxima of X's type and int32 indices, both all zeros when the one launch starts |
| Dispatch.BackpropReduce | thinc/backends/_custom_kernels.py:506-525 | the errors are those of `Shapes.BackpropReduceOut` and nothing is launched; on success one launch scatters into a fresh (T, O) array, all zeros when it starts, with T = int(sum(lengths)) |
| Dispatch.BackpropReduceSum | thinc/backends/_custom_kernels.py:506-525 | as BackpropReduce, with the `backprop_reduce_sum` kernel |
| Dispatch.BackpropReduceMean | thinc/backends/_custom_kernels.py:528-547 | as BackpropReduce, with the `backprop_reduce_mean` kernel |
| Dispatch.BackpropReduceMax | thinc/backends/_custom_kernels.py:550-571 | the errors are those of `Shapes.BackpropReduceMaxOut`, with `which` checked after the lengths, and nothing is launched; on success one launch scatters into a fresh (T, O) array that is all zeros when it starts |
| Dispatch.Hash | thinc/backends/_custom_kernels.py:597-609 | a rank-0 `ids` is an IndexError; otherwise one untemplated launch writes a fresh (N, 4) uint32 array, all zeros when it starts, with byte sizes 16 and 8, N and the seed as arguments |
| Dispatch.HashOutBytes | thinc/backends/_custom_kernels.py:601 | the hash kernel writes `4 * 4` bytes per id, four uint32 words |
| Dispatch.HashInBytes | thinc/backends/_custom_kernels.py:602 | the hash kernel reads 8 bytes per id, one uint64 |

## Left out

- Kernel bodies are outside the model. These are the activation formulas,
  what the maxout and reduction kernels compute, tie-breaking, and the
  MurmurHash3 mixing of `hash`. A launch may write any values of the output's
  element type into its outputs.
- Module loading and compilation are not modelled. This covers reading the
  `.cu` sources, `RawModule`, `RawKernel`, the list of compiled names, and
  `_get_kernel` returning no handle when CuPy is missing. The source never
  checks for a missing handle, so the model promises no error for it.
- Launch geometry is not modelled. `num_blocks` and `threads_per_block` are
  passed through unchanged, and GPU parallelism is not modelled either.
- Floating-point rounding is not modelled. Elements, `1e-10` and the
  division in `reduce_mean` are exact reals. The range of int32 and uint32
  values is not enforced.
- CheckWhichReduceMax requires `lengths` of at most one dimension. Then
  `expand_dims(lengths, -1)` (line 662) bounds each row of `which` by its
  own length. For lengths of shape (B, 1) the source broadcasts to
  (B, B, O) and bounds every entry by every length; that case, and higher
  ranks, are not modelled.
- ZeroLengthSegmentRejected requires `lengths` of at most one dimension,
  as CheckWhichReduceMax does.
- ReduceMaxScatterInSegment requires `lengths` of at most one dimension,
  as CheckWhichReduceMax does.
- BackpropReduceMaxOut requires `lengths` of at most one dimension. With
  higher rank `expand_dims(lengths, -1)` (line 662) broadcasts against
  `which` in ways that depend on the shapes, and that is not modelled.
- BackpropReduceMax (in `Dispatch`) requires `lengths` of at most one
  dimension, for the same broadcast as BackpropReduceMaxOut, whose errors it
  reports.
- ReduceMaxRoundTrip requires `lengths` of at most one dimension, since it
  is stated about BackpropReduceMaxOut.
- ReduceMean requires `lengths` of at most one dimension. With higher rank
  the in-place division by `lengths.reshape((-1, 1))` (line 291) broadcasts
  against the (B, O) output in ways that depend on the shapes, and that is
  not modelled. Its other lengths cases (zero dimensions, one dimension) are.
- Python's `assert` statements (lines 613, 623, 633, 658) are assumed to run.
  Under `python -O` they are skipped: the AssertionError outcomes disappear,
  and an integer array would then reach the `<double>` kernel instance.
- Lengths holding NaN or infinity are not modelled. In the reduction
  gradients `int(lengths.sum())` (lines 510, 532, 554) runs before
  `_check_lengths` and would raise ValueError or OverflowError there; the
  model's lengths are finite reals, so it reports the check's
  AssertionError for float lengths instead.
- Error messages are not modelled, only the exception kinds.
- `thinc/layers/with_list.py` is not part of this model. It is framework glue
  over `Model` and over list/padded conversions that are not shown.
- The source has no forward `hard_swish` or `hard_swish_mobilenet` dispatch
  function, only their gradients, and the model follows it.
