/** The checks the dispatch functions run before allocating or launching
    anything, and what passing them guarantees to the kernels.  Each check is
    a whole-array reduction, modelled as a pure function that either passes
    or names the exception it raises. */
module Validation {
  import opened Arrays

  // ---------------------------------------------------------------------
  // Whole-array reductions
  // ---------------------------------------------------------------------

  /** The sum of the first b lengths: where segment b starts in a batch
      split by `lengths`. */
  function Offset(lengths: seq<real>, b: nat): real
    requires b <= |lengths|
  {
    if b == 0 then 0.0 else Offset(lengths, b - 1) + lengths[b - 1]
  }

  /** `cupy.sum(xs)`. */
  function Sum(xs: seq<real>): real {
    Offset(xs, |xs|)
  }

  /** `cupy.all(xs >= 0)`: an AND-reduction whose identity is `true`. */
  function AllNonNegative(xs: seq<real>): (r: bool)
    ensures r <==> forall i :: 0 <= i < |xs| ==> xs[i] >= 0.0
  {
    xs == [] || (xs[0] >= 0.0 && AllNonNegative(xs[1..]))
  }

  /** `_values_within_range(xs, lower, upper)`: a reduction kernel that maps
      each x to `x >= lower && x < upper` and combines with `&`, starting
      from `true`; since `&` is associative and commutative the reduction
      order does not matter. */
  function ValuesWithinRange(xs: seq<real>, lower: int, upper: int): (r: bool)
    ensures r <==> forall i :: 0 <= i < |xs| ==> lower as real <= xs[i] < upper as real
  {
    xs == [] || (lower as real <= xs[0] < upper as real && ValuesWithinRange(xs[1..], lower, upper))
  }

  /** `cupy.all((xs >= 0) & (xs < bounds))` for two arrays of one size. */
  function AllBelow(xs: seq<real>, bounds: seq<real>): (r: bool)
    requires |xs| == |bounds|
    ensures r <==> forall i :: 0 <= i < |xs| ==> 0.0 <= xs[i] < bounds[i]
  {
    xs == [] || (0.0 <= xs[0] < bounds[0] && AllBelow(xs[1..], bounds[1..]))
  }

  /** `cupy.expand_dims(lengths, -1)` broadcast against a matrix with `cols`
      columns: every length repeated across its row. */
  function BroadcastRows(lengths: seq<real>, cols: nat): (r: seq<real>)
    ensures |r| == |lengths| * cols
  {
    if lengths == [] then []
    else seq(cols, _ => lengths[0]) + BroadcastRows(lengths[1..], cols)
  }

  lemma {:induction false} BroadcastRowsAt(lengths: seq<real>, cols: nat, b: nat, o: nat)
    requires b < |lengths| && o < cols
    ensures At(BroadcastRows(lengths, cols), |lengths|, cols, b, o) == lengths[b]
  {
    RowEndBound(b, |lengths|, cols);
    if b > 0 {
      BroadcastRowsAt(lengths[1..], cols, b - 1, o);
      RowEndBound(b - 1, |lengths| - 1, cols);
      assert b * cols + o == cols + ((b - 1) * cols + o);
    }
  }

  /** Every flat index of a `rows` x `cols` matrix is some (b, o). */
  lemma FlatIndexSplit(i: nat, rows: nat, cols: nat) returns (b: nat, o: nat)
    requires i < rows * cols
    ensures b < rows && o < cols && i == b * cols + o
  {
    b, o := i / cols, i % cols;
    if b >= rows {
      MulMonotone(rows, b, cols);
      assert false;
    }
  }

  /** The flat elementwise comparison against the broadcast lengths is the
      row-by-row comparison `0 <= xs[b][o] < lengths[b]`. */
  lemma BelowBroadcastIsRowwise(xs: seq<real>, lengths: seq<real>, cols: nat)
    requires |xs| == |lengths| * cols
    ensures AllBelow(xs, BroadcastRows(lengths, cols)) <==> RowsBelow(xs, lengths, cols)
  {
    if AllBelow(xs, BroadcastRows(lengths, cols)) {
      BelowBroadcastGivesRows(xs, lengths, cols);
    } else {
      NotBelowBroadcastGivesRow(xs, lengths, cols);
    }
  }

  /** `0 <= xs[b][o] < lengths[b]` for every entry of a matrix with one row
      per length. */
  ghost predicate RowsBelow(xs: seq<real>, lengths: seq<real>, cols: nat)
    requires |xs| == |lengths| * cols
  {
    forall b, o :: 0 <= b < |lengths| && 0 <= o < cols ==>
                     0.0 <= At(xs, |lengths|, cols, b, o) < lengths[b]
  }

  lemma BelowBroadcastGivesRows(xs: seq<real>, lengths: seq<real>, cols: nat)
    requires |xs| == |lengths| * cols
    requires AllBelow(xs, BroadcastRows(lengths, cols))
    ensures RowsBelow(xs, lengths, cols)
  {
    var bounds := BroadcastRows(lengths, cols);
    forall b, o | 0 <= b < |lengths| && 0 <= o < cols
      ensures 0.0 <= At(xs, |lengths|, cols, b, o) < lengths[b]
    {
      BroadcastRowsAt(lengths, cols, b, o);
      RowEndBound(b, |lengths|, cols);
      var i := b * cols + o;
      assert At(xs, |lengths|, cols, b, o) == xs[i];
      assert At(bounds, |lengths|, cols, b, o) == bounds[i];
      assert 0.0 <= xs[i] < bounds[i];
    }
  }

  lemma NotBelowBroadcastGivesRow(xs: seq<real>, lengths: seq<real>, cols: nat)
    requires |xs| == |lengths| * cols
    requires !AllBelow(xs, BroadcastRows(lengths, cols))
    ensures !RowsBelow(xs, lengths, cols)
  {
    var bounds := BroadcastRows(lengths, cols);
    var i :| 0 <= i < |xs| && !(0.0 <= xs[i] < bounds[i]);
    var b, o := FlatIndexSplit(i, |lengths|, cols);
    BroadcastRowsAt(lengths, cols, b, o);
    assert !(0.0 <= At(xs, |lengths|, cols, b, o) < lengths[b]);
  }

  // ---------------------------------------------------------------------
  // The checks
  // ---------------------------------------------------------------------

  /** `_is_float_array(a, shape=expected)`: the element type is asserted
      first; only then is the shape compared, and only when one is given. */
  function IsFloatArray(dtype: DType, shape: seq<nat>, expected: Option<seq<nat>>): (r: Outcome)
    ensures r == Pass <==> IsFloatType(dtype) && (expected.Some? ==> shape == expected.value)
    ensures !IsFloatType(dtype) ==> r == Fail(AssertionError)
    ensures IsFloatType(dtype) && r != Pass ==> r == Fail(ValueError)
  {
    if !IsFloatType(dtype) then Fail(AssertionError)
    else if expected.Some? && shape != expected.value then Fail(ValueError)
    else Pass
  }

  /** `_check_lengths(lengths, n_elems)`: lengths must be int32, all
      non-negative, and sum to `n_elems`; each failure is its own kind. */
  function CheckLengths(lengths: ArrayValue, nElems: int): (r: Outcome)
    ensures r == Pass <==>
              && lengths.dtype == Int32
              && (forall i :: 0 <= i < |lengths.elems| ==> lengths.elems[i] >= 0.0)
              && Sum(lengths.elems) == nElems as real
    ensures lengths.dtype != Int32 ==> r == Fail(AssertionError)
    ensures lengths.dtype == Int32 && (exists i :: 0 <= i < |lengths.elems| && lengths.elems[i] < 0.0) ==>
              r == Fail(ValueError)
    ensures r == Fail(IndexError) ==> Sum(lengths.elems) != nElems as real
    ensures lengths.dtype == Int32 && (forall i :: 0 <= i < |lengths.elems| ==> lengths.elems[i] >= 0.0) && r != Pass ==>
              r == Fail(IndexError)
  {
    if lengths.dtype != Int32 then Fail(AssertionError)
    else if !AllNonNegative(lengths.elems) then Fail(ValueError)
    else if Sum(lengths.elems) != nElems as real then Fail(IndexError)
    else Pass
  }

  /** `_check_which_maxout(which, B, I, P)`: `which` must be int32, of shape
      (B, I), and every value must lie in [0, P), one bound for all. */
  function CheckWhichMaxout(which: ArrayValue, B: nat, I: nat, P: int): (r: Outcome)
    ensures r == Pass <==>
              && which.dtype == Int32
              && which.shape == [B, I]
              && forall i :: 0 <= i < |which.elems| ==> 0.0 <= which.elems[i] < P as real
    ensures which.dtype != Int32 ==> r == Fail(AssertionError)
    ensures which.dtype == Int32 && which.shape != [B, I] ==> r == Fail(ValueError)
    ensures which.dtype == Int32 && which.shape == [B, I] && r != Pass ==> r == Fail(IndexError)
  {
    if which.dtype != Int32 then Fail(AssertionError)
    else if which.shape != [B, I] then Fail(ValueError)
    else if !ValuesWithinRange(which.elems, 0, P) then Fail(IndexError)
    else Pass
  }

  /** `_check_which_reduce_max(which, shape, lengths)`: `which` must be int32,
      of the given (B, O) shape, and `which[b][o]` must lie in [0, lengths[b]):
      the bound is that of the entry's own segment. The lengths have at most
      one dimension: `expand_dims(lengths, -1)` then broadcasts row by row. */
  function CheckWhichReduceMax(which: ArrayValue, shape: seq<nat>, lengths: ArrayValue): (r: Outcome)
    requires which.WellFormed()
    requires |lengths.shape| <= 1
    requires |shape| == 2 && shape[0] == |lengths.elems|
    ensures r == Pass <==>
              && which.dtype == Int32
              && which.shape == shape
              && forall b, o :: 0 <= b < shape[0] && 0 <= o < shape[1] ==>
                                  0.0 <= Elem2(which, b, o) < lengths.elems[b]
    ensures which.dtype != Int32 ==> r == Fail(AssertionError)
    ensures which.dtype == Int32 && which.shape != shape ==> r == Fail(ValueError)
    ensures which.dtype == Int32 && which.shape == shape && r != Pass ==> r == Fail(IndexError)
  {
    if which.dtype != Int32 then Fail(AssertionError)
    else if which.shape != shape then Fail(ValueError)
    else
      SegmentBoundCheck(which, lengths, shape[1]);
      if !AllBelow(which.elems, BroadcastRows(lengths.elems, shape[1])) then Fail(IndexError)
      else Pass
  }

  /** For a `which` of shape (B, O), the broadcast comparison of
      `_check_which_reduce_max` is the per-segment bound on `which[b][o]`. */
  lemma SegmentBoundCheck(which: ArrayValue, lengths: ArrayValue, O: nat)
    requires which.WellFormed() && which.shape == [|lengths.elems|, O]
    ensures |which.elems| == |BroadcastRows(lengths.elems, O)|
    ensures AllBelow(which.elems, BroadcastRows(lengths.elems, O)) <==>
            forall b, o :: 0 <= b < |lengths.elems| && 0 <= o < O ==>
                             0.0 <= Elem2(which, b, o) < lengths.elems[b]
  {
    var B := |lengths.elems|;
    ProductOfMatrix(B, O);
    BelowBroadcastIsRowwise(which.elems, lengths.elems, O);
    assert forall b, o :: 0 <= b < B && 0 <= o < O ==>
             Elem2(which, b, o) == At(which.elems, B, O, b, o);
  }

  // ---------------------------------------------------------------------
  // What the checks guarantee
  // ---------------------------------------------------------------------

  /** Prefix sums of non-negative lengths rise from 0 to the total. */
  lemma {:induction false} OffsetBetweenZeroAndTotal(xs: seq<real>, k: nat)
    requires forall i :: 0 <= i < |xs| ==> xs[i] >= 0.0
    requires k <= |xs|
    ensures 0.0 <= Offset(xs, k) <= Sum(xs)
    decreases |xs| - k
  {
    OffsetNonNegative(xs, k);
    if k < |xs| {
      OffsetBetweenZeroAndTotal(xs, k + 1);
      assert Offset(xs, k + 1) == Offset(xs, k) + xs[k];
    }
  }

  lemma {:induction false} OffsetNonNegative(xs: seq<real>, k: nat)
    requires forall i :: 0 <= i < |xs| ==> xs[i] >= 0.0
    requires k <= |xs|
    ensures 0.0 <= Offset(xs, k)
  {
    if k > 0 {
      OffsetNonNegative(xs, k - 1);
    }
  }

  /** Lengths that pass `_check_lengths(lengths, T)` cut the rows 0..T into
      consecutive segments: segment b is rows Offset(b) .. Offset(b) +
      lengths[b] = Offset(b+1); the first starts at 0, the last ends at T,
      and every boundary lies between. */
  lemma SegmentsTile(lengths: ArrayValue, T: int)
    requires CheckLengths(lengths, T) == Pass
    ensures Offset(lengths.elems, 0) == 0.0
    ensures Offset(lengths.elems, |lengths.elems|) == T as real
    ensures forall b :: 0 <= b <= |lengths.elems| ==> 0.0 <= Offset(lengths.elems, b) <= T as real
  {
    forall b | 0 <= b <= |lengths.elems|
      ensures 0.0 <= Offset(lengths.elems, b) <= T as real
    {
      OffsetBetweenZeroAndTotal(lengths.elems, b);
    }
  }

  /** After both checks of `backprop_reduce_max` pass, the row that
      `which[b][o]` selects lies inside segment b, and so inside the (T, O)
      output the kernel scatters into. */
  lemma ReduceMaxScatterInSegment(which: ArrayValue, lengths: ArrayValue, O: nat, T: int)
    requires which.WellFormed()
    requires CheckLengths(lengths, T) == Pass
    requires |lengths.shape| <= 1
    requires CheckWhichReduceMax(which, [|lengths.elems|, O], lengths) == Pass
    ensures forall b, o :: 0 <= b < |lengths.elems| && 0 <= o < O ==>
              && Offset(lengths.elems, b) <= Offset(lengths.elems, b) + Elem2(which, b, o)
              && Offset(lengths.elems, b) + Elem2(which, b, o) < Offset(lengths.elems, b + 1)
              && Offset(lengths.elems, b + 1) <= T as real
  {
    SegmentsTile(lengths, T);
  }

  /** After `_check_which_maxout` passes, the candidate `which[b][i]` selects
      lies inside the P-slot of (b, i) in the (B, I, P) output of
      `backprop_maxout`. */
  lemma MaxoutScatterInSlot(which: ArrayValue, B: nat, I: nat, P: nat)
    requires which.WellFormed()
    requires CheckWhichMaxout(which, B, I, P) == Pass
    ensures forall b, i :: 0 <= b < B && 0 <= i < I ==>
              && ((b * I + i) * P) as real <= ((b * I + i) * P) as real + Elem2(which, b, i)
              && ((b * I + i) * P) as real + Elem2(which, b, i) < ((b * I + i) * P + P) as real
              && (b * I + i) * P + P <= Product([B, I, P])
  {
    ProductOfCube(B, I, P);
    forall b, i | 0 <= b < B && 0 <= i < I
      ensures 0.0 <= Elem2(which, b, i) < P as real
      ensures (b * I + i) * P + P <= B * I * P
    {
      MaxoutEntryInRange(which, B, I, P, b, i);
      SlotEndBound(B, I, P, b, i);
    }
  }

  lemma MaxoutEntryInRange(which: ArrayValue, B: nat, I: nat, P: nat, b: nat, i: nat)
    requires which.WellFormed()
    requires CheckWhichMaxout(which, B, I, P) == Pass
    requires b < B && i < I
    ensures 0.0 <= Elem2(which, b, i) < P as real
  {
    ProductOfMatrix(B, I);
    RowEndBound(b, B, I);
    assert Elem2(which, b, i) == which.elems[b * I + i];
  }

  lemma SlotEndBound(B: nat, I: nat, P: nat, b: nat, i: nat)
    requires b < B && i < I
    ensures (b * I + i) * P + P <= B * I * P
  {
    RowEndBound(b, B, I);
    MulMonotone(b * I + i + 1, B * I, P);
    assert (b * I + i) * P + P == (b * I + i + 1) * P;
  }

  /** A zero-length segment admits no index: any `which` row for it is out
      of bounds. */
  lemma ZeroLengthSegmentRejected(which: ArrayValue, shape: seq<nat>, lengths: ArrayValue, b: nat)
    requires which.WellFormed() && which.dtype == Int32 && which.shape == shape
    requires |lengths.shape| <= 1
    requires |shape| == 2 && shape[0] == |lengths.elems| && shape[1] > 0
    requires b < shape[0] && lengths.elems[b] == 0.0
    ensures CheckWhichReduceMax(which, shape, lengths) == Fail(IndexError)
  {
    assert !(0.0 <= Elem2(which, b, 0) < lengths.elems[b]);
  }

  /** An empty `which` passes the maxout check whatever P is: the range
      reduction starts from `true`. */
  lemma EmptyWhichPassesMaxout(which: ArrayValue, B: nat, I: nat, P: int)
    requires which.WellFormed() && which.dtype == Int32 && which.shape == [B, I]
    requires B == 0 || I == 0
    ensures CheckWhichMaxout(which, B, I, P) == Pass
  {
    ProductOfMatrix(B, I);
  }

  /** The sum of integral values is integral. */
  lemma SumIntegral(xs: seq<real>)
    requires forall i :: 0 <= i < |xs| ==> IsIntegral(xs[i])
    ensures IsIntegral(Sum(xs))
  {
    OffsetIntegral(xs, |xs|);
  }

  lemma {:induction false} OffsetIntegral(xs: seq<real>, k: nat)
    requires forall i :: 0 <= i < |xs| ==> IsIntegral(xs[i])
    requires k <= |xs|
    ensures IsIntegral(Offset(xs, k))
  {
    if k > 0 {
      OffsetIntegral(xs, k - 1);
      IntegralAdd(Offset(xs, k - 1), xs[k - 1]);
    }
  }

  lemma IntegralAdd(s: real, x: real)
    requires IsIntegral(s) && IsIntegral(x)
    ensures IsIntegral(s + x)
  {
    var n := s.Floor + x.Floor;
    assert s + x == n as real;
    assert (n as real).Floor == n;
  }
}
