/** The compiled kernels as the dispatch layer uses them: which kernel, the
    template instance an element type selects, and the launch primitive.
    Kernel bodies are compiled CUDA code outside this model: a launch is
    recorded on the device and may write into its output buffers,
    and nothing is known about the values it writes. */
module Kernels {
  import opened Arrays

  /** The kernels compiled from the kernel source (each in a `<float>` and a
      `<double>` instance) and the separately compiled hash kernel. */
  datatype Kernel =
    | ClippedLinear | Gelu | Maxout | Mish | ReduceMax | ReduceSum | Seq2col | Swish
    | BackpropClippedLinear | BackpropGelu | BackpropHardSwish | BackpropHardSwishMobilenet
    | BackpropMaxout | BackpropMish | BackpropReduceMax | BackpropReduceMean
    | BackpropReduceSum | BackpropSeq2col | BackpropSwish
    | HashData

  /** Which instance of a templated kernel runs; the hash kernel is not
      templated. */
  datatype Variant = FloatVariant | DoubleVariant | Untemplated

  /** The template instance an element type selects: `<float>` for float32,
      `<double>` for every other type that passed validation. */
  function VariantFor(d: DType): (v: Variant)
    ensures v == FloatVariant <==> d == Float32
    ensures v != Untemplated
  {
    if d == Float32 then FloatVariant else DoubleVariant
  }

  /** One positional kernel argument: an array, a Python int (passed as a
      64-bit integer) or a Python float (passed as a double). */
  datatype Arg = Buf(array: NDArray) | IntArg(i: int) | RealArg(r: real)

  /** One launch: the kernel instance, the buffers it writes, the rest of
      its positional arguments in order, what each output buffer held when
      the kernel started and what it holds once the kernel is done. */
  datatype KernelCall = KernelCall(kernel: Kernel, variant: Variant, outputs: seq<NDArray>, args: seq<Arg>,
                                   ghost before: seq<seq<real>>, ghost after: seq<seq<real>>)

  /** The elements each of the given arrays holds now. */
  ghost function Contents(arrays: seq<NDArray>): (r: seq<seq<real>>)
    reads set a | a in arrays :: a.data
    ensures |r| == |arrays|
    ensures forall i :: 0 <= i < |arrays| ==> r[i] == arrays[i].data[..]
  {
    if arrays == [] then [] else [arrays[0].data[..]] + Contents(arrays[1..])
  }

  /** The device stream kernels are queued on. */
  class Device {
    var launches: seq<KernelCall>

    constructor ()
      ensures launches == []
    {
      launches := [];
    }

    /** Queues one kernel.  The kernel may write into its output buffers,
        always values of their element types, and into nothing else. */
    method Launch(kernel: Kernel, variant: Variant, outputs: seq<NDArray>, args: seq<Arg>)
      requires forall a | a in outputs :: a.Valid()
      modifies this, set a | a in outputs :: a.data
      ensures launches == old(launches) + [KernelCall(kernel, variant, outputs, args, old(Contents(outputs)), Contents(outputs))]
      ensures forall a | a in outputs :: a.Valid()
    {
      launches := launches + [KernelCall(kernel, variant, outputs, args, Contents(outputs), Contents(outputs))];
    }
  }
}
