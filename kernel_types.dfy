/** Element types, errors and the elementwise kernels compiled by `Kernels.__init__`. */
module KernelTypes {

  /** The numpy element types a device buffer can carry. Only three of them
      (float32, int32, complex64) have kernels; the rest exist to be rejected. */
  datatype DType =
    | Bool
    | Int8 | Int16 | Int32 | Int64
    | UInt8 | UInt16 | UInt32 | UInt64
    | Float16 | Float32 | Float64
    | Complex64 | Complex128

  /** The exceptions a call can raise before anything is enqueued.
      TypeError: unsupported or mismatched element types (the dtype checks).
      LinAlgError: the rotation matrix could not be inverted.
      BroadcastError: numpy could not assign a value into a slice of the packed argument. */
  datatype Error = TypeError | LinAlgError | BroadcastError

  datatype Result<+T> = Ok(value: T) | Err(error: Error)

  datatype Option<+T> = None | Some(value: T)

  /** The five elementwise kernels built at construction time. */
  datatype ElementwiseKernel = MultiplyF32 | MultiplyInt32 | CConjMultiply | SetToF | SetToI

  /** What a host call asks for; several kernels may implement one operation. */
  datatype Operation = Multiply | ConjMultiply | Fill

  /** The operation each kernel's body performs: a fill writes one buffer,
      a product reads two and writes a third. */
  function Implements(k: ElementwiseKernel): (op: Operation)
    ensures op == Fill <==> |VectorTypes(k)| == 1
    ensures op != Fill <==> |VectorTypes(k)| == 3
  {
    match k
    case MultiplyF32 => Multiply
    case MultiplyInt32 => Multiply
    case CConjMultiply => ConjMultiply
    case SetToF => Fill
    case SetToI => Fill
  }

  /** The element types of a kernel's pointer arguments, in declaration order,
      as its argument string declares them (`float *`, `int *`, `cfloat_t *`):
      every kernel's buffers share one element type, float32, int32 or complex64. */
  function VectorTypes(k: ElementwiseKernel): (ts: seq<DType>)
    ensures |ts| > 0 && ts[0] in {Float32, Int32, Complex64}
    ensures forall i :: 0 <= i < |ts| ==> ts[i] == ts[0]
  {
    match k
    case MultiplyF32 => [Float32, Float32, Float32]
    case MultiplyInt32 => [Int32, Int32, Int32]
    case CConjMultiply => [Complex64, Complex64, Complex64]
    case SetToF => [Float32]
    case SetToI => [Int32]
  }
}
