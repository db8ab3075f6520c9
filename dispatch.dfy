/** The dtype checks of `Kernels.multiply`, `Kernels.c_conj_multiply` and
    `Kernels.fill`: each picks one compiled kernel or raises TypeError.
    Their contracts relate the choice to the kernels' declared signatures
    (`KernelTypes.VectorTypes`), an independent account of what each kernel accepts. */
module Dispatch {
  import opened KernelTypes

  /** No kernel implementing `op` declares the pointer types `ts`. */
  ghost predicate NoKernelFor(op: Operation, ts: seq<DType>)
  {
    forall k :: Implements(k) == op ==> VectorTypes(k) != ts
  }

  /** `multiply`: float32 kernel when all three buffers are float32, int32
      kernel when all three are int32, TypeError otherwise. */
  function SelectMultiply(t1: DType, t2: DType, t3: DType): (r: Result<ElementwiseKernel>)
    ensures r.Ok? ==> Implements(r.value) == Multiply && VectorTypes(r.value) == [t1, t2, t3]
    ensures r.Err? ==> r.error == TypeError && NoKernelFor(Multiply, [t1, t2, t3])
  {
    if t1 == t2 == t3 == Float32 then Ok(MultiplyF32)
    else if t1 == t2 == t3 == Int32 then Ok(MultiplyInt32)
    else Err(TypeError)
  }

  /** `c_conj_multiply`: its one kernel when all three buffers are complex64. */
  function SelectConjMultiply(t1: DType, t2: DType, t3: DType): (r: Result<ElementwiseKernel>)
    ensures r.Ok? ==> Implements(r.value) == ConjMultiply && VectorTypes(r.value) == [t1, t2, t3]
    ensures r.Err? ==> r.error == TypeError && NoKernelFor(ConjMultiply, [t1, t2, t3])
  {
    if t1 == t2 == t3 == Complex64 then Ok(CConjMultiply)
    else Err(TypeError)
  }

  /** `fill`: `set_to_f` for a float32 target, `set_to_i` for an int32 target. */
  function SelectFill(t: DType): (r: Result<ElementwiseKernel>)
    ensures r.Ok? ==> Implements(r.value) == Fill && VectorTypes(r.value) == [t]
    ensures r.Err? ==> r.error == TypeError && NoKernelFor(Fill, [t])
  {
    if t == Float32 then Ok(SetToF)
    else if t == Int32 then Ok(SetToI)
    else Err(TypeError)
  }

  /** Two kernels implementing the same operation never share a signature,
      so a selection by signature is unambiguous. */
  lemma SignaturesDistinguishKernels(k1: ElementwiseKernel, k2: ElementwiseKernel)
    requires Implements(k1) == Implements(k2) && VectorTypes(k1) == VectorTypes(k2)
    ensures k1 == k2
  {
  }

  /** The selection is complete: whenever some kernel for the operation
      accepts the given types, that very kernel is chosen. */
  lemma SelectionComplete(k: ElementwiseKernel, t1: DType, t2: DType, t3: DType)
    ensures Implements(k) == Multiply && VectorTypes(k) == [t1, t2, t3] ==> SelectMultiply(t1, t2, t3) == Ok(k)
    ensures Implements(k) == ConjMultiply && VectorTypes(k) == [t1, t2, t3] ==> SelectConjMultiply(t1, t2, t3) == Ok(k)
    ensures Implements(k) == Fill && VectorTypes(k) == [t1] ==> SelectFill(t1) == Ok(k)
  {
  }

  /** `multiply` launches a kernel exactly when the three buffers share the
      type float32 or the type int32; complex64 and mixed types are refused. */
  lemma MultiplyAcceptsExactly(t1: DType, t2: DType, t3: DType)
    ensures SelectMultiply(t1, t2, t3) == Ok(MultiplyF32) <==> t1 == t2 == t3 == Float32
    ensures SelectMultiply(t1, t2, t3) == Ok(MultiplyInt32) <==> t1 == t2 == t3 == Int32
    ensures SelectMultiply(t1, t2, t3).Err? <==> !(t1 == t2 == t3 && (t1 == Float32 || t1 == Int32))
  {
  }

  /** `c_conj_multiply` launches exactly when all three buffers are complex64. */
  lemma ConjMultiplyAcceptsExactly(t1: DType, t2: DType, t3: DType)
    ensures SelectConjMultiply(t1, t2, t3).Ok? <==> t1 == t2 == t3 == Complex64
  {
  }

  /** `fill` launches exactly for float32 and int32 targets. */
  lemma FillAcceptsExactly(t: DType)
    ensures SelectFill(t) == Ok(SetToF) <==> t == Float32
    ensures SelectFill(t) == Ok(SetToI) <==> t == Int32
    ensures SelectFill(t).Err? <==> t != Float32 && t != Int32
  {
  }
}
