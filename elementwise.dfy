/** The elementwise half of `Kernels`: the int32 kernel bodies as loops over
    device buffers, and the host calls that check dtypes and then launch.
    An elementwise kernel runs once per index of its FIRST buffer argument,
    so the other buffers must be at least that long; the host calls do not
    check this and leave it to their callers. */
module Elementwise {
  import opened KernelTypes
  import opened Dispatch

  /** A device buffer: its element type (fixed at creation), its shape and
      its elements. Element values are given meaning only for int32 buffers;
      the floating-point contents of other buffers are not modelled. */
  datatype Buffer = Buffer(dtype: DType, shape: seq<nat>, data: array<int>)
  {
    /** A device array holds exactly as many elements as its shape counts. */
    predicate Valid()
    {
      data.Length == Product(shape)
    }
  }

  /** `np.product` of a shape: the number of elements. The product of no
      dimensions is 1. */
  function Product(dims: seq<nat>): (r: nat)
    ensures r == 0 <==> exists k :: 0 <= k < |dims| && dims[k] == 0
    ensures r != 0 ==> forall k :: 0 <= k < |dims| ==> dims[k] <= r
  {
    if dims == [] then 1
    else
      var rest := Product(dims[1..]);
      assert forall k :: 1 <= k < |dims| ==> dims[k] == dims[1..][k - 1];
      FactorBounds(dims[0], rest);
      dims[0] * rest
  }

  /** A product of naturals is zero exactly when a factor is, and otherwise
      bounds both factors. */
  lemma FactorBounds(a: nat, b: nat)
    ensures a * b == 0 <==> a == 0 || b == 0
    ensures a != 0 && b != 0 ==> a <= a * b && b <= a * b
  {
  }

  /** `multiply_int32`: `z[i] = x[i] * y[i]` for every index of `x`.
      `z` may be `x` or `y` (an in-place product); each index is read
      before it is written, so the products are of the original values. */
  method MultiplyInt32Kernel(x: array<int>, y: array<int>, z: array<int>)
    requires x.Length <= y.Length && x.Length <= z.Length
    modifies z
    ensures forall i :: 0 <= i < x.Length ==> z[i] == old(x[i]) * old(y[i])
    ensures forall i :: x.Length <= i < z.Length ==> z[i] == old(z[i])
    ensures z != x ==> x[..] == old(x[..])
    ensures z != y ==> y[..] == old(y[..])
  {
    var n := x.Length;
    var i := 0;
    while i < n
      invariant 0 <= i <= n
      invariant forall k :: 0 <= k < i ==> z[k] == old(x[k]) * old(y[k])
      invariant forall k :: i <= k < n ==> x[k] == old(x[k]) && y[k] == old(y[k])
      invariant forall k :: n <= k < z.Length ==> z[k] == old(z[k])
      invariant z != x ==> x[..] == old(x[..])
      invariant z != y ==> y[..] == old(y[..])
    {
      z[i] := x[i] * y[i];
      i := i + 1;
    }
  }

  /** `set_to_i`: `array[i] = value` for every index. */
  method SetToIKernel(a: array<int>, value: int)
    modifies a
    ensures forall i :: 0 <= i < a.Length ==> a[i] == value
  {
    var i := 0;
    while i < a.Length
      invariant 0 <= i <= a.Length
      invariant forall k :: 0 <= k < i ==> a[k] == value
    {
      a[i] := value;
      i := i + 1;
    }
  }

  /** `Kernels.multiply`: checks the three dtypes, then launches the kernel
      `SelectMultiply` names. On TypeError nothing is written. */
  method Multiply(x: Buffer, y: Buffer, out: Buffer) returns (r: Result<ElementwiseKernel>)
    requires SelectMultiply(x.dtype, y.dtype, out.dtype).Ok? ==>
               x.data.Length <= y.data.Length && x.data.Length <= out.data.Length
    modifies out.data
    ensures r == SelectMultiply(x.dtype, y.dtype, out.dtype)
    ensures r.Err? ==> unchanged(out.data)
    ensures r == Ok(MultiplyInt32) ==>
              forall i :: 0 <= i < x.data.Length ==> out.data[i] == old(x.data[i]) * old(y.data[i])
    ensures r.Ok? ==> forall i :: x.data.Length <= i < out.data.Length ==> out.data[i] == old(out.data[i])
    ensures out.data != x.data ==> x.data[..] == old(x.data[..])
    ensures out.data != y.data ==> y.data[..] == old(y.data[..])
  {
    r := SelectMultiply(x.dtype, y.dtype, out.dtype);
    if r == Ok(MultiplyInt32) {
      MultiplyInt32Kernel(x.data, y.data, out.data);
    }
  }

  /** `Kernels.c_conj_multiply`: only complex64 buffers are accepted; the
      complex arithmetic of the launched kernel is not modelled. */
  method ConjMultiply(x: Buffer, y: Buffer, out: Buffer) returns (r: Result<ElementwiseKernel>)
    modifies out.data
    ensures r == SelectConjMultiply(x.dtype, y.dtype, out.dtype)
    ensures r.Ok? <==> x.dtype == y.dtype == out.dtype == Complex64
    ensures r.Err? ==> unchanged(out.data)
  {
    r := SelectConjMultiply(x.dtype, y.dtype, out.dtype);
    ConjMultiplyAcceptsExactly(x.dtype, y.dtype, out.dtype);
  }

  /** `Kernels.fill`: float32 targets get `set_to_f`, int32 targets
      `set_to_i`, anything else TypeError with nothing written. */
  method Fill(a: Buffer, value: int) returns (r: Result<ElementwiseKernel>)
    modifies a.data
    ensures r == SelectFill(a.dtype)
    ensures r.Err? ==> unchanged(a.data)
    ensures r == Ok(SetToI) ==> forall i :: 0 <= i < a.data.Length ==> a.data[i] == value
  {
    r := SelectFill(a.dtype);
    if r == Ok(SetToI) {
      SetToIKernel(a.data, value);
    }
  }
}
