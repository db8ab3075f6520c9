# powerfit kernels: a Dafny model of the OpenCL dispatch layer

The `Kernels` class of powerfit (`powerfit/kernels.py`) sits between the
rigid-body fitting pipeline and a handful of OpenCL kernels. It does three
things that this project models and verifies:

- **Element-type dispatch.** `multiply`, `c_conj_multiply` and `fill` each
  look at the numpy dtypes of their buffers. They pick one of the five
  elementwise kernels built in the constructor, or they raise `TypeError`
  before anything is enqueued (module `Dispatch`, over the kernel
  signatures in module `KernelTypes`).
- **The integer kernels.** `multiply_int32` (`z[i] = x[i] * y[i]`) and
  `set_to_i` (`array[i] = value`) are loops over device buffers. The host
  calls `multiply` and `fill` launch them only after the dtype check
  (module `Elementwise`).
- **Launching `rotate_image3d`** (module `Rotate`):
  - The shape argument is the buffer's dimensions followed by their
    product.
  - The inverted 3×3 matrix fills slots 0..8 of a zeroed 16-slot vector.
    The layout is row-major and contiguous.
  - The center fills slots 0..2 of a zeroed 4-slot vector.
  - The global work size is `compute_units * 128`, whatever the volume's
    shape.
  - The six kernel arguments are bound in the order sampler, image, packed
    matrix, buffer data, packed center, packed shape.

Modelling choices:

- Device buffers are `Elementwise.Buffer` values with a fixed dtype, a
  shape and an `array<int>` of elements. The elements are interpreted only
  for int32 buffers. `Buffer.Valid` ties the two: a device array holds as
  many elements as the product of its shape. `RotateImage3d` relies on it,
  so the voxel count it passes is the buffer's length.
- An elementwise kernel runs once per element of its first buffer
  argument. This follows the launch-range convention of pyopencl's
  `ElementwiseKernel`, which is not part of this model. The other buffers
  must therefore be at least as long as the first. The host code does not
  check this, so in the model it is a precondition that applies only when
  a launch happens. An output buffer may be the same array as an input.
- `np.linalg.inv` is a parameter `invert` of `RotateImage3d`. It returns
  `None` where numpy raises `LinAlgError`. Matrix and center entries have
  an abstract element type `T`, and `zero` is the value `np.zeros` puts in
  each slot.
- `a[:n] = values` follows numpy's assignment rule (`Rotate.Broadcast`):
  - `n` values are copied;
  - a single value is repeated `n` times;
  - any other length raises `ValueError` (`BroadcastError` in the model).

  So a 1×1 matrix, or a one-element center, is accepted and repeated.
- The 16-slot matrix argument is not a 4×4 homogeneous layout. The code
  writes the nine entries of the inverse contiguously into slots 0..8
  (`powerfit/kernels.py:67-68`), and slots 9..15 stay zero. In the model,
  slot `3*i + j` holds entry (i, j) of the inverse.

## Model

| member | source | states |
|---|---|---|
| `KernelTypes.Implements` | powerfit/kernels.py:15-36 | the operation each kernel string performs; a fill kernel takes one buffer, the two products and the conjugate product take three |
| `KernelTypes.VectorTypes` | powerfit/kernels.py:15-36 | each elementwise kernel's declared pointer argument types, from its argument string; all buffers of one kernel share a single element type, which is float32, int32 or complex64 |
| `Dispatch.SelectMultiply` | powerfit/kernels.py:47-54 | a chosen kernel implements multiply and declares exactly the three buffers' dtypes; TypeError only when no multiply kernel declares those dtypes |
| `Dispatch.SelectConjMultiply` | powerfit/kernels.py:39-45 | a chosen kernel implements conjugate-multiply with exactly the buffers' dtypes; TypeError only when none does |
| `Dispatch.SelectFill` | powerfit/kernels.py:78-85 | a chosen kernel implements fill for exactly the target's dtype; TypeError only when none does |
| `Dispatch.SignaturesDistinguishKernels` | powerfit/kernels.py:15-36 | two kernels that implement the same operation and declare the same signature are the same kernel, so choosing by dtype is unambiguous |
| `Dispatch.SelectionComplete` | powerfit/kernels.py:39-85 | whenever some kernel for an operation accepts the given dtypes, the dispatch picks that kernel (completeness of the three selections) |
| `Dispatch.MultiplyAcceptsExactly` | powerfit/kernels.py:47-54 | float32 kernel iff all three are float32, int32 kernel iff all three are int32, TypeError for every other combination (complex64, mixed) |
| `Dispatch.ConjMultiplyAcceptsExactly` | powerfit/kernels.py:39-45 | the conjugate-multiply kernel is launched iff all three buffers are complex64 |
| `Dispatch.FillAcceptsExactly` | powerfit/kernels.py:78-85 | `set_to_f` iff float32, `set_to_i` iff int32, TypeError for every other dtype |
| `Elementwise.MultiplyInt32Kernel` | powerfit/kernels.py:20-23 | `z[i]` becomes the product of the original `x[i]` and `y[i]` at every index of `x`; the rest of `z` is unchanged; `x` and `y` are unchanged unless they are `z` |
| `Elementwise.SetToIKernel` | powerfit/kernels.py:34-36 | every element of the array equals `value` |
| `Elementwise.Multiply` | powerfit/kernels.py:47-54 | the launched kernel is the one the dispatch selects; on TypeError `out` is untouched; either kernel writes only the indices of `x`, and after the int32 kernel `out[i] == x[i] * y[i]` there; inputs that are not `out` are unchanged |
| `Elementwise.ConjMultiply` | powerfit/kernels.py:39-45 | launches iff all three buffers are complex64; on TypeError `out` is untouched |
| `Elementwise.Fill` | powerfit/kernels.py:78-85 | the launched kernel is the one the dispatch selects; on TypeError the array is untouched; after `set_to_i` every element equals `value` |
| `Elementwise.Product` | powerfit/kernels.py:64 | the voxel count is zero iff some dimension is zero, and otherwise is at least every dimension |
| `Rotate.ShapeArg` | powerfit/kernels.py:64 | the shape argument has `ndims + 1` entries: the dimensions in order, then their product, which is zero iff some dimension is |
| `Rotate.ShapeArg3D` | powerfit/kernels.py:64 | for a 3-D buffer the shape argument is `[d0, d1, d2, d0*d1*d2]` |
| `Rotate.Flatten` | powerfit/kernels.py:68 | `flatten()`: the rows one after another; the first row is a prefix, and the result is empty iff every row is (index layout in FlattenLength and FlattenAt) |
| `Rotate.FlattenLength` | powerfit/kernels.py:68 | flattening a matrix whose rows have `w` entries gives `rows * w` entries |
| `Rotate.FlattenAt` | powerfit/kernels.py:68 | row-major flattening: entry (i, j) of a matrix with three columns sits at index `3*i + j` |
| `Rotate.Broadcast` | powerfit/kernels.py:68-71 | slice assignment of `values` into `n` slots succeeds iff there are `n` values or one; then slot `k` holds value `k`, or the single value |
| `Rotate.PackSlots` | powerfit/kernels.py:67-71 | a zeroed `size`-slot vector whose first `prefix` slots hold the broadcast values and whose remaining slots are zero; BroadcastError exactly when the broadcast is refused |
| `Rotate.RotateImage3d` | powerfit/kernels.py:56-76 | LinAlgError when the matrix cannot be inverted. Otherwise a launch happens iff the inverse and the center fit their slots. Its global size is `(compute_units*128, 1, 1)`, independent of the buffer. Its six arguments are sampler, image, packed matrix, buffer data, packed center and shape argument, in that order; the voxel count in the shape argument equals the buffer's length. The packed matrix holds the INVERSE row-major in slots 0..8 (`3*i+j` for a 3×3 inverse) and zeros in slots 9..15. The packed center is `center + [zero]` for a 3-point center. |

## Left out

- Kernel compilation: reading `kernels/kernels.cl` and building it (`powerfit/kernels.py:9-13`). This is file I/O and foreign OpenCL tooling. A build failure is not modelled.
- The body of the `rotate_image3d` kernel lives in `kernels/kernels.cl`, which is not part of this model. The resampling itself, the sampler mode and the image contents are therefore not modelled. Samplers and images are opaque `Handle`s.
- Asynchronous execution: `cl.enqueue_nd_range_kernel` and the returned events (`powerfit/kernels.py:73-76`). A launch is modelled as its effect on the buffers (elementwise) or as the `Launch` record of its work size and arguments (rotation). Queues and events are not modelled, and neither is the unused `queue` parameter.
- Elementwise.Multiply: the float32 product (`powerfit/kernels.py:15-18`) is floating-point arithmetic. The model states which kernel runs, not the values it writes.
- Elementwise.ConjMultiply: the complex conjugate product (`powerfit/kernels.py:25-28`) is floating-point arithmetic. Only the dtype check is modelled.
- Elementwise.Fill: the float32 fill and the `np.float32(value)` / `np.int32(value)` coercions (`powerfit/kernels.py:80-82`) are not modelled. The fill value is a mathematical integer.
- Elementwise.MultiplyInt32Kernel: int32 wrap-around of the product is not modelled. Elements are mathematical integers.
- Rotate.ShapeArg: the `np.int32` conversion of the shape and of the voxel count is not modelled. The count is the exact product.
- Rotate.RotateImage3d: `np.linalg.inv` is a parameter, not a computation. The float64-to-float32 rounding of the packed matrix and center is not modelled: entries are of an abstract type.
- The error message texts (`powerfit/kernels.py:43, 53, 84`) carry no behaviour. Errors are the constructors of `KernelTypes.Error`.
- pyopencl's own checks inside an elementwise launch (contiguity, buffer sizes) are not part of this model.
