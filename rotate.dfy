/** The host side of `Kernels.rotate_image3d`: how the shape, the inverted
    matrix and the center are packed into the kernel's arguments, and the
    launch geometry. Matrix and center entries are of an abstract element
    type `T`, with `zero` the value `np.zeros` fills slots with; inverting
    the matrix is the parameter `invert` (`np.linalg.inv`), which answers
    None where numpy raises LinAlgError. */
module Rotate {
  import opened KernelTypes
  import opened Elementwise

  /** A matrix as its rows. */
  type Matrix<T> = seq<seq<T>>

  /** Every row of `m` has `w` entries. */
  predicate HasWidth<T>(m: Matrix<T>, w: nat)
  {
    forall i :: 0 <= i < |m| ==> |m[i]| == w
  }

  /** `m` is 3 by 3. */
  predicate Is3x3<T>(m: Matrix<T>)
  {
    |m| == 3 && HasWidth(m, 3)
  }

  /** The packed `shape` argument: the dimensions followed by their product. */
  function ShapeArg(shape: seq<nat>): (r: seq<int>)
    ensures |r| == |shape| + 1
    ensures forall k :: 0 <= k < |shape| ==> r[k] == shape[k]
    ensures r[|shape|] == Product(shape)
    ensures r[|shape|] == 0 <==> exists k :: 0 <= k < |shape| && shape[k] == 0
  {
    shape + [Product(shape)]
  }

  /** For a 3-D buffer the shape argument is the four integers the kernel
      expects: the three dimensions and the voxel count. */
  lemma ShapeArg3D(d0: nat, d1: nat, d2: nat)
    ensures ShapeArg([d0, d1, d2]) == [d0, d1, d2, d0 * d1 * d2]
  {
    assert [d2][1..] == [];
    assert Product([d2]) == d2;
    assert [d1, d2][1..] == [d2];
    assert Product([d1, d2]) == d1 * d2;
    assert [d0, d1, d2][1..] == [d1, d2];
    assert Product([d0, d1, d2]) == d0 * (d1 * d2);
    assert d0 * (d1 * d2) == d0 * d1 * d2;
  }

  /** `m.flatten()`: the rows one after another (row-major order). */
  function Flatten<T>(m: Matrix<T>): (r: seq<T>)
    ensures m != [] ==> m[0] <= r
    ensures r == [] <==> forall i :: 0 <= i < |m| ==> m[i] == []
  {
    if m == [] then [] else m[0] + Flatten(m[1..])
  }

  /** Row-major indexing: entry (i, j) of a matrix with rows of three
      entries sits at `3 * i + j` of its flattening. */
  lemma {:induction false} FlattenAt<T>(m: Matrix<T>, i: nat, j: nat)
    requires HasWidth(m, 3)
    requires i < |m| && j < 3
    ensures |Flatten(m)| == 3 * |m|
    ensures Flatten(m)[3 * i + j] == m[i][j]
  {
    FlattenLength(m, 3);
    var tail := m[1..];
    assert Flatten(m) == m[0] + Flatten(tail);
    if i > 0 {
      assert tail[i - 1] == m[i];
      FlattenAt(tail, i - 1, j);
    }
  }

  /** A matrix of width `w` flattens to `|m| * w` entries. */
  lemma {:induction false} FlattenLength<T>(m: Matrix<T>, w: nat)
    requires HasWidth(m, w)
    ensures |Flatten(m)| == |m| * w
  {
    if m != [] {
      FlattenLength(m[1..], w);
      assert |m| * w == (|m| - 1) * w + w;
    }
  }

  /** numpy's assignment `a[:n] = values`: `values` of length `n` is copied,
      `values` of length 1 is repeated `n` times, any other length is
      refused (None, where numpy raises ValueError). */
  function Broadcast<T>(values: seq<T>, n: nat): (r: Option<seq<T>>)
    ensures r.Some? <==> |values| == n || |values| == 1
    ensures r.Some? ==> |r.value| == n
    ensures r.Some? ==> forall k :: 0 <= k < n ==> r.value[k] == values[if |values| == n then k else 0]
  {
    if |values| == n then Some(values)
    else if |values| == 1 then Some(seq(n, _ => values[0]))
    else None
  }

  /** `a = np.zeros(size); a[:prefix] = values`: a fresh zeroed buffer whose
      first `prefix` slots are then overwritten. */
  method PackSlots<T>(values: seq<T>, size: nat, prefix: nat, zero: T) returns (r: Result<seq<T>>)
    requires prefix <= size
    ensures r.Ok? <==> Broadcast(values, prefix).Some?
    ensures r.Err? ==> r.error == BroadcastError
    ensures r.Ok? ==> |r.value| == size
    ensures r.Ok? ==> r.value[..prefix] == Broadcast(values, prefix).value
    ensures r.Ok? ==> forall k :: prefix <= k < size ==> r.value[k] == zero
  {
    var src := Broadcast(values, prefix);
    if src.None? {
      return Err(BroadcastError);
    }
    var a := new T[size](_ => zero);
    var i := 0;
    while i < prefix
      invariant 0 <= i <= prefix
      invariant forall k :: 0 <= k < i ==> a[k] == src.value[k]
      invariant forall k :: prefix <= k < size ==> a[k] == zero
    {
      a[i] := src.value[i];
      i := i + 1;
    }
    r := Ok(a[..]);
  }

  /** An opaque device object (sampler or image) passed through unchanged. */
  datatype Handle = Handle(id: nat)

  /** One argument bound to the rotation kernel. */
  datatype Arg<T> =
    | SamplerArg(sampler: Handle)
    | ImageArg(image: Handle)
    | FloatsArg(floats: seq<T>)
    | BufferArg(data: array<int>)
    | IntsArg(ints: seq<int>)

  /** An enqueued kernel: its global work size and its bound arguments. */
  datatype Launch<T> = Launch(globalSize: (nat, nat, nat), args: seq<Arg<T>>)

  /** `Kernels.rotate_image3d`. The global work size depends only on the
      device's compute units; the kernel receives the INVERSE of `rotmat`,
      flattened into slots 0..8 of a zeroed 16-slot vector, the center in a
      zeroed 4-slot vector, and the shape with its voxel count. */
  method RotateImage3d<T>(computeUnits: nat, sampler: Handle, image: Handle,
                          rotmat: Matrix<T>, invert: Matrix<T> -> Option<Matrix<T>>,
                          output: Buffer, center: seq<T>, zero: T)
    returns (r: Result<Launch<T>>)
    requires output.Valid()
    ensures invert(rotmat).None? ==> r == Err(LinAlgError)
    ensures r.Ok? <==> invert(rotmat).Some? &&
                       Broadcast(Flatten(invert(rotmat).value), 9).Some? &&
                       Broadcast(center, 3).Some?
    ensures invert(rotmat).Some? && r.Err? ==> r.error == BroadcastError
    ensures r.Ok? ==> r.value.globalSize == (computeUnits * 128, 1, 1)
    ensures r.Ok? ==>
              |r.value.args| == 6 &&
              r.value.args[0] == SamplerArg(sampler) &&
              r.value.args[1] == ImageArg(image) &&
              r.value.args[2].FloatsArg? &&
              r.value.args[3] == BufferArg(output.data) &&
              r.value.args[4].FloatsArg? &&
              r.value.args[5] == IntsArg(ShapeArg(output.shape)) &&
              r.value.args[5].ints[|output.shape|] == output.data.Length
    ensures r.Ok? ==>
              var m16 := r.value.args[2].floats;
              |m16| == 16 &&
              m16[..9] == Broadcast(Flatten(invert(rotmat).value), 9).value &&
              forall k :: 9 <= k < 16 ==> m16[k] == zero
    ensures r.Ok? && Is3x3(invert(rotmat).value) ==>
              forall i, j :: 0 <= i < 3 && 0 <= j < 3 ==>
                r.value.args[2].floats[3 * i + j] == invert(rotmat).value[i][j]
    ensures r.Ok? ==>
              var c4 := r.value.args[4].floats;
              |c4| == 4 && c4[..3] == Broadcast(center, 3).value && c4[3] == zero
    ensures invert(rotmat).Some? && Is3x3(invert(rotmat).value) && |center| == 3 ==>
              r.Ok? && r.value.args[4].floats == center + [zero]
  {
    var globalSize := (computeUnits * 16 * 8, 1, 1);
    var shape := ShapeArg(output.shape);
    var inv := invert(rotmat);
    if inv.None? {
      return Err(LinAlgError);
    }
    if Is3x3(inv.value) {
      FlattenLength(inv.value, 3);
    }
    var m16 := PackSlots(Flatten(inv.value), 16, 9, zero);
    if m16.Err? {
      return Err(m16.error);
    }
    var c4 := PackSlots(center, 4, 3, zero);
    if c4.Err? {
      return Err(c4.error);
    }
    if Is3x3(inv.value) {
      forall i, j | 0 <= i < 3 && 0 <= j < 3
        ensures m16.value[3 * i + j] == inv.value[i][j]
      {
        FlattenAt(inv.value, i, j);
        assert m16.value[..9][3 * i + j] == m16.value[3 * i + j];
      }
      if |center| == 3 {
        assert c4.value == c4.value[..3] + [c4.value[3]];
      }
    }
    r := Ok(Launch(globalSize, [SamplerArg(sampler), ImageArg(image), FloatsArg(m16.value),
                                BufferArg(output.data), FloatsArg(c4.value), IntsArg(shape)]));
  }
}
