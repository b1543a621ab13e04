/**
 * Shared vocabulary of the OpenGL renderer model: status codes, the
 * fixed-width integer types the renderer stores, 4x4 matrices in OpenGL's
 * column-major layout, the viewpoint, and the numeric and driver helpers
 * the model treats as uninterpreted.
 */
module Common {

  /** The VLC status codes the renderer returns. */
  datatype Status = Success | EGeneric | ENoMem | EBadVar

  /** An operation that either yields a value or fails with a status. */
  datatype Result<T> = Ok(value: T) | Err(status: Status)

  datatype Option<T> = None | Some(value: T)

  /** GLushort, the type of the index buffer entries. */
  type u16 = x: int | 0 <= x < 0x1_0000

  /** unsigned int, the type of the video format's offsets and sizes. */
  type u32 = x: int | 0 <= x < 0x1_0000_0000

  /** M_PI. */
  const PI: real := 3.141592653589793

  /** A 4x4 matrix as 16 floats; entry `col * 4 + row` (OpenGL column-major order). */
  type Mat4 = m: seq<real> | |m| == 16 witness IDENTITY

  const IDENTITY: seq<real> := [
    1.0, 0.0, 0.0, 0.0,
    0.0, 1.0, 0.0, 0.0,
    0.0, 0.0, 1.0, 0.0,
    0.0, 0.0, 0.0, 1.0
  ]

  /** vlc_viewpoint_t: angles and horizontal field of view, in degrees. */
  datatype Viewpoint = Viewpoint(yaw: real, pitch: real, roll: real, fov: real)

  /**
   * Helpers whose numerics are not modelled. Each field stands for one
   * function of the C code, taken as an arbitrary (uninterpreted) function:
   * - sin, cos: sincosf
   * - fovY: UpdateFOVy, 2 * atanf(tanf(fovx / 2) / sar), from (fovx, sar)
   * - zMin: the minimal zoom of UpdateZ,
   *   -SPHERE_RADIUS / sinf(atanf(sqrtf(tan²(fovx/2) + tan²(fovy/2)))), from (fovx, fovy)
   * - projection: getProjectionMatrix, from (sar, fovy)
   * - viewMatrix: vlc_viewpoint_to_4x4
   * - reverse: vlc_viewpoint_reverse
   * - alignPot: vlc_align_pot
   */
  datatype Externals = Externals(
    sin: real -> real,
    cos: real -> real,
    fovY: (real, real) -> real,
    zMin: (real, real) -> real,
    projection: (real, real) -> Mat4,
    viewMatrix: Viewpoint -> Mat4,
    reverse: Viewpoint -> Viewpoint,
    alignPot: nat -> nat
  )

  /**
   * Whether each of a mesh builder's three vlc_alloc calls succeeds
   * (vertex coordinates, texture coordinates, indices, in that order).
   */
  datatype Allocations = Allocations(vertexCoord: bool, textureCoord: bool, indices: bool)
  {
    predicate AllSucceed() { vertexCoord && textureCoord && indices }
  }

  /**
   * The result of a mesh builder: vertex positions (xyz per vertex),
   * texture coordinates (uv per vertex, one block of nbVertices pairs per
   * plane, plane after plane) and the triangle index list.
   */
  datatype Mesh = Mesh(vertexCoord: seq<real>, textureCoord: seq<real>, nbVertices: nat,
                       indices: seq<u16>, nbIndices: nat)

  /**
   * The buffers of a mesh have the sizes its counts announce for `nbPlanes`
   * planes, and every index names one of its vertices.
   */
  ghost predicate WellFormed(m: Mesh, nbPlanes: nat)
  {
    && |m.vertexCoord| == 3 * m.nbVertices
    && |m.textureCoord| == 2 * m.nbVertices * nbPlanes
    && |m.indices| == m.nbIndices
    && forall k :: 0 <= k < |m.indices| ==> m.indices[k] < m.nbVertices
  }

  /** memcpy of `src` into `dst` at `offset`. */
  method CopyInto<T>(dst: array<T>, offset: nat, src: seq<T>)
    requires offset + |src| <= dst.Length
    modifies dst
    ensures forall k :: offset <= k < offset + |src| ==> dst[k] == src[k - offset]
    ensures forall k :: 0 <= k < dst.Length && !(offset <= k < offset + |src|) ==> dst[k] == old(dst[k])
  {
    for i := 0 to |src|
      invariant forall k :: offset <= k < offset + i ==> dst[k] == src[k - offset]
      invariant forall k :: 0 <= k < dst.Length && !(offset <= k < offset + i) ==> dst[k] == old(dst[k])
    {
      dst[offset + i] := src[i];
    }
  }

  /**
   * The texture buffer of a mesh: one block of `size` entries per plane,
   * plane after plane.
   */
  function Flatten(blocks: seq<seq<real>>, size: nat): (r: seq<real>)
    requires forall p :: 0 <= p < |blocks| ==> |blocks[p]| == size
    ensures |r| == |blocks| * size
    ensures forall k :: 0 <= k < |r| ==> (DivBelow(k, |blocks|, size); r[k] == blocks[k / size][k % size])
  {
    seq(|blocks| * size, k requires 0 <= k < |blocks| * size =>
          DivBelow(k, |blocks|, size); blocks[k / size][k % size])
  }

  /** An entry below n blocks of `size` lies in one of the n blocks. */
  lemma DivBelow(k: nat, n: nat, size: nat)
    requires k < n * size
    ensures size > 0 && k / size < n && k % size < size
  {
    if size > 0 && n <= k / size {
      MulMono(n, k / size, size);
    }
  }

  /** Block j of the texture buffer is plane j's block. */
  lemma FlattenBlock(blocks: seq<seq<real>>, size: nat, j: nat)
    requires forall p :: 0 <= p < |blocks| ==> |blocks[p]| == size
    requires j < |blocks|
    ensures j * size + size <= |Flatten(blocks, size)|
    ensures Flatten(blocks, size)[j * size .. j * size + size] == blocks[j]
  {
    MulMono(j + 1, |blocks|, size);
    var r := Flatten(blocks, size);
    forall k | 0 <= k < size
      ensures r[j * size + k] == blocks[j][k]
    {
      DivInBlock(j * size + k, j, size);
    }
  }

  /** Entry k of the buffer lies in block p, at k - p * size. */
  lemma DivInBlock(k: nat, p: nat, size: nat)
    requires p * size <= k < (p + 1) * size
    ensures k / size == p && k % size == k - p * size
  {
    var q := k / size;
    if q < p {
      MulMono(q + 1, p, size);
    } else if p < q {
      MulMono(p + 1, q, size);
    }
  }

  /** The first n blocks of `blocks` are in place at the start of `dst`. */
  ghost predicate BlocksCopied(dst: array<real>, blocks: seq<seq<real>>, size: nat, n: nat)
    requires forall p :: 0 <= p < |blocks| ==> |blocks[p]| == size
    requires n <= |blocks| && dst.Length == |blocks| * size
    reads dst
  {
    forall k :: 0 <= k < n * size ==>
      (DivBelow(k, n, size); dst[k] == blocks[k / size][k % size])
  }

  /**
   * The memcpy of one plane's block of texture coordinates into the
   * texture buffer of a mesh builder, at the offset of plane p.
   */
  method CopyBlock(dst: array<real>, ghost blocks: seq<seq<real>>, size: nat, p: nat, block: seq<real>)
    requires forall q :: 0 <= q < |blocks| ==> |blocks[q]| == size
    requires p < |blocks| && dst.Length == |blocks| * size && block == blocks[p]
    requires BlocksCopied(dst, blocks, size, p)
    modifies dst
    ensures BlocksCopied(dst, blocks, size, p + 1)
  {
    MulMono(p + 1, |blocks|, size);
    CopyInto(dst, p * size, block);
    forall k | 0 <= k < (p + 1) * size
      ensures dst[k] == blocks[k / size][k % size]
    {
      if k < p * size {
        DivBelow(k, p, size);
        assert old(dst[k]) == blocks[k / size][k % size];
      } else {
        DivInBlock(k, p, size);
      }
    }
  }

  /** Once every block is in place the buffer is their concatenation. */
  lemma BlocksComplete(dst: array<real>, blocks: seq<seq<real>>, size: nat)
    requires forall p :: 0 <= p < |blocks| ==> |blocks[p]| == size
    requires dst.Length == |blocks| * size
    requires BlocksCopied(dst, blocks, size, |blocks|)
    ensures dst[..] == Flatten(blocks, size)
  {
    forall k | 0 <= k < dst.Length
      ensures dst[k] == Flatten(blocks, size)[k]
    {
      DivBelow(k, |blocks|, size);
    }
  }

  lemma MulMono(a: nat, b: nat, m: nat)
    requires a <= b
    ensures a * m <= b * m
  {
  }
}
