/**
 * BuildRectangle: the flat quad used for ordinary (non-360°) video, two
 * triangles covering the square [-1, 1]^2 at depth -1, with each plane's
 * sampling rectangle stretched over it.
 */
module Rectangle {
  import opened Common

  const RECT_NB_VERTICES: nat := 4
  const RECT_NB_INDICES: nat := 6
  /** Two floats per vertex, four vertices. */
  const RECT_TEX_BLOCK: nat := 8

  /** Top-left, bottom-left, top-right, bottom-right, all at z = -1. */
  const RECT_COORDS: seq<real> := [
    -1.0,  1.0, -1.0,
    -1.0, -1.0, -1.0,
     1.0,  1.0, -1.0,
     1.0, -1.0, -1.0
  ]

  const RECT_INDICES: seq<u16> := [
    0, 1, 2,
    2, 1, 3
  ]

  /** The point a fraction t of the way from lo to hi. */
  function Lerp(lo: real, hi: real, t: real): real
  {
    lo + t * (hi - lo)
  }

  /** The texture coordinates of one plane: the corners of its rectangle, in vertex order. */
  function RectTexCoords(left: real, top: real, right: real, bottom: real): (tex: seq<real>)
    ensures |tex| == RECT_TEX_BLOCK
    ensures forall j :: 0 <= j < RECT_NB_VERTICES ==>
              && tex[2 * j] == Lerp(left, right, (RECT_COORDS[3 * j] + 1.0) / 2.0)
              && tex[2 * j + 1] == Lerp(top, bottom, (1.0 - RECT_COORDS[3 * j + 1]) / 2.0)
  {
    [
      left,  top,
      left,  bottom,
      right, top,
      right, bottom
    ]
  }

  /**
   * Twice the signed area of triangle t (0 or 1) of the quad in the x/y
   * plane, taken in the order its indices list its corners: positive when
   * the corners turn counter-clockwise.
   */
  function SignedArea(t: nat): real
    requires t < 2
  {
    var a, b, c := RECT_INDICES[3 * t] as nat, RECT_INDICES[3 * t + 1] as nat, RECT_INDICES[3 * t + 2] as nat;
    (RECT_COORDS[3 * b] - RECT_COORDS[3 * a]) * (RECT_COORDS[3 * c + 1] - RECT_COORDS[3 * a + 1])
    - (RECT_COORDS[3 * b + 1] - RECT_COORDS[3 * a + 1]) * (RECT_COORDS[3 * c] - RECT_COORDS[3 * a])
  }

  /**
   * The quad's geometry: every vertex is a corner of [-1, 1]^2 at depth
   * -1, and its two triangles both turn counter-clockwise, each covering
   * half of the square (area 2 of 4).
   */
  lemma RectangleGeometry()
    ensures forall j :: 0 <= j < RECT_NB_VERTICES ==>
              (RECT_COORDS[3 * j] == 1.0 || RECT_COORDS[3 * j] == -1.0) &&
              (RECT_COORDS[3 * j + 1] == 1.0 || RECT_COORDS[3 * j + 1] == -1.0) &&
              RECT_COORDS[3 * j + 2] == -1.0
    ensures SignedArea(0) == 4.0 && SignedArea(1) == 4.0
  {
    assert RECT_INDICES[0] == 0 && RECT_INDICES[1] == 1 && RECT_INDICES[2] == 2;
    assert RECT_INDICES[3] == 2 && RECT_INDICES[4] == 1 && RECT_INDICES[5] == 3;
  }

  /** The texture coordinates of each plane, plane by plane. */
  function RectPlaneBlocks(nbPlanes: nat, left: seq<real>, top: seq<real>, right: seq<real>, bottom: seq<real>)
    : (blocks: seq<seq<real>>)
    requires nbPlanes <= |left| && nbPlanes <= |top| && nbPlanes <= |right| && nbPlanes <= |bottom|
    ensures |blocks| == nbPlanes
    ensures forall p :: 0 <= p < nbPlanes ==> blocks[p] == RectTexCoords(left[p], top[p], right[p], bottom[p])
  {
    seq(nbPlanes, p requires 0 <= p < nbPlanes => RectTexCoords(left[p], top[p], right[p], bottom[p]))
  }

  /** The mesh BuildRectangle returns for nbPlanes planes. */
  function RectMesh(nbPlanes: nat, left: seq<real>, top: seq<real>, right: seq<real>, bottom: seq<real>)
    : (m: Mesh)
    requires nbPlanes <= |left| && nbPlanes <= |top| && nbPlanes <= |right| && nbPlanes <= |bottom|
    ensures WellFormed(m, nbPlanes)
    ensures m.nbVertices == RECT_NB_VERTICES && m.nbIndices == RECT_NB_INDICES
  {
    Mesh(RECT_COORDS, Flatten(RectPlaneBlocks(nbPlanes, left, top, right, bottom), RECT_TEX_BLOCK),
         RECT_NB_VERTICES, RECT_INDICES, RECT_NB_INDICES)
  }

  /**
   * In the mesh, vertex j of plane p samples the point of that plane's
   * rectangle that the vertex's position maps to: x = -1 to left, x = 1 to
   * right, y = 1 to top, y = -1 to bottom. The picture is stretched over
   * the quad upright and unmirrored.
   */
  lemma RectMeshMapsCorners(nbPlanes: nat, left: seq<real>, top: seq<real>, right: seq<real>, bottom: seq<real>,
                            p: nat, j: nat)
    requires nbPlanes <= |left| && nbPlanes <= |top| && nbPlanes <= |right| && nbPlanes <= |bottom|
    requires p < nbPlanes && j < RECT_NB_VERTICES
    ensures var m := RectMesh(nbPlanes, left, top, right, bottom);
            && p * RECT_TEX_BLOCK + 2 * j + 1 < |m.textureCoord|
            && m.textureCoord[p * RECT_TEX_BLOCK + 2 * j] == Lerp(left[p], right[p], (m.vertexCoord[3 * j] + 1.0) / 2.0)
            && m.textureCoord[p * RECT_TEX_BLOCK + 2 * j + 1] == Lerp(top[p], bottom[p], (1.0 - m.vertexCoord[3 * j + 1]) / 2.0)
  {
    MulMono(p + 1, nbPlanes, RECT_TEX_BLOCK);
    DivInBlock(p * RECT_TEX_BLOCK + 2 * j, p, RECT_TEX_BLOCK);
    DivInBlock(p * RECT_TEX_BLOCK + 2 * j + 1, p, RECT_TEX_BLOCK);
  }

  /**
   * BuildRectangle: allocate the three buffers (a failed allocation
   * returns ENOMEM with no mesh), copy the fixed positions, one block of
   * texture coordinates per plane, and the fixed indices.
   */
  method BuildRectangle(nbPlanes: nat, left: seq<real>, top: seq<real>, right: seq<real>, bottom: seq<real>,
                        alloc: Allocations)
    returns (r: Result<Mesh>)
    requires nbPlanes <= |left| && nbPlanes <= |top| && nbPlanes <= |right| && nbPlanes <= |bottom|
    ensures alloc.AllSucceed() ==> r == Ok(RectMesh(nbPlanes, left, top, right, bottom))
    ensures !alloc.AllSucceed() ==> r == Err(ENoMem)
  {
    var nbVertices := 4;
    var nbIndices := 6;

    if !alloc.vertexCoord {
      return Err(ENoMem);
    }
    var vertexCoord := new real[nbVertices * 3];
    if !alloc.textureCoord {
      return Err(ENoMem);
    }
    var textureCoord := new real[nbPlanes * nbVertices * 2];
    if !alloc.indices {
      return Err(ENoMem);
    }
    var indices := new u16[nbIndices];

    CopyInto(vertexCoord, 0, RECT_COORDS);
    assert vertexCoord[..] == RECT_COORDS;

    ghost var blocks := RectPlaneBlocks(nbPlanes, left, top, right, bottom);
    for p := 0 to nbPlanes
      invariant vertexCoord[..] == RECT_COORDS
      invariant BlocksCopied(textureCoord, blocks, RECT_TEX_BLOCK, p)
    {
      var tex := [
        left[p],  top[p],
        left[p],  bottom[p],
        right[p], top[p],
        right[p], bottom[p]
      ];
      CopyBlock(textureCoord, blocks, nbVertices * 2, p, tex);
    }
    BlocksComplete(textureCoord, blocks, RECT_TEX_BLOCK);

    CopyInto(indices, 0, RECT_INDICES);
    assert indices[..] == RECT_INDICES;
    return Ok(Mesh(vertexCoord[..], textureCoord[..], nbVertices, indices[..], nbIndices));
  }
}
