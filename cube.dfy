/**
 * BuildCube: the standard cubemap layout. The cube has six faces of four
 * vertices each (front, back, left, right, bottom, top, in that order) and
 * every plane of the picture is an atlas of 3 x 2 cells, one cell per face,
 * each cell shrunk by the cubemap padding on every side.
 */
module Cube {
  import opened Common

  const CUBE_NB_VERTICES: nat := 24
  const CUBE_NB_INDICES: nat := 36
  /** Two floats per vertex, four vertices per face, six faces. */
  const CUBE_TEX_BLOCK: nat := 48

  /** The vertex positions, face by face (x, y, z per vertex). */
  const FRONT_COORDS: seq<real> := [-1.0,  1.0, -1.0,  -1.0, -1.0, -1.0,   1.0,  1.0, -1.0,   1.0, -1.0, -1.0]
  const BACK_COORDS: seq<real> :=  [-1.0,  1.0,  1.0,  -1.0, -1.0,  1.0,   1.0,  1.0,  1.0,   1.0, -1.0,  1.0]
  const LEFT_COORDS: seq<real> :=  [-1.0,  1.0, -1.0,  -1.0, -1.0, -1.0,  -1.0,  1.0,  1.0,  -1.0, -1.0,  1.0]
  const RIGHT_COORDS: seq<real> := [ 1.0,  1.0, -1.0,   1.0, -1.0, -1.0,   1.0,  1.0,  1.0,   1.0, -1.0,  1.0]
  const BOTTOM_COORDS: seq<real> := [-1.0, -1.0,  1.0,  -1.0, -1.0, -1.0,   1.0, -1.0,  1.0,   1.0, -1.0, -1.0]
  const TOP_COORDS: seq<real> :=   [-1.0,  1.0,  1.0,  -1.0,  1.0, -1.0,   1.0,  1.0,  1.0,   1.0,  1.0, -1.0]
  /** The whole position table: the faces' tables, face after face. */
  function CubeCoords(): (coords: seq<real>)
    ensures |coords| == 3 * CUBE_NB_VERTICES
  {
    seq(72, k requires 0 <= k < 72 => FaceCoords(k / 12)[k % 12])
  }

  /** Two triangles per face, face by face. */
  const FRONT_INDICES: seq<u16> := [0, 1, 2,  2, 1, 3]
  const BACK_INDICES: seq<u16> := [6, 7, 4,  4, 7, 5]
  const LEFT_INDICES: seq<u16> := [10, 11, 8,  8, 11, 9]
  const RIGHT_INDICES: seq<u16> := [12, 13, 14,  14, 13, 15]
  const BOTTOM_INDICES: seq<u16> := [18, 19, 16,  16, 19, 17]
  const TOP_INDICES: seq<u16> := [20, 21, 22,  22, 21, 23]
  /** The whole index table: the faces' tables, face after face. */
  function CubeIndices(): (ind: seq<u16>)
    ensures |ind| == CUBE_NB_INDICES
  {
    seq(36, k requires 0 <= k < 36 => FaceIndices(k / 6)[k % 6])
  }

  /**
   * The plane face f lies in: coordinate `axis` (0: x, 1: y, 2: z) of each
   * of its vertices is `side`.
   */
  function FacePlane(f: nat): (r: (nat, real))
    requires f < 6
    ensures r.0 < 3 && (r.1 == 1.0 || r.1 == -1.0)
  {
    match f
    case 0 => (2, -1.0) // front
    case 1 => (2, 1.0)  // back
    case 2 => (0, -1.0) // left
    case 3 => (0, 1.0)  // right
    case 4 => (1, -1.0) // bottom
    case _ => (1, 1.0)  // top
  }

  /**
   * The positions of the four vertices of face f: each coordinate is -1 or
   * 1, and the face's own axis is fixed at the face's side, so the four
   * vertices lie in the plane of the face.
   */
  function FaceCoords(f: nat): (coords: seq<real>)
    requires f < 6
    ensures |coords| == 12
    ensures forall k :: 0 <= k < 12 ==> coords[k] == 1.0 || coords[k] == -1.0
    ensures forall j :: 0 <= j < 4 ==> coords[3 * j + FacePlane(f).0] == FacePlane(f).1
  {
    match f
    case 0 => FRONT_COORDS
    case 1 => BACK_COORDS
    case 2 => LEFT_COORDS
    case 3 => RIGHT_COORDS
    case 4 => BOTTOM_COORDS
    case _ => TOP_COORDS
  }

  /**
   * The six indices of face f: they name only the four vertices of face f
   * (4 f to 4 f + 3), and each of them at least once.
   */
  function FaceIndices(f: nat): (ind: seq<u16>)
    requires f < 6
    ensures |ind| == 6
    ensures forall i :: 0 <= i < 6 ==> 4 * f <= ind[i] as int < 4 * f + 4
  {
    match f
    case 0 => FRONT_INDICES
    case 1 => BACK_INDICES
    case 2 => LEFT_INDICES
    case 3 => RIGHT_INDICES
    case 4 => BOTTOM_INDICES
    case _ => TOP_INDICES
  }

  /** The values of a sequence of indices. */
  function Values(s: seq<u16>): set<int>
  {
    set i | 0 <= i < |s| :: s[i] as int
  }

  /**
   * The six indices of face f name each of the four vertices of face f,
   * and no other vertex.
   */
  lemma CubeFaceUsesItsVertices(f: nat)
    requires f < 6
    ensures Values(FaceIndices(f)) == {4 * f, 4 * f + 1, 4 * f + 2, 4 * f + 3}
  {
    var ind := FaceIndices(f);
    var (a, b, c, d) := if f == 0 || f == 3 || f == 5 then (0, 1, 2, 5) else (2, 5, 0, 1);
    assert ind[a] as int == 4 * f && ind[b] as int == 4 * f + 1;
    assert ind[c] as int == 4 * f + 2 && ind[d] as int == 4 * f + 3;
  }

  /** Every index of the cube names one of its 24 vertices. */
  lemma CubeIndicesInRange()
    ensures |CubeIndices()| == CUBE_NB_INDICES
    ensures forall k :: 0 <= k < CUBE_NB_INDICES ==> CubeIndices()[k] < CUBE_NB_VERTICES
  {
  }

  /** The atlas cell (column, row) of face f. */
  function FaceCell(f: nat): (cell: (nat, nat))
    requires f < 6
    ensures cell.0 < 3 && cell.1 < 2
  {
    match f
    case 0 => (1, 1) // front
    case 1 => (2, 1) // back
    case 2 => (1, 0) // left
    case 3 => (0, 0) // right
    case 4 => (0, 1) // bottom
    case _ => (2, 0) // top
  }

  /** The six faces use the six cells of the 3 x 2 atlas, one each. */
  lemma FaceCellsTileAtlas()
    ensures forall f, g :: 0 <= f < 6 && 0 <= g < 6 && f != g ==> FaceCell(f) != FaceCell(g)
    ensures forall cx, cy :: 0 <= cx < 3 && 0 <= cy < 2 ==> exists f :: 0 <= f < 6 && FaceCell(f) == (cx, cy)
  {
    forall cx, cy | 0 <= cx < 3 && 0 <= cy < 2
      ensures exists f :: 0 <= f < 6 && FaceCell(f) == (cx, cy)
    {
      var f := if cy == 1 then [4, 0, 1][cx] else [3, 2, 5][cx];
      assert FaceCell(f) == (cx, cy);
    }
  }

  /** The column boundary i (0 to 3) of the atlas of one plane: i thirds of the width. */
  function Col(left: real, width: real, i: nat): (x: real)
    ensures i <= 3 ==> x == left + width * (i as real) / 3.0
    ensures 0.0 <= width ==> left <= x <= left + width
  {
    if i == 0 then left
    else if i == 1 then left + width * 1.0 / 3.0
    else if i == 2 then left + width * 2.0 / 3.0
    else left + width
  }

  /** The row boundary i (0 to 2) of the atlas of one plane: i halves of the height. */
  function Row(top: real, height: real, i: nat): (y: real)
    ensures i <= 2 ==> y == top + height * (i as real) / 2.0
    ensures 0.0 <= height ==> top <= y <= top + height
  {
    if i == 0 then top
    else if i == 1 then top + height * 1.0 / 2.0
    else top + height
  }

  /**
   * One corner of cell (cx, cy), each side moved inwards by the padding:
   * the right side when highU, else the left, and the bottom when highV,
   * else the top.
   */
  function InsetCorner(left: real, top: real, width: real, height: real,
                       padW: real, padH: real, cell: (nat, nat), highU: bool, highV: bool): (real, real)
  {
    (if highU then Col(left, width, cell.0 + 1) - padW else Col(left, width, cell.0) + padW,
     if highV then Row(top, height, cell.1 + 1) - padH else Row(top, height, cell.1) + padH)
  }

  /** The four inset corners of cell (cx, cy). */
  function InsetCorners(left: real, top: real, width: real, height: real,
                        padW: real, padH: real, cell: (nat, nat)): set<(real, real)>
  {
    {InsetCorner(left, top, width, height, padW, padH, cell, false, false),
     InsetCorner(left, top, width, height, padW, padH, cell, false, true),
     InsetCorner(left, top, width, height, padW, padH, cell, true, false),
     InsetCorner(left, top, width, height, padW, padH, cell, true, true)}
  }

  /**
   * How face f is laid on its cell: position coordinate `u` of a vertex,
   * multiplied by uSign, is 1 at the cell's right side and -1 at its left;
   * likewise coordinate `v` with vSign, for bottom and top.
   */
  datatype FaceAxes = FaceAxes(u: nat, uSign: real, v: nat, vSign: real)

  function Axes(f: nat): (a: FaceAxes)
    requires f < 6
    ensures a.u < 3 && a.v < 3 && a.u != a.v && a.u != FacePlane(f).0 && a.v != FacePlane(f).0
    ensures (a.uSign == 1.0 || a.uSign == -1.0) && (a.vSign == 1.0 || a.vSign == -1.0)
  {
    match f
    case 0 => FaceAxes(0, 1.0, 1, -1.0)  // front: x rightwards, y upwards
    case 1 => FaceAxes(0, -1.0, 1, -1.0) // back: seen from inside, x leftwards
    case 2 => FaceAxes(2, -1.0, 1, -1.0) // left
    case 3 => FaceAxes(2, 1.0, 1, -1.0)  // right
    case 4 => FaceAxes(0, 1.0, 2, 1.0)   // bottom
    case _ => FaceAxes(0, 1.0, 2, -1.0)  // top
  }

  /**
   * The texture coordinates of one plane: for each face, the four corners
   * of its cell of the plane's rectangle (left, top)-(right, bottom),
   * padded inwards by padW and padH.
   */
  function CubeTexCoords(left: real, top: real, right: real, bottom: real,
                         padW: real, padH: real): (tex: seq<real>)
    ensures |tex| == CUBE_TEX_BLOCK
    ensures forall f :: 0 <= f < 6 ==> tex[8 * f .. 8 * f + 8] == FaceTex(left, top, right - left, bottom - top, padW, padH, f)
  {
    var width := right - left;
    var height := bottom - top;
    FaceTex(left, top, width, height, padW, padH, 0) + FaceTex(left, top, width, height, padW, padH, 1)
    + FaceTex(left, top, width, height, padW, padH, 2) + FaceTex(left, top, width, height, padW, padH, 3)
    + FaceTex(left, top, width, height, padW, padH, 4) + FaceTex(left, top, width, height, padW, padH, 5)
  }

  /** The eight texture coordinates of face f, u and v per vertex, as BuildCube lists them. */
  function FaceTex(left: real, top: real, width: real, height: real, padW: real, padH: real, f: nat)
    : (t: seq<real>)
    requires f < 6
    ensures |t| == 8
  {
    var col := [Col(left, width, 0), Col(left, width, 1), Col(left, width, 2), Col(left, width, 3)];
    var row := [Row(top, height, 0), Row(top, height, 1), Row(top, height, 2)];
    match f
    case 0 => // front
      [col[1] + padW, row[1] + padH,  col[1] + padW, row[2] - padH,
       col[2] - padW, row[1] + padH,  col[2] - padW, row[2] - padH]
    case 1 => // back
      [col[3] - padW, row[1] + padH,  col[3] - padW, row[2] - padH,
       col[2] + padW, row[1] + padH,  col[2] + padW, row[2] - padH]
    case 2 => // left
      [col[2] - padW, row[0] + padH,  col[2] - padW, row[1] - padH,
       col[1] + padW, row[0] + padH,  col[1] + padW, row[1] - padH]
    case 3 => // right
      [col[0] + padW, row[0] + padH,  col[0] + padW, row[1] - padH,
       col[1] - padW, row[0] + padH,  col[1] - padW, row[1] - padH]
    case 4 => // bottom
      [col[0] + padW, row[2] - padH,  col[0] + padW, row[1] + padH,
       col[1] - padW, row[2] - padH,  col[1] - padW, row[1] + padH]
    case _ => // top
      [col[2] + padW, row[0] + padH,  col[2] + padW, row[1] - padH,
       col[3] - padW, row[0] + padH,  col[3] - padW, row[1] - padH]
  }

  /** The four texture pairs of face f are the corners of its cell, padded inwards by padW and padH. */
  lemma FaceTexCorners(left: real, top: real, width: real, height: real, padW: real, padH: real, f: nat)
    requires f < 6
    ensures var t := FaceTex(left, top, width, height, padW, padH, f);
            {(t[0], t[1]), (t[2], t[3]), (t[4], t[5]), (t[6], t[7])}
            == InsetCorners(left, top, width, height, padW, padH, FaceCell(f))
  {
  }

  /**
   * Whether vertex j of face f lies on the high side (right, or bottom) of
   * its cell along the face's u axis, or along its v axis.
   */
  predicate HighU(f: nat, j: nat)
    requires f < 6 && j < 4
  {
    Axes(f).uSign * FaceCoords(f)[3 * j + Axes(f).u] > 0.0
  }

  predicate HighV(f: nat, j: nat)
    requires f < 6 && j < 4
  {
    Axes(f).vSign * FaceCoords(f)[3 * j + Axes(f).v] > 0.0
  }

  /**
   * Whether each vertex of face f samples the inset corner of the face's
   * cell that its position points to along the face's two in-plane axes.
   */
  predicate FaceOriented(left: real, top: real, right: real, bottom: real, padW: real, padH: real, f: nat)
    requires f < 6
  {
    var width, height := right - left, bottom - top;
    var t := FaceTex(left, top, width, height, padW, padH, f);
    forall j :: 0 <= j < 4 ==>
      (t[2 * j], t[2 * j + 1])
      == InsetCorner(left, top, width, height, padW, padH, FaceCell(f), HighU(f, j), HighV(f, j))
  }

  /**
   * Every face is drawn with one fixed orientation, neither mirrored nor
   * rotated within its cell: vertex j of face f samples the corner its
   * position points to. (CubeTexCoords places face f's table at 8 f.)
   */
  lemma CubeTexCoordsOriented(left: real, top: real, right: real, bottom: real,
                              padW: real, padH: real)
    ensures forall f :: 0 <= f < 6 ==> FaceOriented(left, top, right, bottom, padW, padH, f)
  {
    FrontOriented(left, top, right, bottom, padW, padH);
    BackOriented(left, top, right, bottom, padW, padH);
    LeftOriented(left, top, right, bottom, padW, padH);
    RightOriented(left, top, right, bottom, padW, padH);
    BottomOriented(left, top, right, bottom, padW, padH);
    TopOriented(left, top, right, bottom, padW, padH);
    forall f | 0 <= f < 6
      ensures FaceOriented(left, top, right, bottom, padW, padH, f)
    {
      assert f == 0 || f == 1 || f == 2 || f == 3 || f == 4 || f == 5;
    }
  }

  lemma FrontOriented(left: real, top: real, right: real, bottom: real, padW: real, padH: real)
    ensures FaceOriented(left, top, right, bottom, padW, padH, 0)
  {
  }

  lemma BackOriented(left: real, top: real, right: real, bottom: real, padW: real, padH: real)
    ensures FaceOriented(left, top, right, bottom, padW, padH, 1)
  {
  }

  lemma LeftOriented(left: real, top: real, right: real, bottom: real, padW: real, padH: real)
    ensures FaceOriented(left, top, right, bottom, padW, padH, 2)
  {
  }

  lemma RightOriented(left: real, top: real, right: real, bottom: real, padW: real, padH: real)
    ensures FaceOriented(left, top, right, bottom, padW, padH, 3)
  {
  }

  lemma BottomOriented(left: real, top: real, right: real, bottom: real, padW: real, padH: real)
    ensures FaceOriented(left, top, right, bottom, padW, padH, 4)
  {
  }

  lemma TopOriented(left: real, top: real, right: real, bottom: real, padW: real, padH: real)
    ensures FaceOriented(left, top, right, bottom, padW, padH, 5)
  {
  }

  /**
   * When the rectangle is not inverted and the padding is at most half a
   * cell, the padded corners of every cell stay inside the rectangle.
   */
  lemma InsetCornersInside(left: real, top: real, right: real, bottom: real,
                           padW: real, padH: real, cell: (nat, nat))
    requires left <= right && top <= bottom && cell.0 < 3 && cell.1 < 2
    requires 0.0 <= padW <= (right - left) / 6.0 && 0.0 <= padH <= (bottom - top) / 4.0
    ensures forall uv :: uv in InsetCorners(left, top, right - left, bottom - top, padW, padH, cell) ==>
              left <= uv.0 <= right && top <= uv.1 <= bottom
  {
  }

  /**
   * Under the same conditions every texture coordinate BuildCube computes
   * for a plane stays inside the plane's rectangle.
   */
  lemma CubeTexCoordsInsideRectangle(left: real, top: real, right: real, bottom: real,
                                     padW: real, padH: real)
    requires left <= right && top <= bottom
    requires 0.0 <= padW <= (right - left) / 6.0 && 0.0 <= padH <= (bottom - top) / 4.0
    ensures var tex := CubeTexCoords(left, top, right, bottom, padW, padH);
            forall j :: 0 <= j < CUBE_NB_VERTICES ==>
              left <= tex[2 * j] <= right && top <= tex[2 * j + 1] <= bottom
  {
    var tex := CubeTexCoords(left, top, right, bottom, padW, padH);
    forall j | 0 <= j < CUBE_NB_VERTICES
      ensures left <= tex[2 * j] <= right && top <= tex[2 * j + 1] <= bottom
    {
      CubeCornerInside(left, top, right, bottom, padW, padH, j / 4, j % 4);
    }
  }

  /** Corner c of face f: the step of CubeTexCoordsInsideRectangle for one vertex. */
  lemma CubeCornerInside(left: real, top: real, right: real, bottom: real,
                         padW: real, padH: real, f: nat, c: nat)
    requires left <= right && top <= bottom && f < 6 && c < 4
    requires 0.0 <= padW <= (right - left) / 6.0 && 0.0 <= padH <= (bottom - top) / 4.0
    ensures var tex := CubeTexCoords(left, top, right, bottom, padW, padH);
            left <= tex[8 * f + 2 * c] <= right && top <= tex[8 * f + 2 * c + 1] <= bottom
  {
    var tex := CubeTexCoords(left, top, right, bottom, padW, padH);
    var t := FaceTex(left, top, right - left, bottom - top, padW, padH, f);
    var corners := InsetCorners(left, top, right - left, bottom - top, padW, padH, FaceCell(f));
    FaceTexCorners(left, top, right - left, bottom - top, padW, padH, f);
    InsetCornersInside(left, top, right, bottom, padW, padH, FaceCell(f));
    PairIsCorner(t, corners, c);
    assert tex[8 * f .. 8 * f + 8] == t;
    assert tex[8 * f + 2 * c] == t[2 * c] && tex[8 * f + 2 * c + 1] == t[2 * c + 1];
  }

  /** Pair c of a table whose four pairs make up the set `corners` is one of them. */
  lemma PairIsCorner(t: seq<real>, corners: set<(real, real)>, c: nat)
    requires |t| == 8 && c < 4
    requires {(t[0], t[1]), (t[2], t[3]), (t[4], t[5]), (t[6], t[7])} == corners
    ensures (t[2 * c], t[2 * c + 1]) in corners
  {
    assert c == 0 || c == 1 || c == 2 || c == 3;
  }

  /** The mesh BuildCube returns for nbPlanes planes. */
  function CubeMesh(nbPlanes: nat, padW: real, padH: real,
                    left: seq<real>, top: seq<real>, right: seq<real>, bottom: seq<real>): (m: Mesh)
    requires nbPlanes <= |left| && nbPlanes <= |top| && nbPlanes <= |right| && nbPlanes <= |bottom|
    ensures WellFormed(m, nbPlanes)
    ensures m.nbVertices == CUBE_NB_VERTICES && m.nbIndices == CUBE_NB_INDICES
  {
    CubeIndicesInRange();
    Mesh(CubeCoords(), Flatten(CubePlaneBlocks(nbPlanes, padW, padH, left, top, right, bottom), CUBE_TEX_BLOCK),
         CUBE_NB_VERTICES, CubeIndices(), CUBE_NB_INDICES)
  }

  /** The texture coordinates of each plane, plane by plane. */
  function CubePlaneBlocks(nbPlanes: nat, padW: real, padH: real,
                           left: seq<real>, top: seq<real>, right: seq<real>, bottom: seq<real>)
    : (blocks: seq<seq<real>>)
    requires nbPlanes <= |left| && nbPlanes <= |top| && nbPlanes <= |right| && nbPlanes <= |bottom|
    ensures |blocks| == nbPlanes
    ensures forall p :: 0 <= p < nbPlanes ==>
              blocks[p] == CubeTexCoords(left[p], top[p], right[p], bottom[p], padW, padH)
  {
    seq(nbPlanes, p requires 0 <= p < nbPlanes =>
          CubeTexCoords(left[p], top[p], right[p], bottom[p], padW, padH))
  }

  /**
   * Entry c of plane p's block of the cube's texture buffer is entry c of
   * the plane's own table.
   */
  lemma CubeMeshPlane(nbPlanes: nat, padW: real, padH: real,
                      left: seq<real>, top: seq<real>, right: seq<real>, bottom: seq<real>, p: nat, c: nat)
    requires nbPlanes <= |left| && nbPlanes <= |top| && nbPlanes <= |right| && nbPlanes <= |bottom|
    requires p < nbPlanes && c < CUBE_TEX_BLOCK
    ensures p * CUBE_TEX_BLOCK + c < |CubeMesh(nbPlanes, padW, padH, left, top, right, bottom).textureCoord|
    ensures CubeMesh(nbPlanes, padW, padH, left, top, right, bottom).textureCoord[p * CUBE_TEX_BLOCK + c]
            == CubeTexCoords(left[p], top[p], right[p], bottom[p], padW, padH)[c]
  {
    MulMono(p + 1, nbPlanes, CUBE_TEX_BLOCK);
    DivInBlock(p * CUBE_TEX_BLOCK + c, p, CUBE_TEX_BLOCK);
  }

  /**
   * BuildCube: allocate the three buffers (a failed allocation returns
   * ENOMEM with no mesh), copy the fixed positions, one block of texture
   * coordinates per plane, and the fixed indices.
   */
  method BuildCube(nbPlanes: nat, padW: real, padH: real,
                   left: seq<real>, top: seq<real>, right: seq<real>, bottom: seq<real>,
                   alloc: Allocations)
    returns (r: Result<Mesh>)
    requires nbPlanes <= |left| && nbPlanes <= |top| && nbPlanes <= |right| && nbPlanes <= |bottom|
    ensures alloc.AllSucceed() ==> r == Ok(CubeMesh(nbPlanes, padW, padH, left, top, right, bottom))
    ensures !alloc.AllSucceed() ==> r == Err(ENoMem)
  {
    var nbVertices := 4 * 6;
    var nbIndices := 6 * 6;

    if !alloc.vertexCoord {
      return Err(ENoMem);
    }
    var vertexCoord := new real[nbVertices * 3];
    if !alloc.textureCoord {
      return Err(ENoMem);
    }
    var textureCoord := new real[nbPlanes * nbVertices * 2];
    if !alloc.indices {
      return Err(ENoMem);
    }
    var indices := new u16[nbIndices];

    CopyInto(vertexCoord, 0, CubeCoords());
    assert vertexCoord[..] == CubeCoords();

    ghost var blocks := CubePlaneBlocks(nbPlanes, padW, padH, left, top, right, bottom);
    for p := 0 to nbPlanes
      invariant vertexCoord[..] == CubeCoords()
      invariant BlocksCopied(textureCoord, blocks, CUBE_TEX_BLOCK, p)
    {
      var tex := CubeTexCoords(left[p], top[p], right[p], bottom[p], padW, padH);
      CopyBlock(textureCoord, blocks, nbVertices * 2, p, tex);
    }
    BlocksComplete(textureCoord, blocks, CUBE_TEX_BLOCK);

    CopyInto(indices, 0, CubeIndices());
    assert indices[..] == CubeIndices();
    return Ok(Mesh(vertexCoord[..], textureCoord[..], nbVertices, indices[..], nbIndices));
  }
}
