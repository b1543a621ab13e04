/**
 * The transform matrices of the renderer: the zoom translation, the
 * viewpoint matrices (projection, zoom, view) and the orientation table.
 * Matrices are in OpenGL's column-major layout: entry `col * 4 + row`,
 * so entries 12, 13 and 14 are the x, y and z translation.
 */
module Matrices {
  import opened Common

  /** A homogeneous vector as the vertex shader sees it. */
  datatype Vec4 = Vec4(x: real, y: real, z: real, w: real)

  /** `m * v` for a column-major matrix `m`. */
  function Transform(m: Mat4, v: Vec4): Vec4
  {
    Vec4(m[0] * v.x + m[4] * v.y + m[8]  * v.z + m[12] * v.w,
         m[1] * v.x + m[5] * v.y + m[9]  * v.z + m[13] * v.w,
         m[2] * v.x + m[6] * v.y + m[10] * v.z + m[14] * v.w,
         m[3] * v.x + m[7] * v.y + m[11] * v.z + m[15] * v.w)
  }

  /**
   * getZoomMatrix: the identity with `zoom` in entry 14, i.e. a pure
   * translation of every point along the view (z) axis by `zoom`.
   */
  function ZoomMatrix(zoom: real): (m: Mat4)
    ensures forall i :: 0 <= i < 16 && i != 14 ==> m[i] == IDENTITY[i]
    ensures m[14] == zoom
    ensures forall x, y, z :: Transform(m, Vec4(x, y, z, 1.0)) == Vec4(x, y, z + zoom, 1.0)
  {
    [1.0, 0.0, 0.0,  0.0,
     0.0, 1.0, 0.0,  0.0,
     0.0, 0.0, 1.0,  0.0,
     0.0, 0.0, zoom, 1.0]
  }

  /** video_projection_mode_t; other codes of the enumeration are kept as `OtherProjection`. */
  datatype ProjectionMode = Rectangular | Equirectangular | CubemapStandard | OtherProjection(code: int)

  /** The modes in which the renderer draws the inside of a sphere or a cube. */
  predicate IsSpherical(mode: ProjectionMode)
  {
    mode == Equirectangular || mode == CubemapStandard
  }

  /** The three matrices getViewpointMatrixes computes. */
  datatype ViewMatrices = ViewMatrices(projection: Mat4, zoom: Mat4, view: Mat4)

  /**
   * getViewpointMatrixes: in the spherical modes a perspective projection
   * from the aspect ratio and vertical field of view, a zoom translation by
   * `z` and the world transform of the (already reversed) viewpoint; in
   * every other mode all three are the identity, whatever the inputs.
   */
  function ViewpointMatrices(mode: ProjectionMode, sar: real, fovy: real, z: real,
                             vp: Viewpoint, ext: Externals): (r: ViewMatrices)
    ensures !IsSpherical(mode) ==>
              r.projection == IDENTITY && r.zoom == IDENTITY && r.view == IDENTITY
    ensures IsSpherical(mode) ==>
              && r.projection == ext.projection(sar, fovy)
              && r.view == ext.viewMatrix(vp)
              && (forall i :: 0 <= i < 16 && i != 14 ==> r.zoom[i] == IDENTITY[i])
              && r.zoom[14] == z
  {
    if IsSpherical(mode) then
      ViewMatrices(ext.projection(sar, fovy), ZoomMatrix(z), ext.viewMatrix(vp))
    else
      ViewMatrices(IDENTITY, IDENTITY, IDENTITY)
  }

  /** A zoom of 0 leaves the scene where it is. */
  lemma ZeroZoomIsIdentity()
    ensures ZoomMatrix(0.0) == IDENTITY
  {
  }

  /** video_orientation_t: the 8 orientations of a source picture. */
  datatype Orientation =
    | Normal
    | HFlipped
    | VFlipped
    | Rotated180
    | Transposed
    | Rotated270
    | Rotated90
    | AntiTransposed

  /**
   * A matrix that differs from the identity at most in its 2x2 linear part
   * (entries 0, 1, 4, 5), its z sign (entry 10) and its x/y translation
   * (entries 12, 13).
   */
  function PlanarMatrix(a: real, b: real, c: real, d: real, zSign: real, tx: real, ty: real): (m: Mat4)
    ensures m[0] == a && m[1] == b && m[4] == c && m[5] == d
    ensures m[10] == zSign && m[12] == tx && m[13] == ty
    ensures m[2] == 0.0 && m[3] == 0.0 && m[6] == 0.0 && m[7] == 0.0
    ensures m[8] == 0.0 && m[9] == 0.0 && m[11] == 0.0 && m[14] == 0.0
    ensures m[15] == 1.0
    ensures forall i :: 0 <= i < 16 ==>
              m[i] == a || m[i] == b || m[i] == c || m[i] == d || m[i] == zSign ||
              m[i] == tx || m[i] == ty || m[i] == 0.0 || m[i] == 1.0
  {
    [a,   b,   0.0, 0.0,
     c,   d,   0.0, 0.0,
     0.0, 0.0, zSign, 0.0,
     tx,  ty,  0.0, 1.0]
  }

  /**
   * The fixed orientation matrices, one per orientation, with exact
   * integer cosines and sines of the quarter turns. Only entries 0, 1, 4, 5
   * (the 2x2 linear part), 10 (z sign) and 12, 13 (the translation that
   * brings the unit square back onto itself) ever differ from the identity.
   */
  function OrientationTable(o: Orientation): (m: Mat4)
    ensures forall i :: 0 <= i < 16 ==> m[i] == -1.0 || m[i] == 0.0 || m[i] == 1.0
    ensures m[2] == 0.0 && m[3] == 0.0 && m[6] == 0.0 && m[7] == 0.0
    ensures m[8] == 0.0 && m[9] == 0.0 && m[11] == 0.0 && m[14] == 0.0
    ensures m[15] == 1.0
    ensures o == Normal <==> m == IDENTITY
  {
    var m := match o
      case Normal =>         PlanarMatrix( 1.0,  0.0,  0.0,  1.0,  1.0, 0.0, 0.0)
      case Rotated90 =>      PlanarMatrix( 0.0, -1.0,  1.0,  0.0,  1.0, 0.0, 1.0)
      case Rotated180 =>     PlanarMatrix(-1.0,  0.0,  0.0, -1.0,  1.0, 1.0, 1.0)
      case Rotated270 =>     PlanarMatrix( 0.0,  1.0, -1.0,  0.0,  1.0, 1.0, 0.0)
      case HFlipped =>       PlanarMatrix(-1.0,  0.0,  0.0,  1.0,  1.0, 1.0, 0.0)
      case VFlipped =>       PlanarMatrix( 1.0,  0.0,  0.0, -1.0,  1.0, 0.0, 1.0)
      case Transposed =>     PlanarMatrix( 0.0,  1.0,  1.0,  0.0, -1.0, 0.0, 0.0)
      case AntiTransposed => PlanarMatrix( 0.0, -1.0, -1.0,  0.0, -1.0, 1.0, 1.0);
    assert o == Normal ==> m == IDENTITY;
    m
  }

  /**
   * getOrientationTransformMatrix: start from the identity and overwrite the
   * entries of the orientation's case; any other value keeps the identity.
   * Each case of the switch is a helper below.
   */
  method GetOrientationTransformMatrix(orientation: Orientation, matrix: array<real>)
    requires matrix.Length == 16
    modifies matrix
    ensures matrix[..] == OrientationTable(orientation)
  {
    forall i | 0 <= i < 16 {
      matrix[i] := IDENTITY[i];
    }
    match orientation {
      case Rotated90 =>      Rotate90(matrix);
      case Rotated180 =>     Rotate180(matrix);
      case Rotated270 =>     Rotate270(matrix);
      case HFlipped =>       FlipHorizontally(matrix);
      case VFlipped =>       FlipVertically(matrix);
      case Transposed =>     Transpose(matrix);
      case AntiTransposed => AntiTranspose(matrix);
      case Normal =>
        SameEntries(matrix[..], OrientationTable(Normal));
    }
  }

  /** Two matrices that agree entry by entry are equal. */
  lemma SameEntries(m: seq<real>, n: Mat4)
    requires |m| == 16
    requires m[0] == n[0] && m[1] == n[1] && m[2] == n[2] && m[3] == n[3]
    requires m[4] == n[4] && m[5] == n[5] && m[6] == n[6] && m[7] == n[7]
    requires m[8] == n[8] && m[9] == n[9] && m[10] == n[10] && m[11] == n[11]
    requires m[12] == n[12] && m[13] == n[13] && m[14] == n[14] && m[15] == n[15]
    ensures m == n
  {
    forall i | 0 <= i < 16
      ensures m[i] == n[i]
    {
      assert i in {0, 1, 2, 3, 4, 5, 6, 7, 8, 9, 10, 11, 12, 13, 14, 15};
    }
  }

  /** The case of a quarter turn, with the exact cosine and sine of pi/2. */
  method Rotate90(matrix: array<real>)
    requires matrix.Length == 16 && matrix[..] == IDENTITY
    modifies matrix
    ensures matrix[..] == OrientationTable(Rotated90)
  {
    var kCosPi2 := 0;
    var kSinPi2 := 1;
    matrix[0 * 4 + 0] := kCosPi2 as real;
    matrix[0 * 4 + 1] := -kSinPi2 as real;
    matrix[1 * 4 + 0] := kSinPi2 as real;
    matrix[1 * 4 + 1] := kCosPi2 as real;
    matrix[3 * 4 + 1] := 1.0;
    SameEntries(matrix[..], OrientationTable(Rotated90));
  }

  /** The case of a half turn, with the exact cosine and sine of pi. */
  method Rotate180(matrix: array<real>)
    requires matrix.Length == 16 && matrix[..] == IDENTITY
    modifies matrix
    ensures matrix[..] == OrientationTable(Rotated180)
  {
    var kCosPi := -1;
    var kSinPi := 0;
    matrix[0 * 4 + 0] := kCosPi as real;
    matrix[0 * 4 + 1] := -kSinPi as real;
    matrix[1 * 4 + 0] := kSinPi as real;
    matrix[1 * 4 + 1] := kCosPi as real;
    matrix[3 * 4 + 0] := 1.0;
    matrix[3 * 4 + 1] := 1.0;
    SameEntries(matrix[..], OrientationTable(Rotated180));
  }

  /** The case of three quarter turns, with the exact cosine and sine of -pi/2. */
  method Rotate270(matrix: array<real>)
    requires matrix.Length == 16 && matrix[..] == IDENTITY
    modifies matrix
    ensures matrix[..] == OrientationTable(Rotated270)
  {
    var kCosNPi2 := 0;
    var kSinNPi2 := -1;
    matrix[0 * 4 + 0] := kCosNPi2 as real;
    matrix[0 * 4 + 1] := -kSinNPi2 as real;
    matrix[1 * 4 + 0] := kSinNPi2 as real;
    matrix[1 * 4 + 1] := kCosNPi2 as real;
    matrix[3 * 4 + 0] := 1.0;
    SameEntries(matrix[..], OrientationTable(Rotated270));
  }

  /** The case of the horizontal flip. */
  method FlipHorizontally(matrix: array<real>)
    requires matrix.Length == 16 && matrix[..] == IDENTITY
    modifies matrix
    ensures matrix[..] == OrientationTable(HFlipped)
  {
    matrix[0 * 4 + 0] := -1.0;
    matrix[3 * 4 + 0] := 1.0;
    SameEntries(matrix[..], OrientationTable(HFlipped));
  }

  /** The case of the vertical flip. */
  method FlipVertically(matrix: array<real>)
    requires matrix.Length == 16 && matrix[..] == IDENTITY
    modifies matrix
    ensures matrix[..] == OrientationTable(VFlipped)
  {
    matrix[1 * 4 + 1] := -1.0;
    matrix[3 * 4 + 1] := 1.0;
    SameEntries(matrix[..], OrientationTable(VFlipped));
  }

  /** The case of the transposition. */
  method Transpose(matrix: array<real>)
    requires matrix.Length == 16 && matrix[..] == IDENTITY
    modifies matrix
    ensures matrix[..] == OrientationTable(Transposed)
  {
    matrix[0 * 4 + 0] := 0.0;
    matrix[1 * 4 + 1] := 0.0;
    matrix[2 * 4 + 2] := -1.0;
    matrix[0 * 4 + 1] := 1.0;
    matrix[1 * 4 + 0] := 1.0;
    SameEntries(matrix[..], OrientationTable(Transposed));
  }

  /** The case of the anti-transposition. */
  method AntiTranspose(matrix: array<real>)
    requires matrix.Length == 16 && matrix[..] == IDENTITY
    modifies matrix
    ensures matrix[..] == OrientationTable(AntiTransposed)
  {
    matrix[0 * 4 + 0] := 0.0;
    matrix[1 * 4 + 1] := 0.0;
    matrix[2 * 4 + 2] := -1.0;
    matrix[0 * 4 + 1] := -1.0;
    matrix[1 * 4 + 0] := -1.0;
    matrix[3 * 4 + 0] := 1.0;
    matrix[3 * 4 + 1] := 1.0;
    SameEntries(matrix[..], OrientationTable(AntiTransposed));
  }

  /**
   * What each orientation does to a texture coordinate (u, v) of the unit
   * square, written geometrically: flips mirror one axis, the quarter turns
   * rotate the square about its centre, the transpositions swap the axes.
   */
  function Reorient(o: Orientation, u: real, v: real): (real, real)
  {
    match o
    case Normal =>         (u, v)
    case HFlipped =>       (1.0 - u, v)
    case VFlipped =>       (u, 1.0 - v)
    case Rotated180 =>     (1.0 - u, 1.0 - v)
    case Transposed =>     (v, u)
    case Rotated270 =>     (1.0 - v, u)
    case Rotated90 =>      (v, 1.0 - u)
    case AntiTransposed => (1.0 - v, 1.0 - u)
  }

  /**
   * Where the vertex shader sends texture coordinate (u, v): the product
   * `OrientationMatrix * vec4(u, v, 0, 1)`. It keeps z = 0 and w = 1 and
   * moves (u, v) exactly as `Reorient` says.
   */
  function OrientTexCoord(o: Orientation, u: real, v: real): (r: Vec4)
    ensures r == Vec4(Reorient(o, u, v).0, Reorient(o, u, v).1, 0.0, 1.0)
  {
    OrientationActsAsReorient(o, u, v);
    Transform(OrientationTable(o), Vec4(u, v, 0.0, 1.0))
  }

  /** The orientation matrix of each orientation, applied to (u, v, 0, 1), case by case. */
  lemma OrientationActsAsReorient(o: Orientation, u: real, v: real)
    ensures Transform(OrientationTable(o), Vec4(u, v, 0.0, 1.0))
            == Vec4(Reorient(o, u, v).0, Reorient(o, u, v).1, 0.0, 1.0)
  {
    match o {
      case Normal =>
      case HFlipped =>
      case VFlipped =>
      case Rotated180 =>
      case Transposed =>
      case Rotated270 =>
      case Rotated90 =>
      case AntiTransposed =>
    }
  }

  /** Every orientation maps the unit square of texture space into itself. */
  lemma OrientationKeepsUnitSquare(o: Orientation, u: real, v: real)
    requires 0.0 <= u <= 1.0 && 0.0 <= v <= 1.0
    ensures 0.0 <= OrientTexCoord(o, u, v).x <= 1.0 && 0.0 <= OrientTexCoord(o, u, v).y <= 1.0
  {
  }

  /**
   * The orientation that undoes `o`: the quarter turns undo each other,
   * every flip and transposition undoes itself.
   */
  function Inverse(o: Orientation): (inv: Orientation)
    ensures forall u, v :: Reorient(inv, Reorient(o, u, v).0, Reorient(o, u, v).1) == (u, v)
  {
    match o
    case Rotated90 => Rotated270
    case Rotated270 => Rotated90
    case _ => o
  }

  /** The four corners of the unit square in texture space. */
  const CORNERS: seq<(real, real)> := [(0.0, 0.0), (0.0, 1.0), (1.0, 0.0), (1.0, 1.0)]

  /**
   * The images of the four corners under an orientation: four distinct
   * corners again, so every orientation permutes the corners of the picture.
   */
  function CornerImages(o: Orientation): (images: seq<(real, real)>)
    ensures |images| == 4
    ensures forall i :: 0 <= i < 4 ==> images[i] in CORNERS
    ensures forall i, j :: 0 <= i < j < 4 ==> images[i] != images[j]
  {
    [Reorient(o, 0.0, 0.0), Reorient(o, 0.0, 1.0), Reorient(o, 1.0, 0.0), Reorient(o, 1.0, 1.0)]
  }
}
