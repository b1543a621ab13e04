/**
 * The OpenGL video renderer object (struct vlc_gl_renderer): its creation,
 * the viewpoint and window updates that drive the spherical projection,
 * and the per-frame Draw that rebuilds the mesh only when the visible
 * window of the source changed since the last successful rebuild.
 */
module Renderer {
  import opened Common
  import opened Matrices
  import opened Sampling
  import Sphere
  import Cube
  import Rectangle
  import Shader

  /** FIELD_OF_VIEW_DEGREES_MAX and _MIN: the range of horizontal fields of view accepted. */
  const FIELD_OF_VIEW_DEGREES_MAX: real := 150.0
  const FIELD_OF_VIEW_DEGREES_MIN: real := 20.0

  /** The field of view, in degrees, above which UpdateZ moves the camera back. */
  const Z_THRESH: real := 90.0

  /** The smallest change of the horizontal field of view, in radians, SetViewpoint acts on. */
  const FOV_EPSILON: real := 0.001

  const Z_THRESH_RAD: real := Z_THRESH * PI / 180.0
  const FOV_MAX_RAD: real := FIELD_OF_VIEW_DEGREES_MAX * PI / 180.0
  const FOV_MIN_RAD: real := FIELD_OF_VIEW_DEGREES_MIN * PI / 180.0

  function Abs(x: real): real
  {
    if x < 0.0 then -x else x
  }

  /** A field of view accepted in degrees is in the accepted range in radians. */
  lemma RadiansInRange(fov: real)
    requires FIELD_OF_VIEW_DEGREES_MIN <= fov <= FIELD_OF_VIEW_DEGREES_MAX
    ensures FOV_MIN_RAD <= fov * PI / 180.0 <= FOV_MAX_RAD
  {
  }

  /**
   * The camera distance along the view axis for a horizontal field of view
   * (radians), given the closest distance `zMin` that keeps the sphere
   * filling the window: none up to 90 degrees, then moving back linearly
   * so as to reach `zMin` at the widest field of view, and never past it.
   */
  function ZoomDistance(fovx: real, zMin: real): (z: real)
    ensures fovx <= Z_THRESH_RAD ==> z == 0.0
    ensures fovx > Z_THRESH_RAD ==> z >= zMin
  {
    if fovx <= Z_THRESH_RAD then 0.0
    else
      var interpolated := zMin * (fovx - Z_THRESH_RAD) / (FOV_MAX_RAD - Z_THRESH_RAD);
      if interpolated < zMin then zMin else interpolated
  }

  /**
   * Within the accepted fields of view, the camera never moves in front
   * of the sphere's centre nor behind `zMin` (which is never positive),
   * and it reaches `zMin` exactly at the widest field of view.
   */
  lemma ZoomDistanceBounds(fovx: real, zMin: real)
    requires zMin <= 0.0 && fovx <= FOV_MAX_RAD
    ensures zMin <= ZoomDistance(fovx, zMin) <= 0.0
    ensures fovx == FOV_MAX_RAD ==> ZoomDistance(fovx, zMin) == zMin
  {
    if fovx > Z_THRESH_RAD {
      var t := (fovx - Z_THRESH_RAD) / (FOV_MAX_RAD - Z_THRESH_RAD);
      assert 0.0 < t <= 1.0;
      assert zMin * (fovx - Z_THRESH_RAD) / (FOV_MAX_RAD - Z_THRESH_RAD) == zMin * t;
      assert zMin <= zMin * t <= 0.0 by {
        assert zMin * t - zMin == zMin * (t - 1.0);
      }
    }
  }

  /** A wider field of view never brings the camera closer: the distance falls as fovx grows. */
  lemma ZoomDistanceMonotone(fovx1: real, fovx2: real, zMin: real)
    requires zMin <= 0.0 && fovx1 <= fovx2
    ensures ZoomDistance(fovx2, zMin) <= ZoomDistance(fovx1, zMin)
  {
    var range := FOV_MAX_RAD - Z_THRESH_RAD;
    if fovx2 > Z_THRESH_RAD {
      var a := zMin * (fovx2 - Z_THRESH_RAD) / range;
      assert a <= 0.0 by {
        assert a == zMin * ((fovx2 - Z_THRESH_RAD) / range);
      }
      if fovx1 > Z_THRESH_RAD {
        var b := zMin * (fovx1 - Z_THRESH_RAD) / range;
        assert a - b == zMin * ((fovx2 - fovx1) / range);
        assert a <= b;
      }
    }
  }


  /**
   * Whether Draw rebuilds the mesh: the snapshot of the last source
   * differs in the offset or the visible size, i.e. in any field.
   */
  predicate NeedsRebuild(last: SourceWindow, source: SourceWindow): (b: bool)
    ensures b <==> last != source
  {
    || source.xOffset != last.xOffset
    || source.yOffset != last.yOffset
    || source.visibleWidth != last.visibleWidth
    || source.visibleHeight != last.visibleHeight
  }

  /** The snapshot of a freshly allocated (zero-filled) renderer. */
  const ZERO_WINDOW: SourceWindow := SourceWindow(0, 0, 0, 0)

  /**
   * The mesh SetupCoords builds for a projection mode when every
   * allocation succeeds, or None for a mode it does not handle.
   */
  function MeshFor(mode: ProjectionMode, nbPlanes: nat, padW: real, padH: real,
                   left: seq<real>, top: seq<real>, right: seq<real>, bottom: seq<real>, ext: Externals)
    : (m: Option<Mesh>)
    requires nbPlanes <= |left| && nbPlanes <= |top| && nbPlanes <= |right| && nbPlanes <= |bottom|
    ensures m.Some? <==> !mode.OtherProjection?
    ensures m.Some? ==> WellFormed(m.value, nbPlanes)
  {
    match mode
    case Rectangular => Some(Rectangle.RectMesh(nbPlanes, left, top, right, bottom))
    case Equirectangular => Some(Sphere.SphereMesh(nbPlanes, left, top, right, bottom, ext))
    case CubemapStandard => Some(Cube.CubeMesh(nbPlanes, padW, padH, left, top, right, bottom))
    case OtherProjection(_) => None
  }

  /**
   * The dispatch of SetupCoords on the projection mode: the rectangle, the
   * sphere or the cube builder, and EGENERIC for any other mode.
   */
  method BuildMesh(mode: ProjectionMode, nbPlanes: nat, padW: real, padH: real,
                   left: seq<real>, top: seq<real>, right: seq<real>, bottom: seq<real>,
                   ext: Externals, alloc: Allocations)
    returns (r: Result<Mesh>)
    requires nbPlanes <= |left| && nbPlanes <= |top| && nbPlanes <= |right| && nbPlanes <= |bottom|
    ensures var m := MeshFor(mode, nbPlanes, padW, padH, left, top, right, bottom, ext);
            && (m.None? ==> r == Err(EGeneric))
            && (m.Some? && !alloc.AllSucceed() ==> r == Err(ENoMem))
            && (m.Some? && alloc.AllSucceed() ==> r == Ok(m.value))
  {
    match mode {
      case Rectangular =>
        r := Rectangle.BuildRectangle(nbPlanes, left, top, right, bottom, alloc);
      case Equirectangular =>
        r := Sphere.BuildSphere(nbPlanes, left, top, right, bottom, ext, alloc);
      case CubemapStandard =>
        r := Cube.BuildCube(nbPlanes, padW, padH, left, top, right, bottom, alloc);
      case OtherProjection(_) =>
        r := Err(EGeneric);
    }
  }

  lemma SliceFits(j: nat, nbPlanes: nat, nbVertices: nat)
    requires j < nbPlanes
    ensures j * (2 * nbVertices) + 2 * nbVertices <= 2 * nbVertices * nbPlanes
  {
    var size := 2 * nbVertices;
    assert (j + 1) * size == j * size + size;
    assert (j + 1) * size <= nbPlanes * size;
  }

  /** The part of a mesh's texture coordinates that plane j's buffer receives. */
  function PlaneSlice(m: Mesh, nbPlanes: nat, j: nat): (slice: seq<real>)
    requires WellFormed(m, nbPlanes) && j < nbPlanes
    ensures |slice| == 2 * m.nbVertices
  {
    SliceFits(j, nbPlanes, m.nbVertices);
    m.textureCoord[j * (2 * m.nbVertices) .. j * (2 * m.nbVertices) + 2 * m.nbVertices]
  }

  /** In rectangle mode, plane j's buffer receives exactly plane j's four corners. */
  lemma RectanglePlaneSlice(nbPlanes: nat, left: seq<real>, top: seq<real>, right: seq<real>, bottom: seq<real>,
                            j: nat)
    requires nbPlanes <= |left| && nbPlanes <= |top| && nbPlanes <= |right| && nbPlanes <= |bottom|
    requires j < nbPlanes
    ensures PlaneSlice(Rectangle.RectMesh(nbPlanes, left, top, right, bottom), nbPlanes, j)
            == Rectangle.RectTexCoords(left[j], top[j], right[j], bottom[j])
  {
    FlattenBlock(Rectangle.RectPlaneBlocks(nbPlanes, left, top, right, bottom), Rectangle.RECT_TEX_BLOCK, j);
  }

  /** In cubemap mode, plane j's buffer receives exactly plane j's six faces. */
  lemma CubePlaneSlice(nbPlanes: nat, padW: real, padH: real,
                       left: seq<real>, top: seq<real>, right: seq<real>, bottom: seq<real>, j: nat)
    requires nbPlanes <= |left| && nbPlanes <= |top| && nbPlanes <= |right| && nbPlanes <= |bottom|
    requires j < nbPlanes
    ensures PlaneSlice(Cube.CubeMesh(nbPlanes, padW, padH, left, top, right, bottom), nbPlanes, j)
            == Cube.CubeTexCoords(left[j], top[j], right[j], bottom[j], padW, padH)
  {
    FlattenBlock(Cube.CubePlaneBlocks(nbPlanes, padW, padH, left, top, right, bottom), Cube.CUBE_TEX_BLOCK, j);
  }

  /** The parts of the interop's video_format_t the renderer uses. */
  datatype VideoFormat = VideoFormat(
    projectionMode: ProjectionMode,
    multiviewMode: MultiviewMode,
    orientation: Orientation,
    width: u32,
    height: u32,
    visibleWidth: u32,
    visibleHeight: u32,
    cubemapPadding: u32
  )

  /**
   * What the interop provides: its format, its texture planes with their
   * sizes relative to the picture, and whether it generates the textures
   * itself (handle_texs_gen).
   */
  datatype Interop = Interop(fmt: VideoFormat, texCount: nat, texW: seq<Ratio>, texH: seq<Ratio>,
                             handlesTextureGeneration: bool)

  /**
   * The interops the renderer accepts: one to three planes (one attribute
   * slot each), a non-zero denominator per plane size, and a non-empty
   * picture for the cubemap layout, whose padding is divided by its size.
   */
  predicate InteropValid(interop: Interop)
  {
    && 0 < interop.texCount <= 3
    && |interop.texW| == interop.texCount && |interop.texH| == interop.texCount
    && (forall j :: 0 <= j < interop.texCount ==> interop.texW[j].den > 0 && interop.texH[j].den > 0)
    && (interop.fmt.projectionMode == CubemapStandard ==> interop.fmt.width > 0 && interop.fmt.height > 0)
  }

  /**
   * One glDrawElements call: the vertex attributes enabled before it
   * (coordAttributes[j] fed from plane j's texture buffer, positionAttribute
   * from the vertex buffer), the index count, and the matrices uploaded as
   * uniforms.
   */
  datatype DrawCall = DrawCall(coordAttributes: seq<int>, positionAttribute: int,
                               nbIndices: nat, transform: Mat4, orientation: Mat4,
                               projection: Mat4, view: Mat4, zoom: Mat4)

  /** Unsigned integer division rounds down: n / d is the largest q with q * d <= n. */
  lemma FloorQuotient(n: nat, d: nat)
    requires d > 0
    ensures (n / d) * d <= n < (n / d) * d + d
  {
    var q, r := n / d, n % d;
    assert n == q * d + r;
  }

  /** The quotient of unsigned integer division: the largest q with q * d <= n. */
  function Quotient(n: nat, d: nat): (q: nat)
    requires d > 0
    ensures q * d <= n < q * d + d
  {
    FloorQuotient(n, d);
    n / d
  }

  /**
   * The size of one texture plane: the visible size scaled by num / den in
   * unsigned 32-bit arithmetic (the product wraps, the quotient rounds
   * down), then rounded by vlc_align_pot when the driver lacks
   * non-power-of-two textures. Without wrap-around and with
   * non-power-of-two support it is the floor of visible * num / den.
   */
  function TextureSize(visible: u32, ratio: Ratio, supportsNpot: bool, ext: Externals): (size: nat)
    requires ratio.den > 0
    ensures supportsNpot ==>
              size * ratio.den <= MulU32(visible, ratio.num) < size * ratio.den + ratio.den
    ensures supportsNpot && visible * ratio.num < U32_MODULUS ==>
              size * ratio.den <= visible * ratio.num < size * ratio.den + ratio.den
    ensures !supportsNpot ==> size == ext.alignPot(Quotient(MulU32(visible, ratio.num), ratio.den))
  {
    var q := Quotient(MulU32(visible, ratio.num), ratio.den);
    if supportsNpot then q else ext.alignPot(q)
  }

  /**
   * The body of Draw's plane loop: the window's offsets and (wrapping)
   * ends times the plane's scale, num / den / texture size.
   */
  method ScaledEdges(source: SourceWindow, w: Ratio, h: Ratio, texWidth: nat, texHeight: nat)
    returns (left: real, top: real, right: real, bottom: real)
    requires w.den > 0 && h.den > 0 && texWidth > 0 && texHeight > 0
    ensures Rect(left, top, right, bottom) == SamplingRect(source, w, h, texWidth, texHeight)
  {
    var scaleW := Scale(w, texWidth);
    var scaleH := Scale(h, texHeight);
    left := source.xOffset as real * scaleW;
    top := source.yOffset as real * scaleH;
    right := AddU32(source.xOffset, source.visibleWidth) as real * scaleW;
    bottom := AddU32(source.yOffset, source.visibleHeight) as real * scaleH;
    SamplingRectEdges(source, w, h, texWidth, texHeight);
  }

  class GlRenderer {
    // Fixed at creation: the interop's format and planes, the texture
    // sizes, the orientation matrix and the linked program's locations.
    const projectionMode: ProjectionMode
    const multiviewMode: MultiviewMode
    const width: u32
    const height: u32
    const cubemapPadding: u32
    const texCount: nat
    const texW: seq<Ratio>
    const texH: seq<Ratio>
    const texWidth: seq<nat>
    const texHeight: seq<nat>
    const orientationMatrix: Mat4
    const aloc: Shader.Locations
    const ext: Externals

    // The viewpoint state.
    var fovx: real
    var fovy: real
    var z: real
    var sar: real
    var vp: Viewpoint
    var projectionMatrix: Mat4
    var zoomMatrix: Mat4
    var viewMatrix: Mat4

    // The mesh state: the last source window built for and the GL buffers.
    var lastSource: SourceWindow
    var nbIndices: nat
    var vertexBuffer: seq<real>
    var textureBuffers: seq<seq<real>>
    var indexBuffer: seq<u16>

    /** The draw calls issued so far. */
    var draws: seq<DrawCall>

    /** What creation fixed: one size and one bound attribute per plane. */
    ghost predicate Config()
    {
      && 0 < texCount <= 3
      && |texW| == texCount && |texH| == texCount
      && |texWidth| == texCount && |texHeight| == texCount
      && (forall j :: 0 <= j < texCount ==> texW[j].den > 0 && texH[j].den > 0)
      && (projectionMode == CubemapStandard ==> width > 0 && height > 0)
      && |aloc.multiTexCoord| == 3
      && (forall j :: 0 <= j < texCount ==> aloc.multiTexCoord[j] != -1)
    }

    /**
     * The viewpoint state is consistent: the field of view is unset or in
     * the accepted range, the camera distance is the one for the fields of
     * view, and the matrices are those of the current viewpoint.
     */
    ghost predicate ViewValid()
      reads this`fovx, this`fovy, this`z, this`sar, this`vp,
            this`projectionMatrix, this`zoomMatrix, this`viewMatrix
    {
      && (fovx == 0.0 || FOV_MIN_RAD <= fovx <= FOV_MAX_RAD)
      && z == ZoomDistance(fovx, ext.zMin(fovx, fovy))
      && ViewMatrices(projectionMatrix, zoomMatrix, viewMatrix)
         == ViewpointMatrices(projectionMode, sar, fovy, z, vp, ext)
    }

    /** The uploaded buffers hold one mesh: one texture buffer per plane, every index naming a vertex. */
    ghost predicate BuffersValid()
      reads this`vertexBuffer, this`textureBuffers, this`indexBuffer, this`nbIndices
    {
      && |textureBuffers| == texCount
      && |vertexBuffer| % 3 == 0
      && |indexBuffer| == nbIndices
      && (forall j :: 0 <= j < |textureBuffers| ==> |textureBuffers[j]| == 2 * (|vertexBuffer| / 3))
      && (forall k :: 0 <= k < |indexBuffer| ==> 3 * indexBuffer[k] < |vertexBuffer|)
    }

    ghost predicate Valid()
      reads this
    {
      Config() && ViewValid() && BuffersValid()
    }

    /** Every plane has a non-empty texture, so Draw's scales are finite. */
    predicate SizesPositive()
    {
      |texWidth| == texCount && |texHeight| == texCount
      && forall j :: 0 <= j < texCount ==> texWidth[j] > 0 && texHeight[j] > 0
    }

    /** The rectangle Draw samples plane j from for a source window, after the stereo crop. */
    function PlaneRect(source: SourceWindow, j: nat): Rect
      requires Config() && SizesPositive() && j < texCount
    {
      StereoCrop(multiviewMode, SamplingRect(source, texW[j], texH[j], texWidth[j], texHeight[j]))
    }

    /** The four edge arrays Draw hands to SetupCoords, one entry per plane. */
    function Edges(source: SourceWindow): (e: (seq<real>, seq<real>, seq<real>, seq<real>))
      requires Config() && SizesPositive()
      ensures |e.0| == texCount && |e.1| == texCount && |e.2| == texCount && |e.3| == texCount
      ensures forall j :: 0 <= j < texCount ==> RectAt(e.0, e.1, e.2, e.3, j) == PlaneRect(source, j)
    {
      (seq(texCount, j requires 0 <= j < texCount => PlaneRect(source, j).left),
       seq(texCount, j requires 0 <= j < texCount => PlaneRect(source, j).top),
       seq(texCount, j requires 0 <= j < texCount => PlaneRect(source, j).right),
       seq(texCount, j requires 0 <= j < texCount => PlaneRect(source, j).bottom))
    }

    /** The cubemap padding as a fraction of the picture width and height (unused in other modes). */
    function PaddingW(): (p: real)
      ensures p >= 0.0
      ensures width > 0 ==> p * width as real == cubemapPadding as real
    {
      if width == 0 then 0.0 else cubemapPadding as real / width as real
    }

    function PaddingH(): (p: real)
      ensures p >= 0.0
      ensures height > 0 ==> p * height as real == cubemapPadding as real
    {
      if height == 0 then 0.0 else cubemapPadding as real / height as real
    }

    /** The mesh a rebuild for `source` builds, or None when the projection is not handled. */
    function SourceMesh(source: SourceWindow): Option<Mesh>
      requires Config() && SizesPositive()
    {
      var e := Edges(source);
      MeshFor(projectionMode, texCount, PaddingW(), PaddingH(), e.0, e.1, e.2, e.3, ext)
    }

    /** The buffers hold mesh m, plane j's texture buffer holding plane j's coordinates. */
    ghost predicate Uploaded(m: Mesh)
      reads this`vertexBuffer, this`textureBuffers, this`indexBuffer, this`nbIndices
      requires WellFormed(m, texCount)
    {
      && vertexBuffer == m.vertexCoord
      && indexBuffer == m.indices
      && nbIndices == m.nbIndices
      && |textureBuffers| == texCount
      && (forall j :: 0 <= j < texCount ==> textureBuffers[j] == PlaneSlice(m, texCount, j))
    }

    /**
     * The state vlc_gl_renderer_New leaves: zero-filled by calloc (so the
     * last source snapshot is all zero, no indices, no field of view and
     * no aspect ratio), with the interop's format and planes, and the
     * viewpoint matrices of that zero state.
     */
    constructor (interop: Interop, locations: Shader.Locations, orientation: Mat4,
                 widths: seq<nat>, heights: seq<nat>, ext: Externals)
      requires InteropValid(interop)
      requires |widths| == interop.texCount && |heights| == interop.texCount
      requires |locations.multiTexCoord| == 3
      requires forall j :: 0 <= j < interop.texCount ==> locations.multiTexCoord[j] != -1
      ensures Valid()
      ensures lastSource == ZERO_WINDOW && nbIndices == 0 && draws == []
      ensures fovx == 0.0 && fovy == 0.0 && z == 0.0 && sar == 0.0 && vp == Viewpoint(0.0, 0.0, 0.0, 0.0)
      ensures projectionMode == interop.fmt.projectionMode && multiviewMode == interop.fmt.multiviewMode
      ensures texCount == interop.texCount && texW == interop.texW && texH == interop.texH
      ensures texWidth == widths && texHeight == heights
      ensures orientationMatrix == orientation && aloc == locations && this.ext == ext
      ensures width == interop.fmt.width && height == interop.fmt.height
      ensures cubemapPadding == interop.fmt.cubemapPadding
    {
      projectionMode := interop.fmt.projectionMode;
      multiviewMode := interop.fmt.multiviewMode;
      width := interop.fmt.width;
      height := interop.fmt.height;
      cubemapPadding := interop.fmt.cubemapPadding;
      texCount := interop.texCount;
      texW := interop.texW;
      texH := interop.texH;
      texWidth := widths;
      texHeight := heights;
      orientationMatrix := orientation;
      aloc := locations;
      this.ext := ext;
      fovx, fovy, z, sar := 0.0, 0.0, 0.0, 0.0;
      vp := Viewpoint(0.0, 0.0, 0.0, 0.0);
      lastSource := ZERO_WINDOW;
      nbIndices := 0;
      vertexBuffer := [];
      textureBuffers := seq(interop.texCount, _ => []);
      indexBuffer := [];
      draws := [];
      projectionMatrix, zoomMatrix, viewMatrix := IDENTITY, IDENTITY, IDENTITY;
      new;
      GetViewpointMatrixes();
    }

    /**
     * vlc_gl_renderer_New: link the program (a failure gives no renderer),
     * fill the orientation matrix from the interop's orientation, size each
     * texture plane, and let the interop generate the textures unless it
     * handles that itself (a failure gives no renderer).
     */
    static method New(interop: Interop, steps: Shader.LinkSteps,
                      uniformLocation: string -> int, attribLocation: string -> int,
                      supportsNpot: bool, texturesGenerated: bool, ext: Externals)
      returns (r: Option<GlRenderer>)
      requires InteropValid(interop)
      ensures r.Some? <==>
                && Shader.LinkSucceeds(interop.texCount, steps, uniformLocation, attribLocation)
                && (interop.handlesTextureGeneration || texturesGenerated)
      ensures r.Some? ==>
                var rd := r.value;
                && fresh(rd) && rd.Valid()
                && rd.lastSource == ZERO_WINDOW && rd.nbIndices == 0 && rd.draws == []
                && rd.fovx == 0.0 && rd.fovy == 0.0 && rd.z == 0.0 && rd.sar == 0.0
                && rd.vp == Viewpoint(0.0, 0.0, 0.0, 0.0)
                && rd.projectionMode == interop.fmt.projectionMode
                && rd.multiviewMode == interop.fmt.multiviewMode
                && rd.width == interop.fmt.width && rd.height == interop.fmt.height
                && rd.cubemapPadding == interop.fmt.cubemapPadding
                && rd.orientationMatrix == OrientationTable(interop.fmt.orientation)
                && rd.texCount == interop.texCount && rd.texW == interop.texW && rd.texH == interop.texH
                && Shader.LocatedBy(rd.aloc, interop.texCount, uniformLocation, attribLocation)
                && rd.ext == ext
                && |rd.texWidth| == interop.texCount && |rd.texHeight| == interop.texCount
                && (forall j :: 0 <= j < interop.texCount ==>
                      && rd.texWidth[j] == TextureSize(interop.fmt.visibleWidth, interop.texW[j], supportsNpot, ext)
                      && rd.texHeight[j] == TextureSize(interop.fmt.visibleHeight, interop.texH[j], supportsNpot, ext))
    {
      var linked := Shader.LinkProgram(interop.texCount, steps, uniformLocation, attribLocation);
      if linked.Err? {
        return None;
      }
      var orientation := new real[16];
      GetOrientationTransformMatrix(interop.fmt.orientation, orientation);

      var widths, heights := TextureSizes(interop, supportsNpot, ext);

      if !interop.handlesTextureGeneration && !texturesGenerated {
        return None;
      }
      var rd := new GlRenderer(interop, linked.value, orientation[..], widths, heights, ext);
      return Some(rd);
    }

    /** The texture-size loop of vlc_gl_renderer_New: one width and one height per plane. */
    static method TextureSizes(interop: Interop, supportsNpot: bool, ext: Externals)
      returns (widths: seq<nat>, heights: seq<nat>)
      requires InteropValid(interop)
      ensures |widths| == interop.texCount && |heights| == interop.texCount
      ensures forall j :: 0 <= j < interop.texCount ==>
                && widths[j] == TextureSize(interop.fmt.visibleWidth, interop.texW[j], supportsNpot, ext)
                && heights[j] == TextureSize(interop.fmt.visibleHeight, interop.texH[j], supportsNpot, ext)
    {
      widths, heights := [], [];
      for j := 0 to interop.texCount
        invariant |widths| == j && |heights| == j
        invariant forall k :: 0 <= k < j ==>
                    && widths[k] == TextureSize(interop.fmt.visibleWidth, interop.texW[k], supportsNpot, ext)
                    && heights[k] == TextureSize(interop.fmt.visibleHeight, interop.texH[k], supportsNpot, ext)
      {
        var w := Quotient(MulU32(interop.fmt.visibleWidth, interop.texW[j].num), interop.texW[j].den);
        var h := Quotient(MulU32(interop.fmt.visibleHeight, interop.texH[j].num), interop.texH[j].den);
        if supportsNpot {
          widths, heights := widths + [w], heights + [h];
        } else {
          widths, heights := widths + [ext.alignPot(w)], heights + [ext.alignPot(h)];
        }
      }
    }

    /** getViewpointMatrixes: recompute the three matrices from the viewpoint state. */
    method GetViewpointMatrixes()
      modifies this`projectionMatrix, this`zoomMatrix, this`viewMatrix
      ensures ViewMatrices(projectionMatrix, zoomMatrix, viewMatrix)
              == ViewpointMatrices(projectionMode, sar, fovy, z, vp, ext)
    {
      if projectionMode == Equirectangular || projectionMode == CubemapStandard {
        projectionMatrix := ext.projection(sar, fovy);
        zoomMatrix := ZoomMatrix(z);
        viewMatrix := ext.viewMatrix(vp);
      } else {
        projectionMatrix := IDENTITY;
        zoomMatrix := IDENTITY;
        viewMatrix := IDENTITY;
      }
    }

    /** UpdateZ: place the camera for the current fields of view. */
    method UpdateZ()
      modifies this`z
      ensures z == ZoomDistance(fovx, ext.zMin(fovx, fovy))
    {
      var zMin := ext.zMin(fovx, fovy);
      if fovx <= Z_THRESH * PI / 180.0 {
        z := 0.0;
      } else {
        var f := zMin / ((FIELD_OF_VIEW_DEGREES_MAX - Z_THRESH) * PI / 180.0);
        z := f * fovx - f * Z_THRESH * PI / 180.0;
        assert z == zMin * (fovx - Z_THRESH_RAD) / (FOV_MAX_RAD - Z_THRESH_RAD) by {
          assert f * fovx - f * Z_THRESH * PI / 180.0 == f * (fovx - Z_THRESH_RAD);
        }
        if z < zMin {
          z := zMin;
        }
      }
    }

    /** UpdateFOVy: the vertical field of view for the horizontal one and the aspect ratio. */
    method UpdateFovY()
      modifies this`fovy
      ensures fovy == ext.fovY(fovx, sar)
    {
      fovy := ext.fovY(fovx, sar);
    }

    /**
     * vlc_gl_renderer_SetViewpoint: reject a field of view outside
     * [20, 150] degrees with EBADVAR, changing nothing; otherwise take the
     * (reversed) viewpoint, and take the new field of view only when it
     * differs from the current one by at least 0.001 radian.
     */
    method SetViewpoint(p: Viewpoint) returns (status: Status)
      requires Valid()
      modifies this`vp, this`fovx, this`fovy, this`z, this`projectionMatrix, this`zoomMatrix, this`viewMatrix
      ensures Valid()
      ensures status == EBadVar <==> p.fov > FIELD_OF_VIEW_DEGREES_MAX || p.fov < FIELD_OF_VIEW_DEGREES_MIN
      ensures status == Success || status == EBadVar
      ensures status == EBadVar ==> unchanged(this)
      ensures status == Success ==>
                && vp == ext.reverse(p)
                && (if Abs(p.fov * PI / 180.0 - old(fovx)) >= FOV_EPSILON
                    then fovx == p.fov * PI / 180.0 && fovy == ext.fovY(fovx, sar)
                    else fovx == old(fovx) && fovy == old(fovy) && z == old(z))
      ensures status == Success ==> Abs(fovx - p.fov * PI / 180.0) < FOV_EPSILON
    {
      if p.fov > FIELD_OF_VIEW_DEGREES_MAX || p.fov < FIELD_OF_VIEW_DEGREES_MIN {
        return EBadVar;
      }
      TakeViewpoint(p);
      return Success;
    }

    /** The accepted path of SetViewpoint, for a field of view in range. */
    method TakeViewpoint(p: Viewpoint)
      requires ViewValid()
      requires FIELD_OF_VIEW_DEGREES_MIN <= p.fov <= FIELD_OF_VIEW_DEGREES_MAX
      modifies this`vp, this`fovx, this`fovy, this`z, this`projectionMatrix, this`zoomMatrix, this`viewMatrix
      ensures ViewValid()
      ensures vp == ext.reverse(p)
      ensures if Abs(p.fov * PI / 180.0 - old(fovx)) >= FOV_EPSILON
              then fovx == p.fov * PI / 180.0 && fovy == ext.fovY(fovx, sar)
              else fovx == old(fovx) && fovy == old(fovy) && z == old(z)
      ensures Abs(fovx - p.fov * PI / 180.0) < FOV_EPSILON
    {
      var newFovx := p.fov * PI / 180.0;
      RadiansInRange(p.fov);
      vp := ext.reverse(p);
      if Abs(newFovx - fovx) >= FOV_EPSILON {
        fovx := newFovx;
        UpdateFovY();
        UpdateZ();
      }
      GetViewpointMatrixes();
    }

    /**
     * vlc_gl_renderer_SetWindowAspectRatio: take the new aspect ratio and
     * recompute the vertical field of view, the zoom and the matrices.
     */
    method SetWindowAspectRatio(newSar: real)
      requires Valid()
      modifies this`sar, this`fovy, this`z, this`projectionMatrix, this`zoomMatrix, this`viewMatrix
      ensures Valid()
      ensures sar == newSar && fovy == ext.fovY(fovx, newSar)
    {
      sar := newSar;
      UpdateFovY();
      UpdateZ();
      GetViewpointMatrixes();
    }

    /** Upload a built mesh: plane j's texture coordinates to its buffer, then vertices and indices. */
    method Upload(m: Mesh)
      requires WellFormed(m, texCount)
      modifies this`vertexBuffer, this`textureBuffers, this`indexBuffer, this`nbIndices
      ensures Uploaded(m) && BuffersValid()
    {
      textureBuffers := seq(texCount, _ => []);
      for j := 0 to texCount
        invariant |textureBuffers| == texCount
        invariant forall k :: 0 <= k < j ==> textureBuffers[k] == PlaneSlice(m, texCount, k)
      {
        textureBuffers := textureBuffers[j := PlaneSlice(m, texCount, j)];
      }
      vertexBuffer := m.vertexCoord;
      indexBuffer := m.indices;
      nbIndices := m.nbIndices;
      assert |vertexBuffer| / 3 == m.nbVertices;
    }

    /**
     * SetupCoords: build the mesh of the projection mode and upload it.
     * An unknown mode fails with EGENERIC and a failed allocation with
     * ENOMEM, in both cases before anything is uploaded.
     */
    method SetupCoords(left: seq<real>, top: seq<real>, right: seq<real>, bottom: seq<real>,
                       alloc: Allocations)
      returns (status: Status)
      requires Config() && BuffersValid()
      requires |left| == texCount && |top| == texCount && |right| == texCount && |bottom| == texCount
      modifies this`vertexBuffer, this`textureBuffers, this`indexBuffer, this`nbIndices
      ensures BuffersValid()
      ensures var m := MeshFor(projectionMode, texCount, PaddingW(), PaddingH(), left, top, right, bottom, ext);
              && (m.None? ==> status == EGeneric && unchanged(this))
              && (m.Some? && !alloc.AllSucceed() ==> status == ENoMem && unchanged(this))
              && (m.Some? && alloc.AllSucceed() ==> status == Success && Uploaded(m.value))
    {
      var built := BuildMesh(projectionMode, texCount, PaddingW(), PaddingH(),
                             left, top, right, bottom, ext, alloc);
      if built.Err? {
        return built.status;
      }
      Upload(built.value);
      return Success;
    }

    /** The draw call the current state issues with transform matrix tm. */
    function DrawCallWith(tm: Mat4): DrawCall
      requires Config()
      reads this`nbIndices, this`projectionMatrix, this`viewMatrix, this`zoomMatrix
    {
      DrawCall(aloc.multiTexCoord[..texCount], aloc.vertexPosition,
               nbIndices, tm, orientationMatrix, projectionMatrix, viewMatrix, zoomMatrix)
    }

    /**
     * DrawWithShaders: enable every plane's coordinate attribute (each one
     * the link found, so none is -1) and the position attribute, upload the
     * interop's transform (the identity when it has none) and the matrices,
     * and draw the uploaded indices.
     */
    method DrawWithShaders(transform: Option<Mat4>)
      requires Config()
      modifies this`draws
      ensures draws == old(draws) + [DrawCallWith(if transform.Some? then transform.value else IDENTITY)]
      ensures |draws[|draws| - 1].coordAttributes| == texCount && -1 !in draws[|draws| - 1].coordAttributes
    {
      var attributes: seq<int> := [];
      for j := 0 to texCount
        invariant attributes == aloc.multiTexCoord[..j]
      {
        attributes := attributes + [aloc.multiTexCoord[j]];
      }
      var tm := if transform.Some? then transform.value else IDENTITY;
      draws := draws + [DrawCall(attributes, aloc.vertexPosition,
                                 nbIndices, tm, orientationMatrix, projectionMatrix, viewMatrix, zoomMatrix)];
    }

    /**
     * The loop of a rebuild: each plane's sampling rectangle, scaled into
     * texture coordinates (offsets and ends in wrapping unsigned
     * arithmetic), in four stack arrays of PICTURE_PLANE_MAX entries.
     */
    method ScaledRects(source: SourceWindow)
      returns (l: array<real>, t: array<real>, r: array<real>, b: array<real>)
      requires Config() && SizesPositive()
      ensures fresh(l) && fresh(t) && fresh(r) && fresh(b)
      ensures l != t && l != r && l != b && t != r && t != b && r != b
      ensures l.Length == PICTURE_PLANE_MAX && t.Length == PICTURE_PLANE_MAX
      ensures r.Length == PICTURE_PLANE_MAX && b.Length == PICTURE_PLANE_MAX
      ensures forall k :: 0 <= k < texCount ==>
                Rect(l[k], t[k], r[k], b[k]) == SamplingRect(source, texW[k], texH[k], texWidth[k], texHeight[k])
    {
      l := new real[PICTURE_PLANE_MAX];
      t := new real[PICTURE_PLANE_MAX];
      r := new real[PICTURE_PLANE_MAX];
      b := new real[PICTURE_PLANE_MAX];
      for j := 0 to texCount
        invariant forall k :: 0 <= k < j ==>
                    Rect(l[k], t[k], r[k], b[k]) == SamplingRect(source, texW[k], texH[k], texWidth[k], texHeight[k])
      {
        var x0, y0, x1, y1 := ScaledEdges(source, texW[j], texH[j], texWidth[j], texHeight[j]);
        l[j], t[j], r[j], b[j] := x0, y0, x1, y1;
      }
    }

    /** The first half of a rebuild: the scaled rectangles, cropped for stereo, one entry per plane. */
    method SamplingEdges(source: SourceWindow)
      returns (left: seq<real>, top: seq<real>, right: seq<real>, bottom: seq<real>)
      requires Config() && SizesPositive()
      ensures (left, top, right, bottom) == Edges(source)
    {
      var l, t, r, b := ScaledRects(source);
      ghost var scaled := (l[..], t[..], r[..], b[..]);
      TextureCropForStereo(multiviewMode, texCount, l, t, r, b);
      left, top, right, bottom := l[..texCount], t[..texCount], r[..texCount], b[..texCount];
      ghost var e := Edges(source);
      forall k | 0 <= k < texCount
        ensures RectAt(left, top, right, bottom, k) == RectAt(e.0, e.1, e.2, e.3, k)
      {
        assert RectAt(scaled.0, scaled.1, scaled.2, scaled.3, k)
               == SamplingRect(source, texW[k], texH[k], texWidth[k], texHeight[k]);
        assert RectAt(left, top, right, bottom, k) == RectAt(l[..], t[..], r[..], b[..], k);
      }
      assert left == e.0 && top == e.1 && right == e.2 && bottom == e.3;
    }

    /**
     * The rebuild branch of Draw: the cropped sampling rectangles, then
     * SetupCoords; on success the window is remembered as the last source,
     * on failure nothing changes.
     */
    method Rebuild(source: SourceWindow, alloc: Allocations) returns (status: Status)
      requires Config() && BuffersValid() && SizesPositive()
      modifies this`lastSource, this`vertexBuffer, this`textureBuffers, this`indexBuffer, this`nbIndices
      ensures BuffersValid()
      ensures var m := SourceMesh(source);
              && (m.None? ==> status == EGeneric && unchanged(this))
              && (m.Some? && !alloc.AllSucceed() ==> status == ENoMem && unchanged(this))
              && (m.Some? && alloc.AllSucceed() ==> status == Success && Uploaded(m.value))
      ensures status == Success ==> lastSource == source
    {
      var left, top, right, bottom := SamplingEdges(source);
      status := SetupCoords(left, top, right, bottom, alloc);
      if status == Success {
        lastSource := source;
      }
    }

    /**
     * vlc_gl_renderer_Draw: when the visible window differs from the last
     * one built for, rebuild the mesh; if that fails, return its error
     * with nothing changed and nothing drawn. Otherwise draw.
     */
    method Draw(source: SourceWindow, alloc: Allocations, transform: Option<Mat4>)
      returns (status: Status)
      requires Valid() && SizesPositive()
      modifies this`lastSource, this`vertexBuffer, this`textureBuffers, this`indexBuffer, this`nbIndices,
               this`draws
      ensures Valid()
      ensures !NeedsRebuild(old(lastSource), source) ==>
                && status == Success
                && vertexBuffer == old(vertexBuffer) && textureBuffers == old(textureBuffers)
                && indexBuffer == old(indexBuffer) && nbIndices == old(nbIndices)
      ensures NeedsRebuild(old(lastSource), source) ==>
                var m := SourceMesh(source);
                && (m.None? ==> status == EGeneric && unchanged(this))
                && (m.Some? && !alloc.AllSucceed() ==> status == ENoMem && unchanged(this))
                && (m.Some? && alloc.AllSucceed() ==> status == Success && Uploaded(m.value))
      ensures status == Success ==>
                && lastSource == source
                && draws == old(draws) + [DrawCallWith(if transform.Some? then transform.value else IDENTITY)]
    {
      if NeedsRebuild(lastSource, source) {
        var ret := Rebuild(source, alloc);
        if ret != Success {
          return ret;
        }
      }
      DrawWithShaders(transform);
      return Success;
    }
  }
}
