/**
 * The texture rectangle each plane is sampled from, as vlc_gl_renderer_Draw
 * computes it from the visible window of the source picture, and the
 * stereo crop that keeps only the left eye of a stereoscopic picture.
 */
module Sampling {
  import opened Common

  /** The size of the per-plane rectangle arrays Draw keeps on its stack. */
  const PICTURE_PLANE_MAX: nat := 5

  const U32_MODULUS: int := 0x1_0000_0000

  /**
   * The four fields of video_format_t that Draw reads and remembers in
   * `last_source`: the visible window of the picture, in pixels.
   */
  datatype SourceWindow = SourceWindow(xOffset: u32, yOffset: u32, visibleWidth: u32, visibleHeight: u32)

  /** vlc_rational_t: the size of a texture plane relative to the picture, num / den. */
  datatype Ratio = Ratio(num: u32, den: u32)

  /** A sampling rectangle in texture coordinates (0 to 1 spans the texture). */
  datatype Rect = Rect(left: real, top: real, right: real, bottom: real)

  /** Unsigned 32-bit addition, which wraps around. */
  function AddU32(a: u32, b: u32): (s: u32)
    ensures a + b < U32_MODULUS ==> s == a + b
    ensures a + b >= U32_MODULUS ==> s == a + b - U32_MODULUS
  {
    if a + b < U32_MODULUS then a + b else a + b - U32_MODULUS
  }

  /** Unsigned 32-bit multiplication, which wraps around. */
  function MulU32(a: u32, b: u32): (s: u32)
    ensures a * b < U32_MODULUS ==> s == a * b
    ensures s <= a * b
  {
    var product := a * b;
    ModBelow(product);
    product % U32_MODULUS
  }

  lemma ModBelow(n: nat)
    ensures n % U32_MODULUS <= n
    ensures n < U32_MODULUS ==> n % U32_MODULUS == n
  {
  }

  /**
   * The number of texture units per picture pixel along one axis:
   * `(float)num / den / tex_size`.
   */
  function Scale(ratio: Ratio, texSize: nat): (s: real)
    requires ratio.den > 0 && texSize > 0
    ensures s >= 0.0
  {
    ratio.num as real / ratio.den as real / texSize as real
  }

  /** The scale undoes the division: scale * den * tex_size == num. */
  lemma ScaleInverts(ratio: Ratio, texSize: nat)
    requires ratio.den > 0 && texSize > 0
    ensures Scale(ratio, texSize) * (ratio.den as real) * (texSize as real) == ratio.num as real
  {
  }

  /**
   * One axis of a sampling rectangle: the near edge is the offset and the
   * far edge the offset plus the visible size, added as unsigned 32-bit
   * integers, both scaled to texture units. A window reaching past 2^32
   * wraps around and comes out reversed.
   */
  function AxisSpan(offset: u32, size: u32, scale: real): (span: (real, real))
    requires scale >= 0.0
    ensures 0.0 <= span.0 && 0.0 <= span.1
    ensures offset + size < U32_MODULUS ==> span.1 - span.0 == size as real * scale
    ensures offset + size >= U32_MODULUS ==> span.1 <= span.0
  {
    var farEnd := AddU32(offset, size);
    var near, far := offset as real * scale, farEnd as real * scale;
    if offset + size < U32_MODULUS then
      ScaledExtent(offset as real, size as real, scale);
      (near, far)
    else
      ScaledOrder(farEnd as real, offset as real, scale);
      (near, far)
  }

  lemma ScaledExtent(offset: real, size: real, s: real)
    requires 0.0 <= offset && 0.0 <= size && 0.0 <= s
    ensures 0.0 <= offset * s && 0.0 <= (offset + size) * s
    ensures (offset + size) * s - offset * s == size * s
  {
  }

  lemma ScaledOrder(a: real, b: real, s: real)
    requires 0.0 <= a <= b && 0.0 <= s
    ensures 0.0 <= a * s <= b * s
  {
    assert b * s - a * s == (b - a) * s;
  }

  /**
   * The rectangle Draw samples a plane from: the visible window of the
   * source scaled to the plane's texture.
   */
  function SamplingRect(src: SourceWindow, w: Ratio, h: Ratio, texWidth: nat, texHeight: nat): (r: Rect)
    requires w.den > 0 && h.den > 0 && texWidth > 0 && texHeight > 0
    ensures 0.0 <= r.left && 0.0 <= r.top && 0.0 <= r.right && 0.0 <= r.bottom
    ensures src.xOffset + src.visibleWidth < U32_MODULUS ==>
              r.right - r.left == src.visibleWidth as real * Scale(w, texWidth)
    ensures src.yOffset + src.visibleHeight < U32_MODULUS ==>
              r.bottom - r.top == src.visibleHeight as real * Scale(h, texHeight)
    ensures src.xOffset + src.visibleWidth >= U32_MODULUS ==> r.right <= r.left
    ensures src.yOffset + src.visibleHeight >= U32_MODULUS ==> r.bottom <= r.top
  {
    var x := AxisSpan(src.xOffset, src.visibleWidth, Scale(w, texWidth));
    var y := AxisSpan(src.yOffset, src.visibleHeight, Scale(h, texHeight));
    Rect(x.0, y.0, x.1, y.1)
  }

  /** The edges of the sampling rectangle, each a window coordinate times the plane's scale. */
  lemma SamplingRectEdges(src: SourceWindow, w: Ratio, h: Ratio, texWidth: nat, texHeight: nat)
    requires w.den > 0 && h.den > 0 && texWidth > 0 && texHeight > 0
    ensures SamplingRect(src, w, h, texWidth, texHeight)
            == Rect(src.xOffset as real * Scale(w, texWidth),
                    src.yOffset as real * Scale(h, texHeight),
                    AddU32(src.xOffset, src.visibleWidth) as real * Scale(w, texWidth),
                    AddU32(src.yOffset, src.visibleHeight) as real * Scale(h, texHeight))
  {
  }

  /**
   * Without wrap-around, the right edge stays inside the texture exactly
   * when the window's right end, scaled to the plane, fits in the texture
   * width: `(x + w) * num <= tex_width * den`.
   */
  lemma SamplingRectFitsTexture(src: SourceWindow, w: Ratio, h: Ratio, texWidth: nat, texHeight: nat)
    requires w.den > 0 && h.den > 0 && texWidth > 0 && texHeight > 0
    requires src.xOffset + src.visibleWidth < U32_MODULUS
    ensures SamplingRect(src, w, h, texWidth, texHeight).right <= 1.0
            <==> (src.xOffset + src.visibleWidth) * w.num <= texWidth * w.den
  {
    var end: nat := src.xOffset + src.visibleWidth;
    var s := Scale(w, texWidth);
    RightEdge(src, w, h, texWidth, texHeight);
    ScaleInverts(w, texWidth);
    BoundByProduct(end as real, s, (w.den as real) * (texWidth as real), w.num as real);
    CompareAsReals(end, w.num, w.den, texWidth);
  }

  /** Without wrap-around, the right edge is the window's right end, scaled. */
  lemma RightEdge(src: SourceWindow, w: Ratio, h: Ratio, texWidth: nat, texHeight: nat)
    requires w.den > 0 && h.den > 0 && texWidth > 0 && texHeight > 0
    requires src.xOffset + src.visibleWidth < U32_MODULUS
    ensures SamplingRect(src, w, h, texWidth, texHeight).right
            == (src.xOffset + src.visibleWidth) as real * Scale(w, texWidth)
  {
  }

  /** With s * d == n and d > 0: e * s <= 1 exactly when e * n <= d. */
  lemma BoundByProduct(e: real, s: real, d: real, n: real)
    requires d > 0.0 && s * d == n
    ensures e * s <= 1.0 <==> e * n <= d
  {
    assert e * n == (e * s) * d;
    if e * s <= 1.0 {
      assert (e * s) * d <= 1.0 * d;
    } else {
      assert (e * s) * d > 1.0 * d;
    }
  }

  /** Comparing products of naturals as reals agrees with comparing them as integers. */
  lemma CompareAsReals(a: nat, b: nat, c: nat, d: nat)
    ensures (a as real) * (b as real) <= (c as real) * (d as real) <==> a * b <= d * c
  {
    assert (a * b) as real == (a as real) * (b as real);
    assert (d * c) as real == (c as real) * (d as real);
  }

  /** video_multiview_mode_t; other stereo layouts are kept as `OtherMultiview`. */
  datatype MultiviewMode = Mono2D | StereoSideBySide | StereoTopBottom | OtherMultiview(code: int)

  /**
   * The crop GetTextureCropParamsForStereo applies to one rectangle: move
   * the near edge by `offsets` times the extent, then place the far edge
   * `coefs` times the extent past the moved near edge.
   */
  function CropRect(r: Rect, coefs: (real, real), offsets: (real, real)): (c: Rect)
    ensures c.left - r.left == (r.right - r.left) * offsets.0
    ensures c.top - r.top == (r.bottom - r.top) * offsets.1
    ensures c.right - c.left == (r.right - r.left) * coefs.0
    ensures c.bottom - c.top == (r.bottom - r.top) * coefs.1
  {
    var width := r.right - r.left;
    var left := r.left + width * offsets.0;
    var height := r.bottom - r.top;
    var top := r.top + height * offsets.1;
    Rect(left, top, left + width * coefs.0, top + height * coefs.1)
  }

  /**
   * The coefficients and offsets TextureCropForStereo passes for a mode,
   * or None when it leaves the rectangles alone.
   */
  function StereoParams(mode: MultiviewMode): Option<((real, real), (real, real))>
  {
    match mode
    case StereoTopBottom => Some(((1.0, 0.5), (0.0, 0.0)))
    case StereoSideBySide => Some(((0.5, 1.0), (0.0, 0.0)))
    case _ => None
  }

  /**
   * The rectangle TextureCropForStereo leaves for a plane: only the left
   * eye, which is the top half of a top-bottom picture and the left half
   * of a side-by-side one; other modes show the whole rectangle.
   */
  function StereoCrop(mode: MultiviewMode, r: Rect): (c: Rect)
    ensures mode == StereoTopBottom ==>
              c == Rect(r.left, r.top, r.right, r.top + (r.bottom - r.top) / 2.0)
    ensures mode == StereoSideBySide ==>
              c == Rect(r.left, r.top, r.left + (r.right - r.left) / 2.0, r.bottom)
    ensures mode != StereoTopBottom && mode != StereoSideBySide ==> c == r
  {
    match StereoParams(mode)
    case Some(params) => CropRect(r, params.0, params.1)
    case None => r
  }

  /** A rectangle that does not run backwards. */
  predicate Ordered(r: Rect)
  {
    r.left <= r.right && r.top <= r.bottom
  }

  /**
   * The eye kept by the stereo crop lies inside the rectangle it was cut
   * from, shares its top-left corner, and is still ordered.
   */
  lemma StereoCropInside(mode: MultiviewMode, r: Rect)
    requires Ordered(r)
    ensures var c := StereoCrop(mode, r);
            && Ordered(c)
            && c.left == r.left && c.top == r.top
            && c.right <= r.right && c.bottom <= r.bottom
  {
  }

  /**
   * Cropping a top-bottom picture and then cropping it as side-by-side
   * picks the top-left quarter, as doing both in the other order does.
   */
  lemma StereoCropsCommute(r: Rect)
    ensures StereoCrop(StereoSideBySide, StereoCrop(StereoTopBottom, r))
            == StereoCrop(StereoTopBottom, StereoCrop(StereoSideBySide, r))
  {
  }

  /** The rectangle of plane i held in four parallel arrays. */
  function RectAt(left: seq<real>, top: seq<real>, right: seq<real>, bottom: seq<real>, i: nat): Rect
    requires i < |left| && i < |top| && i < |right| && i < |bottom|
  {
    Rect(left[i], top[i], right[i], bottom[i])
  }

  /**
   * GetTextureCropParamsForStereo: crop the first n rectangles in place.
   * As in the source, the new right (bottom) edge is placed from the
   * already updated left (top) edge. Entries from n on are left untouched.
   */
  method GetTextureCropParamsForStereo(n: nat, coefs: (real, real), offsets: (real, real),
                                       left: array<real>, top: array<real>,
                                       right: array<real>, bottom: array<real>)
    requires n <= left.Length && n <= top.Length && n <= right.Length && n <= bottom.Length
    requires left != top && left != right && left != bottom
    requires top != right && top != bottom && right != bottom
    modifies left, top, right, bottom
    ensures forall i :: 0 <= i < n ==>
              RectAt(left[..], top[..], right[..], bottom[..], i)
              == CropRect(RectAt(old(left[..]), old(top[..]), old(right[..]), old(bottom[..]), i), coefs, offsets)
    ensures forall i :: n <= i < left.Length ==> left[i] == old(left[i])
    ensures forall i :: n <= i < top.Length ==> top[i] == old(top[i])
    ensures forall i :: n <= i < right.Length ==> right[i] == old(right[i])
    ensures forall i :: n <= i < bottom.Length ==> bottom[i] == old(bottom[i])
  {
    for i := 0 to n
      invariant forall k :: 0 <= k < i ==>
                  RectAt(left[..], top[..], right[..], bottom[..], k)
                  == CropRect(RectAt(old(left[..]), old(top[..]), old(right[..]), old(bottom[..]), k), coefs, offsets)
      invariant forall k :: i <= k < left.Length ==> left[k] == old(left[k])
      invariant forall k :: i <= k < top.Length ==> top[k] == old(top[k])
      invariant forall k :: i <= k < right.Length ==> right[k] == old(right[k])
      invariant forall k :: i <= k < bottom.Length ==> bottom[k] == old(bottom[k])
    {
      var twoEyesWidth := right[i] - left[i];
      left[i] := left[i] + twoEyesWidth * offsets.0;
      right[i] := left[i] + twoEyesWidth * coefs.0;

      var twoEyesHeight := bottom[i] - top[i];
      top[i] := top[i] + twoEyesHeight * offsets.1;
      bottom[i] := top[i] + twoEyesHeight * coefs.1;
    }
  }

  /**
   * TextureCropForStereo: in a stereo mode, crop the first n rectangles to
   * the left eye; in any other mode change nothing.
   */
  method TextureCropForStereo(mode: MultiviewMode, n: nat,
                              left: array<real>, top: array<real>,
                              right: array<real>, bottom: array<real>)
    requires n <= left.Length && n <= top.Length && n <= right.Length && n <= bottom.Length
    requires left != top && left != right && left != bottom
    requires top != right && top != bottom && right != bottom
    modifies left, top, right, bottom
    ensures forall i :: 0 <= i < n ==>
              RectAt(left[..], top[..], right[..], bottom[..], i)
              == StereoCrop(mode, RectAt(old(left[..]), old(top[..]), old(right[..]), old(bottom[..]), i))
    ensures forall i :: n <= i < left.Length ==> left[i] == old(left[i])
    ensures forall i :: n <= i < top.Length ==> top[i] == old(top[i])
    ensures forall i :: n <= i < right.Length ==> right[i] == old(right[i])
    ensures forall i :: n <= i < bottom.Length ==> bottom[i] == old(bottom[i])
  {
    match mode {
      case StereoTopBottom =>
        GetTextureCropParamsForStereo(n, (1.0, 0.5), (0.0, 0.0), left, top, right, bottom);
      case StereoSideBySide =>
        GetTextureCropParamsForStereo(n, (0.5, 1.0), (0.0, 0.0), left, top, right, bottom);
      case _ =>
    }
  }
}
