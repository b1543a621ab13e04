/**
 * BuildSphere: the latitude/longitude tessellation of the unit sphere used
 * for equirectangular (360°) video. The sphere has 128 latitude bands and
 * 128 longitude bands, so (128 + 1) * (128 + 1) vertices in row-major
 * (lat, lon) order and two triangles per cell.
 */
module Sphere {
  import opened Common

  // Products, quotients and remainders below write the band counts as
  // numerals (128 bands, 129 vertices per band, 16641 vertices), so that
  // the index arithmetic stays linear for the solver.

  const SPHERE_RADIUS: real := 1.0
  const NB_LAT_BANDS: nat := 128
  const NB_LON_BANDS: nat := 128
  /** (NB_LAT_BANDS + 1) * (NB_LON_BANDS + 1) */
  const NB_VERTICES: nat := 16641
  /** NB_LAT_BANDS * NB_LON_BANDS * 3 * 2 */
  const NB_INDICES: nat := 98304

  /** The row-major number of the vertex at (lat, lon). */
  function VertexIndex(lat: nat, lon: nat): nat
  {
    lat * 129 + lon
  }

  /** The polar angle θ of latitude band lat (0 to π) and the azimuth φ of longitude band lon (0 to 2π). */
  function Theta(lat: nat): real
  {
    lat as real * PI / NB_LAT_BANDS as real
  }

  function Phi(lon: nat): real
  {
    lon as real * 2.0 * PI / NB_LON_BANDS as real
  }

  /** Whether the sine and cosine sincosf returns for t satisfy sin² t + cos² t = 1. */
  predicate Pythagorean(ext: Externals, t: real)
  {
    ext.sin(t) * ext.sin(t) + ext.cos(t) * ext.cos(t) == 1.0
  }

  /**
   * Coordinate c (0: x, 1: y, 2: z) of the vertex at (lat, lon):
   * radius * (cos φ sin θ, cos θ, sin φ sin θ). Where sine and cosine
   * behave, no coordinate leaves [-radius, radius].
   */
  function Position(lat: nat, lon: nat, c: nat, ext: Externals): (r: real)
    ensures Pythagorean(ext, Theta(lat)) && Pythagorean(ext, Phi(lon)) ==>
              r * r <= SPHERE_RADIUS * SPHERE_RADIUS
  {
    var sinTheta, cosTheta := ext.sin(Theta(lat)), ext.cos(Theta(lat));
    var sinPhi, cosPhi := ext.sin(Phi(lon)), ext.cos(Phi(lon));
    UnitSquares(sinTheta, cosTheta);
    UnitSquares(sinPhi, cosPhi);
    ProductOfUnits(cosPhi, sinTheta);
    ProductOfUnits(sinPhi, sinTheta);
    if c == 0 then SPHERE_RADIUS * (cosPhi * sinTheta)
    else if c == 1 then SPHERE_RADIUS * cosTheta
    else SPHERE_RADIUS * (sinPhi * sinTheta)
  }

  lemma UnitSquares(s: real, c: real)
    ensures s * s + c * c == 1.0 ==> s * s <= 1.0 && c * c <= 1.0
  {
    assert s * s >= 0.0 && c * c >= 0.0;
  }

  lemma ProductOfUnits(a: real, b: real)
    ensures a * a <= 1.0 && b * b <= 1.0 ==> (a * b) * (a * b) <= 1.0
  {
    if a * a <= 1.0 && b * b <= 1.0 {
      assert (a * b) * (a * b) == (a * a) * (b * b);
      assert (1.0 - a * a) * (b * b) >= 0.0;
    }
  }

  /**
   * Every vertex lies on the sphere of radius SPHERE_RADIUS around the
   * origin, wherever sincosf satisfies sin² + cos² = 1 at the vertex's two
   * angles.
   */
  lemma VertexOnSphere(lat: nat, lon: nat, ext: Externals)
    requires Pythagorean(ext, Theta(lat)) && Pythagorean(ext, Phi(lon))
    ensures var x, y, z := Position(lat, lon, 0, ext), Position(lat, lon, 1, ext), Position(lat, lon, 2, ext);
            x * x + y * y + z * z == SPHERE_RADIUS * SPHERE_RADIUS
  {
    var s, c := ext.sin(Theta(lat)), ext.cos(Theta(lat));
    var sp, cp := ext.sin(Phi(lon)), ext.cos(Phi(lon));
    var x, z := Position(lat, lon, 0, ext), Position(lat, lon, 2, ext);
    assert x == cp * s && z == sp * s;
    assert x * x + z * z == (s * s) * (cp * cp + sp * sp);
  }

  /**
   * Coordinate c (0: u, 1: v) of the texture coordinate of plane p at
   * (lat, lon): the fractions lon / 128 and lat / 128 of the plane's
   * sampling width and height. The rectangle's left and top are not added,
   * so u runs from 0 to the width and v from 0 to the height.
   */
  function TexCoord(p: nat, lat: nat, lon: nat, c: nat,
                    left: seq<real>, top: seq<real>, right: seq<real>, bottom: seq<real>): (r: real)
    requires p < |left| && p < |top| && p < |right| && p < |bottom|
    ensures c == 0 && lon <= NB_LON_BANDS && left[p] <= right[p] ==> 0.0 <= r <= right[p] - left[p]
    ensures c != 0 && lat <= NB_LAT_BANDS && top[p] <= bottom[p] ==> 0.0 <= r <= bottom[p] - top[p]
  {
    if c == 0 then BandCoord(lon, right[p] - left[p]) else BandCoord(lat, bottom[p] - top[p])
  }

  /** The fraction n / 128 of an extent w: for n within the 128 bands, between 0 and w. */
  function BandCoord(n: nat, w: real): (r: real)
    ensures n <= 128 && 0.0 <= w ==> 0.0 <= r <= w
  {
    var a := n as real / 128.0;
    assert n <= 128 ==> 0.0 <= a <= 1.0;
    assert n <= 128 && 0.0 <= w ==> a * w <= 1.0 * w;
    a * w
  }

  /** Entry k of the vertex buffer: coordinate k % 3 of vertex k / 3. */
  function VertexCoordAt(k: nat, ext: Externals): real
    requires k < 3 * NB_VERTICES
  {
    var v := k / 3;
    Position(v / 129, v % 129, k % 3, ext)
  }

  /**
   * Entry k of the texture-coordinate buffer: one block of NB_VERTICES
   * (u, v) pairs per plane, plane after plane.
   */
  function TexCoordAt(k: nat, nbPlanes: nat,
                      left: seq<real>, top: seq<real>, right: seq<real>, bottom: seq<real>): real
    requires k < 2 * 16641 * nbPlanes
    requires nbPlanes <= |left| && nbPlanes <= |top| && nbPlanes <= |right| && nbPlanes <= |bottom|
  {
    var e := k / 2;
    var v := e % 16641;
    TexCoord(e / 16641, v / 129, v % 129, k % 2,
             left, top, right, bottom)
  }

  /**
   * Entry k of the index buffer. Slot k belongs to cell k / 6, numbered
   * lat * NB_LAT_BANDS + lon as the builder numbers it; the cell's two
   * triangles are (first, second, first + 1) and (second, second + 1,
   * first + 1), where first is the cell's corner on band lat and second the
   * one below it on band lat + 1. Every entry names a vertex of the sphere.
   */
  function IndexAt(k: nat): (i: u16)
    requires k < NB_INDICES
    ensures i < NB_VERTICES
  {
    CellIndex(k / 6, k % 6)
  }

  /** Slot r (0 to 5) of cell number cell. */
  function CellIndex(cell: nat, r: nat): (i: u16)
    requires cell < 16384 && r < 6
    ensures i < NB_VERTICES
  {
    var first := VertexIndex(cell / 128, cell % 128);
    var second := first + NB_LON_BANDS + 1;
    match r
    case 0 => first
    case 1 => second
    case 2 => first + 1
    case 3 => second
    case 4 => second + 1
    case _ => first + 1
  }

  /** The mesh BuildSphere fills in, entry by entry. */
  function SphereMesh(nbPlanes: nat, left: seq<real>, top: seq<real>, right: seq<real>,
                      bottom: seq<real>, ext: Externals): (m: Mesh)
    requires nbPlanes <= |left| && nbPlanes <= |top| && nbPlanes <= |right| && nbPlanes <= |bottom|
    ensures WellFormed(m, nbPlanes)
    ensures m.nbVertices == NB_VERTICES && m.nbIndices == NB_INDICES
  {
    Mesh(seq(3 * NB_VERTICES, k requires 0 <= k < 3 * NB_VERTICES => VertexCoordAt(k, ext)),
         seq(2 * 16641 * nbPlanes, k requires 0 <= k < 2 * 16641 * nbPlanes =>
               TexCoordAt(k, nbPlanes, left, top, right, bottom)),
         NB_VERTICES,
         seq(NB_INDICES, k requires 0 <= k < NB_INDICES => IndexAt(k)),
         NB_INDICES)
  }

  /** The number the builder gives cell (lat, lon): lat * NB_LAT_BANDS + lon. */
  function CellNumber(lat: nat, lon: nat): nat
  {
    lat * 128 + lon
  }

  /**
   * The six slots of cell (lat, lon) hold the cell's two triangles (first,
   * second, first + 1) and (second, second + 1, first + 1).
   */
  lemma CellSlots(lat: nat, lon: nat)
    requires lat < NB_LAT_BANDS && lon < NB_LON_BANDS
    ensures var cell := CellNumber(lat, lon);
            var first := VertexIndex(lat, lon);
            var second := first + NB_LON_BANDS + 1;
            && cell < 16384
            && CellIndex(cell, 0) == first && CellIndex(cell, 1) == second && CellIndex(cell, 2) == first + 1
            && CellIndex(cell, 3) == second && CellIndex(cell, 4) == second + 1 && CellIndex(cell, 5) == first + 1
  {
    var cell := CellNumber(lat, lon);
    assert cell / 128 == lat && cell % 128 == lon;
  }

  /** Index slot k belongs to cell k / 6, as its slot k % 6. */
  lemma SlotInCell(cell: nat, k: nat)
    requires cell < 16384 && cell * 6 <= k < cell * 6 + 6
    ensures k < NB_INDICES && IndexAt(k) == CellIndex(cell, k - cell * 6)
  {
    assert k / 6 == cell && k % 6 == k - cell * 6;
  }

  /**
   * BuildSphere: allocate the three buffers (each allocation may fail, and
   * a failure returns ENOMEM with no mesh), then fill the vertex and
   * texture coordinates band by band and the indices cell by cell.
   */
  method BuildSphere(nbPlanes: nat, left: seq<real>, top: seq<real>, right: seq<real>,
                     bottom: seq<real>, ext: Externals, alloc: Allocations)
    returns (r: Result<Mesh>)
    requires nbPlanes <= |left| && nbPlanes <= |top| && nbPlanes <= |right| && nbPlanes <= |bottom|
    ensures alloc.AllSucceed() ==> r == Ok(SphereMesh(nbPlanes, left, top, right, bottom, ext))
    ensures !alloc.AllSucceed() ==> r == Err(ENoMem)
  {
    var nbVertices := (NB_LAT_BANDS + 1) * (NB_LON_BANDS + 1);
    var nbIndices := NB_LAT_BANDS * NB_LON_BANDS * 3 * 2;

    if !alloc.vertexCoord {
      return Err(ENoMem);
    }
    var vertexCoord := new real[nbVertices * 3];
    if !alloc.textureCoord {
      return Err(ENoMem);
    }
    var textureCoord := new real[nbPlanes * nbVertices * 2];
    if !alloc.indices {
      return Err(ENoMem);
    }
    var indices := new u16[nbIndices];

    FillVertices(nbPlanes, vertexCoord, textureCoord, left, top, right, bottom, ext);
    FillIndices(indices);

    assert vertexCoord[..] == SphereMesh(nbPlanes, left, top, right, bottom, ext).vertexCoord;
    assert textureCoord[..] == SphereMesh(nbPlanes, left, top, right, bottom, ext).textureCoord;
    assert indices[..] == SphereMesh(nbPlanes, left, top, right, bottom, ext).indices;
    return Ok(Mesh(vertexCoord[..], textureCoord[..], nbVertices, indices[..], nbIndices));
  }

  /** Where the texture pair of plane p at vertex v starts. */
  function TexSlot(p: nat, v: nat): nat
  {
    2 * (p * 16641 + v)
  }

  /** Vertex (la, lo) comes before vertex (lat, lon) in the builder's row-major walk. */
  predicate Before(la: nat, lo: nat, lat: nat, lon: nat)
  {
    la < lat || (la == lat && lo < lon)
  }

  /** A vertex that comes earlier in the walk has a smaller number. */
  lemma BeforeIndex(la: nat, lo: nat, lat: nat, lon: nat)
    requires lo <= NB_LON_BANDS && lon <= NB_LON_BANDS + 1 && Before(la, lo, lat, lon)
    ensures VertexIndex(la, lo) < VertexIndex(lat, lon)
  {
    if la < lat {
      MulMono(la + 1, lat, 129);
    }
  }

  /** The position of vertex (lat, lon) is in place. */
  ghost predicate VertexFilled(vertexCoord: array<real>, lat: nat, lon: nat, ext: Externals)
    requires vertexCoord.Length == 3 * NB_VERTICES && lat <= NB_LAT_BANDS && lon <= NB_LON_BANDS
    reads vertexCoord
  {
    var v := VertexIndex(lat, lon);
    && vertexCoord[3 * v] == Position(lat, lon, 0, ext)
    && vertexCoord[3 * v + 1] == Position(lat, lon, 1, ext)
    && vertexCoord[3 * v + 2] == Position(lat, lon, 2, ext)
  }

  /** The texture coordinate of plane p at vertex (lat, lon) is in place. */
  ghost predicate TexPairFilled(textureCoord: array<real>, p: nat, lat: nat, lon: nat, nbPlanes: nat,
                                left: seq<real>, top: seq<real>, right: seq<real>, bottom: seq<real>)
    requires nbPlanes <= |left| && nbPlanes <= |top| && nbPlanes <= |right| && nbPlanes <= |bottom|
    requires textureCoord.Length == 2 * 16641 * nbPlanes
    requires p < nbPlanes && lat <= NB_LAT_BANDS && lon <= NB_LON_BANDS
    reads textureCoord
  {
    var off := TexSlot(p, VertexIndex(lat, lon));
    && off + 1 < textureCoord.Length
    && textureCoord[off] == TexCoord(p, lat, lon, 0, left, top, right, bottom)
    && textureCoord[off + 1] == TexCoord(p, lat, lon, 1, left, top, right, bottom)
  }

  /** The positions of every vertex before (lat, lon) are in place. */
  ghost predicate VerticesFilled(vertexCoord: array<real>, lat: nat, lon: nat, ext: Externals)
    requires vertexCoord.Length == 3 * NB_VERTICES
    reads vertexCoord
  {
    forall la: nat, lo: nat :: la <= NB_LAT_BANDS && lo <= NB_LON_BANDS && Before(la, lo, lat, lon) ==>
      VertexFilled(vertexCoord, la, lo, ext)
  }

  /** The texture coordinates of every vertex before (lat, lon) are in place, in every plane. */
  ghost predicate TexCoordsFilled(textureCoord: array<real>, lat: nat, lon: nat, nbPlanes: nat,
                                  left: seq<real>, top: seq<real>, right: seq<real>, bottom: seq<real>)
    requires nbPlanes <= |left| && nbPlanes <= |top| && nbPlanes <= |right| && nbPlanes <= |bottom|
    requires textureCoord.Length == 2 * 16641 * nbPlanes
    reads textureCoord
  {
    forall q: nat, la: nat, lo: nat :: q < nbPlanes && la <= NB_LAT_BANDS && lo <= NB_LON_BANDS && Before(la, lo, lat, lon) ==>
      TexPairFilled(textureCoord, q, la, lo, nbPlanes, left, top, right, bottom)
  }

  /** Once every vertex is in place, the buffer is VertexCoordAt entry by entry. */
  lemma VerticesComplete(vertexCoord: array<real>, ext: Externals)
    requires vertexCoord.Length == 3 * NB_VERTICES
    requires VerticesFilled(vertexCoord, NB_LAT_BANDS + 1, 0, ext)
    ensures forall k :: 0 <= k < vertexCoord.Length ==> vertexCoord[k] == VertexCoordAt(k, ext)
  {
    forall k | 0 <= k < vertexCoord.Length
      ensures vertexCoord[k] == VertexCoordAt(k, ext)
    {
      var v := k / 3;
      var lat, lon := v / 129, v % 129;
      assert VertexIndex(lat, lon) == v;
      assert VertexFilled(vertexCoord, lat, lon, ext);
    }
  }

  /** Once every vertex is in place, the buffer is TexCoordAt entry by entry. */
  lemma TexCoordsComplete(textureCoord: array<real>, nbPlanes: nat,
                          left: seq<real>, top: seq<real>, right: seq<real>, bottom: seq<real>)
    requires nbPlanes <= |left| && nbPlanes <= |top| && nbPlanes <= |right| && nbPlanes <= |bottom|
    requires textureCoord.Length == 2 * 16641 * nbPlanes
    requires TexCoordsFilled(textureCoord, NB_LAT_BANDS + 1, 0, nbPlanes, left, top, right, bottom)
    ensures forall k :: 0 <= k < textureCoord.Length ==>
              textureCoord[k] == TexCoordAt(k, nbPlanes, left, top, right, bottom)
  {
    forall k | 0 <= k < textureCoord.Length
      ensures textureCoord[k] == TexCoordAt(k, nbPlanes, left, top, right, bottom)
    {
      var e := k / 2;
      var p, v := e / 16641, e % 16641;
      var lat, lon := v / 129, v % 129;
      assert VertexIndex(lat, lon) == v;
      assert TexPairFilled(textureCoord, p, lat, lon, nbPlanes, left, top, right, bottom);
    }
  }

  /** The first loop nest of BuildSphere: positions and texture coordinates. */
  method FillVertices(nbPlanes: nat, vertexCoord: array<real>, textureCoord: array<real>,
                      left: seq<real>, top: seq<real>, right: seq<real>, bottom: seq<real>,
                      ext: Externals)
    requires nbPlanes <= |left| && nbPlanes <= |top| && nbPlanes <= |right| && nbPlanes <= |bottom|
    requires vertexCoord.Length == 3 * NB_VERTICES
    requires textureCoord.Length == 2 * 16641 * nbPlanes
    requires vertexCoord != textureCoord
    modifies vertexCoord, textureCoord
    ensures forall k :: 0 <= k < vertexCoord.Length ==> vertexCoord[k] == VertexCoordAt(k, ext)
    ensures forall k :: 0 <= k < textureCoord.Length ==>
              textureCoord[k] == TexCoordAt(k, nbPlanes, left, top, right, bottom)
  {
    var lat := 0;
    while lat <= NB_LAT_BANDS
      invariant 0 <= lat <= NB_LAT_BANDS + 1
      invariant VerticesFilled(vertexCoord, lat, 0, ext)
      invariant TexCoordsFilled(textureCoord, lat, 0, nbPlanes, left, top, right, bottom)
    {
      FillBand(lat, nbPlanes, vertexCoord, textureCoord, left, top, right, bottom, ext);
      lat := lat + 1;
    }
    VerticesComplete(vertexCoord, ext);
    TexCoordsComplete(textureCoord, nbPlanes, left, top, right, bottom);
  }

  /** One iteration of the latitude loop of BuildSphere's first nest. */
  method FillBand(lat: nat, nbPlanes: nat, vertexCoord: array<real>, textureCoord: array<real>,
                  left: seq<real>, top: seq<real>, right: seq<real>, bottom: seq<real>,
                  ext: Externals)
    requires lat <= NB_LAT_BANDS
    requires nbPlanes <= |left| && nbPlanes <= |top| && nbPlanes <= |right| && nbPlanes <= |bottom|
    requires vertexCoord.Length == 3 * NB_VERTICES
    requires textureCoord.Length == 2 * 16641 * nbPlanes
    requires vertexCoord != textureCoord
    requires VerticesFilled(vertexCoord, lat, 0, ext)
    requires TexCoordsFilled(textureCoord, lat, 0, nbPlanes, left, top, right, bottom)
    modifies vertexCoord, textureCoord
    ensures VerticesFilled(vertexCoord, lat + 1, 0, ext)
    ensures TexCoordsFilled(textureCoord, lat + 1, 0, nbPlanes, left, top, right, bottom)
  {
    var theta := lat as real * PI / NB_LAT_BANDS as real;
    var sinTheta, cosTheta := ext.sin(theta), ext.cos(theta);

    var lon := 0;
    while lon <= NB_LON_BANDS
      invariant 0 <= lon <= NB_LON_BANDS + 1
      invariant VerticesFilled(vertexCoord, lat, lon, ext)
      invariant TexCoordsFilled(textureCoord, lat, lon, nbPlanes, left, top, right, bottom)
    {
      var phi := lon as real * 2.0 * PI / NB_LON_BANDS as real;
      var sinPhi, cosPhi := ext.sin(phi), ext.cos(phi);

      var x := cosPhi * sinTheta;
      var y := cosTheta;
      var z := sinPhi * sinTheta;

      var off1 := (lat * 129 + lon) * 3;
      WriteVertex(vertexCoord, off1, lat, lon, SPHERE_RADIUS * x, SPHERE_RADIUS * y, SPHERE_RADIUS * z, ext);

      FillPlanes(lat, lon, nbPlanes, textureCoord, left, top, right, bottom);
      lon := lon + 1;
    }
  }

  /** The innermost loop of BuildSphere's first nest: vertex (lat, lon) in every plane. */
  method FillPlanes(lat: nat, lon: nat, nbPlanes: nat, textureCoord: array<real>,
                    left: seq<real>, top: seq<real>, right: seq<real>, bottom: seq<real>)
    requires lat <= NB_LAT_BANDS && lon <= NB_LON_BANDS
    requires nbPlanes <= |left| && nbPlanes <= |top| && nbPlanes <= |right| && nbPlanes <= |bottom|
    requires textureCoord.Length == 2 * 16641 * nbPlanes
    requires TexCoordsFilled(textureCoord, lat, lon, nbPlanes, left, top, right, bottom)
    modifies textureCoord
    ensures TexCoordsFilled(textureCoord, lat, lon + 1, nbPlanes, left, top, right, bottom)
  {
    var p := 0;
    while p < nbPlanes
      invariant 0 <= p <= nbPlanes
      invariant TexCoordsFilled(textureCoord, lat, lon, nbPlanes, left, top, right, bottom)
      invariant forall q :: 0 <= q < p ==>
                  TexPairFilled(textureCoord, q, lat, lon, nbPlanes, left, top, right, bottom)
    {
      var off2 := (p * 129 * 129 + lat * 129 + lon) * 2;
      var width := right[p] - left[p];
      var height := bottom[p] - top[p];
      var u := lon as real / NB_LON_BANDS as real * width;
      var v := lat as real / NB_LAT_BANDS as real * height;
      WriteTexPair(textureCoord, off2, p, lat, lon, u, v, nbPlanes, left, top, right, bottom);
      p := p + 1;
    }
    forall q: nat, la: nat, lo: nat | q < nbPlanes && la <= NB_LAT_BANDS && lo <= NB_LON_BANDS &&
                                      Before(la, lo, lat, lon + 1)
      ensures TexPairFilled(textureCoord, q, la, lo, nbPlanes, left, top, right, bottom)
    {
      if !Before(la, lo, lat, lon) {
        assert la == lat && lo == lon;
      }
    }
  }

  /** The three stores of vertex (lat, lon) in BuildSphere's first nest. */
  method WriteVertex(vertexCoord: array<real>, off1: nat, lat: nat, lon: nat, x: real, y: real, z: real,
                     ext: Externals)
    requires vertexCoord.Length == 3 * NB_VERTICES && lat <= NB_LAT_BANDS && lon <= NB_LON_BANDS
    requires off1 == 3 * VertexIndex(lat, lon)
    requires x == Position(lat, lon, 0, ext) && y == Position(lat, lon, 1, ext) && z == Position(lat, lon, 2, ext)
    requires VerticesFilled(vertexCoord, lat, lon, ext)
    modifies vertexCoord
    ensures VerticesFilled(vertexCoord, lat, lon + 1, ext)
  {
    vertexCoord[off1] := x;
    vertexCoord[off1 + 1] := y;
    vertexCoord[off1 + 2] := z;
    forall la: nat, lo: nat | la <= NB_LAT_BANDS && lo <= NB_LON_BANDS && Before(la, lo, lat, lon + 1)
      ensures VertexFilled(vertexCoord, la, lo, ext)
    {
      if Before(la, lo, lat, lon) {
        BeforeIndex(la, lo, lat, lon);
        assert old(VertexFilled(vertexCoord, la, lo, ext));
      }
    }
  }

  /** The two stores of plane p at vertex (lat, lon) in BuildSphere's first nest. */
  method WriteTexPair(textureCoord: array<real>, off2: nat, p: nat, lat: nat, lon: nat, u: real, v: real,
                      nbPlanes: nat, left: seq<real>, top: seq<real>, right: seq<real>, bottom: seq<real>)
    requires nbPlanes <= |left| && nbPlanes <= |top| && nbPlanes <= |right| && nbPlanes <= |bottom|
    requires textureCoord.Length == 2 * 16641 * nbPlanes
    requires p < nbPlanes && lat <= NB_LAT_BANDS && lon <= NB_LON_BANDS
    requires off2 == TexSlot(p, VertexIndex(lat, lon))
    requires u == TexCoord(p, lat, lon, 0, left, top, right, bottom)
    requires v == TexCoord(p, lat, lon, 1, left, top, right, bottom)
    requires TexCoordsFilled(textureCoord, lat, lon, nbPlanes, left, top, right, bottom)
    requires forall q :: 0 <= q < p ==> TexPairFilled(textureCoord, q, lat, lon, nbPlanes, left, top, right, bottom)
    modifies textureCoord
    ensures TexCoordsFilled(textureCoord, lat, lon, nbPlanes, left, top, right, bottom)
    ensures forall q :: 0 <= q <= p ==> TexPairFilled(textureCoord, q, lat, lon, nbPlanes, left, top, right, bottom)
  {
    MulMono(p + 1, nbPlanes, 16641);
    textureCoord[off2] := u;
    textureCoord[off2 + 1] := v;
    forall q: nat, la: nat, lo: nat | q < nbPlanes && la <= NB_LAT_BANDS && lo <= NB_LON_BANDS &&
                       (Before(la, lo, lat, lon) || (la == lat && lo == lon && q < p))
      ensures TexPairFilled(textureCoord, q, la, lo, nbPlanes, left, top, right, bottom)
    {
      if Before(la, lo, lat, lon) {
        BeforeIndex(la, lo, lat, lon);
      }
      TexSlotsApart(p, VertexIndex(lat, lon), q, VertexIndex(la, lo));
      assert old(TexPairFilled(textureCoord, q, la, lo, nbPlanes, left, top, right, bottom));
    }
  }

  /** Pairs of two different (plane, vertex) positions do not overlap. */
  lemma TexSlotsApart(p: nat, v: nat, q: nat, w: nat)
    requires v < NB_VERTICES && w < NB_VERTICES && (p, v) != (q, w)
    ensures TexSlot(p, v) + 1 < TexSlot(q, w) || TexSlot(q, w) + 1 < TexSlot(p, v)
  {
    if p < q {
      MulMono(p + 1, q, 16641);
    } else if q < p {
      MulMono(q + 1, p, 16641);
    }
  }

  /** The six stores of one cell in BuildSphere's second nest. */
  method WriteCell(indices: array<u16>, lat: nat, lon: nat)
    requires indices.Length == NB_INDICES && lat < NB_LAT_BANDS && lon < NB_LON_BANDS
    modifies indices
    ensures forall r :: 0 <= r < 6 ==> indices[CellNumber(lat, lon) * 6 + r] == CellIndex(CellNumber(lat, lon), r)
    ensures forall k :: 0 <= k < NB_INDICES && !(CellNumber(lat, lon) * 6 <= k < CellNumber(lat, lon) * 6 + 6) ==>
              indices[k] == old(indices[k])
  {
    var first := (lat * 129) + lon;
    var second := first + NB_LON_BANDS + 1;

    var off := (lat * 128 + lon) * 3 * 2;
    CellSlots(lat, lon);

    indices[off] := first;
    indices[off + 1] := second;
    indices[off + 2] := first + 1;

    indices[off + 3] := second;
    indices[off + 4] := second + 1;
    indices[off + 5] := first + 1;
    forall r | 0 <= r < 6
      ensures indices[off + r] == CellIndex(CellNumber(lat, lon), r)
    {
      assert r == 0 || r == 1 || r == 2 || r == 3 || r == 4 || r == 5;
    }
  }

  /** The second loop nest of BuildSphere: six indices per cell. */
  method FillIndices(indices: array<u16>)
    requires indices.Length == NB_INDICES
    modifies indices
    ensures forall k :: 0 <= k < indices.Length ==> indices[k] == IndexAt(k)
  {
    var lat := 0;
    while lat < NB_LAT_BANDS
      invariant 0 <= lat <= NB_LAT_BANDS
      invariant forall k :: 0 <= k < CellNumber(lat, 0) * 6 ==> indices[k] == IndexAt(k)
    {
      var lon := 0;
      while lon < NB_LON_BANDS
        invariant 0 <= lon <= NB_LON_BANDS
        invariant forall k :: 0 <= k < CellNumber(lat, lon) * 6 ==> indices[k] == IndexAt(k)
      {
        WriteCell(indices, lat, lon);
        forall k | CellNumber(lat, lon) * 6 <= k < CellNumber(lat, lon) * 6 + 6
          ensures indices[k] == IndexAt(k)
        {
          SlotInCell(CellNumber(lat, lon), k);
        }
        lon := lon + 1;
      }
      lat := lat + 1;
    }
  }

  /**
   * The vertex buffer of the sphere holds, from 3 * VertexIndex(lat, lon)
   * on, the x, y and z of the point at latitude step lat and longitude step
   * lon.
   */
  lemma SphereVertexLayout(lat: nat, lon: nat, c: nat, nbPlanes: nat,
                           left: seq<real>, top: seq<real>, right: seq<real>,
                           bottom: seq<real>, ext: Externals)
    requires lat <= NB_LAT_BANDS && lon <= NB_LON_BANDS && c < 3
    requires nbPlanes <= |left| && nbPlanes <= |top| && nbPlanes <= |right| && nbPlanes <= |bottom|
    ensures 3 * VertexIndex(lat, lon) + c < |SphereMesh(nbPlanes, left, top, right, bottom, ext).vertexCoord|
    ensures SphereMesh(nbPlanes, left, top, right, bottom, ext).vertexCoord[3 * VertexIndex(lat, lon) + c]
            == Position(lat, lon, c, ext)
  {
    var v := VertexIndex(lat, lon);
    assert v / 129 == lat && v % 129 == lon;
    assert (3 * v + c) / 3 == v && (3 * v + c) % 3 == c;
  }

  /**
   * The texture buffer of the sphere holds, in the block of plane p and at
   * the pair of vertex (lat, lon), the fractions lon / 128 and lat / 128 of
   * that plane's sampling width and height.
   */
  lemma SphereTexCoordLayout(p: nat, lat: nat, lon: nat, c: nat, nbPlanes: nat,
                             left: seq<real>, top: seq<real>, right: seq<real>,
                             bottom: seq<real>, ext: Externals)
    requires p < nbPlanes && lat <= NB_LAT_BANDS && lon <= NB_LON_BANDS && c < 2
    requires nbPlanes <= |left| && nbPlanes <= |top| && nbPlanes <= |right| && nbPlanes <= |bottom|
    ensures TexSlot(p, VertexIndex(lat, lon)) + c < |SphereMesh(nbPlanes, left, top, right, bottom, ext).textureCoord|
    ensures SphereMesh(nbPlanes, left, top, right, bottom, ext).textureCoord[TexSlot(p, VertexIndex(lat, lon)) + c]
            == (if c == 0 then lon as real / 128.0 * (right[p] - left[p])
                else lat as real / 128.0 * (bottom[p] - top[p]))
  {
    var k := TexSlot(p, VertexIndex(lat, lon)) + c;
    TexCoordAtSlot(p, lat, lon, c, nbPlanes, left, top, right, bottom);
    var m := SphereMesh(nbPlanes, left, top, right, bottom, ext);
    assert m.textureCoord[k] == TexCoordAt(k, nbPlanes, left, top, right, bottom);
  }

  /** TexCoordAt decodes the slot of plane p at vertex (lat, lon). */
  lemma TexCoordAtSlot(p: nat, lat: nat, lon: nat, c: nat, nbPlanes: nat,
                       left: seq<real>, top: seq<real>, right: seq<real>, bottom: seq<real>)
    requires p < nbPlanes && lat <= NB_LAT_BANDS && lon <= NB_LON_BANDS && c < 2
    requires nbPlanes <= |left| && nbPlanes <= |top| && nbPlanes <= |right| && nbPlanes <= |bottom|
    ensures TexSlot(p, VertexIndex(lat, lon)) + c < 2 * 16641 * nbPlanes
    ensures TexCoordAt(TexSlot(p, VertexIndex(lat, lon)) + c, nbPlanes, left, top, right, bottom)
            == TexCoord(p, lat, lon, c, left, top, right, bottom)
  {
    var v := VertexIndex(lat, lon);
    var e := p * 16641 + v;
    MulMono(p + 1, nbPlanes, 16641);
    assert v / 129 == lat && v % 129 == lon;
    assert e / 16641 == p && e % 16641 == v;
    assert (2 * e + c) / 2 == e && (2 * e + c) % 2 == c;
  }

  /** Each entry of a sequence moved by d. */
  function Shift(s: seq<real>, d: real): (r: seq<real>)
    ensures |r| == |s| && forall i :: 0 <= i < |s| ==> r[i] == s[i] + d
  {
    seq(|s|, i requires 0 <= i < |s| => s[i] + d)
  }

  /**
   * The sphere's texture coordinates depend only on the width and height
   * of each plane's sampling rectangle, not on where it starts: a
   * rectangle moved by any offset yields the same mesh.
   */
  lemma SphereTexCoordsIgnoreOffset(nbPlanes: nat, left: seq<real>, top: seq<real>, right: seq<real>,
                                    bottom: seq<real>, dx: real, dy: real, ext: Externals)
    requires nbPlanes <= |left| && nbPlanes <= |top| && nbPlanes <= |right| && nbPlanes <= |bottom|
    ensures SphereMesh(nbPlanes, Shift(left, dx), Shift(top, dy), Shift(right, dx), Shift(bottom, dy), ext)
            == SphereMesh(nbPlanes, left, top, right, bottom, ext)
  {
    var l2, t2, r2, b2 := Shift(left, dx), Shift(top, dy), Shift(right, dx), Shift(bottom, dy);
    var moved := SphereMesh(nbPlanes, l2, t2, r2, b2, ext);
    var orig := SphereMesh(nbPlanes, left, top, right, bottom, ext);
    forall k | 0 <= k < 2 * 16641 * nbPlanes
      ensures moved.textureCoord[k] == orig.textureCoord[k]
    {
      var p := k / 2 / 16641;
      assert r2[p] - l2[p] == right[p] - left[p] && b2[p] - t2[p] == bottom[p] - top[p];
      assert TexCoordAt(k, nbPlanes, l2, t2, r2, b2) == TexCoordAt(k, nbPlanes, left, top, right, bottom);
    }
    assert moved.textureCoord == orig.textureCoord;
  }
}
