# A verified model of VLC's OpenGL video renderer

This project models the core of VLC's OpenGL video output,
`modules/video_output/opengl/renderer.c` (struct `vlc_gl_renderer`), in Dafny.
It covers the following.

- **Matrices.** The renderer keeps four 4x4 matrices in OpenGL's column-major
  layout:
  - the orientation matrix, fixed once from the picture's orientation;
  - the zoom translation;
  - the projection and view matrices of the 360° viewpoint.

  They are rebuilt from the viewpoint state by `getViewpointMatrixes`. In flat
  (rectangular) mode all three viewpoint matrices are the identity.
- **Meshes.** There are three builders:
  - `BuildRectangle`: a flat quad;
  - `BuildSphere`: a 128 x 128 band tessellation of the unit sphere, used for
    equirectangular video;
  - `BuildCube`: six faces, each sampling one cell of a 3 x 2 atlas shrunk by
    the cubemap padding.

  `SetupCoords` dispatches on the projection mode and uploads the result. It
  puts one texture-coordinate block per picture plane in that plane's buffer.
- **Sampling rectangle.** `vlc_gl_renderer_Draw` computes it per plane from
  the visible window of the source. The window's ends are added in unsigned
  32-bit arithmetic and scaled by the plane's `num / den / tex_size`.
- **Stereo crop.** It keeps only the left eye of a top-bottom or side-by-side
  picture.
- **Rebuild decision in Draw.** The mesh is rebuilt only when the visible
  window differs from the `last_source` snapshot. `calloc` zero-fills that
  snapshot at creation. The snapshot is updated only after a rebuild succeeds.
- **Viewpoint.** `SetViewpoint` accepts fields of view from 20 to 150 degrees.
  It reacts to a change of at least 0.001 radian. `UpdateZ` moves the camera
  back linearly between 90 degrees and the widest field of view.
- **Shaders.** The model covers the vertex shader text built by
  `BuildVertexShader`, and the uniform and attribute location checks of
  `opengl_link_program`.

Floats are modelled as reals. Several helpers have numerics the model does not
reproduce: the trigonometry, `getProjectionMatrix`, `vlc_viewpoint_reverse`,
`vlc_viewpoint_to_4x4` and `vlc_align_pot`. They are fields of the `Externals`
datatype, that is, arbitrary functions passed in.

Several outcomes are parameters of the operations that depend on them:
- each allocation succeeding or failing;
- each shader build succeeding or failing;
- each location lookup's answer;
- the interop's texture generation.

The GL buffers are fields of the renderer holding what was uploaded. The draw
calls issued are a sequence of the renderer.

Behaviour of the code worth knowing:
- **Rebuild trigger.** The multiview mode is not part of the rebuild
  comparison. It is fixed when the renderer is created, and Draw compares only
  the four window fields (lines 990-993).
- **Empty first window.** A fresh renderer's snapshot is all zero, so a first
  Draw whose window is all zero does not rebuild. It draws with no indices.
- **Equirectangular offset.** In equirectangular mode, the texture coordinates
  use only the width and height of each plane's rectangle, not its left and
  top (lines 604-607). `Sphere.SphereTexCoordsIgnoreOffset` states this.

Two header files supply constants and are not part of this model:
- `vlc_viewpoint.h` defines `FIELD_OF_VIEW_DEGREES_MIN` (20) and
  `FIELD_OF_VIEW_DEGREES_MAX` (150);
- `vlc_picture.h` defines `PICTURE_PLANE_MAX` (5).

The values used are VLC's.

## Model

| member | source | states |
|---|---|---|
| `Common.CopyInto` | modules/video_output/opengl/renderer.c:793 | memcpy of a table at an offset: the copied range holds the table and every other entry is unchanged |
| `Common.Flatten` | modules/video_output/opengl/renderer.c:795-806 | the texture buffer of n planes has n * size entries; entry k is entry k % size of plane k / size's block |
| `Common.CopyBlock` | modules/video_output/opengl/renderer.c:804-805 | copying plane p's block at offset p * size keeps the blocks of planes before p and puts block p in place |
| `Common.BlocksComplete` | modules/video_output/opengl/renderer.c:795-806 | once the plane loop has copied every block, the buffer is exactly the blocks one after the other |
| `Matrices.ZoomMatrix` | modules/video_output/opengl/renderer.c:54-65 | the identity except entry 14 = zoom; it moves every point by zoom along z and leaves x, y and w alone |
| `Matrices.ViewpointMatrices` | modules/video_output/opengl/renderer.c:84-104 | in equirectangular and cubemap mode: projection(sar, fovy), the zoom translation by z, and the view of the reversed viewpoint; in every other mode all three are the identity whatever the inputs |
| `Matrices.ZeroZoomIsIdentity` | modules/video_output/opengl/renderer.c:54-65 | a zoom of 0 is the identity |
| `Matrices.OrientationTable` | modules/video_output/opengl/renderer.c:106-170 | the matrix of each orientation: entries in {-1, 0, 1}; only the 2x2 part, the z sign and the x/y translation differ from the identity; it is the identity exactly for the normal orientation |
| `Matrices.GetOrientationTransformMatrix` | modules/video_output/opengl/renderer.c:106-170 | the 16 floats written for an orientation are its table matrix |
| `Matrices.Rotate90` | modules/video_output/opengl/renderer.c:121-127 | the quarter-turn case turns the identity into the 90° matrix |
| `Matrices.Rotate180` | modules/video_output/opengl/renderer.c:128-135 | the half-turn case turns the identity into the 180° matrix |
| `Matrices.Rotate270` | modules/video_output/opengl/renderer.c:136-142 | the three-quarter-turn case turns the identity into the 270° matrix |
| `Matrices.FlipHorizontally` | modules/video_output/opengl/renderer.c:143-146 | the horizontal flip case turns the identity into the mirror in x |
| `Matrices.FlipVertically` | modules/video_output/opengl/renderer.c:147-150 | the vertical flip case turns the identity into the mirror in y |
| `Matrices.Transpose` | modules/video_output/opengl/renderer.c:151-157 | the transposition case turns the identity into the axis swap |
| `Matrices.AntiTranspose` | modules/video_output/opengl/renderer.c:158-166 | the anti-transposition case turns the identity into the swap across the other diagonal |
| `Matrices.OrientTexCoord` | modules/video_output/opengl/renderer.c:106-170 | the orientation matrix applied to (u, v, 0, 1) gives (u', v', 0, 1) where (u', v') is the geometric flip, turn or swap of the orientation |
| `Matrices.OrientationActsAsReorient` | modules/video_output/opengl/renderer.c:106-170 | the same fact, orientation by orientation: each table matrix moves (u, v) as its flip, turn or swap |
| `Matrices.OrientationKeepsUnitSquare` | modules/video_output/opengl/renderer.c:106-170 | every orientation matrix maps the unit texture square into itself |
| `Matrices.Inverse` | modules/video_output/opengl/renderer.c:106-170 | every orientation has an inverse orientation: 90° and 270° undo each other, every flip and transposition undoes itself |
| `Matrices.CornerImages` | modules/video_output/opengl/renderer.c:106-170 | every orientation sends the four corners of the picture to four distinct corners |
| `Sphere.CellIndex` | modules/video_output/opengl/renderer.c:616-627 | every one of the six indices of a cell names a vertex of the sphere (below 129 * 129) |
| `Sphere.Position` | modules/video_output/opengl/renderer.c:580-597 | each coordinate of vertex (lat, lon) lies in [-radius, radius] wherever sin² + cos² = 1 holds at its two angles |
| `Sphere.VertexOnSphere` | modules/video_output/opengl/renderer.c:580-597 | under the same condition, x² + y² + z² = radius²: every vertex lies on the sphere |
| `Sphere.TexCoord` | modules/video_output/opengl/renderer.c:601-607 | for lon and lat within the 128 bands and an ordered rectangle, u lies in [0, width] and v in [0, height] of the plane's rectangle |
| `Sphere.IndexAt` | modules/video_output/opengl/renderer.c:614-629 | every entry of the index buffer names a vertex of the sphere |
| `Sphere.SphereMesh` | modules/video_output/opengl/renderer.c:550-632 | the sphere mesh has 16641 vertices and 98304 indices, buffers of those sizes for the planes, and no index out of range |
| `Sphere.CellSlots` | modules/video_output/opengl/renderer.c:614-627 | the six slots of cell (lat, lon) hold the triangles (first, second, first + 1) and (second, second + 1, first + 1) |
| `Sphere.SlotInCell` | modules/video_output/opengl/renderer.c:619 | index slot k belongs to cell k / 6 at position k % 6, so the cells' blocks of six tile the index buffer |
| `Sphere.BuildSphere` | modules/video_output/opengl/renderer.c:550-632 | if all three allocations succeed, the sphere mesh; if any fails, ENOMEM |
| `Sphere.FillVertices` | modules/video_output/opengl/renderer.c:579-612 | the first loop nest leaves every position and every plane's texture coordinate at the value of the mesh |
| `Sphere.FillBand` | modules/video_output/opengl/renderer.c:580-611 | one latitude band extends the filled prefix of both buffers by that band |
| `Sphere.FillPlanes` | modules/video_output/opengl/renderer.c:600-610 | the plane loop fills vertex (lat, lon)'s texture pair in every plane and keeps the earlier ones |
| `Sphere.WriteVertex` | modules/video_output/opengl/renderer.c:595-598 | the three stores at off1 put vertex (lat, lon)'s position in place and keep earlier vertices |
| `Sphere.WriteTexPair` | modules/video_output/opengl/renderer.c:602-609 | the two stores at off2 put plane p's (u, v) for vertex (lat, lon) in place and keep every earlier pair |
| `Sphere.TexSlotsApart` | modules/video_output/opengl/renderer.c:602-603 | the texture pairs of two different (plane, vertex) positions do not overlap |
| `Sphere.BeforeIndex` | modules/video_output/opengl/renderer.c:595 | a vertex earlier in the row-major walk has a smaller number |
| `Sphere.VerticesComplete` | modules/video_output/opengl/renderer.c:579-612 | once every band is filled, the vertex buffer equals the mesh's |
| `Sphere.TexCoordsComplete` | modules/video_output/opengl/renderer.c:579-612 | once every band is filled, the texture buffer equals the mesh's |
| `Sphere.WriteCell` | modules/video_output/opengl/renderer.c:616-627 | the six stores at off put cell (lat, lon)'s two triangles in place and change nothing else |
| `Sphere.FillIndices` | modules/video_output/opengl/renderer.c:614-629 | the second loop nest leaves every index at the mesh's value |
| `Sphere.SphereVertexLayout` | modules/video_output/opengl/renderer.c:579-598 | the vertex buffer holds at 3 * (lat * 129 + lon) the x, y and z of the point at latitude step lat and longitude step lon |
| `Sphere.SphereTexCoordLayout` | modules/video_output/opengl/renderer.c:600-610 | the texture buffer holds, in plane p's block at vertex (lat, lon), lon / 128 of the plane's width and lat / 128 of its height |
| `Sphere.TexCoordAtSlot` | modules/video_output/opengl/renderer.c:602-607 | the entry at off2 + c decodes back to plane p, vertex (lat, lon) and component c |
| `Sphere.SphereTexCoordsIgnoreOffset` | modules/video_output/opengl/renderer.c:604-607 | moving every plane's rectangle by any offset leaves the sphere mesh unchanged |
| `Cube.CubeCoords` | modules/video_output/opengl/renderer.c:662-692 | the position table has 24 * 3 entries |
| `Cube.CubeIndices` | modules/video_output/opengl/renderer.c:746-753 | the index table has 36 entries |
| `Cube.FacePlane` | modules/video_output/opengl/renderer.c:662-692 | each face lies in a plane x, y or z = ±1 |
| `Cube.FaceCoords` | modules/video_output/opengl/renderer.c:662-692 | each face's four vertices have coordinates ±1 and all lie in that face's plane |
| `Cube.FaceIndices` | modules/video_output/opengl/renderer.c:746-753 | the six indices of face f lie between 4 f and 4 f + 3 |
| `Cube.CubeFaceUsesItsVertices` | modules/video_output/opengl/renderer.c:746-753 | face f's indices name exactly its own four vertices, each at least once |
| `Cube.CubeIndicesInRange` | modules/video_output/opengl/renderer.c:746-753 | every index of the cube names one of its 24 vertices |
| `Cube.FaceCell` | modules/video_output/opengl/renderer.c:710-740 | each face samples a cell of the 3 x 2 atlas |
| `Cube.FaceCellsTileAtlas` | modules/video_output/opengl/renderer.c:710-740 | the six faces use the six cells, one each, and every cell is used |
| `Cube.Col` | modules/video_output/opengl/renderer.c:701-704 | column boundary i (0 to 3) is left + i thirds of the width, and lies within [left, left + width] for a non-negative width |
| `Cube.Row` | modules/video_output/opengl/renderer.c:706-708 | row boundary i (0 to 2) is top + i halves of the height, and lies within [top, top + height] for a non-negative height |
| `Cube.FaceTexCorners` | modules/video_output/opengl/renderer.c:710-740 | the four texture pairs of face f are the four corners of its atlas cell, each moved inwards by the padding |
| `Cube.CubeTexCoords` | modules/video_output/opengl/renderer.c:696-740 | the 48 entries of a plane are the six faces' tables, face f's at 8 f |
| `Cube.Axes` | modules/video_output/opengl/renderer.c:662-740 | each face has two in-plane axes, distinct from each other and from the face's own axis, each with a direction of ±1 |
| `Cube.CubeTexCoordsOriented` | modules/video_output/opengl/renderer.c:662-740 | vertex j of every face samples the padded corner of its cell that its position points to along the face's two in-plane axes, so no face is mirrored or turned within its cell |
| `Cube.FrontOriented` | modules/video_output/opengl/renderer.c:711-714 | the same for the front face, whose positions are at lines 663-666 |
| `Cube.BackOriented` | modules/video_output/opengl/renderer.c:716-719 | the same for the back face, whose positions are at lines 668-671 |
| `Cube.LeftOriented` | modules/video_output/opengl/renderer.c:721-724 | the same for the left face, whose positions are at lines 673-676 |
| `Cube.RightOriented` | modules/video_output/opengl/renderer.c:726-729 | the same for the right face, whose positions are at lines 678-681 |
| `Cube.BottomOriented` | modules/video_output/opengl/renderer.c:731-734 | the same for the bottom face, whose positions are at lines 683-686 |
| `Cube.TopOriented` | modules/video_output/opengl/renderer.c:736-739 | the same for the top face, whose positions are at lines 688-691 |
| `Cube.InsetCornersInside` | modules/video_output/opengl/renderer.c:701-740 | with an ordered rectangle and padding at most a half cell, the padded corners of every cell lie inside the rectangle |
| `Cube.CubeTexCoordsInsideRectangle` | modules/video_output/opengl/renderer.c:696-740 | under the same conditions every texture coordinate of the cube lies inside the plane's rectangle |
| `Cube.CubeCornerInside` | modules/video_output/opengl/renderer.c:710-740 | the same, for corner c of face f |
| `Cube.CubeMesh` | modules/video_output/opengl/renderer.c:635-758 | the cube mesh has 24 vertices and 36 indices, buffers of those sizes, and no index out of range |
| `Cube.CubePlaneBlocks` | modules/video_output/opengl/renderer.c:696-744 | plane p's block is the cube texture table of plane p's rectangle |
| `Cube.CubeMeshPlane` | modules/video_output/opengl/renderer.c:742-743 | entry c of plane p's block of the texture buffer is entry c of that plane's table |
| `Cube.BuildCube` | modules/video_output/opengl/renderer.c:635-758 | if all three allocations succeed, the cube mesh; if any fails, ENOMEM |
| `Rectangle.RectTexCoords` | modules/video_output/opengl/renderer.c:797-802 | vertex j's texture pair is the point of the plane's rectangle that its x and y map to: x = -1 to left, 1 to right, y = 1 to top, -1 to bottom |
| `Rectangle.RectangleGeometry` | modules/video_output/opengl/renderer.c:786-811 | every vertex is a corner of [-1, 1]² at depth -1, and both triangles turn counter-clockwise, each covering half the square |
| `Rectangle.RectPlaneBlocks` | modules/video_output/opengl/renderer.c:795-806 | plane p's block is the corners of plane p's rectangle |
| `Rectangle.RectMesh` | modules/video_output/opengl/renderer.c:760-816 | the quad has 4 vertices and 6 indices, buffers of those sizes, and no index out of range |
| `Rectangle.RectMeshMapsCorners` | modules/video_output/opengl/renderer.c:786-806 | in the mesh, vertex j of plane p samples the point of the plane's rectangle that the vertex's position maps to, so the picture is upright and unmirrored |
| `Rectangle.BuildRectangle` | modules/video_output/opengl/renderer.c:760-816 | if all three allocations succeed, the quad mesh; if any fails, ENOMEM |
| `Sampling.AddU32` | modules/video_output/opengl/renderer.c:1020-1021 | unsigned 32-bit addition: the sum, less 2^32 when it overflows |
| `Sampling.MulU32` | modules/video_output/opengl/renderer.c:431-434 | unsigned 32-bit multiplication: the product when it fits, never more than the product |
| `Sampling.Scale` | modules/video_output/opengl/renderer.c:1002-1005 | the scale of a plane is non-negative |
| `Sampling.ScaleInverts` | modules/video_output/opengl/renderer.c:1002-1005 | scale * den * tex_size == num |
| `Sampling.AxisSpan` | modules/video_output/opengl/renderer.c:1018-1021 | both edges are non-negative; without overflow the span is size * scale; with overflow the far edge is not past the near one |
| `Sampling.SamplingRect` | modules/video_output/opengl/renderer.c:1000-1022 | non-negative edges; without overflow the width and height are the visible size times the scale; with overflow the rectangle runs backwards |
| `Sampling.SamplingRectEdges` | modules/video_output/opengl/renderer.c:1018-1021 | each edge is the window's offset or wrapped end times the plane's scale |
| `Sampling.RightEdge` | modules/video_output/opengl/renderer.c:1020 | without overflow the right edge is (x + w) times the scale |
| `Sampling.SamplingRectFitsTexture` | modules/video_output/opengl/renderer.c:1000-1022 | without overflow the right edge is at most 1 exactly when (x + w) * num <= tex_width * den |
| `Sampling.CropRect` | modules/video_output/opengl/renderer.c:936-945 | the near edge moves by offset times the extent, and the far edge lies coef times the extent past the moved near edge |
| `Sampling.StereoCrop` | modules/video_output/opengl/renderer.c:948-978 | top-bottom keeps the top half, side-by-side keeps the left half, every other mode keeps the rectangle |
| `Sampling.StereoCropInside` | modules/video_output/opengl/renderer.c:948-978 | the kept eye is an ordered rectangle inside the original, with the same top-left corner |
| `Sampling.StereoCropsCommute` | modules/video_output/opengl/renderer.c:948-978 | cropping top-bottom then side-by-side gives the same quarter as the other order |
| `Sampling.GetTextureCropParamsForStereo` | modules/video_output/opengl/renderer.c:930-946 | the first n rectangles become their crops, computed from the already moved near edge; entries from n on are unchanged |
| `Sampling.TextureCropForStereo` | modules/video_output/opengl/renderer.c:948-978 | the first n rectangles become their stereo crop for the mode; entries from n on are unchanged |
| `Shader.Text` | modules/video_output/opengl/renderer.c:178-203 | every statement ends with a newline except the closing brace of main, which ends with '}' |
| `Shader.SourceText` | modules/video_output/opengl/renderer.c:178-207 | the text has at least one character per statement |
| `Shader.SourceTextConcat` | modules/video_output/opengl/renderer.c:178-207 | the text of two runs of statements is the text of the first followed by the text of the second |
| `Shader.SourceTextEnds` | modules/video_output/opengl/renderer.c:178-207 | the text ends as its last statement does: with '}' after the closing brace of main, with a newline otherwise |
| `Shader.VertexShaderText` | modules/video_output/opengl/renderer.c:178-207 | the shader text starts with "#version ", the version's digits and a newline, and ends with the closing brace, with no newline after it |
| `Shader.DecimalDigits` | modules/video_output/opengl/renderer.c:206-207 | the %u conversion yields at least one digit, only digits, and the single digit of n for n below 10 |
| `Shader.VertexShader` | modules/video_output/opengl/renderer.c:172-218 | the shader starts with the #version line and ends with the closing brace of main |
| `Shader.MainFunction` | modules/video_output/opengl/renderer.c:189-194 | main() declares no attribute |
| `Shader.VertexShaderPlanes` | modules/video_output/opengl/renderer.c:178-203 | the shader has 13 statements plus 3 per extra plane; every plane coordinate it mentions is carried, and every carried plane is declared as varying and attribute and is assigned |
| `Shader.ShaderPlanesDeclared` | modules/video_output/opengl/renderer.c:196-203 | every carried plane (0, and 1 and 2 when present) is declared both ways and assigned |
| `Shader.ShaderPlaneBound` | modules/video_output/opengl/renderer.c:196-203 | every plane a statement mentions is below max(1, min(plane_count, 3)) |
| `Shader.VertexShaderAttributes` | modules/video_output/opengl/renderer.c:178-203 | the shader declares the coordinate attributes of planes 0, 1, 2 in that order, each only when the picture has the plane |
| `Shader.DeclarationAttributes` | modules/video_output/opengl/renderer.c:179-188 | the declaration part declares those attributes in that order |
| `Shader.CoordDeclarationAttributes` | modules/video_output/opengl/renderer.c:196-201 | the coordinate headers declare the attributes of planes 0, 1 and 2 as present |
| `Shader.UniformsDeclareNoAttribute` | modules/video_output/opengl/renderer.c:183-188 | the position and uniform declarations declare no coordinate attribute |
| `Shader.CoordHeaderAttributes` | modules/video_output/opengl/renderer.c:196-201 | the header of plane i declares the attribute of plane i only |
| `Shader.LinkProgram` | modules/video_output/opengl/renderer.c:220-341 | success exactly when both shaders built, a logged link succeeded, all five uniforms and the required attributes were found, and the converter's locations were fetched; failure is EGENERIC; on success the locations are those reported (`LocatedBy`), and plane i's attribute is -1 exactly when the shader does not carry plane i |
| `Shader.RequiredAttributesAreDeclared` | modules/video_output/opengl/renderer.c:313-323 | the attributes linking requires are VertexPosition followed by exactly the coordinate attributes the vertex shader declares, in order |
| `Renderer.RadiansInRange` | modules/video_output/opengl/renderer.c:504-509 | an accepted field of view in degrees is within the accepted range in radians |
| `Renderer.ZoomDistance` | modules/video_output/opengl/renderer.c:481-492 | up to 90° the camera stays at 0; past it, it is never closer than z_min allows |
| `Renderer.ZoomDistanceBounds` | modules/video_output/opengl/renderer.c:481-492 | for accepted fields of view, z stays between z_min and 0 and equals z_min at 150° |
| `Renderer.ZoomDistanceMonotone` | modules/video_output/opengl/renderer.c:484-492 | a wider field of view never brings the camera closer |
| `Renderer.NeedsRebuild` | modules/video_output/opengl/renderer.c:990-993 | Draw rebuilds exactly when the snapshot differs from the source window in some field |
| `Renderer.MeshFor` | modules/video_output/opengl/renderer.c:829-855 | a mesh exactly for the rectangular, equirectangular and standard cubemap modes, well formed for the plane count |
| `Renderer.BuildMesh` | modules/video_output/opengl/renderer.c:829-858 | EGENERIC for an unhandled mode, ENOMEM when an allocation fails, otherwise the mode's mesh |
| `Renderer.Quotient` | modules/video_output/opengl/renderer.c:431-434 | unsigned division rounds down: q * d <= n < q * d + d |
| `Renderer.TextureSize` | modules/video_output/opengl/renderer.c:429-442 | with non-power-of-two support, the floor of the wrapped product visible * num over den (the exact floor without overflow); without it, vlc_align_pot of that floor |
| `Renderer.PlaneSlice` | modules/video_output/opengl/renderer.c:860-865 | plane j's buffer receives 2 * nbVertices floats, starting at j * nbVertices * 2 |
| `Renderer.RectanglePlaneSlice` | modules/video_output/opengl/renderer.c:860-865 | in rectangle mode, plane j's buffer receives exactly plane j's four corner pairs |
| `Renderer.CubePlaneSlice` | modules/video_output/opengl/renderer.c:860-865 | in cubemap mode, plane j's buffer receives exactly plane j's table of six faces |
| `Renderer.ScaledEdges` | modules/video_output/opengl/renderer.c:1002-1021 | the four edges computed for a plane are its sampling rectangle |
| `Renderer.GlRenderer.Edges` | modules/video_output/opengl/renderer.c:994-1024 | one entry per plane, and plane j's edges are its sampling rectangle after the stereo crop |
| `Renderer.GlRenderer.PaddingW` | modules/video_output/opengl/renderer.c:846 | the padding as a fraction of the picture width: non-negative, and times the width it gives back the padding |
| `Renderer.GlRenderer.PaddingH` | modules/video_output/opengl/renderer.c:847 | the same for the height |
| `Renderer.GlRenderer.constructor` | modules/video_output/opengl/renderer.c:374-427 | the zero-filled state: all-zero snapshot, no indices, zero fields of view, z, aspect ratio and viewpoint; the interop's projection and multiview modes, picture width, height and cubemap padding, plane count and ratios; the given texture sizes, orientation matrix and locations; consistent viewpoint matrices |
| `Renderer.GlRenderer.New` | modules/video_output/opengl/renderer.c:369-469 | a renderer exactly when linking succeeds and the textures are generated (or the interop generates them); it starts valid and zero-filled, with the interop's modes, picture size, padding, plane count and ratios, the orientation's table matrix, each plane's texture size, and the locations the driver reported, plane i's being -1 when the shader does not carry plane i |
| `Renderer.GlRenderer.TextureSizes` | modules/video_output/opengl/renderer.c:429-442 | one width and one height per plane, each the plane's texture size |
| `Renderer.GlRenderer.GetViewpointMatrixes` | modules/video_output/opengl/renderer.c:84-104 | the three matrices become those of the current viewpoint state |
| `Renderer.GlRenderer.UpdateZ` | modules/video_output/opengl/renderer.c:471-493 | z becomes the zoom distance of the current fields of view |
| `Renderer.GlRenderer.UpdateFovY` | modules/video_output/opengl/renderer.c:495-498 | fovy becomes the vertical field of view for fovx and the aspect ratio |
| `Renderer.GlRenderer.SetViewpoint` | modules/video_output/opengl/renderer.c:500-524 | EBADVAR exactly for a field of view outside [20, 150], changing nothing; otherwise the reversed viewpoint is stored and the field of view is taken only when it moved by at least 0.001 rad, so it ends within 0.001 rad of the request; the state stays consistent |
| `Renderer.GlRenderer.TakeViewpoint` | modules/video_output/opengl/renderer.c:508-523 | the accepted path: the reversed viewpoint, the epsilon-gated field of view, and consistent matrices |
| `Renderer.GlRenderer.SetWindowAspectRatio` | modules/video_output/opengl/renderer.c:526-537 | the new aspect ratio and the matching vertical field of view, with z and the matrices consistent |
| `Renderer.GlRenderer.Upload` | modules/video_output/opengl/renderer.c:860-879 | plane j's buffer holds plane j's block of texture coordinates, and the vertex and index buffers hold the mesh's |
| `Renderer.GlRenderer.SetupCoords` | modules/video_output/opengl/renderer.c:818-882 | EGENERIC for an unhandled mode and ENOMEM for a failed allocation, both with nothing changed; otherwise the mode's mesh is uploaded |
| `Renderer.GlRenderer.DrawWithShaders` | modules/video_output/opengl/renderer.c:884-927 | one draw call is appended, with plane j's coordinate attribute enabled for each plane (none of them -1), the position attribute, the index count, the interop's transform (the identity when it has none) and the four other matrices |
| `Renderer.GlRenderer.ScaledRects` | modules/video_output/opengl/renderer.c:994-1022 | four fresh arrays of PICTURE_PLANE_MAX entries, with plane j's sampling rectangle at j |
| `Renderer.GlRenderer.SamplingEdges` | modules/video_output/opengl/renderer.c:994-1024 | the edges handed to SetupCoords are each plane's sampling rectangle after the stereo crop |
| `Renderer.GlRenderer.Rebuild` | modules/video_output/opengl/renderer.c:994-1032 | the outcome of SetupCoords for the window's edges; the snapshot becomes the window only on success |
| `Renderer.GlRenderer.Draw` | modules/video_output/opengl/renderer.c:980-1037 | an unchanged window keeps the buffers; a changed one rebuilds and returns the rebuild's error with nothing changed and nothing drawn; on success the snapshot is the window and exactly one draw call is appended; the state stays consistent |

## Left out

- GL calls: these are left out because they are effects on the driver. The model drops the clears, program use, texture binding, buffer generation and deletion, and the GL state set at the end of `vlc_gl_renderer_New`. Uploads and draw calls are modelled only as renderer fields.
- Helpers with real numerics: sincosf, tanf/atanf/sinf/sqrtf, `getProjectionMatrix`, `vlc_viewpoint_reverse`, `vlc_viewpoint_to_4x4` and `vlc_align_pot` are uninterpreted functions. Only where their results are used is modelled.
- Single-precision floats are modelled as exact reals. The model does not capture rounding, infinities or NaN. For example, a NaN field of view passes the range check of SetViewpoint in C.
- `vlc_gl_renderer_Prepare` and `vlc_gl_renderer_Delete` are left out: they only forward to the interop or release GL objects.
- The libplacebo context, the GLSL version choice, the precision header, shader dumping, and the info logs of the shader and program (msg_Err) are left out. They are logging or build configuration.
- `vlc_gl_interop_New` and the interop's own code (fragment shader, converter locations, texture generation, transform matrix) are not part of this model. The interop is a parameter. The success of those steps, and the transform matrix of each draw, are inputs.
- Renderer.GlRenderer.New does not model the failure of `calloc` or of `vlc_gl_interop_New`, because the interop is given. Its `fmt` argument only restores the orientation field of the copied format, which the model does not keep.
- Renderer.GlRenderer.New requires an interop with one to three planes, non-zero denominators and, for the cubemap layout, a non-empty picture. The C code assumes these without checking: it has three attribute slots, divides by the denominators, and divides the padding by the picture size.
- Renderer.GlRenderer.TextureSizes does not model the conversion of texture sizes to GLsizei (a signed int). A size above 2^31 - 1 is kept as the natural number.
- Renderer.GlRenderer.Draw requires every texture size to be positive. The C code would divide by a zero size and compute infinite float scales.
- Renderer.GlRenderer.DrawWithShaders does not model `pf_prepare_shader`, texture binding or the `textures[j] != 0` assertion. The attribute-location assertion is its ensures that no enabled attribute is -1.
- Rectangle.RectangleGeometry states the winding of the flat quad only. The winding of the cube's faces is not stated, because it depends on the face's side and the culling convention.
- Shader.SourceText states a length bound; how the text ends is `Shader.SourceTextEnds` and how it begins is `Shader.VertexShaderText`. The exact characters are those `Shader.Text` gives statement by statement; they are not restated as one string.
- Renderer.PlaneSlice states only the length of plane j's part. Its contents are stated per mode by `Renderer.RectanglePlaneSlice` and `Renderer.CubePlaneSlice`, and for the sphere by `Sphere.SphereTexCoordLayout`.
- Sphere.SphereMesh uses the `Externals` sine and cosine, so the positions are only as exact as those functions.
- Shader.LinkProgram returns EGENERIC when a location is -1. Debug builds of VLC abort instead, at `assert(x != -1)` (line 299) and at the assertion after the converter's location fetch (line 328). The model follows release builds.
- Renderer.GlRenderer.PaddingW and Renderer.GlRenderer.PaddingH give 0 for a zero width or height, where the C code would divide by zero. Only the cubemap mode uses them, and the renderer's invariant requires a non-empty picture in that mode.
- Sphere.Position bounds the coordinates only where the external sine and cosine satisfy sin² + cos² = 1, since those functions are uninterpreted.
