# Meshes: a verified model of the mesh importer and the frame protocol

The Meshes program is a small OpenGL/GLUT demo. It loads polygon meshes from a
Wavefront-style text format (`v`, `vn`, `vt`, `f`, `g` and `#` lines), builds a scene
of objects (an avatar, a tree and the ground), draws each frame as shadow passes, then
shaded passes, then an environment backdrop, and moves the avatar from a 256-entry
keyboard table.

This Dafny project models the parts of `Meshes/main.cpp` whose behaviour can be stated
exactly:

- **The `PolygonalMesh` constructor.** It parses the lines into three vertex lists and
  into submeshes separated by `g` lines. It counts the triangles (2 per quad, 1 per
  triangle face). It then fills three flat buffers triangle by triangle:
  - positions, 9 floats per triangle;
  - texture coordinates, 6 floats per triangle, with V flipped to `1 - v`;
  - normals, 9 floats per triangle.

  A quad (a, b, c, d) becomes the triangles (a, b, c) and (b, c, d). Face indices are
  1-based.
  - `mesh_rows.dfy` (module `MeshRows`) specifies the per-line classifier and the
    parse as functions.
  - `mesh_soup.dfy` (module `MeshSoup`) specifies the face-to-triangle expansion and
    the flat buffers as functions.
  - `polygonal_mesh.dfy` (module `PolygonalMeshes`) holds the class `PolygonalMesh`,
    whose constructor runs the parse loop, the counting loop and the array-filling
    loop. Each is proved against those functions.
- **The frame protocol.** `render_trace.dfy` (module `RenderTrace`) describes, as a
  trace of requests, what each draw asks of the graphics API:
  - `Material::UploadAttributes`;
  - `Object::Draw` and `Object::DrawShadow`;
  - the whole of `Scene::Draw`.

  `scene.dfy` (module `Scenes`) holds the classes `Light`, `Keyboard`, `Object` and
  `Scene`. Their methods mutate the light, the key table and the object poses, and
  each is proved to produce exactly that trace.
- **Movement.** `movement.dfy` (module `Movement`) specifies `AvatarObject::Move`. The
  cosine and sine of the heading are an input.
- **Vectors.** `vectors.dfy` (module `Vectors`) holds `vec2`, `vec3` and `vec4` over
  `real`.
- **Wrappers.** `wrappers.dfy` holds `Option` and `Result`.

### How the model treats lines and errors

- **Lines.** A line arrives as a `Row`: its text, plus the numbers that the `sscanf`
  conversions of its format read from it.
- **The parsing and flattening code has no error path, so the model reports errors
  where that code has undefined behaviour.** There are two such cases:
  - A `v`, `vn` or `vt` line with fewer numbers than its format reads. The source
    would store its uninitialised float locals. The model gives `MalformedRow(line)`.
  - A face index outside `1..length` of the list it refers to. The source reads out of
    bounds while flattening. The model gives `IndexOutOfRange`.

  After either error the mesh holds zero triangles. `ImportFailures` and
  `ParseFailsAtFirstMalformedRow` characterise both errors exactly.
- **Short face lines.** An `f` line with fewer integers than its format reads is
  not an error when it is parsed. `new Face()` zero-initialises the indices, so the
  ones `sscanf` does not reach stay 0. The face is stored, and flattening then looks
  up index 0 − 1. The model keeps the face with its zero indices (`IntAt`), and the
  import fails with `IndexOutOfRange` (`ShortFaceLineFailsImport`).

### Where the model follows the code rather than the description of it

- **The light is never restored.** `Object::DrawShadow` overwrites the global light
  with the overhead point light (0, 100, 0, 1) and never puts it back. In a scene with
  at least two objects, every shaded draw after the shadow loop therefore uploads the
  overhead light, not the configured one. `ThreeObjectFrame` states this for the
  three-object scene.
- **Material uploads during a shadow draw.** A shadow draw still calls `Mesh::Draw`,
  whose material uploads go through the material's own shader, not the shadow shader.
  The trace records this.
- **Face lines.** Any line starting with `f` is a face. Exactly three spaces select
  the triangle format; every other count selects the quad format.

## Model

| member | source | states |
|---|---|---|
| MeshRows.Classify | Meshes/main.cpp:320-364 | the if/else-if chain on the first characters: a line is skipped exactly when it is empty or starts with `#`; face, group and vertex kinds start with `f`, `g` and `v` |
| MeshRows.ScanFace | Meshes/main.cpp:340-362 | the face is a quad exactly when the space count is not 3; a line short of integers leaves some index 0 |
| MeshRows.ShortFaceHasZeroIndex | Meshes/main.cpp:344-360 | the first integer a short face line lacks lands in some corner as 0 |
| MeshRows.ApplyRow | Meshes/main.cpp:320-371 | one line's effect: only a short `v`, `vn` or `vt` line fails, with its line number; no vertex list ever shrinks |
| MeshRows.ParseRows | Meshes/main.cpp:318-372 | the parse of all lines: an error names a line of the file, and each line adds at most one vertex record |
| MeshRows.SkippedRowsChangeNothing | Meshes/main.cpp:320-321 | blank, `#` and unrecognised lines leave the state unchanged |
| MeshRows.PositionRowAppendsOnePosition | Meshes/main.cpp:322-327 | a `v ` line appends exactly one position and changes nothing else |
| MeshRows.NormalRowAppendsOneNormal | Meshes/main.cpp:328-333 | a `vn` line appends exactly one normal and changes nothing else |
| MeshRows.TexcoordRowAppendsOneTexcoord | Meshes/main.cpp:334-339 | a `vt` line appends exactly one texture coordinate and changes nothing else |
| MeshRows.FaceRowAppendsToCurrentSubmesh | Meshes/main.cpp:340-362 | an `f` line appends one face to the current submesh: a triangle of the first 3 triplets when it has 3 spaces, otherwise a quad of the first 4 |
| MeshRows.GroupRowOpensSubmeshOnlyAfterFaces | Meshes/main.cpp:364-371 | a `g` line adds a submesh exactly when the current one holds a face, and moves no face |
| MeshRows.ConsecutiveGroupRowsCollapse | Meshes/main.cpp:364-371 | two `g` lines in a row act as one, so no empty submesh is created |
| MeshRows.RowFailsIffUnscannable | Meshes/main.cpp:322-339 | a line fails exactly when it is a vertex record with fewer numbers than its format reads, and the error names that line |
| MeshRows.ParseFailsAtFirstMalformedRow | Meshes/main.cpp:318-372 | parsing succeeds exactly when every vertex line is complete; otherwise the error names the first incomplete line |
| MeshRows.ParseErrorPersists | Meshes/main.cpp:318-372 | once a prefix fails, the whole file fails with the same error |
| MeshRows.ParsedSubmeshesNonEmpty | Meshes/main.cpp:364-371 | every submesh before the current one holds at least one face |
| MeshRows.ParsedFacesInFileOrder | Meshes/main.cpp:315-372 | the submeshes, concatenated, are exactly the faces of the `f` lines in file order |
| MeshRows.FaceRowInFacesOf | Meshes/main.cpp:340-362 | the face of every `f` line, complete or short, is among the faces of the file |
| MeshRows.ParsedVertexCounts | Meshes/main.cpp:322-339 | each vertex list has one entry per line of its kind |
| MeshSoup.FaceTriangles | Meshes/main.cpp:400-514 | a face yields as many triangles as the counting loop adds for it (2 for a quad, 1 otherwise) |
| MeshSoup.FacesSoup | Meshes/main.cpp:398-515 | definition of the triangles of one submesh's faces, face after face; its properties are in `FacesSoupLength`, `FacesSoupAppend`, `FaceTrianglesInSoup` and `QuadSplitsIntoConsecutiveTriangles` |
| MeshSoup.Soup | Meshes/main.cpp:394-516 | definition of the triangles of all submeshes in order; its properties are in `SoupLength`, `SoupIgnoresGrouping` and `ImportedTriangle` |
| MeshSoup.TriangleCount | Meshes/main.cpp:374-386 | definition of `numberOfTriangles`; its properties are in `SoupLength` and `ImportedBufferLengths` |
| MeshSoup.FlatPositions | Meshes/main.cpp:412-422 | the position buffer of a triangle list has 9 floats per triangle; its contents are in `FlatBuffersAt` |
| MeshSoup.FlatTexcoords | Meshes/main.cpp:402-409 | the texture buffer of a triangle list has 6 floats per triangle; its contents are in `FlatBuffersAt` and `FlatTexcoordsFlipV` |
| MeshSoup.FlatNormals | Meshes/main.cpp:424-434 | the normal buffer of a triangle list has 9 floats per triangle; its contents are in `FlatBuffersAt` |
| MeshSoup.ConcatInRange | Meshes/main.cpp:394-516 | when every face of every submesh is in range, so is every face of their concatenation |
| MeshSoup.ZeroIndexOutOfRange | Meshes/main.cpp:412 | a face with an index 0 is out of range of any vertex lists, since every index is decremented before the lookup |
| MeshSoup.FacesSoupLength | Meshes/main.cpp:374-386 | the triangles of a face list number the count of 2 per quad and 1 per triangle |
| MeshSoup.SoupLength | Meshes/main.cpp:374-386 | the triangle soup has exactly `numberOfTriangles` triangles |
| MeshSoup.FacesSoupAppend | Meshes/main.cpp:398-515 | the soup of two face lists is the first soup followed by the second |
| MeshSoup.SoupIgnoresGrouping | Meshes/main.cpp:394-516 | submesh boundaries leave no trace: the soup is that of all faces in order |
| MeshSoup.FaceTrianglesInSoup | Meshes/main.cpp:398-515 | face `j`'s triangles come right after those of the faces before it, all together |
| MeshSoup.QuadSplitsIntoConsecutiveTriangles | Meshes/main.cpp:400-513 | a quad (a,b,c,d) becomes the consecutive triangles (a,b,c) then (b,c,d); a triangle face becomes (a,b,c) |
| MeshSoup.FacesSoupInRange | Meshes/main.cpp:412-512 | when every face index is in range, so is every triangle corner of the soup |
| MeshSoup.SoupInRange | Meshes/main.cpp:412-512 | when every face index of every submesh is in range, so is every triangle corner of the soup |
| MeshSoup.FlatBuffersAt | Meshes/main.cpp:400-514 | triangle `t` owns position and normal slots 9t..9t+9 and texture slots 6t..6t+6, which hold its corners' data |
| MeshSoup.FlatTexcoordsFlipV | Meshes/main.cpp:402-409 | each texture coordinate of triangle `t` is `(u, 1 - v)` of the `vt` record its corner names |
| MeshSoup.TexcoordsFlipV | Meshes/main.cpp:402-409 | the six texture floats of a triangle are `(u, 1 - v)` of each corner's record |
| MeshSoup.FlippedExample | Meshes/main.cpp:402-403 | `vt 0.2 0.3` is stored as `(0.2, 0.7)` |
| PolygonalMeshes.Import | Meshes/main.cpp:300-516 | a successful import yields buffers of `nTriangles * 9`, `* 6` and `* 9` floats |
| PolygonalMeshes.Triangulate | Meshes/main.cpp:374-516 | flattening fails exactly when a face index is out of range, with `IndexOutOfRange`; otherwise the buffer lengths are 9, 6 and 9 per triangle |
| PolygonalMeshes.PolygonalMesh.constructor | Meshes/main.cpp:300-541 | after construction the uploaded buffers are those `Import` describes, or the mesh is empty and records the import error; the fields hold the parsed lists and submeshes |
| PolygonalMeshes.PolygonalMesh.Upload | Meshes/main.cpp:374-536 | counts, flattens and uploads the parsed faces, or leaves the mesh empty on an index out of range; the parsed lists are kept |
| PolygonalMeshes.PolygonalMesh.ReadRows | Meshes/main.cpp:318-372 | the parse loop leaves the fields equal to the parse of all lines, or records the first line's error |
| PolygonalMeshes.PolygonalMesh.ReadRow | Meshes/main.cpp:320-371 | one pass of the parse loop changes the fields exactly as that line's effect on the importer state |
| PolygonalMeshes.TriangulateFaces | Meshes/main.cpp:374-516 | the count-and-flatten work returns exactly the `Triangulate` result |
| PolygonalMeshes.CountTriangles | Meshes/main.cpp:374-386 | the counting loop yields 2 per quad and 1 per triangle face over all submeshes |
| PolygonalMeshes.Flatten | Meshes/main.cpp:388-516 | buffers of exactly `nTriangles * 9`, `* 6` and `* 9` slots, all written, holding the flattened soup of all faces |
| PolygonalMeshes.FlattenSubmesh | Meshes/main.cpp:398-515 | the inner loop advances `triangleIndex` by the submesh's triangle count and appends that submesh's soup to the buffers |
| PolygonalMeshes.StoreFace | Meshes/main.cpp:400-514 | one face advances `triangleIndex` by 1 or 2 and appends its triangles to the buffers |
| PolygonalMeshes.AppendTriangle | Meshes/main.cpp:401-437 | writing one triangle after the written prefix extends all three buffers by exactly that triangle |
| PolygonalMeshes.StoreTriangle | Meshes/main.cpp:401-437 | the 24 stores of one triangle append its 9 position, 6 flipped texture and 9 normal floats |
| PolygonalMeshes.StoreVec3 | Meshes/main.cpp:412-414 | three stores append x, y, z at the offset and leave the prefix unchanged |
| PolygonalMeshes.StoreTexcoord | Meshes/main.cpp:402-403 | two stores append `u` and `1 - v` at the offset and leave the prefix unchanged |
| PolygonalMeshes.ImportedBufferLengths | Meshes/main.cpp:374-390 | buffer lengths are 9, 6 and 9 per triangle, and the count is 2 per quad and 1 per triangle over all faces of the file |
| PolygonalMeshes.ImportedTriangle | Meshes/main.cpp:394-516 | triangle `t` of the buffers is triangle `t` of the file's faces in order, with its corners' data |
| PolygonalMeshes.ImportFailures | Meshes/main.cpp:318-412 | import fails on a line exactly when some vertex line is incomplete, and on an index exactly when the lines parse but a face refers outside a list |
| PolygonalMeshes.ShortFaceLineFailsImport | Meshes/main.cpp:340-412 | an `f` line short of integers makes the import fail, on `IndexOutOfRange` once the vertex lines all scan |
| RenderTrace.PointLight | Meshes/main.cpp:1222-1224 | a point light has `w == 1` and keeps the position |
| RenderTrace.DirectionalLight | Meshes/main.cpp:1226-1228 | a directional light has `w == 0` and keeps the direction |
| RenderTrace.LightKindsDisjoint | Meshes/main.cpp:1222-1228 | no point light equals a directional light, and the point-light encoding is injective |
| RenderTrace.ShadowLight | Meshes/main.cpp:1445-1446 | a shadow draw keeps the colours and makes the light a point light at (0, 100, 0) |
| RenderTrace.MaterialCalls | Meshes/main.cpp:1190-1205 | definition of the material uploads; its properties are in `MaterialUploads` |
| RenderTrace.MaterialUploads | Meshes/main.cpp:1190-1205 | with a texture the calls start with its sampler, the texture and the coefficients, in that order, and without one none of them appears; with an environment map they end with the cube sampler, the cube map and indicator 1, and without one neither cube call appears and the one indicator, last, is 0 |
| RenderTrace.TransformCalls | Meshes/main.cpp:1425-1427 | the transform hook uploads nothing for the base class, and otherwise exactly one upload of the object's own pose through the given shader |
| RenderTrace.ObjectCalls | Meshes/main.cpp:1430-1453 | definition of one object draw through a given program; its properties are in `ObjectDrawShape` |
| RenderTrace.ObjectDrawShape | Meshes/main.cpp:1430-1437 | an object draw runs its program first and draws its geometry last, with no other switch or draw; it uploads only the given light; an avatar or background object uploads its own pose through that program right after the switch, a base-class object no transform |
| RenderTrace.ShadeCalls | Meshes/main.cpp:1430-1437 | definition of `Object::Draw` as an object draw through the material's shader; its properties are in `ObjectDrawShape` |
| RenderTrace.ShadowCalls | Meshes/main.cpp:1439-1453 | definition of `Object::DrawShadow` as an object draw through the shadow shader under the overhead light; its properties are in `ShadowDrawUploadsOverheadLight` |
| RenderTrace.ShadowDrawUploadsOverheadLight | Meshes/main.cpp:1439-1453 | a shadow draw runs the shadow program and uploads only the overhead point light |
| RenderTrace.ShadowLoopBound | Meshes/main.cpp:1712 | the shadow loop bound as written: `n - 1` for a non-empty list, 2^64 - 1 for an empty one |
| RenderTrace.EmptySceneShadowLoopOverruns | Meshes/main.cpp:1712-1713 | for an empty list the loop as written enters its body and reads `objects[0]` |
| RenderTrace.ShadowCasters | Meshes/main.cpp:1710-1714 | the number of shadow casters is all objects but the last (the ground), and none when there is no object |
| RenderTrace.ShadowLoopBoundWhenNonEmpty | Meshes/main.cpp:1712 | the corrected bound agrees with the written one on every non-empty list |
| RenderTrace.ShadowPasses | Meshes/main.cpp:1712-1714 | the shadow loop makes one pass per caster |
| RenderTrace.ShadedPasses | Meshes/main.cpp:1715-1717 | the shading loop makes one pass per object |
| RenderTrace.LightAfterShadows | Meshes/main.cpp:1712-1714 | after the shadow loop, the light is the overhead light if at least two objects exist, and unchanged otherwise |
| RenderTrace.FrameTrace | Meshes/main.cpp:1708-1719 | a frame has casters + objects + 1 passes, and the environment is last |
| RenderTrace.ShadowPassAt | Meshes/main.cpp:1712-1714 | pass `i` of the shadow loop is object `i`'s shadow draw |
| RenderTrace.ShadedPassAt | Meshes/main.cpp:1715-1717 | pass `i` of the shading loop is object `i`'s shaded draw |
| RenderTrace.FrameOrder | Meshes/main.cpp:1708-1719 | position by position: shadows of objects 0..n-2, shaded draws of 0..n-1 under the light the shadows left, then the environment |
| RenderTrace.PhasesInOrder | Meshes/main.cpp:1708-1719 | every shadow pass precedes every shaded pass, and only the last pass is the environment |
| RenderTrace.GroundCastsNoShadow | Meshes/main.cpp:1710-1717 | the last object casts no shadow but is shaded; every other object casts exactly one shadow |
| RenderTrace.ThreeObjectFrame | Meshes/main.cpp:1708-1719 | the three-object frame, written out: two shadows, three shaded draws under the overhead light, the environment |
| RenderTrace.SingleObjectFrame | Meshes/main.cpp:1708-1719 | with one object there is no shadow and the shaded draw sees the original light |
| Movement.ControlsOf | Meshes/main.cpp:1531-1542 | the avatar reads exactly the `w`, `s`, `a` and `d` entries of the key table |
| Movement.AvatarStep | Meshes/main.cpp:1529-1545 | `w` steps back along the heading, `s` forward, both cancel; `a`/`d` turn by 50 degrees per second; height and scale never change |
| Movement.ForwardThenBackReturns | Meshes/main.cpp:1531-1538 | a `w` step followed by an `s` step of the same length returns to the start |
| Movement.MovedView | Meshes/main.cpp:1428 | only an avatar moves; material, geometry, scale and height are kept |
| Movement.IdleFrameMovesNothing | Meshes/main.cpp:1529-1545 | with no key held nothing moves |
| Scenes.Light.constructor | Meshes/main.cpp:1214-1215 | the light holds the given colours and position |
| Scenes.Light.UploadAttributes | Meshes/main.cpp:1217-1220 | uploads the light's current colours and position through the given shader |
| Scenes.Light.SetPointLightSource | Meshes/main.cpp:1222-1224 | the position becomes the point light at `pos`; the colours are kept |
| Scenes.Light.SetDirectionalLightSource | Meshes/main.cpp:1226-1228 | the position becomes the directional light along `dir`; the colours are kept |
| Scenes.Keyboard.constructor | Meshes/main.cpp:27 | a 256-entry table with no key held |
| Scenes.Keyboard.OnKeyboard | Meshes/main.cpp:1759-1762 | marks the key held and changes no other entry |
| Scenes.Keyboard.OnKeyboardUp | Meshes/main.cpp:1764-1767 | marks the key released and changes no other entry |
| Scenes.Object.constructor | Meshes/main.cpp:1419-1423 | the object holds the given mesh and pose |
| Scenes.Object.Draw | Meshes/main.cpp:1430-1437 | emits exactly the shaded draw of the object under the current light |
| Scenes.Object.DrawShadow | Meshes/main.cpp:1439-1453 | emits exactly the shadow draw of the object and leaves the light overhead |
| Scenes.Object.Move | Meshes/main.cpp:1529-1545 | the new pose is the avatar step for the held keys, and other objects stay put |
| Scenes.Scene.constructor | Meshes/main.cpp:1633 | the scene holds the given object list (which `Scene::Initialize` fills, lines 1673-1690, with three distinct objects), with no object twice |
| Scenes.Scene.Draw | Meshes/main.cpp:1708-1719 | emits exactly the frame trace of the objects and leaves the light as the shadow loop does |
| Scenes.Scene.Move | Meshes/main.cpp:1722-1726 | every object takes its own move step |

## Left out

- Reading the file (`fstream`, `getline`, the 256-byte line buffer, the early return
  when the file does not open) is not modelled. The constructor takes the lines. The
  numbers `sscanf` reads are part of each line, and `%f` parsing is not modelled.
- OpenGL is not modelled: the VAO and VBO setup, `glBufferData`, `glDrawArrays`,
  uniform locations and the actual texture binding. The buffers `glBufferData` copies
  become fields of the mesh. Shader and texture calls become entries of a trace, and a
  draw becomes `DrawGeometry` of a geometry handle.
- The trace records uploads by the shader they are made through. Which GL program is
  actually bound at that moment is not tracked.
- The following are not modelled: GLSL sources, shader compilation, and the shader
  classes' upload bodies.
- Matrices are not modelled: the model, inverse, view and projection matrices and the
  rotation built from `cos` and `sin`. A transform upload carries the pose it is
  computed from.
- The camera is not modelled: its motion, helicam and matrices. The eye position
  enters each draw as a parameter.
- Floats are `real`. Single-precision rounding is not modelled, and neither is
  `1 - v` rounding.
- Movement.AvatarStep: `cosf` and `sinf` of the heading are inputs (`heading`), so the
  angle-to-radians conversion and the trigonometry are not modelled.
- `Environment::Draw` is a single `EnvironmentPass`. Its view-direction matrix and
  blending are not modelled.
- `Texture` and `TextureCube` (image loading through `stbi_load`) are not modelled. A
  texture is a handle.
- `Scene::Initialize` and its asset paths are not modelled, nor are GLUT callbacks
  other than the keyboard ones, `onIdle` timing, `main`, and the destructors.
- `AvatarObject` and `BackgroundObject` redeclare `position`, `scaling` and
  `orientation`, which shadows the base-class copies. The model keeps one pose per
  object: the one the derived class reads and writes.
- The undefined behaviour of the source is replaced by error results:
  - uninitialised `sscanf` float targets of `v`, `vn` and `vt` lines;
  - out-of-range face indices, including the zero indices of a short `f` line.

  The model checks every index before flattening, whereas the source fails partway
  through the flattening loop. Deleting the buffers with `delete` rather than
  `delete[]` is not modelled.
- MeshSoup.TriangleCount, PolygonalMeshes.CountTriangles and PolygonalMeshes.Flatten:
  the triangle count, the write cursor and the buffer sizes are unbounded integers.
  The source keeps `numberOfTriangles` and `triangleIndex` in a signed `int` and sizes
  the buffers as `numberOfTriangles * 9`, `* 6` and `* 9`. Those products overflow for
  more than `INT_MAX / 9` (about 238.6 million) triangles, which is undefined
  behaviour. That overflow is not modelled, so `ImportedBufferLengths` and
  `FlatBuffersAt` hold for meshes of any size.
- Scenes.Scene.Move: the object list is assumed to hold no object twice. The source's
  list is built that way.

## Findings

| source | as written | input that shows it | evidently intended | confidence | as-written member | corrected member |
|---|---|---|---|---|---|---|
| Meshes/main.cpp:1712 | `for (int i = 0; i < objects.size() - 1; i++)` computes `size() - 1` in `size_t`, which wraps to 2^64 - 1 for an empty list, so the loop calls `objects[0]->DrawShadow` on an empty vector | a scene whose object list is empty | all objects but the last cast a shadow, and none for an empty list | not executed | RenderTrace.ShadowLoopBound | RenderTrace.ShadowCasters |
