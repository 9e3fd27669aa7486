# Real-time renderer core, modelled in Dafny

This project models the core of a small OpenGL real-time renderer:

- **Scene-graph flattening.** The parser walks a tree of scene nodes. It multiplies each node's transformations onto the cumulative transformation matrix (CTM). It emits one render record per primitive and per light, depth first, children in order.
- **The camera.** It holds position, look, up, aspect ratio, angles and planes. It caches a view matrix, an inverse view matrix and a projection matrix. Setters mark a cached matrix stale. The getters always rebuild the matrix, because their staleness test is commented out (`src/camera/camera.cpp:68`, `:75`, `:82`); the stale flags are recorded but never read.
- **Mesh generators.** The cube, sphere, cylinder and cone generators tessellate each shape into triangle tiles. They write every vertex as six floats: the position, then the normal.
- **The post-process chain.** It keeps an ordered list of effects and ping-pongs between two framebuffers. The first enabled effect samples the input texture, the last one draws into the output framebuffer, and every pass in between reads what the pass before it wrote.
- **The renderer's decision rules.** These are:
  - the half-resolution occlusion target and the god-ray pass order;
  - which primitive types are drawn, and with what vertex count;
  - how light types become shader uniforms;
  - the keyboard movement rule;
  - when shape geometry is regenerated;
  - what happens when a scene is loaded.

Everything that changes state in the source changes state here:

- `Camera.Camera`, `PostProcess.PostProcessPipeline`, `SceneParser.RenderData`, `Mesh.VertexBuffer` and `Realtime.Renderer` are classes. Their methods are proved against specification functions: `ViewMatrix`, `ProjectionMatrix`, `ProcessFrame`, `Shapes`/`Lights`, `CubeVertices`, `SphereVertices`, `CylinderVertices`, `ConeVertices` and `Frame`.
- The generators' float vectors are a `seq<real>` field that `insert` appends to.
- GL calls become a trace of events that the renderer's methods extend.
- The maths library (normalize, length, trigonometry, inverse, rotation) is a record of uninterpreted functions, `Numerics.Glm`. A few lemmas assume an explicit property of it, for example `sin² + cos² = 1`.

Two list operations look alike but differ:

- `removeEffect` removes every effect with the given name (`src/postprocess.cpp:48-54`).
- `setEffectEnabled` changes only the first effect with the name (`src/postprocess.cpp:56-63`).

## Model

| member | source | states |
|---|---|---|
| PostProcess.NewEffect | src/postprocess.h:25-36 | a new effect has the given name and shader, is enabled, has no blending, no depth and no setup callback, and blends with GL_SRC_ALPHA / GL_ONE |
| PostProcess.FirstIndex | src/postprocess.cpp:56-63 | the index found holds an effect with that name and no earlier effect has it; None exactly when no effect has the name |
| PostProcess.AddKeepsDuplicates | src/postprocess.cpp:44-46 | adding an effect never replaces one of the same name: the count of that name goes up by one |
| PostProcess.RemoveNamedContents | src/postprocess.cpp:48-54 | removal drops exactly the effects with that name: the length shrinks by their count and an effect remains iff it was there under another name |
| PostProcess.RemoveNamedAppend | src/postprocess.cpp:48-54 | removal keeps the relative order of the rest (it distributes over concatenation) |
| PostProcess.RemoveAbsent | src/postprocess.cpp:48-54 | removing a name no effect has leaves the list unchanged |
| PostProcess.SetEnabledOnlyFirst | src/postprocess.cpp:56-63 | only the first effect with the name gets the new flag, every other entry is unchanged, and a missing name changes nothing |
| PostProcess.ActiveCountIsActive | src/postprocess.cpp:181-187 | the active count is the number of enabled effects; it is zero iff no effect is enabled |
| PostProcess.Schedule | src/postprocess.cpp:93-129 | one pass per enabled effect |
| PostProcess.ProcessIdle | src/postprocess.cpp:67-76 | uninitialised or empty: no pass is drawn; the output framebuffer is bound with the full viewport and depth test and blending are off |
| PostProcess.ProcessNoneEnabled | src/postprocess.cpp:78-90 | with no effect enabled no pass is drawn and the only state change is depth testing switched off |
| PostProcess.ProcessRuns | src/postprocess.cpp:78-134 | with an enabled effect there is one pass per enabled effect, using their shaders in list order; afterwards framebuffer 0 is bound, depth test is on and blending is off |
| PostProcess.ScheduleTargetsAndSources | src/postprocess.cpp:93-129 | pass i draws into ping-pong buffer i mod 2, except the last, which draws into the output; the first reads the input texture and each later pass reads ping-pong texture (i-1) mod 2 |
| PostProcess.ScheduleChains | src/postprocess.cpp:93-129 | no pass reads the buffer it writes, and every pass after the first reads what the previous pass wrote |
| PostProcess.ScheduleSingle | src/postprocess.cpp:96-122 | a single enabled effect reads the input and writes the output without touching the ping-pong buffers |
| PostProcess.ScheduleSettings | src/postprocess.cpp:113-150 | blending is on iff the effect asks for it, with its own factors; the depth texture is bound iff the effect needs depth and a depth texture was given |
| PostProcess.NewEffectPlain | src/postprocess.h:25-36 | a freshly made effect draws with no blending, no depth texture and no setup call |
| PostProcess.CleanedIdempotent | src/postprocess.cpp:193-203 | cleanup zeroes both handles when the first is non-zero, always leaves the first zero, and a second cleanup changes nothing |
| PostProcess.PostProcessPipeline.constructor | src/postprocess.h:101-110 | a new pipeline has no effects, zero size, zero handles and is not initialised |
| PostProcess.PostProcessPipeline.Initialize | src/postprocess.cpp:4-11 | records the size, the quad and the new ping-pong handles, and marks the pipeline initialised; effects are kept |
| PostProcess.PostProcessPipeline.CreatePingPongBuffers | src/postprocess.cpp:13-42 | the pipeline now holds the two new framebuffers and textures |
| PostProcess.PostProcessPipeline.AddEffect | src/postprocess.cpp:44-46 | the effect is appended at the end of the chain |
| PostProcess.PostProcessPipeline.RemoveEffect | src/postprocess.cpp:48-54 | the new list is the old one with every effect of that name dropped (see RemoveNamedContents) |
| PostProcess.PostProcessPipeline.SetEffectEnabled | src/postprocess.cpp:56-63 | the new list is the old one with only the first match's flag changed (see SetEnabledOnlyFirst) |
| PostProcess.PostProcessPipeline.GetActiveEffectCount | src/postprocess.cpp:181-187 | returns the number of enabled effects; nothing changes |
| PostProcess.PostProcessPipeline.Clear | src/postprocess.cpp:189-191 | the effect list is empty |
| PostProcess.PostProcessPipeline.Cleanup | src/postprocess.cpp:193-203 | each handle pair is released and zeroed when its first handle is non-zero, and a pair whose first handle is zero is left as it is, as CleanedIdempotent describes |
| PostProcess.PostProcessPipeline.Resize | src/postprocess.cpp:166-179 | the same size changes nothing; a new size records it and replaces both buffer pairs; effects and the initialised flag are kept |
| PostProcess.PostProcessPipeline.RenderQuad | src/postprocess.cpp:136-164 | the recorded pass uses the effect's shader, the given target and source, its blend mode, and the depth texture only when it needs one and one exists |
| PostProcess.PostProcessPipeline.Process | src/postprocess.cpp:65-134 | the passes drawn and the GL state left behind are those of the specification frame, whose properties ProcessIdle, ProcessNoneEnabled, ProcessRuns and the Schedule lemmas prove |
| SceneParser.ShapesOf | src/utils/sceneparser.cpp:35-38 | one shape record per primitive of the node |
| SceneParser.LightsOf | src/utils/sceneparser.cpp:40-44 | one light record per light of the node |
| SceneParser.LocalMatrixAppend | src/utils/sceneparser.cpp:14-31 | the local matrix of a list of transformations is the product of the matrices of any split of that list, in order |
| SceneParser.NoTransformationsInherit | src/utils/sceneparser.cpp:14-33 | a node without transformations passes its parent's CTM on unchanged |
| SceneParser.SingleLocalMatrix | src/utils/sceneparser.cpp:14-31 | the local matrix of a node with one transformation is that transformation's matrix |
| SceneParser.SingleLightLeaf | src/utils/sceneparser.cpp:33-48 | a childless node with one light emits exactly that light, placed at the node's cumulative matrix |
| SceneParser.TranslatedLight | src/utils/sceneparser.cpp:40-44 | a light under a single translation by t is placed at the point t |
| SceneParser.NullEmitsNothing | src/utils/sceneparser.cpp:10-12 | a null node contributes no shapes and no lights |
| SceneParser.ShapeCount | src/utils/sceneparser.cpp:35-48 | the traversal emits exactly one shape record per primitive in the subtree |
| SceneParser.ShapeCountList | src/utils/sceneparser.cpp:46-48 | the same count for a list of children |
| SceneParser.LightRecordCount | src/utils/sceneparser.cpp:40-48 | the traversal emits exactly one light record per light in the subtree |
| SceneParser.LightRecordCountList | src/utils/sceneparser.cpp:46-48 | the same count for a list of children |
| SceneParser.NodeFirst | src/utils/sceneparser.cpp:33-48 | a node's own primitives come first, each with the parent CTM times the node's local matrix, followed by its children's records under that matrix |
| SceneParser.ChildrenInOrder | src/utils/sceneparser.cpp:46-48 | children are visited in order: the records of a + b are those of a followed by those of b |
| SceneParser.RenderData.ComposeLocal | src/utils/sceneparser.cpp:14-31 | the loop's product of the transformation matrices equals the node's local matrix |
| SceneParser.RenderData.AppendPrimitives | src/utils/sceneparser.cpp:35-38 | the node's shape records are appended after the existing ones |
| SceneParser.RenderData.AppendLights | src/utils/sceneparser.cpp:40-44 | the node's light records are appended after the existing ones |
| SceneParser.RenderData.NodeTraversal | src/utils/sceneparser.cpp:8-50 | the recursive walk appends exactly the subtree's shape and light records, in depth-first order |
| SceneParser.RenderData.Parse | src/utils/sceneparser.cpp:52-76 | succeeds iff the file was read; on failure nothing changes; on success camera and globals come from the file and shapes and lights are those of the whole tree from the identity matrix |
| Camera.ProjectionDefined | src/camera/camera.cpp:115-135 | the projection is finite iff the far plane is non-zero, near differs from far and both half-angle tangents are non-zero |
| Camera.DefaultProjectionDegenerate | src/camera/camera.cpp:53-65 | with the constructor's planes (near = far = 1) the projection divides by zero |
| Camera.ViewCoordinates | src/camera/camera.cpp:89-109 | the view matrix takes a point p to its offset from the eye expressed in the camera's right, up and back axes |
| Camera.ViewMapsEyeToOrigin | src/camera/camera.cpp:95-109 | the view matrix takes the camera position to the origin |
| Camera.RightOrthogonalToBack | src/camera/camera.cpp:91-93 | the right axis is orthogonal to the back axis |
| Camera.Camera.constructor | src/camera/camera.cpp:53-65 | position at the origin, looking down +z with +y up, aspect 1, planes 1 and 1; both cached matrices are stale |
| Camera.Camera.SetPosition | src/camera/camera.cpp:4-9 | stores the position and marks the view stale |
| Camera.Camera.SetLook | src/camera/camera.cpp:11-16 | stores the look vector and marks the view stale |
| Camera.Camera.SetUp | src/camera/camera.cpp:18-23 | stores the normalised up vector and marks the view stale |
| Camera.Camera.SetAspectRatio | src/camera/camera.cpp:25-30 | stores the aspect ratio and marks the projection stale |
| Camera.Camera.SetAngles | src/camera/camera.cpp:32-38 | stores the height angle, derives the width angle from the current aspect ratio, and marks the projection stale |
| Camera.Camera.SetNearPlane | src/camera/camera.cpp:40-45 | stores the near plane and marks the projection stale |
| Camera.Camera.SetFarPlane | src/camera/camera.cpp:46-51 | stores the far plane and marks the projection stale |
| Camera.Camera.UpdateViewMatrix | src/camera/camera.cpp:89-113 | the cached view matrix is the look-at matrix of the current position, look and up, the cached inverse is its inverse, and the view is fresh |
| Camera.Camera.UpdateProjectionMatrix | src/camera/camera.cpp:115-147 | the cached projection is that of the current angles and planes, and the projection is fresh |
| Camera.Camera.GetViewMatrix | src/camera/camera.cpp:68-73 | always rebuilds and returns the view matrix of the current state; the inverse is rebuilt with it and the view is no longer stale |
| Camera.Camera.GetInverseViewMatrix | src/camera/camera.cpp:75-80 | always rebuilds the view and returns the inverse of the view matrix of the current state |
| Camera.Camera.GetProjectionMatrix | src/camera/camera.cpp:82-87 | always rebuilds and returns the projection of the current state; the projection is no longer stale |
| Camera.Camera.Translate | src/camera/camera.cpp:149-154 | the position moves by the given offset and the view is stale |
| Camera.Camera.Rotate | src/camera/camera.cpp:156-160 | only marks the view stale; orientation does not change |
| Mesh.Clamp | src/shapes/cylinder.cpp:258-259 | the clamped parameter is the larger of the parameter and the lower bound |
| Mesh.FracInUnit | src/shapes/cube.cpp:47-50 | the tessellation fraction i/n lies in [0, 1], is 0 at i = 0 and 1 at i = n |
| Mesh.WedgesSpan | src/shapes/cylinder.cpp:244-248 | the first wedge starts at angle 0 and wedge p2 starts at 360 degrees in radians, so the wedges cover the full turn |
| Mesh.Encode | src/shapes/cube.cpp:5-11 | six floats per vertex |
| Mesh.Decode | src/realtime.cpp:330-341 | one vertex per six floats |
| Mesh.EncodeAppend | src/shapes/cube.cpp:5-11 | appending vertices appends their floats |
| Mesh.EncodeAt | src/realtime.cpp:330-339 | vertex k is at floats 6k to 6k+5, position first and normal second |
| Mesh.DecodeEncode | src/realtime.cpp:330-341 | the stride-6 attribute layout reads back exactly the vertices the generators wrote |
| Mesh.VertexBuffer.constructor | src/shapes/cube.cpp:93 | a new vector is empty |
| Mesh.VertexBuffer.Copy | src/shapes/cone.cpp:63 | a by-value copy holds the caller's floats |
| Mesh.VertexBuffer.Insert | src/shapes/cube.cpp:5-11 | appends x, y, z in that order |
| Mesh.VertexBuffer.Clear | src/shapes/cone.cpp:145 | the vector is empty |
| Mesh.VertexBuffer.InsertVertex | src/shapes/cube.cpp:21-22 | appends the six floats of one vertex |
| Cube.Faces | src/shapes/cube.cpp:79-86 | six faces |
| Cube.FacesFromCorners | src/shapes/cube.cpp:64-86 | each face's four corners are the listed corners of the unit cube, in the source's order |
| Cube.TileVertices | src/shapes/cube.cpp:19-33 | a tile is two triangles, six vertices |
| Cube.FaceTile | src/shapes/cube.cpp:47-57 | each face tile is six vertices |
| Cube.FaceRowLength | src/shapes/cube.cpp:45-59 | a row of a face has 6·p vertices |
| Cube.FaceLength | src/shapes/cube.cpp:44-60 | a face has 6·p² vertices |
| Cube.CubeLength | src/shapes/cube.cpp:64-100 | the cube has 36·p² vertices and 216·p² floats |
| Cube.FaceAt | src/shapes/cube.cpp:44-60 | vertex j of tile (row, col) of a face sits at index row·6p + col·6 + j |
| Cube.AssembleAt | src/shapes/cube.cpp:44-86 | in the whole cube, face by face, vertex j of tile (row, col) of face f sits at f·6p² + row·6p + col·6 + j |
| Cube.FacesAreCubeFaces | src/shapes/cube.cpp:66-86 | every face lies on a side of the cube [-0.5, 0.5]³ |
| Cube.TileInBox | src/shapes/cube.cpp:47-57 | every vertex of a tile of such a face lies in the cube |
| Cube.CubeInBox | src/shapes/cube.cpp:44-88 | every vertex the generator produces lies in [-0.5, 0.5]³ |
| Cube.MakeTile | src/shapes/cube.cpp:13-35 | appends the tile's six vertices |
| Cube.MakeFaceRow | src/shapes/cube.cpp:45-59 | the inner loop appends one row of tiles, left to right |
| Cube.MakeFace | src/shapes/cube.cpp:37-62 | the nested loop appends the face's tiles row by row |
| Cube.MakeCube | src/shapes/cube.cpp:64-88 | appends the six faces in the source's order |
| Cube.GenerateCubeData | src/shapes/cube.cpp:91-100 | with the parameter raised to at least 1, the result encodes the cube's vertices and has 216·p² floats |
| Sphere.TileVertices | src/shapes/sphere.cpp:12-31 | a tile is six vertices |
| Sphere.WedgeLength | src/shapes/sphere.cpp:39-62 | a wedge has 6·p1 vertices |
| Sphere.SphereLength | src/shapes/sphere.cpp:66-76 | the sphere has 6·p1·p2 vertices and 36·p1·p2 floats |
| Sphere.SphereVertexAt | src/shapes/sphere.cpp:39-76 | vertex j of tile `row` of wedge w sits at w·6p1 + row·6 + j |
| Sphere.SphereNormalsRadial | src/shapes/sphere.cpp:18-29 | every normal is the normalised position |
| Sphere.PointOnSphere | src/shapes/sphere.cpp:44-58 | a point at polar angles (phi, theta) is at distance 0.5 from the centre |
| Sphere.WedgeOnSurface | src/shapes/sphere.cpp:39-62 | every vertex of a wedge is on the sphere of radius 0.5 |
| Sphere.SphereOnSurface | src/shapes/sphere.cpp:44-76 | every vertex generated is on the sphere of radius 0.5 |
| Sphere.SphereSpans | src/shapes/sphere.cpp:41-71 | latitudes run from 0 to pi and longitudes from 0 to 360 degrees |
| Sphere.MakeTile | src/shapes/sphere.cpp:12-31 | appends the tile's six vertices |
| Sphere.MakeWedge | src/shapes/sphere.cpp:33-64 | the loop appends the wedge's tiles from pole to pole |
| Sphere.MakeSphere | src/shapes/sphere.cpp:66-76 | the loop appends the wedges around the axis |
| Sphere.GenerateSphereData | src/shapes/sphere.cpp:78-89 | with both parameters raised to at least 1, the result encodes the sphere and has 36·p1·p2 floats |
| Cylinder.WedgeLength | src/shapes/cylinder.cpp:231-239 | a wedge is a bottom cap, a body and a top cap of 6·p1 vertices each |
| Cylinder.CylinderLength | src/shapes/cylinder.cpp:241-261 | the cylinder has 18·p1·p2 vertices, and its 108·p1·p2 floats are exactly the amount the source reserves |
| Cylinder.WedgeParts | src/shapes/cylinder.cpp:231-239 | within a wedge the bottom cap comes first, then the body, then the top cap |
| Cylinder.CylinderVertexAt | src/shapes/cylinder.cpp:231-251 | in the whole cylinder, the vertices of wedge w's bottom cap, body and top cap sit at their computed offsets |
| Cylinder.BodyRowOnSide | src/shapes/cylinder.cpp:114-143 | body vertices have horizontal normals and heights in [-0.5, 0.5] |
| Cylinder.BodyWedgeOnSide | src/shapes/cylinder.cpp:105-146 | every body vertex of a wedge lies between y = -0.5 and y = 0.5 with a horizontal normal |
| Cylinder.TopCapOnTop | src/shapes/cylinder.cpp:50-102 | every top-cap vertex of a wedge is at y = 0.5 with normal +y |
| Cylinder.BottomCapOnBottom | src/shapes/cylinder.cpp:50-102 | every bottom-cap vertex of a wedge is at y = -0.5 with normal -y |
| Cylinder.WedgeOnSurface | src/shapes/cylinder.cpp:105-239 | every vertex of a wedge is on the top cap, the bottom cap or the side |
| Cylinder.CylinderPartsOnSurface | src/shapes/cylinder.cpp:231-251 | in the generated vector, wedge w's bottom-cap block is on the bottom, its body block on the side and its top-cap block on the top |
| Cylinder.CylinderOnSurface | src/shapes/cylinder.cpp:241-251 | every vertex generated is on a cap or on the side |
| Cylinder.RimDistance | src/shapes/cylinder.cpp:119-141 | a rim point is at horizontal distance 0.5 from the axis |
| Cylinder.BodyOnCylinder | src/shapes/cylinder.cpp:105-146 | every body vertex is on the curved surface of radius 0.5 |
| Cylinder.MakeBodyTile | src/shapes/cylinder.cpp:21-47 | appends the body tile's six vertices with per-vertex side normals |
| Cylinder.MakeTopCapTile | src/shapes/cylinder.cpp:50-75 | appends the top-cap tile's six vertices with normal +y |
| Cylinder.MakeBottomCapTile | src/shapes/cylinder.cpp:77-102 | appends the bottom-cap tile's six vertices with normal -y |
| Cylinder.MakeBodyWedge | src/shapes/cylinder.cpp:105-146 | the loop appends the body rows bottom to top |
| Cylinder.MakeTopCapWedge | src/shapes/cylinder.cpp:149-188 | the loop appends the top-cap rings from the centre outwards |
| Cylinder.MakeBottomCapWedge | src/shapes/cylinder.cpp:190-229 | the loop appends the bottom-cap rings from the centre outwards |
| Cylinder.MakeWedge | src/shapes/cylinder.cpp:231-239 | appends bottom cap, body and top cap |
| Cylinder.MakeCylinder | src/shapes/cylinder.cpp:241-253 | the loop appends the wedges around the axis |
| Cylinder.GenerateCylinderData | src/shapes/cylinder.cpp:255-265 | with param1 ≥ 1 and param2 ≥ 3, the result encodes the cylinder and has 108·p1·p2 floats |
| Cone.SegmentLength | src/shapes/cone.cpp:90-141 | base segment and side segment have 6·p1 vertices each, a wedge 12·p1 |
| Cone.ConeLength | src/shapes/cone.cpp:143-154 | the intended cone has 12·p1·p2 vertices and 72·p1·p2 floats |
| Cone.ConeAsWrittenLength | src/shapes/cone.cpp:118-152 | the cone as written has only 6·p1·p2 vertices (36·p1·p2 floats): the side alone |
| Cone.BaseSegmentOnBase | src/shapes/cone.cpp:63-109 | every base vertex is at y = -0.5 with normal (0, -1, 0) |
| Cone.SideYInRange | src/shapes/cone.cpp:114-120 | side-row heights lie in [-0.5, 0.5] and the last row's top is at 0.5 |
| Cone.CalculateNormalUpward | src/shapes/cone.cpp:11-18 | a side normal computed at height ≤ 0.5 never points downwards |
| Cone.SideTileUpward | src/shapes/cone.cpp:32-61 | no side-tile vertex has a downward normal |
| Cone.SideSegmentUpward | src/shapes/cone.cpp:111-132 | no vertex of the side segment has a downward normal |
| Cone.ApexTile | src/shapes/cone.cpp:20-30 | at the apex the top vertices are at (0, 0.5, 0) and take the normalised sum of the two bottom-edge normals |
| Cone.ConeStartsWithBase | src/shapes/cone.cpp:134-141 | the intended cone is not empty and its first vertex is a base vertex |
| Cone.AsWrittenOmitsBase | src/shapes/cone.cpp:63-107 | as written, no vertex has a downward normal, so the output differs from the intended cone, which has a base |
| Cone.MakeSideTile | src/shapes/cone.cpp:32-61 | appends the side tile's six vertices, in the source's triangle order |
| Cone.MakeBaseTile | src/shapes/cone.cpp:63-88 | with the buffer passed by reference, appends the base tile's six vertices |
| Cone.BuildBaseSegmentAsWritten | src/shapes/cone.cpp:90-109 | as written, the caller's vector is unchanged: each tile goes to a copy |
| Cone.BuildBaseSegment | src/shapes/cone.cpp:90-109 | the intended loop appends the base rings from the centre outwards |
| Cone.BuildSideSegment | src/shapes/cone.cpp:111-132 | the loop appends the side rows from the base to the apex |
| Cone.MakeWedgeAsWritten | src/shapes/cone.cpp:134-141 | as written, a wedge appends only its side segment |
| Cone.MakeWedge | src/shapes/cone.cpp:134-141 | a wedge appends its base segment, then its side segment |
| Cone.MakeConeAsWritten | src/shapes/cone.cpp:143-154 | the vector is cleared and then holds the side-only cone |
| Cone.MakeCone | src/shapes/cone.cpp:143-154 | the vector is cleared and then holds the intended cone |
| Cone.GenerateConeDataAsWritten | src/shapes/cone.cpp:156-167 | as written, the result encodes the side-only cone: 36·p1·p2 floats |
| Cone.GenerateConeData | src/shapes/cone.cpp:156-167 | with both parameters raised to at least 1, the result encodes the intended cone: 72·p1·p2 floats |
| Realtime.OcclusionTextureSize | src/realtime.cpp:228-234 | the occlusion texture is half the device extent, never below 1 |
| Realtime.OcclusionIsHalf | src/realtime.cpp:228-231 | the occlusion extent is the device extent halved and rounded down |
| Realtime.OcclusionViewportAgrees | src/realtime.cpp:586-592 | viewport and texture agree whenever half the extent is at least 1; at extent 1 the viewport is 0 while the texture is 1 |
| Realtime.GeometrySizes | src/realtime.cpp:311-441 | the stored vertex counts are those of the generated cube, sphere, cylinder (param2 ≥ 3) and corrected cone |
| Realtime.GeometrySizesAsWritten | src/realtime.cpp:406-436 | with the cone generator as written, the stored cone count is 6·p1·p2, half the corrected one, and every other count is the same |
| Realtime.ShapeDrawsAppend | src/realtime.cpp:490-492 | drawing a + b issues the draws of a, then those of b |
| Realtime.MeshesNeverDrawn | src/realtime.cpp:941-971 | every draw is of one of the four built-in geometries: mesh primitives produce nothing |
| Realtime.DrawsPerShape | src/realtime.cpp:612-646 | one draw per non-mesh shape |
| Realtime.DrawsInOrder | src/realtime.cpp:490-492 | without meshes, draw i is of shape i's type with shape i's CTM as model matrix |
| Realtime.TypeCodesDistinct | src/realtime.cpp:841-855 | point, directional and spot lights get distinct type codes |
| Realtime.UniformFields | src/realtime.cpp:858-899 | every light uploads colour and falloff; a position iff it is not directional; a direction iff it is not a point light; penumbra and angle iff it is a spot light, with the light's values |
| Realtime.LightUniforms | src/realtime.cpp:828-903 | one uniform block per light |
| Realtime.MarkerPlacement | src/realtime.cpp:661-679 | a light marker is the unit sphere scaled and moved to the light's position |
| Realtime.GodRaysAtMarkers | src/realtime.cpp:665-679 | the god-ray source of each light is the centre of its occlusion marker |
| Realtime.MarkerDraws | src/realtime.cpp:661-688 | one sphere draw per light |
| Realtime.GodRayPositions | src/realtime.cpp:777-790 | one god-ray position per light |
| Realtime.PassOrder | src/realtime.cpp:443-505 | with god rays the frame opens on the occlusion target and ends with the blend; without them it opens by clearing the default target and has no god-ray event |
| Realtime.OcclusionPassDraws | src/realtime.cpp:443-505 | the occlusion pass opens its target and then draws the shapes in list order; it has k + lights + 2 events |
| Realtime.MainPassDraws | src/realtime.cpp:443-505 | after clearing the default target and uploading the lights, the rest of the main pass is the shape draws in list order |
| Realtime.DrawsPerFrame | src/realtime.cpp:443-505 | with god rays the frame draws the shapes twice, once in the occlusion pass and once in the main pass, in the same order, and has 2k + lights + 5 events |
| Realtime.OpposingKeys | src/realtime.cpp:1142-1147 | applying the minus key and the plus key in either order gives the same position |
| Realtime.NoKeysNoMovement | src/realtime.cpp:1134-1149 | with no movement key pressed the camera does not move |
| Realtime.ForwardKeys | src/realtime.cpp:1142-1143 | W alone moves against the look axis and S alone along it |
| Realtime.VerticalOnly | src/realtime.cpp:1142-1147 | with none of W, S, A and D held, the movement is exactly what Space and Control give |
| Realtime.VerticalKeys | src/realtime.cpp:1146-1147 | Space alone moves up along world y and Control alone down, by the speed |
| Realtime.OppositeKeysCancel | src/realtime.cpp:1142-1145 | W with S, and A with D, cancel out |
| Realtime.AsWrittenIgnoresParameter2 | src/realtime.cpp:1078 | as written, the regeneration decision does not depend on the second shape parameter |
| Realtime.RegenerateAsWrittenWrong | src/realtime.cpp:1078 | two concrete settings where the rule as written regenerates wrongly or fails to regenerate |
| Realtime.RegenerateWhenStale | src/realtime.cpp:1078 | the intended rule skips regeneration iff geometry is uninitialised or both parameters still match |
| Realtime.Renderer.constructor | src/realtime.cpp:21-46 | the six movement keys are unpressed and ka = kd = ks = 0.5; with the member defaults of src/realtime.h:136-147, the scene has no shapes and no lights, the camera has its default state (position at the origin, look +z, up +y, height angle 0, aspect 1, planes 1 and 1, both cached matrices stale), geometry is not initialised and the stored parameters are 1 and 1; the trace is empty |
| Realtime.Renderer.InitializeOcclusionFBO | src/realtime.cpp:228-234 | the occlusion texture is half the device size, at least 1 |
| Realtime.Renderer.InitializeShapeGeometry | src/realtime.cpp:311-441 | the stored vertex counts are those of GeometrySizes |
| Realtime.Renderer.InitializeGL | src/realtime.cpp:126-135 | occlusion target and geometry are built from the settings, geometry is marked initialised and god rays are enabled |
| Realtime.Renderer.DrawShape | src/realtime.cpp:905-975 | a built-in shape is drawn with its own vertex count and CTM; a mesh draws nothing |
| Realtime.Renderer.DrawShapes | src/realtime.cpp:490-492 | the loop draws every shape in list order |
| Realtime.Renderer.PassLightsToShader | src/realtime.cpp:828-903 | uploads the light count and one uniform block per light |
| Realtime.Renderer.OcclusionShapes | src/realtime.cpp:612-646 | draws the shapes in list order into the occlusion target |
| Realtime.Renderer.OcclusionMarkers | src/realtime.cpp:661-688 | draws one marker sphere per light |
| Realtime.Renderer.RenderOcclusion | src/realtime.cpp:586-712 | binds and clears the half-size target, draws shapes then markers, and restores the default target |
| Realtime.Renderer.BlendCrepuscular | src/realtime.cpp:777-797 | blends god rays from the lights' world positions |
| Realtime.Renderer.PaintGL | src/realtime.cpp:443-512 | the frame's events are those of the specification frame, whose order PassOrder and DrawsPerFrame prove |
| Realtime.Renderer.KeyPress | src/realtime.cpp:1089-1091 | the key is marked pressed; the others are unchanged |
| Realtime.Renderer.KeyRelease | src/realtime.cpp:1093-1095 | the key is marked released; the others are unchanged |
| Realtime.Renderer.AccumulateMovement | src/realtime.cpp:1134-1147 | the accumulated movement is the sum that the movement keys select |
| Realtime.Renderer.TimerEvent | src/realtime.cpp:1128-1156 | the camera moves by the key movement at 5 units per second along the current view axes, only when that movement is non-zero; only the camera's position and view matrices may change, so look, up, planes and the renderer's own fields are unchanged |
| Realtime.Renderer.SettingsChanged | src/realtime.cpp:1069-1084 | the camera planes follow the settings and the position is kept; the geometry is rebuilt exactly when the intended rule says it is stale; nothing else in the renderer changes, and of the camera only the planes and cached matrices may change |
| Realtime.Renderer.LoadCamera | src/realtime.cpp:1041-1056 | the camera takes the scene's position, look, normalised up, height angle, the window's aspect ratio and the settings' planes |
| Realtime.Renderer.SceneChanged | src/realtime.cpp:1021-1067 | with no file or an unreadable one nothing changes (globals, parameters, geometry, occlusion size, camera and the parsed scene); otherwise globals, shapes, lights and camera (position, look, normalised up, aspect ratio, both angles, planes) come from the scene, the parameters are recorded, and occlusion target and geometry are rebuilt; geometryInit, god rays, key map, trace and device size are outside its frame |

## Left out

- GL resource creation, binding, uniform upload and draw calls: they become trace events or handles passed in as parameters. Shader compilation, VAO/VBO contents and framebuffer completeness are not modelled.
- Floating point: all arithmetic is on exact reals. `(float)` casts, rounding and the `1e-5f` apex test use exact comparisons.
- normalize, length, sqrt, sin, cos, tan, radians, inverse and rotate: uninterpreted functions. Lemmas that need a property of them (for example `sin² + cos² = 1`) assume it in their `requires`.
- Integer width: tessellation parameters and vertex counts are unbounded. The `int` overflow of `reserve` or of the vertex counts for huge parameters is not modelled, and neither is `reserve` itself.
- The screen-space transform of the god-ray positions (src/realtime.cpp:793-796): Realtime.Renderer.BlendCrepuscular records world positions only.
- Realtime.Renderer.PaintGL: uniform uploads of view, projection, camera position and the global coefficients, and the depth-test and blend toggles, are not in the trace.
- Window size, device pixel ratio and aspect ratio: the renderer takes them as parameters.
- The scene-file reader is a `ReadResult` parameter. settings.h is not part of this model; the settings become a `Settings` record argument.
- Realtime.Renderer.KeyPress: `operator[]` inserting absent keys into the key map is not modelled. Lookup of an absent key reads as not pressed, which is what the inserted default gives.
- Realtime.Renderer.TimerEvent: the elapsed time is a parameter. Restarting the timer and calling `update()` are not modelled. The source fetches the inverse view matrix twice; both fetches give the same matrix, so the model fetches it once.
- Realtime.Renderer.SettingsChanged: follows the intended regeneration rule, not the one written at src/realtime.cpp:1078 (see Findings), and rebuilds the corrected cone at src/realtime.cpp:1079 (see Realtime.GeometrySizesAsWritten). The stored second parameter is an `int`, not the source's `bool`. As in the source, the stored parameters are not updated here.
- Realtime.GeometrySizes: counts the corrected cone, 12·p1·p2 vertices, where the program as written stores and draws 6·p1·p2 (src/realtime.cpp:412, 436). Realtime.GeometrySizesAsWritten states the as-written counts.
- Realtime.Renderer.InitializeShapeGeometry: builds the corrected cone, so its cone count is 12·p1·p2, not the as-written 6·p1·p2 (src/realtime.cpp:412, 436; see Findings and Realtime.GeometrySizesAsWritten).
- Realtime.Renderer.InitializeGL: inherits the corrected cone count from InitializeShapeGeometry (src/realtime.cpp:131).
- Realtime.Renderer.SceneChanged: inherits the corrected cone count from InitializeShapeGeometry (src/realtime.cpp:1064).
- Realtime.Renderer.constructor: the source never initialises `kt`; the model sets it to 0.
- Camera.Camera.constructor: the width angle and the cached matrices are left indeterminate, as in the source, and marked stale.
- Camera.Camera.UpdateProjectionMatrix: where the source divides by zero and produces infinities or NaNs, the model yields `Degenerate` and does not say which values result.
- Camera.Camera.Rotate: sets the stale flag only, as the source does. Mouse events that call it are not modelled.
- PostProcess.PostProcessPipeline.RenderQuad: the effect's setup callback is recorded as called or not. What the callback does is not modelled.
- Also not modelled:
  - blendDepthFog, the depth-fog and fullscreen-quad initialisation, and initializeFBO;
  - deleteFBOTextures, resizeGL, finish and saveViewportImage;
  - the debug readbacks and prints in the occlusion pass;
  - mouse handling.
  These are GL resource management or I/O with no decision of their own.
- Cone.MakeBaseTileAsWritten: it writes only into its own copy of the vector, so it has no observable result to state.

## Findings

| source | as written | input that shows it | evidently intended | confidence | as-written member | corrected member |
|---|---|---|---|---|---|---|
| src/shapes/cone.cpp:63 | `makeBaseTile` takes the vector by value, so each base tile goes into a copy that is discarded | any call, e.g. generateConeData(1, 3): 108 floats, none with normal (0, -1, 0) | take the vector by reference, so each wedge also emits its base segment: 72·p1·p2 floats starting with the base | high, not executed | Cone.AsWrittenOmitsBase | Cone.GenerateConeData |
| src/realtime.cpp:1078 | settingsChanged compares both stored parameters with `shapeParameter1`, and `currParam2` is declared `bool` (src/realtime.h:147) | load a scene with parameters (1, 7), then change parameter 2 to 20: no regeneration; a scene loaded with (5, 10) regenerates on every settings change | regenerate when either parameter differs from the one the geometry was built with | high, not executed | Realtime.RegenerateAsWrittenWrong | Realtime.RegenerateWhenStale |
