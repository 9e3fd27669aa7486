/** The decision rules of the real-time renderer's frame loop: which passes a
    frame runs and in what order, which primitives are drawn and with how
    many vertices, which light fields reach the shader, where the light
    markers sit, how large the occlusion target is, how held keys move the
    camera, and when scene or settings changes rebuild state. The GL calls
    themselves are not modelled: a frame is recorded as a trace of events. */
module Realtime {
  import opened Linear
  import opened Numerics
  import opened Options
  import opened SceneParser
  import opened Sequences
  import MeshBuffer = Mesh
  import CubeShape = Cube
  import SphereShape = Sphere
  import CylinderShape = Cylinder
  import ConeShape = Cone
  import Camera

  // ---------------------------------------------------------------------
  // Sizes

  /** Conversion of a float to int: truncation toward zero. */
  function Trunc(x: real): int {
    if x >= 0.0 then x.Floor else -((-x).Floor)
  }

  /** A window extent in device pixels, size() * devicePixelRatio, as an
      int: truncated. */
  function PixelExtent(extent: real): int {
    Trunc(extent)
  }

  /** The occlusion pass's viewport extent: half the device extent,
      truncated and not clamped. */
  function OcclusionExtent(extent: real): int {
    Trunc(extent / 2.0)
  }

  /** initializeOcclusionFBO: the occlusion texture is half resolution, but
      never smaller than one texel. */
  function OcclusionTextureSize(extent: real): (r: int)
    ensures r >= 1
    ensures OcclusionExtent(extent) >= 1 ==> r == OcclusionExtent(extent)
    ensures OcclusionExtent(extent) < 1 ==> r == 1
  {
    var e := OcclusionExtent(extent);
    if e < 1 then 1 else e
  }

  /** On a non-negative extent the occlusion target is half the main target,
      rounded down: twice it is the full extent or one less. */
  lemma OcclusionIsHalf(extent: real)
    requires extent >= 0.0
    ensures 2 * OcclusionExtent(extent) <= PixelExtent(extent) <= 2 * OcclusionExtent(extent) + 1
  {
    var a := (extent / 2.0).Floor;
    assert a as real <= extent / 2.0 < a as real + 1.0;
    assert 2.0 * (a as real) <= extent < 2.0 * (a as real) + 2.0;
  }

  /** The texture and the occlusion viewport agree once the half extent is
      at least 1; a window one device pixel wide gets a one-texel texture
      and an empty viewport. */
  lemma OcclusionViewportAgrees(extent: real)
    ensures OcclusionExtent(extent) >= 1 ==> OcclusionTextureSize(extent) == OcclusionExtent(extent)
    ensures OcclusionExtent(1.0) == 0 && OcclusionTextureSize(1.0) == 1
  {
  }

  // ---------------------------------------------------------------------
  // Shape geometry and draw dispatch

  /** The vertex count of each primitive's geometry. */
  datatype Geometries = Geometries(cube: int, sphere: int, cylinder: int, cone: int)

  /** initializeShapeGeometry's vertex counts for clamped parameters: a
      cube has 6 faces of p1 x p1 tiles, a sphere p1 x p2 tiles, a cylinder
      p1 x p2 tiles on each of its side and two caps (at least 3 wedges),
      a cone p1 x p2 tiles on each of its base and side, and every tile is
      two triangles. */
  function GeometryFor(param1: int, param2: int): Geometries {
    var p1, p2 := MeshBuffer.Clamp(param1, 1), MeshBuffer.Clamp(param2, 1);
    Geometries(36 * (p1 * p1), 6 * (p1 * p2), 18 * (p1 * MeshBuffer.Clamp(param2, 3)), 12 * (p1 * p2))
  }

  /** The counts are the generators' numbers of vertices, i.e. each
      generated float buffer's length over 6. */
  lemma GeometrySizes(g: Glm, param1: int, param2: int)
    ensures var p1, p2 := MeshBuffer.Clamp(param1, 1), MeshBuffer.Clamp(param2, 1);
      GeometryFor(param1, param2)
        == Geometries(|CubeShape.CubeVertices(g, p1)|,
                      |SphereShape.SphereVertices(g, p1, p2)|,
                      |CylinderShape.CylinderVertices(g, p1, MeshBuffer.Clamp(param2, 3))|,
                      |ConeShape.ConeVertices(g, p1, p2)|)
  {
    var p1, p2 := MeshBuffer.Clamp(param1, 1), MeshBuffer.Clamp(param2, 1);
    CubeShape.CubeLength(g, p1);
    SphereShape.SphereLength(g, p1, p2);
    CylinderShape.CylinderLength(g, p1, MeshBuffer.Clamp(param2, 3));
    ConeShape.ConeLength(g, p1, p2);
  }

  /** The counts the source stores with the cone generator as written
      (its base tiles are lost): the same counts except the cone's, which is
      half the intended one, 6 * p1 * p2. The renderer below uses the
      corrected generator. */
  lemma GeometrySizesAsWritten(g: Glm, param1: int, param2: int)
    ensures var p1, p2 := MeshBuffer.Clamp(param1, 1), MeshBuffer.Clamp(param2, 1);
      var intended := GeometryFor(param1, param2);
      |ConeShape.ConeAsWritten(g, p1, p2)| == 6 * (p1 * p2)
      && intended.cone == 2 * |ConeShape.ConeAsWritten(g, p1, p2)|
      && intended.(cone := |ConeShape.ConeAsWritten(g, p1, p2)|)
         == Geometries(|CubeShape.CubeVertices(g, p1)|,
                       |SphereShape.SphereVertices(g, p1, p2)|,
                       |CylinderShape.CylinderVertices(g, p1, MeshBuffer.Clamp(param2, 3))|,
                       |ConeShape.ConeAsWritten(g, p1, p2)|)
  {
    var p1, p2 := MeshBuffer.Clamp(param1, 1), MeshBuffer.Clamp(param2, 1);
    GeometrySizes(g, param1, param2);
    ConeShape.ConeAsWrittenLength(g, p1, p2);
  }

  /** The geometry a primitive type is drawn with; meshes have none. */
  function VertexCount(geometry: Geometries, kind: PrimitiveType): Option<int> {
    match kind
    case Cube => Some(geometry.cube)
    case Sphere => Some(geometry.sphere)
    case Cone => Some(geometry.cone)
    case Cylinder => Some(geometry.cylinder)
    case Mesh => None
  }

  datatype Target = DefaultTarget | OcclusionTarget

  /** One glDrawArrays of a primitive's geometry with a model matrix. */
  datatype Draw = Draw(geometry: PrimitiveType, vertices: int, model: Mat4)

  /** What a light contributes to the lights[i] uniforms: the type code,
      colour and attenuation always; position, direction and the spot
      parameters only when sent. */
  datatype LightUniform = LightUniform(typeCode: int, color: Vec4, falloff: Vec3,
                                       position: Option<Vec4>, direction: Option<Vec4>,
                                       penumbra: Option<real>, angle: Option<real>)

  /** The events of a frame. */
  datatype Event =
    | Begin(target: Target, width: int, height: int, clear: bool)
    | DrawCall(draw: Draw)
    | UploadLights(lightCount: int, uniforms: seq<LightUniform>)
    | BlendGodRays(lightPositions: seq<Vec3>)

  /** drawShape's dispatch: a mesh draws nothing, any other primitive draws
      its geometry with the shape's cumulative matrix. */
  function DrawOf(geometry: Geometries, shape: ShapeData): seq<Event> {
    match VertexCount(geometry, shape.primitive.kind)
    case None => []
    case Some(n) => [DrawCall(Draw(shape.primitive.kind, n, shape.ctm))]
  }

  /** The draws of a shape list, in list order. */
  function ShapeDraws(geometry: Geometries, shapes: seq<ShapeData>): seq<Event>
    decreases |shapes|
  {
    if shapes == [] then []
    else ShapeDraws(geometry, shapes[..|shapes| - 1]) + DrawOf(geometry, shapes[|shapes| - 1])
  }

  /** One more shape appends that shape's draw, if any. */
  lemma ShapeDrawsStep(geometry: Geometries, shapes: seq<ShapeData>, i: nat)
    requires i < |shapes|
    ensures ShapeDraws(geometry, shapes[..i + 1]) == ShapeDraws(geometry, shapes[..i]) + DrawOf(geometry, shapes[i])
  {
    assert shapes[..i + 1][..i] == shapes[..i];
  }

  /** The number of shapes that are not meshes. */
  function DrawableCount(shapes: seq<ShapeData>): nat
    decreases |shapes|
  {
    if shapes == [] then 0
    else DrawableCount(shapes[..|shapes| - 1]) + (if shapes[|shapes| - 1].primitive.kind != Mesh then 1 else 0)
  }

  /** A drawn event: a draw call of a primitive other than a mesh, with that
      primitive's vertex count. */
  predicate Drawn(geometry: Geometries, e: Event) {
    e.DrawCall? && e.draw.geometry != Mesh && VertexCount(geometry, e.draw.geometry) == Some(e.draw.vertices)
  }

  lemma {:induction false} ShapeDrawsAppend(geometry: Geometries, a: seq<ShapeData>, b: seq<ShapeData>)
    ensures ShapeDraws(geometry, a + b) == ShapeDraws(geometry, a) + ShapeDraws(geometry, b)
    decreases |b|
  {
    if b == [] {
      assert a + b == a;
    } else {
      var init := b[..|b| - 1];
      assert (a + b)[..|a + b| - 1] == a + init;
      assert (a + b)[|a + b| - 1] == b[|b| - 1];
      ShapeDrawsAppend(geometry, a, init);
    }
  }

  /** Meshes are never drawn; every draw uses its primitive's vertex count. */
  lemma {:induction false} MeshesNeverDrawn(geometry: Geometries, shapes: seq<ShapeData>)
    ensures forall e :: e in ShapeDraws(geometry, shapes) ==> Drawn(geometry, e)
    decreases |shapes|
  {
    if shapes != [] {
      MeshesNeverDrawn(geometry, shapes[..|shapes| - 1]);
    }
  }

  /** One draw per shape that is not a mesh. */
  lemma {:induction false} DrawsPerShape(geometry: Geometries, shapes: seq<ShapeData>)
    ensures |ShapeDraws(geometry, shapes)| == DrawableCount(shapes)
    decreases |shapes|
  {
    if shapes != [] {
      DrawsPerShape(geometry, shapes[..|shapes| - 1]);
    }
  }

  /** Without meshes, draw i is shape i's primitive with shape i's matrix. */
  lemma {:induction false} DrawsInOrder(geometry: Geometries, shapes: seq<ShapeData>)
    requires forall i :: 0 <= i < |shapes| ==> shapes[i].primitive.kind != Mesh
    ensures |ShapeDraws(geometry, shapes)| == |shapes|
    ensures forall i :: 0 <= i < |shapes| ==>
      ShapeDraws(geometry, shapes)[i].DrawCall? &&
      ShapeDraws(geometry, shapes)[i].draw.geometry == shapes[i].primitive.kind &&
      ShapeDraws(geometry, shapes)[i].draw.model == shapes[i].ctm
    decreases |shapes|
  {
    if shapes != [] {
      DrawsInOrder(geometry, shapes[..|shapes| - 1]);
    }
  }

  // ---------------------------------------------------------------------
  // Light uniforms

  /** The shader's light type code. */
  function TypeCode(kind: LightType): (code: int)
    ensures 0 <= code <= 2
  {
    match kind
    case DirectionalLight => 0
    case PointLight => 1
    case SpotLight => 2
  }

  /** passLightsToShader for one light, deciding on the type code. */
  function LightUniformOf(l: LightData): LightUniform {
    var code := TypeCode(l.kind);
    LightUniform(code, l.color, l.falloff,
                 if code == 1 || code == 2 then Some(l.pos) else None,
                 if code == 0 || code == 2 then Some(l.dir) else None,
                 if code == 2 then Some(l.penumbra) else None,
                 if code == 2 then Some(l.angle) else None)
  }

  function LightUniforms(lights: seq<LightData>): (us: seq<LightUniform>)
    ensures |us| == |lights|
  {
    seq(|lights|, i requires 0 <= i < |lights| => LightUniformOf(lights[i]))
  }

  /** The type codes tell the three kinds apart. */
  lemma TypeCodesDistinct(a: LightType, b: LightType)
    ensures TypeCode(a) == TypeCode(b) <==> a == b
  {
  }

  /** What reaches the shader, by light kind: colour and attenuation always;
      the position exactly for point and spot lights; the direction exactly
      for directional and spot lights; penumbra and angle only for spots. */
  lemma UniformFields(l: LightData)
    ensures var u := LightUniformOf(l);
      u.color == l.color && u.falloff == l.falloff
      && (u.position.Some? <==> l.kind != DirectionalLight)
      && (u.position.Some? ==> u.position.value == l.pos)
      && (u.direction.Some? <==> l.kind != PointLight)
      && (u.direction.Some? ==> u.direction.value == l.dir)
      && (u.penumbra.Some? <==> l.kind == SpotLight) && (u.angle.Some? <==> l.kind == SpotLight)
      && (l.kind == SpotLight ==> u.penumbra == Some(l.penumbra) && u.angle == Some(l.angle))
  {
  }

  // ---------------------------------------------------------------------
  // Light markers

  /** Where a light's marker sits: 100 units along a directional light's
      normalised direction, at the position of any other light. */
  function MarkerPosition(g: Glm, l: LightData): Vec3 {
    if l.kind == DirectionalLight then Scale3(Normalize(g, Xyz(l.dir)), 100.0) else Xyz(l.pos)
  }

  /** The marker's scale: 15 for directional, 0.5 for point, 0.3 for spot. */
  function MarkerScale(l: LightData): real {
    if l.kind == DirectionalLight then 15.0 else if l.kind == PointLight then 0.5 else 0.3
  }

  /** translate(identity, position), then scale by the marker's scale. */
  function MarkerModel(g: Glm, l: LightData): Mat4 {
    var s := MarkerScale(l);
    Mul(Translation(MarkerPosition(g, l)), Scaling(Vec3(s, s, s)))
  }

  /** blendCrepuscular's world position for a light. */
  function GodRayPosition(g: Glm, l: LightData): Vec3 {
    if l.kind == DirectionalLight then Scale3(Normalize(g, Xyz(l.dir)), 100.0)
    else if l.kind == PointLight then Xyz(l.pos)
    else Xyz(l.pos)
  }

  function GodRayPositions(g: Glm, lights: seq<LightData>): (ps: seq<Vec3>)
    ensures |ps| == |lights|
  {
    seq(|lights|, i requires 0 <= i < |lights| => GodRayPosition(g, lights[i]))
  }

  /** A marker is the sphere scaled about the light's position: the point at
      offset v from the model origin lands at position + scale * v. */
  lemma MarkerPlacement(g: Glm, l: LightData, v: Vec3)
    ensures Apply(MarkerModel(g, l), Point(v)) == Point(Add3(MarkerPosition(g, l), Scale3(v, MarkerScale(l))))
    ensures Apply(MarkerModel(g, l), Origin) == Point(MarkerPosition(g, l))
  {
    var s := MarkerScale(l);
    ApplyMul(Translation(MarkerPosition(g, l)), Scaling(Vec3(s, s, s)), Point(v));
    ApplyMul(Translation(MarkerPosition(g, l)), Scaling(Vec3(s, s, s)), Origin);
  }

  /** The god rays originate where the occlusion pass drew the markers. */
  lemma GodRaysAtMarkers(g: Glm, l: LightData)
    ensures GodRayPosition(g, l) == MarkerPosition(g, l)
    ensures Apply(MarkerModel(g, l), Origin) == Point(GodRayPosition(g, l))
  {
    MarkerPlacement(g, l, Zero3);
  }

  /** The occlusion pass draws one sphere per light. */
  function MarkerDraws(g: Glm, geometry: Geometries, lights: seq<LightData>): (es: seq<Event>)
    ensures |es| == |lights|
  {
    seq(|lights|, i requires 0 <= i < |lights| => DrawCall(Draw(Sphere, geometry.sphere, MarkerModel(g, lights[i]))))
  }

  // ---------------------------------------------------------------------
  // Passes

  /** renderOcclusion: clear the half-resolution target, draw the shapes,
      then the light markers, then restore the main viewport. */
  function OcclusionPass(g: Glm, geometry: Geometries, shapes: seq<ShapeData>, lights: seq<LightData>,
                         width: real, height: real): seq<Event> {
    [Begin(OcclusionTarget, OcclusionExtent(width), OcclusionExtent(height), true)]
    + ShapeDraws(geometry, shapes) + MarkerDraws(g, geometry, lights)
    + [Begin(DefaultTarget, PixelExtent(width), PixelExtent(height), false)]
  }

  /** The main pass: clear the default target, upload the lights, draw the
      shapes in list order. */
  function MainPass(geometry: Geometries, shapes: seq<ShapeData>, lights: seq<LightData>,
                    width: real, height: real): seq<Event> {
    [Begin(DefaultTarget, PixelExtent(width), PixelExtent(height), true),
     UploadLights(|lights|, LightUniforms(lights))]
    + ShapeDraws(geometry, shapes)
  }

  /** paintGL: occlusion pass and additive god-ray blend only when god rays
      are enabled, the main pass between them. */
  function Frame(g: Glm, geometry: Geometries, shapes: seq<ShapeData>, lights: seq<LightData>,
                 godRays: bool, width: real, height: real): seq<Event> {
    (if godRays then OcclusionPass(g, geometry, shapes, lights, width, height) else [])
    + MainPass(geometry, shapes, lights, width, height)
    + (if godRays then [BlendGodRays(GodRayPositions(g, lights))] else [])
  }

  /** An event that belongs to the god-ray effect. */
  predicate GodRayEvent(e: Event) {
    (e.Begin? && e.target == OcclusionTarget) || e.BlendGodRays?
  }

  /** Pass order: with god rays the frame opens on the occlusion target and
      ends with the blend; without them it opens by clearing the default
      target and touches neither the occlusion target nor the blend. */
  lemma PassOrder(g: Glm, geometry: Geometries, shapes: seq<ShapeData>, lights: seq<LightData>,
                  godRays: bool, width: real, height: real)
    ensures var f := Frame(g, geometry, shapes, lights, godRays, width, height);
      |f| >= 2
      && (godRays ==> f[0].Begin? && f[0].target == OcclusionTarget && f[0].clear
                      && f[|f| - 1] == BlendGodRays(GodRayPositions(g, lights)))
      && (!godRays ==> f[0] == Begin(DefaultTarget, PixelExtent(width), PixelExtent(height), true)
                       && forall e :: e in f ==> !GodRayEvent(e))
  {
    var f := Frame(g, geometry, shapes, lights, godRays, width, height);
    if !godRays {
      MeshesNeverDrawn(geometry, shapes);
      assert f == MainPass(geometry, shapes, lights, width, height);
      forall e | e in f ensures !GodRayEvent(e) {
        if e in ShapeDraws(geometry, shapes) {
          assert Drawn(geometry, e);
        }
      }
    }
  }

  /** The occlusion pass draws the shapes right after opening its target. */
  lemma OcclusionPassDraws(g: Glm, geometry: Geometries, shapes: seq<ShapeData>, lights: seq<LightData>,
                           width: real, height: real)
    ensures var o := OcclusionPass(g, geometry, shapes, lights, width, height);
      var k := |ShapeDraws(geometry, shapes)|;
      |o| == k + |lights| + 2 && o[1..1 + k] == ShapeDraws(geometry, shapes)
  {
    var draws := ShapeDraws(geometry, shapes);
    var k := |draws|;
    var opening := [Begin(OcclusionTarget, OcclusionExtent(width), OcclusionExtent(height), true)];
    var markers := MarkerDraws(g, geometry, lights);
    var closing := [Begin(DefaultTarget, PixelExtent(width), PixelExtent(height), false)];
    assert OcclusionPass(g, geometry, shapes, lights, width, height) == opening + draws + markers + closing;
    assert draws[0..k] == draws;
    SlicePrefix(opening + draws + markers, closing, 1, 1 + k);
    SlicePrefix(opening + draws, markers, 1, 1 + k);
    SliceSuffix(opening, draws, 0, k);
  }

  /** The main pass draws the shapes after clearing and uploading the lights. */
  lemma MainPassDraws(geometry: Geometries, shapes: seq<ShapeData>, lights: seq<LightData>,
                      width: real, height: real)
    ensures var m := MainPass(geometry, shapes, lights, width, height);
      var k := |ShapeDraws(geometry, shapes)|;
      |m| == k + 2 && m[2..] == ShapeDraws(geometry, shapes)
  {
    var draws := ShapeDraws(geometry, shapes);
    var header := [Begin(DefaultTarget, PixelExtent(width), PixelExtent(height), true),
                   UploadLights(|lights|, LightUniforms(lights))];
    assert draws[0..|draws|] == draws;
    SliceSuffix(header, draws, 0, |draws|);
  }

  /** With god rays the shapes are drawn twice, in the same order: once in
      the occlusion pass and once in the main pass, and every draw of the
      frame is a shape draw or a light marker. */
  lemma DrawsPerFrame(g: Glm, geometry: Geometries, shapes: seq<ShapeData>, lights: seq<LightData>,
                      width: real, height: real)
    ensures var f := Frame(g, geometry, shapes, lights, true, width, height);
      var k := |ShapeDraws(geometry, shapes)|;
      var occlusionDraws := f[1..1 + k];
      var mainDraws := f[|f| - 1 - k..|f| - 1];
      |f| == 2 * k + |lights| + 5 && k == DrawableCount(shapes)
      && occlusionDraws == mainDraws == ShapeDraws(geometry, shapes)
  {
    DrawsPerShape(geometry, shapes);
    OcclusionPassDraws(g, geometry, shapes, lights, width, height);
    MainPassDraws(geometry, shapes, lights, width, height);
    var occ := OcclusionPass(g, geometry, shapes, lights, width, height);
    var main := MainPass(geometry, shapes, lights, width, height);
    var blend := [BlendGodRays(GodRayPositions(g, lights))];
    assert Frame(g, geometry, shapes, lights, true, width, height) == occ + main + blend;
    DrawsInBothPasses(occ, main, blend, ShapeDraws(geometry, shapes));
  }

  /** Where a block d that follows one opening event in the first pass and
      ends the second pass sits in first + second + last, for one last event. */
  lemma DrawsInBothPasses<T>(first: seq<T>, second: seq<T>, last: seq<T>, d: seq<T>)
    requires |last| == 1 && |second| == |d| + 2
    requires 1 + |d| <= |first| && first[1..1 + |d|] == d && second[2..] == d
    ensures var f := first + second + last;
      f[1..1 + |d|] == d && f[|f| - 1 - |d|..|f| - 1] == d
  {
    var k := |d|;
    var f := first + second + last;
    SlicePrefix(first + second, last, 1, 1 + k);
    SlicePrefix(first, second, 1, 1 + k);
    SlicePrefix(first + second, last, |f| - 1 - k, |f| - 1);
    SliceSuffix(first, second, 2, 2 + k);
    assert second[2..2 + k] == second[2..];
  }

  // ---------------------------------------------------------------------
  // Camera movement

  datatype Key = KeyW | KeyA | KeyS | KeyD | KeySpace | KeyControl | OtherKey(code: int)

  /** m_keyMap[k]: an absent key reads as released. */
  function Pressed(keys: map<Key, bool>, k: Key): bool {
    k in keys && keys[k]
  }

  const WorldUp: Vec3 := Vec3(0.0, 1.0, 0.0)

  /** The movement from a pair of opposing keys, given the step one key
      makes: the step when only `plus` is held, its opposite when only
      `minus` is, nothing when both or neither are. */
  function Along(step: Vec3, plus: bool, minus: bool): Vec3 {
    if plus && !minus then step
    else if minus && !plus then Neg3(step)
    else Zero3
  }

  /** The movement of one tick, given the steps along the look axis, the
      right axis and world up: S against W, D against A, Space against
      Control. */
  function Movement(keys: map<Key, bool>, lookStep: Vec3, rightStep: Vec3, upStep: Vec3): Vec3 {
    Add3(Add3(Along(lookStep, Pressed(keys, KeyS), Pressed(keys, KeyW)),
              Along(rightStep, Pressed(keys, KeyD), Pressed(keys, KeyA))),
         Along(upStep, Pressed(keys, KeySpace), Pressed(keys, KeyControl)))
  }

  /** Subtracting the step for one key and adding it for its opposite, in
      either order, moves by Along. */
  lemma OpposingKeys(start: Vec3, step: Vec3, plus: bool, minus: bool)
    ensures var afterMinus := if minus then Sub3(start, step) else start;
      (if plus then Add3(afterMinus, step) else afterMinus) == Add3(start, Along(step, plus, minus))
    ensures var afterPlus := if plus then Add3(start, step) else start;
      (if minus then Sub3(afterPlus, step) else afterPlus) == Add3(start, Along(step, plus, minus))
  {
  }

  /** Of the six movement keys, exactly `k` is held. */
  predicate Only(keys: map<Key, bool>, k: Key) {
    forall m | m in MovementKeys :: Pressed(keys, m) <==> m == k
  }

  const MovementKeys: set<Key> := {KeyW, KeyA, KeyS, KeyD, KeySpace, KeyControl}

  /** The six keys' states, read from the map. */
  lemma KeyStates(keys: map<Key, bool>, k: Key)
    requires Only(keys, k)
    ensures Pressed(keys, KeyW) == (k == KeyW) && Pressed(keys, KeyS) == (k == KeyS)
    ensures Pressed(keys, KeyA) == (k == KeyA) && Pressed(keys, KeyD) == (k == KeyD)
    ensures Pressed(keys, KeySpace) == (k == KeySpace) && Pressed(keys, KeyControl) == (k == KeyControl)
  {
    assert KeyW in MovementKeys && KeyS in MovementKeys && KeyA in MovementKeys;
    assert KeyD in MovementKeys && KeySpace in MovementKeys && KeyControl in MovementKeys;
  }

  /** With no movement key held nothing moves. */
  lemma NoKeysNoMovement(keys: map<Key, bool>, lookStep: Vec3, rightStep: Vec3, upStep: Vec3)
    requires forall m | m in MovementKeys :: !Pressed(keys, m)
    ensures Movement(keys, lookStep, rightStep, upStep) == Zero3
  {
    assert KeyW in MovementKeys && KeyS in MovementKeys && KeyA in MovementKeys;
    assert KeyD in MovementKeys && KeySpace in MovementKeys && KeyControl in MovementKeys;
  }

  /** Holding W alone moves one step against the look axis, S alone one
      step along it. */
  lemma ForwardKeys(keys: map<Key, bool>, lookStep: Vec3, rightStep: Vec3, upStep: Vec3)
    ensures Only(keys, KeyW) ==> Movement(keys, lookStep, rightStep, upStep) == Neg3(lookStep)
    ensures Only(keys, KeyS) ==> Movement(keys, lookStep, rightStep, upStep) == lookStep
  {
    if Only(keys, KeyW) {
      KeyStates(keys, KeyW);
    }
    if Only(keys, KeyS) {
      KeyStates(keys, KeyS);
    }
  }

  /** With no horizontal key held, the movement is the vertical pair's. */
  lemma VerticalOnly(keys: map<Key, bool>, lookStep: Vec3, rightStep: Vec3, upStep: Vec3)
    requires !Pressed(keys, KeyW) && !Pressed(keys, KeyS) && !Pressed(keys, KeyA) && !Pressed(keys, KeyD)
    ensures Movement(keys, lookStep, rightStep, upStep)
         == Along(upStep, Pressed(keys, KeySpace), Pressed(keys, KeyControl))
  {
    var v := Along(upStep, Pressed(keys, KeySpace), Pressed(keys, KeyControl));
    assert Add3(Add3(Zero3, Zero3), v) == v;
  }

  /** Space and Control alone move straight up and down by `speed`, whatever
      the camera's orientation. */
  lemma VerticalKeys(keys: map<Key, bool>, lookStep: Vec3, rightStep: Vec3, speed: real)
    ensures Only(keys, KeySpace) ==> Movement(keys, lookStep, rightStep, Scale3(WorldUp, speed)) == Vec3(0.0, speed, 0.0)
    ensures Only(keys, KeyControl) ==> Movement(keys, lookStep, rightStep, Scale3(WorldUp, speed)) == Vec3(0.0, -speed, 0.0)
  {
    var up := Scale3(WorldUp, speed);
    assert up == Vec3(0.0, speed, 0.0) && Neg3(up) == Vec3(0.0, -speed, 0.0);
    if Only(keys, KeySpace) {
      KeyStates(keys, KeySpace);
      VerticalOnly(keys, lookStep, rightStep, up);
    }
    if Only(keys, KeyControl) {
      KeyStates(keys, KeyControl);
      VerticalOnly(keys, lookStep, rightStep, up);
    }
  }

  /** Holding both keys of a pair is the same as holding neither. */
  lemma OppositeKeysCancel(keys: map<Key, bool>, lookStep: Vec3, rightStep: Vec3, upStep: Vec3)
    ensures Movement(keys[KeyW := true][KeyS := true], lookStep, rightStep, upStep)
         == Movement(keys[KeyW := false][KeyS := false], lookStep, rightStep, upStep)
    ensures Movement(keys[KeyA := true][KeyD := true], lookStep, rightStep, upStep)
         == Movement(keys[KeyA := false][KeyD := false], lookStep, rightStep, upStep)
  {
    var both, neither := keys[KeyW := true][KeyS := true], keys[KeyW := false][KeyS := false];
    assert Along(lookStep, Pressed(both, KeyS), Pressed(both, KeyW)) == Zero3;
    assert Along(lookStep, Pressed(neither, KeyS), Pressed(neither, KeyW)) == Zero3;
    assert Pressed(both, KeyA) == Pressed(neither, KeyA) && Pressed(both, KeyD) == Pressed(neither, KeyD);
    assert Pressed(both, KeySpace) == Pressed(neither, KeySpace);
    assert Pressed(both, KeyControl) == Pressed(neither, KeyControl);
    both, neither := keys[KeyA := true][KeyD := true], keys[KeyA := false][KeyD := false];
    assert Along(rightStep, Pressed(both, KeyD), Pressed(both, KeyA)) == Zero3;
    assert Along(rightStep, Pressed(neither, KeyD), Pressed(neither, KeyA)) == Zero3;
    assert Pressed(both, KeyW) == Pressed(neither, KeyW) && Pressed(both, KeyS) == Pressed(neither, KeyS);
    assert Pressed(both, KeySpace) == Pressed(neither, KeySpace);
    assert Pressed(both, KeyControl) == Pressed(neither, KeyControl);
  }

  /** The look and right axes timerEvent reads from the inverse view matrix:
      its third and first columns, normalised. */
  function LookAxis(g: Glm, inverseView: Mat4): Vec3 {
    Normalize(g, Xyz(inverseView.c2))
  }

  function RightAxis(g: Glm, inverseView: Mat4): Vec3 {
    Normalize(g, Xyz(inverseView.c0))
  }

  // ---------------------------------------------------------------------
  // Regeneration on settings change

  /** The settings the renderer reads. */
  datatype Settings = Settings(sceneFilePath: string, shapeParameter1: int, shapeParameter2: int,
                               nearPlane: real, farPlane: real)

  /** A bool converted to int. */
  function BoolToInt(b: bool): int {
    if b then 1 else 0
  }

  /** settingsChanged's condition as written: the stored second parameter
      is a bool, and both stored parameters are compared with the first
      setting. */
  function RegenerateAsWritten(geometryInit: bool, currParam1: int, currParam2: bool, s: Settings): bool {
    geometryInit && (currParam1 != s.shapeParameter1 || BoolToInt(currParam2) != s.shapeParameter1)
  }

  /** The condition as intended: regenerate once the geometry exists and
      either parameter differs from the one it was generated with. */
  function Regenerate(geometryInit: bool, currParam1: int, currParam2: int, s: Settings): bool {
    geometryInit && (currParam1 != s.shapeParameter1 || currParam2 != s.shapeParameter2)
  }

  /** As written the decision never depends on the second parameter. */
  lemma AsWrittenIgnoresParameter2(geometryInit: bool, currParam1: int, currParam2: bool, s: Settings, p2: int)
    ensures RegenerateAsWritten(geometryInit, currParam1, currParam2, s)
         == RegenerateAsWritten(geometryInit, currParam1, currParam2, s.(shapeParameter2 := p2))
  {
  }

  /** The intended rule regenerates exactly when initialised geometry is
      stale: it skips only when both parameters still match. */
  lemma RegenerateWhenStale(geometryInit: bool, currParam1: int, currParam2: int, s: Settings)
    ensures !Regenerate(geometryInit, currParam1, currParam2, s)
      <==> !geometryInit || (s.shapeParameter1 == currParam1 && s.shapeParameter2 == currParam2)
  {
  }

  /** Two inputs where the rule as written goes wrong: a scene loaded with
      parameters (1, 7) stores (1, true); changing parameter 2 to 20 does not
      regenerate. A scene loaded with (5, 10) stores (5, true); with nothing
      changed it regenerates on every settings change. */
  lemma RegenerateAsWrittenWrong()
    ensures var loaded := Settings("scene.json", 1, 7, 0.1, 100.0);
      var changed := loaded.(shapeParameter2 := 20);
      !RegenerateAsWritten(true, 1, loaded.shapeParameter2 != 0, changed)
      && Regenerate(true, 1, loaded.shapeParameter2, changed)
    ensures var loaded := Settings("scene.json", 5, 10, 0.1, 100.0);
      RegenerateAsWritten(true, 5, loaded.shapeParameter2 != 0, loaded)
      && !Regenerate(true, 5, loaded.shapeParameter2, loaded)
  {
  }

  // ---------------------------------------------------------------------
  // The renderer


  class Renderer {
    const camera: Camera.Camera
    const renderData: RenderData
    var global: GlobalData
    var geometry: Geometries
    var geometryInit: bool
    var currParam1: int
    var currParam2: int
    var enableGodRays: bool
    var keyMap: map<Key, bool>
    /** size() * devicePixelRatio, as the window system reports them. */
    var deviceWidth: real
    var deviceHeight: real
    var occlusionWidth: int
    var occlusionHeight: int
    var trace: seq<Event>

    /** The six movement keys start released and the global coefficients
        at 0.5; no geometry exists yet. The scene is empty and the camera
        has its default state. */
    constructor (g: Glm, deviceWidth: real, deviceHeight: real)
      ensures camera.g == g && fresh(camera) && fresh(renderData)
      ensures renderData.shapes == [] && renderData.lights == []
      ensures camera.position == Zero3 && camera.look == Vec3(0.0, 0.0, 1.0) && camera.up == Vec3(0.0, 1.0, 0.0)
      ensures camera.heightAngle == 0.0 && camera.aspectRatio == 1.0
      ensures camera.nearPlane == 1.0 && camera.farPlane == 1.0
      ensures camera.viewGarbage && camera.projGarbage
      ensures keyMap == map[KeyW := false, KeyA := false, KeyS := false, KeyD := false,
                            KeyControl := false, KeySpace := false]
      ensures global.ka == 0.5 && global.kd == 0.5 && global.ks == 0.5
      ensures !geometryInit && currParam1 == 1 && currParam2 == 1
      ensures this.deviceWidth == deviceWidth && this.deviceHeight == deviceHeight && trace == []
    {
      camera := new Camera.Camera(g);
      renderData := new RenderData(CameraData(Origin, Origin, Origin, 0.0), GlobalData(0.0, 0.0, 0.0, 0.0));
      keyMap := map[KeyW := false, KeyA := false, KeyS := false, KeyD := false,
                    KeyControl := false, KeySpace := false];
      global := GlobalData(0.5, 0.5, 0.5, 0.0);
      geometryInit := false;
      currParam1 := 1;
      currParam2 := 1;
      this.deviceWidth := deviceWidth;
      this.deviceHeight := deviceHeight;
      trace := [];
    }

    /** The occlusion texture's size. */
    method InitializeOcclusionFBO()
      modifies this`occlusionWidth, this`occlusionHeight
      ensures occlusionWidth == OcclusionTextureSize(deviceWidth)
      ensures occlusionHeight == OcclusionTextureSize(deviceHeight)
    {
      var w := Trunc(deviceWidth / 2.0);
      var h := Trunc(deviceHeight / 2.0);
      if w < 1 {
        w := 1;
      }
      if h < 1 {
        h := 1;
      }
      occlusionWidth, occlusionHeight := w, h;
    }

    /** initializeShapeGeometry: generate every primitive and keep its
        vertex count, the buffer length over 6. */
    method InitializeShapeGeometry(param1: int, param2: int)
      modifies this`geometry
      ensures geometry == GeometryFor(param1, param2)
    {
      var g := camera.g;
      var sphere := SphereShape.GenerateSphereData(g, param1, param2);
      var cube := CubeShape.GenerateCubeData(g, param1);
      var cylinder := CylinderShape.GenerateCylinderData(g, param1, param2);
      var cone := ConeShape.GenerateConeData(g, param1, param2);
      GeometrySizes(g, param1, param2);
      geometry := Geometries(|cube| / 6, |sphere| / 6, |cylinder| / 6, |cone| / 6);
    }

    /** initializeGL's state decisions: the occlusion target, the geometry,
        then god rays on. */
    method InitializeGL(settings: Settings)
      modifies this`occlusionWidth, this`occlusionHeight, this`geometry, this`geometryInit, this`enableGodRays
      ensures occlusionWidth == OcclusionTextureSize(deviceWidth)
      ensures occlusionHeight == OcclusionTextureSize(deviceHeight)
      ensures geometry == GeometryFor(settings.shapeParameter1, settings.shapeParameter2)
      ensures geometryInit && enableGodRays
    {
      InitializeOcclusionFBO();
      ghost var width, height := occlusionWidth, occlusionHeight;
      InitializeShapeGeometry(settings.shapeParameter1, settings.shapeParameter2);
      assert occlusionWidth == width && occlusionHeight == height;
      geometryInit := true;
      enableGodRays := true;
    }

    /** drawShape: the dispatch on the primitive type. */
    method DrawShape(shape: ShapeData)
      modifies this`trace
      ensures trace == old(trace) + DrawOf(geometry, shape)
    {
      var vertices: int;
      match shape.primitive.kind {
        case Cube => vertices := geometry.cube;
        case Sphere => vertices := geometry.sphere;
        case Cone => vertices := geometry.cone;
        case Cylinder => vertices := geometry.cylinder;
        case Mesh => return;
      }
      trace := trace + [DrawCall(Draw(shape.primitive.kind, vertices, shape.ctm))];
    }

    /** The main pass's loop: drawShape for every shape in list order. */
    method DrawShapes()
      modifies this`trace
      ensures trace == old(trace) + ShapeDraws(geometry, renderData.shapes)
    {
      var shapes := renderData.shapes;
      var i := 0;
      while i < |shapes|
        invariant 0 <= i <= |shapes|
        invariant trace == old(trace) + ShapeDraws(geometry, shapes[..i])
      {
        ShapeDrawsStep(geometry, shapes, i);
        DrawShape(shapes[i]);
        Assoc(old(trace), ShapeDraws(geometry, shapes[..i]), DrawOf(geometry, shapes[i]));
        i := i + 1;
      }
      assert shapes[..|shapes|] == shapes;
    }

    /** passLightsToShader: the count, then one uniform block per light. */
    method PassLightsToShader()
      modifies this`trace
      ensures trace == old(trace) + [UploadLights(|renderData.lights|, LightUniforms(renderData.lights))]
    {
      var info := renderData.lights;
      var uniforms := [];
      var i := 0;
      while i < |info|
        invariant 0 <= i <= |info|
        invariant |uniforms| == i
        invariant forall j :: 0 <= j < i ==> uniforms[j] == LightUniformOf(info[j])
      {
        var light := info[i];
        var code: int;
        match light.kind {
          case DirectionalLight => code := 0;
          case PointLight => code := 1;
          case SpotLight => code := 2;
        }
        var position: Option<Vec4> := None;
        var direction: Option<Vec4> := None;
        var penumbra: Option<real> := None;
        var angle: Option<real> := None;
        if code == 1 || code == 2 {
          position := Some(light.pos);
        }
        if code == 0 || code == 2 {
          direction := Some(light.dir);
        }
        if code == 2 {
          penumbra, angle := Some(light.penumbra), Some(light.angle);
        }
        uniforms := uniforms + [LightUniform(code, light.color, light.falloff, position, direction, penumbra, angle)];
        i := i + 1;
      }
      assert uniforms == LightUniforms(info);
      trace := trace + [UploadLights(|info|, uniforms)];
    }

    /** renderOcclusion's shape loop: meshes are skipped with `continue`. */
    method OcclusionShapes()
      modifies this`trace
      ensures trace == old(trace) + ShapeDraws(geometry, renderData.shapes)
    {
      var shapes := renderData.shapes;
      var i := 0;
      while i < |shapes|
        invariant 0 <= i <= |shapes|
        invariant trace == old(trace) + ShapeDraws(geometry, shapes[..i])
      {
        ShapeDrawsStep(geometry, shapes, i);
        var kind := shapes[i].primitive.kind;
        if kind == Mesh {
          assert DrawOf(geometry, shapes[i]) == [];
          i := i + 1;
          continue;
        }
        var vertices := match kind
          case Cube => geometry.cube
          case Sphere => geometry.sphere
          case Cone => geometry.cone
          case Cylinder => geometry.cylinder;
        trace := trace + [DrawCall(Draw(kind, vertices, shapes[i].ctm))];
        Assoc(old(trace), ShapeDraws(geometry, shapes[..i]), DrawOf(geometry, shapes[i]));
        i := i + 1;
      }
      assert shapes[..|shapes|] == shapes;
    }

    /** renderOcclusion's light loop: one sphere per light, placed and
        scaled by the light's type. */
    method OcclusionMarkers()
      modifies this`trace
      ensures trace == old(trace) + MarkerDraws(camera.g, geometry, renderData.lights)
    {
      var g := camera.g;
      var lights := renderData.lights;
      var markers := [];
      var i := 0;
      while i < |lights|
        invariant 0 <= i <= |lights|
        invariant |markers| == i
        invariant forall j :: 0 <= j < i ==> markers[j] == DrawCall(Draw(Sphere, geometry.sphere, MarkerModel(g, lights[j])))
      {
        var light := lights[i];
        var position: Vec3;
        var scale: real;
        if light.kind == DirectionalLight {
          position := Scale3(Normalize(g, Xyz(light.dir)), 100.0);
          scale := 15.0;
        } else if light.kind == PointLight {
          position := Xyz(light.pos);
          scale := 0.5;
        } else {
          position := Xyz(light.pos);
          scale := 0.3;
        }
        var model := Mul(Translation(position), Scaling(Vec3(scale, scale, scale)));
        markers := markers + [DrawCall(Draw(Sphere, geometry.sphere, model))];
        i := i + 1;
      }
      assert markers == MarkerDraws(g, geometry, lights);
      trace := trace + markers;
    }

    /** renderOcclusion: clear the half-resolution target, draw the shapes
        and the markers, then restore the main viewport. */
    method RenderOcclusion()
      modifies this`trace
      ensures trace == old(trace) + OcclusionPass(camera.g, geometry, renderData.shapes, renderData.lights,
                                                  deviceWidth, deviceHeight)
    {
      trace := trace + [Begin(OcclusionTarget, Trunc(deviceWidth / 2.0), Trunc(deviceHeight / 2.0), true)];
      ghost var t1 := trace;
      OcclusionShapes();
      ghost var t2 := trace;
      OcclusionMarkers();
      ghost var t3 := trace;
      trace := trace + [Begin(DefaultTarget, Trunc(deviceWidth), Trunc(deviceHeight), false)];
      assert t3 == t1 + ShapeDraws(geometry, renderData.shapes) + MarkerDraws(camera.g, geometry, renderData.lights);
    }

    /** blendCrepuscular: the lights' world positions feed the blur. */
    method BlendCrepuscular()
      modifies this`trace
      ensures trace == old(trace) + [BlendGodRays(GodRayPositions(camera.g, renderData.lights))]
    {
      var g := camera.g;
      var lights := renderData.lights;
      var positions := [];
      var i := 0;
      while i < |lights|
        invariant 0 <= i <= |lights|
        invariant |positions| == i
        invariant forall j :: 0 <= j < i ==> positions[j] == GodRayPosition(g, lights[j])
      {
        var light := lights[i];
        var position: Vec3;
        if light.kind == DirectionalLight {
          position := Scale3(Normalize(g, Xyz(light.dir)), 100.0);
        } else if light.kind == PointLight {
          position := Xyz(light.pos);
        } else {
          position := Xyz(light.pos);
        }
        positions := positions + [position];
        i := i + 1;
      }
      assert positions == GodRayPositions(g, lights);
      trace := trace + [BlendGodRays(positions)];
    }

    /** paintGL: the three passes. */
    method PaintGL()
      modifies this`trace
      ensures trace == old(trace) + Frame(camera.g, geometry, renderData.shapes, renderData.lights,
                                          enableGodRays, deviceWidth, deviceHeight)
    {
      ghost var g, shapes, lights := camera.g, renderData.shapes, renderData.lights;
      ghost var occlusion := if enableGodRays then OcclusionPass(g, geometry, shapes, lights, deviceWidth, deviceHeight) else [];
      ghost var main := MainPass(geometry, shapes, lights, deviceWidth, deviceHeight);
      ghost var blend := if enableGodRays then [BlendGodRays(GodRayPositions(g, lights))] else [];
      if enableGodRays {
        RenderOcclusion();
      }
      ghost var t1 := trace;
      trace := trace + [Begin(DefaultTarget, Trunc(deviceWidth), Trunc(deviceHeight), true)];
      PassLightsToShader();
      ghost var header := [Begin(DefaultTarget, PixelExtent(deviceWidth), PixelExtent(deviceHeight), true),
                           UploadLights(|lights|, LightUniforms(lights))];
      assert trace == t1 + header;
      DrawShapes();
      Assoc(t1, header, ShapeDraws(geometry, shapes));
      if enableGodRays {
        BlendCrepuscular();
      }
      Assoc(old(trace), occlusion, main);
      Assoc(old(trace), occlusion + main, blend);
    }

    method KeyPress(k: Key)
      modifies this`keyMap
      ensures keyMap == old(keyMap)[k := true]
    {
      keyMap := keyMap[k := true];
    }

    method KeyRelease(k: Key)
      modifies this`keyMap
      ensures keyMap == old(keyMap)[k := false]
    {
      keyMap := keyMap[k := false];
    }

    /** timerEvent's accumulation: for each held key, subtract or add its
        step, in the source's key order. */
    method AccumulateMovement(lookStep: Vec3, rightStep: Vec3, upStep: Vec3) returns (movement: Vec3)
      ensures movement == Movement(keyMap, lookStep, rightStep, upStep)
    {
      movement := Zero3;
      if Pressed(keyMap, KeyW) { movement := Sub3(movement, lookStep); }
      if Pressed(keyMap, KeyS) { movement := Add3(movement, lookStep); }
      OpposingKeys(Zero3, lookStep, Pressed(keyMap, KeyS), Pressed(keyMap, KeyW));
      ghost var forward := movement;
      if Pressed(keyMap, KeyA) { movement := Sub3(movement, rightStep); }
      if Pressed(keyMap, KeyD) { movement := Add3(movement, rightStep); }
      OpposingKeys(forward, rightStep, Pressed(keyMap, KeyD), Pressed(keyMap, KeyA));
      ghost var level := movement;
      if Pressed(keyMap, KeySpace) { movement := Add3(movement, upStep); }
      if Pressed(keyMap, KeyControl) { movement := Sub3(movement, upStep); }
      OpposingKeys(level, upStep, Pressed(keyMap, KeySpace), Pressed(keyMap, KeyControl));
    }

    /** timerEvent: move at 5 units per second along the held keys' axes,
        and translate the camera only when the movement has non-zero
        length. */
    method TimerEvent(elapsedMs: int)
      modifies camera`position, camera`viewMatrix, camera`invViewMatrix, camera`viewGarbage
      ensures var inverseView := camera.g.inverse(Camera.ViewMatrix(camera.g, old(camera.position), camera.look, camera.up));
        var speed := 5.0 * (elapsedMs as real * 0.001);
        var m := Movement(keyMap, Scale3(LookAxis(camera.g, inverseView), speed),
                          Scale3(RightAxis(camera.g, inverseView), speed), Scale3(WorldUp, speed));
        camera.position == (if Length(camera.g, m) > 0.0 then Add3(old(camera.position), m) else old(camera.position))
      ensures camera.look == old(camera.look) && camera.up == old(camera.up)
    {
      var g := camera.g;
      ghost var start := camera.position;
      var deltaTime := elapsedMs as real * 0.001;
      var speed := 5.0 * deltaTime;
      var inverseView := camera.GetInverseViewMatrix();
      assert inverseView == g.inverse(Camera.ViewMatrix(g, start, camera.look, camera.up));
      var look := Normalize(g, Xyz(inverseView.c2));
      var right := Normalize(g, Xyz(inverseView.c0));
      var up := Vec3(0.0, 1.0, 0.0);
      var movement := AccumulateMovement(Scale3(look, speed), Scale3(right, speed), Scale3(up, speed));
      assert movement == Movement(keyMap, Scale3(LookAxis(g, inverseView), speed),
                                  Scale3(RightAxis(g, inverseView), speed), Scale3(WorldUp, speed));
      if Length(g, movement) > 0.0 {
        camera.Translate(movement);
      }
    }

    /** settingsChanged: the camera planes follow the settings, and the
        geometry is rebuilt when the intended rule says it is stale. */
    method SettingsChanged(settings: Settings)
      modifies camera`nearPlane, camera`farPlane, camera`projMatrix, camera`projGarbage
      modifies camera`viewMatrix, camera`invViewMatrix, camera`viewGarbage, this`geometry
      ensures camera.nearPlane == settings.nearPlane && camera.farPlane == settings.farPlane
      ensures camera.position == old(camera.position) && camera.look == old(camera.look) && camera.up == old(camera.up)
      ensures geometry == if Regenerate(geometryInit, currParam1, currParam2, settings)
                          then GeometryFor(settings.shapeParameter1, settings.shapeParameter2)
                          else old(geometry)
    {
      camera.SetNearPlane(settings.nearPlane);
      camera.SetFarPlane(settings.farPlane);
      var view := camera.GetViewMatrix();
      var projection := camera.GetProjectionMatrix();
      if geometryInit && (currParam1 != settings.shapeParameter1 || currParam2 != settings.shapeParameter2) {
        InitializeShapeGeometry(settings.shapeParameter1, settings.shapeParameter2);
      }
    }

    /** sceneChanged's camera set-up from the parsed scene. */
    method LoadCamera(cam: CameraData, aspectRatio: real, settings: Settings)
      modifies camera
      ensures camera.position == Xyz(cam.pos) && camera.look == Xyz(cam.look)
      ensures camera.up == Normalize(camera.g, Xyz(cam.up))
      ensures camera.aspectRatio == aspectRatio && camera.heightAngle == cam.heightAngle
      ensures camera.widthAngle == Camera.WidthAngle(camera.g, aspectRatio, cam.heightAngle)
      ensures camera.nearPlane == settings.nearPlane && camera.farPlane == settings.farPlane
    {
      camera.SetPosition(Xyz(cam.pos));
      camera.SetLook(Xyz(cam.look));
      camera.SetUp(Xyz(cam.up));
      camera.SetAspectRatio(aspectRatio);
      camera.SetAngles(cam.heightAngle);
      camera.SetNearPlane(settings.nearPlane);
      camera.SetFarPlane(settings.farPlane);
      var view := camera.GetViewMatrix();
      var projection := camera.GetProjectionMatrix();
    }

    /** sceneChanged: nothing changes when no scene file is set or the file
        does not parse; otherwise the scene's globals and camera are taken,
        the parameters recorded and the occlusion target and geometry
        rebuilt. The window's aspect ratio is given by the window system. */
    method SceneChanged(settings: Settings, read: ReadResult, aspectRatio: real)
      modifies this`global, this`currParam1, this`currParam2, this`geometry
      modifies this`occlusionWidth, this`occlusionHeight, camera, renderData
      ensures settings.sceneFilePath == [] || read.ReadFailed? ==>
        global == old(global) && geometry == old(geometry)
        && currParam1 == old(currParam1) && currParam2 == old(currParam2)
        && occlusionWidth == old(occlusionWidth) && occlusionHeight == old(occlusionHeight)
        && unchanged(camera)
        && renderData.camera == old(renderData.camera) && renderData.global == old(renderData.global)
        && renderData.shapes == old(renderData.shapes) && renderData.lights == old(renderData.lights)
      ensures settings.sceneFilePath != [] && read.Read? ==>
        global == read.global
        && renderData.camera == read.camera && renderData.global == read.global
        && renderData.shapes == Shapes(camera.g, read.root, Identity)
        && renderData.lights == Lights(camera.g, read.root, Identity)
        && camera.position == Xyz(read.camera.pos) && camera.look == Xyz(read.camera.look)
        && camera.up == Normalize(camera.g, Xyz(read.camera.up))
        && camera.aspectRatio == aspectRatio && camera.heightAngle == read.camera.heightAngle
        && camera.widthAngle == Camera.WidthAngle(camera.g, aspectRatio, read.camera.heightAngle)
        && camera.nearPlane == settings.nearPlane && camera.farPlane == settings.farPlane
        && currParam1 == settings.shapeParameter1 && currParam2 == settings.shapeParameter2
        && geometry == GeometryFor(settings.shapeParameter1, settings.shapeParameter2)
        && occlusionWidth == OcclusionTextureSize(deviceWidth)
        && occlusionHeight == OcclusionTextureSize(deviceHeight)
    {
      if settings.sceneFilePath == [] {
        return;
      }
      var success := renderData.Parse(camera.g, read);
      if !success {
        return;
      }
      global := renderData.global;
      LoadCamera(renderData.camera, aspectRatio, settings);
      currParam1 := settings.shapeParameter1;
      currParam2 := settings.shapeParameter2;
      InitializeOcclusionFBO();
      InitializeShapeGeometry(settings.shapeParameter1, settings.shapeParameter2);
    }
  }
}
