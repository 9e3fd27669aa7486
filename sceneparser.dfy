/** Flattening of the scene graph: a depth-first, pre-order walk that carries
    the cumulative transformation matrix down the tree and appends one shape
    record per primitive and one light record per light. The scene-file reader
    is not part of this model: its result is passed in. */
module SceneParser {
  import opened Linear
  import opened Numerics
  import opened Sequences

  datatype PrimitiveType = Cube | Cone | Cylinder | Sphere | Mesh

  /** A ScenePrimitive; the material is carried along unchanged. */
  datatype Primitive = Primitive(kind: PrimitiveType, material: nat, meshfile: string)

  datatype LightType = PointLight | DirectionalLight | SpotLight

  /** A SceneLight as the file describes it, in its node's own space. */
  datatype Light = Light(id: int, kind: LightType, color: Vec4, falloff: Vec3, dir: Vec4,
                         penumbra: real, angle: real, width: real, height: real)

  datatype Transformation =
    | Translate(offset: Vec3)
    | Rotate(angle: real, axis: Vec3)
    | Scale(factors: Vec3)
    | Matrix(m: Mat4)

  /** A child slot: either null or a node of the tree. */
  datatype SceneNode =
    | Null
    | Node(transformations: seq<Transformation>, primitives: seq<Primitive>,
           lights: seq<Light>, children: seq<SceneNode>)

  /** RenderShapeData: a primitive and the cumulative matrix of its node. */
  datatype ShapeData = ShapeData(primitive: Primitive, ctm: Mat4)

  /** SceneLightData: a light placed in world space. */
  datatype LightData = LightData(id: int, kind: LightType, color: Vec4, falloff: Vec3,
                                 pos: Vec4, dir: Vec4, penumbra: real, angle: real,
                                 width: real, height: real)

  datatype CameraData = CameraData(pos: Vec4, look: Vec4, up: Vec4, heightAngle: real)

  datatype GlobalData = GlobalData(ka: real, kd: real, ks: real, kt: real)

  /** What the scene-file reader yields: failure, or the camera, the global
      coefficients and the root of the scene graph. */
  datatype ReadResult = ReadFailed | Read(camera: CameraData, global: GlobalData, root: SceneNode)

  /** The matrix of one transformation, each built from the identity. */
  function TransformMatrix(g: Glm, t: Transformation): Mat4 {
    match t
    case Translate(v) => Translation(v)
    case Rotate(a, axis) => g.rotate(a, axis)
    case Scale(v) => Scaling(v)
    case Matrix(m) => m
  }

  /** T1 * T2 * ... * Tn: the identity right-multiplied by each transformation
      in list order. */
  function LocalMatrix(g: Glm, ts: seq<Transformation>): Mat4 {
    if ts == [] then Identity else Mul(LocalMatrix(g, ts[..|ts| - 1]), TransformMatrix(g, ts[|ts| - 1]))
  }

  /** A light record: position ctm * (0,0,0,1), direction ctm * dir, every other
      field copied. */
  function PlaceLight(l: Light, ctm: Mat4): LightData {
    LightData(l.id, l.kind, l.color, l.falloff, Apply(ctm, Origin), Apply(ctm, l.dir),
              l.penumbra, l.angle, l.width, l.height)
  }

  function ShapesOf(ps: seq<Primitive>, ctm: Mat4): (r: seq<ShapeData>)
    ensures |r| == |ps|
  {
    seq(|ps|, i requires 0 <= i < |ps| => ShapeData(ps[i], ctm))
  }

  function LightsOf(ls: seq<Light>, ctm: Mat4): (r: seq<LightData>)
    ensures |r| == |ls|
  {
    seq(|ls|, i requires 0 <= i < |ls| => PlaceLight(ls[i], ctm))
  }

  /** The cumulative matrix of a node reached with the parent's matrix ctm. */
  function NodeMatrix(g: Glm, n: SceneNode, ctm: Mat4): Mat4
    requires n.Node?
  {
    Mul(ctm, LocalMatrix(g, n.transformations))
  }

  /** The shape records nodeTraversal appends for a subtree. */
  function Shapes(g: Glm, n: SceneNode, ctm: Mat4): seq<ShapeData>
    decreases n
  {
    if n.Null? then []
    else
      var m := NodeMatrix(g, n, ctm);
      ShapesOf(n.primitives, m) + ShapesList(g, n.children, m)
  }

  function ShapesList(g: Glm, kids: seq<SceneNode>, ctm: Mat4): seq<ShapeData>
    decreases kids
  {
    if kids == [] then []
    else ShapesList(g, kids[..|kids| - 1], ctm) + Shapes(g, kids[|kids| - 1], ctm)
  }

  /** The light records nodeTraversal appends for a subtree. */
  function Lights(g: Glm, n: SceneNode, ctm: Mat4): seq<LightData>
    decreases n
  {
    if n.Null? then []
    else
      var m := NodeMatrix(g, n, ctm);
      LightsOf(n.lights, m) + LightsList(g, n.children, m)
  }

  function LightsList(g: Glm, kids: seq<SceneNode>, ctm: Mat4): seq<LightData>
    decreases kids
  {
    if kids == [] then []
    else LightsList(g, kids[..|kids| - 1], ctm) + Lights(g, kids[|kids| - 1], ctm)
  }

  /** One more child appends that child's records. */
  lemma ListStep(g: Glm, kids: seq<SceneNode>, i: nat, ctm: Mat4)
    requires i < |kids|
    ensures ShapesList(g, kids[..i + 1], ctm) == ShapesList(g, kids[..i], ctm) + Shapes(g, kids[i], ctm)
    ensures LightsList(g, kids[..i + 1], ctm) == LightsList(g, kids[..i], ctm) + Lights(g, kids[i], ctm)
  {
    assert kids[..i + 1][..i] == kids[..i];
  }

  /** The number of primitives in a subtree. */
  function PrimitiveCount(n: SceneNode): nat
    decreases n
  {
    if n.Null? then 0 else |n.primitives| + PrimitiveCountList(n.children)
  }

  function PrimitiveCountList(kids: seq<SceneNode>): nat
    decreases kids
  {
    if kids == [] then 0 else PrimitiveCountList(kids[..|kids| - 1]) + PrimitiveCount(kids[|kids| - 1])
  }

  /** The number of lights in a subtree. */
  function LightCount(n: SceneNode): nat
    decreases n
  {
    if n.Null? then 0 else |n.lights| + LightCountList(n.children)
  }

  function LightCountList(kids: seq<SceneNode>): nat
    decreases kids
  {
    if kids == [] then 0 else LightCountList(kids[..|kids| - 1]) + LightCount(kids[|kids| - 1])
  }

  /** The local matrix of a concatenation is the product of the local matrices,
      so it does not matter how the list is split. */
  lemma {:induction false} LocalMatrixAppend(g: Glm, a: seq<Transformation>, b: seq<Transformation>)
    ensures LocalMatrix(g, a + b) == Mul(LocalMatrix(g, a), LocalMatrix(g, b))
    decreases |b|
  {
    if b == [] {
      assert a + b == a;
      MulIdentity(LocalMatrix(g, a));
    } else {
      var b' := b[..|b| - 1];
      var t := TransformMatrix(g, b[|b| - 1]);
      assert (a + b)[..|a + b| - 1] == a + b';
      assert (a + b)[|a + b| - 1] == b[|b| - 1];
      LocalMatrixAppend(g, a, b');
      MulAssoc(LocalMatrix(g, a), LocalMatrix(g, b'), t);
    }
  }

  /** A node without transformations has the identity as local matrix, and so
      inherits its parent's matrix unchanged. */
  lemma NoTransformationsInherit(g: Glm, n: SceneNode, ctm: Mat4)
    requires n.Node? && n.transformations == []
    ensures NodeMatrix(g, n, ctm) == ctm
  {
    MulIdentity(ctm);
  }

  /** The local matrix of a single transformation is that transformation's
      matrix. */
  lemma SingleLocalMatrix(g: Glm, x: Transformation)
    ensures LocalMatrix(g, [x]) == TransformMatrix(g, x)
  {
    assert [x][..0] == [];
    MulIdentity(TransformMatrix(g, x));
  }

  /** A node whose only transformation is a translation by t, reached from
      the identity, has the translation matrix as its cumulative matrix. */
  lemma TranslatedNodeMatrix(g: Glm, n: SceneNode, t: Vec3)
    requires n.Node? && n.transformations == [Translate(t)]
    ensures NodeMatrix(g, n, Identity) == Translation(t)
  {
    var local := LocalMatrix(g, n.transformations);
    SingleLocalMatrix(g, Translate(t));
    MulIdentity(local);
  }

  /** A node with one light and no children emits that light placed at the
      node's matrix. */
  lemma SingleLightLeaf(g: Glm, n: SceneNode, l: Light, ctm: Mat4)
    requires n.Node? && n.children == [] && n.lights == [l]
    ensures Lights(g, n, ctm) == [PlaceLight(l, NodeMatrix(g, n, ctm))]
  {
    var m := NodeMatrix(g, n, ctm);
    assert LightsList(g, [], m) == [];
    assert LightsOf([l], m) == [PlaceLight(l, m)];
  }

  /** A leaf whose only transformation is a translation by t and whose only
      light is l, reached from the identity, places l exactly at t. */
  lemma TranslatedLight(g: Glm, n: SceneNode, l: Light, t: Vec3)
    requires n.Node? && n.transformations == [Translate(t)] && n.children == [] && n.lights == [l]
    ensures Lights(g, n, Identity) == [PlaceLight(l, Translation(t))]
      && Lights(g, n, Identity)[0].pos == Point(t)
  {
    TranslatedNodeMatrix(g, n, t);
    SingleLightLeaf(g, n, l, Identity);
    TranslationOfOrigin(t);
  }

  /** A null node emits nothing. */
  lemma NullEmitsNothing(g: Glm, ctm: Mat4)
    ensures Shapes(g, Null, ctm) == [] && Lights(g, Null, ctm) == []
  {
  }

  /** Every primitive of the tree gives exactly one shape record. */
  lemma {:induction false} ShapeCount(g: Glm, n: SceneNode, ctm: Mat4)
    ensures |Shapes(g, n, ctm)| == PrimitiveCount(n)
    decreases n
  {
    if n.Node? {
      ShapeCountList(g, n.children, NodeMatrix(g, n, ctm));
    }
  }

  lemma {:induction false} ShapeCountList(g: Glm, kids: seq<SceneNode>, ctm: Mat4)
    ensures |ShapesList(g, kids, ctm)| == PrimitiveCountList(kids)
    decreases kids
  {
    if kids != [] {
      ShapeCountList(g, kids[..|kids| - 1], ctm);
      ShapeCount(g, kids[|kids| - 1], ctm);
    }
  }

  /** Every light of the tree gives exactly one light record. */
  lemma {:induction false} LightRecordCount(g: Glm, n: SceneNode, ctm: Mat4)
    ensures |Lights(g, n, ctm)| == LightCount(n)
    decreases n
  {
    if n.Node? {
      LightRecordCountList(g, n.children, NodeMatrix(g, n, ctm));
    }
  }

  lemma {:induction false} LightRecordCountList(g: Glm, kids: seq<SceneNode>, ctm: Mat4)
    ensures |LightsList(g, kids, ctm)| == LightCountList(kids)
    decreases kids
  {
    if kids != [] {
      LightRecordCountList(g, kids[..|kids| - 1], ctm);
      LightRecordCount(g, kids[|kids| - 1], ctm);
    }
  }

  /** Pre-order: a node's own records come first, in list order and with the
      node's matrix; its children's records follow, child by child, each
      child walked with the node's matrix. */
  lemma NodeFirst(g: Glm, n: SceneNode, ctm: Mat4)
    requires n.Node?
    ensures var m := Mul(ctm, LocalMatrix(g, n.transformations));
      var s := Shapes(g, n, ctm);
      |s| >= |n.primitives|
      && (forall i :: 0 <= i < |n.primitives| ==> s[i] == ShapeData(n.primitives[i], m))
      && s[|n.primitives|..] == ShapesList(g, n.children, m)
  {
  }

  /** The records of a list of children are those of each child in order. */
  lemma {:induction false} ChildrenInOrder(g: Glm, a: seq<SceneNode>, b: seq<SceneNode>, ctm: Mat4)
    ensures ShapesList(g, a + b, ctm) == ShapesList(g, a, ctm) + ShapesList(g, b, ctm)
    ensures LightsList(g, a + b, ctm) == LightsList(g, a, ctm) + LightsList(g, b, ctm)
    decreases |b|
  {
    if b == [] {
      assert a + b == a;
    } else {
      assert (a + b)[..|a + b| - 1] == a + b[..|b| - 1];
      assert (a + b)[|a + b| - 1] == b[|b| - 1];
      ChildrenInOrder(g, a, b[..|b| - 1], ctm);
    }
  }

  /** The render data the parser fills. */
  class RenderData {
    var camera: CameraData
    var global: GlobalData
    var shapes: seq<ShapeData>
    var lights: seq<LightData>

    constructor (camera: CameraData, global: GlobalData)
      ensures this.camera == camera && this.global == global && shapes == [] && lights == []
    {
      this.camera := camera;
      this.global := global;
      shapes := [];
      lights := [];
    }

    /** The local matrix, folded as the source folds it. */
    static method ComposeLocal(g: Glm, ts: seq<Transformation>) returns (m: Mat4)
      ensures m == LocalMatrix(g, ts)
    {
      m := Identity;
      var i := 0;
      while i < |ts|
        invariant 0 <= i <= |ts|
        invariant m == LocalMatrix(g, ts[..i])
      {
        assert ts[..i + 1][..i] == ts[..i];
        m := Mul(m, TransformMatrix(g, ts[i]));
        i := i + 1;
      }
      assert ts[..|ts|] == ts;
    }

    /** nodeTraversal's first loop: one shape per primitive, with the node's
        cumulative matrix, in list order. */
    method AppendPrimitives(ps: seq<Primitive>, m: Mat4)
      modifies this`shapes
      ensures shapes == old(shapes) + ShapesOf(ps, m)
    {
      var i := 0;
      while i < |ps|
        invariant 0 <= i <= |ps|
        invariant shapes == old(shapes) + ShapesOf(ps[..i], m)
      {
        shapes := shapes + [ShapeData(ps[i], m)];
        i := i + 1;
      }
      assert ps[..|ps|] == ps;
    }

    /** nodeTraversal's second loop: each light placed by the node's
        cumulative matrix, in list order. */
    method AppendLights(ls: seq<Light>, m: Mat4)
      modifies this`lights
      ensures lights == old(lights) + LightsOf(ls, m)
    {
      var i := 0;
      while i < |ls|
        invariant 0 <= i <= |ls|
        invariant lights == old(lights) + LightsOf(ls[..i], m)
      {
        lights := lights + [PlaceLight(ls[i], m)];
        i := i + 1;
      }
      assert ls[..|ls|] == ls;
    }

    method NodeTraversal(g: Glm, n: SceneNode, ctm: Mat4)
      modifies this`shapes, this`lights
      ensures shapes == old(shapes) + Shapes(g, n, ctm)
      ensures lights == old(lights) + Lights(g, n, ctm)
      decreases n
    {
      if n.Null? {
        return;
      }
      var local := ComposeLocal(g, n.transformations);
      var m := Mul(ctm, local);
      assert m == NodeMatrix(g, n, ctm);
      AppendPrimitives(n.primitives, m);
      AppendLights(n.lights, m);
      ghost var shapes0 := shapes;
      ghost var lights0 := lights;

      var kids := n.children;
      var i := 0;
      while i < |kids|
        invariant 0 <= i <= |kids|
        invariant shapes == shapes0 + ShapesList(g, kids[..i], m)
        invariant lights == lights0 + LightsList(g, kids[..i], m)
      {
        ListStep(g, kids, i, m);
        NodeTraversal(g, kids[i], m);
        Assoc(shapes0, ShapesList(g, kids[..i], m), Shapes(g, kids[i], m));
        Assoc(lights0, LightsList(g, kids[..i], m), Lights(g, kids[i], m));
        i := i + 1;
      }
      assert kids[..|kids|] == kids;
      Assoc(old(shapes), ShapesOf(n.primitives, m), ShapesList(g, kids, m));
      Assoc(old(lights), LightsOf(n.lights, m), LightsList(g, kids, m));
    }

    /** parse: on a failed read nothing changes and the result is false;
        otherwise camera and global data are copied, the lists cleared and the
        tree walked from the identity. */
    method Parse(g: Glm, read: ReadResult) returns (ok: bool)
      modifies this
      ensures ok == read.Read?
      ensures !ok ==> camera == old(camera) && global == old(global)
                      && shapes == old(shapes) && lights == old(lights)
      ensures ok ==> camera == read.camera && global == read.global
                     && shapes == Shapes(g, read.root, Identity)
                     && lights == Lights(g, read.root, Identity)
    {
      if read.ReadFailed? {
        return false;
      }
      camera := read.camera;
      global := read.global;
      shapes := [];
      lights := [];
      NodeTraversal(g, read.root, Identity);
      return true;
    }
  }
}
