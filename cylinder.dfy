/** The cylinder generator: a cylinder of radius 0.5 and height 1 centred on
    the origin, cut into param2 wedges; each wedge is a bottom cap sector, a
    body strip and a top cap sector, each of param1 tiles. */
module Cylinder {
  import opened Linear
  import opened Numerics
  import opened Sequences
  import opened Mesh

  const Radius: real := 0.5
  const HalfHeight: real := 0.5

  /** calculateBodyNormal: the position with y dropped, normalised. */
  function BodyNormal(g: Glm, q: Vec3): Vec3 {
    Normalize(g, Vec3(q.x, 0.0, q.z))
  }

  function BodyVertex(g: Glm, q: Vec3): Vertex {
    Vertex(q, BodyNormal(g, q))
  }

  /** makeBodyTile: BL, TL, TR, then BL, TR, BR. */
  function BodyTile(g: Glm, tl: Vec3, tr: Vec3, bl: Vec3, br: Vec3): (vs: seq<Vertex>)
    ensures |vs| == 6
  {
    [BodyVertex(g, bl), BodyVertex(g, tl), BodyVertex(g, tr),
     BodyVertex(g, bl), BodyVertex(g, tr), BodyVertex(g, br)]
  }

  /** makeTopCapTile: innerStart, innerEnd, outerEnd, then innerStart,
      outerEnd, outerStart, all facing up. */
  function TopCapTile(innerStart: Vec3, innerEnd: Vec3, outerStart: Vec3, outerEnd: Vec3): (vs: seq<Vertex>)
    ensures |vs| == 6
  {
    [Vertex(innerStart, Up), Vertex(innerEnd, Up), Vertex(outerEnd, Up), Vertex(innerStart, Up), Vertex(outerEnd, Up), Vertex(outerStart, Up)]
  }

  /** makeBottomCapTile: innerStart, outerEnd, innerEnd, then innerStart,
      outerStart, outerEnd, all facing down. */
  function BottomCapTile(innerStart: Vec3, innerEnd: Vec3, outerStart: Vec3, outerEnd: Vec3): (vs: seq<Vertex>)
    ensures |vs| == 6
  {
    [Vertex(innerStart, Down), Vertex(outerEnd, Down), Vertex(innerEnd, Down), Vertex(innerStart, Down), Vertex(outerStart, Down), Vertex(outerEnd, Down)]
  }

  /** Height of the lower edge of body row i: -0.5 + i / param1 * 1. */
  function BodyY(p1: Positive, i: nat): real {
    -HalfHeight + Frac(i, p1) * 1.0
  }

  /** Radius of the inner edge of cap ring i: i / param1 * 0.5. */
  function CapRadius(p1: Positive, i: nat): real {
    Frac(i, p1) * Radius
  }

  function BodyRow(g: Glm, p1: Positive, theta: real, theta': real, i: nat): (vs: seq<Vertex>)
    ensures |vs| == 6
  {
    var bottom, top := BodyY(p1, i), BodyY(p1, i + 1);
    BodyTile(g, RimPoint(g, Radius, theta, top), RimPoint(g, Radius, theta', top),
             RimPoint(g, Radius, theta, bottom), RimPoint(g, Radius, theta', bottom))
  }

  function TopCapRow(g: Glm, p1: Positive, theta: real, theta': real, i: nat): (vs: seq<Vertex>)
    ensures |vs| == 6
  {
    var inner, outer := CapRadius(p1, i), CapRadius(p1, i + 1);
    TopCapTile(RimPoint(g, inner, theta, HalfHeight), RimPoint(g, inner, theta', HalfHeight),
               RimPoint(g, outer, theta, HalfHeight), RimPoint(g, outer, theta', HalfHeight))
  }

  function BottomCapRow(g: Glm, p1: Positive, theta: real, theta': real, i: nat): (vs: seq<Vertex>)
    ensures |vs| == 6
  {
    var inner, outer := CapRadius(p1, i), CapRadius(p1, i + 1);
    BottomCapTile(RimPoint(g, inner, theta, -HalfHeight), RimPoint(g, inner, theta', -HalfHeight),
                  RimPoint(g, outer, theta, -HalfHeight), RimPoint(g, outer, theta', -HalfHeight))
  }

  function BodyRows(g: Glm, p1: Positive, theta: real, theta': real): nat -> seq<Vertex> {
    (i: nat) => BodyRow(g, p1, theta, theta', i)
  }

  function TopCapRows(g: Glm, p1: Positive, theta: real, theta': real): nat -> seq<Vertex> {
    (i: nat) => TopCapRow(g, p1, theta, theta', i)
  }

  function BottomCapRows(g: Glm, p1: Positive, theta: real, theta': real): nat -> seq<Vertex> {
    (i: nat) => BottomCapRow(g, p1, theta, theta', i)
  }

  /** makeBodyWedge: the strip from bottom to top. */
  function BodyWedge(g: Glm, p1: Positive, theta: real, theta': real): seq<Vertex> {
    Blocks(p1, BodyRows(g, p1, theta, theta'))
  }

  /** makeTopCapWedge: the sector from the centre outwards. */
  function TopCapWedge(g: Glm, p1: Positive, theta: real, theta': real): seq<Vertex> {
    Blocks(p1, TopCapRows(g, p1, theta, theta'))
  }

  /** makeBottomCapWedge: the sector from the centre outwards. */
  function BottomCapWedge(g: Glm, p1: Positive, theta: real, theta': real): seq<Vertex> {
    Blocks(p1, BottomCapRows(g, p1, theta, theta'))
  }

  /** makeWedge: bottom cap, body, top cap. */
  function Wedge(g: Glm, p1: Positive, theta: real, theta': real): seq<Vertex> {
    BottomCapWedge(g, p1, theta, theta') + BodyWedge(g, p1, theta, theta') + TopCapWedge(g, p1, theta, theta')
  }

  /** Wedge i: between azimuths WedgeStart(i) and WedgeStart(i + 1). */
  function CylinderWedge(g: Glm, p1: Positive, p2: Positive, i: nat): seq<Vertex> {
    Wedge(g, p1, WedgeStart(g, p2, i), WedgeStart(g, p2, i + 1))
  }

  function CylinderWedges(g: Glm, p1: Positive, p2: Positive): nat -> seq<Vertex> {
    (i: nat) => CylinderWedge(g, p1, p2, i)
  }

  /** makeCylinder: the wedges in order of increasing azimuth. */
  function CylinderVertices(g: Glm, p1: Positive, p2: Positive): seq<Vertex> {
    Blocks(p2, CylinderWedges(g, p1, p2))
  }

  // ---------------------------------------------------------------------
  // Size and layout

  lemma WedgeLength(g: Glm, p1: Positive, theta: real, theta': real)
    ensures |BottomCapWedge(g, p1, theta, theta')| == 6 * p1
    ensures |BodyWedge(g, p1, theta, theta')| == 6 * p1
    ensures |TopCapWedge(g, p1, theta, theta')| == 6 * p1
    ensures |Wedge(g, p1, theta, theta')| == 18 * p1
  {
    BlocksLength(p1, 6, BottomCapRows(g, p1, theta, theta'));
    BlocksLength(p1, 6, BodyRows(g, p1, theta, theta'));
    BlocksLength(p1, 6, TopCapRows(g, p1, theta, theta'));
  }

  lemma WedgeLengths(g: Glm, p1: Positive, p2: Positive)
    ensures forall i | 0 <= i < p2 :: |CylinderWedges(g, p1, p2)(i)| == 18 * p1
  {
    forall i | 0 <= i < p2 ensures |CylinderWedges(g, p1, p2)(i)| == 18 * p1 {
      WedgeLength(g, p1, WedgeStart(g, p2, i), WedgeStart(g, p2, i + 1));
    }
  }

  /** Three sections of param1 tiles of 6 vertices per wedge: 108 param1
      param2 floats, exactly the 3 * param1 * param2 * 2 * 3 * 6 reserved. */
  lemma CylinderLength(g: Glm, p1: Positive, p2: Positive)
    ensures |CylinderVertices(g, p1, p2)| == 18 * (p1 * p2)
    ensures |Encode(CylinderVertices(g, p1, p2))| == 108 * (p1 * p2)
    ensures |Encode(CylinderVertices(g, p1, p2))| == 3 * p1 * p2 * 2 * 3 * 6
  {
    WedgeLengths(g, p1, p2);
    BlocksLength(p2, 18 * p1, CylinderWedges(g, p1, p2));
    ReserveArithmetic(p1, p2);
  }

  lemma ReserveArithmetic(p1: nat, p2: nat)
    ensures p2 * (18 * p1) == 18 * (p1 * p2)
    ensures 3 * p1 * p2 * 2 * 3 * 6 == 108 * (p1 * p2)
  {
    var q := p1 * p2;
    assert 3 * p1 * p2 == 3 * q;
  }

  /** Vertex k of wedge w sits at 18 param1 w + k. */
  function WedgeOffset(p1: nat, w: nat, k: nat): nat {
    w * (18 * p1) + k
  }

  /** Vertex m of wedge w sits at WedgeOffset(param1, w, m). */
  lemma WedgeAt(g: Glm, p1: Positive, p2: Positive, w: nat, m: nat)
    requires w < p2 && m < 18 * p1
    ensures |CylinderWedge(g, p1, p2, w)| == 18 * p1
    ensures WedgeOffset(p1, w, m) < |CylinderVertices(g, p1, p2)|
    ensures CylinderVertices(g, p1, p2)[WedgeOffset(p1, w, m)] == CylinderWedge(g, p1, p2, w)[m]
  {
    WedgeLengths(g, p1, p2);
    assert CylinderWedges(g, p1, p2)(w) == CylinderWedge(g, p1, p2, w);
    BlocksAt(p2, 18 * p1, CylinderWedges(g, p1, p2), w, m);
  }

  /** A wedge is its bottom cap, then its body, then its top cap. */
  lemma WedgeParts(g: Glm, p1: Positive, theta: real, theta': real, k: nat)
    requires k < 6 * p1
    ensures |BottomCapWedge(g, p1, theta, theta')| == |BodyWedge(g, p1, theta, theta')| == 6 * p1
    ensures |TopCapWedge(g, p1, theta, theta')| == 6 * p1
    ensures |Wedge(g, p1, theta, theta')| == 18 * p1
    ensures Wedge(g, p1, theta, theta')[k] == BottomCapWedge(g, p1, theta, theta')[k]
    ensures Wedge(g, p1, theta, theta')[6 * p1 + k] == BodyWedge(g, p1, theta, theta')[k]
    ensures Wedge(g, p1, theta, theta')[12 * p1 + k] == TopCapWedge(g, p1, theta, theta')[k]
  {
    WedgeLength(g, p1, theta, theta');
  }

  /** Within wedge w, vertex k of its bottom cap, body or top cap sits at
      offset k, 6 param1 + k or 12 param1 + k of the wedge. */
  lemma CylinderVertexAt(g: Glm, p1: Positive, p2: Positive, w: nat, k: nat)
    requires w < p2 && k < 6 * p1
    ensures WedgeOffset(p1, w, 12 * p1 + k) < |CylinderVertices(g, p1, p2)|
    ensures var theta, theta' := WedgeStart(g, p2, w), WedgeStart(g, p2, w + 1);
      && |BottomCapWedge(g, p1, theta, theta')| == 6 * p1
      && |BodyWedge(g, p1, theta, theta')| == 6 * p1
      && |TopCapWedge(g, p1, theta, theta')| == 6 * p1
    ensures var vs, theta, theta' := CylinderVertices(g, p1, p2), WedgeStart(g, p2, w), WedgeStart(g, p2, w + 1);
      && vs[WedgeOffset(p1, w, k)] == BottomCapWedge(g, p1, theta, theta')[k]
      && vs[WedgeOffset(p1, w, 6 * p1 + k)] == BodyWedge(g, p1, theta, theta')[k]
      && vs[WedgeOffset(p1, w, 12 * p1 + k)] == TopCapWedge(g, p1, theta, theta')[k]
  {
    var theta, theta' := WedgeStart(g, p2, w), WedgeStart(g, p2, w + 1);
    WedgeLength(g, p1, theta, theta');
    WedgeParts(g, p1, theta, theta', k);
    WedgeAt(g, p1, p2, w, k);
    WedgeAt(g, p1, p2, w, 6 * p1 + k);
    WedgeAt(g, p1, p2, w, 12 * p1 + k);
  }

  // ---------------------------------------------------------------------
  // Geometry

  /** Each vertex belongs to one of the three surfaces, as its position and
      normal show: the top disc (y 0.5, normal up), the bottom disc (y -0.5,
      normal down) or the side (y within [-0.5, 0.5], horizontal normal). */
  predicate OnTop(v: Vertex) {
    v.pos.y == HalfHeight && v.normal == Up
  }

  predicate OnBottom(v: Vertex) {
    v.pos.y == -HalfHeight && v.normal == Down
  }

  predicate OnSide(v: Vertex) {
    -HalfHeight <= v.pos.y <= HalfHeight && v.normal.y == 0.0
  }

  predicate OnSurface(v: Vertex) {
    OnTop(v) || OnBottom(v) || OnSide(v)
  }

  lemma BodyRowOnSide(g: Glm, p1: Positive, theta: real, theta': real, i: nat)
    requires i < p1
    ensures forall v :: v in BodyRow(g, p1, theta, theta', i) ==> OnSide(v)
  {
    FracInUnit(i, p1);
    FracInUnit(i + 1, p1);
  }

  /** Every body vertex is on the side. */
  lemma BodyWedgeOnSide(g: Glm, p1: Positive, theta: real, theta': real)
    ensures forall v :: v in BodyWedge(g, p1, theta, theta') ==> OnSide(v)
  {
    var body := BodyRows(g, p1, theta, theta');
    forall i, v | 0 <= i < p1 && v in body(i) ensures OnSide(v) {
      BodyRowOnSide(g, p1, theta, theta', i);
    }
    BlocksAll(p1, body, OnSide);
  }

  /** Every top-cap vertex is at y = 0.5 with normal +y. */
  lemma TopCapOnTop(g: Glm, p1: Positive, theta: real, theta': real)
    ensures forall v :: v in TopCapWedge(g, p1, theta, theta') ==> OnTop(v)
  {
    var top := TopCapRows(g, p1, theta, theta');
    forall i, v | 0 <= i < p1 && v in top(i) ensures OnTop(v) {
    }
    BlocksAll(p1, top, OnTop);
  }

  /** Every bottom-cap vertex is at y = -0.5 with normal -y. */
  lemma BottomCapOnBottom(g: Glm, p1: Positive, theta: real, theta': real)
    ensures forall v :: v in BottomCapWedge(g, p1, theta, theta') ==> OnBottom(v)
  {
    var bottom := BottomCapRows(g, p1, theta, theta');
    forall i, v | 0 <= i < p1 && v in bottom(i) ensures OnBottom(v) {
    }
    BlocksAll(p1, bottom, OnBottom);
  }

  lemma WedgeOnSurface(g: Glm, p1: Positive, theta: real, theta': real)
    ensures forall v :: v in Wedge(g, p1, theta, theta') ==> OnSurface(v)
  {
    BodyWedgeOnSide(g, p1, theta, theta');
    TopCapOnTop(g, p1, theta, theta');
    BottomCapOnBottom(g, p1, theta, theta');
  }

  /** In the whole cylinder, each wedge's first third lies on the bottom cap,
      its second third on the side and its last third on the top cap. */
  lemma CylinderPartsOnSurface(g: Glm, p1: Positive, p2: Positive, w: nat, k: nat)
    requires w < p2 && k < 6 * p1
    ensures var vs := CylinderVertices(g, p1, p2);
      WedgeOffset(p1, w, 12 * p1 + k) < |vs|
      && OnBottom(vs[WedgeOffset(p1, w, k)])
      && OnSide(vs[WedgeOffset(p1, w, 6 * p1 + k)])
      && OnTop(vs[WedgeOffset(p1, w, 12 * p1 + k)])
  {
    var theta, theta' := WedgeStart(g, p2, w), WedgeStart(g, p2, w + 1);
    CylinderVertexAt(g, p1, p2, w, k);
    BottomCapOnBottom(g, p1, theta, theta');
    BodyWedgeOnSide(g, p1, theta, theta');
    TopCapOnTop(g, p1, theta, theta');
  }

  lemma CylinderOnSurface(g: Glm, p1: Positive, p2: Positive)
    ensures forall v :: v in CylinderVertices(g, p1, p2) ==> OnSurface(v)
  {
    var wedges := CylinderWedges(g, p1, p2);
    forall i, v | 0 <= i < p2 && v in wedges(i) ensures OnSurface(v) {
      WedgeOnSurface(g, p1, WedgeStart(g, p2, i), WedgeStart(g, p2, i + 1));
    }
    BlocksAll(p2, wedges, OnSurface);
  }

  /** At distance 0.5 from the y axis. */
  predicate AtRim(q: Vec3) {
    q.x * q.x + q.z * q.z == Radius * Radius
  }

  predicate OnRim(v: Vertex) {
    AtRim(v.pos)
  }

  /** x^2 + z^2 of a rim point is radius^2 when sin^2 + cos^2 == 1. */
  lemma RimDistance(g: Glm, theta: real, y: real)
    requires Pythagorean(g)
    ensures AtRim(RimPoint(g, Radius, theta, y))
  {
    var c, s := g.cos(theta), g.sin(theta);
    assert c * c + s * s == 1.0;
    assert Radius * c * (Radius * c) + Radius * s * (Radius * s) == Radius * Radius * (c * c + s * s);
  }

  lemma BodyTileOnRim(g: Glm, tl: Vec3, tr: Vec3, bl: Vec3, br: Vec3)
    requires AtRim(tl) && AtRim(tr) && AtRim(bl) && AtRim(br)
    ensures forall v :: v in BodyTile(g, tl, tr, bl, br) ==> OnRim(v)
  {
  }

  lemma BodyRowOnRim(g: Glm, p1: Positive, theta: real, theta': real, i: nat)
    requires Pythagorean(g)
    ensures forall v :: v in BodyRow(g, p1, theta, theta', i) ==> OnRim(v)
  {
    var bottom, top := BodyY(p1, i), BodyY(p1, i + 1);
    RimDistance(g, theta, top); RimDistance(g, theta', top);
    RimDistance(g, theta, bottom); RimDistance(g, theta', bottom);
    BodyTileOnRim(g, RimPoint(g, Radius, theta, top), RimPoint(g, Radius, theta', top),
                  RimPoint(g, Radius, theta, bottom), RimPoint(g, Radius, theta', bottom));
  }

  /** Given sin^2 + cos^2 == 1, the body's vertices lie on the cylinder of
      radius 0.5 about the y axis. */
  lemma BodyOnCylinder(g: Glm, p1: Positive, theta: real, theta': real)
    requires Pythagorean(g)
    ensures forall v :: v in BodyWedge(g, p1, theta, theta') ==> OnRim(v)
  {
    var body := BodyRows(g, p1, theta, theta');
    forall i, v | 0 <= i < p1 && v in body(i) ensures OnRim(v) {
      BodyRowOnRim(g, p1, theta, theta', i);
    }
    BlocksAll(p1, body, OnRim);
  }

  // ---------------------------------------------------------------------
  // The generator

  method MakeBodyTile(data: VertexBuffer, g: Glm, topLeft: Vec3, topRight: Vec3, bottomLeft: Vec3, bottomRight: Vec3)
    modifies data
    ensures data.data == old(data.data) + Encode(BodyTile(g, topLeft, topRight, bottomLeft, bottomRight))
  {
    var normalTL := BodyNormal(g, topLeft);
    var normalTR := BodyNormal(g, topRight);
    var normalBL := BodyNormal(g, bottomLeft);
    var normalBR := BodyNormal(g, bottomRight);
    ghost var d0 := data.data;
    data.InsertVertex(Vertex(bottomLeft, normalBL));
    data.InsertVertex(Vertex(topLeft, normalTL));
    data.InsertVertex(Vertex(topRight, normalTR));
    data.InsertVertex(Vertex(bottomLeft, normalBL));
    data.InsertVertex(Vertex(topRight, normalTR));
    data.InsertVertex(Vertex(bottomRight, normalBR));
    AppendSix(d0, Vertex(bottomLeft, normalBL), Vertex(topLeft, normalTL), Vertex(topRight, normalTR),
              Vertex(bottomLeft, normalBL), Vertex(topRight, normalTR), Vertex(bottomRight, normalBR));
  }

  method MakeTopCapTile(data: VertexBuffer, innerStart: Vec3, innerEnd: Vec3, outerStart: Vec3, outerEnd: Vec3)
    modifies data
    ensures data.data == old(data.data) + Encode(TopCapTile(innerStart, innerEnd, outerStart, outerEnd))
  {
    var normal := Vec3(0.0, 1.0, 0.0);
    ghost var d0 := data.data;
    data.InsertVertex(Vertex(innerStart, normal));
    data.InsertVertex(Vertex(innerEnd, normal));
    data.InsertVertex(Vertex(outerEnd, normal));
    data.InsertVertex(Vertex(innerStart, normal));
    data.InsertVertex(Vertex(outerEnd, normal));
    data.InsertVertex(Vertex(outerStart, normal));
    AppendSix(d0, Vertex(innerStart, normal), Vertex(innerEnd, normal), Vertex(outerEnd, normal),
              Vertex(innerStart, normal), Vertex(outerEnd, normal), Vertex(outerStart, normal));
  }

  method MakeBottomCapTile(data: VertexBuffer, innerStart: Vec3, innerEnd: Vec3, outerStart: Vec3, outerEnd: Vec3)
    modifies data
    ensures data.data == old(data.data) + Encode(BottomCapTile(innerStart, innerEnd, outerStart, outerEnd))
  {
    var normal := Vec3(0.0, -1.0, 0.0);
    ghost var d0 := data.data;
    data.InsertVertex(Vertex(innerStart, normal));
    data.InsertVertex(Vertex(outerEnd, normal));
    data.InsertVertex(Vertex(innerEnd, normal));
    data.InsertVertex(Vertex(innerStart, normal));
    data.InsertVertex(Vertex(outerStart, normal));
    data.InsertVertex(Vertex(outerEnd, normal));
    AppendSix(d0, Vertex(innerStart, normal), Vertex(outerEnd, normal), Vertex(innerEnd, normal),
              Vertex(innerStart, normal), Vertex(outerStart, normal), Vertex(outerEnd, normal));
  }

  method MakeBodyWedge(data: VertexBuffer, g: Glm, p1: Positive, currentTheta: real, nextTheta: real)
    modifies data
    ensures data.data == old(data.data) + Encode(BodyWedge(g, p1, currentTheta, nextTheta))
  {
    var i := 0;
    while i < p1
      invariant 0 <= i <= p1
      invariant data.data == old(data.data) + Encode(Blocks(i, BodyRows(g, p1, currentTheta, nextTheta)))
    {
      var yBottom, yTop := BodyY(p1, i), BodyY(p1, i + 1);
      var topLeft := RimPoint(g, Radius, currentTheta, yTop);
      var topRight := RimPoint(g, Radius, nextTheta, yTop);
      var bottomLeft := RimPoint(g, Radius, currentTheta, yBottom);
      var bottomRight := RimPoint(g, Radius, nextTheta, yBottom);
      ghost var before := data.data;
      MakeBodyTile(data, g, topLeft, topRight, bottomLeft, bottomRight);
      assert data.data == before + Encode(BodyRow(g, p1, currentTheta, nextTheta, i));
      AppendStep(old(data.data), i, BodyRows(g, p1, currentTheta, nextTheta));
      assert BodyRows(g, p1, currentTheta, nextTheta)(i) == BodyRow(g, p1, currentTheta, nextTheta, i);
      i := i + 1;
    }
    assert i == p1;
  }

  method MakeTopCapWedge(data: VertexBuffer, g: Glm, p1: Positive, currentTheta: real, nextTheta: real)
    modifies data
    ensures data.data == old(data.data) + Encode(TopCapWedge(g, p1, currentTheta, nextTheta))
  {
    var i := 0;
    while i < p1
      invariant 0 <= i <= p1
      invariant data.data == old(data.data) + Encode(Blocks(i, TopCapRows(g, p1, currentTheta, nextTheta)))
    {
      var innerRadius, outerRadius := CapRadius(p1, i), CapRadius(p1, i + 1);
      var innerStart := RimPoint(g, innerRadius, currentTheta, HalfHeight);
      var innerEnd := RimPoint(g, innerRadius, nextTheta, HalfHeight);
      var outerStart := RimPoint(g, outerRadius, currentTheta, HalfHeight);
      var outerEnd := RimPoint(g, outerRadius, nextTheta, HalfHeight);
      ghost var before := data.data;
      MakeTopCapTile(data, innerStart, innerEnd, outerStart, outerEnd);
      assert data.data == before + Encode(TopCapRow(g, p1, currentTheta, nextTheta, i));
      AppendStep(old(data.data), i, TopCapRows(g, p1, currentTheta, nextTheta));
      assert TopCapRows(g, p1, currentTheta, nextTheta)(i) == TopCapRow(g, p1, currentTheta, nextTheta, i);
      i := i + 1;
    }
    assert i == p1;
  }

  method MakeBottomCapWedge(data: VertexBuffer, g: Glm, p1: Positive, currentTheta: real, nextTheta: real)
    modifies data
    ensures data.data == old(data.data) + Encode(BottomCapWedge(g, p1, currentTheta, nextTheta))
  {
    var i := 0;
    while i < p1
      invariant 0 <= i <= p1
      invariant data.data == old(data.data) + Encode(Blocks(i, BottomCapRows(g, p1, currentTheta, nextTheta)))
    {
      var innerRadius, outerRadius := CapRadius(p1, i), CapRadius(p1, i + 1);
      var innerStart := RimPoint(g, innerRadius, currentTheta, -HalfHeight);
      var innerEnd := RimPoint(g, innerRadius, nextTheta, -HalfHeight);
      var outerStart := RimPoint(g, outerRadius, currentTheta, -HalfHeight);
      var outerEnd := RimPoint(g, outerRadius, nextTheta, -HalfHeight);
      ghost var before := data.data;
      MakeBottomCapTile(data, innerStart, innerEnd, outerStart, outerEnd);
      assert data.data == before + Encode(BottomCapRow(g, p1, currentTheta, nextTheta, i));
      AppendStep(old(data.data), i, BottomCapRows(g, p1, currentTheta, nextTheta));
      assert BottomCapRows(g, p1, currentTheta, nextTheta)(i) == BottomCapRow(g, p1, currentTheta, nextTheta, i);
      i := i + 1;
    }
    assert i == p1;
  }

  method MakeWedge(data: VertexBuffer, g: Glm, p1: Positive, currentTheta: real, nextTheta: real)
    modifies data
    ensures data.data == old(data.data) + Encode(Wedge(g, p1, currentTheta, nextTheta))
  {
    ghost var d0 := data.data;
    MakeBottomCapWedge(data, g, p1, currentTheta, nextTheta);
    MakeBodyWedge(data, g, p1, currentTheta, nextTheta);
    MakeTopCapWedge(data, g, p1, currentTheta, nextTheta);
    ghost var a, b, c := BottomCapWedge(g, p1, currentTheta, nextTheta), BodyWedge(g, p1, currentTheta, nextTheta),
      TopCapWedge(g, p1, currentTheta, nextTheta);
    EncodeAppend(a, b);
    EncodeAppend(a + b, c);
    assert data.data == d0 + Encode(a) + Encode(b) + Encode(c);
    Assoc(d0, Encode(a) + Encode(b), Encode(c));
    Assoc(d0, Encode(a), Encode(b));
  }

  method MakeCylinder(data: VertexBuffer, g: Glm, p1: Positive, p2: Positive)
    modifies data
    ensures data.data == old(data.data) + Encode(CylinderVertices(g, p1, p2))
  {
    var thetaStep := ThetaStep(g, p2);
    var i := 0;
    while i < p2
      invariant 0 <= i <= p2
      invariant data.data == old(data.data) + Encode(Blocks(i, CylinderWedges(g, p1, p2)))
    {
      var currentTheta := Steps(i, thetaStep);
      var nextTheta := Steps(i + 1, thetaStep);
      ghost var before := data.data;
      MakeWedge(data, g, p1, currentTheta, nextTheta);
      assert data.data == before + Encode(CylinderWedge(g, p1, p2, i));
      AppendStep(old(data.data), i, CylinderWedges(g, p1, p2));
      assert CylinderWedges(g, p1, p2)(i) == CylinderWedge(g, p1, p2, i);
      i := i + 1;
    }
    assert i == p2;
  }

  /** generateCylinderData: param1 clamped to at least 1, param2 to at least
      3, a fresh buffer filled by makeCylinder. */
  method GenerateCylinderData(g: Glm, param1: int, param2: int) returns (data: seq<real>)
    ensures var p1, p2 := Clamp(param1, 1), Clamp(param2, 3);
      data == Encode(CylinderVertices(g, p1, p2)) && |data| == 108 * (p1 * p2)
  {
    var p1 := Clamp(param1, 1);
    var p2 := Clamp(param2, 3);
    var buffer := new VertexBuffer();
    MakeCylinder(buffer, g, p1, p2);
    data := buffer.data;
    CylinderLength(g, p1, p2);
  }
}
