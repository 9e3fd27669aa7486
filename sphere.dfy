/** The sphere generator: a sphere of radius 0.5 centred on the origin, cut
    into param2 wedges of longitude, each cut into param1 tiles of latitude
    from the north pole down. Every normal is the normalised position. */
module Sphere {
  import opened Linear
  import opened Numerics
  import opened Mesh

  const Radius: real := 0.5

  /** The point at polar angle phi (from +y) and azimuth theta:
      (r sin phi cos theta, r cos phi, -r sin phi sin theta). */
  function SpherePoint(g: Glm, phi: real, theta: real): Vec3 {
    Vec3(Radius * g.sin(phi) * g.cos(theta), Radius * g.cos(phi), -Radius * g.sin(phi) * g.sin(theta))
  }

  /** A vertex whose normal is its own normalised position. */
  function Radial(g: Glm, q: Vec3): Vertex {
    Vertex(q, Normalize(g, q))
  }

  /** The six vertices of one tile: TL, BL, BR, then BR, TR, TL. */
  function TileVertices(g: Glm, tl: Vec3, tr: Vec3, bl: Vec3, br: Vec3): (vs: seq<Vertex>)
    ensures |vs| == 6
  {
    [Radial(g, tl), Radial(g, bl), Radial(g, br), Radial(g, br), Radial(g, tr), Radial(g, tl)]
  }

  /** Polar angle of the top edge of latitude row i: i * radians(180 / param1). */
  function Phi(g: Glm, p1: Positive, i: nat): real {
    i as real * Radians(g, 180.0 / p1 as real)
  }

  /** Azimuth of the left edge of wedge i: i * radians(360) / param2. */
  function Theta(g: Glm, p2: Positive, i: nat): real {
    i as real * Radians(g, 360.0) / p2 as real
  }

  /** Row i of the wedge between azimuths theta and theta'. */
  function WedgeTile(g: Glm, p1: Positive, theta: real, theta': real, i: nat): (vs: seq<Vertex>)
    ensures |vs| == 6
  {
    var top, bottom := Phi(g, p1, i), Phi(g, p1, i + 1);
    TileVertices(g, SpherePoint(g, top, theta), SpherePoint(g, top, theta'),
                 SpherePoint(g, bottom, theta), SpherePoint(g, bottom, theta'))
  }

  function WedgeTiles(g: Glm, p1: Positive, theta: real, theta': real): nat -> seq<Vertex> {
    (i: nat) => WedgeTile(g, p1, theta, theta', i)
  }

  /** makeWedge: the wedge's rows from the north pole to the south pole. */
  function Wedge(g: Glm, p1: Positive, theta: real, theta': real): seq<Vertex> {
    Blocks(p1, WedgeTiles(g, p1, theta, theta'))
  }

  /** Wedge i: between azimuths Theta(i) and Theta(i + 1). */
  function SphereWedge(g: Glm, p1: Positive, p2: Positive, i: nat): seq<Vertex> {
    Wedge(g, p1, Theta(g, p2, i), Theta(g, p2, i + 1))
  }

  function SphereWedges(g: Glm, p1: Positive, p2: Positive): nat -> seq<Vertex> {
    (i: nat) => SphereWedge(g, p1, p2, i)
  }

  /** makeSphere: the wedges in order of increasing azimuth. */
  function SphereVertices(g: Glm, p1: Positive, p2: Positive): seq<Vertex> {
    Blocks(p2, SphereWedges(g, p1, p2))
  }

  // ---------------------------------------------------------------------
  // Size and layout

  lemma WedgeLength(g: Glm, p1: Positive, theta: real, theta': real)
    ensures |Wedge(g, p1, theta, theta')| == 6 * p1
  {
    BlocksLength(p1, 6, WedgeTiles(g, p1, theta, theta'));
  }

  /** param1 x param2 tiles of 6 vertices: 36 param1 param2 floats. The
      buffer reserves 432 param1 param2, which only sets its capacity. */
  lemma SphereLength(g: Glm, p1: Positive, p2: Positive)
    ensures |SphereVertices(g, p1, p2)| == 6 * (p1 * p2)
    ensures |Encode(SphereVertices(g, p1, p2))| == 36 * (p1 * p2)
  {
    WedgeLengths(g, p1, p2);
    BlocksLength(p2, 6 * p1, SphereWedges(g, p1, p2));
    LengthArithmetic(p1, p2, 6);
  }

  lemma WedgeLengths(g: Glm, p1: Positive, p2: Positive)
    ensures forall i | 0 <= i < p2 :: |SphereWedges(g, p1, p2)(i)| == 6 * p1
  {
    forall i | 0 <= i < p2 ensures |SphereWedges(g, p1, p2)(i)| == 6 * p1 {
      WedgeLength(g, p1, Theta(g, p2, i), Theta(g, p2, i + 1));
    }
  }

  /** Vertex j of latitude row `row` in wedge `w` sits at
      6 param1 w + 6 row + j. */
  lemma SphereVertexAt(g: Glm, p1: Positive, p2: Positive, w: nat, row: nat, j: nat)
    requires w < p2 && row < p1 && j < 6
    ensures w * (6 * p1) + row * 6 + j < |SphereVertices(g, p1, p2)|
    ensures SphereVertices(g, p1, p2)[w * (6 * p1) + row * 6 + j]
         == WedgeTile(g, p1, Theta(g, p2, w), Theta(g, p2, w + 1), row)[j]
  {
    var wt := WedgeTiles(g, p1, Theta(g, p2, w), Theta(g, p2, w + 1));
    BlocksAt(p1, 6, wt, row, j);
    WedgeLengths(g, p1, p2);
    BlocksAt(p2, 6 * p1, SphereWedges(g, p1, p2), w, row * 6 + j);
  }

  // ---------------------------------------------------------------------
  // Geometry

  predicate IsRadial(g: Glm, v: Vertex) {
    v.normal == Normalize(g, v.pos)
  }

  lemma WedgeRadial(g: Glm, p1: Positive, theta: real, theta': real)
    ensures forall v :: v in Wedge(g, p1, theta, theta') ==> IsRadial(g, v)
  {
    var wt := WedgeTiles(g, p1, theta, theta');
    forall i, u | 0 <= i < p1 && u in wt(i) ensures IsRadial(g, u) {
    }
    BlocksAll(p1, wt, v => IsRadial(g, v));
  }

  /** Every normal is the normalised position of its vertex. */
  lemma SphereNormalsRadial(g: Glm, p1: Positive, p2: Positive)
    ensures forall v :: v in SphereVertices(g, p1, p2) ==> v.normal == Normalize(g, v.pos)
  {
    forall w, v | 0 <= w < p2 && v in SphereWedges(g, p1, p2)(w) ensures IsRadial(g, v) {
      WedgeRadial(g, p1, Theta(g, p2, w), Theta(g, p2, w + 1));
    }
    BlocksAll(p2, SphereWedges(g, p1, p2), v => IsRadial(g, v));
  }

  lemma PointOnSphere(g: Glm, phi: real, theta: real)
    requires Pythagorean(g)
    ensures Dot3(SpherePoint(g, phi, theta), SpherePoint(g, phi, theta)) == Radius * Radius
  {
    var s, c, s', c' := g.sin(phi), g.cos(phi), g.sin(theta), g.cos(theta);
    assert s * s + c * c == 1.0;
    assert s' * s' + c' * c' == 1.0;
    var q := SpherePoint(g, phi, theta);
    assert q.x * q.x == Radius * Radius * (s * s) * (c' * c');
    assert q.z * q.z == Radius * Radius * (s * s) * (s' * s');
    assert q.x * q.x + q.z * q.z == Radius * Radius * (s * s) * (c' * c' + s' * s');
  }

  predicate OnSurface(v: Vertex) {
    Dot3(v.pos, v.pos) == Radius * Radius
  }

  lemma WedgeOnSurface(g: Glm, p1: Positive, theta: real, theta': real)
    requires Pythagorean(g)
    ensures forall v :: v in Wedge(g, p1, theta, theta') ==> OnSurface(v)
  {
    var wt := WedgeTiles(g, p1, theta, theta');
    forall i, u | 0 <= i < p1 && u in wt(i) ensures OnSurface(u) {
      var top, bottom := Phi(g, p1, i), Phi(g, p1, i + 1);
      PointOnSphere(g, top, theta); PointOnSphere(g, top, theta');
      PointOnSphere(g, bottom, theta); PointOnSphere(g, bottom, theta');
    }
    BlocksAll(p1, wt, OnSurface);
  }

  /** Given sin^2 + cos^2 == 1, every vertex lies on the sphere of radius 0.5. */
  lemma SphereOnSurface(g: Glm, p1: Positive, p2: Positive)
    requires Pythagorean(g)
    ensures forall v :: v in SphereVertices(g, p1, p2) ==> Dot3(v.pos, v.pos) == Radius * Radius
  {
    forall w, v | 0 <= w < p2 && v in SphereWedges(g, p1, p2)(w) ensures OnSurface(v) {
      WedgeOnSurface(g, p1, Theta(g, p2, w), Theta(g, p2, w + 1));
    }
    BlocksAll(p2, SphereWedges(g, p1, p2), OnSurface);
  }

  /** The rows run from the north pole (phi 0) to the south pole (phi pi),
      and the wedges from azimuth 0 round to radians(360). */
  lemma SphereSpans(g: Glm, p1: Positive, p2: Positive)
    ensures Phi(g, p1, 0) == 0.0 && Phi(g, p1, p1) == g.pi
    ensures Theta(g, p2, 0) == 0.0 && Theta(g, p2, p2) == Radians(g, 360.0)
  {
    var n1 := p1 as real;
    assert n1 * (180.0 / n1) == 180.0;
    assert Phi(g, p1, p1) == n1 * (180.0 / n1) * g.pi / 180.0;
    var n2 := p2 as real;
    assert Theta(g, p2, p2) == n2 * Radians(g, 360.0) / n2;
  }

  // ---------------------------------------------------------------------
  // The generator

  /** makeTile: position and normalised position for TL, BL, BR, BR, TR, TL. */
  method MakeTile(data: VertexBuffer, g: Glm, topLeft: Vec3, topRight: Vec3, bottomLeft: Vec3, bottomRight: Vec3)
    modifies data
    ensures data.data == old(data.data) + Encode(TileVertices(g, topLeft, topRight, bottomLeft, bottomRight))
  {
    var normalTL := Normalize(g, topLeft);
    var normalTR := Normalize(g, topRight);
    var normalBL := Normalize(g, bottomLeft);
    var normalBR := Normalize(g, bottomRight);
    ghost var d0 := data.data;
    data.InsertVertex(Vertex(topLeft, normalTL));
    data.InsertVertex(Vertex(bottomLeft, normalBL));
    data.InsertVertex(Vertex(bottomRight, normalBR));
    data.InsertVertex(Vertex(bottomRight, normalBR));
    data.InsertVertex(Vertex(topRight, normalTR));
    data.InsertVertex(Vertex(topLeft, normalTL));
    AppendSix(d0, Vertex(topLeft, normalTL), Vertex(bottomLeft, normalBL), Vertex(bottomRight, normalBR),
               Vertex(bottomRight, normalBR), Vertex(topRight, normalTR), Vertex(topLeft, normalTL));
  }

  /** makeWedge: one tile per latitude row, north to south. */
  method MakeWedge(data: VertexBuffer, g: Glm, p1: Positive, currentTheta: real, nextTheta: real)
    modifies data
    ensures data.data == old(data.data) + Encode(Wedge(g, p1, currentTheta, nextTheta))
  {
    var i := 0;
    while i < p1
      invariant 0 <= i <= p1
      invariant data.data == old(data.data) + Encode(Blocks(i, WedgeTiles(g, p1, currentTheta, nextTheta)))
    {
      var phiTop, phiBottom := Phi(g, p1, i), Phi(g, p1, i + 1);
      var topLeft := SpherePoint(g, phiTop, currentTheta);
      var topRight := SpherePoint(g, phiTop, nextTheta);
      var bottomLeft := SpherePoint(g, phiBottom, currentTheta);
      var bottomRight := SpherePoint(g, phiBottom, nextTheta);
      ghost var before := data.data;
      MakeTile(data, g, topLeft, topRight, bottomLeft, bottomRight);
      assert data.data == before + Encode(WedgeTile(g, p1, currentTheta, nextTheta, i));
      AppendStep(old(data.data), i, WedgeTiles(g, p1, currentTheta, nextTheta));
      assert WedgeTiles(g, p1, currentTheta, nextTheta)(i) == WedgeTile(g, p1, currentTheta, nextTheta, i);
      i := i + 1;
    }
    assert i == p1;
  }

  /** makeSphere: one wedge per step of longitude. */
  method MakeSphere(data: VertexBuffer, g: Glm, p1: Positive, p2: Positive)
    modifies data
    ensures data.data == old(data.data) + Encode(SphereVertices(g, p1, p2))
  {
    var i := 0;
    while i < p2
      invariant 0 <= i <= p2
      invariant data.data == old(data.data) + Encode(Blocks(i, SphereWedges(g, p1, p2)))
    {
      var thetaLeft, thetaRight := Theta(g, p2, i), Theta(g, p2, i + 1);
      ghost var before := data.data;
      MakeWedge(data, g, p1, thetaLeft, thetaRight);
      assert data.data == before + Encode(SphereWedge(g, p1, p2, i));
      AppendStep(old(data.data), i, SphereWedges(g, p1, p2));
      assert SphereWedges(g, p1, p2)(i) == SphereWedge(g, p1, p2, i);
      i := i + 1;
    }
    assert i == p2;
  }

  /** generateSphereData: both parameters clamped to at least 1, a fresh
      buffer filled by makeSphere. */
  method GenerateSphereData(g: Glm, param1: int, param2: int) returns (data: seq<real>)
    ensures var p1, p2 := Clamp(param1, 1), Clamp(param2, 1);
      data == Encode(SphereVertices(g, p1, p2)) && |data| == 36 * (p1 * p2)
  {
    var p1 := Clamp(param1, 1);
    var p2 := Clamp(param2, 1);
    var buffer := new VertexBuffer();
    MakeSphere(buffer, g, p1, p2);
    data := buffer.data;
    SphereLength(g, p1, p2);
  }
}
