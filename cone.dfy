/** The cone generator: a cone of base radius 0.5 and height 1 centred on the
    origin, apex up, cut into param2 wedges; each wedge is a base sector and a
    side strip of param1 tiles each.

    As written, makeBaseTile receives the vertex buffer by value, so every
    base tile goes into a copy that is then discarded: the generated cone has
    no base. The members named ...AsWritten model that; the others model the
    evidently intended generator, in which the base tiles reach the buffer. */
module Cone {
  import opened Linear
  import opened Numerics
  import opened Sequences
  import opened Mesh

  const BaseRadius: real := 0.5
  const HalfHeight: real := 0.5

  /** calculateNormal: normalize(2x, -(0.5)(2y - 1), 2z). */
  function CalculateNormal(g: Glm, pt: Vec3): Vec3 {
    Normalize(g, Vec3(2.0 * pt.x, -(0.5) * (2.0 * pt.y - 1.0), 2.0 * pt.z))
  }

  /** computeSlopeNormal: at a point within 1e-5 of the axis (the apex), the
      normalised sum of the normals at the two given base-side points;
      elsewhere calculateNormal of the point itself. */
  function SlopeNormal(g: Glm, pt: Vec3, edgeA: Vec3, edgeB: Vec3): Vec3 {
    if g.sqrt(pt.x * pt.x + pt.z * pt.z) < 0.00001 then
      Normalize(g, Add3(CalculateNormal(g, edgeA), CalculateNormal(g, edgeB)))
    else
      CalculateNormal(g, pt)
  }

  /** makeSideTile: bottomStart, topStart, topEnd, then bottomStart, topEnd,
      bottomEnd; the top corners carry slope normals. */
  function SideTile(g: Glm, topStart: Vec3, topEnd: Vec3, bottomStart: Vec3, bottomEnd: Vec3): (vs: seq<Vertex>)
    ensures |vs| == 6
  {
    var bl, br := Vertex(bottomStart, CalculateNormal(g, bottomStart)), Vertex(bottomEnd, CalculateNormal(g, bottomEnd));
    var tl := Vertex(topStart, SlopeNormal(g, topStart, bottomStart, bottomEnd));
    var tr := Vertex(topEnd, SlopeNormal(g, topEnd, bottomStart, bottomEnd));
    [bl, tl, tr, bl, tr, br]
  }

  /** makeBaseTile: outerStart, innerEnd, innerStart, then outerStart,
      outerEnd, innerEnd, all facing down. */
  function BaseTile(innerStart: Vec3, innerEnd: Vec3, outerStart: Vec3, outerEnd: Vec3): (vs: seq<Vertex>)
    ensures |vs| == 6
  {
    [Vertex(outerStart, Down), Vertex(innerEnd, Down), Vertex(innerStart, Down),
     Vertex(outerStart, Down), Vertex(outerEnd, Down), Vertex(innerEnd, Down)]
  }

  /** Height of the lower edge of side row `row`: -0.5 + row * (1 / param1). */
  function SideY(p1: Positive, row: nat): real {
    -HalfHeight + row as real * (1.0 / p1 as real)
  }

  /** Radius at the lower edge of side row `row`: 0.5 (1 - row / param1). */
  function SideRadius(p1: Positive, row: nat): real {
    BaseRadius * (1.0 - Frac(row, p1))
  }

  /** Radius of the inner edge of base ring i: i / param1 * 0.5. */
  function BaseRingRadius(p1: Positive, i: nat): real {
    Frac(i, p1) * BaseRadius
  }

  function SideRow(g: Glm, p1: Positive, theta: real, theta': real, row: nat): (vs: seq<Vertex>)
    ensures |vs| == 6
  {
    var yTop, yBottom := SideY(p1, row + 1), SideY(p1, row);
    var topRadius, bottomRadius := SideRadius(p1, row + 1), SideRadius(p1, row);
    SideTile(g, RimPoint(g, topRadius, theta, yTop), RimPoint(g, topRadius, theta', yTop),
             RimPoint(g, bottomRadius, theta, yBottom), RimPoint(g, bottomRadius, theta', yBottom))
  }

  function BaseRow(g: Glm, p1: Positive, theta: real, theta': real, i: nat): (vs: seq<Vertex>)
    ensures |vs| == 6
  {
    var inner, outer := BaseRingRadius(p1, i), BaseRingRadius(p1, i + 1);
    BaseTile(RimPoint(g, inner, theta, -HalfHeight), RimPoint(g, inner, theta', -HalfHeight),
             RimPoint(g, outer, theta, -HalfHeight), RimPoint(g, outer, theta', -HalfHeight))
  }

  function SideRows(g: Glm, p1: Positive, theta: real, theta': real): nat -> seq<Vertex> {
    (row: nat) => SideRow(g, p1, theta, theta', row)
  }

  function BaseRows(g: Glm, p1: Positive, theta: real, theta': real): nat -> seq<Vertex> {
    (i: nat) => BaseRow(g, p1, theta, theta', i)
  }

  /** buildSideSegment: the strip from the base up to the apex. */
  function SideSegment(g: Glm, p1: Positive, theta: real, theta': real): seq<Vertex> {
    Blocks(p1, SideRows(g, p1, theta, theta'))
  }

  /** buildBaseSegment: the base sector from the centre outwards. */
  function BaseSegment(g: Glm, p1: Positive, theta: real, theta': real): seq<Vertex> {
    Blocks(p1, BaseRows(g, p1, theta, theta'))
  }

  /** makeWedge as intended: base sector, then side strip. */
  function Wedge(g: Glm, p1: Positive, theta: real, theta': real): seq<Vertex> {
    BaseSegment(g, p1, theta, theta') + SideSegment(g, p1, theta, theta')
  }

  function ConeWedge(g: Glm, p1: Positive, p2: Positive, i: nat): seq<Vertex> {
    Wedge(g, p1, WedgeStart(g, p2, i), WedgeStart(g, p2, i + 1))
  }

  function ConeWedges(g: Glm, p1: Positive, p2: Positive): nat -> seq<Vertex> {
    (i: nat) => ConeWedge(g, p1, p2, i)
  }

  /** makeCone as intended: the wedges in order of increasing azimuth. */
  function ConeVertices(g: Glm, p1: Positive, p2: Positive): seq<Vertex> {
    Blocks(p2, ConeWedges(g, p1, p2))
  }

  /** What wedge i leaves in the buffer as written: its side strip only. */
  function SideWedge(g: Glm, p1: Positive, p2: Positive, i: nat): seq<Vertex> {
    SideSegment(g, p1, WedgeStart(g, p2, i), WedgeStart(g, p2, i + 1))
  }

  function SideWedges(g: Glm, p1: Positive, p2: Positive): nat -> seq<Vertex> {
    (i: nat) => SideWedge(g, p1, p2, i)
  }

  /** makeCone as written. */
  function ConeAsWritten(g: Glm, p1: Positive, p2: Positive): seq<Vertex> {
    Blocks(p2, SideWedges(g, p1, p2))
  }

  // ---------------------------------------------------------------------
  // Size

  lemma SegmentLength(g: Glm, p1: Positive, theta: real, theta': real)
    ensures |BaseSegment(g, p1, theta, theta')| == 6 * p1
    ensures |SideSegment(g, p1, theta, theta')| == 6 * p1
    ensures |Wedge(g, p1, theta, theta')| == 12 * p1
  {
    BlocksLength(p1, 6, BaseRows(g, p1, theta, theta'));
    BlocksLength(p1, 6, SideRows(g, p1, theta, theta'));
  }

  lemma WedgeLengths(g: Glm, p1: Positive, p2: Positive)
    ensures forall i | 0 <= i < p2 :: |ConeWedges(g, p1, p2)(i)| == 12 * p1
  {
    forall i | 0 <= i < p2 ensures |ConeWedges(g, p1, p2)(i)| == 12 * p1 {
      SegmentLength(g, p1, WedgeStart(g, p2, i), WedgeStart(g, p2, i + 1));
    }
  }

  lemma SideWedgeLengths(g: Glm, p1: Positive, p2: Positive)
    ensures forall i | 0 <= i < p2 :: |SideWedges(g, p1, p2)(i)| == 6 * p1
  {
    forall i | 0 <= i < p2 ensures |SideWedges(g, p1, p2)(i)| == 6 * p1 {
      SegmentLength(g, p1, WedgeStart(g, p2, i), WedgeStart(g, p2, i + 1));
    }
  }

  /** With its base the cone has 72 param1 param2 floats (the 432 param1
      param2 reserved only sets capacity). */
  lemma ConeLength(g: Glm, p1: Positive, p2: Positive)
    ensures |ConeVertices(g, p1, p2)| == 12 * (p1 * p2)
    ensures |Encode(ConeVertices(g, p1, p2))| == 72 * (p1 * p2)
  {
    WedgeLengths(g, p1, p2);
    BlocksLength(p2, 12 * p1, ConeWedges(g, p1, p2));
    LengthArithmetic(p1, p2, 12);
  }

  /** As written the cone has half that: 36 param1 param2 floats. */
  lemma ConeAsWrittenLength(g: Glm, p1: Positive, p2: Positive)
    ensures |ConeAsWritten(g, p1, p2)| == 6 * (p1 * p2)
    ensures |Encode(ConeAsWritten(g, p1, p2))| == 36 * (p1 * p2)
  {
    SideWedgeLengths(g, p1, p2);
    BlocksLength(p2, 6 * p1, SideWedges(g, p1, p2));
    LengthArithmetic(p1, p2, 6);
  }

  // ---------------------------------------------------------------------
  // Geometry

  /** On the base disc and facing straight down. */
  predicate OnBase(v: Vertex) {
    v.pos.y == -HalfHeight && v.normal == Down
  }

  lemma BaseSegmentOnBase(g: Glm, p1: Positive, theta: real, theta': real)
    ensures forall v :: v in BaseSegment(g, p1, theta, theta') ==> OnBase(v)
  {
    var rows := BaseRows(g, p1, theta, theta');
    forall i, v | 0 <= i < p1 && v in rows(i) ensures OnBase(v) {
    }
    BlocksAll(p1, rows, OnBase);
  }

  /** The side's heights stay within [-0.5, 0.5]. */
  lemma SideYInRange(p1: Positive, row: nat)
    requires row <= p1
    ensures -HalfHeight <= SideY(p1, row) <= HalfHeight
    ensures row == p1 ==> SideY(p1, row) == HalfHeight
  {
    var n := p1 as real;
    var step := 1.0 / n;
    assert step * n == 1.0;
    assert row as real * step <= n * step;
  }

  /** A normal that does not point downward. */
  predicate NotDownward(v: Vertex) {
    v.normal.y >= 0.0
  }

  /** Below the apex height, calculateNormal never points downward. */
  lemma CalculateNormalUpward(g: Glm, pt: Vec3)
    requires NonNegativeRoots(g) && pt.y <= HalfHeight
    ensures CalculateNormal(g, pt).y >= 0.0
  {
    var n := Vec3(2.0 * pt.x, -(0.5) * (2.0 * pt.y - 1.0), 2.0 * pt.z);
    var s := g.inverseSqrt(Dot3(n, n));
    assert n.y >= 0.0 && s >= 0.0;
  }

  lemma SideTileUpward(g: Glm, topStart: Vec3, topEnd: Vec3, bottomStart: Vec3, bottomEnd: Vec3)
    requires NonNegativeRoots(g)
    requires topStart.y <= HalfHeight && topEnd.y <= HalfHeight
    requires bottomStart.y <= HalfHeight && bottomEnd.y <= HalfHeight
    ensures forall v :: v in SideTile(g, topStart, topEnd, bottomStart, bottomEnd) ==> NotDownward(v)
  {
    CalculateNormalUpward(g, topStart); CalculateNormalUpward(g, topEnd);
    CalculateNormalUpward(g, bottomStart); CalculateNormalUpward(g, bottomEnd);
    var a, b := CalculateNormal(g, bottomStart), CalculateNormal(g, bottomEnd);
    var sum := Add3(a, b);
    assert g.inverseSqrt(Dot3(sum, sum)) >= 0.0;
    assert Normalize(g, sum).y >= 0.0;
  }

  /** Given a non-negative inversesqrt, no side vertex has a normal that
      points downward. */
  lemma SideSegmentUpward(g: Glm, p1: Positive, theta: real, theta': real)
    requires NonNegativeRoots(g)
    ensures forall v :: v in SideSegment(g, p1, theta, theta') ==> NotDownward(v)
  {
    var rows := SideRows(g, p1, theta, theta');
    forall row, v | 0 <= row < p1 && v in rows(row) ensures NotDownward(v) {
      SideYInRange(p1, row);
      SideYInRange(p1, row + 1);
      var yTop, yBottom := SideY(p1, row + 1), SideY(p1, row);
      var topRadius, bottomRadius := SideRadius(p1, row + 1), SideRadius(p1, row);
      SideTileUpward(g, RimPoint(g, topRadius, theta, yTop), RimPoint(g, topRadius, theta', yTop),
                     RimPoint(g, bottomRadius, theta, yBottom), RimPoint(g, bottomRadius, theta', yBottom));
    }
    BlocksAll(p1, rows, NotDownward);
  }

  /** The intended cone starts with its base: its first vertex lies on the
      base disc and faces straight down. */
  lemma ConeStartsWithBase(g: Glm, p1: Positive, p2: Positive)
    ensures |ConeVertices(g, p1, p2)| > 0 && OnBase(ConeVertices(g, p1, p2)[0])
  {
    var theta, theta' := WedgeStart(g, p2, 0), WedgeStart(g, p2, 1);
    WedgeLengths(g, p1, p2);
    BlocksAt(p2, 12 * p1, ConeWedges(g, p1, p2), 0, 0);
    SegmentLength(g, p1, theta, theta');
    BaseSegmentOnBase(g, p1, theta, theta');
    assert BaseSegment(g, p1, theta, theta')[0] in BaseSegment(g, p1, theta, theta');
  }

  /** The base is lost as written: given a non-negative inversesqrt, no
      vertex of the generated cone faces downward, while the intended cone's
      first vertex does; so the two differ for every param1 and param2. */
  lemma AsWrittenOmitsBase(g: Glm, p1: Positive, p2: Positive)
    requires NonNegativeRoots(g)
    ensures forall v :: v in ConeAsWritten(g, p1, p2) ==> NotDownward(v)
    ensures ConeAsWritten(g, p1, p2) != ConeVertices(g, p1, p2)
  {
    var wedges := SideWedges(g, p1, p2);
    forall i, v | 0 <= i < p2 && v in wedges(i) ensures NotDownward(v) {
      SideSegmentUpward(g, p1, WedgeStart(g, p2, i), WedgeStart(g, p2, i + 1));
    }
    BlocksAll(p2, wedges, NotDownward);
    ConeStartsWithBase(g, p1, p2);
    var first := ConeVertices(g, p1, p2)[0];
    assert first in ConeVertices(g, p1, p2);
    assert !NotDownward(first);
  }

  /** The top edge of the last side row is the apex (0, 0.5, 0); where the
      library's sqrt(0) is 0 the apex vertex takes the normalised sum of the
      normals at the two base-side corners of its tile. */
  lemma ApexTile(g: Glm, p1: Positive, theta: real, theta': real)
    requires g.sqrt(0.0) == 0.0
    ensures var row := p1 - 1;
      var bottomStart := RimPoint(g, SideRadius(p1, row), theta, SideY(p1, row));
      var bottomEnd := RimPoint(g, SideRadius(p1, row), theta', SideY(p1, row));
      var apexNormal := Normalize(g, Add3(CalculateNormal(g, bottomStart), CalculateNormal(g, bottomEnd)));
      SideRow(g, p1, theta, theta', row)[1] == Vertex(Vec3(0.0, HalfHeight, 0.0), apexNormal)
      && SideRow(g, p1, theta, theta', row)[2] == Vertex(Vec3(0.0, HalfHeight, 0.0), apexNormal)
  {
    SideYInRange(p1, p1);
    var n := p1 as real;
    assert Frac(p1, p1) == 1.0;
    assert SideRadius(p1, p1) == 0.0;
  }

  // ---------------------------------------------------------------------
  // The generator

  method MakeSideTile(data: VertexBuffer, g: Glm, topStart: Vec3, topEnd: Vec3, bottomStart: Vec3, bottomEnd: Vec3)
    modifies data
    ensures data.data == old(data.data) + Encode(SideTile(g, topStart, topEnd, bottomStart, bottomEnd))
  {
    var normalTL := SlopeNormal(g, topStart, bottomStart, bottomEnd);
    var normalTR := SlopeNormal(g, topEnd, bottomStart, bottomEnd);
    var normalBL := CalculateNormal(g, bottomStart);
    var normalBR := CalculateNormal(g, bottomEnd);
    ghost var d0 := data.data;
    data.InsertVertex(Vertex(bottomStart, normalBL));
    data.InsertVertex(Vertex(topStart, normalTL));
    data.InsertVertex(Vertex(topEnd, normalTR));
    data.InsertVertex(Vertex(bottomStart, normalBL));
    data.InsertVertex(Vertex(topEnd, normalTR));
    data.InsertVertex(Vertex(bottomEnd, normalBR));
    AppendSix(d0, Vertex(bottomStart, normalBL), Vertex(topStart, normalTL), Vertex(topEnd, normalTR),
              Vertex(bottomStart, normalBL), Vertex(topEnd, normalTR), Vertex(bottomEnd, normalBR));
  }

  /** makeBaseTile as written: the buffer arrives by value, so the six
      vertices go into a local copy that dies with the call. */
  method MakeBaseTileAsWritten(data: seq<real>, innerStart: Vec3, innerEnd: Vec3, outerStart: Vec3, outerEnd: Vec3)
  {
    var copy := new VertexBuffer.Copy(data);
    MakeBaseTile(copy, innerStart, innerEnd, outerStart, outerEnd);
  }

  /** makeBaseTile as intended: the six vertices reach the caller's buffer. */
  method MakeBaseTile(data: VertexBuffer, innerStart: Vec3, innerEnd: Vec3, outerStart: Vec3, outerEnd: Vec3)
    modifies data
    ensures data.data == old(data.data) + Encode(BaseTile(innerStart, innerEnd, outerStart, outerEnd))
  {
    var normal := Vec3(0.0, -1.0, 0.0);
    ghost var d0 := data.data;
    data.InsertVertex(Vertex(outerStart, normal));
    data.InsertVertex(Vertex(innerEnd, normal));
    data.InsertVertex(Vertex(innerStart, normal));
    data.InsertVertex(Vertex(outerStart, normal));
    data.InsertVertex(Vertex(outerEnd, normal));
    data.InsertVertex(Vertex(innerEnd, normal));
    AppendSix(d0, Vertex(outerStart, normal), Vertex(innerEnd, normal), Vertex(innerStart, normal),
              Vertex(outerStart, normal), Vertex(outerEnd, normal), Vertex(innerEnd, normal));
  }

  /** buildBaseSegment as written: every tile goes to a copy, so the buffer
      is left as it was. */
  method BuildBaseSegmentAsWritten(data: VertexBuffer, g: Glm, p1: Positive, startTheta: real, endTheta: real)
    ensures data.data == old(data.data)
  {
    var i := 0;
    while i < p1
      invariant 0 <= i <= p1
    {
      var innerRadius, outerRadius := BaseRingRadius(p1, i), BaseRingRadius(p1, i + 1);
      var innerStart := RimPoint(g, innerRadius, startTheta, -HalfHeight);
      var innerEnd := RimPoint(g, innerRadius, endTheta, -HalfHeight);
      var outerStart := RimPoint(g, outerRadius, startTheta, -HalfHeight);
      var outerEnd := RimPoint(g, outerRadius, endTheta, -HalfHeight);
      MakeBaseTileAsWritten(data.data, innerStart, innerEnd, outerStart, outerEnd);
      i := i + 1;
    }
    assert i == p1;
  }

  /** buildBaseSegment as intended. */
  method BuildBaseSegment(data: VertexBuffer, g: Glm, p1: Positive, startTheta: real, endTheta: real)
    modifies data
    ensures data.data == old(data.data) + Encode(BaseSegment(g, p1, startTheta, endTheta))
  {
    var i := 0;
    while i < p1
      invariant 0 <= i <= p1
      invariant data.data == old(data.data) + Encode(Blocks(i, BaseRows(g, p1, startTheta, endTheta)))
    {
      var innerRadius, outerRadius := BaseRingRadius(p1, i), BaseRingRadius(p1, i + 1);
      var innerStart := RimPoint(g, innerRadius, startTheta, -HalfHeight);
      var innerEnd := RimPoint(g, innerRadius, endTheta, -HalfHeight);
      var outerStart := RimPoint(g, outerRadius, startTheta, -HalfHeight);
      var outerEnd := RimPoint(g, outerRadius, endTheta, -HalfHeight);
      ghost var before := data.data;
      MakeBaseTile(data, innerStart, innerEnd, outerStart, outerEnd);
      assert data.data == before + Encode(BaseRow(g, p1, startTheta, endTheta, i));
      AppendStep(old(data.data), i, BaseRows(g, p1, startTheta, endTheta));
      assert BaseRows(g, p1, startTheta, endTheta)(i) == BaseRow(g, p1, startTheta, endTheta, i);
      i := i + 1;
    }
    assert i == p1;
  }

  /** buildSideSegment: one tile per row, from the base up to the apex. */
  method BuildSideSegment(data: VertexBuffer, g: Glm, p1: Positive, startTheta: real, endTheta: real)
    modifies data
    ensures data.data == old(data.data) + Encode(SideSegment(g, p1, startTheta, endTheta))
  {
    var row := 0;
    while row < p1
      invariant 0 <= row <= p1
      invariant data.data == old(data.data) + Encode(Blocks(row, SideRows(g, p1, startTheta, endTheta)))
    {
      var yTop, yBottom := SideY(p1, row + 1), SideY(p1, row);
      var topRadius, bottomRadius := SideRadius(p1, row + 1), SideRadius(p1, row);
      var topStart := RimPoint(g, topRadius, startTheta, yTop);
      var topEnd := RimPoint(g, topRadius, endTheta, yTop);
      var bottomStart := RimPoint(g, bottomRadius, startTheta, yBottom);
      var bottomEnd := RimPoint(g, bottomRadius, endTheta, yBottom);
      ghost var before := data.data;
      MakeSideTile(data, g, topStart, topEnd, bottomStart, bottomEnd);
      assert data.data == before + Encode(SideRow(g, p1, startTheta, endTheta, row));
      AppendStep(old(data.data), row, SideRows(g, p1, startTheta, endTheta));
      assert SideRows(g, p1, startTheta, endTheta)(row) == SideRow(g, p1, startTheta, endTheta, row);
      row := row + 1;
    }
    assert row == p1;
  }

  /** makeWedge as written: the base segment leaves nothing behind. */
  method MakeWedgeAsWritten(data: VertexBuffer, g: Glm, p1: Positive, startTheta: real, endTheta: real)
    modifies data
    ensures data.data == old(data.data) + Encode(SideSegment(g, p1, startTheta, endTheta))
  {
    BuildBaseSegmentAsWritten(data, g, p1, startTheta, endTheta);
    BuildSideSegment(data, g, p1, startTheta, endTheta);
  }

  /** makeWedge as intended: base segment, then side segment. */
  method MakeWedge(data: VertexBuffer, g: Glm, p1: Positive, startTheta: real, endTheta: real)
    modifies data
    ensures data.data == old(data.data) + Encode(Wedge(g, p1, startTheta, endTheta))
  {
    ghost var d0 := data.data;
    BuildBaseSegment(data, g, p1, startTheta, endTheta);
    BuildSideSegment(data, g, p1, startTheta, endTheta);
    ghost var a, b := BaseSegment(g, p1, startTheta, endTheta), SideSegment(g, p1, startTheta, endTheta);
    EncodeAppend(a, b);
    Assoc(d0, Encode(a), Encode(b));
  }

  /** makeCone as written: clear the buffer, then one wedge per step. */
  method MakeConeAsWritten(data: VertexBuffer, g: Glm, p1: Positive, p2: Positive)
    modifies data
    ensures data.data == Encode(ConeAsWritten(g, p1, p2))
  {
    data.Clear();
    var thetaStep := ThetaStep(g, p2);
    var i := 0;
    while i < p2
      invariant 0 <= i <= p2
      invariant data.data == Encode(Blocks(i, SideWedges(g, p1, p2)))
    {
      var startTheta := Steps(i, thetaStep);
      var endTheta := Steps(i + 1, thetaStep);
      ghost var before := data.data;
      MakeWedgeAsWritten(data, g, p1, startTheta, endTheta);
      assert data.data == before + Encode(SideWedge(g, p1, p2, i));
      BlocksStep(i, SideWedges(g, p1, p2));
      assert SideWedges(g, p1, p2)(i) == SideWedge(g, p1, p2, i);
      i := i + 1;
    }
    assert i == p2;
  }

  /** makeCone as intended. */
  method MakeCone(data: VertexBuffer, g: Glm, p1: Positive, p2: Positive)
    modifies data
    ensures data.data == Encode(ConeVertices(g, p1, p2))
  {
    data.Clear();
    var thetaStep := ThetaStep(g, p2);
    var i := 0;
    while i < p2
      invariant 0 <= i <= p2
      invariant data.data == Encode(Blocks(i, ConeWedges(g, p1, p2)))
    {
      var startTheta := Steps(i, thetaStep);
      var endTheta := Steps(i + 1, thetaStep);
      ghost var before := data.data;
      MakeWedge(data, g, p1, startTheta, endTheta);
      assert data.data == before + Encode(ConeWedge(g, p1, p2, i));
      BlocksStep(i, ConeWedges(g, p1, p2));
      assert ConeWedges(g, p1, p2)(i) == ConeWedge(g, p1, p2, i);
      i := i + 1;
    }
    assert i == p2;
  }

  /** generateConeData as written: both parameters clamped to at least 1. */
  method GenerateConeDataAsWritten(g: Glm, param1: int, param2: int) returns (data: seq<real>)
    ensures var p1, p2 := Clamp(param1, 1), Clamp(param2, 1);
      data == Encode(ConeAsWritten(g, p1, p2)) && |data| == 36 * (p1 * p2)
  {
    var p1 := Clamp(param1, 1);
    var p2 := Clamp(param2, 1);
    var buffer := new VertexBuffer();
    MakeConeAsWritten(buffer, g, p1, p2);
    data := buffer.data;
    ConeAsWrittenLength(g, p1, p2);
  }

  /** generateConeData as intended. */
  method GenerateConeData(g: Glm, param1: int, param2: int) returns (data: seq<real>)
    ensures var p1, p2 := Clamp(param1, 1), Clamp(param2, 1);
      data == Encode(ConeVertices(g, p1, p2)) && |data| == 72 * (p1 * p2)
  {
    var p1 := Clamp(param1, 1);
    var p2 := Clamp(param2, 1);
    var buffer := new VertexBuffer();
    MakeCone(buffer, g, p1, p2);
    data := buffer.data;
    ConeLength(g, p1, p2);
  }
}
