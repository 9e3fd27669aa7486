/** The cube generator: six faces of a unit cube centred on the origin, each
    cut into param x param square tiles of two triangles. Positions are exact
    (affine in the corners); only the normalisation of the normal is left
    uninterpreted. */
module Cube {
  import opened Linear
  import opened Numerics
  import opened Mesh

  datatype Face = Face(topLeft: Vec3, topRight: Vec3, bottomLeft: Vec3, bottomRight: Vec3)

  /** front-top-left, front-top-right, front-bottom-left, front-bottom-right,
      then the same four at the back. */
  const Corners: seq<Vec3> := [
    Vec3(-0.5, 0.5, 0.5), Vec3(0.5, 0.5, 0.5), Vec3(-0.5, -0.5, 0.5), Vec3(0.5, -0.5, 0.5),
    Vec3(-0.5, 0.5, -0.5), Vec3(0.5, 0.5, -0.5), Vec3(-0.5, -0.5, -0.5), Vec3(0.5, -0.5, -0.5)]

  /** The faces as makeCube names them by corner index. */
  const Front: Face := Face(Vec3(-0.5, 0.5, 0.5), Vec3(0.5, 0.5, 0.5), Vec3(-0.5, -0.5, 0.5), Vec3(0.5, -0.5, 0.5))
  const Back: Face := Face(Vec3(-0.5, -0.5, -0.5), Vec3(0.5, -0.5, -0.5), Vec3(-0.5, 0.5, -0.5), Vec3(0.5, 0.5, -0.5))
  const Up: Face := Face(Vec3(-0.5, 0.5, -0.5), Vec3(0.5, 0.5, -0.5), Vec3(-0.5, 0.5, 0.5), Vec3(0.5, 0.5, 0.5))
  const Down: Face := Face(Vec3(-0.5, -0.5, 0.5), Vec3(0.5, -0.5, 0.5), Vec3(-0.5, -0.5, -0.5), Vec3(0.5, -0.5, -0.5))
  const Left: Face := Face(Vec3(-0.5, 0.5, -0.5), Vec3(-0.5, 0.5, 0.5), Vec3(-0.5, -0.5, -0.5), Vec3(-0.5, -0.5, 0.5))
  const Right: Face := Face(Vec3(0.5, 0.5, 0.5), Vec3(0.5, 0.5, -0.5), Vec3(0.5, -0.5, 0.5), Vec3(0.5, -0.5, -0.5))

  /** Front, back, up, down, left, right: the order makeCube emits them in. */
  function Faces(): (fs: seq<Face>)
    ensures |fs| == 6
  {
    [Front, Back, Up, Down, Left, Right]
  }

  /** Each face is the four corners makeCube passes for it. */
  lemma FacesFromCorners()
    ensures Front == Face(Corners[0], Corners[1], Corners[2], Corners[3])
    ensures Back == Face(Corners[6], Corners[7], Corners[4], Corners[5])
    ensures Up == Face(Corners[4], Corners[5], Corners[0], Corners[1])
    ensures Down == Face(Corners[2], Corners[3], Corners[6], Corners[7])
    ensures Left == Face(Corners[4], Corners[0], Corners[6], Corners[2])
    ensures Right == Face(Corners[1], Corners[5], Corners[3], Corners[7])
  {
  }

  /** topLeft + s (topRight - topLeft) + t (bottomLeft - topLeft) */
  function Lerp(f: Face, s: real, t: real): Vec3 {
    Add3(Add3(f.topLeft, Scale3(Sub3(f.topRight, f.topLeft), s)), Scale3(Sub3(f.bottomLeft, f.topLeft), t))
  }

  /** normalize(cross(topLeft - bottomLeft, topLeft - bottomRight)) */
  function TileNormal(g: Glm, tl: Vec3, bl: Vec3, br: Vec3): Vec3 {
    Normalize(g, Cross(Sub3(tl, bl), Sub3(tl, br)))
  }

  /** The six vertices of one tile: TL, BL, BR, then TR, TL, BR, all with the
      tile's one normal. */
  function TileVertices(g: Glm, tl: Vec3, tr: Vec3, bl: Vec3, br: Vec3): (vs: seq<Vertex>)
    ensures |vs| == 6
  {
    var n := TileNormal(g, tl, bl, br);
    [Vertex(tl, n), Vertex(bl, n), Vertex(br, n), Vertex(tr, n), Vertex(tl, n), Vertex(br, n)]
  }

  /** The tile in row `row`, column `col` of a face. */
  function FaceTile(g: Glm, p: Positive, f: Face, row: nat, col: nat): (vs: seq<Vertex>)
    ensures |vs| == 6
  {
    var a, b, c, d := Frac(row, p), Frac(row + 1, p), Frac(col, p), Frac(col + 1, p);
    TileVertices(g, Lerp(f, c, a), Lerp(f, d, a), Lerp(f, c, b), Lerp(f, d, b))
  }

  function RowTiles(g: Glm, p: Positive, f: Face, row: nat): nat -> seq<Vertex> {
    (col: nat) => FaceTile(g, p, f, row, col)
  }

  function FaceRow(g: Glm, p: Positive, f: Face, row: nat): seq<Vertex> {
    Blocks(p, RowTiles(g, p, f, row))
  }

  function FaceRows(g: Glm, p: Positive, f: Face): nat -> seq<Vertex> {
    (row: nat) => FaceRow(g, p, f, row)
  }

  /** One face: its rows top to bottom, each row's tiles left to right. */
  function FaceVertices(g: Glm, p: Positive, f: Face): seq<Vertex> {
    Blocks(p, FaceRows(g, p, f))
  }

  function FaceBlocks(g: Glm, p: Positive, fs: seq<Face>): nat -> seq<Vertex> {
    (i: nat) => if i < |fs| then FaceVertices(g, p, fs[i]) else []
  }

  /** Faces one after another. */
  function Assemble(g: Glm, p: Positive, fs: seq<Face>): seq<Vertex> {
    Blocks(|fs|, FaceBlocks(g, p, fs))
  }

  /** The whole cube, face after face. */
  function CubeVertices(g: Glm, p: Positive): seq<Vertex> {
    Assemble(g, p, Faces())
  }

  lemma FaceRowLength(g: Glm, p: Positive, f: Face, row: nat)
    ensures |FaceRow(g, p, f, row)| == 6 * p
  {
    BlocksLength(p, 6, RowTiles(g, p, f, row));
  }

  lemma FaceLength(g: Glm, p: Positive, f: Face)
    ensures |FaceVertices(g, p, f)| == 6 * (p * p)
  {
    forall row | 0 <= row < p ensures |FaceRows(g, p, f)(row)| == 6 * p {
      FaceRowLength(g, p, f, row);
    }
    BlocksLength(p, 6 * p, FaceRows(g, p, f));
    LengthArithmetic(p, p, 6);
  }

  lemma FaceLengths(g: Glm, p: Positive, fs: seq<Face>)
    ensures forall i | 0 <= i < |fs| :: |FaceBlocks(g, p, fs)(i)| == 6 * (p * p)
  {
    forall i | 0 <= i < |fs| ensures |FaceBlocks(g, p, fs)(i)| == 6 * (p * p) {
      FaceLength(g, p, fs[i]);
    }
  }

  lemma AssembleLength(g: Glm, p: Positive, fs: seq<Face>)
    ensures |Assemble(g, p, fs)| == |fs| * (6 * (p * p))
    ensures |fs| == 6 ==> |Assemble(g, p, fs)| == 36 * (p * p)
    ensures |fs| == 6 ==> |Encode(Assemble(g, p, fs))| == 216 * (p * p)
  {
    var q := p * p;
    FaceLengths(g, p, fs);
    BlocksLength(|fs|, 6 * q, FaceBlocks(g, p, fs));
    if |fs| == 6 {
      assert |Assemble(g, p, fs)| == 36 * q;
    }
  }

  /** 6 faces x param^2 tiles x 6 vertices, that is 216 param^2 floats. */
  lemma CubeLength(g: Glm, p: Positive)
    ensures |CubeVertices(g, p)| == 36 * (p * p)
    ensures |Encode(CubeVertices(g, p))| == 216 * (p * p)
  {
    AssembleLength(g, p, Faces());
  }

  lemma FaceRowAt(g: Glm, p: Positive, f: Face, row: nat, col: nat, j: nat)
    requires col < p && j < 6
    ensures col * 6 + j < |FaceRow(g, p, f, row)|
    ensures FaceRow(g, p, f, row)[col * 6 + j] == FaceTile(g, p, f, row, col)[j]
  {
    BlocksAt(p, 6, RowTiles(g, p, f, row), col, j);
  }

  lemma FaceAt(g: Glm, p: Positive, f: Face, row: nat, col: nat, j: nat)
    requires row < p && col < p && j < 6
    ensures row * (6 * p) + col * 6 + j < |FaceVertices(g, p, f)|
    ensures FaceVertices(g, p, f)[row * (6 * p) + col * 6 + j] == FaceTile(g, p, f, row, col)[j]
  {
    FaceRowAt(g, p, f, row, col, j);
    forall r | 0 <= r < p ensures |FaceRows(g, p, f)(r)| == 6 * p {
      FaceRowLength(g, p, f, r);
    }
    BlocksAt(p, 6 * p, FaceRows(g, p, f), row, col * 6 + j);
  }

  /** 6 p^2 face + 6 p row + 6 col + j: faces in order, tiles row-major,
      six vertices per tile. */
  function TileIndex(p: nat, face: nat, row: nat, col: nat, j: nat): nat {
    face * (6 * (p * p)) + (row * (6 * p) + col * 6 + j)
  }

  /** Vertex j of the tile in row `row`, column `col` of face `face` sits at
      TileIndex(p, face, row, col, j). */
  lemma AssembleAt(g: Glm, p: Positive, fs: seq<Face>, face: nat, row: nat, col: nat, j: nat)
    requires face < |fs| && row < p && col < p && j < 6
    ensures TileIndex(p, face, row, col, j) < |Assemble(g, p, fs)|
    ensures Assemble(g, p, fs)[TileIndex(p, face, row, col, j)] == FaceTile(g, p, fs[face], row, col)[j]
  {
    var m := row * (6 * p) + col * 6 + j;
    FaceAt(g, p, fs[face], row, col, j);
    FaceLengths(g, p, fs);
    FaceLength(g, p, fs[face]);
    BlocksAt(|fs|, 6 * (p * p), FaceBlocks(g, p, fs), face, m);
  }

  predicate InBox(q: Vec3) {
    -0.5 <= q.x <= 0.5 && -0.5 <= q.y <= 0.5 && -0.5 <= q.z <= 0.5
  }

  predicate InUnitBox(v: Vertex) {
    InBox(v.pos)
  }

  predicate CubeFace(f: Face) {
    f == Front || f == Back || f == Up || f == Down || f == Left || f == Right
  }

  lemma FacesAreCubeFaces()
    ensures forall f | f in Faces() :: CubeFace(f)
  {
  }

  /** Every point of the face's parameter square lies in the box. */
  ghost predicate LerpsInBox(f: Face) {
    forall s: real, t: real | 0.0 <= s <= 1.0 && 0.0 <= t <= 1.0 :: InBox(Lerp(f, s, t))
  }

  lemma FaceLerpInBox(f: Face)
    requires CubeFace(f)
    ensures LerpsInBox(f)
  {
  }

  /** A tile's vertices sit at its four corners. */
  lemma TileCornersInBox(g: Glm, tl: Vec3, tr: Vec3, bl: Vec3, br: Vec3)
    requires InBox(tl) && InBox(tr) && InBox(bl) && InBox(br)
    ensures forall v :: v in TileVertices(g, tl, tr, bl, br) ==> InUnitBox(v)
  {
  }

  lemma TileInBox(g: Glm, p: Positive, f: Face, row: nat, col: nat)
    requires LerpsInBox(f) && row < p && col < p
    ensures forall v :: v in FaceTile(g, p, f, row, col) ==> InUnitBox(v)
  {
    FracInUnit(row, p); FracInUnit(row + 1, p); FracInUnit(col, p); FracInUnit(col + 1, p);
    var a, b, c, d := Frac(row, p), Frac(row + 1, p), Frac(col, p), Frac(col + 1, p);
    TileCornersInBox(g, Lerp(f, c, a), Lerp(f, d, a), Lerp(f, c, b), Lerp(f, d, b));
  }

  /** Every position is an affine combination of a face's corners with
      coefficients in [0, 1], so every coordinate lies in [-0.5, 0.5]. */
  lemma CubeInBox(g: Glm, p: Positive)
    ensures forall v :: v in CubeVertices(g, p) ==> InUnitBox(v)
  {
    var fs := Faces();
    FacesAreCubeFaces();
    forall i, v | 0 <= i < |fs| && v in FaceBlocks(g, p, fs)(i) ensures InUnitBox(v) {
      var f := fs[i];
      assert CubeFace(f);
      FaceLerpInBox(f);
      forall row, w | 0 <= row < p && w in FaceRows(g, p, f)(row) ensures InUnitBox(w) {
        forall col, x | 0 <= col < p && x in RowTiles(g, p, f, row)(col) ensures InUnitBox(x) {
          TileInBox(g, p, f, row, col);
        }
        BlocksAll(p, RowTiles(g, p, f, row), InUnitBox);
      }
      BlocksAll(p, FaceRows(g, p, f), InUnitBox);
    }
    BlocksAll(|fs|, FaceBlocks(g, p, fs), InUnitBox);
  }

  method MakeTile(data: VertexBuffer, g: Glm, tl: Vec3, tr: Vec3, bl: Vec3, br: Vec3)
    modifies data
    ensures data.data == old(data.data) + Encode(TileVertices(g, tl, tr, bl, br))
  {
    var normal := Normalize(g, Cross(Sub3(tl, bl), Sub3(tl, br)));
    ghost var d0 := data.data;
    data.InsertVertex(Vertex(tl, normal));
    data.InsertVertex(Vertex(bl, normal));
    data.InsertVertex(Vertex(br, normal));
    data.InsertVertex(Vertex(tr, normal));
    data.InsertVertex(Vertex(tl, normal));
    data.InsertVertex(Vertex(br, normal));
    AppendSix(d0, Vertex(tl, normal), Vertex(bl, normal), Vertex(br, normal),
              Vertex(tr, normal), Vertex(tl, normal), Vertex(br, normal));
  }

  /** One row of tiles of a face, left to right (the inner loop of makeFace). */
  method MakeFaceRow(data: VertexBuffer, g: Glm, p: Positive, f: Face, row: nat)
    modifies data
    ensures data.data == old(data.data) + Encode(FaceRow(g, p, f, row))
  {
    var col := 0;
    while col < p
      invariant 0 <= col <= p
      invariant data.data == old(data.data) + Encode(Blocks(col, RowTiles(g, p, f, row)))
    {
      var a, b, c, d := Frac(row, p), Frac(row + 1, p), Frac(col, p), Frac(col + 1, p);
      var newTopLeft, newTopRight := Lerp(f, c, a), Lerp(f, d, a);
      var newBottomLeft, newBottomRight := Lerp(f, c, b), Lerp(f, d, b);
      ghost var before := data.data;
      MakeTile(data, g, newTopLeft, newTopRight, newBottomLeft, newBottomRight);
      assert data.data == before + Encode(FaceTile(g, p, f, row, col));
      AppendStep(old(data.data), col, RowTiles(g, p, f, row));
      assert RowTiles(g, p, f, row)(col) == FaceTile(g, p, f, row, col);
      col := col + 1;
    }
    assert col == p;
  }

  /** makeFace: the rows of a face, top to bottom. */
  method MakeFace(data: VertexBuffer, g: Glm, p: Positive, f: Face)
    modifies data
    ensures data.data == old(data.data) + Encode(FaceVertices(g, p, f))
  {
    var row := 0;
    while row < p
      invariant 0 <= row <= p
      invariant data.data == old(data.data) + Encode(Blocks(row, FaceRows(g, p, f)))
    {
      ghost var before := data.data;
      MakeFaceRow(data, g, p, f, row);
      assert data.data == before + Encode(FaceRow(g, p, f, row));
      AppendStep(old(data.data), row, FaceRows(g, p, f));
      assert FaceRows(g, p, f)(row) == FaceRow(g, p, f, row);
      row := row + 1;
    }
    assert row == p;
  }

  lemma EncodeConcatSix(a: seq<Vertex>, b: seq<Vertex>, c: seq<Vertex>, d: seq<Vertex>, e: seq<Vertex>, f: seq<Vertex>)
    ensures Encode(a + b + c + d + e + f) == Encode(a) + Encode(b) + Encode(c) + Encode(d) + Encode(e) + Encode(f)
  {
    EncodeAppend(a, b);
    EncodeAppend(a + b, c);
    EncodeAppend(a + b + c, d);
    EncodeAppend(a + b + c + d, e);
    EncodeAppend(a + b + c + d + e, f);
  }

  lemma AssembleSix(g: Glm, p: Positive, fs: seq<Face>)
    requires |fs| == 6
    ensures Encode(Assemble(g, p, fs))
         == Encode(FaceVertices(g, p, fs[0])) + Encode(FaceVertices(g, p, fs[1]))
          + Encode(FaceVertices(g, p, fs[2])) + Encode(FaceVertices(g, p, fs[3]))
          + Encode(FaceVertices(g, p, fs[4])) + Encode(FaceVertices(g, p, fs[5]))
  {
    var cf := FaceBlocks(g, p, fs);
    assert Blocks(1, cf) == cf(0);
    assert Blocks(2, cf) == cf(0) + cf(1);
    assert Blocks(3, cf) == cf(0) + cf(1) + cf(2);
    assert Blocks(4, cf) == cf(0) + cf(1) + cf(2) + cf(3);
    assert Blocks(5, cf) == cf(0) + cf(1) + cf(2) + cf(3) + cf(4);
    assert Assemble(g, p, fs) == cf(0) + cf(1) + cf(2) + cf(3) + cf(4) + cf(5);
    EncodeConcatSix(cf(0), cf(1), cf(2), cf(3), cf(4), cf(5));
  }

  /** makeCube: the six faces from the eight corners. */
  method MakeCube(data: VertexBuffer, g: Glm, p: Positive)
    modifies data
    ensures data.data == old(data.data) + Encode(CubeVertices(g, p))
  {
    var corner := Corners;
    FacesFromCorners();
    ghost var d0 := data.data;
    MakeFace(data, g, p, Face(corner[0], corner[1], corner[2], corner[3]));
    MakeFace(data, g, p, Face(corner[6], corner[7], corner[4], corner[5]));
    MakeFace(data, g, p, Face(corner[4], corner[5], corner[0], corner[1]));
    MakeFace(data, g, p, Face(corner[2], corner[3], corner[6], corner[7]));
    MakeFace(data, g, p, Face(corner[4], corner[0], corner[6], corner[2]));
    MakeFace(data, g, p, Face(corner[1], corner[5], corner[3], corner[7]));
    ghost var fs := Faces();
    assert fs == [Front, Back, Up, Down, Left, Right];
    AssembleSix(g, p, fs);
    ghost var e0, e1, e2 := Encode(FaceVertices(g, p, Front)), Encode(FaceVertices(g, p, Back)), Encode(FaceVertices(g, p, Up));
    ghost var e3, e4, e5 := Encode(FaceVertices(g, p, Down)), Encode(FaceVertices(g, p, Left)), Encode(FaceVertices(g, p, Right));
    assert data.data == d0 + e0 + e1 + e2 + e3 + e4 + e5;
    assert Encode(CubeVertices(g, p)) == e0 + e1 + e2 + e3 + e4 + e5;
    SeqAssocSix(d0, e0, e1, e2, e3, e4, e5);
  }

  /** generateCubeData: param clamped to at least 1, a fresh buffer filled by
      makeCube. */
  method GenerateCubeData(g: Glm, param: int) returns (data: seq<real>)
    ensures var p := Clamp(param, 1);
      data == Encode(CubeVertices(g, p)) && |data| == 216 * (p * p)
  {
    var p := Clamp(param, 1);
    var buffer := new VertexBuffer();
    MakeCube(buffer, g, p);
    data := buffer.data;
    CubeLength(g, p);
  }
}
