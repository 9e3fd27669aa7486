/** What the four primitive generators share: the interleaved vertex layout
    (three position floats, then three normal floats), the float buffer they
    append to, and a row-major concatenation of equally long blocks that
    describes their nested loops. */
module Mesh {
  import opened Linear
  import opened Numerics
  import opened Sequences

  /** Floats per vertex: the stride the renderer gives glVertexAttribPointer. */
  const Stride: nat := 6

  datatype Vertex = Vertex(pos: Vec3, normal: Vec3)

  /** A tessellation parameter after clamping to at least one. */
  type Positive = n: nat | 1 <= n witness 1

  /** glm::max(lo, param) */
  function Clamp(param: int, lo: Positive): (r: Positive)
    ensures r >= param && r >= lo && (r == param || r == lo)
  {
    if param < lo then lo else param
  }

  /** (float)i / n, taken exactly. */
  function Frac(i: nat, n: Positive): real {
    i as real / n as real
  }

  lemma FracInUnit(i: nat, n: Positive)
    requires i <= n
    ensures 0.0 <= Frac(i, n) <= 1.0
    ensures i == 0 ==> Frac(i, n) == 0.0
    ensures i == n ==> Frac(i, n) == 1.0
  {
    assert Frac(i, n) * n as real == i as real;
  }

  const Up: Vec3 := Vec3(0.0, 1.0, 0.0)
  const Down: Vec3 := Vec3(0.0, -1.0, 0.0)

  /** The point at distance `radius` from the y axis, azimuth theta, height y:
      (radius cos theta, y, radius sin theta). */
  function RimPoint(g: Glm, radius: real, theta: real, y: real): Vec3 {
    Vec3(radius * g.cos(theta), y, radius * g.sin(theta))
  }

  /** radians(360 / param2): the azimuth one wedge of a cylinder or cone spans. */
  function ThetaStep(g: Glm, p2: Positive): real {
    Radians(g, 360.0 / p2 as real)
  }

  /** i * step, the start of the i-th of a run of equal steps. */
  function Steps(i: nat, step: real): real {
    i as real * step
  }

  /** Azimuth of the start of wedge i: i * radians(360 / param2). */
  function WedgeStart(g: Glm, p2: Positive, i: nat): real {
    Steps(i, ThetaStep(g, p2))
  }

  /** The wedges run from azimuth 0 round to radians(360). */
  lemma WedgesSpan(g: Glm, p2: Positive)
    ensures WedgeStart(g, p2, 0) == 0.0 && WedgeStart(g, p2, p2) == Radians(g, 360.0)
  {
    var n := p2 as real;
    assert n * (360.0 / n) == 360.0;
    assert WedgeStart(g, p2, p2) == n * (360.0 / n) * g.pi / 180.0;
  }

  /** One vertex as the generators write it: insert(position), insert(normal). */
  function Floats(v: Vertex): seq<real> {
    [v.pos.x, v.pos.y, v.pos.z, v.normal.x, v.normal.y, v.normal.z]
  }

  function Encode(vs: seq<Vertex>): (r: seq<real>)
    ensures |r| == Stride * |vs|
  {
    seq(Stride * |vs|, k requires 0 <= k < Stride * |vs| => Floats(vs[k / Stride])[k % Stride])
  }

  /** Vertex k of a float buffer, read the way the renderer's vertex array reads
      it: attribute 0 (position) at offset 0, attribute 1 (normal) at offset 3,
      stride 6. */
  function VertexAt(data: seq<real>, k: nat): Vertex
    requires Stride * k + Stride <= |data|
  {
    var b := Stride * k;
    Vertex(Vec3(data[b], data[b + 1], data[b + 2]), Vec3(data[b + 3], data[b + 4], data[b + 5]))
  }

  function Decode(data: seq<real>): (vs: seq<Vertex>)
    requires |data| % Stride == 0
    ensures |vs| == |data| / Stride
  {
    seq(|data| / Stride, k requires 0 <= k < |data| / Stride => VertexAt(data, k))
  }

  /** The number of vertices the renderer draws from a buffer: size() / 6. */
  function VertexCount(data: seq<real>): nat {
    |data| / Stride
  }

  lemma EncodeAppend(a: seq<Vertex>, b: seq<Vertex>)
    ensures Encode(a + b) == Encode(a) + Encode(b)
  {
    var l, r := Encode(a + b), Encode(a) + Encode(b);
    forall k | 0 <= k < |l| ensures l[k] == r[k] {
      EncodeAppendAt(a, b, k);
    }
  }

  lemma EncodeAppendAt(a: seq<Vertex>, b: seq<Vertex>, k: nat)
    requires k < Stride * (|a| + |b|)
    ensures Encode(a + b)[k] == (Encode(a) + Encode(b))[k]
  {
    var v, j := k / Stride, k % Stride;
    StrideDivMod(v, j);
    EncodeFloat(a + b, v, j);
    if v < |a| {
      EncodeFloat(a, v, j);
    } else {
      EncodeFloat(b, v - |a|, j);
      assert Stride * v + j == Stride * |a| + (Stride * (v - |a|) + j);
    }
  }

  /** Dropping n whole vertices moves a float n vertices back. */
  lemma StrideShift(k: nat, n: nat)
    requires Stride * n <= k
    ensures (k - Stride * n) / Stride == k / Stride - n && (k - Stride * n) % Stride == k % Stride
  {
  }

  /** Float r of vertex k sits at Stride k + r. */
  lemma StrideDivMod(k: nat, r: nat)
    requires r < Stride
    ensures (Stride * k + r) / Stride == k && (Stride * k + r) % Stride == r
  {
  }

  lemma EncodeFloat(vs: seq<Vertex>, k: nat, r: nat)
    requires k < |vs| && r < Stride
    ensures Stride * k + r < |Encode(vs)| && Encode(vs)[Stride * k + r] == Floats(vs[k])[r]
  {
    StrideDivMod(k, r);
  }

  /** Reading vertex k back from an encoded buffer yields the k-th vertex. */
  lemma EncodeAt(vs: seq<Vertex>, k: nat)
    requires k < |vs|
    ensures Stride * k + Stride <= |Encode(vs)| && VertexAt(Encode(vs), k) == vs[k]
  {
    EncodeFloat(vs, k, 0);
    EncodeFloat(vs, k, 1);
    EncodeFloat(vs, k, 2);
    EncodeFloat(vs, k, 3);
    EncodeFloat(vs, k, 4);
    EncodeFloat(vs, k, 5);
  }

  /** The layout round trip: what the generators write is what the renderer's
      vertex array reads, vertex for vertex. */
  lemma DecodeEncode(vs: seq<Vertex>)
    ensures |Encode(vs)| % Stride == 0 && Decode(Encode(vs)) == vs
  {
    var d := Decode(Encode(vs));
    forall k | 0 <= k < |vs| ensures d[k] == vs[k] {
      EncodeAt(vs, k);
    }
  }

  lemma EncodeOne(v: Vertex)
    ensures Encode([v]) == Floats(v)
  {
    forall r | 0 <= r < Stride ensures Encode([v])[r] == Floats(v)[r] {
      EncodeFloat([v], 0, r);
    }
  }

  lemma EncodeSix(a: Vertex, b: Vertex, c: Vertex, d: Vertex, e: Vertex, f: Vertex)
    ensures Encode([a, b, c, d, e, f])
         == Floats(a) + Floats(b) + Floats(c) + Floats(d) + Floats(e) + Floats(f)
  {
    assert [a, b, c, d, e, f] == [a] + [b] + [c] + [d] + [e] + [f];
    EncodeAppend([a] + [b] + [c] + [d] + [e], [f]);
    EncodeAppend([a] + [b] + [c] + [d], [e]);
    EncodeAppend([a] + [b] + [c], [d]);
    EncodeAppend([a] + [b], [c]);
    EncodeAppend([a], [b]);
    EncodeOne(a);
    EncodeOne(b);
    EncodeOne(c);
    EncodeOne(d);
    EncodeOne(e);
    EncodeOne(f);
  }

  lemma SeqAssocSix<T>(d: seq<T>, a: seq<T>, b: seq<T>, c: seq<T>, e: seq<T>, f: seq<T>, h: seq<T>)
    ensures d + a + b + c + e + f + h == d + (a + b + c + e + f + h)
  {
  }

  /** Six vertices pushed one at a time onto a buffer holding d. */
  lemma AppendSix(d: seq<real>, a: Vertex, b: Vertex, c: Vertex, e: Vertex, f: Vertex, h: Vertex)
    ensures d + Floats(a) + Floats(b) + Floats(c) + Floats(e) + Floats(f) + Floats(h)
         == d + Encode([a, b, c, e, f, h])
  {
    EncodeSix(a, b, c, e, f, h);
    SeqAssocSix(d, Floats(a), Floats(b), Floats(c), Floats(e), Floats(f), Floats(h));
  }

  // ---------------------------------------------------------------------
  // Nested loops as concatenations of blocks

  /** blk(0) + blk(1) + ... + blk(n - 1): what a loop `for i < n` appending
      blk(i) on each turn leaves behind it. */
  function Blocks<T>(n: nat, blk: nat -> seq<T>): seq<T>
    decreases n
  {
    if n == 0 then [] else Blocks(n - 1, blk) + blk(n - 1)
  }

  lemma MulMonotone(a: nat, b: nat, l: nat)
    requires a <= b
    ensures a * l <= b * l
  {
  }

  /** When every block holds len elements, element k of block j sits at
      j * len + k. */
  lemma {:induction false} BlocksAt<T>(n: nat, len: nat, blk: nat -> seq<T>, j: nat, k: nat)
    requires forall i :: 0 <= i < n ==> |blk(i)| == len
    requires j < n && k < len
    ensures |Blocks(n, blk)| == n * len
    ensures j * len + k < n * len && Blocks(n, blk)[j * len + k] == blk(j)[k]
  {
    BlocksLength(n, len, blk);
    BlocksLength(n - 1, len, blk);
    if j < n - 1 {
      MulMonotone(j + 1, n - 1, len);
      BlocksAt(n - 1, len, blk, j, k);
    } else {
      assert j * len == (n - 1) * len;
    }
  }

  /** The products a generator's length lemma needs: k vertices per tile
      row and p1 rows in each of p2 wedges; 6 floats per vertex. */
  lemma LengthArithmetic(p1: nat, p2: nat, k: nat)
    ensures p2 * (k * p1) == k * (p1 * p2)
    ensures 6 * (k * (p1 * p2)) == (6 * k) * (p1 * p2)
  {
    var q := p1 * p2;
    assert p2 * (k * p1) == k * q;
  }

  lemma {:induction false} BlocksLength<T>(n: nat, len: nat, blk: nat -> seq<T>)
    requires forall i :: 0 <= i < n ==> |blk(i)| == len
    ensures |Blocks(n, blk)| == n * len
  {
    if n > 0 {
      BlocksLength(n - 1, len, blk);
    }
  }

  /** Whatever holds of every element of every block holds of every element
      of their concatenation. */
  lemma {:induction false} BlocksAll<T>(n: nat, blk: nat -> seq<T>, p: T -> bool)
    requires forall i, x :: 0 <= i < n && x in blk(i) ==> p(x)
    ensures forall x :: x in Blocks(n, blk) ==> p(x)
  {
    if n > 0 {
      BlocksAll(n - 1, blk, p);
    }
  }

  /** One more turn of a loop that appends encoded blocks. */
  lemma {:induction false} BlocksStep(n: nat, blk: nat -> seq<Vertex>)
    ensures Encode(Blocks(n + 1, blk)) == Encode(Blocks(n, blk)) + Encode(blk(n))
  {
    EncodeAppend(Blocks(n, blk), blk(n));
  }

  /** The same step seen from a buffer that already held d before the loop. */
  lemma AppendStep(d: seq<real>, n: nat, blk: nat -> seq<Vertex>)
    ensures d + Encode(Blocks(n + 1, blk)) == d + Encode(Blocks(n, blk)) + Encode(blk(n))
  {
    BlocksStep(n, blk);
    Assoc(d, Encode(Blocks(n, blk)), Encode(blk(n)));
  }

  // ---------------------------------------------------------------------
  // The buffer the generators fill

  /** The std::vector<float> every generator receives by reference. */
  class VertexBuffer {
    var data: seq<real>

    constructor ()
      ensures data == []
    {
      data := [];
    }

    /** A copy, as a std::vector<float> passed by value is. */
    constructor Copy(from: seq<real>)
      ensures data == from
    {
      data := from;
    }

    /** insert(data, v): pushes v.x, v.y, v.z. */
    method Insert(v: Vec3)
      modifies this
      ensures data == old(data) + [v.x, v.y, v.z]
    {
      data := data + [v.x, v.y, v.z];
    }

    /** data.clear() */
    method Clear()
      modifies this
      ensures data == []
    {
      data := [];
    }

    /** insert(position); insert(normal) */
    method InsertVertex(v: Vertex)
      modifies this
      ensures data == old(data) + Floats(v)
    {
      Insert(v.pos);
      Insert(v.normal);
    }
  }
}
