/** The camera: position, look and up vectors, field-of-view angles and clip
    planes, with cached view and projection matrices and two dirty flags. The
    trigonometry, normalisation and matrix inverse it calls are uninterpreted
    (see module Numerics). */
module Camera {
  import opened Linear
  import opened Numerics

  /** w = -normalize(look): the camera's backward axis. */
  function BackAxis(g: Glm, look: Vec3): Vec3 {
    Neg3(Normalize(g, look))
  }

  /** v = normalize(up - (up . w) w): up made orthogonal to w. */
  function UpAxis(g: Glm, look: Vec3, up: Vec3): Vec3 {
    var w := BackAxis(g, look);
    Normalize(g, Sub3(up, Scale3(w, Dot3(up, w))))
  }

  /** u = v x w. */
  function RightAxis(g: Glm, look: Vec3, up: Vec3): Vec3 {
    Cross(UpAxis(g, look, up), BackAxis(g, look))
  }

  /** The rotation whose ROWS are u, v and w (glm's constructor takes the
      sixteen entries column by column). */
  function Rotation(u: Vec3, v: Vec3, w: Vec3): Mat4 {
    Mat4(Vec4(u.x, v.x, w.x, 0.0), Vec4(u.y, v.y, w.y, 0.0),
         Vec4(u.z, v.z, w.z, 0.0), Vec4(0.0, 0.0, 0.0, 1.0))
  }

  /** The view matrix: the rotation times the translation by -position. */
  function ViewMatrix(g: Glm, position: Vec3, look: Vec3, up: Vec3): Mat4 {
    Mul(Rotation(RightAxis(g, look, up), UpAxis(g, look, up), BackAxis(g, look)),
        Translation(Neg3(position)))
  }

  /** 2 atan(aspect tan(height / 2)) */
  function WidthAngle(g: Glm, aspectRatio: real, heightAngle: real): real {
    2.0 * g.atan(aspectRatio * g.tan(heightAngle / 2.0))
  }

  /** A projection is Degenerate when one of its divisions is by zero (the
      source then computes with infinities); otherwise it is a finite matrix. */
  datatype Projection = Degenerate | Finite(m: Mat4)

  function Remap(): Mat4 {
    Mat4(Vec4(1.0, 0.0, 0.0, 0.0), Vec4(0.0, 1.0, 0.0, 0.0),
         Vec4(0.0, 0.0, -2.0, 0.0), Vec4(0.0, 0.0, 0.0, 1.0))
  }

  /** The unhinging matrix with the entries in the order the source gives them. */
  function Unhinge(c: real): Mat4
    requires 1.0 + c != 0.0
  {
    Mat4(Vec4(1.0, 0.0, 0.0, 0.0), Vec4(0.0, 1.0, 0.0, 0.0),
         Vec4(0.0, 0.0, 1.0 / (1.0 + c), -c / (1.0 + c)), Vec4(0.0, 0.0, -1.0, 0.0))
  }

  function ProjectionMatrix(g: Glm, widthAngle: real, heightAngle: real, near: real, far: real): Projection {
    var tx, ty := g.tan(widthAngle / 2.0), g.tan(heightAngle / 2.0);
    if far == 0.0 || tx == 0.0 || ty == 0.0 then Degenerate
    else
      var c := -near / far;
      if 1.0 + c == 0.0 then Degenerate
      else
        var s := Scaling(Vec3(1.0 / (far * tx), 1.0 / (far * ty), 1.0 / far));
        Finite(Mul(Mul(Remap(), Unhinge(c)), s))
  }

  lemma OnePlusRatio(near: real, far: real)
    requires far != 0.0
    ensures 1.0 + -near / far == 0.0 <==> near == far
  {
    var c := -near / far;
    assert c * far == -near;
    assert (1.0 + c) * far == far - near;
  }

  /** The projection is defined exactly when the far plane is not zero, the
      near and far planes differ, and neither half-angle has a zero tangent. */
  lemma ProjectionDefined(g: Glm, widthAngle: real, heightAngle: real, near: real, far: real)
    ensures ProjectionMatrix(g, widthAngle, heightAngle, near, far).Finite?
        <==> far != 0.0 && near != far
             && g.tan(widthAngle / 2.0) != 0.0 && g.tan(heightAngle / 2.0) != 0.0
  {
    if far != 0.0 {
      OnePlusRatio(near, far);
    }
  }

  /** The constructor's planes (near = far = 1) leave the projection undefined,
      whatever the angles. */
  lemma DefaultProjectionDegenerate(g: Glm, widthAngle: real, heightAngle: real)
    ensures ProjectionMatrix(g, widthAngle, heightAngle, 1.0, 1.0) == Degenerate
  {
    ProjectionDefined(g, widthAngle, heightAngle, 1.0, 1.0);
  }

  lemma TranslateToOrigin(position: Vec3, p: Vec3)
    ensures Apply(Translation(Neg3(position)), Point(p)) == Point(Sub3(p, position))
  {
  }

  lemma RotateRows(u: Vec3, v: Vec3, w: Vec3, d: Vec3)
    ensures Apply(Rotation(u, v, w), Point(d)) == Vec4(Dot3(u, d), Dot3(v, d), Dot3(w, d), 1.0)
  {
  }

  /** The view matrix takes a world point to its offset from the camera
      measured along the camera axes u, v and w. */
  lemma ViewCoordinates(g: Glm, position: Vec3, look: Vec3, up: Vec3, p: Vec3)
    ensures var d := Sub3(p, position);
      Apply(ViewMatrix(g, position, look, up), Point(p))
      == Vec4(Dot3(RightAxis(g, look, up), d), Dot3(UpAxis(g, look, up), d), Dot3(BackAxis(g, look), d), 1.0)
  {
    var r := Rotation(RightAxis(g, look, up), UpAxis(g, look, up), BackAxis(g, look));
    var t := Translation(Neg3(position));
    ApplyMul(r, t, Point(p));
    TranslateToOrigin(position, p);
    RotateRows(RightAxis(g, look, up), UpAxis(g, look, up), BackAxis(g, look), Sub3(p, position));
  }

  /** In particular the camera position goes to the origin. */
  lemma ViewMapsEyeToOrigin(g: Glm, position: Vec3, look: Vec3, up: Vec3)
    ensures Apply(ViewMatrix(g, position, look, up), Point(position)) == Origin
  {
    ViewCoordinates(g, position, look, up, position);
    assert Sub3(position, position) == Zero3;
  }

  /** The right axis is orthogonal to the backward axis, whatever the
      numerics return. */
  lemma RightOrthogonalToBack(g: Glm, look: Vec3, up: Vec3)
    ensures Dot3(RightAxis(g, look, up), BackAxis(g, look)) == 0.0
  {
    var v, w := UpAxis(g, look, up), BackAxis(g, look);
    assert Dot3(Cross(v, w), w)
        == (v.y * w.z - v.z * w.y) * w.x + (v.z * w.x - v.x * w.z) * w.y + (v.x * w.y - v.y * w.x) * w.z;
  }

  class Camera {
    const g: Glm
    var position: Vec3
    var look: Vec3
    var up: Vec3
    var aspectRatio: real
    var heightAngle: real
    var widthAngle: real
    var nearPlane: real
    var farPlane: real
    var viewMatrix: Mat4
    var projMatrix: Projection
    var invViewMatrix: Mat4
    var viewGarbage: bool
    var projGarbage: bool

    /** The width angle and the cached matrices are left indeterminate, as the
        source leaves them. */
    constructor (g: Glm)
      ensures this.g == g
      ensures position == Zero3 && look == Vec3(0.0, 0.0, 1.0) && up == Vec3(0.0, 1.0, 0.0)
      ensures heightAngle == 0.0 && aspectRatio == 1.0 && nearPlane == 1.0 && farPlane == 1.0
      ensures viewGarbage && projGarbage
    {
      this.g := g;
      position := Zero3;
      look := Vec3(0.0, 0.0, 1.0);
      up := Vec3(0.0, 1.0, 0.0);
      heightAngle := 0.0;
      aspectRatio := 1.0;
      nearPlane := 1.0;
      farPlane := 1.0;
      viewGarbage := true;
      projGarbage := true;
    }

    method SetPosition(pos: Vec3)
      modifies this`position, this`viewGarbage
      ensures position == pos && viewGarbage
    {
      position := pos;
      viewGarbage := true;
    }

    method SetLook(l: Vec3)
      modifies this`look, this`viewGarbage
      ensures look == l && viewGarbage
    {
      look := l;
      viewGarbage := true;
    }

    method SetUp(u: Vec3)
      modifies this`up, this`viewGarbage
      ensures up == Normalize(g, u) && viewGarbage
    {
      up := Normalize(g, u);
      viewGarbage := true;
    }

    /** Does not recompute the width angle. */
    method SetAspectRatio(a: real)
      modifies this`aspectRatio, this`projGarbage
      ensures aspectRatio == a && projGarbage
    {
      aspectRatio := a;
      projGarbage := true;
    }

    /** The width angle follows from the aspect ratio current at this moment. */
    method SetAngles(h: real)
      modifies this`heightAngle, this`widthAngle, this`projGarbage
      ensures heightAngle == h && widthAngle == WidthAngle(g, aspectRatio, h) && projGarbage
    {
      var width := WidthAngle(g, aspectRatio, h);
      heightAngle := h;
      widthAngle := width;
      projGarbage := true;
    }

    method SetNearPlane(n: real)
      modifies this`nearPlane, this`projGarbage
      ensures nearPlane == n && projGarbage
    {
      nearPlane := n;
      projGarbage := true;
    }

    method SetFarPlane(f: real)
      modifies this`farPlane, this`projGarbage
      ensures farPlane == f && projGarbage
    {
      farPlane := f;
      projGarbage := true;
    }

    method UpdateViewMatrix()
      modifies this`viewMatrix, this`invViewMatrix, this`viewGarbage
      ensures viewMatrix == ViewMatrix(g, position, look, up)
      ensures invViewMatrix == g.inverse(viewMatrix) && !viewGarbage
    {
      var w := Neg3(Normalize(g, look));
      var v := Normalize(g, Sub3(up, Scale3(w, Dot3(up, w))));
      var u := Cross(v, w);
      viewMatrix := Mul(Rotation(u, v, w), Translation(Neg3(position)));
      invViewMatrix := g.inverse(viewMatrix);
      viewGarbage := false;
    }

    method UpdateProjectionMatrix()
      modifies this`projMatrix, this`projGarbage
      ensures projMatrix == ProjectionMatrix(g, widthAngle, heightAngle, nearPlane, farPlane)
      ensures !projGarbage
    {
      projGarbage := false;
      projMatrix := ProjectionMatrix(g, widthAngle, heightAngle, nearPlane, farPlane);
    }

    /** Always recomputes (the dirty check is disabled), so two calls with no
        setter between them return the same matrix. */
    method GetViewMatrix() returns (m: Mat4)
      modifies this`viewMatrix, this`invViewMatrix, this`viewGarbage
      ensures m == viewMatrix == ViewMatrix(g, position, look, up) && !viewGarbage
      ensures invViewMatrix == g.inverse(m)
    {
      UpdateViewMatrix();
      m := viewMatrix;
    }

    method GetInverseViewMatrix() returns (m: Mat4)
      modifies this`viewMatrix, this`invViewMatrix, this`viewGarbage
      ensures m == invViewMatrix == g.inverse(ViewMatrix(g, position, look, up)) && !viewGarbage
    {
      UpdateViewMatrix();
      m := invViewMatrix;
    }

    method GetProjectionMatrix() returns (p: Projection)
      modifies this`projMatrix, this`projGarbage
      ensures p == projMatrix == ProjectionMatrix(g, widthAngle, heightAngle, nearPlane, farPlane)
      ensures !projGarbage
    {
      UpdateProjectionMatrix();
      p := projMatrix;
    }

    method Translate(delta: Vec3)
      modifies this`position, this`viewGarbage
      ensures position == Add3(old(position), delta) && viewGarbage
    {
      position := Add3(position, delta);
      viewGarbage := true;
    }

    /** Implements no rotation: only the view flag is set. */
    method Rotate(deltaX: real, deltaY: real)
      modifies this`viewGarbage
      ensures viewGarbage
    {
      viewGarbage := true;
    }
  }
}
