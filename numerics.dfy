/** The floating-point library functions the renderer calls but whose values
    are not modelled: trigonometry, square roots, matrix inversion and
    glm::rotate. They are passed around as one record of uninterpreted
    functions, so every property proved here holds whatever they compute. */
module Numerics {
  import opened Linear

  datatype Glm = Glm(
    sin: real -> real,
    cos: real -> real,
    tan: real -> real,
    atan: real -> real,
    sqrt: real -> real,
    inverseSqrt: real -> real,
    pi: real,
    inverse: Mat4 -> Mat4,
    rotate: (real, Vec3) -> Mat4)

  /** glm::normalize(v) is v * inversesqrt(dot(v, v)). */
  function Normalize(g: Glm, v: Vec3): Vec3 {
    Scale3(v, g.inverseSqrt(Dot3(v, v)))
  }

  /** glm::length(v) */
  function Length(g: Glm, v: Vec3): real {
    g.sqrt(Dot3(v, v))
  }

  /** glm::radians(degrees) */
  function Radians(g: Glm, degrees: real): real {
    degrees * g.pi / 180.0
  }

  /** sin^2 x + cos^2 x == 1: the one fact about the library's trigonometry
      that the round shapes' geometry rests on. */
  ghost predicate Pythagorean(g: Glm) {
    forall x: real :: g.sin(x) * g.sin(x) + g.cos(x) * g.cos(x) == 1.0
  }

  /** inversesqrt never returns a negative number. */
  ghost predicate NonNegativeRoots(g: Glm) {
    forall x: real :: g.inverseSqrt(x) >= 0.0
  }
}
