/** Three-component vectors over the reals. The source uses NumPy float
    arrays; the model computes exactly, so sums, differences and divisions by a
    non-zero integer carry no rounding. Square roots (norms) and trigonometry
    are not computed here: where the source needs them they are parameters. */
module Vectors {

  datatype Vec3 = Vec3(x: real, y: real, z: real)

  const Zero: Vec3 := Vec3(0.0, 0.0, 0.0)

  function Add(a: Vec3, b: Vec3): Vec3 {
    Vec3(a.x + b.x, a.y + b.y, a.z + b.z)
  }

  function Sub(a: Vec3, b: Vec3): Vec3 {
    Vec3(a.x - b.x, a.y - b.y, a.z - b.z)
  }

  function Scale(a: Vec3, k: real): Vec3 {
    Vec3(a.x * k, a.y * k, a.z * k)
  }

  /** a / d, componentwise (NumPy's true division). */
  function Div(a: Vec3, d: real): Vec3
    requires d != 0.0
  {
    Vec3(a.x / d, a.y / d, a.z / d)
  }

  /** The i-th component, as position[i] does. */
  function Component(a: Vec3, i: nat): real
    requires i < 3
  {
    if i == 0 then a.x else if i == 1 then a.y else a.z
  }

  function Dot(a: Vec3, b: Vec3): real {
    a.x * b.x + a.y * b.y + a.z * b.z
  }

  const UnitX: Vec3 := Vec3(1.0, 0.0, 0.0)
  const UnitY: Vec3 := Vec3(0.0, 1.0, 0.0)
  const UnitZ: Vec3 := Vec3(0.0, 0.0, 1.0)

  /** The squared Euclidean length. */
  function NormSq(a: Vec3): real {
    a.x * a.x + a.y * a.y + a.z * a.z
  }

  /** n is the Euclidean norm of v (np.linalg.norm): a non-negative number
      whose square is the squared length, zero only for the zero vector. The
      model never evaluates a square root; where the source takes a norm the
      model takes a function and states this of the values it uses. */
  predicate NormOf(n: real, v: Vec3) {
    n >= 0.0 && n * n == NormSq(v) && (n == 0.0 <==> v == Zero)
  }

  lemma ScaleByZero(a: Vec3)
    ensures Scale(a, 0.0) == Zero
  {
  }
}
