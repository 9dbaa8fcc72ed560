/**
 * Three-component vectors with the operations the renderer uses.
 * Components are exact reals standing in for `f32`; the square root is an
 * abstract function supplied by the caller, so nothing here depends on how
 * floating point rounds.
 */
module Vectors {
  datatype Vector3 = Vector3(x: real, y: real, z: real)

  const Zero: Vector3 := Vector3(0.0, 0.0, 0.0)

  /** Absolute value of a real. */
  function Abs(x: real): real { if x < 0.0 then -x else x }

  function Add(u: Vector3, v: Vector3): Vector3 {
    Vector3(u.x + v.x, u.y + v.y, u.z + v.z)
  }

  function Sub(u: Vector3, v: Vector3): Vector3 {
    Vector3(u.x - v.x, u.y - v.y, u.z - v.z)
  }

  function Neg(v: Vector3): Vector3 {
    Vector3(-v.x, -v.y, -v.z)
  }

  function Scale(v: Vector3, k: real): Vector3 {
    Vector3(v.x * k, v.y * k, v.z * k)
  }

  function Div(v: Vector3, k: real): Vector3
    requires k != 0.0
  {
    Vector3(v.x / k, v.y / k, v.z / k)
  }

  function Dot(u: Vector3, v: Vector3): real {
    u.x * v.x + u.y * v.y + u.z * v.z
  }

  /** Euclidean length, through the abstract square root. */
  function Length(v: Vector3, sqrt: real -> real): real {
    sqrt(Dot(v, v))
  }

  /**
   * Normalisation. A vector of length zero is returned unchanged rather than
   * divided by zero; any other vector is divided by its length, so scaling the
   * result back by that length gives the vector again.
   */
  function Normalize(v: Vector3, sqrt: real -> real): (r: Vector3)
    ensures Length(v, sqrt) == 0.0 ==> r == v
    ensures Length(v, sqrt) != 0.0 ==> Scale(r, Length(v, sqrt)) == v
  {
    var len := Length(v, sqrt);
    if len == 0.0 then v else Div(v, len)
  }

  lemma DotZeroLeft(v: Vector3)
    ensures Dot(Zero, v) == 0.0
  {
  }
}
