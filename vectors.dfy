/**
 * Three-component vectors over the reals, standing for THREE.Vector3 and for the
 * x/y/z triple of a THREE.Euler. The library computes in IEEE doubles; every
 * property proved here holds in exact real arithmetic only.
 */
module Vectors {
  datatype Axis = X | Y | Z

  datatype Vec3 = Vec3(x: real, y: real, z: real)

  /** A freshly constructed `new THREE.Vector3()`. */
  const Origin: Vec3 := Vec3(0.0, 0.0, 0.0)

  /** The coordinate of `v` on axis `a`. */
  function Get(v: Vec3, a: Axis): real
  {
    match a
    case X => v.x
    case Y => v.y
    case Z => v.z
  }

  /** `v` with its coordinate on `a` replaced by `value`; the other two are kept. */
  function With(v: Vec3, a: Axis, value: real): (r: Vec3)
    ensures Get(r, a) == value
    ensures forall b :: b != a ==> Get(r, b) == Get(v, b)
  {
    match a
    case X => v.(x := value)
    case Y => v.(y := value)
    case Z => v.(z := value)
  }

  /** Vector3.sub: the componentwise difference. */
  function Sub(u: Vec3, v: Vec3): (r: Vec3)
    ensures forall a :: Get(r, a) == Get(u, a) - Get(v, a)
  {
    Vec3(u.x - v.x, u.y - v.y, u.z - v.z)
  }

  /** Vector3.addScalar: `s` added to every component. */
  function AddScalar(v: Vec3, s: real): (r: Vec3)
    ensures forall a :: Get(r, a) == Get(v, a) + s
  {
    Vec3(v.x + s, v.y + s, v.z + s)
  }

  /**
   * Where `translateX/Y/Z(d)` leaves a node that starts at the origin with the
   * identity orientation: `d` along `a`, zero elsewhere.
   */
  function OnAxis(a: Axis, d: real): (r: Vec3)
    ensures Get(r, a) == d
    ensures forall b :: b != a ==> Get(r, b) == 0.0
  {
    With(Origin, a, d)
  }

  /** The unit vector along `a`, as in `new THREE.Vector3(1, 0, 0)`. */
  function Unit(a: Axis): (r: Vec3)
    ensures Get(r, a) == 1.0
    ensures forall b :: b != a ==> Get(r, b) == 0.0
  {
    OnAxis(a, 1.0)
  }
}
