/** Three-dimensional vectors over the reals, standing for Minecraft's `Vec3d`. */
module Geometry {

  datatype Vec3 = Vec3(x: real, y: real, z: real) {

    /** `Vec3d.multiply(k)`: every component scaled by `k`. */
    function Scale(k: real): (r: Vec3)
      ensures r.x == x * k && r.y == y * k && r.z == z * k
    {
      Vec3(x * k, y * k, z * k)
    }
  }

  /** Java's `Math.PI`. */
  const PI: real := 3.141592653589793

  /** `Math.toDegrees`. */
  function Degrees(radians: real): real {
    radians * 180.0 / PI
  }

  /**
   * The host's floating-point library, which the model does not compute:
   * `Math.sin`, `Math.cos` and `Math.atan2(y, x)`.
   */
  datatype Trig = Trig(sin: real -> real, cos: real -> real, atan2: (real, real) -> real)

  /** The identity the source relies on when it builds a heading from one angle. */
  ghost predicate Pythagorean(t: Trig) {
    forall a: real {:trigger t.sin(a)} :: t.sin(a) * t.sin(a) + t.cos(a) * t.cos(a) == 1.0
  }
}
