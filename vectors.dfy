/**
 Three-component vectors over the reals, standing in for three.js's
 `Vector3`, and the one rotation the driving step uses: a vector turned
 about the vertical axis the way `Vector3.applyAxisAngle` does it.

 Sine and cosine are not interpreted: a `Trig` value carries them, and
 every property that depends on their values says so in its requires.
 */
module Vectors {

  datatype Vec3 = Vec3(x: real, y: real, z: real)

  const ORIGIN := Vec3(0.0, 0.0, 0.0)

  function Add(a: Vec3, b: Vec3): Vec3 {
    Vec3(a.x + b.x, a.y + b.y, a.z + b.z)
  }

  function Sub(a: Vec3, b: Vec3): Vec3 {
    Vec3(a.x - b.x, a.y - b.y, a.z - b.z)
  }

  /** `Vector3.multiplyScalar` */
  function Scale(v: Vec3, k: real): Vec3 {
    Vec3(v.x * k, v.y * k, v.z * k)
  }

  function Abs(a: real): real {
    if a < 0.0 then -a else a
  }

  /** Scaling by a factor in [0, 1) keeps zero at zero and moves a nonzero coordinate strictly toward zero. */
  lemma AbsShrinks(a: real, k: real)
    requires 0.0 <= k < 1.0
    ensures a == 0.0 ==> a * k == 0.0
    ensures a != 0.0 ==> Abs(a * k) < Abs(a)
  {
    if a < 0.0 {
      var b := -a;
      assert 0.0 <= b * k < b;
      assert a * k == -(b * k);
    } else if a > 0.0 {
      assert 0.0 <= a * k < a;
    }
  }

  /** Scaling by a factor below -1 flips the sign of a nonzero coordinate and makes it larger. */
  lemma AbsGrows(a: real, k: real)
    requires k < -1.0
    ensures a != 0.0 ==> Abs(a * k) > Abs(a) && (a * k < 0.0 <==> a > 0.0)
  {
    var excess := -1.0 - k;
    assert a * k == -a - a * excess;
    if a > 0.0 {
      assert a * excess > 0.0;
    } else if a < 0.0 {
      assert a * excess < 0.0;
    }
  }

  /** The two trigonometric functions, left uninterpreted. */
  datatype Trig = Trig(sin: real -> real, cos: real -> real)

  /** A rotation quaternion as three.js stores it: vector part, then w. */
  datatype Quaternion = Quaternion(x: real, y: real, z: real, w: real)

  /** `Quaternion.setFromAxisAngle`: half-angle sine on the axis, half-angle cosine as w. */
  function AxisAngle(axis: Vec3, angle: real, trig: Trig): Quaternion {
    var half := angle / 2.0;
    var s := trig.sin(half);
    Quaternion(axis.x * s, axis.y * s, axis.z * s, trig.cos(half))
  }

  /** `Vector3.applyQuaternion`: v + w t + q × t, where t = 2 (q × v). */
  function ApplyQuaternion(v: Vec3, q: Quaternion): Vec3 {
    var tx := 2.0 * (q.y * v.z - q.z * v.y);
    var ty := 2.0 * (q.z * v.x - q.x * v.z);
    var tz := 2.0 * (q.x * v.y - q.y * v.x);
    Vec3(v.x + q.w * tx + q.y * tz - q.z * ty,
         v.y + q.w * ty + q.z * tx - q.x * tz,
         v.z + q.w * tz + q.x * ty - q.y * tx)
  }

  const Y_AXIS := Vec3(0.0, 1.0, 0.0)

  /** `v.applyAxisAngle(new Vector3(0, 1, 0), angle)` */
  function RotateAboutY(v: Vec3, angle: real, trig: Trig): (r: Vec3)
    ensures r.y == v.y
    ensures
      var s := trig.sin(angle / 2.0);
      var c := trig.cos(angle / 2.0);
      r.x == (1.0 - 2.0 * s * s) * v.x + 2.0 * c * s * v.z &&
      r.z == (1.0 - 2.0 * s * s) * v.z - 2.0 * c * s * v.x
  {
    ApplyQuaternion(v, AxisAngle(Y_AXIS, angle, trig))
  }

  /** Given sin 0 = 0 and cos 0 = 1, turning by (minus) zero leaves a vector as it is. */
  lemma TurnByZero(v: Vec3, trig: Trig)
    requires trig.sin(0.0) == 0.0 && trig.cos(0.0) == 1.0
    ensures RotateAboutY(v, -0.0, trig) == v
  {
    assert -0.0 / 2.0 == 0.0;
  }
}
