/** The small part of Unity's maths library that the movement state machine
    uses, written over exact reals: three-component vectors used by addition,
    scaling and projection, and the scalar helpers of `Mathf`. */
module UnityMath {

  /** A `Vector3`. */
  datatype Vec3 = Vec3(x: real, y: real, z: real)

  /** `Vector3.zero` */
  const Zero: Vec3 := Vec3(0.0, 0.0, 0.0)

  /** `Vector3.up`, the world up axis */
  const WorldUp: Vec3 := Vec3(0.0, 1.0, 0.0)

  /** The smallest positive single-precision value (`Mathf.Epsilon`). */
  const FloatEpsilon: real := 0.000000000000000000000000000000000000000000001401298

  function Add(a: Vec3, b: Vec3): Vec3 {
    Vec3(a.x + b.x, a.y + b.y, a.z + b.z)
  }

  function Sub(a: Vec3, b: Vec3): Vec3 {
    Vec3(a.x - b.x, a.y - b.y, a.z - b.z)
  }

  function Scale(a: Vec3, k: real): Vec3 {
    Vec3(a.x * k, a.y * k, a.z * k)
  }

  function Dot(a: Vec3, b: Vec3): real {
    a.x * b.x + a.y * b.y + a.z * b.z
  }

  lemma MulNonNegative(a: real, b: real)
    requires a >= 0.0 && b >= 0.0
    ensures a * b >= 0.0
  {}

  /** `Vector3.sqrMagnitude` */
  function SqrMagnitude(a: Vec3): real {
    Dot(a, a)
  }

  /** `v.sqrMagnitude > 0f`. Over exact reals a sum of three squares is
      positive exactly when some component is non-zero, so the model tests
      the vector against zero directly. */
  predicate HasMagnitude(v: Vec3) {
    v != Zero
  }

  /** `Vector3.Project(v, onNormal)`: the zero vector when the normal is
      (nearly) zero, otherwise the component of `v` along `onNormal`. */
  function Project(v: Vec3, onNormal: Vec3): (r: Vec3)
    ensures SqrMagnitude(onNormal) < FloatEpsilon ==> r == Zero
    ensures onNormal == Zero ==> r == Zero
  {
    var sqrMag := SqrMagnitude(onNormal);
    if sqrMag < FloatEpsilon then Zero
    else Scale(onNormal, Dot(v, onNormal) / sqrMag)
  }

  lemma DotAdd(a: Vec3, b: Vec3, c: Vec3)
    ensures Dot(Add(a, b), c) == Dot(a, c) + Dot(b, c)
  {}

  lemma DotSub(a: Vec3, b: Vec3, c: Vec3)
    ensures Dot(Sub(a, b), c) == Dot(a, c) - Dot(b, c)
  {}

  lemma DotScale(a: Vec3, k: real, c: Vec3)
    ensures Dot(Scale(a, k), c) == k * Dot(a, c)
  {}

  /** For a non-degenerate normal, `Project` is the component along the
      normal: what it leaves of `v` is orthogonal to the normal, and along
      a unit normal it is the normal scaled by `v`'s speed along it. */
  lemma ProjectResidualOrthogonal(v: Vec3, onNormal: Vec3)
    requires SqrMagnitude(onNormal) >= FloatEpsilon
    ensures Dot(Sub(v, Project(v, onNormal)), onNormal) == 0.0
    ensures SqrMagnitude(onNormal) == 1.0 ==> Project(v, onNormal) == Scale(onNormal, Dot(v, onNormal))
  {
    var k := Dot(v, onNormal) / SqrMagnitude(onNormal);
    DotSub(v, Scale(onNormal, k), onNormal);
    DotScale(onNormal, k, onNormal);
  }

  lemma AddZero(v: Vec3)
    ensures Add(v, Zero) == v
  {}

  // ---------------------------------------------------------------------
  // Mathf

  /** `Mathf.Clamp01` */
  function Clamp01(t: real): (r: real)
    ensures 0.0 <= r <= 1.0
    ensures 0.0 <= t <= 1.0 ==> r == t
    ensures t < 0.0 ==> r == 0.0
    ensures t > 1.0 ==> r == 1.0
  {
    if t < 0.0 then 0.0 else if t > 1.0 then 1.0 else t
  }

  /** `Mathf.Clamp(value, min, max)`: the first test is against `min`, so an
      inverted interval (`min > max`) yields `min` or `max`, never `value`. */
  function Clamp(value: real, min: real, max: real): (r: real)
    ensures min <= max ==> min <= r <= max
    ensures min <= value <= max ==> r == value
    ensures value < min ==> r == min
    ensures min <= max && max < value ==> r == max
  {
    if value < min then min else if value > max then max else value
  }

  function Min(a: real, b: real): real { if a <= b then a else b }

  function Max(a: real, b: real): real { if a <= b then b else a }

  function Abs(a: real): real { if a < 0.0 then -a else a }

  lemma ScaledFractionBounds(d: real, t: real)
    requires 0.0 <= t <= 1.0
    ensures Min(0.0, d) <= d * t <= Max(0.0, d)
  {
    if d >= 0.0 {
      assert d * t <= d * 1.0;
    } else {
      assert (-d) * t <= (-d) * 1.0;
    }
  }

  /** `Mathf.Lerp(a, b, t)` with Unity's clamped parameter: the result lies
      between `a` and `b`, is `a` for `t <= 0` and `b` for `t >= 1`. */
  function Lerp(a: real, b: real, t: real): (r: real)
    ensures Min(a, b) <= r <= Max(a, b)
    ensures t <= 0.0 ==> r == a
    ensures t >= 1.0 ==> r == b
  {
    ScaledFractionBounds(b - a, Clamp01(t));
    a + (b - a) * Clamp01(t)
  }

  /** `Mathf.InverseLerp(a, b, value)`: where `value` sits between `a` and
      `b` as a fraction in [0, 1]; zero for a degenerate interval. */
  function InverseLerp(a: real, b: real, value: real): (r: real)
    ensures 0.0 <= r <= 1.0
    ensures a == b ==> r == 0.0
    ensures a != b && value == a ==> r == 0.0
    ensures a != b && value == b ==> r == 1.0
  {
    if a != b then
      assert value == b ==> (value - a) / (b - a) == 1.0 by {
        if value == b {
          DivideBySelf(b - a);
        }
      }
      Clamp01((value - a) / (b - a))
    else 0.0
  }

  lemma DivideBySelf(d: real)
    requires d != 0.0
    ensures d / d == 1.0
  {}

  /** `Mathf.Approximately`: equality up to a relative tolerance of 1e-6,
      with an absolute floor of eight times the float epsilon. */
  predicate Approximately(a: real, b: real)
  {
    Abs(b - a) < Max(0.000001 * Max(Abs(a), Abs(b)), FloatEpsilon * 8.0)
  }

  lemma ApproximatelyReflexive(a: real)
    ensures Approximately(a, a)
  {}

  lemma Clamp01Monotone(s: real, t: real)
    requires s <= t
    ensures Clamp01(s) <= Clamp01(t)
  {}

  /** Lerp towards a smaller `b` decreases as `t` grows. */
  lemma LerpAntitone(a: real, b: real, s: real, t: real)
    requires b <= a
    requires s <= t
    ensures Lerp(a, b, t) <= Lerp(a, b, s)
  {
    Clamp01Monotone(s, t);
    var cs, ct := Clamp01(s), Clamp01(t);
    assert (b - a) * ct <= (b - a) * cs by {
      MulNonNegative(a - b, ct - cs);
      assert (b - a) * cs - (b - a) * ct == (a - b) * (ct - cs);
    }
  }

  /** InverseLerp over an increasing interval is monotone in its value. */
  lemma InverseLerpMonotone(a: real, b: real, v: real, w: real)
    requires a < b
    requires v <= w
    ensures InverseLerp(a, b, v) <= InverseLerp(a, b, w)
  {
    var d := b - a;
    DivideMonotone(v - a, w - a, d);
    Clamp01Monotone((v - a) / d, (w - a) / d);
  }

  /** Dividing by a positive number keeps the order. */
  lemma DivideMonotone(x: real, y: real, d: real)
    requires 0.0 < d && x <= y
    ensures x / d <= y / d
  {
    var inv := 1.0 / d;
    assert inv > 0.0;
    MulNonNegative(y - x, inv);
    assert (y - x) * inv == y / d - x / d;
  }
}
