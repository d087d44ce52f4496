/** Values and small numeric helpers shared by every demo of the repository. */
module Common {

  datatype Option<T> = None | Some(value: T)

  /** A three.js Vector3 or a `[x, y, z]` array. */
  datatype Vec3 = Vec3(x: real, y: real, z: real) {
    function Add(o: Vec3): Vec3 { Vec3(x + o.x, y + o.y, z + o.z) }
    function Sub(o: Vec3): Vec3 { Vec3(x - o.x, y - o.y, z - o.z) }
    function Scale(k: real): Vec3 { Vec3(k * x, k * y, k * z) }
  }

  datatype Axis = X | Y | Z

  /** A pointer or touch position in pixels. */
  datatype Point = Point(x: real, y: real)

  const Origin: Vec3 := Vec3(0.0, 0.0, 0.0)

  /** A quaternion `[x, y, z, w]`; the model never computes with it. */
  datatype Quat = Quat(x: real, y: real, z: real, w: real)

  const Identity: Quat := Quat(0.0, 0.0, 0.0, 1.0)

  /** A PeerJS DataConnection: `handle` is its object identity, `peer` the remote peer id. */
  datatype Connection = Connection(handle: nat, peer: string)

  /** The value if present, otherwise the default: a destructuring default, or an object
      spread in which the field is missing. */
  function OrDefault<T>(v: Option<T>, d: T): (r: T)
    ensures v.Some? ==> r == v.value
    ensures v.None? ==> r == d
  {
    if v.Some? then v.value else d
  }

  /** `Math.PI` (the double nearest to pi, taken as an exact real). */
  const PI: real := 3.141592653589793

  /** `Math.abs` */
  function Abs(v: real): (r: real)
    ensures r >= 0.0
    ensures r == v || r == -v
  {
    if v < 0.0 then -v else v
  }

  /** `Math.max(lo, Math.min(hi, v))`: the clamp every camera handler uses. */
  function Clamp(v: real, lo: real, hi: real): (r: real)
    requires lo <= hi
    ensures lo <= r <= hi
    ensures lo <= v <= hi ==> r == v
    ensures v < lo ==> r == lo
    ensures hi < v ==> r == hi
  {
    if v < lo then lo else if hi < v then hi else v
  }

  /** `n || fallback` on a parsed number, where `None` stands for NaN: NaN and 0 are falsy. */
  function NumberOr(n: Option<real>, fallback: real): (r: real)
    ensures n.Some? && n.value != 0.0 ==> r == n.value
    ensures (n.None? || n.value == 0.0) ==> r == fallback
  {
    if n.Some? && n.value != 0.0 then n.value else fallback
  }

  /** `THREE.MathUtils.degToRad` */
  function DegToRad(degrees: real): real
  {
    degrees * (PI / 180.0)
  }

  /** `a.lerp(b, t)` on one component: `a + (b - a) * t`. */
  function Lerp(a: real, b: real, t: real): real
  {
    a + (b - a) * t
  }

  /** `Vector3.lerp`, component by component. */
  function LerpVec(a: Vec3, b: Vec3, t: real): Vec3
  {
    Vec3(Lerp(a.x, b.x, t), Lerp(a.y, b.y, t), Lerp(a.z, b.z, t))
  }

  /** The interpolated value stays between the two end points exactly when 0 <= t <= 1,
      and its distance to the target is the old distance times (1 - t). */
  lemma LerpBetween(a: real, b: real, t: real)
    requires 0.0 <= t <= 1.0
    ensures a <= b ==> a <= Lerp(a, b, t) <= b
    ensures b <= a ==> b <= Lerp(a, b, t) <= a
    ensures b - Lerp(a, b, t) == (1.0 - t) * (b - a)
  {
    var d := b - a;
    assert Lerp(a, b, t) == a + d * t;
    assert b - Lerp(a, b, t) == d - d * t;
    assert d - d * t == (1.0 - t) * d;
    if d >= 0.0 {
      assert 0.0 <= d * t <= d by { MulBetween(d, t); }
    } else {
      assert (-d) * t == -(d * t);
      assert d <= d * t <= 0.0 by { MulBetween(-d, t); }
    }
  }

  /** Conversely, for distinct end points the result stays between them only if
      0 <= t <= 1: the factor is not clamped, so t > 1 overshoots and t < 0 moves away. */
  lemma LerpBetweenOnlyIf(a: real, b: real, t: real)
    requires a != b
    requires a <= Lerp(a, b, t) <= b || b <= Lerp(a, b, t) <= a
    ensures 0.0 <= t <= 1.0
  {
    var d := b - a;
    assert Lerp(a, b, t) - a == d * t;
    if d > 0.0 {
      MulOutside(d, t);
    } else {
      MulOutside(-d, t);
    }
  }

  lemma MulOutside(d: real, t: real)
    requires d > 0.0
    ensures t < 0.0 ==> d * t < 0.0
    ensures t > 1.0 ==> d * t > d
  {
    if t > 1.0 {
      assert d * t - d == d * (t - 1.0);
    }
  }

  lemma MulBetween(d: real, t: real)
    requires 0.0 <= d && 0.0 <= t <= 1.0
    ensures 0.0 <= d * t <= d
  {
    assert d * t <= d * 1.0;
  }

  /** The same on vectors: every component lands between the old value and the target. */
  predicate Between(a: Vec3, r: Vec3, b: Vec3)
  {
    && (a.x <= r.x <= b.x || b.x <= r.x <= a.x)
    && (a.y <= r.y <= b.y || b.y <= r.y <= a.y)
    && (a.z <= r.z <= b.z || b.z <= r.z <= a.z)
  }

  lemma LerpVecBetween(a: Vec3, b: Vec3, t: real)
    requires 0.0 <= t <= 1.0
    ensures Between(a, LerpVec(a, b, t), b)
    ensures b.Sub(LerpVec(a, b, t)) == b.Sub(a).Scale(1.0 - t)
  {
    LerpBetween(a.x, b.x, t);
    LerpBetween(a.y, b.y, t);
    LerpBetween(a.z, b.z, t);
  }

  /** ASCII `toLowerCase` on one character. */
  function LowerChar(c: char): (r: char)
    ensures 'A' <= c <= 'Z' ==> r as int == c as int + 32
    ensures !('A' <= c <= 'Z') ==> r == c
  {
    if 'A' <= c <= 'Z' then (c as int + 32) as char else c
  }

  /** `String.prototype.toLowerCase`, restricted to ASCII letters. */
  function ToLower(s: string): (r: string)
    ensures |r| == |s|
    ensures forall i :: 0 <= i < |s| ==> r[i] == LowerChar(s[i])
  {
    if s == [] then [] else [LowerChar(s[0])] + ToLower(s[1..])
  }

  /** Lower-casing twice is lower-casing once. */
  lemma {:induction false} ToLowerIdempotent(s: string)
    ensures ToLower(ToLower(s)) == ToLower(s)
  {
    if s != [] {
      ToLowerIdempotent(s[1..]);
      assert ToLower(s)[1..] == ToLower(s[1..]);
    }
  }
}
