/** multi-with-glb/src/components/Target.tsx: a moving target that bounces inside the
    square |x|, |z| <= 10 and, once hit, shrinks away over half a second. */
module Target {
  import opened Common

  const Bounds: real := 10.0
  const ExplosionRate: real := 2.0

  function Get(v: Vec3, a: Axis): real
  {
    match a
    case X => v.x
    case Y => v.y
    case Z => v.z
  }

  function With(v: Vec3, a: Axis, value: real): (r: Vec3)
    ensures Get(r, a) == value
    ensures forall b :: b != a ==> Get(r, b) == Get(v, b)
  {
    match a
    case X => v.(x := value)
    case Y => v.(y := value)
    case Z => v.(z := value)
  }

  /** `Math.sign` on a non-zero value. */
  function Sign(v: real): (r: real)
    ensures v > 0.0 ==> r == 1.0
    ensures v < 0.0 ==> r == -1.0
    ensures v == 0.0 ==> r == 0.0
  {
    if v > 0.0 then 1.0 else if v < 0.0 then -1.0 else 0.0
  }

  /** The bounce for one axis: beyond the bound the coordinate is put on the bound, on its
      own side, and that velocity component is reversed. */
  function BounceAxis(p: Vec3, v: Vec3, a: Axis): (r: (Vec3, Vec3))
    ensures Abs(Get(p, a)) <= Bounds ==> r == (p, v)
    ensures Abs(Get(p, a)) > Bounds ==>
      && Get(r.0, a) == (if Get(p, a) > 0.0 then Bounds else -Bounds)
      && Get(r.1, a) == -Get(v, a)
    ensures forall b :: b != a ==> Get(r.0, b) == Get(p, b) && Get(r.1, b) == Get(v, b)
    ensures Abs(Get(r.0, a)) <= Bounds
  {
    if Abs(Get(p, a)) > Bounds then (With(p, a, Sign(Get(p, a)) * Bounds), With(v, a, -Get(v, a)))
    else (p, v)
  }

  /** The axes the bounce loop visits. */
  const BounceAxes: seq<Axis> := [X, Z]

  /** `['x', 'z'].forEach(...)`, once per axis in order. */
  function Bounce(p: Vec3, v: Vec3, axes: seq<Axis>): (Vec3, Vec3)
    decreases |axes|
  {
    if axes == [] then (p, v)
    else
      var r := Bounce(p, v, axes[..|axes| - 1]);
      BounceAxis(r.0, r.1, axes[|axes| - 1])
  }

  /** After the bounce both horizontal coordinates are within the bounds, and the height
      and vertical velocity are untouched. */
  lemma BounceLaws(p: Vec3, v: Vec3)
    ensures var r := Bounce(p, v, BounceAxes);
      && Abs(r.0.x) <= Bounds && Abs(r.0.z) <= Bounds
      && r.0.y == p.y && r.1.y == v.y
      && (Abs(p.x) <= Bounds ==> r.0.x == p.x && r.1.x == v.x)
      && (Abs(p.z) <= Bounds ==> r.0.z == p.z && r.1.z == v.z)
  {
    var rx := BounceAxis(p, v, X);
    assert BounceAxes[..1] == [X] && [X][..0] == [];
    assert Bounce(p, v, [X]) == rx;
    var rz := BounceAxis(rx.0, rx.1, Z);
    assert Bounce(p, v, BounceAxes) == rz;
    assert Get(rz.0, X) == Get(rx.0, X);
  }

  /** One exploding frame: the new progress, the scale it sets, and whether `onHit` runs. */
  function ExplodeStep(progress: real, delta: real): (r: (real, real, bool))
    ensures r.0 == progress + ExplosionRate * delta
    ensures r.1 == 1.0 - r.0
    ensures r.2 <==> r.0 >= 1.0
  {
    var p := progress + delta * ExplosionRate;
    (p, 1.0 - p, p >= 1.0)
  }

  /** Once the progress has reached 1, every further frame (delta >= 0) calls `onHit`
      again, and the scale stays at or below 0. */
  lemma HitRepeats(progress: real, delta: real)
    requires progress >= 1.0 && delta >= 0.0
    ensures ExplodeStep(progress, delta).2 && ExplodeStep(progress, delta).1 <= 0.0
  {
  }

  /** It takes frames adding up to half a second to reach a hit from the start. */
  lemma HitAfterHalfSecond(delta: real)
    ensures ExplodeStep(0.0, delta).2 <==> delta >= 0.5
  {
  }

  class Body {
    var position: Vec3
    var velocity: Vec3
    var exploding: bool
    var progress: real
    var scale: real

    /** The target moves in the horizontal plane only. */
    predicate Valid()
      reads this
    {
      velocity.y == 0.0
    }

    /** `initialPosition` and the two `Math.random()` draws after `normalize` and
        `multiplyScalar(2)`; the vertical velocity is 0. */
    constructor (initialPosition: Vec3, vx: real, vz: real)
      ensures Valid()
      ensures position == initialPosition && velocity == Vec3(vx, 0.0, vz)
      ensures !exploding && progress == 0.0 && scale == 1.0
    {
      position := initialPosition;
      velocity := Vec3(vx, 0.0, vz);
      exploding := false;
      progress := 0.0;
      scale := 1.0;
    }

    /** The frame callback; `hit` says whether `onHit` was called. */
    method Frame(delta: real, meshMounted: bool) returns (hit: bool)
      requires Valid()
      modifies this
      ensures Valid()
      ensures position.y == old(position).y
      ensures meshMounted && !exploding ==> Abs(position.x) <= Bounds && Abs(position.z) <= Bounds
      ensures exploding == old(exploding)
      ensures !meshMounted ==>
        !hit && position == old(position) && velocity == old(velocity) && progress == old(progress) && scale == old(scale)
      ensures meshMounted && exploding ==>
        (progress, scale, hit) == ExplodeStep(old(progress), delta)
        && position == old(position) && velocity == old(velocity)
      ensures meshMounted && !exploding ==>
        (position, velocity) == Bounce(old(position).Add(old(velocity).Scale(delta)), old(velocity), BounceAxes)
        && !hit && progress == old(progress) && scale == old(scale)
    {
      hit := false;
      if !meshMounted {
        return;
      }
      if exploding {
        progress := progress + delta * ExplosionRate;
        scale := 1.0 - progress;
        if progress >= 1.0 {
          hit := true;
        }
        return;
      }
      position := position.Add(velocity.Scale(delta));
      ghost var start := position;
      var i := 0;
      while i < |BounceAxes|
        invariant 0 <= i <= |BounceAxes|
        invariant (position, velocity) == Bounce(start, old(velocity), BounceAxes[..i])
        invariant progress == old(progress) && scale == old(scale) && !hit && exploding == old(exploding)
      {
        assert BounceAxes[..i + 1][..i] == BounceAxes[..i];
        var axis := BounceAxes[i];
        if Abs(Get(position, axis)) > Bounds {
          velocity := With(velocity, axis, -Get(velocity, axis));
          position := With(position, axis, Sign(Get(position, axis)) * Bounds);
        }
        i := i + 1;
      }
      assert BounceAxes[..|BounceAxes|] == BounceAxes;
      BounceLaws(start, old(velocity));
    }

    /** `handleCollision`: only the first call has an effect. */
    method HandleCollision()
      requires Valid()
      modifies this
      ensures Valid()
      ensures exploding
      ensures position == old(position) && velocity == old(velocity)
      ensures progress == old(progress) && scale == old(scale)
    {
      if !exploding {
        exploding := true;
      }
    }
  }
}
