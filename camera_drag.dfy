/** The drag-to-look, wheel and pinch handlers of the React panorama editors: the full set
    in project3/src/components/Scene.tsx and project-vr-panorama/src/components/Scene.tsx,
    and the three mouse handlers alone in project-old/src/components/Scene.tsx. */
module CameraDrag {
  import opened Common

  const DragSpeed: real := 0.005
  const HalfPi: real := PI / 2.0
  const BaseZoom: real := 75.0
  const MinZoom: real := 30.0
  const MaxZoom: real := 90.0
  const ZoomSpeed: real := 1.5

  /** The vertical drag step: pitch is clamped to straight up and straight down. */
  function Pitch(x: real, dy: real): (r: real)
    ensures -HalfPi <= r <= HalfPi
    ensures -HalfPi <= x + dy * DragSpeed <= HalfPi ==> r == x + dy * DragSpeed
  {
    Clamp(x + dy * DragSpeed, -HalfPi, HalfPi)
  }

  /** Pitch never leaves the range, and a drag that would pass a pole stops at it. */
  lemma PitchSaturates(x: real, dy: real)
    ensures x + dy * DragSpeed > HalfPi ==> Pitch(x, dy) == HalfPi
    ensures x + dy * DragSpeed < -HalfPi ==> Pitch(x, dy) == -HalfPi
  {
  }

  /** What an event's target is, as far as the handlers test it. */
  datatype Target =
    | Canvas         // the WebGL canvas
    | UiElement      // inside the VR button, its container or a `.ui-panel`
    | OtherElement   // any other HTML element
    | NotElement     // not an HTMLElement (the window, an SVG node, ...)

  /** project3 ignores events on its UI; the other two start a mouse drag only on the canvas. */
  datatype Guard = UiGuard | CanvasGuard

  predicate StartsMouseDrag(g: Guard, t: Target)
  {
    match g
    case UiGuard => t == Canvas || t == OtherElement
    case CanvasGuard => t == Canvas
  }

  /** Touch and wheel handlers return early for this target. */
  predicate Blocked(g: Guard, t: Target)
  {
    g == UiGuard && t == UiElement
  }

  /** `Math.max(30, Math.min(90, v))` with `None` for NaN, which both pass through. */
  function ClampZoom(v: Option<real>): (r: Option<real>)
    ensures r.Some? <==> v.Some?
    ensures r.Some? ==> MinZoom <= r.value <= MaxZoom
  {
    if v.None? then None else Some(Clamp(v.value, MinZoom, MaxZoom))
  }

  /** The wheel: `zoom + deltaY * 0.01 * 1.5`, clamped. */
  function WheelZoom(zoom: Option<real>, deltaY: real): (r: Option<real>)
    ensures zoom.None? <==> r.None?
    ensures zoom.Some? ==> r == Some(Clamp(zoom.value + deltaY * 0.01 * ZoomSpeed, MinZoom, MaxZoom))
  {
    if zoom.None? then None else ClampZoom(Some(zoom.value + deltaY * 0.01 * ZoomSpeed))
  }

  /** The pinch: `initialZoom / (distance / initialDistance)`, clamped, with IEEE division:
      a zero starting distance makes the scale infinite (zoom 0, clamped to 30), a zero
      current distance makes it 0 (zoom infinite, clamped to 90), and both zero give NaN. */
  function PinchZoom(initialZoom: Option<real>, initialDistance: real, distance: real): (r: Option<real>)
    requires initialDistance >= 0.0 && distance >= 0.0
    ensures initialZoom.Some? && initialZoom.value > 0.0 && initialDistance > 0.0 && distance > 0.0 ==>
      r == Some(Clamp(Scaled(initialZoom.value, initialDistance, distance), MinZoom, MaxZoom))
    ensures initialDistance == 0.0 && distance == 0.0 ==> r.None?
    ensures r.Some? ==> MinZoom <= r.value <= MaxZoom
  {
    if initialZoom.None? then None
    else if initialDistance == 0.0 && distance == 0.0 then None
    else if initialDistance == 0.0 then Some(MinZoom)
    else if distance == 0.0 then
      (if initialZoom.value > 0.0 then Some(MaxZoom) else if initialZoom.value < 0.0 then Some(MinZoom) else None)
    else ClampZoom(Some(Scaled(initialZoom.value, initialDistance, distance)))
  }

  /** `initialZoom / (distance / initialDistance)` for non-zero distances. */
  function Scaled(zoom: real, initialDistance: real, distance: real): real
    requires distance != 0.0
  {
    zoom * initialDistance / distance
  }

  /** Spreading the fingers zooms in (smaller field of view), closing them zooms out. */
  lemma PinchMonotone(z: real, initialDistance: real, d1: real, d2: real)
    requires z > 0.0 && initialDistance > 0.0 && 0.0 < d1 <= d2
    ensures PinchZoom(Some(z), initialDistance, d2).value <= PinchZoom(Some(z), initialDistance, d1).value
  {
    DivAntitone(z * initialDistance, d1, d2);
    ClampMonotone(Scaled(z, initialDistance, d2), Scaled(z, initialDistance, d1), MinZoom, MaxZoom);
  }

  lemma ClampMonotone(a: real, b: real, lo: real, hi: real)
    requires a <= b && lo <= hi
    ensures Clamp(a, lo, hi) <= Clamp(b, lo, hi)
  {
  }

  lemma DivAntitone(k: real, d1: real, d2: real)
    requires k > 0.0 && 0.0 < d1 <= d2
    ensures k / d2 <= k / d1
  {
    var q1 := k / d1;
    var q2 := k / d2;
    assert q1 * d1 == k;
    assert q2 * d2 == k;
    assert q2 * d1 <= q2 * d2 by {
      assert q2 * d2 - q2 * d1 == q2 * (d2 - d1);
    }
    assert (q1 - q2) * d1 >= 0.0;
  }

  class Controls {
    /** `touchSensitivity` (1.2 in project3, 2 in project-vr-panorama). */
    const sensitivity: real
    const guard: Guard
    /** False while presenting in XR, when the effect has detached the handlers. */
    var listening: bool
    var isDragging: bool
    var previous: Point
    /** `cameraRotation`: `x` is pitch, `y` is yaw. */
    var pitch: real
    var yaw: real
    var touchCount: nat
    var initialTouchDistance: real
    var initialZoom: Option<real>
    var zoom: Option<real>

    ghost predicate Valid()
      reads this
    {
      && -HalfPi <= pitch <= HalfPi
      && initialTouchDistance >= 0.0
      && (zoom.Some? ==> MinZoom <= zoom.value <= MaxZoom)
      && (initialZoom.Some? ==> MinZoom <= initialZoom.value <= MaxZoom)
    }

    constructor (touchSensitivity: real, g: Guard)
      ensures Valid()
      ensures sensitivity == touchSensitivity && guard == g && listening && !isDragging
      ensures previous == Point(0.0, 0.0) && pitch == 0.0 && yaw == 0.0
      ensures touchCount == 0 && initialTouchDistance == 0.0
      ensures initialZoom == Some(BaseZoom) && zoom == Some(BaseZoom)
    {
      sensitivity := touchSensitivity;
      guard := g;
      listening := true;
      isDragging := false;
      previous := Point(0.0, 0.0);
      pitch := 0.0;
      yaw := 0.0;
      touchCount := 0;
      initialTouchDistance := 0.0;
      initialZoom := Some(BaseZoom);
      zoom := Some(BaseZoom);
    }

    /** Entering or leaving XR re-runs the effect, which attaches the handlers only when
        not presenting. */
    method SetPresenting(presenting: bool)
      modifies this
      ensures listening == !presenting
      ensures isDragging == old(isDragging) && previous == old(previous) && pitch == old(pitch) && yaw == old(yaw)
      ensures touchCount == old(touchCount) && initialTouchDistance == old(initialTouchDistance)
      ensures initialZoom == old(initialZoom) && zoom == old(zoom)
    {
      listening := !presenting;
    }

    method MouseDown(t: Target, p: Point)
      modifies this
      ensures listening && StartsMouseDrag(guard, t) ==> isDragging && previous == p
      ensures !(listening && StartsMouseDrag(guard, t)) ==> isDragging == old(isDragging) && previous == old(previous)
      ensures listening == old(listening) && pitch == old(pitch) && yaw == old(yaw)
      ensures touchCount == old(touchCount) && initialTouchDistance == old(initialTouchDistance)
      ensures initialZoom == old(initialZoom) && zoom == old(zoom)
    {
      if listening && StartsMouseDrag(guard, t) {
        isDragging := true;
        previous := p;
      }
    }

    /** A drag step by `(dx, dy)` pixels; `p` becomes the new previous position. */
    method Rotate(dx: real, dy: real, p: Point)
      requires Valid()
      modifies this
      ensures Valid()
      ensures yaw == old(yaw) + dx * DragSpeed && pitch == Pitch(old(pitch), dy) && previous == p
      ensures listening == old(listening) && isDragging == old(isDragging)
      ensures touchCount == old(touchCount) && initialTouchDistance == old(initialTouchDistance)
      ensures initialZoom == old(initialZoom) && zoom == old(zoom)
    {
      yaw := yaw + dx * DragSpeed;
      pitch := Clamp(pitch + dy * DragSpeed, -HalfPi, HalfPi);
      previous := p;
    }

    method MouseMove(p: Point)
      requires Valid()
      modifies this
      ensures Valid()
      ensures listening && isDragging ==>
        yaw == old(yaw) + (p.x - old(previous).x) * DragSpeed
        && pitch == Pitch(old(pitch), p.y - old(previous).y) && previous == p
      ensures !(listening && isDragging) ==> yaw == old(yaw) && pitch == old(pitch) && previous == old(previous)
      ensures listening == old(listening) && isDragging == old(isDragging)
      ensures touchCount == old(touchCount) && initialTouchDistance == old(initialTouchDistance)
      ensures initialZoom == old(initialZoom) && zoom == old(zoom)
    {
      if !listening || !isDragging {
        return;
      }
      Rotate(p.x - previous.x, p.y - previous.y, p);
    }

    method MouseUp()
      modifies this
      ensures listening ==> !isDragging
      ensures !listening ==> isDragging == old(isDragging)
      ensures listening == old(listening) && previous == old(previous) && pitch == old(pitch) && yaw == old(yaw)
      ensures touchCount == old(touchCount) && initialTouchDistance == old(initialTouchDistance)
      ensures initialZoom == old(initialZoom) && zoom == old(zoom)
    {
      if listening {
        isDragging := false;
      }
    }

    /** `touchstart`; `distance` is the distance between the first two touches. */
    method TouchStart(t: Target, touches: seq<Point>, distance: real)
      requires Valid() && distance >= 0.0
      modifies this
      ensures Valid()
      ensures !listening || Blocked(guard, t) ==>
        isDragging == old(isDragging) && previous == old(previous) && touchCount == old(touchCount)
        && initialTouchDistance == old(initialTouchDistance) && initialZoom == old(initialZoom)
      ensures listening && !Blocked(guard, t) ==>
        && touchCount == |touches|
        && (|touches| == 1 ==>
              (isDragging && previous == touches[0]
               && initialTouchDistance == old(initialTouchDistance) && initialZoom == old(initialZoom)))
        && (|touches| == 2 ==>
              (initialTouchDistance == distance && initialZoom == zoom
               && isDragging == old(isDragging) && previous == old(previous)))
        && (|touches| != 1 && |touches| != 2 ==>
              (isDragging == old(isDragging) && previous == old(previous)
               && initialTouchDistance == old(initialTouchDistance) && initialZoom == old(initialZoom)))
      ensures listening == old(listening) && pitch == old(pitch) && yaw == old(yaw) && zoom == old(zoom)
    {
      if !listening || Blocked(guard, t) {
        return;
      }
      touchCount := |touches|;
      if |touches| == 1 {
        isDragging := true;
        previous := touches[0];
      } else if |touches| == 2 {
        initialTouchDistance := distance;
        initialZoom := zoom;
      }
    }

    method TouchMove(t: Target, touches: seq<Point>, distance: real)
      requires Valid() && distance >= 0.0
      modifies this
      ensures Valid()
      ensures listening == old(listening) && isDragging == old(isDragging) && touchCount == old(touchCount)
      ensures initialTouchDistance == old(initialTouchDistance) && initialZoom == old(initialZoom)
      ensures listening && !Blocked(guard, t) && |touches| == 1 && isDragging ==>
        && yaw == old(yaw) + (touches[0].x - old(previous).x) * sensitivity * DragSpeed
        && pitch == Pitch(old(pitch), (touches[0].y - old(previous).y) * sensitivity)
        && previous == touches[0] && zoom == old(zoom)
      ensures listening && !Blocked(guard, t) && |touches| == 2 ==>
        zoom == PinchZoom(initialZoom, initialTouchDistance, distance)
        && yaw == old(yaw) && pitch == old(pitch) && previous == old(previous)
      ensures !listening || Blocked(guard, t) || (|touches| != 1 && |touches| != 2) || (|touches| == 1 && !isDragging) ==>
        yaw == old(yaw) && pitch == old(pitch) && previous == old(previous) && zoom == old(zoom)
    {
      if !listening || Blocked(guard, t) {
        return;
      }
      if |touches| == 1 && isDragging {
        Rotate((touches[0].x - previous.x) * sensitivity, (touches[0].y - previous.y) * sensitivity, touches[0]);
      } else if |touches| == 2 {
        zoom := PinchZoom(initialZoom, initialTouchDistance, distance);
      }
    }

    method TouchEnd(t: Target, remaining: nat)
      modifies this
      ensures listening && !Blocked(guard, t) ==>
        (touchCount == remaining && (remaining == 0 ==> !isDragging)
         && (remaining != 0 ==> isDragging == old(isDragging)))
      ensures !(listening && !Blocked(guard, t)) ==> touchCount == old(touchCount) && isDragging == old(isDragging)
      ensures listening == old(listening) && previous == old(previous) && pitch == old(pitch) && yaw == old(yaw)
      ensures initialTouchDistance == old(initialTouchDistance) && initialZoom == old(initialZoom) && zoom == old(zoom)
    {
      if !listening || Blocked(guard, t) {
        return;
      }
      touchCount := remaining;
      if remaining == 0 {
        isDragging := false;
      }
    }

    method Wheel(t: Target, deltaY: real)
      requires Valid()
      modifies this
      ensures Valid()
      ensures listening && !Blocked(guard, t) ==> zoom == WheelZoom(old(zoom), deltaY)
      ensures !(listening && !Blocked(guard, t)) ==> zoom == old(zoom)
      ensures listening == old(listening) && isDragging == old(isDragging) && previous == old(previous)
      ensures pitch == old(pitch) && yaw == old(yaw) && touchCount == old(touchCount)
      ensures initialTouchDistance == old(initialTouchDistance) && initialZoom == old(initialZoom)
    {
      if !listening || Blocked(guard, t) {
        return;
      }
      zoom := WheelZoom(zoom, deltaY);
    }
  }
}
