/** project/src/js/utils/EventHandlers.js: mouse, touch and wheel handlers of the desktop
    panorama viewer, on the longitude/latitude/field-of-view state. Speeds come from
    project/src/js/config.js. */
module EventHandlers {
  import opened Common

  const MouseSpeed: real := 0.1
  const TouchHorizontalSpeed: real := 0.12
  const TouchVerticalSpeed: real := 0.12
  const PinchZoomSpeed: real := 0.1
  const WheelSpeed: real := 0.05
  const MinFov: real := 40.0
  const MaxFov: real := 100.0
  const MaxLat: real := 85.0
  /** A two-finger centre must move more than this (pixels, on some axis) to pan. */
  const PanThreshold: real := 5.0

  /** `(anchor - now) * speed + anchorLon` (longitude runs against the pointer). */
  function DragLon(anchorX: real, x: real, anchorLon: real, speed: real): real
  {
    (anchorX - x) * speed + anchorLon
  }

  /** `(now - anchor) * speed + anchorLat` */
  function DragLat(anchorY: real, y: real, anchorLat: real, speed: real): real
  {
    (y - anchorY) * speed + anchorLat
  }

  /** Drags are anchor-relative: coming back to the anchor restores the anchor's angles,
      and the angle moved is proportional to the distance from the anchor. */
  lemma DragAnchored(anchorX: real, anchorY: real, anchorLon: real, anchorLat: real, x: real, y: real, speed: real)
    ensures DragLon(anchorX, anchorX, anchorLon, speed) == anchorLon
    ensures DragLat(anchorY, anchorY, anchorLat, speed) == anchorLat
    ensures DragLon(anchorX, x, anchorLon, speed) - anchorLon == -speed * (x - anchorX)
    ensures DragLat(anchorY, y, anchorLat, speed) - anchorLat == speed * (y - anchorY)
  {
  }

  /** The pinch: field of view from the starting one, wider as the fingers close. */
  function PinchFov(initialFov: real, initialDistance: real, distance: real): (r: real)
    ensures MinFov <= r <= MaxFov
    ensures MinFov <= initialFov + (initialDistance - distance) * PinchZoomSpeed <= MaxFov ==>
      r == initialFov + (initialDistance - distance) * PinchZoomSpeed
  {
    Clamp(initialFov + (initialDistance - distance) * PinchZoomSpeed, MinFov, MaxFov)
  }

  /** Closing the fingers never narrows the view, and spreading them never widens it. */
  lemma PinchMonotone(initialFov: real, initialDistance: real, d1: real, d2: real)
    requires d1 <= d2
    ensures PinchFov(initialFov, initialDistance, d2) <= PinchFov(initialFov, initialDistance, d1)
  {
  }

  /** The wheel step. */
  function WheelFov(fov: real, deltaY: real): (r: real)
    ensures MinFov <= r <= MaxFov
    ensures MinFov <= fov + deltaY * WheelSpeed <= MaxFov ==> r == fov + deltaY * WheelSpeed
  {
    Clamp(fov + deltaY * WheelSpeed, MinFov, MaxFov)
  }

  /** Scrolling down never narrows the view and scrolling up never widens it. */
  lemma WheelDirection(fov: real, deltaY: real)
    requires MinFov <= fov <= MaxFov
    ensures deltaY >= 0.0 ==> WheelFov(fov, deltaY) >= fov
    ensures deltaY <= 0.0 ==> WheelFov(fov, deltaY) <= fov
  {
  }

  /** The clamp at the top of `updateSphereRotation`. */
  function ClampLat(lat: real): (r: real)
    ensures -MaxLat <= r <= MaxLat
    ensures -MaxLat <= lat <= MaxLat ==> r == lat
  {
    Clamp(lat, -MaxLat, MaxLat)
  }

  function Center(a: Point, b: Point): Point
  {
    Point((a.x + b.x) / 2.0, (a.y + b.y) / 2.0)
  }

  /** Does a two-finger centre at `c` pan away from the anchor? */
  predicate Pans(c: Point, anchorX: real, anchorY: real)
  {
    Abs(c.x - anchorX) > PanThreshold || Abs(c.y - anchorY) > PanThreshold
  }

  class Handlers {
    var isUserInteracting: bool
    var anchorX: real
    var anchorY: real
    var lon: real
    var anchorLon: real
    var lat: real
    var anchorLat: real
    var initialPinchDistance: real
    var initialFov: real
    /** `camera.fov` */
    var fov: real

    constructor (cameraFov: real)
      ensures !isUserInteracting && anchorX == 0.0 && anchorY == 0.0
      ensures lon == 0.0 && anchorLon == 0.0 && lat == 0.0 && anchorLat == 0.0
      ensures initialPinchDistance == 0.0 && initialFov == cameraFov && fov == cameraFov
    {
      isUserInteracting := false;
      anchorX := 0.0;
      anchorY := 0.0;
      lon := 0.0;
      anchorLon := 0.0;
      lat := 0.0;
      anchorLat := 0.0;
      initialPinchDistance := 0.0;
      initialFov := cameraFov;
      fov := cameraFov;
    }

    method MouseDown(x: real, y: real)
      modifies this
      ensures isUserInteracting && anchorX == x && anchorY == y
      ensures anchorLon == lon && anchorLat == lat
      ensures lon == old(lon) && lat == old(lat) && fov == old(fov)
      ensures initialFov == old(initialFov) && initialPinchDistance == old(initialPinchDistance)
    {
      isUserInteracting := true;
      anchorX := x;
      anchorY := y;
      anchorLon := lon;
      anchorLat := lat;
    }

    method MouseMove(x: real, y: real)
      modifies this
      ensures isUserInteracting == old(isUserInteracting)
      ensures isUserInteracting ==>
        lon == DragLon(anchorX, x, anchorLon, MouseSpeed) && lat == DragLat(anchorY, y, anchorLat, MouseSpeed)
      ensures !isUserInteracting ==> lon == old(lon) && lat == old(lat)
      ensures anchorX == old(anchorX) && anchorY == old(anchorY) && anchorLon == old(anchorLon) && anchorLat == old(anchorLat)
      ensures fov == old(fov) && initialFov == old(initialFov) && initialPinchDistance == old(initialPinchDistance)
    {
      if isUserInteracting {
        lon := (anchorX - x) * MouseSpeed + anchorLon;
        lat := (y - anchorY) * MouseSpeed + anchorLat;
      }
    }

    method MouseUp()
      modifies this
      ensures !isUserInteracting
      ensures lon == old(lon) && lat == old(lat) && fov == old(fov)
      ensures anchorX == old(anchorX) && anchorY == old(anchorY) && anchorLon == old(anchorLon) && anchorLat == old(anchorLat)
      ensures initialFov == old(initialFov) && initialPinchDistance == old(initialPinchDistance)
    {
      isUserInteracting := false;
    }

    /** `touchstart`; `distance` is `Math.hypot` of the two touches' offset. */
    method TouchStart(touches: seq<Point>, distance: real)
      modifies this
      ensures lon == old(lon) && lat == old(lat) && fov == old(fov)
      ensures |touches| == 1 ==>
        isUserInteracting && anchorX == touches[0].x && anchorY == touches[0].y
        && anchorLon == lon && anchorLat == lat
        && initialPinchDistance == old(initialPinchDistance) && initialFov == old(initialFov)
      ensures |touches| == 2 ==>
        var c := Center(touches[0], touches[1]);
        isUserInteracting == old(isUserInteracting)
        && initialPinchDistance == distance && initialFov == fov
        && anchorX == c.x && anchorY == c.y && anchorLon == lon && anchorLat == lat
      ensures |touches| != 1 && |touches| != 2 ==>
        isUserInteracting == old(isUserInteracting) && anchorX == old(anchorX) && anchorY == old(anchorY)
        && anchorLon == old(anchorLon) && anchorLat == old(anchorLat)
        && initialPinchDistance == old(initialPinchDistance) && initialFov == old(initialFov)
    {
      if |touches| == 1 {
        isUserInteracting := true;
        anchorX := touches[0].x;
        anchorY := touches[0].y;
        anchorLon := lon;
        anchorLat := lat;
      } else if |touches| == 2 {
        initialPinchDistance := distance;
        initialFov := fov;
        var c := Center(touches[0], touches[1]);
        anchorX := c.x;
        anchorY := c.y;
        anchorLon := lon;
        anchorLat := lat;
      }
    }

    /** `touchmove`; `distance` as for `TouchStart`. */
    method TouchMove(touches: seq<Point>, distance: real)
      modifies this
      ensures isUserInteracting == old(isUserInteracting)
      ensures anchorX == old(anchorX) && anchorY == old(anchorY) && anchorLon == old(anchorLon) && anchorLat == old(anchorLat)
      ensures initialFov == old(initialFov) && initialPinchDistance == old(initialPinchDistance)
      ensures |touches| == 1 && isUserInteracting ==>
        && lon == DragLon(anchorX, touches[0].x, anchorLon, TouchHorizontalSpeed)
        && lat == DragLat(anchorY, touches[0].y, anchorLat, TouchVerticalSpeed)
        && fov == old(fov)
      ensures |touches| == 2 ==>
        var c := Center(touches[0], touches[1]);
        && fov == PinchFov(initialFov, initialPinchDistance, distance)
        && (Pans(c, anchorX, anchorY) ==>
              lon == DragLon(anchorX, c.x, anchorLon, TouchHorizontalSpeed)
              && lat == DragLat(anchorY, c.y, anchorLat, TouchVerticalSpeed))
        && (!Pans(c, anchorX, anchorY) ==> lon == old(lon) && lat == old(lat))
      ensures !(|touches| == 1 && isUserInteracting) && |touches| != 2 ==>
        lon == old(lon) && lat == old(lat) && fov == old(fov)
    {
      if |touches| == 1 && isUserInteracting {
        lon := (anchorX - touches[0].x) * TouchHorizontalSpeed + anchorLon;
        lat := (touches[0].y - anchorY) * TouchVerticalSpeed + anchorLat;
      } else if |touches| == 2 {
        var pinchDelta := initialPinchDistance - distance;
        fov := initialFov + pinchDelta * PinchZoomSpeed;
        fov := Clamp(fov, MinFov, MaxFov);
        var c := Center(touches[0], touches[1]);
        if Abs(c.x - anchorX) > PanThreshold || Abs(c.y - anchorY) > PanThreshold {
          lon := (anchorX - c.x) * TouchHorizontalSpeed + anchorLon;
          lat := (c.y - anchorY) * TouchVerticalSpeed + anchorLat;
        }
      }
    }

    /** `touchend` and `touchcancel`; `touches` are the touches still down. */
    method TouchEnd(touches: seq<Point>)
      modifies this
      ensures lon == old(lon) && lat == old(lat) && fov == old(fov) && initialFov == old(initialFov)
      ensures |touches| == 0 ==>
        !isUserInteracting && initialPinchDistance == 0.0 && anchorLon == lon && anchorLat == lat
        && anchorX == old(anchorX) && anchorY == old(anchorY)
      ensures |touches| == 1 ==>
        isUserInteracting && anchorX == touches[0].x && anchorY == touches[0].y
        && anchorLon == lon && anchorLat == lat && initialPinchDistance == old(initialPinchDistance)
      ensures |touches| > 1 ==>
        isUserInteracting == old(isUserInteracting) && anchorX == old(anchorX) && anchorY == old(anchorY)
        && anchorLon == old(anchorLon) && anchorLat == old(anchorLat) && initialPinchDistance == old(initialPinchDistance)
    {
      if |touches| == 0 {
        isUserInteracting := false;
        initialPinchDistance := 0.0;
        anchorLon := lon;
        anchorLat := lat;
      } else if |touches| == 1 {
        isUserInteracting := true;
        anchorX := touches[0].x;
        anchorY := touches[0].y;
        anchorLon := lon;
        anchorLat := lat;
      }
    }

    method MouseWheel(deltaY: real)
      modifies this
      ensures fov == WheelFov(old(fov), deltaY)
      ensures isUserInteracting == old(isUserInteracting) && lon == old(lon) && lat == old(lat)
      ensures anchorX == old(anchorX) && anchorY == old(anchorY) && anchorLon == old(anchorLon) && anchorLat == old(anchorLat)
      ensures initialFov == old(initialFov) && initialPinchDistance == old(initialPinchDistance)
    {
      fov := fov + deltaY * WheelSpeed;
      fov := Clamp(fov, MinFov, MaxFov);
    }

    /** The clamp of `updateSphereRotation`; the camera orientation it computes from
        `lat` and `lon` is not modelled. */
    method UpdateSphereRotation()
      modifies this
      ensures lat == ClampLat(old(lat))
      ensures isUserInteracting == old(isUserInteracting) && lon == old(lon) && fov == old(fov)
      ensures anchorX == old(anchorX) && anchorY == old(anchorY) && anchorLon == old(anchorLon) && anchorLat == old(anchorLat)
      ensures initialFov == old(initialFov) && initialPinchDistance == old(initialPinchDistance)
    {
      lat := Clamp(lat, -MaxLat, MaxLat);
    }
  }
}
