/** project-vr-panorama's scene: the same branches as project3 with its own placement and
    canvas-gated mouse drag. */
module PanoramaScene {
  import opened Common
  import opened EditorObjects
  import opened SceneShapes
  import CameraDrag

  const TouchSensitivity: real := 2.0

  /** `(rotation * Math.PI) / 720`; the scale is used as stored. */
  function Placement(o: Object3D): Transform
  {
    Transform(o.position, o.rotation * PI / 720.0, o.scale)
  }

  function Draw(o: Object3D): (r: Option<Drawn>)
    ensures r.Some? <==> (o.kind == Cube || o.kind == Sphere || ((o.kind == Glb || o.kind == Fbx) && Truthy(o.url)))
    ensures r.Some? ==> r.value.transform == Transform(o.position, DegToRad(o.rotation) / 4.0, o.scale)
    ensures r.Some? ==> Dispatch(o, r.value.transform) == r
  {
    Dispatch(o, Placement(o))
  }

  /** The angle turns a quarter as far as the degrees-to-radians conversion of the other
      editors: a stored 360 is drawn as a quarter turn. */
  lemma PlacementQuarter(o: Object3D)
    ensures Placement(o).rotationY == DegToRad(o.rotation) / 4.0
    ensures Placement(o).rotationY * 720.0 / PI == o.rotation
    ensures Placement(o).scale == o.scale
    ensures o.rotation == 360.0 ==> Placement(o).rotationY == PI / 2.0
  {
  }

  /** Compared with project3, the same object is drawn at twice the size and a quarter of
      the angle. */
  lemma AgainstProject3(o: Object3D, p3: Transform)
    requires p3 == Transform(o.position, o.rotation * PI / 180.0, o.scale * 0.5)
    ensures Placement(o).scale == 2.0 * p3.scale
    ensures 4.0 * Placement(o).rotationY == p3.rotationY
  {
  }

  /** The camera controls: mouse drag only from the canvas, touch sensitivity 2. */
  method NewControls() returns (c: CameraDrag.Controls)
    ensures fresh(c) && c.Valid()
    ensures c.sensitivity == TouchSensitivity && c.guard == CameraDrag.CanvasGuard
    ensures c.zoom == Some(CameraDrag.BaseZoom) && c.listening && !c.isDragging
  {
    c := new CameraDrag.Controls(TouchSensitivity, CameraDrag.CanvasGuard);
  }
}
