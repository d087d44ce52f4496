/** project3's scene: how a placed object is drawn and which camera handlers it installs. */
module Project3Scene {
  import opened Common
  import opened EditorObjects
  import opened SceneShapes
  import CameraDrag

  const ScaleFactor: real := 0.5
  const TouchSensitivity: real := 1.2

  /** `(rotation * Math.PI) / 180` and `scale * 0.5`. */
  function Placement(o: Object3D): Transform
  {
    Transform(o.position, o.rotation * PI / 180.0, o.scale * ScaleFactor)
  }

  function Draw(o: Object3D): (r: Option<Drawn>)
    ensures r.Some? <==> (o.kind == Cube || o.kind == Sphere || ((o.kind == Glb || o.kind == Fbx) && Truthy(o.url)))
    ensures r.Some? ==> r.value.transform == Transform(o.position, DegToRad(o.rotation), o.scale / 2.0)
    ensures r.Some? ==> Dispatch(o, r.value.transform) == r
  {
    Dispatch(o, Placement(o))
  }

  /** The drawn node shows the stored angle in degrees at half the stored size: the stored
      values are recovered from the transform. */
  lemma PlacementInverts(o: Object3D)
    ensures Placement(o).rotationY * 180.0 / PI == o.rotation
    ensures Placement(o).rotationY == DegToRad(o.rotation)
    ensures 2.0 * Placement(o).scale == o.scale
  {
  }

  /** The camera controls: UI-gated handlers with touch sensitivity 1.2. */
  method NewControls() returns (c: CameraDrag.Controls)
    ensures fresh(c) && c.Valid()
    ensures c.sensitivity == TouchSensitivity && c.guard == CameraDrag.UiGuard
    ensures c.zoom == Some(CameraDrag.BaseZoom) && c.listening && !c.isDragging
  {
    c := new CameraDrag.Controls(TouchSensitivity, CameraDrag.UiGuard);
  }
}
