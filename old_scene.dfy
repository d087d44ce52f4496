/** project-old's scene: selectable objects drawn by kind, models loaded by file extension,
    and a mouse drag-to-look camera with a fixed field of view. */
module OldScene {
  import opened Common
  import opened EditorObjects
  import opened SceneShapes
  import CameraDrag

  const FieldOfView: real := 75.0
  const SelectedColor: int := 0x00ff00
  const IdleColor: int := 0x666666
  const SelectedEmissive: int := 0x002200
  const IdleEmissive: int := 0x000000

  /** `url.split('.').pop()`: the text after the last dot, or all of it when there is none. */
  function LastSegment(s: string): (r: string)
    ensures '.' !in r
    ensures |r| <= |s| && r == s[|s| - |r|..]
    ensures |r| < |s| ==> s[|s| - |r| - 1] == '.'
  {
    if s == [] then []
    else if s[|s| - 1] == '.' then []
    else LastSegment(s[..|s| - 1]) + [s[|s| - 1]]
  }

  /** Whatever comes before the last dot, the segment after it is the extension. */
  lemma {:induction false} LastSegmentAfterDot(p: string, e: string)
    requires '.' !in e
    ensures LastSegment(p + "." + e) == e
    decreases |e|
  {
    var s := p + "." + e;
    if e == [] {
      assert s[|s| - 1] == '.';
    } else {
      var e' := e[..|e| - 1];
      assert s[..|s| - 1] == p + "." + e';
      assert s[|s| - 1] == e[|e| - 1];
      LastSegmentAfterDot(p, e');
      assert e' + [e[|e| - 1]] == e;
    }
  }

  /** `LoadedModel`: glb and gltf go to the GLTF loader, fbx to the FBX loader, compared
      after lower-casing; anything else renders nothing. */
  function ModelLoader(url: string): Option<Loader>
  {
    LoaderOf(ToLower(LastSegment(url)))
  }

  function LoaderOf(ext: string): Option<Loader>
  {
    if ext == "glb" || ext == "gltf" then Some(GltfLoader)
    else if ext == "fbx" then Some(FbxLoader)
    else None
  }

  /** Only the last segment decides, whatever its case and whatever comes before it. */
  lemma ExtensionDecides(p: string, e: string)
    requires '.' !in e
    ensures ModelLoader(p + "." + e) == LoaderOf(ToLower(e))
    ensures ModelLoader(e) == LoaderOf(ToLower(e))
  {
    LastSegmentAfterDot(p, e);
    NoDotSegment(e);
  }

  /** Upper-case extensions load too. */
  lemma UpperCaseLoads(p: string)
    ensures ModelLoader(p + ".GLB") == Some(GltfLoader)
  {
    assert p + ".GLB" == p + "." + "GLB";
    ExtensionDecides(p, "GLB");
    Lowered("GLB", "glb");
  }

  /** A name whose last part is not a model extension loads nothing, even when an earlier
      part is one. */
  lemma LastPartDecides(p: string)
    ensures ModelLoader(p + ".glb.zip") == None
  {
    assert p + ".glb.zip" == (p + ".glb") + "." + "zip";
    ExtensionDecides(p + ".glb", "zip");
    Lowered("zip", "zip");
  }

  lemma Lowered(e: string, lower: string)
    requires (e == "GLB" && lower == "glb") || (e == "zip" && lower == "zip")
    ensures ToLower(e) == lower
  {
  }

  /** A file name without any dot is its own extension: a url that is just `glb` loads. */
  lemma BareNameLoads()
    ensures ModelLoader("glb") == Some(GltfLoader)
  {
    NoDotSegment("glb");
    assert ToLower("glb") == "glb";
  }

  lemma NoDotSegment(url: string)
    requires '.' !in url
    ensures LastSegment(url) == url
  {
  }

  datatype Geometry = UnitBox | HalfSphere  // `BoxGeometry(1, 1, 1)`, `SphereGeometry(0.5, 32, 32)`

  datatype OldDrawn =
    /** A glb or fbx object: a group holding the loaded model (if any) and, when selected,
        a green wire box. */
    | ModelGroup(model: Option<(Loader, string)>, selectionBox: bool, transform: Transform)
    /** Any other kind: a standard-material mesh coloured by selection. */
    | Mesh(geometry: Geometry, color: int, emissive: int, transform: Transform)

  function Placement(o: Object3D): Transform
  {
    Transform(o.position, DegToRad(o.rotation), o.scale)
  }

  /** `Object3DComponent` with the store's current selection. */
  function Draw(o: Object3D, selected: Option<string>): (r: OldDrawn)
    ensures r.transform == Transform(o.position, DegToRad(o.rotation), o.scale)
    ensures r.ModelGroup? <==> (o.kind == Glb || o.kind == Fbx)
    ensures r.ModelGroup? ==> (r.selectionBox <==> selected == Some(o.id))
    ensures r.ModelGroup? ==> (r.model.Some? <==> Truthy(o.url) && ModelLoader(o.url.value).Some?)
    ensures r.ModelGroup? && r.model.Some? ==> r.model.value == (ModelLoader(o.url.value).value, o.url.value)
    ensures r.Mesh? ==> (r.geometry == UnitBox <==> o.kind == Cube)
    ensures r.Mesh? ==> (r.color == SelectedColor <==> selected == Some(o.id))
    ensures r.Mesh? ==> (r.emissive == SelectedEmissive <==> selected == Some(o.id))
  {
    var isSelected := selected == Some(o.id);
    if o.kind == Glb || o.kind == Fbx then
      var model := if Truthy(o.url) && ModelLoader(o.url.value).Some?
        then Some((ModelLoader(o.url.value).value, o.url.value)) else None;
      ModelGroup(model, isSelected, Placement(o))
    else
      Mesh(if o.kind == Cube then UnitBox else HalfSphere,
           if isSelected then SelectedColor else IdleColor,
           if isSelected then SelectedEmissive else IdleEmissive,
           Placement(o))
  }

  predicate Highlighted(d: OldDrawn)
  {
    if d.ModelGroup? then d.selectionBox else d.color == SelectedColor
  }

  /** With distinct ids at most one drawn object is highlighted, and it is the selected one. */
  lemma OneHighlighted(objs: seq<Object3D>, selected: Option<string>, i: nat, j: nat)
    requires forall a, b :: 0 <= a < b < |objs| ==> objs[a].id != objs[b].id
    requires i < |objs| && j < |objs|
    requires Highlighted(Draw(objs[i], selected)) && Highlighted(Draw(objs[j], selected))
    ensures i == j
    ensures selected == Some(objs[i].id)
  {
  }

  /** A `panorama` object falls through to the mesh branch and is drawn as a grey sphere. */
  lemma PanoramaDrawsSphere(o: Object3D)
    requires o.kind == Panorama
    ensures Draw(o, None) == Mesh(HalfSphere, IdleColor, IdleEmissive, Placement(o))
  {
  }

  /** `onPointerMissed` of each of the `missed` objects the click did not hit:
      `selectObject(null)`. */
  function Missed(s: EditorState, missed: nat): (r: EditorState)
    ensures r.objects == s.objects && r.panoramaUrl == s.panoramaUrl
    ensures missed > 0 ==> r.selectedObjectId == None
    ensures missed == 0 ==> r == s
    decreases missed
  {
    if missed == 0 then s else Missed(SelectObject(s, None), missed - 1)
  }

  /** A click on `o`: react-three-fiber fires the missed handlers of the other objects
      before the hit object's `onClick`, which selects it. */
  function Click(s: EditorState, missed: nat, o: Object3D): (r: EditorState)
  {
    SelectObject(Missed(s, missed), Some(o.id))
  }

  /** After a click the clicked object is drawn highlighted, whatever was selected before. */
  lemma ClickHighlights(s: EditorState, missed: nat, o: Object3D)
    ensures Click(s, missed, o).selectedObjectId == Some(o.id)
    ensures Click(s, missed, o).objects == s.objects
    ensures Highlighted(Draw(o, Click(s, missed, o).selectedObjectId))
  {
  }

  /** A click on empty space runs every object's missed handler: nothing is highlighted. */
  lemma MissClearsHighlight(s: EditorState, missed: nat, o: Object3D)
    requires missed > 0
    ensures !Highlighted(Draw(o, Missed(s, missed).selectedObjectId))
  {
  }

  /** The three mouse handlers, gated on the canvas; no touch or wheel handlers. */
  method NewControls() returns (c: CameraDrag.Controls)
    ensures fresh(c) && c.Valid()
    ensures c.guard == CameraDrag.CanvasGuard && c.listening && !c.isDragging
    ensures c.pitch == 0.0 && c.yaw == 0.0
  {
    c := new CameraDrag.Controls(1.0, CameraDrag.CanvasGuard);
  }
}
