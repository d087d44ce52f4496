/** The pure parts of the object-editor forms of project3 and project-old: deciding what an
    "add" does, building the new object, and copying the selected object into the form. */
module EditorForm {
  import opened Common
  import opened EditorObjects

  /** The form's React state. */
  datatype Form = Form(position: Vec3, scale: real, rotation: real, objectType: ObjectType, modelUrl: string)

  /** `{ ...position, [axis]: value }` */
  function WithAxis(p: Vec3, axis: Axis, value: real): (r: Vec3)
    ensures axis == X ==> r == Vec3(value, p.y, p.z)
    ensures axis == Y ==> r == Vec3(p.x, value, p.z)
    ensures axis == Z ==> r == Vec3(p.x, p.y, value)
  {
    match axis
    case X => p.(x := value)
    case Y => p.(y := value)
    case Z => p.(z := value)
  }

  /** Types whose add needs the URL field. */
  predicate NeedsUrl(k: ObjectType)
  {
    k == Glb || k == Fbx || k == Panorama
  }

  /** Types whose created object carries the URL. */
  predicate CarriesUrl(k: ObjectType)
  {
    k == Glb || k == Fbx
  }

  datatype AddOutcome =
    | Rejected               // the "Please enter a URL" alert
    | LoadPanorama(url: string)
    | AddNew(obj: Object3D)

  /** The decision taken by `handleAddObject`; `newId` is the `crypto.randomUUID()` value. */
  function DecideAdd(f: Form, newId: string): (r: AddOutcome)
    ensures r.Rejected? <==> NeedsUrl(f.objectType) && f.modelUrl == ""
    ensures r.LoadPanorama? <==> f.objectType == Panorama && f.modelUrl != ""
    ensures r.LoadPanorama? ==> r.url == f.modelUrl
    ensures r.AddNew? <==> f.objectType != Panorama && (CarriesUrl(f.objectType) ==> f.modelUrl != "")
    ensures r.AddNew? ==>
      && r.obj.id == newId && r.obj.kind == f.objectType
      && r.obj.position == f.position && r.obj.rotation == f.rotation && r.obj.scale == f.scale
      && (CarriesUrl(f.objectType) ==> r.obj.url == Some(f.modelUrl))
      && (!CarriesUrl(f.objectType) ==> r.obj.url == None)
  {
    if NeedsUrl(f.objectType) && f.modelUrl == "" then Rejected
    else if f.objectType == Panorama then LoadPanorama(f.modelUrl)
    else AddNew(Object3D(newId, f.objectType, f.position, f.rotation, f.scale,
                         if CarriesUrl(f.objectType) then Some(f.modelUrl) else None))
  }

  /** Every object a form can add is either a primitive without URL or a model with a
      non-empty one; a panorama is never added as an object. */
  lemma AddedObjectsWellFormed(f: Form, newId: string)
    requires DecideAdd(f, newId).AddNew?
    ensures var o := DecideAdd(f, newId).obj;
      o.kind != Panorama && (o.url.Some? <==> CarriesUrl(o.kind)) && (o.url.Some? ==> o.url.value != "")
  {
  }

  /** The selection-sync effect: when `find` locates the selected object, the form takes its
      position, scale and rotation; nothing else of the form changes. A null selection
      matches no object. */
  function SyncFromSelection(f: Form, objs: seq<Object3D>, selected: Option<string>): (r: Form)
    ensures r.objectType == f.objectType && r.modelUrl == f.modelUrl
    ensures selected.Some? && selected.value in Ids(objs) ==>
      var o := FindById(objs, selected.value).value;
      r.position == o.position && r.scale == o.scale && r.rotation == o.rotation
    ensures (selected.None? || selected.value !in Ids(objs)) ==> r == f
  {
    if selected.None? then f
    else match FindById(objs, selected.value)
      case None => f
      case Some(o) => f.(position := o.position, scale := o.scale, rotation := o.rotation)
  }

  /** Syncing right after an add shows the new object's transform, which is the form's own,
      so the form is unchanged when the new id was fresh. */
  lemma SyncAfterAdd(f: Form, s: EditorState, newId: string)
    requires DecideAdd(f, newId).AddNew? && newId !in Ids(s.objects)
    ensures var r := AddObject(s, DecideAdd(f, newId).obj);
      SyncFromSelection(f, r.objects, r.selectedObjectId) == f
  {
    var o := DecideAdd(f, newId).obj;
    var r := AddObject(s, o);
    forall j | 0 <= j < |s.objects| ensures r.objects[j].id != newId {
      assert Ids(s.objects)[j] == s.objects[j].id;
    }
    FindByIdFirst(r.objects, newId, |s.objects|);
  }
}
