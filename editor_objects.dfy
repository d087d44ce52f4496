/** The placed-object list of the panorama editors and the store actions that the
    project-old, project-vr-panorama and project3 stores share word for word. */
module EditorObjects {
  import opened Common

  datatype ObjectType = Cube | Sphere | Glb | Fbx | Panorama

  /** `Object3D`: `url` is an optional field. */
  datatype Object3D = Object3D(
    id: string,
    kind: ObjectType,
    position: Vec3,
    rotation: real,
    scale: real,
    url: Option<string>)

  /** `Partial<Omit<Object3D, 'id' | 'type'>>`: a field that is `Some` is overwritten. */
  datatype ObjectUpdates = ObjectUpdates(
    position: Option<Vec3>,
    rotation: Option<real>,
    scale: Option<real>,
    url: Option<string>)

  const NoUpdates: ObjectUpdates := ObjectUpdates(None, None, None, None)

  /** `{ ...obj, ...updates }` */
  function Merge(o: Object3D, u: ObjectUpdates): (r: Object3D)
    ensures r.id == o.id && r.kind == o.kind
    ensures r.position == OrDefault(u.position, o.position)
    ensures r.rotation == OrDefault(u.rotation, o.rotation)
    ensures r.scale == OrDefault(u.scale, o.scale)
    ensures u.url.Some? ==> r.url == u.url
    ensures u.url.None? ==> r.url == o.url
  {
    Object3D(o.id, o.kind, OrDefault(u.position, o.position), OrDefault(u.rotation, o.rotation),
             OrDefault(u.scale, o.scale), if u.url.Some? then u.url else o.url)
  }

  /** Spreading `a` and then `b` is spreading one object in which `b` wins. */
  function Then(a: ObjectUpdates, b: ObjectUpdates): ObjectUpdates
  {
    ObjectUpdates(
      if b.position.Some? then b.position else a.position,
      if b.rotation.Some? then b.rotation else a.rotation,
      if b.scale.Some? then b.scale else a.scale,
      if b.url.Some? then b.url else a.url)
  }

  lemma MergeLaws(o: Object3D, a: ObjectUpdates, b: ObjectUpdates)
    ensures Merge(o, NoUpdates) == o
    ensures Merge(Merge(o, a), a) == Merge(o, a)
    ensures Merge(Merge(o, a), b) == Merge(o, Then(a, b))
  {
  }

  function Ids(objs: seq<Object3D>): (r: seq<string>)
    ensures |r| == |objs|
    ensures forall i :: 0 <= i < |objs| ==> r[i] == objs[i].id
  {
    if objs == [] then [] else [objs[0].id] + Ids(objs[1..])
  }

  /** `objects.map(obj => obj.id === id ? { ...obj, ...updates } : obj)` */
  function UpdateById(objs: seq<Object3D>, id: string, u: ObjectUpdates): (r: seq<Object3D>)
    ensures |r| == |objs|
    ensures forall i :: 0 <= i < |objs| && objs[i].id == id ==> r[i] == Merge(objs[i], u)
    ensures forall i :: 0 <= i < |objs| && objs[i].id != id ==> r[i] == objs[i]
  {
    if objs == [] then []
    else [if objs[0].id == id then Merge(objs[0], u) else objs[0]] + UpdateById(objs[1..], id, u)
  }

  /** Updating keeps every id and kind in place, leaves the list alone when no entry carries
      the id, and applying the same update twice is applying it once. */
  lemma {:induction false} UpdateByIdLaws(objs: seq<Object3D>, id: string, u: ObjectUpdates)
    ensures Ids(UpdateById(objs, id, u)) == Ids(objs)
    ensures forall i :: 0 <= i < |objs| ==> UpdateById(objs, id, u)[i].kind == objs[i].kind
    ensures id !in Ids(objs) ==> UpdateById(objs, id, u) == objs
    ensures UpdateById(UpdateById(objs, id, u), id, u) == UpdateById(objs, id, u)
  {
    var r := UpdateById(objs, id, u);
    assert Ids(r) == Ids(objs);
    if id !in Ids(objs) {
      assert forall i :: 0 <= i < |objs| ==> objs[i].id != id by {
        forall i | 0 <= i < |objs| ensures objs[i].id != id {
          assert Ids(objs)[i] == objs[i].id;
        }
      }
      assert r == objs;
    }
    var rr := UpdateById(r, id, u);
    forall i | 0 <= i < |objs| ensures rr[i] == r[i] {
      if objs[i].id == id {
        MergeLaws(objs[i], u, u);
      }
    }
  }

  /** `objects.find(obj => obj.id === id)`: the first entry carrying the id. */
  function FindById(objs: seq<Object3D>, id: string): (r: Option<Object3D>)
    ensures r.Some? <==> id in Ids(objs)
    ensures r.Some? ==> r.value.id == id && r.value in objs
  {
    if objs == [] then None
    else if objs[0].id == id then Some(objs[0])
    else FindById(objs[1..], id)
  }

  /** `find` returns the entry at the first index that carries the id. */
  lemma {:induction false} FindByIdFirst(objs: seq<Object3D>, id: string, k: nat)
    requires k < |objs| && objs[k].id == id
    requires forall j :: 0 <= j < k ==> objs[j].id != id
    ensures FindById(objs, id) == Some(objs[k])
    decreases k
  {
    if k > 0 {
      FindByIdFirst(objs[1..], id, k - 1);
    }
  }

  /** The editor state the three stores share. */
  datatype EditorState = EditorState(
    objects: seq<Object3D>,
    selectedObjectId: Option<string>,
    panoramaUrl: string)

  /** The state the project-old and project-vr-panorama stores start from. */
  function EmptyEditor(panoramaUrl: string): (r: EditorState)
    ensures r.objects == [] && r.selectedObjectId == None && r.panoramaUrl == panoramaUrl
  {
    EditorState([], None, panoramaUrl)
  }

  /** `if (s)` on an optional string: null, undefined and the empty string are falsy. */
  predicate Truthy(s: Option<string>)
  {
    s.Some? && s.value != ""
  }

  /** `addObject`: append after every existing entry and select the new id. */
  function AddObject(s: EditorState, o: Object3D): (r: EditorState)
    ensures |r.objects| == |s.objects| + 1
    ensures r.objects[..|s.objects|] == s.objects && r.objects[|s.objects|] == o
    ensures r.selectedObjectId == Some(o.id)
    ensures r.panoramaUrl == s.panoramaUrl
  {
    EditorState(s.objects + [o], Some(o.id), s.panoramaUrl)
  }

  /** `clearObjects` */
  function ClearObjects(s: EditorState): (r: EditorState)
    ensures r.objects == [] && r.selectedObjectId == None
    ensures r.panoramaUrl == s.panoramaUrl
  {
    EditorState([], None, s.panoramaUrl)
  }

  /** `updateObject`: touches the list only; the selection and the panorama stay. */
  function UpdateObject(s: EditorState, id: string, u: ObjectUpdates): (r: EditorState)
    ensures |r.objects| == |s.objects|
    ensures forall i :: 0 <= i < |s.objects| ==>
      r.objects[i] == (if s.objects[i].id == id then Merge(s.objects[i], u) else s.objects[i])
    ensures r.selectedObjectId == s.selectedObjectId && r.panoramaUrl == s.panoramaUrl
  {
    s.(objects := UpdateById(s.objects, id, u))
  }

  /** `selectObject`: no check that the id exists. */
  function SelectObject(s: EditorState, id: Option<string>): (r: EditorState)
    ensures r.selectedObjectId == id
    ensures r.objects == s.objects && r.panoramaUrl == s.panoramaUrl
  {
    s.(selectedObjectId := id)
  }

  /** `setPanoramaUrl` */
  function SetPanoramaUrl(s: EditorState, url: string): (r: EditorState)
    ensures r.panoramaUrl == url
    ensures r.objects == s.objects && r.selectedObjectId == s.selectedObjectId
  {
    s.(panoramaUrl := url)
  }

  /** Clearing twice is clearing once, and an update naming an absent id changes nothing. */
  lemma ActionLaws(s: EditorState, id: string, u: ObjectUpdates)
    ensures ClearObjects(ClearObjects(s)) == ClearObjects(s)
    ensures id !in Ids(s.objects) ==> UpdateObject(s, id, u) == s
  {
    UpdateByIdLaws(s.objects, id, u);
  }

  /** A duplicate id is not rejected: after adding `o` whose id is already taken, an update
      of that id rewrites the older entry and the new one alike, and `find` on the new
      selection keeps returning the older entry. */
  lemma DuplicateIds(s: EditorState, o: Object3D, u: ObjectUpdates, k: nat)
    requires k < |s.objects| && s.objects[k].id == o.id
    ensures var r := UpdateObject(AddObject(s, o), o.id, u);
      r.objects[k] == Merge(s.objects[k], u) && r.objects[|s.objects|] == Merge(o, u)
    ensures FindById(AddObject(s, o).objects, o.id) == FindById(s.objects, o.id)
  {
    assert o.id in Ids(s.objects) by { assert Ids(s.objects)[k] == o.id; }
    FindAppend(s.objects, o);
  }

  /** Appending an entry does not change what `find` returns for an id already present. */
  lemma {:induction false} FindAppend(objs: seq<Object3D>, o: Object3D)
    requires o.id in Ids(objs)
    ensures FindById(objs + [o], o.id) == FindById(objs, o.id)
  {
    assert objs != [];
    if objs[0].id != o.id {
      assert Ids(objs) == [objs[0].id] + Ids(objs[1..]);
      assert (objs + [o])[1..] == objs[1..] + [o];
      FindAppend(objs[1..], o);
    }
  }
}
