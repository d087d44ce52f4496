/** project-vr-panorama/src/store.ts: the editor store persisted through a versioned
    JSON record. */
module PanoramaStore {
  import opened Common
  import opened EditorObjects

  const DefaultPanorama: string :=
    "https://images.unsplash.com/photo-1536152470836-b943b246224c?auto=format&fit=crop&w=2048&q=80"

  /** The persisted record's schema version. */
  const Version: int := 1

  const Initial: EditorState := EmptyEditor(DefaultPanorama)

  /** A JSON value as `JSON.parse` returns it (NaN is not representable). */
  datatype Json =
    | JNull
    | JBool(b: bool)
    | JNum(n: real)
    | JStr(s: string)
    | JArr(items: seq<Json>)
    | JObj(fields: map<string, Json>)

  /** JavaScript falsiness of a JSON value; arrays and objects, even empty ones, are truthy. */
  predicate Falsy(v: Json)
  {
    v == JNull || v == JBool(false) || v == JNum(0.0) || v == JStr("")
  }

  /** `obj.key || fallback`, where a missing key reads as `undefined`. */
  function OrElse(p: map<string, Json>, key: string, fallback: Json): (r: Json)
    ensures key in p && !Falsy(p[key]) ==> r == p[key]
    ensures (key !in p || Falsy(p[key])) ==> r == fallback
  {
    if key in p && !Falsy(p[key]) then p[key] else fallback
  }

  function KindName(k: ObjectType): string
  {
    match k
    case Cube => "cube"
    case Sphere => "sphere"
    case Glb => "glb"
    case Fbx => "fbx"
    case Panorama => "panorama"
  }

  /** An `Object3D` as JSON; an absent `url` is an absent key. */
  function EncodeObject(o: Object3D): (r: Json)
    ensures r.JObj? && ("url" in r.fields <==> o.url.Some?)
    ensures r.JObj? && "id" in r.fields && r.fields["id"] == JStr(o.id)
  {
    var base := map[
      "id" := JStr(o.id),
      "type" := JStr(KindName(o.kind)),
      "position" := JArr([JNum(o.position.x), JNum(o.position.y), JNum(o.position.z)]),
      "rotation" := JNum(o.rotation),
      "scale" := JNum(o.scale)];
    JObj(if o.url.Some? then base["url" := JStr(o.url.value)] else base)
  }

  function EncodeObjects(objs: seq<Object3D>): (r: seq<Json>)
    ensures |r| == |objs|
    ensures forall i :: 0 <= i < |objs| ==> r[i] == EncodeObject(objs[i])
  {
    if objs == [] then [] else [EncodeObject(objs[0])] + EncodeObjects(objs[1..])
  }

  /** `partialize`: the persisted record holds exactly the panorama URL and the objects. */
  function Partialize(s: EditorState): (r: map<string, Json>)
    ensures r.Keys == {"panoramaUrl", "objects"}
    ensures r["panoramaUrl"] == JStr(s.panoramaUrl)
    ensures r["objects"] == JArr(EncodeObjects(s.objects))
  {
    map["panoramaUrl" := JStr(s.panoramaUrl), "objects" := JArr(EncodeObjects(s.objects))]
  }

  /** The selection is never persisted: selecting leaves the persisted record as it was. */
  lemma SelectionNotPersisted(s: EditorState, id: Option<string>)
    ensures Partialize(SelectObject(s, id)) == Partialize(s)
  {
  }

  /** `migrate(persistedState, version)` */
  function Migrate(p: map<string, Json>, version: int): (r: map<string, Json>)
    ensures version != 0 ==> r == p
    ensures version == 0 ==> r.Keys == p.Keys + {"panoramaUrl", "objects"}
    ensures version == 0 ==> forall k :: k in p && k != "panoramaUrl" && k != "objects" ==> r[k] == p[k]
    ensures version == 0 ==> r["panoramaUrl"] == OrElse(p, "panoramaUrl", JStr(DefaultPanorama))
    ensures version == 0 ==> r["objects"] == OrElse(p, "objects", JArr([]))
  {
    if version == 0 then
      p["panoramaUrl" := OrElse(p, "panoramaUrl", JStr(DefaultPanorama))]
       ["objects" := OrElse(p, "objects", JArr([]))]
    else p
  }

  /** The store starts empty with no selection and the default panorama; its persisted
      record is that URL with no objects, which a version-0 migration leaves alone. */
  lemma InitialPersisted()
    ensures Initial.objects == [] && Initial.selectedObjectId == None && Initial.panoramaUrl == DefaultPanorama
    ensures Partialize(Initial) == map["panoramaUrl" := JStr(DefaultPanorama), "objects" := JArr([])]
    ensures Migrate(Partialize(Initial), 0) == Partialize(Initial)
  {
    MigratePartialized(Initial);
  }

  /** After a migration from version 0 both fields are truthy, so migrating again returns the
      same record. */
  lemma {:induction false} MigrateIdempotent(p: map<string, Json>)
    ensures !Falsy(Migrate(p, 0)["panoramaUrl"]) && !Falsy(Migrate(p, 0)["objects"])
    ensures Migrate(Migrate(p, 0), 0) == Migrate(p, 0)
  {
    var m := Migrate(p, 0);
    var mm := Migrate(m, 0);
    assert mm.Keys == m.Keys;
    forall k | k in m ensures mm[k] == m[k] {
    }
  }

  /** A record that this store itself persisted with a non-empty panorama URL passes through
      a version-0 migration untouched; an empty URL is replaced by the default. */
  lemma MigratePartialized(s: EditorState)
    ensures s.panoramaUrl != "" ==> Migrate(Partialize(s), 0) == Partialize(s)
    ensures s.panoramaUrl == "" ==> Migrate(Partialize(s), 0)["panoramaUrl"] == JStr(DefaultPanorama)
  {
    var p := Partialize(s);
    if s.panoramaUrl != "" {
      assert Migrate(p, 0).Keys == p.Keys;
    }
  }
}
