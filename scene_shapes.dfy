/** What the editors' `Object3DComponent` draws for one placed object: a primitive mesh,
    a loaded model or nothing, with the transform three.js applies to it. */
module SceneShapes {
  import opened Common
  import opened EditorObjects

  /** `useGLTF` or `useFBX`. */
  datatype Loader = GltfLoader | FbxLoader

  /** Where the drawn node sits: `position`, `rotation-y` in radians and a uniform scale. */
  datatype Transform = Transform(position: Vec3, rotationY: real, scale: real)

  datatype Shape =
    | BoxShape                            // `<boxGeometry />`, hot pink
    | SphereShape                         // `<sphereGeometry args={[1, 32, 32]} />`, light blue
    | ModelShape(loader: Loader, url: string)  // a clone of the loaded scene

  datatype Drawn = Drawn(shape: Shape, transform: Transform)

  /** The branch chain shared by project3 and project-vr-panorama: cubes and spheres always
      draw, a glb or fbx object only with a truthy url, everything else renders `null`. */
  function Dispatch(o: Object3D, t: Transform): (r: Option<Drawn>)
    ensures o.kind == Cube ==> r == Some(Drawn(BoxShape, t))
    ensures o.kind == Sphere ==> r == Some(Drawn(SphereShape, t))
    ensures o.kind == Glb ==> (r.Some? <==> Truthy(o.url))
    ensures o.kind == Fbx ==> (r.Some? <==> Truthy(o.url))
    ensures o.kind == Glb && r.Some? ==> r.value == Drawn(ModelShape(GltfLoader, o.url.value), t)
    ensures o.kind == Fbx && r.Some? ==> r.value == Drawn(ModelShape(FbxLoader, o.url.value), t)
    ensures o.kind == Panorama ==> r.None?
  {
    match o.kind
    case Cube => Some(Drawn(BoxShape, t))
    case Sphere => Some(Drawn(SphereShape, t))
    case Glb => if Truthy(o.url) then Some(Drawn(ModelShape(GltfLoader, o.url.value), t)) else None
    case Fbx => if Truthy(o.url) then Some(Drawn(ModelShape(FbxLoader, o.url.value), t)) else None
    case Panorama => None
  }

  /** The present values of a list of optional values, in order. */
  function Present<T>(xs: seq<Option<T>>): (r: seq<T>)
    ensures |r| <= |xs|
    ensures forall i :: 0 <= i < |xs| && xs[i].Some? ==> xs[i].value in r
    ensures forall d :: d in r ==> Some(d) in xs
  {
    if xs == [] then [] else (if xs[0].Some? then [xs[0].value] else []) + Present(xs[1..])
  }

  /** What each object's component returns, one entry per object. */
  function Rendered(objs: seq<Object3D>, transform: Object3D -> Transform): (r: seq<Option<Drawn>>)
    ensures |r| == |objs|
    ensures forall i :: 0 <= i < |objs| ==> r[i] == Dispatch(objs[i], transform(objs[i]))
  {
    seq(|objs|, i requires 0 <= i < |objs| => Dispatch(objs[i], transform(objs[i])))
  }

  /** `objects.map(...)`: the children React mounts are the components' non-`null` results,
      in the order of the objects. */
  function DispatchAll(objs: seq<Object3D>, transform: Object3D -> Transform): (r: seq<Drawn>)
    ensures r == Present(Rendered(objs, transform))
    ensures |r| <= |objs|
    ensures (forall i :: 0 <= i < |objs| ==> objs[i].kind == Cube || objs[i].kind == Sphere) ==> |r| == |objs|
  {
    if objs == [] then []
    else
      var rest := DispatchAll(objs[1..], transform);
      var d := Dispatch(objs[0], transform(objs[0]));
      assert Rendered(objs, transform)[1..] == Rendered(objs[1..], transform);
      if d.Some? then [d.value] + rest else rest
  }
}
