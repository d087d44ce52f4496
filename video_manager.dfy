/** The video billboards of the panorama viewer (`project/src/js/video/VideoManager.js`):
    the configuration defaults, the blend-mode table, where a new plane is placed, and the
    positions file built from every plane. */
module VideoManager {
  import opened Common
  import VRController

  const DefaultPosition: Vec3 := Vec3(0.0, 0.0, -20.0)
  const DefaultScale: real := 0.3
  const DefaultWidth: real := 5.6
  const DefaultHeight: real := 9.0
  const DefaultOpacity: real := 0.8
  const DefaultFeatherSize: real := 0.1
  const DefaultBlendMode: string := "additive"
  const DefaultRotation: real := 0.0
  const IdPrefix: string := "video_"

  /** three.js blending constants. */
  datatype Blending = AdditiveBlending | MultiplyBlending | NormalBlending | SubtractiveBlending

  /** `getBlendingMode`: a case-insensitive table that falls back to additive. */
  function BlendingMode(name: string): Blending
  {
    var n := ToLower(name);
    if n == "additive" then AdditiveBlending
    else if n == "multiply" then MultiplyBlending
    else if n == "normal" then NormalBlending
    else if n == "subtract" then SubtractiveBlending
    else AdditiveBlending
  }

  /** The table only sees the lower-cased name. */
  lemma BlendingCaseInsensitive(name: string)
    ensures BlendingMode(ToLower(name)) == BlendingMode(name)
  {
    ToLowerIdempotent(name);
  }

  /** Anything outside the four names is drawn additively. */
  lemma BlendingDefault(name: string)
    requires ToLower(name) !in {"additive", "multiply", "normal", "subtract"}
    ensures BlendingMode(name) == AdditiveBlending
  {
  }

  /** One entry of `VIDEOS_LIST`; a `None` field is absent and takes its default. */
  datatype VideoConfig = VideoConfig(
    src: string,
    position: Option<Vec3>,
    rotation: Option<real>,
    scale: Option<real>,
    width: Option<real>,
    height: Option<real>,
    opacity: Option<real>,
    featherSize: Option<real>,
    blendMode: Option<string>)

  /** The destructured settings with every default filled in. */
  datatype Settings = Settings(
    position: Vec3, rotation: real, scale: real, width: real, height: real,
    opacity: real, featherSize: real, blendMode: string)

  /** The default values in `createVideoPlane`'s destructuring. */
  function Resolve(c: VideoConfig): Settings
  {
    Settings(
      OrDefault(c.position, DefaultPosition), OrDefault(c.rotation, DefaultRotation),
      OrDefault(c.scale, DefaultScale), OrDefault(c.width, DefaultWidth),
      OrDefault(c.height, DefaultHeight), OrDefault(c.opacity, DefaultOpacity),
      OrDefault(c.featherSize, DefaultFeatherSize), OrDefault(c.blendMode, DefaultBlendMode))
  }

  /** The configuration that spells every resolved setting out. */
  function Spelled(src: string, s: Settings): (c: VideoConfig)
    ensures c.src == src
  {
    VideoConfig(src, Some(s.position), Some(s.rotation), Some(s.scale), Some(s.width),
                Some(s.height), Some(s.opacity), Some(s.featherSize), Some(s.blendMode))
  }

  /** Resolving keeps every field that was given, an empty configuration resolves to the
      defaults, and spelling the result out and resolving again changes nothing. */
  lemma ResolveLaws(c: VideoConfig)
    ensures c.scale.Some? ==> Resolve(c).scale == c.scale.value
    ensures c.position.Some? ==> Resolve(c).position == c.position.value
    ensures Resolve(Spelled(c.src, Resolve(c))) == Resolve(c)
    ensures Resolve(VideoConfig(c.src, None, None, None, None, None, None, None, None)) ==
      Settings(DefaultPosition, DefaultRotation, DefaultScale, DefaultWidth, DefaultHeight,
               DefaultOpacity, DefaultFeatherSize, DefaultBlendMode)
  {
  }

  /** `VIDEOS_LIST` of `project/src/js/config.js`. */
  const VideosList: seq<VideoConfig> := [
    VideoConfig("./pirate-woman-audio.mp4", Some(Vec3(4.5, -1.0, -3.0)), Some(-50.0), Some(0.5),
                Some(5.6), Some(9.0), Some(1.0), Some(0.0), Some("Overlay")),
    VideoConfig("./tesla2.mp4", Some(Vec3(4.5, 1.2, -5.0)), Some(-20.0), Some(0.4),
                Some(8.0), Some(6.0), Some(0.4), Some(0.2), Some("screen")),
    VideoConfig("./robot7.mp4", Some(Vec3(5.81, -0.44, 3.17)), Some(270.0), Some(0.22),
                Some(6.0), Some(10.0), Some(1.0), Some(0.0), Some("screen")),
    VideoConfig("./plasma.mp4", Some(Vec3(-1.5, 2.4, 6.48)), Some(150.0), Some(0.8),
                Some(8.0), Some(12.0), Some(1.0), Some(0.2), Some("screen")),
    VideoConfig("./fog.mp4", Some(Vec3(15.0, 2.4, 2.3)), Some(50.0), Some(0.8),
                Some(12.0), Some(7.0), Some(0.5), Some(0.2), Some("screen")),
    VideoConfig("./fog2.mp4", Some(Vec3(-12.0, 0.0, 3.8)), Some(150.0), Some(0.8),
                Some(12.0), Some(7.0), Some(1.0), Some(0.2), Some("screen"))
  ]

  /** Neither 'Overlay' nor 'screen' is in the table, so every configured video is drawn
      additively. */
  lemma ConfiguredVideosAdditive()
    ensures forall i :: 0 <= i < |VideosList| ==> BlendingMode(Resolve(VideosList[i]).blendMode) == AdditiveBlending
  {
    OverlayAdditive();
    ScreenAdditive();
    forall i | 0 <= i < |VideosList|
      ensures BlendingMode(Resolve(VideosList[i]).blendMode) == AdditiveBlending
    {
      assert Resolve(VideosList[i]).blendMode in {"Overlay", "screen"};
    }
  }

  lemma OverlayAdditive()
    ensures BlendingMode("Overlay") == AdditiveBlending
  {
    assert ToLower("Overlay") == "overlay";
  }

  lemma ScreenAdditive()
    ensures BlendingMode("screen") == AdditiveBlending
  {
    assert ToLower("screen") == "screen";
  }

  /** A `localStorage` entry as `setupVideoPlane` reads it: an empty string is falsy, and
      `JSON.parse` either yields the saved fields or throws. */
  datatype Stored = EmptyText | Unparsable | Saved(position: Vec3, rotationY: real)

  /** What `onTriggerEnd` writes for a released video plane. */
  function Save(store: map<string, Stored>, p: VRController.SavedPose): (r: map<string, Stored>)
    ensures r.Keys == store.Keys + {p.key}
    ensures r[p.key] == Saved(p.position, p.rotationY)
  {
    store[p.key := Saved(p.position, p.rotationY)]
  }

  /** The position and yaw a new plane gets: a parsed saved entry wins, a missing, empty or
      unparsable one falls back to the configuration and the configured angle in radians. */
  function Placement(s: Settings, entry: Option<Stored>): (r: (Vec3, real))
    ensures entry.Some? && entry.value.Saved? ==> r == (entry.value.position, entry.value.rotationY)
    ensures !(entry.Some? && entry.value.Saved?) ==> r == (s.position, DegToRad(s.rotation))
  {
    if entry.Some? && entry.value.Saved? then (entry.value.position, entry.value.rotationY)
    else (s.position, DegToRad(s.rotation))
  }

  function Lookup(store: map<string, Stored>, key: string): (r: Option<Stored>)
    ensures r.Some? <==> key in store
    ensures r.Some? ==> r.value == store[key]
  {
    if key in store then Some(store[key]) else None
  }

  /** `userData`: the applied yaw, and the configured position even when a saved one won. */
  datatype UserData = UserData(src: string, videoId: string, initialRotation: real, initialPosition: Vec3)

  datatype VideoPlane = VideoPlane(
    name: string, position: Vec3, rotationY: real, scale: real,
    width: real, height: real, opacity: real, featherSize: real, blending: Blending,
    userData: UserData)

  /** `createVideoPlane` with `setupVideoPlane`, for the id `videoId`. */
  function NewPlane(c: VideoConfig, videoId: string, store: map<string, Stored>): (p: VideoPlane)
    ensures p.name == videoId && p.userData.videoId == videoId && p.userData.src == c.src
    ensures (p.position, p.rotationY) == Placement(Resolve(c), Lookup(store, videoId + VRController.PositionSuffix))
    ensures p.userData.initialRotation == p.rotationY
    ensures p.userData.initialPosition == Resolve(c).position
    ensures p.scale == Resolve(c).scale && p.width == Resolve(c).width && p.height == Resolve(c).height
    ensures p.opacity == Resolve(c).opacity && p.featherSize == Resolve(c).featherSize
    ensures p.blending == BlendingMode(Resolve(c).blendMode)
  {
    var s := Resolve(c);
    var pose := Placement(s, Lookup(store, videoId + VRController.PositionSuffix));
    VideoPlane(videoId, pose.0, pose.1, s.scale, s.width, s.height, s.opacity, s.featherSize,
               BlendingMode(s.blendMode), UserData(c.src, videoId, pose.1, s.position))
  }

  /** Each session draws a fresh random id, so the key it reads was never written by an
      earlier session: whatever was saved under earlier ids, the plane starts at its
      configured position. */
  lemma SavedPositionLost(c: VideoConfig, videoId: string, store: map<string, Stored>, earlierIds: set<string>)
    requires forall k :: k in store ==> exists e :: e in earlierIds && k == e + VRController.PositionSuffix
    requires videoId !in earlierIds
    ensures NewPlane(c, videoId, store).position == Resolve(c).position
    ensures NewPlane(c, videoId, store).rotationY == DegToRad(Resolve(c).rotation)
  {
    var key := videoId + VRController.PositionSuffix;
    if key in store {
      var e :| e in earlierIds && key == e + VRController.PositionSuffix;
      SuffixCancels(e, videoId, VRController.PositionSuffix);
    }
  }

  lemma SuffixCancels(a: string, b: string, suffix: string)
    requires a + suffix == b + suffix
    ensures a == b
  {
    assert a == (a + suffix)[..|a|];
    assert b == (b + suffix)[..|b|];
  }

  /** With an id that depends only on the source, a pose saved on release is the pose the
      plane is created with the next time. */
  function StableId(src: string): (id: string)
    ensures |id| >= |IdPrefix| && id[..|IdPrefix|] == IdPrefix && id[|IdPrefix|..] == src
  {
    IdPrefix + src
  }

  lemma SavedPositionRestored(c: VideoConfig, store: map<string, Stored>, pos: Vec3, rotationY: real)
    ensures var store' := Save(store, VRController.SavedPose(StableId(c.src) + VRController.PositionSuffix, pos, rotationY));
      var p := NewPlane(c, StableId(c.src), store');
      p.position == pos && p.rotationY == rotationY && p.userData.initialRotation == rotationY
  {
  }

  /** With the stable id, a plane released after a turn to a backward-facing heading comes
      back facing the mirrored heading: the grabber saved the read-back `rotation.y`, and the
      x and z half turns that went with it were not saved. */
  lemma TurnedPlaneRestoredMirrored(c: VideoConfig, store: map<string, Stored>, pos: Vec3, heading: real)
    requires VRController.HalfPi < heading < PI
    ensures var saved := VRController.SavedPose(StableId(c.src) + VRController.PositionSuffix, pos, VRController.EulerY(heading));
      var p := NewPlane(c, StableId(c.src), Save(store, saved));
      p.rotationY == PI - heading && p.rotationY != heading
  {
  }

  /** `saveVideoPositionsToFile`'s dictionary: one entry per source, the last plane with a
      given source winning. */
  function PositionsMap(planes: seq<VideoPlane>): (r: map<string, Stored>)
    ensures forall i :: 0 <= i < |planes| ==> planes[i].userData.src in r
    ensures forall k :: k in r ==> exists i :: 0 <= i < |planes| && planes[i].userData.src == k
  {
    if planes == [] then map[]
    else
      var last := planes[|planes| - 1];
      PositionsMap(planes[..|planes| - 1])[last.userData.src := Saved(last.position, last.rotationY)]
  }

  lemma {:induction false} PositionsMapLastWins(planes: seq<VideoPlane>, k: nat)
    requires k < |planes|
    requires forall j :: k < j < |planes| ==> planes[j].userData.src != planes[k].userData.src
    ensures PositionsMap(planes)[planes[k].userData.src] == Saved(planes[k].position, planes[k].rotationY)
    decreases |planes|
  {
    if k < |planes| - 1 {
      var init := planes[..|planes| - 1];
      assert forall j :: k < j < |init| ==> init[j] == planes[j];
      PositionsMapLastWins(init, k);
    }
  }

  class Manager {
    var videoPlanes: seq<VideoPlane>

    constructor ()
      ensures videoPlanes == []
    {
      videoPlanes := [];
    }

    /** `createVideoPlane`: the random id is a parameter, the storage a snapshot. */
    method CreateVideoPlane(c: VideoConfig, videoId: string, store: map<string, Stored>) returns (p: VideoPlane)
      modifies this
      ensures p == NewPlane(c, videoId, store)
      ensures videoPlanes == old(videoPlanes) + [p]
    {
      var s := Resolve(c);
      var pose := Placement(s, Lookup(store, videoId + VRController.PositionSuffix));
      p := VideoPlane(videoId, pose.0, pose.1, s.scale, s.width, s.height, s.opacity, s.featherSize,
                      BlendingMode(s.blendMode), UserData(c.src, videoId, pose.1, s.position));
      videoPlanes := videoPlanes + [p];
    }

    /** The same with the source-derived id. */
    method CreateVideoPlaneStable(c: VideoConfig, store: map<string, Stored>) returns (p: VideoPlane)
      modifies this
      ensures p == NewPlane(c, StableId(c.src), store)
      ensures videoPlanes == old(videoPlanes) + [p]
    {
      p := CreateVideoPlane(c, StableId(c.src), store);
    }

    /** The positions object of `saveVideoPositionsToFile`; the download is left out. */
    method SaveVideoPositions() returns (positions: map<string, Stored>)
      ensures positions == PositionsMap(videoPlanes)
    {
      positions := map[];
      var i := 0;
      while i < |videoPlanes|
        invariant 0 <= i <= |videoPlanes|
        invariant positions == PositionsMap(videoPlanes[..i])
      {
        var p := videoPlanes[i];
        assert videoPlanes[..i + 1][..i] == videoPlanes[..i];
        positions := positions[p.userData.src := Saved(p.position, p.rotationY)];
        i := i + 1;
      }
      assert videoPlanes[..|videoPlanes|] == videoPlanes;
    }
  }
}
