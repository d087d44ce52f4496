/** project/src/js/ui/UIControls.js: the position-field sanitiser, the numeric fallbacks, the
    listeners that apply position, scale and rotation to every scene object, and the
    "add object" dispatch. */
module UIControls {
  import opened Common

  // ---------------------------------------------------------------------------------------
  // The sanitiser: replace(/[^\d.-]/g, ''), then the split('.') repair, then the '-' repair.

  predicate Allowed(c: char)
  {
    ('0' <= c <= '9') || c == '.' || c == '-'
  }

  predicate AllAllowed(s: string)
  {
    forall j :: 0 <= j < |s| ==> Allowed(s[j])
  }

  /** `a` can be obtained from `b` by deleting characters. */
  predicate IsSubsequence(a: string, b: string)
    decreases |b|
  {
    a == [] || (b != [] && ((a[0] == b[0] && IsSubsequence(a[1..], b[1..])) || IsSubsequence(a, b[1..])))
  }

  lemma {:induction false} SubsequenceRefl(a: string)
    ensures IsSubsequence(a, a)
  {
    if a != [] {
      SubsequenceRefl(a[1..]);
    }
  }

  lemma {:induction false} SubsequenceTrans(a: string, b: string, c: string)
    requires IsSubsequence(a, b) && IsSubsequence(b, c)
    ensures IsSubsequence(a, c)
    decreases |c|
  {
    if a != [] {
      if IsSubsequence(b, c[1..]) {
        SubsequenceTrans(a, b, c[1..]);
      } else if a[0] == b[0] && IsSubsequence(a[1..], b[1..]) {
        SubsequenceTrans(a[1..], b[1..], c[1..]);
      } else {
        SubsequenceTrans(a, b[1..], c[1..]);
      }
    }
  }

  /** A common prefix keeps the relation. */
  lemma {:induction false} SubsequencePrefix(x: string, a: string, b: string)
    requires IsSubsequence(a, b)
    ensures IsSubsequence(x + a, x + b)
  {
    if x != [] {
      assert (x + a)[0] == x[0] && (x + b)[0] == x[0];
      assert (x + a)[1..] == x[1..] + a;
      assert (x + b)[1..] == x[1..] + b;
      SubsequencePrefix(x[1..], a, b);
      assert IsSubsequence((x + a)[1..], (x + b)[1..]);
    } else {
      assert x + a == a && x + b == b;
    }
  }

  /** Deleting one character leaves a subsequence. */
  lemma SubsequenceDelete(s: string, k: nat)
    requires k < |s|
    ensures IsSubsequence(s[..k] + s[k+1..], s)
  {
    var tail := s[k+1..];
    SubsequenceRefl(tail);
    assert IsSubsequence(tail, [s[k]] + tail) by { assert ([s[k]] + tail)[1..] == tail; }
    SubsequencePrefix(s[..k], tail, [s[k]] + tail);
    assert s[..k] + ([s[k]] + tail) == s;
  }

  /** `value.replace(/[^\d.-]/g, '')` */
  function KeepAllowed(s: string): (r: string)
    ensures AllAllowed(r)
    ensures IsSubsequence(r, s)
  {
    if s == [] then []
    else if Allowed(s[0]) then [s[0]] + KeepAllowed(s[1..])
    else KeepAllowed(s[1..])
  }

  function Count(s: string, c: char): (r: nat)
    ensures r <= |s|
    ensures r == 0 <==> c !in s
  {
    if s == [] then 0 else (if s[0] == c then 1 else 0) + Count(s[1..], c)
  }

  lemma {:induction false} CountAppend(a: string, b: string, c: char)
    ensures Count(a + b, c) == Count(a, c) + Count(b, c)
  {
    if a != [] {
      assert (a + b)[0] == a[0];
      assert (a + b)[1..] == a[1..] + b;
      CountAppend(a[1..], b, c);
      assert Count(a + b, c) == (if a[0] == c then 1 else 0) + Count((a + b)[1..], c);
    } else {
      assert a + b == b;
    }
  }

  /** `s.split(sep)`: the pieces between separators, always at least one. */
  function Split(s: string, sep: char): (r: seq<string>)
    ensures |r| == Count(s, sep) + 1
  {
    if s == [] then [""]
    else if s[0] == sep then [""] + Split(s[1..], sep)
    else
      var t := Split(s[1..], sep);
      [[s[0]] + t[0]] + t[1..]
  }

  /** `parts.join('')` */
  function Concat(parts: seq<string>): string
  {
    if parts == [] then "" else parts[0] + Concat(parts[1..])
  }

  /** `s` with every `c` deleted. */
  function RemoveAll(s: string, c: char): (r: string)
    ensures c !in r
    ensures forall x :: x in r ==> x in s
    ensures IsSubsequence(r, s)
  {
    if s == [] then ""
    else if s[0] == c then RemoveAll(s[1..], c)
    else [s[0]] + RemoveAll(s[1..], c)
  }

  /** `indexOf`: the index of the first `c`, or -1. */
  function IndexOf(s: string, c: char): (r: int)
    ensures -1 <= r < |s|
    ensures r == -1 <==> c !in s
    ensures r >= 0 ==> s[r] == c && c !in s[..r]
  {
    if s == [] then -1
    else if s[0] == c then 0
    else
      var k := IndexOf(s[1..], c);
      if k == -1 then -1 else assert s[..k+1] == [s[0]] + s[1..][..k]; k + 1
  }

  /** `if (parts.length > 2) value = parts[0] + '.' + parts.slice(1).join('')` */
  function DotRepair(v: string): string
  {
    var parts := Split(v, '.');
    if |parts| > 2 then parts[0] + "." + Concat(parts[1..]) else v
  }

  /** Reference meaning of the dot repair: keep everything up to and including the first
      '.', and delete every later '.'. */
  function KeepFirstDot(v: string): string
  {
    var i := IndexOf(v, '.');
    if i < 0 then v else v[..i] + "." + RemoveAll(v[i+1..], '.')
  }

  /** `if (value.indexOf('-') > 0) value = value.replace('-', '')`: `replace` with a string
      pattern deletes the first occurrence only. */
  function MinusRepair(v: string): string
  {
    var k := IndexOf(v, '-');
    if k > 0 then v[..k] + v[k+1..] else v
  }

  /** The whole `input` listener's rewrite of the field text. */
  function Sanitise(raw: string): string
  {
    MinusRepair(DotRepair(KeepAllowed(raw)))
  }

  lemma {:induction false} ConcatSplit(w: string, c: char)
    ensures Concat(Split(w, c)) == RemoveAll(w, c)
  {
    if w != [] {
      ConcatSplit(w[1..], c);
      if w[0] != c {
        var t := Split(w[1..], c);
        assert Concat(t) == t[0] + Concat(t[1..]);
        assert Concat(Split(w, c)) == ([w[0]] + t[0]) + Concat(t[1..]);
      }
    }
  }

  lemma {:induction false} SplitAtFirst(v: string, c: char, i: nat)
    requires i < |v| && v[i] == c && c !in v[..i]
    ensures Split(v, c) == [v[..i]] + Split(v[i+1..], c)
    decreases i
  {
    if i > 0 {
      assert v[0] == v[..i][0];
      var w := v[1..];
      assert w[..i-1] == v[..i][1..];
      SplitAtFirst(w, c, i - 1);
      assert w[i..] == v[i+1..];
      assert [v[0]] + w[..i-1] == v[..i];
    }
  }

  lemma {:induction false} NoCharSplit(v: string, c: char)
    requires c !in v
    ensures Split(v, c) == [v]
  {
    if v != [] {
      NoCharSplit(v[1..], c);
      assert [v[0]] + v[1..] == v;
    }
  }

  lemma {:induction false} NoCharRemoveAll(v: string, c: char)
    requires c !in v
    ensures RemoveAll(v, c) == v
  {
    if v != [] {
      NoCharRemoveAll(v[1..], c);
      assert [v[0]] + v[1..] == v;
    }
  }

  /** The split-and-join repair is "keep the first dot, drop the later ones". */
  lemma DotRepairIsKeepFirstDot(v: string)
    ensures DotRepair(v) == KeepFirstDot(v)
  {
    var i := IndexOf(v, '.');
    if i < 0 {
      NoCharSplit(v, '.');
    } else {
      DotRepairAtFirst(v, i);
    }
  }

  /** The repair with the first '.' at index `i`: the pieces are the text before it and the
      pieces of the rest. */
  lemma DotRepairAtFirst(v: string, i: nat)
    requires i < |v| && v[i] == '.' && '.' !in v[..i]
    ensures DotRepair(v) == v[..i] + "." + RemoveAll(v[i+1..], '.')
  {
    var rest := v[i+1..];
    SplitAtFirst(v, '.', i);
    var parts := Split(v, '.');
    assert parts[0] == v[..i] && parts[1..] == Split(rest, '.');
    ConcatSplit(rest, '.');
    if Count(rest, '.') == 0 {
      assert |parts| == 2;
      NoCharRemoveAll(rest, '.');
      assert v == v[..i] + "." + rest;
    } else {
      assert |parts| > 2;
      assert DotRepair(v) == parts[0] + "." + Concat(parts[1..]);
    }
  }

  /** At most one '.' survives the dot repair; the result keeps the input's order and
      introduces no new character. */
  lemma DotRepairLaws(v: string)
    ensures Count(DotRepair(v), '.') <= 1
    ensures IsSubsequence(DotRepair(v), v)
    ensures forall x :: x in DotRepair(v) ==> x in v
  {
    DotRepairIsKeepFirstDot(v);
    var i := IndexOf(v, '.');
    if i < 0 {
      SubsequenceRefl(v);
    } else {
      KeepFirstDotCount(v, i);
      KeepFirstDotAt(v, i);
      KeepFirstDotChars(v, i);
    }
  }

  /** Keeping the '.' at index `i` and deleting the later ones adds exactly one '.' to the
      count of the text before it. */
  lemma KeepFirstDotCount(v: string, i: nat)
    requires i < |v|
    ensures Count(v[..i] + "." + RemoveAll(v[i+1..], '.'), '.') == Count(v[..i], '.') + 1
  {
    var r := RemoveAll(v[i+1..], '.');
    CountAppend(v[..i] + ".", r, '.');
    CountAppend(v[..i], ".", '.');
  }

  /** Keeping the '.' at index `i` and deleting the later ones leaves a subsequence of the
      input. */
  lemma KeepFirstDotAt(v: string, i: nat)
    requires i < |v| && v[i] == '.'
    ensures IsSubsequence(v[..i] + "." + RemoveAll(v[i+1..], '.'), v)
  {
    var rest := v[i+1..];
    var head := v[..i] + ".";
    assert v == head + rest;
    SubsequencePrefix(head, RemoveAll(rest, '.'), rest);
  }

  /** ... and introduces no new character. */
  lemma KeepFirstDotChars(v: string, i: nat)
    requires i < |v| && v[i] == '.'
    ensures forall x :: x in v[..i] + "." + RemoveAll(v[i+1..], '.') ==> x in v
  {
    var rest := v[i+1..];
    var r := RemoveAll(rest, '.');
    forall x | x in v[..i] + "." + r ensures x in v {
      if x in r {
        assert x in rest;
        var k :| 0 <= k < |rest| && rest[k] == x;
        assert v[i + 1 + k] == x;
      } else if x in v[..i] {
        var k :| 0 <= k < i && v[..i][k] == x;
        assert v[k] == x;
      }
    }
  }

  /** The '-' repair keeps a leading '-', otherwise deletes exactly the first '-', never
      touches a '.', and introduces no new character. */
  lemma MinusRepairLaws(v: string)
    ensures v != [] && v[0] == '-' ==> MinusRepair(v) == v
    ensures '-' !in v ==> MinusRepair(v) == v
    ensures IndexOf(v, '-') > 0 ==>
      var k := IndexOf(v, '-'); MinusRepair(v) == v[..k] + v[k+1..] && v[k] == '-' && '-' !in v[..k]
    ensures Count(MinusRepair(v), '.') == Count(v, '.')
    ensures IsSubsequence(MinusRepair(v), v)
    ensures forall x :: x in MinusRepair(v) ==> x in v
  {
    var k := IndexOf(v, '-');
    if k > 0 {
      assert v == v[..k] + ([v[k]] + v[k+1..]);
      CountAppend(v[..k], [v[k]] + v[k+1..], '.');
      CountAppend([v[k]], v[k+1..], '.');
      CountAppend(v[..k], v[k+1..], '.');
      SubsequenceDelete(v, k);
    } else {
      SubsequenceRefl(v);
    }
  }

  /** After sanitising, the field holds only digits, '.' and '-', at most one '.', and its
      characters appear in the input in the same order. */
  lemma SanitiseLaws(raw: string)
    ensures AllAllowed(Sanitise(raw))
    ensures Count(Sanitise(raw), '.') <= 1
    ensures IsSubsequence(Sanitise(raw), raw)
  {
    var a := KeepAllowed(raw);
    var d := DotRepair(a);
    var m := MinusRepair(d);
    DotRepairLaws(a);
    MinusRepairLaws(d);
    forall j | 0 <= j < |m| ensures Allowed(m[j]) {
      assert m[j] in d;
      assert m[j] in a;
    }
    SubsequenceTrans(m, d, a);
    SubsequenceTrans(m, a, raw);
  }

  lemma {:induction false} KeepAllowedFixes(s: string)
    requires AllAllowed(s)
    ensures KeepAllowed(s) == s
  {
    if s != [] {
      KeepAllowedFixes(s[1..]);
      assert [s[0]] + s[1..] == s;
    }
  }

  lemma IndexOfAt(s: string, c: char, k: nat)
    requires k < |s| && s[k] == c && c !in s[..k]
    ensures IndexOf(s, c) == k
  {
  }

  /** On text of allowed characters without a '.', whose first '-' sits at `k > 0`,
      sanitising deletes just that '-'. */
  lemma SanitiseMinusOnly(s: string, k: nat)
    requires AllAllowed(s) && '.' !in s
    requires 0 < k < |s| && s[k] == '-' && '-' !in s[..k]
    ensures Sanitise(s) == s[..k] + s[k+1..]
  {
    KeepAllowedFixes(s);
    NoCharSplit(s, '.');
    assert DotRepair(s) == s;
    IndexOfAt(s, '-', k);
  }

  /** The first pass over "1-2-3": nothing is dropped, there is no '.', and the '-' at index 1
      is the first one, so it is deleted. */
  lemma SanitiseFirst(s: string)
    requires s == "1-2-3"
    ensures Sanitise(s) == "12-3"
  {
    assert AllAllowed(s) && '.' !in s;
    assert s[..1] == "1";
    SanitiseMinusOnly(s, 1);
    assert s[..1] + s[2..] == "12-3";
  }

  /** The second pass over "12-3" deletes the remaining '-' at index 2. */
  lemma SanitiseSecond(s: string)
    requires s == "12-3"
    ensures Sanitise(s) == "123"
  {
    assert AllAllowed(s) && '.' !in s;
    assert s[..2] == "12";
    SanitiseMinusOnly(s, 2);
    assert s[..2] + s[3..] == "123";
  }

  /** Sanitising is not idempotent: one pass turns "1-2-3" into "12-3", which a second pass
      turns into "123". */
  lemma SanitiseNotIdempotent()
    ensures Sanitise("1-2-3") == "12-3"
    ensures Sanitise("12-3") == "123"
    ensures Sanitise(Sanitise("1-2-3")) != Sanitise("1-2-3")
  {
    SanitiseFirst("1-2-3");
    SanitiseSecond("12-3");
    assert "123" != "12-3";
  }

  // ---------------------------------------------------------------------------------------
  // Numeric fallbacks and the scene-wide listeners.

  /** `parseFloat(x) || 0`, `parseFloat(y) || 0`, `parseFloat(z) || -3`. */
  function FieldPosition(px: Option<real>, py: Option<real>, pz: Option<real>): (r: Vec3)
    ensures r.x == NumberOr(px, 0.0) && r.y == NumberOr(py, 0.0) && r.z == NumberOr(pz, -3.0)
    ensures pz == Some(0.0) ==> r.z == -3.0
  {
    Vec3(NumberOr(px, 0.0), NumberOr(py, 0.0), NumberOr(pz, -3.0))
  }

  /** A three.js object as the listeners see it. */
  class SceneObject {
    var position: Vec3
    var scale: real
    var rotationY: real
    /** `userData.initialScaleFactor`; `None` when unset. */
    var initialScaleFactor: Option<real>
    /** `userData.initialRotation` */
    var initialRotation: real

    /** `createBasicObject` (loaders/ModelLoader.js). */
    constructor (position: Vec3, scale: real, rotation: real)
      ensures this.position == position && this.scale == scale
      ensures rotationY == rotation && initialRotation == rotation
      ensures initialScaleFactor == None
    {
      this.position := position;
      this.scale := scale;
      rotationY := rotation;
      initialRotation := rotation;
      initialScaleFactor := None;
    }
  }

  /** What `handleAddObject` hands to the model loader. */
  datatype AddRequest =
    | LoadGltf(url: string, position: Vec3, scale: real, rotation: real)
    | LoadFbx(url: string, position: Vec3, scale: real, rotation: real)
    | Basic(kind: string)

  /** The dispatch on the type field: 'custom' loads GLTF, 'fbx' loads FBX, and any other
      value builds a basic object in place. */
  function Dispatch(kind: string, url: string, position: Vec3, scale: real, rotation: real): (r: AddRequest)
    ensures kind == "custom" <==> r.LoadGltf?
    ensures kind == "fbx" <==> r.LoadFbx?
    ensures r.Basic? ==> r.kind == kind
    ensures !r.Basic? ==> r.url == url && r.position == position && r.scale == scale && r.rotation == rotation
  {
    if kind == "custom" then LoadGltf(url, position, scale, rotation)
    else if kind == "fbx" then LoadFbx(url, position, scale, rotation)
    else Basic(kind)
  }

  /** The part of the editor scene the listeners touch. */
  class ObjectScene {
    var sceneObjects: seq<SceneObject>
    var objectsGroup: seq<SceneObject>
    var videoPlane: SceneObject?

    constructor (videoPlane: SceneObject?)
      ensures sceneObjects == [] && objectsGroup == [] && this.videoPlane == videoPlane
    {
      sceneObjects := [];
      objectsGroup := [];
      this.videoPlane := videoPlane;
    }

    /** The tail of the position `input` listener: every object except the video plane goes to
        the position read back from the three fields. */
    method ApplyPosition(p: Vec3)
      modifies set o | o in sceneObjects
      ensures forall o :: o in sceneObjects && o != videoPlane ==> o.position == p
      ensures forall o :: o in sceneObjects ==>
        o.scale == old(o.scale) && o.rotationY == old(o.rotationY) && o.initialRotation == old(o.initialRotation)
        && o.initialScaleFactor == old(o.initialScaleFactor)
      ensures videoPlane != null && videoPlane in sceneObjects ==> videoPlane.position == old(videoPlane.position)
    {
      var i := 0;
      while i < |sceneObjects|
        invariant 0 <= i <= |sceneObjects|
        invariant forall j :: 0 <= j < i && sceneObjects[j] != videoPlane ==> sceneObjects[j].position == p
        invariant forall o :: o in sceneObjects ==>
          o.scale == old(o.scale) && o.rotationY == old(o.rotationY) && o.initialRotation == old(o.initialRotation)
          && o.initialScaleFactor == old(o.initialScaleFactor)
        invariant videoPlane != null && videoPlane in sceneObjects ==> videoPlane.position == old(videoPlane.position)
      {
        var o := sceneObjects[i];
        if o != videoPlane {
          o.position := p;
        }
        i := i + 1;
      }
    }

    /** The scale listener: every object, the video plane included, becomes
        `(initialScaleFactor || 1) * newScale`. */
    method ApplyScale(newScale: real)
      modifies set o | o in sceneObjects
      ensures forall o :: o in sceneObjects ==> o.scale == NumberOr(o.initialScaleFactor, 1.0) * newScale
      ensures forall o :: o in sceneObjects ==>
        o.position == old(o.position) && o.rotationY == old(o.rotationY) && o.initialScaleFactor == old(o.initialScaleFactor)
        && o.initialRotation == old(o.initialRotation)
    {
      var i := 0;
      while i < |sceneObjects|
        invariant 0 <= i <= |sceneObjects|
        invariant forall j :: 0 <= j < i ==>
          sceneObjects[j].scale == NumberOr(sceneObjects[j].initialScaleFactor, 1.0) * newScale
        invariant forall o :: o in sceneObjects ==>
          o.position == old(o.position) && o.rotationY == old(o.rotationY) && o.initialScaleFactor == old(o.initialScaleFactor)
          && o.initialRotation == old(o.initialRotation)
      {
        var o := sceneObjects[i];
        o.scale := NumberOr(o.initialScaleFactor, 1.0) * newScale;
        i := i + 1;
      }
    }

    /** The rotation listener: every object except the video plane turns to the slider angle
        about y and remembers it as its initial rotation. */
    method ApplyRotation(degrees: real)
      modifies set o | o in sceneObjects
      ensures forall o :: o in sceneObjects && o != videoPlane ==>
        o.rotationY == DegToRad(degrees) && o.initialRotation == DegToRad(degrees)
      ensures videoPlane != null && videoPlane in sceneObjects ==>
        videoPlane.rotationY == old(videoPlane.rotationY) && videoPlane.initialRotation == old(videoPlane.initialRotation)
      ensures forall o :: o in sceneObjects ==>
        o.position == old(o.position) && o.scale == old(o.scale)
        && o.initialScaleFactor == old(o.initialScaleFactor)
    {
      var radians := DegToRad(degrees);
      var i := 0;
      while i < |sceneObjects|
        invariant 0 <= i <= |sceneObjects|
        invariant forall j :: 0 <= j < i && sceneObjects[j] != videoPlane ==>
          sceneObjects[j].rotationY == radians && sceneObjects[j].initialRotation == radians
        invariant videoPlane != null && videoPlane in sceneObjects ==>
          videoPlane.rotationY == old(videoPlane.rotationY) && videoPlane.initialRotation == old(videoPlane.initialRotation)
        invariant forall o :: o in sceneObjects ==>
          o.position == old(o.position) && o.scale == old(o.scale)
          && o.initialScaleFactor == old(o.initialScaleFactor)
      {
        var o := sceneObjects[i];
        if o != videoPlane {
          o.rotationY := radians;
          o.initialRotation := radians;
        }
        i := i + 1;
      }
    }

    /** `handleAddObject`: a loader request for 'custom' and 'fbx'; any other type appends one
        basic object to both `objectsGroup` and `sceneObjects`. */
    method HandleAddObject(kind: string, url: string, px: Option<real>, py: Option<real>, pz: Option<real>,
                           scale: real, degrees: real) returns (r: AddRequest, created: SceneObject?)
      modifies this
      ensures r == Dispatch(kind, url, FieldPosition(px, py, pz), scale, DegToRad(degrees))
      ensures r.Basic? ==>
        && created != null && fresh(created)
        && sceneObjects == old(sceneObjects) + [created] && objectsGroup == old(objectsGroup) + [created]
        && created.position == FieldPosition(px, py, pz) && created.scale == scale
        && created.rotationY == DegToRad(degrees) && created.initialRotation == DegToRad(degrees)
      ensures !r.Basic? ==> created == null && sceneObjects == old(sceneObjects) && objectsGroup == old(objectsGroup)
      ensures videoPlane == old(videoPlane)
    {
      var position := FieldPosition(px, py, pz);
      var rotation := DegToRad(degrees);
      r := Dispatch(kind, url, position, scale, rotation);
      created := null;
      if r.Basic? {
        created := new SceneObject(position, scale, rotation);
        objectsGroup := objectsGroup + [created];
        sceneObjects := sceneObjects + [created];
      }
    }
  }

  /** The position `input` listener: the edited field gets the sanitised text, then the three
      fields are parsed (the parse results are `px`, `py`, `pz`) and applied. */
  class PositionFields {
    var fieldX: string
    var fieldY: string
    var fieldZ: string
    const scene: ObjectScene

    constructor (scene: ObjectScene)
      ensures fieldX == "" && fieldY == "" && fieldZ == "" && this.scene == scene
    {
      fieldX, fieldY, fieldZ := "", "", "";
      this.scene := scene;
    }

    method OnInput(axis: Axis, raw: string, px: Option<real>, py: Option<real>, pz: Option<real>)
      modifies this, set o | o in scene.sceneObjects
      ensures axis == X ==> fieldX == Sanitise(raw) && fieldY == old(fieldY) && fieldZ == old(fieldZ)
      ensures axis == Y ==> fieldY == Sanitise(raw) && fieldX == old(fieldX) && fieldZ == old(fieldZ)
      ensures axis == Z ==> fieldZ == Sanitise(raw) && fieldX == old(fieldX) && fieldY == old(fieldY)
      ensures forall o :: o in scene.sceneObjects && o != scene.videoPlane ==> o.position == FieldPosition(px, py, pz)
      ensures forall o :: o in scene.sceneObjects ==>
        o.scale == old(o.scale) && o.rotationY == old(o.rotationY) && o.initialRotation == old(o.initialRotation)
        && o.initialScaleFactor == old(o.initialScaleFactor)
      ensures scene.videoPlane != null && scene.videoPlane in scene.sceneObjects ==>
        scene.videoPlane.position == old(scene.videoPlane.position)
    {
      var text := Sanitise(raw);
      match axis {
        case X => fieldX := text;
        case Y => fieldY := text;
        case Z => fieldZ := text;
      }
      scene.ApplyPosition(FieldPosition(px, py, pz));
    }
  }
}
