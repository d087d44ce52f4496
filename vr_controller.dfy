/** project/src/js/controllers/VRController.js: the two-controller grab machine. One
    trigger grabs the nearest registered ancestor of the object hit and drags it with
    twelve-fold gain; the other trigger, while held, turns it by four times the change in
    the controllers' horizontal separation. A released video plane has its pose saved. */
module VRController {
  import opened Common

  const MovementMultiplier: real := 12.0
  const RotationGain: real := 4.0
  const PositionSuffix: string := "_position"

  /** `controller1` (handedness 'right') and `controller2` (handedness 'left'). */
  datatype Hand = One | Two

  /** The entry `onTriggerEnd` writes to `localStorage` under `key`. */
  datatype SavedPose = SavedPose(key: string, position: Vec3, rotationY: real)

  /** The parent walk: the first object of the ancestor chain `path` (hit object first,
      root last) that is registered, or the root when none is. */
  function Climb(path: seq<nat>, registered: set<nat>): (r: nat)
    requires path != []
    ensures r < |path|
    ensures forall j :: 0 <= j < r ==> path[j] !in registered
    ensures r == |path| - 1 || path[r] in registered
    decreases |path|
  {
    if path[0] in registered || |path| == 1 then 0 else 1 + Climb(path[1..], registered)
  }

  /** The object the walk settles on is selectable exactly when some object on the chain
      is registered, and it is then the nearest registered ancestor. */
  lemma ClimbSelects(path: seq<nat>, registered: set<nat>)
    requires path != []
    ensures path[Climb(path, registered)] in registered <==> exists j :: 0 <= j < |path| && path[j] in registered
  {
  }

  /** The single-trigger drag: the controller's displacement since the grab, times 12, is
      added to where the object was grabbed. */
  function DragPosition(objectStart: Vec3, controllerStart: Vec3, controller: Vec3): (r: Vec3)
    ensures r.Sub(objectStart) == controller.Sub(controllerStart).Scale(MovementMultiplier)
  {
    objectStart.Add(controller.Sub(controllerStart).Scale(MovementMultiplier))
  }

  /** Bringing the controller back to where it grabbed puts the object back where it was. */
  lemma DragReturns(objectStart: Vec3, controllerStart: Vec3)
    ensures DragPosition(objectStart, controllerStart, controllerStart) == objectStart
  {
  }

  /** `(currentDistanceX - rotationStartX) * 4` */
  function RotationAngle(dx: real, start: real): real
  {
    (dx - start) * RotationGain
  }

  /** A run of two-trigger frames with separations `dxs`: the total turn and the final
      `rotationStartX`. */
  function RotateFrames(start: real, dxs: seq<real>): (real, real)
    decreases |dxs|
  {
    if dxs == [] then (0.0, start)
    else
      var r := RotateFrames(start, dxs[..|dxs| - 1]);
      (r.0 + RotationAngle(dxs[|dxs| - 1], r.1), dxs[|dxs| - 1])
  }

  /** The turns telescope: after any run of frames the object has turned by four times
      the difference between the last separation and the one recorded at the start. */
  lemma {:induction false} RotationTelescopes(start: real, dxs: seq<real>)
    requires dxs != []
    ensures RotateFrames(start, dxs).1 == dxs[|dxs| - 1]
    ensures RotateFrames(start, dxs).0 == RotationGain * (dxs[|dxs| - 1] - start)
    decreases |dxs|
  {
    if |dxs| > 1 {
      RotationTelescopes(start, dxs[..|dxs| - 1]);
    }
  }

  const HalfPi: real := PI / 2.0
  const FullTurn: real := 2.0 * PI

  /** An angle brought into [-pi, pi) by whole turns. */
  function Reduce(theta: real): (r: real)
    ensures -PI <= r < PI
    ensures (theta - r) / FullTurn == Turns(theta) as real
    ensures -PI <= theta < PI ==> r == theta
  {
    var k := Turns(theta);
    TurnsBounds(theta);
    theta - k as real * FullTurn
  }

  /** The whole turns `Reduce` takes off. */
  function Turns(theta: real): int
  {
    ((theta + PI) / FullTurn).Floor
  }

  lemma TurnsBounds(theta: real)
    ensures -PI <= theta - Turns(theta) as real * FullTurn < PI
    ensures -PI <= theta < PI ==> Turns(theta) == 0
  {
    var x := (theta + PI) / FullTurn;
    var k := Turns(theta);
    assert k as real <= x < k as real + 1.0;
    assert x * FullTurn == theta + PI;
    assert k as real * FullTurn <= theta + PI < k as real * FullTurn + FullTurn;
    if -PI <= theta < PI {
      assert 0.0 <= x < 1.0;
    }
  }

  /** `rotation.y` as three.js reads it back after `rotateY` turns of an object whose only
      rotation is about the vertical axis: the XYZ Euler extraction returns `asin(sin theta)`,
      the angle in [-pi/2, pi/2] with the same sine, and puts pi into x and z when the object
      faces backwards. */
  function EulerY(theta: real): (r: real)
    ensures -HalfPi <= r <= HalfPi
    ensures -HalfPi <= Reduce(theta) <= HalfPi ==> r == Reduce(theta)
    ensures Reduce(theta) > HalfPi ==> r == PI - Reduce(theta)
    ensures Reduce(theta) < -HalfPi ==> r == -PI - Reduce(theta)
  {
    var a := Reduce(theta);
    if a > HalfPi then PI - a else if a < -HalfPi then -PI - a else a
  }

  /** The read-back angle is the turn itself exactly when the object faces forwards; an
      object turned to 120 degrees reads back as 60. */
  lemma EulerYFolds(theta: real)
    requires -PI <= theta < PI
    ensures EulerY(theta) == theta <==> -HalfPi <= theta <= HalfPi
    ensures theta == 2.0 * PI / 3.0 ==> EulerY(theta) == PI / 3.0
  {
  }

  class Grabber {
    var selected: Option<nat>
    var selectedController: Option<Hand>
    var bothTriggersPressed: bool
    var rotationStartX: real
    /** Each controller's `userData.initialPosition`; absent when null. */
    var controllerStart: map<Hand, Vec3>
    /** Position, accumulated `rotateY` turn about the vertical axis (the object's true
        heading) and `userData.initialPosition` of each object. */
    var positions: map<nat, Vec3>
    var yaw: map<nat, real>
    /** Each object's `rotation.y` field: as set at creation until a `rotateY` turn makes
        three.js re-extract it from the heading. */
    var rotationY: map<nat, real>
    var objectStart: map<nat, Vec3>
    /** `scene.objects` together with `scene.objectsGroup.children`. */
    const registered: set<nat>
    /** `userData.videoId` of the video planes. */
    const videoIds: map<nat, string>

    ghost predicate Valid()
      reads this
    {
      && registered <= positions.Keys && registered <= yaw.Keys && registered <= rotationY.Keys
      && (selected.Some? <==> selectedController.Some?)
      && (selected.Some? ==> selected.value in registered && selected.value in objectStart
                             && selectedController.value in controllerStart)
    }

    /** Every object starts turned about the vertical axis only, so its heading and its
        `rotation.y` field agree. */
    constructor (objects: set<nat>, initialPositions: map<nat, Vec3>, initialYaw: map<nat, real>, videos: map<nat, string>)
      requires objects <= initialPositions.Keys && objects <= initialYaw.Keys
      ensures Valid()
      ensures selected == None && selectedController == None && !bothTriggersPressed && rotationStartX == 0.0
      ensures registered == objects && positions == initialPositions && yaw == initialYaw && videoIds == videos
      ensures rotationY == initialYaw
      ensures controllerStart == map[] && objectStart == map[]
    {
      selected := None;
      selectedController := None;
      bothTriggersPressed := false;
      rotationStartX := 0.0;
      controllerStart := map[];
      positions := initialPositions;
      yaw := initialYaw;
      rotationY := initialYaw;
      objectStart := map[];
      registered := objects;
      videoIds := videos;
    }

    static function PositionOf(c: Hand, c1: Vec3, c2: Vec3): Vec3
    {
      if c == One then c1 else c2
    }

    /** `onTriggerStart` from controller `c`. `path` is the first intersection's ancestor chain
        (empty when the ray hits nothing); `c1`, `c2` are the two controllers' positions. */
    method TriggerStart(c: Hand, path: seq<nat>, c1: Vec3, c2: Vec3)
      requires Valid()
      modifies this
      ensures Valid()
      ensures positions == old(positions) && yaw == old(yaw) && rotationY == old(rotationY)
      ensures old(selected).None? && path != [] && path[Climb(path, registered)] in registered ==>
        var o := path[Climb(path, registered)];
        && selected == Some(o) && selectedController == Some(c)
        && controllerStart == old(controllerStart)[c := PositionOf(c, c1, c2)]
        && objectStart == old(objectStart)[o := positions[o]]
        && bothTriggersPressed == old(bothTriggersPressed) && rotationStartX == old(rotationStartX)
      ensures old(selected).None? && (path == [] || path[Climb(path, registered)] !in registered) ==>
        && selected == old(selected) && selectedController == old(selectedController)
        && controllerStart == old(controllerStart) && objectStart == old(objectStart)
        && bothTriggersPressed == old(bothTriggersPressed) && rotationStartX == old(rotationStartX)
      ensures old(selected).Some? && old(selectedController) != Some(c) ==>
        && bothTriggersPressed && rotationStartX == c1.x - c2.x
        && selected == old(selected) && selectedController == old(selectedController)
        && controllerStart == old(controllerStart) && objectStart == old(objectStart)
      ensures old(selected).Some? && old(selectedController) == Some(c) ==>
        && bothTriggersPressed == old(bothTriggersPressed) && rotationStartX == old(rotationStartX)
        && selected == old(selected) && selectedController == old(selectedController)
        && controllerStart == old(controllerStart) && objectStart == old(objectStart)
    {
      if selected.None? {
        if |path| > 0 {
          var i := 0;
          while i < |path| - 1 && path[i] !in registered
            invariant 0 <= i < |path|
            invariant forall j :: 0 <= j < i ==> path[j] !in registered
          {
            i := i + 1;
          }
          ClimbIsFirst(path, registered, i);
          var o := path[i];
          if o in registered {
            selected := Some(o);
            selectedController := Some(c);
            controllerStart := controllerStart[c := PositionOf(c, c1, c2)];
            objectStart := objectStart[o := positions[o]];
          }
        }
      } else if selectedController != Some(c) {
        bothTriggersPressed := true;
        rotationStartX := c1.x - c2.x;
      }
    }

    /** `onTriggerEnd` from controller `c`; `saved` is the `localStorage` write, if any. It
        stores the `rotation.y` field, which after a turn is the Euler read-back of the
        heading; the x and z angles are not saved. */
    method TriggerEnd(c: Hand) returns (saved: Option<SavedPose>)
      requires Valid()
      modifies this
      ensures Valid()
      ensures positions == old(positions) && yaw == old(yaw) && rotationY == old(rotationY)
      ensures objectStart == old(objectStart)
      ensures rotationStartX == old(rotationStartX) && !bothTriggersPressed
      ensures old(selectedController) == Some(c) ==>
        && selected == None && selectedController == None
        && controllerStart == old(controllerStart) - {c}
        && var o := old(selected).value;
           (o in videoIds && videoIds[o] != "" ==>
              saved == Some(SavedPose(videoIds[o] + PositionSuffix, positions[o], rotationY[o])))
           && (!(o in videoIds && videoIds[o] != "") ==> saved == None)
      ensures old(selectedController) != Some(c) ==>
        && saved == None && selected == old(selected) && selectedController == old(selectedController)
        && controllerStart == old(controllerStart)
    {
      saved := None;
      if selectedController == Some(c) {
        if selected.Some? {
          var o := selected.value;
          if o in videoIds && videoIds[o] != "" {
            saved := Some(SavedPose(videoIds[o] + PositionSuffix, positions[o], rotationY[o]));
          }
        }
        selected := None;
        selectedController := None;
        bothTriggersPressed := false;
        controllerStart := controllerStart - {c};
      } else {
        bothTriggersPressed := false;
      }
    }

    /** `updateVRInteractions`, once per rendered frame. */
    method Update(c1: Vec3, c2: Vec3)
      requires Valid()
      modifies this
      ensures Valid()
      ensures selected == old(selected) && selectedController == old(selectedController)
      ensures bothTriggersPressed == old(bothTriggersPressed)
      ensures controllerStart == old(controllerStart) && objectStart == old(objectStart)
      ensures selected.None? ==>
        positions == old(positions) && yaw == old(yaw) && rotationY == old(rotationY) && rotationStartX == old(rotationStartX)
      ensures selected.Some? && !bothTriggersPressed ==>
        var o := selected.value;
        var h := selectedController.value;
        && positions == old(positions)[o := DragPosition(objectStart[o], controllerStart[h], PositionOf(h, c1, c2))]
        && yaw == old(yaw) && rotationY == old(rotationY) && rotationStartX == old(rotationStartX)
      ensures selected.Some? && bothTriggersPressed ==>
        var o := selected.value;
        && yaw == old(yaw)[o := old(yaw)[o] + RotationAngle(c1.x - c2.x, old(rotationStartX))]
        && rotationY == old(rotationY)[o := EulerY(yaw[o])]
        && rotationStartX == c1.x - c2.x && positions == old(positions)
    {
      if selected.None? || selectedController.None? {
        return;
      }
      var o := selected.value;
      var h := selectedController.value;
      if !bothTriggersPressed {
        positions := positions[o := DragPosition(objectStart[o], controllerStart[h], PositionOf(h, c1, c2))];
      } else {
        var dx := c1.x - c2.x;
        yaw := yaw[o := yaw[o] + RotationAngle(dx, rotationStartX)];
        rotationY := rotationY[o := EulerY(yaw[o])];
        rotationStartX := dx;
      }
    }
  }

  lemma ClimbIsFirst(path: seq<nat>, registered: set<nat>, i: nat)
    requires i < |path|
    requires forall j :: 0 <= j < i ==> path[j] !in registered
    requires i == |path| - 1 || path[i] in registered
    ensures Climb(path, registered) == i
  {
  }
}
