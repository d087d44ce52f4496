/** multi-with-glb/src/components/RemoteUser.tsx: the receiver side of pose sync. `handleData`
    decodes 'position' messages into the avatar state; the frame callback hides a silent avatar
    after 5 s and otherwise moves the avatar and its controllers toward the last pose with
    the unclamped factor `delta * 15`. */
module RemoteUser {
  import opened Common
  import opened PoseSync

  const LivenessMs: int := 5000
  const SmoothingRate: real := 15.0

  /** The `data` argument of the connection's 'data' listener. A 'position' message may lack
      its `controllers` field; the model's own senders always include it. */
  datatype Incoming =
    | PositionData(position: Vec3, rotation: Quat, controllers: Option<map<string, HandPose>>)
    | OtherData(kind: string)

  /** What a message sent by this repository's broadcasters looks like on arrival. */
  function Receive(m: Message): (r: Incoming)
    ensures m.Position? <==> r.PositionData?
  {
    match m
    case Position(d) => PositionData(d.position, d.rotation, Some(d.controllers))
    case Shoot(_, _, _) => OtherData("shoot")
    case ScreenState(_) => OtherData("screen-state")
    case PageChange(_) => OtherData("page-change")
  }

  datatype Grip = Grip(position: Vec3, rotation: Quat)
  datatype ControllerState = ControllerState(position: Vec3, rotation: Quat, grip: Grip)

  /** `UserState` */
  datatype UserState = UserState(position: Vec3, headRotation: Quat, controllers: map<string, ControllerState>)

  const InitialUser: UserState := UserState(Origin, Identity, map[])

  function DecodeHand(p: HandPose): ControllerState
  {
    ControllerState(p.position, p.rotation, Grip(p.gripPosition, p.gripRotation))
  }

  function EncodeHand(c: ControllerState): HandPose
  {
    HandPose(c.position, c.rotation, c.grip.position, c.grip.rotation)
  }

  /** The `reduce` over `Object.entries(data.data.controllers || {})`. */
  function DecodeControllers(cs: Option<map<string, HandPose>>): (r: map<string, ControllerState>)
    ensures cs.None? ==> r == map[]
    ensures cs.Some? ==> r.Keys == cs.value.Keys
    ensures cs.Some? ==> forall h :: h in r ==> EncodeHand(r[h]) == cs.value[h]
  {
    if cs.None? then map[] else map h | h in cs.value :: DecodeHand(cs.value[h])
  }

  /** `handleData`: only a 'position' message yields a new state. */
  function Decode(d: Incoming): (r: Option<UserState>)
    ensures r.Some? <==> d.PositionData?
    ensures d.PositionData? ==> r.value.position == d.position && r.value.headRotation == d.rotation
    ensures d.PositionData? && d.controllers.None? ==> r.value.controllers == map[]
  {
    if d.PositionData? then Some(UserState(d.position, d.rotation, DecodeControllers(d.controllers)))
    else None
  }

  /** The inverse direction: the pose data a state corresponds to. */
  function Encode(u: UserState): PoseData
  {
    PoseData(u.position, u.headRotation, map h | h in u.controllers :: EncodeHand(u.controllers[h]))
  }

  /** Decoding what a sender built recovers it exactly: head pose and every hand with its
      position, rotation, grip position and grip rotation. */
  lemma DecodeRoundTrip(d: PoseData)
    ensures Decode(Receive(Position(d))).Some?
    ensures Encode(Decode(Receive(Position(d))).value) == d
  {
    var u := Decode(Receive(Position(d))).value;
    var e := Encode(u);
    assert e.controllers.Keys == d.controllers.Keys;
    assert forall h :: h in e.controllers ==> e.controllers[h] == d.controllers[h];
  }

  /** `timeSinceLastUpdate > 5000` */
  predicate Stale(now: int, lastUpdateTime: int)
  {
    now - lastUpdateTime > LivenessMs
  }

  /** The displayed positions of the avatar and of its two controller groups. */
  datatype Display = Display(lerps: map<string, Vec3>, left: Vec3, right: Vec3)

  /** One iteration of the controller loop, as written: the ref is chosen by `hand === 'left'`
      but the smoothing slot is looked up by the hand itself; a missing slot is a TypeError. */
  function ControllerStep(d: Display, hand: string, c: ControllerState, user: Vec3, t: real,
                          leftMounted: bool, rightMounted: bool): Option<Display>
  {
    var mounted := if hand == "left" then leftMounted else rightMounted;
    if !mounted then Some(d)
    else if hand !in d.lerps then None
    else
      var p := LerpVec(d.lerps[hand], c.position.Sub(user), t);
      Some(Display(d.lerps[hand := p],
                   if hand == "left" then p else d.left,
                   if hand == "left" then d.right else p))
  }

  /** The loop over `Object.entries(userState.controllers)` in the order `hands`; a TypeError
      aborts the rest. */
  function ControllersFrame(d: Display, hands: seq<string>, u: UserState, t: real,
                            leftMounted: bool, rightMounted: bool): Option<Display>
    requires forall h :: h in hands ==> h in u.controllers
    decreases |hands|
  {
    if hands == [] then Some(d)
    else
      var prev := ControllersFrame(d, hands[..|hands| - 1], u, t, leftMounted, rightMounted);
      var h := hands[|hands| - 1];
      if prev.None? then None else ControllerStep(prev.value, h, u.controllers[h], u.position, t, leftMounted, rightMounted)
  }

  /** The display the loop leaves behind: everything the hands before a failing one wrote
      stays written, since each step updates the slots in place before the TypeError. */
  function Reached(d: Display, hands: seq<string>, u: UserState, t: real,
                   leftMounted: bool, rightMounted: bool): (r: Display)
    requires forall h :: h in hands ==> h in u.controllers
    ensures ControllersFrame(d, hands, u, t, leftMounted, rightMounted).Some? ==>
      r == ControllersFrame(d, hands, u, t, leftMounted, rightMounted).value
    ensures r.lerps.Keys == d.lerps.Keys
    decreases |hands|
  {
    if hands == [] then d
    else
      var init := hands[..|hands| - 1];
      var prev := ControllersFrame(d, init, u, t, leftMounted, rightMounted);
      var h := hands[|hands| - 1];
      if prev.None? then Reached(d, init, u, t, leftMounted, rightMounted)
      else
        var step := ControllerStep(prev.value, h, u.controllers[h], u.position, t, leftMounted, rightMounted);
        ControllersFrameKeys(d, init, u, t, leftMounted, rightMounted);
        if step.None? then prev.value else step.value
  }

  /** When the loop fails at hand `i`, the display is exactly what the first `i` hands made
      of it. */
  lemma {:induction false} ReachedAtFailure(d: Display, hands: seq<string>, i: nat, u: UserState, t: real, lm: bool, rm: bool)
    requires i < |hands| && forall h :: h in hands ==> h in u.controllers
    requires ControllersFrame(d, hands[..i], u, t, lm, rm).Some?
    requires ControllersFrame(d, hands[..i + 1], u, t, lm, rm).None?
    ensures Reached(d, hands, u, t, lm, rm) == ControllersFrame(d, hands[..i], u, t, lm, rm).value
    decreases |hands| - i
  {
    assert hands[..i + 1][..i] == hands[..i];
    if i + 1 < |hands| {
      assert hands[..i + 2][..i + 1] == hands[..i + 1];
      ReachedStays(d, hands, i + 1, u, t, lm, rm);
    } else {
      assert hands[..i + 1] == hands;
    }
  }

  /** Once the loop has failed on the first `i` hands, later hands change nothing. */
  lemma {:induction false} ReachedStays(d: Display, hands: seq<string>, i: nat, u: UserState, t: real, lm: bool, rm: bool)
    requires 0 < i <= |hands| && forall h :: h in hands ==> h in u.controllers
    requires ControllersFrame(d, hands[..i], u, t, lm, rm).None?
    ensures Reached(d, hands, u, t, lm, rm) == Reached(d, hands[..i], u, t, lm, rm)
    decreases |hands| - i
  {
    if i < |hands| {
      assert hands[..i + 1][..i] == hands[..i];
      ReachedStays(d, hands, i + 1, u, t, lm, rm);
    } else {
      assert hands[..i] == hands;
    }
  }

  /** The slot map keeps its keys through any loop that does not fail. */
  lemma {:induction false} ControllersFrameKeys(d: Display, hands: seq<string>, u: UserState, t: real, lm: bool, rm: bool)
    requires forall h :: h in hands ==> h in u.controllers
    ensures var r := ControllersFrame(d, hands, u, t, lm, rm);
      r.Some? ==> r.value.lerps.Keys == d.lerps.Keys
    decreases |hands|
  {
    if hands != [] {
      ControllersFrameKeys(d, hands[..|hands| - 1], u, t, lm, rm);
    }
  }

  /** With the two initial slots, hands 'left' and 'right' never fail. */
  lemma {:induction false} LeftRightNeverFail(d: Display, hands: seq<string>, u: UserState, t: real, lm: bool, rm: bool)
    requires forall h :: h in hands ==> h in u.controllers && h in d.lerps
    ensures ControllersFrame(d, hands, u, t, lm, rm).Some?
    decreases |hands|
  {
    if hands != [] {
      ControllersFrameKeys(d, hands[..|hands| - 1], u, t, lm, rm);
      LeftRightNeverFail(d, hands[..|hands| - 1], u, t, lm, rm);
    }
  }

  /** The input that shows it: a remote controller with handedness 'none' and a mounted
      right group makes the loop fail. */
  lemma NoneHandFails(d: Display, u: UserState, t: real, lm: bool)
    requires d.lerps.Keys == {"left", "right"}
    requires "none" in u.controllers
    ensures ControllersFrame(d, ["none"], u, t, lm, true).None?
  {
    var empty: seq<string> := [];
    assert ["none"][..0] == empty;
  }

  /** The evidently intended step: the slot follows the same left/other choice as the ref. */
  function Slot(hand: string): string
  {
    if hand == "left" then "left" else "right"
  }

  function ControllerStepFixed(d: Display, hand: string, c: ControllerState, user: Vec3, t: real,
                               leftMounted: bool, rightMounted: bool): (r: Display)
    requires "left" in d.lerps && "right" in d.lerps
    ensures r.lerps.Keys == d.lerps.Keys
    ensures 0.0 <= t <= 1.0 && hand == "left" && leftMounted ==>
      Between(d.lerps["left"], r.left, c.position.Sub(user)) && r.lerps["left"] == r.left && r.right == d.right
  {
    var mounted := if hand == "left" then leftMounted else rightMounted;
    if !mounted then d
    else
      var s := Slot(hand);
      var p := LerpVec(d.lerps[s], c.position.Sub(user), t);
      LerpVecBetweenWhen(d.lerps[s], c.position.Sub(user), t);
      Display(d.lerps[s := p], if s == "left" then p else d.left, if s == "left" then d.right else p)
  }

  lemma LerpVecBetweenWhen(a: Vec3, b: Vec3, t: real)
    ensures 0.0 <= t <= 1.0 ==> Between(a, LerpVec(a, b, t), b)
  {
    if 0.0 <= t <= 1.0 {
      LerpVecBetween(a, b, t);
    }
  }

  function ControllersFrameFixed(d: Display, hands: seq<string>, u: UserState, t: real,
                                 leftMounted: bool, rightMounted: bool): (r: Display)
    requires "left" in d.lerps && "right" in d.lerps
    requires forall h :: h in hands ==> h in u.controllers
    ensures r.lerps.Keys == d.lerps.Keys
    decreases |hands|
  {
    if hands == [] then d
    else
      var prev := ControllersFrameFixed(d, hands[..|hands| - 1], u, t, leftMounted, rightMounted);
      var h := hands[|hands| - 1];
      ControllerStepFixed(prev, h, u.controllers[h], u.position, t, leftMounted, rightMounted)
  }

  /** With the corrected lookup every hand is smoothed, a 'none' hand driving the right
      group, so the loop never fails; as written it agrees whenever only 'left' and 'right'
      occur. */
  lemma {:induction false} FixedAgreesOnLeftRight(d: Display, hands: seq<string>, u: UserState, t: real, lm: bool, rm: bool)
    requires d.lerps.Keys == {"left", "right"}
    requires forall h :: h in hands ==> h in u.controllers && (h == "left" || h == "right")
    ensures ControllersFrame(d, hands, u, t, lm, rm) == Some(ControllersFrameFixed(d, hands, u, t, lm, rm))
    decreases |hands|
  {
    if hands != [] {
      var init := hands[..|hands| - 1];
      var h := hands[|hands| - 1];
      assert forall x :: x in init ==> x in hands;
      assert h in hands;
      FixedAgreesOnLeftRight(d, init, u, t, lm, rm);
      var prev := ControllersFrameFixed(d, init, u, t, lm, rm);
      assert h in prev.lerps && Slot(h) == h;
      assert ControllerStep(prev, h, u.controllers[h], u.position, t, lm, rm)
          == Some(ControllerStepFixed(prev, h, u.controllers[h], u.position, t, lm, rm));
    }
  }

  datatype FrameOutcome = NotMounted | Hidden | Shown | Failed

  class Avatar {
    var userState: UserState
    var lastUpdateTime: int
    var visible: bool
    /** `positionLerp`, copied into the group's position. */
    var position: Vec3
    var display: Display

    /** Mount: nothing received yet, the clock starts at mount time, two smoothing slots. */
    constructor (mountTime: int)
      ensures userState == InitialUser && lastUpdateTime == mountTime && visible
      ensures position == Origin && display == Display(map["left" := Origin, "right" := Origin], Origin, Origin)
    {
      userState := InitialUser;
      lastUpdateTime := mountTime;
      visible := true;
      position := Origin;
      display := Display(map["left" := Origin, "right" := Origin], Origin, Origin);
    }

    /** `handleData` at time `now`. */
    method HandleData(now: int, d: Incoming)
      modifies this
      ensures d.PositionData? ==> lastUpdateTime == now && userState == Decode(d).value
      ensures !d.PositionData? ==> lastUpdateTime == old(lastUpdateTime) && userState == old(userState)
      ensures visible == old(visible) && position == old(position) && display == old(display)
    {
      var r := Decode(d);
      if r.Some? {
        lastUpdateTime := now;
        userState := r.value;
      }
    }

    /** The frame callback. `hands` is the order of `Object.entries(userState.controllers)`. */
    method Frame(now: int, delta: real, groupsMounted: bool, leftMounted: bool, rightMounted: bool, hands: seq<string>)
      returns (outcome: FrameOutcome)
      requires forall h :: h in hands <==> h in userState.controllers
      modifies this
      ensures userState == old(userState) && lastUpdateTime == old(lastUpdateTime)
      ensures !groupsMounted ==> outcome == NotMounted && visible == old(visible) && position == old(position) && display == old(display)
      ensures groupsMounted && Stale(now, lastUpdateTime) ==>
        outcome == Hidden && !visible && position == old(position) && display == old(display)
      ensures groupsMounted && !Stale(now, lastUpdateTime) ==>
        && visible
        && position == LerpVec(old(position), userState.position, delta * SmoothingRate)
        && var r := ControllersFrame(old(display), hands, userState, delta * SmoothingRate, leftMounted, rightMounted);
           (r.None? <==> outcome == Failed) && (r.Some? ==> outcome == Shown && display == r.value)
           && display == Reached(old(display), hands, userState, delta * SmoothingRate, leftMounted, rightMounted)
    {
      if !groupsMounted {
        return NotMounted;
      }
      if now - lastUpdateTime > LivenessMs {
        visible := false;
        return Hidden;
      }
      visible := true;
      var t := delta * SmoothingRate;
      position := LerpVec(position, userState.position, t);
      ghost var d0 := display;
      var i := 0;
      while i < |hands|
        invariant 0 <= i <= |hands|
        invariant forall h :: h in hands[..i] ==> h in userState.controllers
        invariant ControllersFrame(d0, hands[..i], userState, t, leftMounted, rightMounted) == Some(display)
        invariant visible && userState == old(userState) && lastUpdateTime == old(lastUpdateTime)
        invariant position == LerpVec(old(position), userState.position, t)
      {
        assert hands[..i + 1][..i] == hands[..i];
        var hand := hands[i];
        var c := userState.controllers[hand];
        var mounted := if hand == "left" then leftMounted else rightMounted;
        if mounted {
          if hand !in display.lerps {
            FailedStays(d0, hands, i, userState, t, leftMounted, rightMounted);
            ReachedAtFailure(d0, hands, i, userState, t, leftMounted, rightMounted);
            return Failed;
          }
          var p := LerpVec(display.lerps[hand], c.position.Sub(userState.position), t);
          display := Display(display.lerps[hand := p],
                             if hand == "left" then p else display.left,
                             if hand == "left" then display.right else p);
        }
        i := i + 1;
      }
      assert hands[..|hands|] == hands;
      return Shown;
    }

    /** The frame callback with the corrected slot lookup: it never fails, and a hand other
        than 'left' drives the right group through the right slot. */
    method FrameFixed(now: int, delta: real, groupsMounted: bool, leftMounted: bool, rightMounted: bool, hands: seq<string>)
      returns (outcome: FrameOutcome)
      requires forall h :: h in hands <==> h in userState.controllers
      requires "left" in display.lerps && "right" in display.lerps
      modifies this
      ensures outcome != Failed
      ensures display.lerps.Keys == old(display.lerps.Keys)
      ensures userState == old(userState) && lastUpdateTime == old(lastUpdateTime)
      ensures !groupsMounted ==> outcome == NotMounted && visible == old(visible) && position == old(position) && display == old(display)
      ensures groupsMounted && Stale(now, lastUpdateTime) ==>
        outcome == Hidden && !visible && position == old(position) && display == old(display)
      ensures groupsMounted && !Stale(now, lastUpdateTime) ==>
        && outcome == Shown && visible
        && position == LerpVec(old(position), userState.position, delta * SmoothingRate)
        && display == ControllersFrameFixed(old(display), hands, userState, delta * SmoothingRate, leftMounted, rightMounted)
    {
      if !groupsMounted {
        return NotMounted;
      }
      if now - lastUpdateTime > LivenessMs {
        visible := false;
        return Hidden;
      }
      visible := true;
      var t := delta * SmoothingRate;
      position := LerpVec(position, userState.position, t);
      ghost var d0 := display;
      var i := 0;
      while i < |hands|
        invariant 0 <= i <= |hands|
        invariant forall h :: h in hands[..i] ==> h in userState.controllers
        invariant display.lerps.Keys == d0.lerps.Keys
        invariant ControllersFrameFixed(d0, hands[..i], userState, t, leftMounted, rightMounted) == display
        invariant visible && userState == old(userState) && lastUpdateTime == old(lastUpdateTime)
        invariant position == LerpVec(old(position), userState.position, t)
      {
        assert hands[..i + 1][..i] == hands[..i];
        var hand := hands[i];
        var c := userState.controllers[hand];
        var mounted := if hand == "left" then leftMounted else rightMounted;
        if mounted {
          var s := Slot(hand);
          var p := LerpVec(display.lerps[s], c.position.Sub(userState.position), t);
          display := Display(display.lerps[s := p],
                             if s == "left" then p else display.left,
                             if s == "left" then display.right else p);
        }
        i := i + 1;
      }
      assert hands[..|hands|] == hands;
      return Shown;
    }
  }

  /** Once the loop has failed on a prefix, the whole loop fails. */
  lemma {:induction false} FailedStays(d: Display, hands: seq<string>, i: nat, u: UserState, t: real, lm: bool, rm: bool)
    requires i < |hands| && forall h :: h in hands ==> h in u.controllers
    requires ControllersFrame(d, hands[..i + 1], u, t, lm, rm).None?
    ensures ControllersFrame(d, hands, u, t, lm, rm).None?
    decreases |hands| - i
  {
    if i + 1 < |hands| {
      assert hands[..i + 2][..i + 1] == hands[..i + 1];
      FailedStays(d, hands, i + 1, u, t, lm, rm);
    } else {
      assert hands[..i + 1] == hands;
    }
  }

  /** An avatar that heard a 'position' message at `t0` is shown on every frame up to
      `t0 + 5000` and hidden on every later frame until the next one; other messages do
      not keep it alive. */
  lemma LivenessWindow(t0: int, now: int)
    ensures Stale(now, t0) <==> now > t0 + LivenessMs
  {
  }

  /** The avatar lands between its old and its target position exactly when the factor
      `delta * 15` lies in [0, 1]; a frame longer than 1/15 s overshoots. */
  lemma SmoothingStaysBetween(old_: real, target: real, delta: real)
    requires old_ != target
    ensures (old_ <= Lerp(old_, target, delta * SmoothingRate) <= target ||
             target <= Lerp(old_, target, delta * SmoothingRate) <= old_)
            <==> 0.0 <= delta * SmoothingRate <= 1.0
  {
    if 0.0 <= delta * SmoothingRate <= 1.0 {
      LerpBetween(old_, target, delta * SmoothingRate);
    }
    if old_ <= Lerp(old_, target, delta * SmoothingRate) <= target ||
       target <= Lerp(old_, target, delta * SmoothingRate) <= old_ {
      LerpBetweenOnlyIf(old_, target, delta * SmoothingRate);
    }
  }

  /** A frame of 0.1 s moves the avatar one and a half times the distance to its target. */
  lemma LongFrameOvershoots()
    ensures Lerp(0.0, 1.0, 0.1 * SmoothingRate) == 1.5
  {
  }
}
