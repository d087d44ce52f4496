/** `useLocomotion` of the two multiplayer VRScene files: the thumbstick deadzone and the
    rate-limited 45-degree snap turn. The movement vector itself (a quaternion rotation and
    normalisation) is not modelled; the model only decides whether the player moves. */
module Locomotion {
  import opened Common

  const SnapAngle: real := PI / 4.0
  const SnapThreshold: real := 0.6
  const SnapIntervalMs: int := 200
  const MoveDeadzone: real := 0.1

  /** `gamepad.axes[2]`, `gamepad.axes[3]`; `None` is an absent axis. */
  datatype Sticks = Sticks(axis2: Option<real>, axis3: Option<real>)

  /** The snap turn for right-stick `x` at time `now`, or `None` when no turn happens. */
  function SnapTurn(x: real, now: int, lastRotation: int): (r: Option<real>)
    ensures r.Some? <==> Abs(x) > SnapThreshold && now - lastRotation > SnapIntervalMs
    ensures r.Some? && x > 0.0 ==> r.value == -SnapAngle
    ensures r.Some? && x < 0.0 ==> r.value == SnapAngle
  {
    if Abs(x) > SnapThreshold && now - lastRotation > SnapIntervalMs then
      Some(if x > 0.0 then -SnapAngle else SnapAngle)
    else None
  }

  /** `Math.abs(leftStick.x) > 0.1 || Math.abs(leftStick.y) > 0.1` */
  predicate Moves(x: real, y: real)
  {
    Abs(x) > MoveDeadzone || Abs(y) > MoveDeadzone
  }

  /** A stick inside the deadzone never moves the player, and a stick held past the snap
      threshold turns at most once in any 200 ms window. */
  lemma DeadzoneAndRate(x: real, y: real, x2: real, t1: int, t2: int, last: int)
    ensures -MoveDeadzone <= x <= MoveDeadzone && -MoveDeadzone <= y <= MoveDeadzone ==> !Moves(x, y)
    ensures SnapTurn(x, t1, last).Some? && t2 - t1 <= SnapIntervalMs ==> SnapTurn(x2, t2, t1).None?
  {
  }

  /** multi-with-glb: the snap is applied before movement and also accumulated in the
      `playerRotation` ref, which the movement direction uses. */
  class GlbLocomotion {
    var lastRotation: int
    var playerRotationY: real
    var playerRotation: real
    ghost const startYaw: real

    ghost predicate Valid()
      reads this
    {
      playerRotationY == startYaw + playerRotation
    }

    constructor (yaw: real)
      ensures Valid() && lastRotation == 0 && playerRotationY == yaw && playerRotation == 0.0
    {
      lastRotation := 0;
      playerRotationY := yaw;
      playerRotation := 0.0;
      startYaw := yaw;
    }

    /** One frame; `moves` says whether the player is moved this frame. */
    method Frame(hasPlayer: bool, left: Option<Sticks>, right: Option<Sticks>, now: int) returns (moves: bool)
      requires Valid()
      modifies this
      ensures Valid()
      ensures !(hasPlayer && left.Some? && right.Some?) ==>
        !moves && lastRotation == old(lastRotation) && playerRotationY == old(playerRotationY)
      ensures hasPlayer && left.Some? && right.Some? ==>
        var turn := SnapTurn(NumberOr(right.value.axis2, 0.0), now, old(lastRotation));
        && moves == Moves(NumberOr(left.value.axis2, 0.0), NumberOr(left.value.axis3, 0.0))
        && (turn.Some? ==> lastRotation == now && playerRotationY == old(playerRotationY) + turn.value)
        && (turn.None? ==> lastRotation == old(lastRotation) && playerRotationY == old(playerRotationY))
    {
      moves := false;
      if !(hasPlayer && left.Some? && right.Some?) {
        return;
      }
      var lx := NumberOr(left.value.axis2, 0.0);
      var ly := NumberOr(left.value.axis3, 0.0);
      var rx := NumberOr(right.value.axis2, 0.0);
      if Abs(rx) > SnapThreshold {
        if now - lastRotation > SnapIntervalMs {
          var amount := if rx > 0.0 then -SnapAngle else SnapAngle;
          playerRotationY := playerRotationY + amount;
          playerRotation := playerRotation + amount;
          lastRotation := now;
        }
      }
      moves := Abs(lx) > MoveDeadzone || Abs(ly) > MoveDeadzone;
    }
  }

  /** project-multi: movement first, then the snap, with no accumulated ref. */
  class MultiLocomotion {
    var lastRotation: int
    var playerRotationY: real

    constructor (yaw: real)
      ensures lastRotation == 0 && playerRotationY == yaw
    {
      lastRotation := 0;
      playerRotationY := yaw;
    }

    method Frame(hasPlayer: bool, left: Option<Sticks>, right: Option<Sticks>, now: int) returns (moves: bool)
      modifies this
      ensures !(hasPlayer && left.Some? && right.Some?) ==>
        !moves && lastRotation == old(lastRotation) && playerRotationY == old(playerRotationY)
      ensures hasPlayer && left.Some? && right.Some? ==>
        var turn := SnapTurn(NumberOr(right.value.axis2, 0.0), now, old(lastRotation));
        && moves == Moves(NumberOr(left.value.axis2, 0.0), NumberOr(left.value.axis3, 0.0))
        && (turn.Some? ==> lastRotation == now && playerRotationY == old(playerRotationY) + turn.value)
        && (turn.None? ==> lastRotation == old(lastRotation) && playerRotationY == old(playerRotationY))
    {
      moves := false;
      if !(hasPlayer && left.Some? && right.Some?) {
        return;
      }
      var lx := NumberOr(left.value.axis2, 0.0);
      var ly := NumberOr(left.value.axis3, 0.0);
      moves := Abs(lx) > MoveDeadzone || Abs(ly) > MoveDeadzone;
      var rx := NumberOr(right.value.axis2, 0.0);
      if Abs(rx) > SnapThreshold {
        if now - lastRotation > SnapIntervalMs {
          playerRotationY := playerRotationY + (if rx > 0.0 then -SnapAngle else SnapAngle);
          lastRotation := now;
        }
      }
    }
  }
}
