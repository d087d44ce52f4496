/** project/src/js/controllers/GyroController.js: compass unwrapping and exponential smoothing
    of device-orientation readings, the reset, and the on/off toggle. */
module GyroController {
  import opened Common

  const Wrap: real := 360.0
  const HalfTurn: real := 180.0
  const SmoothingFactor: real := 0.1

  /** One `deviceorientation` event, in degrees; a device without the sensor reports
      `null`, here `None`. */
  datatype Reading = Reading(alpha: Option<real>, beta: Option<real>, gamma: Option<real>)

  /** A reading as the handler's arithmetic sees it: `null` counts as 0. */
  function AsNumber(v: Option<real>): real
  {
    OrDefault(v, 0.0)
  }

  /** The fields the handler reads and writes. A `null` stored in `previousAlpha` is only
      ever read by arithmetic, so it is kept as 0. */
  datatype GyroState = GyroState(
    active: bool,
    initialAlpha: Option<real>,
    currentAlpha: real,
    previousAlpha: real,
    rotationOffset: real,
    lastAlpha: real,
    lastBeta: real,
    lastGamma: real)

  /** The offset change of one unwrap step: a jump of more than half a turn is taken to be a
      crossing of north. */
  function OffsetStep(previous: real, alpha: real): (r: real)
    ensures Abs(alpha - previous) <= HalfTurn ==> r == 0.0
    ensures Abs(alpha - previous) > HalfTurn && alpha < previous ==> r == Wrap
    ensures Abs(alpha - previous) > HalfTurn && alpha >= previous ==> r == -Wrap
  {
    if Abs(alpha - previous) > HalfTurn then (if alpha < previous then Wrap else -Wrap) else 0.0
  }

  /** `old * (1 - 0.1) + new * 0.1` */
  function Smooth(old_: real, new_: real): (r: real)
    ensures new_ - r == (1.0 - SmoothingFactor) * (new_ - old_)
  {
    old_ * (1.0 - SmoothingFactor) + new_ * SmoothingFactor
  }

  /** `handleDeviceOrientation`, except for the camera update. The first reading after a
      reset stores its alpha as the initial one; a `null` alpha stored there leaves the
      initial alpha unset, so the next reading is taken as the first again. */
  function Handle(s: GyroState, e: Reading): (r: GyroState)
    ensures !s.active ==> r == s
    ensures s.active && s.initialAlpha.None? && e.alpha.None? ==> r == s.(previousAlpha := 0.0)
    ensures s.active && s.initialAlpha.None? && e.alpha.Some? ==>
      r == s.(initialAlpha := e.alpha, previousAlpha := e.alpha.value)
    ensures s.active && s.initialAlpha.Some? ==>
      && r.rotationOffset == s.rotationOffset + OffsetStep(s.previousAlpha, AsNumber(e.alpha))
      && r.currentAlpha == AsNumber(e.alpha) + r.rotationOffset
      && r.previousAlpha == AsNumber(e.alpha)
      && r.lastAlpha == Smooth(s.lastAlpha, DegToRad(-r.currentAlpha))
      && r.lastBeta == Smooth(s.lastBeta, DegToRad(AsNumber(e.beta) - 90.0))
      && r.lastGamma == Smooth(s.lastGamma, DegToRad(AsNumber(e.gamma)))
      && r.active == s.active && r.initialAlpha == s.initialAlpha
  {
    if !s.active then s
    else if s.initialAlpha.None? then s.(initialAlpha := e.alpha, previousAlpha := AsNumber(e.alpha))
    else
      var alpha := AsNumber(e.alpha);
      var offset := s.rotationOffset + OffsetStep(s.previousAlpha, alpha);
      var current := alpha + offset;
      GyroState(s.active, s.initialAlpha, current, alpha, offset,
                Smooth(s.lastAlpha, DegToRad(-current)),
                Smooth(s.lastBeta, DegToRad(AsNumber(e.beta) - 90.0)),
                Smooth(s.lastGamma, DegToRad(AsNumber(e.gamma))))
  }

  /** Before the first reading is stored, a reading without alpha changes nothing that a
      later reading can see: whatever follows is handled as if it had not happened. */
  lemma NullAlphaWaits(s: GyroState, e: Reading, next: Reading)
    requires s.active && s.initialAlpha.None? && e.alpha.None?
    ensures Handle(s, e).initialAlpha.None?
    ensures Handle(Handle(s, e), next) == Handle(s, next)
  {
  }

  /** `resetGyroscope` */
  function Reset(s: GyroState): (r: GyroState)
    ensures r.active == s.active && r.initialAlpha.None?
    ensures r.currentAlpha == 0.0 && r.previousAlpha == 0.0 && r.rotationOffset == 0.0
    ensures r.lastAlpha == 0.0 && r.lastBeta == 0.0 && r.lastGamma == 0.0
  {
    GyroState(s.active, None, 0.0, 0.0, 0.0, 0.0, 0.0, 0.0)
  }

  /** The handler run over a series of events. */
  function Run(s: GyroState, es: seq<Reading>): GyroState
    decreases |es|
  {
    if es == [] then s else Handle(Run(s, es[..|es| - 1]), es[|es| - 1])
  }

  /** The number of whole turns one event adds to the offset, counted independently. */
  function TurnStep(s: GyroState, e: Reading): int
  {
    if !s.active || s.initialAlpha.None? || Abs(AsNumber(e.alpha) - s.previousAlpha) <= HalfTurn then 0
    else if AsNumber(e.alpha) < s.previousAlpha then 1 else -1
  }

  function Turns(s: GyroState, es: seq<Reading>): int
    decreases |es|
  {
    if es == [] then 0 else Turns(s, es[..|es| - 1]) + TurnStep(Run(s, es[..|es| - 1]), es[|es| - 1])
  }

  /** The offset only ever moves by whole turns: after any events it is the starting offset
      plus 360 times a whole number, so from a reset it is a multiple of 360. */
  lemma {:induction false} OffsetWholeTurns(s: GyroState, es: seq<Reading>)
    ensures Run(s, es).rotationOffset == s.rotationOffset + Wrap * (Turns(s, es) as real)
    decreases |es|
  {
    if es != [] {
      var init := es[..|es| - 1];
      OffsetWholeTurns(s, init);
      var p := Run(s, init);
      var e := es[|es| - 1];
      assert Handle(p, e).rotationOffset == p.rotationOffset + Wrap * (TurnStep(p, e) as real);
    }
  }

  /** Between two processed events the unwrapped angle agrees with the last reading. */
  predicate Tracking(s: GyroState)
  {
    s.active && s.initialAlpha.Some? && s.currentAlpha == s.previousAlpha + s.rotationOffset
  }

  /** For compass readings in [0, 360) the unwrapped angle never jumps by more than half a
      turn between processed events, and the agreement is kept. */
  lemma UnwrapContinuous(s: GyroState, e: Reading)
    requires Tracking(s) && 0.0 <= s.previousAlpha < Wrap && 0.0 <= AsNumber(e.alpha) < Wrap
    ensures Tracking(Handle(s, e))
    ensures Abs(Handle(s, e).currentAlpha - s.currentAlpha) <= HalfTurn
  {
  }

  /** Any processed event that follows the first one after a reset leaves the angle
      tracking the reading. */
  lemma ProcessedTracks(s: GyroState, e: Reading)
    requires s.active && s.initialAlpha.Some?
    ensures Tracking(Handle(s, e))
  {
  }

  /** The handler run `n` times on the same event, as `n` attached listeners do. */
  function HandleTimes(s: GyroState, e: Reading, n: nat): GyroState
  {
    if n == 0 then s else Handle(HandleTimes(s, e, n - 1), e)
  }

  class Gyro {
    var isGyroActive: bool
    var initialAlpha: Option<real>
    var currentAlpha: real
    var previousAlpha: real
    var rotationOffset: real
    var lastGyroAlpha: real
    var lastGyroBeta: real
    var lastGyroGamma: real
    /** `deviceOrientationPermission` */
    var permission: bool
    /** How many `deviceorientation` listeners are attached. */
    var listeners: nat

    function State(): GyroState
      reads this
    {
      GyroState(isGyroActive, initialAlpha, currentAlpha, previousAlpha, rotationOffset,
                lastGyroAlpha, lastGyroBeta, lastGyroGamma)
    }

    /** The constructor; `permissionGranted` stands for the outcome of `init` (no permission
        API, or the user granting it). */
    constructor (permissionGranted: bool)
      ensures State() == GyroState(false, None, 0.0, 0.0, 0.0, 0.0, 0.0, 0.0)
      ensures permission == permissionGranted && listeners == 0
    {
      isGyroActive := false;
      initialAlpha := None;
      currentAlpha := 0.0;
      previousAlpha := 0.0;
      rotationOffset := 0.0;
      lastGyroAlpha := 0.0;
      lastGyroBeta := 0.0;
      lastGyroGamma := 0.0;
      permission := permissionGranted;
      listeners := 0;
    }

    /** One run of the handler. */
    method HandleDeviceOrientation(e: Reading)
      modifies this
      ensures State() == Handle(old(State()), e)
      ensures permission == old(permission) && listeners == old(listeners)
    {
      if !isGyroActive {
        return;
      }
      if initialAlpha.None? {
        initialAlpha := e.alpha;
        previousAlpha := AsNumber(e.alpha);
        return;
      }
      var alpha := AsNumber(e.alpha);
      if Abs(alpha - previousAlpha) > HalfTurn {
        if alpha < previousAlpha {
          rotationOffset := rotationOffset + Wrap;
        } else {
          rotationOffset := rotationOffset - Wrap;
        }
      }
      currentAlpha := alpha + rotationOffset;
      previousAlpha := alpha;
      var alphaRad := DegToRad(-currentAlpha);
      var betaRad := DegToRad(AsNumber(e.beta) - 90.0);
      var gammaRad := DegToRad(AsNumber(e.gamma));
      lastGyroAlpha := lastGyroAlpha * (1.0 - SmoothingFactor) + alphaRad * SmoothingFactor;
      lastGyroBeta := lastGyroBeta * (1.0 - SmoothingFactor) + betaRad * SmoothingFactor;
      lastGyroGamma := lastGyroGamma * (1.0 - SmoothingFactor) + gammaRad * SmoothingFactor;
    }

    /** A `deviceorientation` event reaches every attached listener in turn. */
    method OnOrientation(e: Reading)
      modifies this
      ensures State() == HandleTimes(old(State()), e, old(listeners))
      ensures permission == old(permission) && listeners == old(listeners)
    {
      var i := 0;
      while i < listeners
        invariant 0 <= i <= listeners && listeners == old(listeners) && permission == old(permission)
        invariant State() == HandleTimes(old(State()), e, i)
      {
        HandleDeviceOrientation(e);
        i := i + 1;
      }
    }

    /** `resetGyroscope` (also the reset button). */
    method ResetGyroscope()
      modifies this
      ensures State() == Reset(old(State()))
      ensures permission == old(permission) && listeners == old(listeners)
    {
      initialAlpha := None;
      currentAlpha := 0.0;
      previousAlpha := 0.0;
      rotationOffset := 0.0;
      lastGyroAlpha := 0.0;
      lastGyroBeta := 0.0;
      lastGyroGamma := 0.0;
    }

    /** The toggle's click listener, as written. Without permission `enableGyroscope` returns
        before attaching it, so a click does nothing. Switching on resets and attaches a fresh
        bound handler; switching off asks to remove another fresh bound handler, which was
        never attached, so nothing is removed. */
    method Toggle()
      modifies this
      ensures permission ==> (isGyroActive, listeners) == ToggleStep(old(isGyroActive), old(listeners))
      ensures permission == old(permission)
      ensures !permission ==> State() == old(State()) && listeners == old(listeners)
      ensures permission && isGyroActive ==> State() == Reset(old(State()).(active := true))
      ensures permission && !isGyroActive ==> State() == old(State()).(active := false)
    {
      if !permission {
        return;
      }
      isGyroActive := !isGyroActive;
      if isGyroActive {
        ResetGyroscope();
        listeners := listeners + 1;
      }
    }

    /** The toggle with the handler bound once and that same function removed: exactly one
        listener while active and none otherwise. */
    method ToggleFixed()
      modifies this
      ensures permission ==> (isGyroActive, listeners) == ToggleStepFixed(old(isGyroActive), old(listeners))
      ensures permission == old(permission)
      ensures !permission ==> State() == old(State()) && listeners == old(listeners)
      ensures permission && isGyroActive ==> State() == Reset(old(State()).(active := true))
      ensures permission && !isGyroActive ==> State() == old(State()).(active := false)
    {
      if !permission {
        return;
      }
      isGyroActive := !isGyroActive;
      if isGyroActive {
        ResetGyroscope();
        listeners := 1;
      } else {
        listeners := 0;
      }
    }
  }

  /** The toggle's effect on (active, attached listeners), as written and as corrected;
      the methods `Toggle` and `ToggleFixed` make exactly these steps. */
  function ToggleStep(active: bool, listeners: nat): (bool, nat)
  {
    (!active, if !active then listeners + 1 else listeners)
  }

  function ToggleStepFixed(active: bool, listeners: nat): (bool, nat)
  {
    (!active, if !active then 1 else 0)
  }

  /** The state after `n` clicks from the initial (off, no listener), permission granted. */
  function Toggles(n: nat, fixed: bool): (bool, nat)
  {
    if n == 0 then (false, 0)
    else
      var p := Toggles(n - 1, fixed);
      if fixed then ToggleStepFixed(p.0, p.1) else ToggleStep(p.0, p.1)
  }

  /** As written, every switch-on adds a listener that is never removed: after `n` clicks
      there are ceil(n / 2) of them. Corrected, there is one while active and none while
      inactive. */
  lemma {:induction false} ToggleListeners(n: nat)
    ensures Toggles(n, false).0 <==> n % 2 == 1
    ensures Toggles(n, false).1 == (n + 1) / 2
    ensures Toggles(n, true).1 == (if n % 2 == 1 then 1 else 0)
  {
    if n > 0 {
      ToggleListeners(n - 1);
    }
  }

  /** The input that shows it: on, off, on leaves two listeners, and a reading is then
      smoothed twice, moving the smoothed pitch 0.19 of the way instead of 0.1. */
  lemma DoubleListenerSmoothsTwice(s: GyroState, e: Reading)
    requires Tracking(s) && s.lastBeta == 0.0 && e.alpha == Some(s.previousAlpha)
    requires e.beta == Some(100.0)
    ensures Toggles(3, false).1 == 2
    ensures Handle(s, e).lastBeta == 0.1 * DegToRad(10.0)
    ensures HandleTimes(s, e, 2).lastBeta == 0.19 * DegToRad(10.0)
    ensures HandleTimes(s, e, 2) != Handle(s, e)
  {
    ToggleListeners(3);
    var once := Handle(s, e);
    assert HandleTimes(s, e, 1) == once;
    assert Tracking(once);
    assert HandleTimes(s, e, 2) == Handle(once, e);
  }

  /** With the corrected toggle each event runs the handler exactly once while active and
      not at all while inactive. */
  lemma FixedHandlesOnce(s: GyroState, e: Reading, n: nat)
    ensures Toggles(n, true).0 ==> HandleTimes(s, e, Toggles(n, true).1) == Handle(s, e)
    ensures !Toggles(n, true).0 ==> HandleTimes(s, e, Toggles(n, true).1) == s
  {
    ToggleListeners(n);
    assert HandleTimes(s, e, 1) == Handle(HandleTimes(s, e, 0), e);
    if n > 0 {
      ToggleListeners(n - 1);
    }
  }
}
