/** The pose broadcaster shared by the multiplayer scenes (multi-with-glb VRScene and
    LoadingRoom, project-multi VRScene): the 50 ms frame throttle, the wire messages, the
    per-hand controller map and the send-to-open-connections fan-out. */
module PoseSync {
  import opened Common

  /** `if (now - lastUpdate.current < 50) return;` */
  const ThrottleMs: int := 50

  predicate FrameDue(now: int, lastUpdate: int)
  {
    !(now - lastUpdate < ThrottleMs)
  }

  /** The `lastUpdate` ref of a frame callback. */
  class FrameThrottle {
    var lastUpdate: int

    /** `useRef(Date.now())`: the mount time. */
    constructor (mountTime: int)
      ensures lastUpdate == mountTime
    {
      lastUpdate := mountTime;
    }

    method Tick(now: int) returns (due: bool)
      modifies this
      ensures due == FrameDue(now, old(lastUpdate))
      ensures due ==> lastUpdate == now
      ensures !due ==> lastUpdate == old(lastUpdate)
    {
      due := !(now - lastUpdate < ThrottleMs);
      if due {
        lastUpdate := now;
      }
    }
  }

  /** The frame times, out of `times`, that the throttle lets through when its last
      processed time is `last`. */
  function Processed(last: int, times: seq<int>): (r: seq<int>)
    ensures forall k :: 0 <= k < |r| ==> r[k] in times
    decreases |times|
  {
    if times == [] then []
    else if FrameDue(times[0], last) then [times[0]] + Processed(times[0], times[1..])
    else Processed(last, times[1..])
  }

  /** Each time is at least 50 ms after the one before it, the first after `last`. */
  predicate SpacedFrom(last: int, r: seq<int>)
    decreases |r|
  {
    r == [] || (r[0] - last >= ThrottleMs && SpacedFrom(r[0], r[1..]))
  }

  /** Processed frames are at least 50 ms apart, and the first is at least 50 ms after the
      last processed one, whatever order the clock readings come in. */
  lemma {:induction false} ProcessedSpacing(last: int, times: seq<int>)
    ensures SpacedFrom(last, Processed(last, times))
    decreases |times|
  {
    if times != [] {
      if FrameDue(times[0], last) {
        ProcessedSpacing(times[0], times[1..]);
        assert Processed(last, times)[1..] == Processed(times[0], times[1..]);
      } else {
        ProcessedSpacing(last, times[1..]);
      }
    }
  }

  /** One hand's pose as sent: `position`, `rotation`, `gripPosition`, `gripRotation`. */
  datatype HandPose = HandPose(position: Vec3, rotation: Quat, gripPosition: Vec3, gripRotation: Quat)

  /** `data` of a 'position' message; `controllers` is keyed by handedness. */
  datatype PoseData = PoseData(position: Vec3, rotation: Quat, controllers: map<string, HandPose>)

  /** The tagged messages the demos exchange. */
  datatype Message =
    | Position(data: PoseData)
    | Shoot(bulletId: int, position: Vec3, direction: Vec3)
    | ScreenState(showContent: bool)
    | PageChange(page: int)

  /** A connection as the broadcaster sees it: the value and its `open` flag. */
  datatype Link = Link(conn: Connection, open: bool)

  /** One `conn.send(message)` call. */
  datatype Sent = Sent(to: Connection, msg: Message)

  /** `connections.forEach(conn => { if (conn.open) conn.send(m) })`: one send per open
      connection, in the set's order, and none to a closed one. */
  function OpenSends(links: seq<Link>, m: Message): (r: seq<Sent>)
    ensures |r| <= |links|
    ensures forall x :: x in r ==> x.msg == m && Link(x.to, true) in links
    ensures forall l :: l in links && l.open ==> Sent(l.conn, m) in r
  {
    if links == [] then []
    else
      var init := links[..|links| - 1];
      var l := links[|links| - 1];
      assert forall x :: x in init ==> x in links;
      OpenSends(init, m) + (if l.open then [Sent(l.conn, m)] else [])
  }

  /** How many of the links are open. */
  function OpenCount(links: seq<Link>): nat
  {
    if links == [] then 0 else OpenCount(links[..|links| - 1]) + (if links[|links| - 1].open then 1 else 0)
  }

  /** Exactly one send per open connection. */
  lemma {:induction false} OpenSendsCount(links: seq<Link>, m: Message)
    ensures |OpenSends(links, m)| == OpenCount(links)
    decreases |links|
  {
    if links != [] {
      OpenSendsCount(links[..|links| - 1], m);
    }
  }

  /** The send loop. */
  method Broadcast(links: seq<Link>, m: Message) returns (out: seq<Sent>)
    ensures out == OpenSends(links, m)
  {
    out := [];
    var i := 0;
    while i < |links|
      invariant 0 <= i <= |links|
      invariant out == OpenSends(links[..i], m)
    {
      assert links[..i + 1][..i] == links[..i];
      if links[i].open {
        out := out + [Sent(links[i].conn, m)];
      }
      i := i + 1;
    }
    assert links[..|links|] == links;
  }

  /** A WebXR input source as the frame callbacks read it. `gamepad` is `None` when the
      source has none; `trigger` is `gamepad.buttons[0]?.value`. The world-space values are
      what `decompose` and `getWorldPosition` would produce. */
  datatype XRController = XRController(
    hand: string,
    pose: HandPose,
    gamepad: Option<Gamepad>,
    worldPosition: Vec3,
    aimDirection: Vec3)

  datatype Gamepad = Gamepad(trigger: Option<real>)

  /** `controllersData[hand] = pose` over all controllers: a later controller with the same
      handedness overwrites an earlier one. */
  function ControllersMap(cs: seq<XRController>): (r: map<string, HandPose>)
    ensures forall h :: h in r <==> exists k :: 0 <= k < |cs| && cs[k].hand == h
  {
    if cs == [] then map[]
    else
      var init := cs[..|cs| - 1];
      var c := cs[|cs| - 1];
      var m := ControllersMap(init);
      assert forall k :: 0 <= k < |init| ==> init[k] == cs[k];
      m[c.hand := c.pose]
  }

  /** The pose under each hand is that of the last controller with that handedness. */
  lemma {:induction false} ControllersMapLastWins(cs: seq<XRController>, k: nat)
    requires k < |cs|
    requires forall j :: k < j < |cs| ==> cs[j].hand != cs[k].hand
    ensures ControllersMap(cs)[cs[k].hand] == cs[k].pose
    decreases |cs|
  {
    if k < |cs| - 1 {
      var init := cs[..|cs| - 1];
      ControllersMapLastWins(init, k);
    }
  }

  /** The map-filling loop of the frame callbacks. */
  method BuildControllersMap(cs: seq<XRController>) returns (m: map<string, HandPose>)
    ensures m == ControllersMap(cs)
  {
    m := map[];
    var i := 0;
    while i < |cs|
      invariant 0 <= i <= |cs|
      invariant m == ControllersMap(cs[..i])
    {
      assert cs[..i + 1][..i] == cs[..i];
      m := m[cs[i].hand := cs[i].pose];
      i := i + 1;
    }
    assert cs[..|cs|] == cs;
  }

  /** The one 'position' update of a frame: head pose and every hand. */
  function PoseUpdate(headPosition: Vec3, headRotation: Quat, cs: seq<XRController>): (m: Message)
    ensures m.Position? && m.data.position == headPosition && m.data.rotation == headRotation
    ensures m.data.controllers == ControllersMap(cs)
  {
    Position(PoseData(headPosition, headRotation, ControllersMap(cs)))
  }
}
