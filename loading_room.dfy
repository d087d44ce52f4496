/** multi-with-glb/src/components/LoadingRoom.tsx: the lobby's pose broadcaster, which also
    remembers the latest controller of each hand. */
module LoadingRoom {
  import opened Common
  import opened PoseSync

  /** `controllerRefs.current[hand] = controller` over all controllers, starting from `refs`. */
  function LatestRefs(refs: map<string, XRController>, cs: seq<XRController>): (r: map<string, XRController>)
    ensures forall h :: h in r <==> h in refs || exists k :: 0 <= k < |cs| && cs[k].hand == h
  {
    if cs == [] then refs
    else
      var init := cs[..|cs| - 1];
      assert forall k :: 0 <= k < |init| ==> init[k] == cs[k];
      LatestRefs(refs, init)[cs[|cs| - 1].hand := cs[|cs| - 1]]
  }

  /** The reference kept for a hand is the last controller with that handedness. */
  lemma {:induction false} LatestRefsLastWins(refs: map<string, XRController>, cs: seq<XRController>, k: nat)
    requires k < |cs|
    requires forall j :: k < j < |cs| ==> cs[j].hand != cs[k].hand
    ensures LatestRefs(refs, cs)[cs[k].hand] == cs[k]
    decreases |cs|
  {
    if k < |cs| - 1 {
      LatestRefsLastWins(refs, cs[..|cs| - 1], k);
    }
  }

  /** A hand absent from this frame keeps the controller recorded in an earlier frame. */
  lemma {:induction false} LatestRefsKeeps(refs: map<string, XRController>, cs: seq<XRController>, h: string)
    requires h in refs
    requires forall k :: 0 <= k < |cs| ==> cs[k].hand != h
    ensures LatestRefs(refs, cs)[h] == refs[h]
    decreases |cs|
  {
    if cs != [] {
      LatestRefsKeeps(refs, cs[..|cs| - 1], h);
    }
  }

  class Room {
    var lastUpdate: int
    /** The `controllerRefs` ref. */
    var controllerRefs: map<string, XRController>

    constructor (mountTime: int)
      ensures lastUpdate == mountTime && controllerRefs == map[]
    {
      lastUpdate := mountTime;
      controllerRefs := map[];
    }

    method Frame(now: int, hasPlayer: bool, controllers: seq<XRController>, links: seq<Link>,
                 headPosition: Vec3, headRotation: Quat)
      returns (out: seq<Sent>)
      modifies this
      ensures !hasPlayer || !FrameDue(now, old(lastUpdate)) ==>
        out == [] && lastUpdate == old(lastUpdate) && controllerRefs == old(controllerRefs)
      ensures hasPlayer && FrameDue(now, old(lastUpdate)) ==>
        && lastUpdate == now
        && controllerRefs == LatestRefs(old(controllerRefs), controllers)
        && out == OpenSends(links, PoseUpdate(headPosition, headRotation, controllers))
    {
      out := [];
      if !hasPlayer {
        return;
      }
      if now - lastUpdate < ThrottleMs {
        return;
      }
      lastUpdate := now;
      var controllersData: map<string, HandPose> := map[];
      var i := 0;
      while i < |controllers|
        invariant 0 <= i <= |controllers|
        invariant controllersData == ControllersMap(controllers[..i])
        invariant controllerRefs == LatestRefs(old(controllerRefs), controllers[..i])
        invariant lastUpdate == now
      {
        assert controllers[..i + 1][..i] == controllers[..i];
        var c := controllers[i];
        controllerRefs := controllerRefs[c.hand := c];
        controllersData := controllersData[c.hand := c.pose];
        i := i + 1;
      }
      assert controllers[..|controllers|] == controllers;
      var update := Position(PoseData(headPosition, headRotation, controllersData));
      out := Broadcast(links, update);
    }
  }
}
