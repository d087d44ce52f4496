/** project-multi/src/components/VRScene.tsx: the pose broadcaster's frame callback. The
    `useLocomotion` hook of the same file is modelled in module Locomotion. */
module MultiScene {
  import opened Common
  import opened PoseSync

  class Scene {
    /** The `lastUpdate` ref. */
    var lastUpdate: int

    constructor (mountTime: int)
      ensures lastUpdate == mountTime
    {
      lastUpdate := mountTime;
    }

    /** One frame: without a player or inside the 50 ms window nothing happens; otherwise one
        update holding every hand is sent to each open connection. `headPosition` and
        `headRotation` are the camera's world transform. */
    method Frame(now: int, hasPlayer: bool, controllers: seq<XRController>, links: seq<Link>,
                 headPosition: Vec3, headRotation: Quat)
      returns (out: seq<Sent>)
      modifies this
      ensures !hasPlayer || !FrameDue(now, old(lastUpdate)) ==> out == [] && lastUpdate == old(lastUpdate)
      ensures hasPlayer && FrameDue(now, old(lastUpdate)) ==>
        lastUpdate == now && out == OpenSends(links, PoseUpdate(headPosition, headRotation, controllers))
    {
      out := [];
      if !hasPlayer {
        return;
      }
      if now - lastUpdate < ThrottleMs {
        return;
      }
      lastUpdate := now;
      var controllersData := BuildControllersMap(controllers);
      var update := Position(PoseData(headPosition, headRotation, controllersData));
      out := Broadcast(links, update);
    }
  }

  /** A processed frame sends each open connection exactly one message, and that message
      holds a pose for every hand present and nothing else. */
  lemma FrameSendsOnePerOpenLink(links: seq<Link>, headPosition: Vec3, headRotation: Quat, controllers: seq<XRController>)
    ensures var out := OpenSends(links, PoseUpdate(headPosition, headRotation, controllers));
      && |out| == OpenCount(links)
      && (forall x :: x in out ==> x.msg.Position?)
      && (forall x, h :: x in out ==>
            (h in x.msg.data.controllers <==> exists k :: 0 <= k < |controllers| && controllers[k].hand == h))
  {
    OpenSendsCount(links, PoseUpdate(headPosition, headRotation, controllers));
  }
}
