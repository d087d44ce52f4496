/** multi-with-glb/src/components/VRScene.tsx: the shooting game's frame callback (throttle,
    rising-edge trigger detection, bullet ids, shoot and position fan-out), the effect that
    spawns the first targets and listens for remote shots, and the hit handlers. */
module GlbScene {
  import opened Common
  import opened PoseSync

  const MaxTargets: nat := 2
  const TriggerThreshold: real := 0.9

  datatype Bullet = Bullet(id: int, position: Vec3, direction: Vec3, owner: string)
  datatype TargetInfo = TargetInfo(id: nat, position: Vec3)

  /** `peerId || 'local'` */
  function Owner(peerId: Option<string>): (r: string)
    ensures peerId.Some? && peerId.value != "" ==> r == peerId.value
    ensures (peerId.None? || peerId.value == "") ==> r == "local"
  {
    if peerId.Some? && peerId.value != "" then peerId.value else "local"
  }

  /** `lastTriggerValues.current[hand] || 0` */
  function LastValue(last: map<string, real>, hand: string): real
  {
    if hand in last then last[hand] else 0.0
  }

  /** A hand fires on the rising edge of its trigger. */
  predicate Fires(value: real, lastValue: real)
  {
    value > TriggerThreshold && lastValue <= TriggerThreshold
  }

  /** The refs the trigger loop updates, and the bullets it fired in this frame. */
  datatype TriggerState = TriggerState(last: map<string, real>, nextBulletId: nat, fired: seq<Bullet>)

  /** One iteration of the trigger loop. */
  function TriggerStep(s: TriggerState, c: XRController, owner: string): TriggerState
  {
    if c.gamepad.None? then s
    else
      var value := NumberOr(c.gamepad.value.trigger, 0.0);
      if Fires(value, LastValue(s.last, c.hand)) then
        TriggerState(s.last[c.hand := value], s.nextBulletId + 1,
                     s.fired + [Bullet(s.nextBulletId, c.worldPosition, c.aimDirection, owner)])
      else
        TriggerState(s.last[c.hand := value], s.nextBulletId, s.fired)
  }

  /** The trigger loop over `controllers`, in order. */
  function TriggerFold(s: TriggerState, cs: seq<XRController>, owner: string): TriggerState
    decreases |cs|
  {
    if cs == [] then s else TriggerStep(TriggerFold(s, cs[..|cs| - 1], owner), cs[|cs| - 1], owner)
  }

  /** One more controller is one more step of the fold. */
  lemma TriggerFoldSnoc(s: TriggerState, cs: seq<XRController>, i: nat, owner: string)
    requires i < |cs|
    ensures TriggerFold(s, cs[..i + 1], owner) == TriggerStep(TriggerFold(s, cs[..i], owner), cs[i], owner)
  {
    assert cs[..i + 1][..i] == cs[..i];
  }

  /** The loop hands out consecutive ids from the counter: the k-th bullet fired gets
      `nextBulletId + k`, and the counter ends one past the last. */
  lemma {:induction false} TriggerFoldIds(s: TriggerState, cs: seq<XRController>, owner: string)
    ensures var r := TriggerFold(s, cs, owner);
      && |r.fired| >= |s.fired| && r.fired[..|s.fired|] == s.fired
      && r.nextBulletId == s.nextBulletId + (|r.fired| - |s.fired|)
      && (forall k :: |s.fired| <= k < |r.fired| ==> r.fired[k].id == s.nextBulletId + (k - |s.fired|))
      && (forall k :: |s.fired| <= k < |r.fired| ==> r.fired[k].owner == owner)
    decreases |cs|
  {
    if cs != [] {
      TriggerFoldIds(s, cs[..|cs| - 1], owner);
    }
  }

  /** After the loop, a hand that no gamepad controller carried keeps its recorded value. */
  lemma {:induction false} TriggerFoldKeeps(s: TriggerState, cs: seq<XRController>, owner: string, h: string)
    requires forall k :: 0 <= k < |cs| ==> cs[k].hand != h || cs[k].gamepad.None?
    ensures var r := TriggerFold(s, cs, owner);
      (h in r.last <==> h in s.last) && (h in s.last ==> r.last[h] == s.last[h])
    decreases |cs|
  {
    if cs != [] {
      TriggerFoldKeeps(s, cs[..|cs| - 1], owner, h);
    }
  }

  /** After the loop, each hand's recorded value is the trigger of the last controller with
      that hand and a gamepad. */
  lemma {:induction false} TriggerFoldRecords(s: TriggerState, cs: seq<XRController>, owner: string, k: nat)
    requires k < |cs| && cs[k].gamepad.Some?
    requires forall j :: k < j < |cs| ==> cs[j].hand != cs[k].hand || cs[j].gamepad.None?
    ensures cs[k].hand in TriggerFold(s, cs, owner).last
    ensures TriggerFold(s, cs, owner).last[cs[k].hand] == NumberOr(cs[k].gamepad.value.trigger, 0.0)
    decreases |cs|
  {
    var init := cs[..|cs| - 1];
    if k < |cs| - 1 {
      TriggerFoldRecords(s, init, owner, k);
    }
  }

  /** A trigger held down does not fire again: once a frame has recorded a value above the
      threshold for a hand, a controller of that hand fires only after the value has dropped
      to 0.9 or below in between. */
  lemma HeldTriggerFiresOnce(s: TriggerState, c1: XRController, c2: XRController, owner: string)
    requires c1.hand == c2.hand && c1.gamepad.Some? && c2.gamepad.Some?
    requires NumberOr(c1.gamepad.value.trigger, 0.0) > TriggerThreshold
    ensures TriggerStep(TriggerStep(s, c1, owner), c2, owner).fired == TriggerStep(s, c1, owner).fired
  {
  }

  /** The shoot messages sent for the bullets fired in one frame. */
  function ShootSends(links: seq<Link>, fired: seq<Bullet>): seq<Sent>
  {
    if fired == [] then []
    else
      var b := fired[|fired| - 1];
      ShootSends(links, fired[..|fired| - 1]) + OpenSends(links, Shoot(b.id, b.position, b.direction))
  }

  /** The position message for one controller: the player position, the camera rotation and
      only that controller's hand. */
  function HandMessage(playerPosition: Vec3, cameraRotation: Quat, c: XRController): (m: Message)
    ensures m.Position? && m.data.controllers.Keys == {c.hand}
    ensures m.data.position == playerPosition && m.data.rotation == cameraRotation
  {
    Position(PoseData(playerPosition, cameraRotation, map[c.hand := c.pose]))
  }

  /** The second loop: one position message per controller, each to every open connection. */
  function PositionSends(links: seq<Link>, cs: seq<XRController>, playerPosition: Vec3, cameraRotation: Quat): (r: seq<Sent>)
    ensures forall x :: x in r ==> x.msg.Position? && |x.msg.data.controllers| == 1
    ensures forall x :: x in r ==> Link(x.to, true) in links
  {
    if cs == [] then []
    else
      var c := cs[|cs| - 1];
      var m := HandMessage(playerPosition, cameraRotation, c);
      assert |m.data.controllers.Keys| == 1;
      PositionSends(links, cs[..|cs| - 1], playerPosition, cameraRotation) + OpenSends(links, m)
  }

  /** The second loop of the frame callback. */
  method SendPositions(cs: seq<XRController>, links: seq<Link>, playerPosition: Vec3, cameraRotation: Quat)
    returns (out: seq<Sent>)
    ensures out == PositionSends(links, cs, playerPosition, cameraRotation)
  {
    out := [];
    var i := 0;
    while i < |cs|
      invariant 0 <= i <= |cs|
      invariant out == PositionSends(links, cs[..i], playerPosition, cameraRotation)
    {
      assert cs[..i + 1][..i] == cs[..i];
      var sends := Broadcast(links, HandMessage(playerPosition, cameraRotation, cs[i]));
      out := out + sends;
      i := i + 1;
    }
    assert cs[..|cs|] == cs;
  }

  /** `handleBulletHit`: drop every bullet with that id. */
  function RemoveBullets(bs: seq<Bullet>, id: int): (r: seq<Bullet>)
    ensures forall b :: b in r <==> b in bs && b.id != id
    ensures |r| <= |bs|
  {
    if bs == [] then []
    else if bs[0].id == id then RemoveBullets(bs[1..], id)
    else [bs[0]] + RemoveBullets(bs[1..], id)
  }

  function RemoveTargets(ts: seq<TargetInfo>, id: nat): (r: seq<TargetInfo>)
    ensures forall t :: t in r <==> t in ts && t.id != id
    ensures |r| <= |ts|
    ensures (forall t :: t in ts ==> t.id != id) ==> r == ts
  {
    if ts == [] then []
    else if ts[0].id == id then RemoveTargets(ts[1..], id)
    else [ts[0]] + RemoveTargets(ts[1..], id)
  }

  /** `new Vector3((Math.random() - 0.5) * 16, 1.6, (Math.random() - 0.5) * 16)` for the two
      random draws `rx`, `rz` in [0, 1). */
  function SpawnPosition(rx: real, rz: real): (p: Vec3)
    requires 0.0 <= rx < 1.0 && 0.0 <= rz < 1.0
    ensures -8.0 <= p.x < 8.0 && p.y == 1.6 && -8.0 <= p.z < 8.0
  {
    Vec3((rx - 0.5) * 16.0, 1.6, (rz - 0.5) * 16.0)
  }

  /** `handleTargetHit`: remove the target; if fewer than two remain, append one with a fresh
      id. Returns the new list and the new counter. */
  function HitTarget(ts: seq<TargetInfo>, id: nat, nextTargetId: nat, spawn: Vec3): (r: (seq<TargetInfo>, nat))
    ensures var remaining := RemoveTargets(ts, id);
      && (|remaining| < MaxTargets ==> r == (remaining + [TargetInfo(nextTargetId, spawn)], nextTargetId + 1))
      && (|remaining| >= MaxTargets ==> r == (remaining, nextTargetId))
    ensures |ts| <= MaxTargets ==> 1 <= |r.0| <= MaxTargets
  {
    var remaining := RemoveTargets(ts, id);
    if |remaining| < MaxTargets then (remaining + [TargetInfo(nextTargetId, spawn)], nextTargetId + 1)
    else (remaining, nextTargetId)
  }

  predicate DistinctIds(ts: seq<TargetInfo>)
  {
    forall i, j :: 0 <= i < j < |ts| ==> ts[i].id != ts[j].id
  }

  /** With two targets of distinct ids below the counter, a hit always leaves exactly two
      targets, again with distinct ids below the (new) counter. */
  lemma HitKeepsTwoTargets(ts: seq<TargetInfo>, id: nat, nextTargetId: nat, spawn: Vec3)
    requires |ts| == MaxTargets && DistinctIds(ts)
    requires forall t :: t in ts ==> t.id < nextTargetId
    ensures var r := HitTarget(ts, id, nextTargetId, spawn);
      |r.0| == MaxTargets && DistinctIds(r.0) && (forall t :: t in r.0 ==> t.id < r.1)
  {
    var remaining := RemoveTargets(ts, id);
    if ts[0].id == id {
      assert ts[1].id != id;
      assert remaining == [ts[1]];
    } else if ts[1].id == id {
      assert remaining == [ts[0]] by {
        assert ts[1..] == [ts[1]];
        assert RemoveTargets(ts[1..], id) == [];
      }
    } else {
      assert remaining == ts;
    }
  }

  /** The loop over the controllers on the refs it reads and writes: it computes the fold,
      and collects the shoot messages of every bullet fired. */
  method RunTriggers(last0: map<string, real>, next0: nat, controllers: seq<XRController>, links: seq<Link>,
                     owner: string)
    returns (last: map<string, real>, next: nat, fired: seq<Bullet>, out: seq<Sent>)
    ensures TriggerState(last, next, fired) == TriggerFold(TriggerState(last0, next0, []), controllers, owner)
    ensures out == ShootSends(links, fired)
  {
    last, next, fired := last0, next0, [];
    ghost var s0 := TriggerState(last0, next0, []);
    out := [];
    var i := 0;
    while i < |controllers|
      invariant 0 <= i <= |controllers|
      invariant TriggerState(last, next, fired) == TriggerFold(s0, controllers[..i], owner)
      invariant out == ShootSends(links, fired)
    {
      TriggerFoldSnoc(s0, controllers, i, owner);
      var c := controllers[i];
      if c.gamepad.Some? {
        var value := NumberOr(c.gamepad.value.trigger, 0.0);
        var lastValue := LastValue(last, c.hand);
        if value > TriggerThreshold && lastValue <= TriggerThreshold {
          var b := Bullet(next, c.worldPosition, c.aimDirection, owner);
          FireAppends(links, fired, b);
          var sends := Broadcast(links, Shoot(b.id, b.position, b.direction));
          fired := fired + [b];
          next := next + 1;
          out := out + sends;
        }
        last := last[c.hand := value];
      }
      i := i + 1;
    }
    assert controllers[..|controllers|] == controllers;
  }

  class Scene {
    var bullets: seq<Bullet>
    var targets: seq<TargetInfo>
    var nextBulletId: nat
    var nextTargetId: nat
    var lastTriggerValues: map<string, real>
    var lastUpdate: int
    /** For each connection, how many 'data' listeners the effect has attached to it. */
    var shootListeners: map<Connection, nat>
    /** Every id this client has fired, in order. */
    ghost var firedIds: seq<int>

    ghost predicate Valid()
      reads this
    {
      && (forall i, j :: 0 <= i < j < |firedIds| ==> firedIds[i] < firedIds[j])
      && (forall k :: 0 <= k < |firedIds| ==> firedIds[k] < nextBulletId)
    }

    constructor (mountTime: int)
      ensures Valid()
      ensures bullets == [] && targets == [] && nextBulletId == 0 && nextTargetId == 0
      ensures lastTriggerValues == map[] && lastUpdate == mountTime && shootListeners == map[]
    {
      bullets := [];
      targets := [];
      nextBulletId := 0;
      nextTargetId := 0;
      lastTriggerValues := map[];
      lastUpdate := mountTime;
      shootListeners := map[];
      firedIds := [];
    }

    /** The frame callback. `controllers` are the XR input sources, `links` the connection
        set, `now` is `Date.now()`. */
    method Frame(now: int, hasPlayer: bool, controllers: seq<XRController>, links: seq<Link>,
                 peerId: Option<string>, playerPosition: Vec3, cameraRotation: Quat)
      returns (out: seq<Sent>)
      requires Valid()
      modifies this
      ensures Valid()
      ensures targets == old(targets) && nextTargetId == old(nextTargetId) && shootListeners == old(shootListeners)
      ensures !hasPlayer || !FrameDue(now, old(lastUpdate)) ==>
        out == [] && bullets == old(bullets) && nextBulletId == old(nextBulletId)
        && lastTriggerValues == old(lastTriggerValues) && lastUpdate == old(lastUpdate)
      ensures hasPlayer && FrameDue(now, old(lastUpdate)) ==>
        var r := TriggerFold(TriggerState(old(lastTriggerValues), old(nextBulletId), []), controllers, Owner(peerId));
        && lastUpdate == now
        && lastTriggerValues == r.last && nextBulletId == r.nextBulletId
        && bullets == old(bullets) + r.fired
        && out == ShootSends(links, r.fired) + PositionSends(links, controllers, playerPosition, cameraRotation)
    {
      out := [];
      if !hasPlayer {
        return;
      }
      if now - lastUpdate < ThrottleMs {
        return;
      }
      lastUpdate := now;
      var shots := ProcessTriggers(controllers, links, Owner(peerId));
      var poses := SendPositions(controllers, links, playerPosition, cameraRotation);
      out := shots + poses;
    }

    /** The trigger loop. The refs and the bullet list are written once the loop is done:
        the loop reads only the refs it updates, so the end state is the source's. */
    method ProcessTriggers(controllers: seq<XRController>, links: seq<Link>, owner: string) returns (out: seq<Sent>)
      requires Valid()
      modifies this
      ensures Valid()
      ensures var r := TriggerFold(TriggerState(old(lastTriggerValues), old(nextBulletId), []), controllers, owner);
        && lastTriggerValues == r.last && nextBulletId == r.nextBulletId
        && bullets == old(bullets) + r.fired
        && out == ShootSends(links, r.fired)
        && firedIds == old(firedIds) + IdsOf(r.fired)
      ensures targets == old(targets) && nextTargetId == old(nextTargetId)
      ensures lastUpdate == old(lastUpdate) && shootListeners == old(shootListeners)
    {
      ghost var s0 := TriggerState(lastTriggerValues, nextBulletId, []);
      var last, next, fired;
      last, next, fired, out := RunTriggers(lastTriggerValues, nextBulletId, controllers, links, owner);
      ghost var r := TriggerFold(s0, controllers, owner);
      assert fired == r.fired && next == r.nextBulletId;
      FiredIdsIncrease(s0, controllers, owner, firedIds);
      ghost var ids := firedIds + IdsOf(r.fired);
      assert ids == firedIds + IdsOf(TriggerFold(s0, controllers, owner).fired);
      assert forall i, j :: 0 <= i < j < |ids| ==> ids[i] < ids[j];
      assert forall k :: 0 <= k < |ids| ==> ids[k] < next;
      lastTriggerValues := last;
      nextBulletId := next;
      bullets := bullets + fired;
      firedIds := ids;
    }

    /** `handleBulletHit` */
    method HandleBulletHit(bulletId: int)
      modifies this
      ensures bullets == RemoveBullets(old(bullets), bulletId)
      ensures targets == old(targets) && nextBulletId == old(nextBulletId) && nextTargetId == old(nextTargetId)
      ensures lastTriggerValues == old(lastTriggerValues) && lastUpdate == old(lastUpdate)
      ensures shootListeners == old(shootListeners) && firedIds == old(firedIds)
    {
      bullets := RemoveBullets(bullets, bulletId);
    }

    /** `handleTargetHit`; `rx`, `rz` are the two `Math.random()` draws for a respawn. */
    method HandleTargetHit(targetId: nat, rx: real, rz: real)
      requires 0.0 <= rx < 1.0 && 0.0 <= rz < 1.0
      modifies this
      ensures (targets, nextTargetId) == HitTarget(old(targets), targetId, old(nextTargetId), SpawnPosition(rx, rz))
      ensures bullets == old(bullets) && nextBulletId == old(nextBulletId)
      ensures lastTriggerValues == old(lastTriggerValues) && lastUpdate == old(lastUpdate)
      ensures shootListeners == old(shootListeners) && firedIds == old(firedIds)
    {
      var remaining := RemoveTargets(targets, targetId);
      if |remaining| < MaxTargets {
        remaining := remaining + [TargetInfo(nextTargetId, SpawnPosition(rx, rz))];
        nextTargetId := nextTargetId + 1;
      }
      targets := remaining;
    }

    /** The effect on `[connections]`: two fresh targets replace the list, and every current
        connection gets one more 'data' listener (none is ever removed). */
    method ConnectionsEffect(links: seq<Link>, r1x: real, r1z: real, r2x: real, r2z: real)
      requires 0.0 <= r1x < 1.0 && 0.0 <= r1z < 1.0 && 0.0 <= r2x < 1.0 && 0.0 <= r2z < 1.0
      modifies this
      ensures targets == [TargetInfo(old(nextTargetId), SpawnPosition(r1x, r1z)),
                          TargetInfo(old(nextTargetId) + 1, SpawnPosition(r2x, r2z))]
      ensures nextTargetId == old(nextTargetId) + 2
      ensures forall c :: c in shootListeners <==> c in old(shootListeners) || exists l :: l in links && l.conn == c
      ensures forall c :: ListenerCount(shootListeners, c) == ListenerCount(old(shootListeners), c) + CountConn(links, c)
      ensures bullets == old(bullets) && nextBulletId == old(nextBulletId) && firedIds == old(firedIds)
      ensures lastTriggerValues == old(lastTriggerValues) && lastUpdate == old(lastUpdate)
    {
      targets := [TargetInfo(nextTargetId, SpawnPosition(r1x, r1z)), TargetInfo(nextTargetId + 1, SpawnPosition(r2x, r2z))];
      nextTargetId := nextTargetId + 2;
      var i := 0;
      while i < |links|
        invariant 0 <= i <= |links|
        invariant forall c :: c in shootListeners <==> c in old(shootListeners) || exists k :: 0 <= k < i && links[k].conn == c
        invariant forall c :: ListenerCount(shootListeners, c) == ListenerCount(old(shootListeners), c) + CountConn(links[..i], c)
        invariant bullets == old(bullets) && nextBulletId == old(nextBulletId) && firedIds == old(firedIds)
        invariant lastTriggerValues == old(lastTriggerValues) && lastUpdate == old(lastUpdate)
        invariant targets == [TargetInfo(old(nextTargetId), SpawnPosition(r1x, r1z)),
                              TargetInfo(old(nextTargetId) + 1, SpawnPosition(r2x, r2z))]
        invariant nextTargetId == old(nextTargetId) + 2
      {
        assert links[..i + 1][..i] == links[..i];
        assert forall d :: CountConn(links[..i + 1], d) == CountConn(links[..i], d) + (if links[i].conn == d then 1 else 0);
        var c := links[i].conn;
        shootListeners := shootListeners[c := ListenerCount(shootListeners, c) + 1];
        i := i + 1;
      }
      assert links[..|links|] == links;
      forall c ensures c in shootListeners <==> c in old(shootListeners) || exists l :: l in links && l.conn == c {
        if exists l :: l in links && l.conn == c {
          var l :| l in links && l.conn == c;
          var k :| 0 <= k < |links| && links[k] == l;
        }
      }
    }

    /** The effect as it would read with a cleanup that detaches the previous run's
        listeners: each run leaves exactly the listeners it attached. */
    method ConnectionsEffectWithCleanup(links: seq<Link>, r1x: real, r1z: real, r2x: real, r2z: real)
      requires 0.0 <= r1x < 1.0 && 0.0 <= r1z < 1.0 && 0.0 <= r2x < 1.0 && 0.0 <= r2z < 1.0
      modifies this
      ensures targets == [TargetInfo(old(nextTargetId), SpawnPosition(r1x, r1z)),
                          TargetInfo(old(nextTargetId) + 1, SpawnPosition(r2x, r2z))]
      ensures nextTargetId == old(nextTargetId) + 2
      ensures forall c :: ListenerCount(shootListeners, c) == CountConn(links, c)
      ensures bullets == old(bullets) && nextBulletId == old(nextBulletId) && firedIds == old(firedIds)
      ensures lastTriggerValues == old(lastTriggerValues) && lastUpdate == old(lastUpdate)
    {
      shootListeners := map[];
      ConnectionsEffect(links, r1x, r1z, r2x, r2z);
    }

    /** A remote 'shoot' message on connection `c`: every 'data' listener on `c` appends the
        bullet, owned by the sender. */
    method OnRemoteShoot(c: Connection, bulletId: int, position: Vec3, direction: Vec3)
      modifies this
      ensures bullets == old(bullets) + Copies(Bullet(bulletId, position, direction, c.peer), ListenerCount(shootListeners, c))
      ensures targets == old(targets) && nextBulletId == old(nextBulletId) && nextTargetId == old(nextTargetId)
      ensures lastTriggerValues == old(lastTriggerValues) && lastUpdate == old(lastUpdate)
      ensures shootListeners == old(shootListeners) && firedIds == old(firedIds)
    {
      var b := Bullet(bulletId, position, direction, c.peer);
      var n := ListenerCount(shootListeners, c);
      var i := 0;
      while i < n
        invariant 0 <= i <= n
        invariant bullets == old(bullets) + Copies(b, i)
        invariant targets == old(targets) && nextBulletId == old(nextBulletId) && nextTargetId == old(nextTargetId)
        invariant lastTriggerValues == old(lastTriggerValues) && lastUpdate == old(lastUpdate)
        invariant shootListeners == old(shootListeners) && firedIds == old(firedIds)
      {
        CopiesSucc(b, i);
        bullets := bullets + [b];
        i := i + 1;
      }
    }
  }

  /** Firing one more bullet appends its id and its shoot messages. */
  lemma FireAppends(links: seq<Link>, fired: seq<Bullet>, b: Bullet)
    ensures IdsOf(fired + [b]) == IdsOf(fired) + [b.id]
    ensures ShootSends(links, fired + [b]) == ShootSends(links, fired) + OpenSends(links, Shoot(b.id, b.position, b.direction))
  {
    assert (fired + [b])[..|fired|] == fired;
  }

  function IdsOf(bs: seq<Bullet>): (r: seq<int>)
    ensures |r| == |bs| && forall k :: 0 <= k < |bs| ==> r[k] == bs[k].id
  {
    if bs == [] then [] else IdsOf(bs[..|bs| - 1]) + [bs[|bs| - 1].id]
  }

  function ListenerCount(m: map<Connection, nat>, c: Connection): nat
  {
    if c in m then m[c] else 0
  }

  function CountConn(links: seq<Link>, c: Connection): nat
  {
    if links == [] then 0 else CountConn(links[..|links| - 1], c) + (if links[|links| - 1].conn == c then 1 else 0)
  }

  function Copies(b: Bullet, n: nat): (r: seq<Bullet>)
    ensures |r| == n && forall k :: 0 <= k < n ==> r[k] == b
  {
    if n == 0 then [] else [b] + Copies(b, n - 1)
  }

  lemma CopiesSucc(b: Bullet, n: nat)
    ensures Copies(b, n + 1) == Copies(b, n) + [b]
  {
  }

  /** Bullet ids fired by this client strictly increase across frames: the ids a frame
      fires all lie above every id fired before. */
  lemma FiredIdsIncrease(s: TriggerState, cs: seq<XRController>, owner: string, earlier: seq<int>)
    requires s.fired == []
    requires forall k :: 0 <= k < |earlier| ==> earlier[k] < s.nextBulletId
    requires forall i, j :: 0 <= i < j < |earlier| ==> earlier[i] < earlier[j]
    ensures var all := earlier + IdsOf(TriggerFold(s, cs, owner).fired);
      forall i, j :: 0 <= i < j < |all| ==> all[i] < all[j]
    ensures var all := earlier + IdsOf(TriggerFold(s, cs, owner).fired);
      forall k :: 0 <= k < |all| ==> all[k] < TriggerFold(s, cs, owner).nextBulletId
  {
    TriggerFoldIds(s, cs, owner);
    var r := TriggerFold(s, cs, owner);
    var ids := IdsOf(r.fired);
    var all := earlier + ids;
    assert forall k :: 0 <= k < |ids| ==> ids[k] == s.nextBulletId + k;
    forall k | 0 <= k < |all|
      ensures all[k] < r.nextBulletId
    {
      if k >= |earlier| {
        assert all[k] == ids[k - |earlier|];
      }
    }
    forall i, j | 0 <= i < j < |all|
      ensures all[i] < all[j]
    {
      if j < |earlier| {
        assert all[i] == earlier[i] && all[j] == earlier[j];
      } else if i < |earlier| {
        assert all[j] == ids[j - |earlier|];
      } else {
        assert all[i] == ids[i - |earlier|] && all[j] == ids[j - |earlier|];
      }
    }
  }

  /** The listeners a connection has after the effect has run once per entry of `runs`
      (each entry the connection set of that run), none ever detached. */
  function ListenersAfterRuns(runs: seq<seq<Link>>, c: Connection): nat
  {
    if runs == [] then 0 else ListenersAfterRuns(runs[..|runs| - 1], c) + CountConn(runs[|runs| - 1], c)
  }

  /** As written, a connection present in every one of `n` runs of the effect ends up with
      `n` listeners, so each shot it sends adds `n` bullets. */
  lemma {:induction false} ListenersGrowWithRuns(runs: seq<seq<Link>>, c: Connection)
    requires forall k :: 0 <= k < |runs| ==> CountConn(runs[k], c) == 1
    ensures ListenersAfterRuns(runs, c) == |runs|
    decreases |runs|
  {
    if runs != [] {
      var init := runs[..|runs| - 1];
      assert forall k :: 0 <= k < |init| ==> init[k] == runs[k];
      ListenersGrowWithRuns(init, c);
    }
  }

  /** The input that shows it: peer `a` connects, then peer `b`; one shot from `a` then
      appears twice in the bullet list. */
  lemma DuplicateShotAfterSecondPeer(a: Connection, b: Connection, shot: Bullet)
    requires a != b
    ensures ListenersAfterRuns([[Link(a, true)], [Link(a, true), Link(b, true)]], a) == 2
    ensures Copies(shot, ListenersAfterRuns([[Link(a, true)], [Link(a, true), Link(b, true)]], a)) == [shot, shot]
  {
    var none: seq<Link> := [];
    var r1 := [Link(a, true)];
    var r2 := [Link(a, true), Link(b, true)];
    assert r2[..1] == r1 && r1[..0] == none;
    assert CountConn(r1, a) == 1;
    assert CountConn(r2, a) == 1;
    var noRuns: seq<seq<Link>> := [];
    var runs := [r1, r2];
    assert runs[..1] == [r1] && [r1][..0] == noRuns;
    assert ListenersAfterRuns([r1], a) == 1;
    assert ListenersAfterRuns(runs, a) == 2;
  }

  /** Connections as a set: no connection twice. */
  predicate DistinctConns(links: seq<Link>)
  {
    forall i, j :: 0 <= i < j < |links| ==> links[i].conn != links[j].conn
  }

  /** With the cleanup, every connection of the current set has exactly one listener and
      every other connection none, so each remote shot adds exactly one bullet. */
  lemma {:induction false} CountConnDistinct(links: seq<Link>, c: Connection)
    requires DistinctConns(links)
    ensures CountConn(links, c) == (if exists l :: l in links && l.conn == c then 1 else 0)
    decreases |links|
  {
    if links != [] {
      var init := links[..|links| - 1];
      assert DistinctConns(init);
      CountConnDistinct(init, c);
      if links[|links| - 1].conn == c {
        assert !exists l :: l in init && l.conn == c;
      }
      assert forall l :: l in links <==> l in init || l == links[|links| - 1];
    }
  }
}
