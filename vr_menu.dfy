/** The combat menu that floats in front of the player
    (`combat-menu/src/components/VRMenu.tsx`). */
module VRMenu {
  import opened Common

  const MenuDistance: real := 2.0
  const MenuHeight: real := 1.6
  const SmoothFactor: real := 0.1
  const ItemTop: real := 0.2
  const ItemSpacing: real := 0.15
  const ItemCount: nat := 4

  /** Eye height, two metres in front of the player along -z. */
  function Target(player: Vec3): (t: Vec3)
    ensures t.x == player.x && t.y == MenuHeight && t.z == player.z - MenuDistance
  {
    Vec3(player.x, MenuHeight, player.z - MenuDistance)
  }

  /** One frame's `currentPosition.lerp(target, 0.1)` held for `n` frames towards a target
      that does not move. */
  function Follow(current: Vec3, target: Vec3, n: nat): Vec3
    decreases n
  {
    if n == 0 then current else Follow(LerpVec(current, target, SmoothFactor), target, n - 1)
  }

  function Pow(b: real, n: nat): real
  {
    if n == 0 then 1.0 else b * Pow(b, n - 1)
  }

  /** Each frame keeps nine tenths of the remaining distance, on every axis and without
      passing the target; after `n` frames the remainder is 0.9^n of the start. */
  lemma {:induction false} FollowShrinks(current: Vec3, target: Vec3, n: nat)
    ensures target.Sub(Follow(current, target, n)) == target.Sub(current).Scale(Pow(0.9, n))
    ensures Between(current, Follow(current, target, n), target)
    decreases n
  {
    if n > 0 {
      var next := LerpVec(current, target, SmoothFactor);
      LerpVecBetween(current, target, SmoothFactor);
      FollowShrinks(next, target, n - 1);
      var d := target.Sub(current);
      assert target.Sub(next) == d.Scale(0.9);
      assert d.Scale(0.9).Scale(Pow(0.9, n - 1)) == d.Scale(Pow(0.9, n)) by {
        assert 0.9 * Pow(0.9, n - 1) == Pow(0.9, n);
        assert Pow(0.9, n - 1) * (0.9 * d.x) == Pow(0.9, n) * d.x;
        assert Pow(0.9, n - 1) * (0.9 * d.y) == Pow(0.9, n) * d.y;
        assert Pow(0.9, n - 1) * (0.9 * d.z) == Pow(0.9, n) * d.z;
      }
      BetweenTrans(current, next, Follow(next, target, n - 1), target);
    }
  }

  /** Landing between a point already between the start and the target and the target
      itself is landing between the start and the target. */
  lemma BetweenTrans(a: Vec3, b: Vec3, c: Vec3, t: Vec3)
    requires Between(a, b, t) && Between(b, c, t)
    ensures Between(a, c, t)
  {
  }

  /** `position={[0, 0.2 - index * 0.15, 0]}` */
  function ItemY(i: nat): (y: real)
    ensures y <= ItemTop
  {
    ItemTop - i as real * ItemSpacing
  }

  /** Items descend strictly and evenly, and the four items span 0.2 down to -0.25. */
  lemma ItemsDescend(i: nat, j: nat)
    requires i < j
    ensures ItemY(j) < ItemY(i)
    ensures ItemY(i) - ItemY(j) == (j - i) as real * ItemSpacing
    ensures ItemY(0) == 0.2 && ItemY(ItemCount - 1) == -0.25
  {
  }

  class Menu {
    var menuVisible: bool
    var currentPosition: Vec3
    /** The group's position, copied from `currentPosition` on every update. */
    var groupPosition: Vec3

    constructor ()
      ensures menuVisible && currentPosition == Origin && groupPosition == Origin
    {
      menuVisible := true;
      currentPosition := Origin;
      groupPosition := Origin;
    }

    /** The presentation effect: it only ever shows the menu. */
    method PresentingChanged(isPresenting: bool)
      modifies this
      ensures isPresenting ==> menuVisible
      ensures !isPresenting ==> menuVisible == old(menuVisible)
      ensures old(menuVisible) ==> menuVisible
      ensures currentPosition == old(currentPosition) && groupPosition == old(groupPosition)
    {
      if isPresenting {
        menuVisible := true;
      }
    }

    /** `useFrame`: nothing moves unless the group is mounted and there is a player. */
    method Frame(groupMounted: bool, player: Option<Vec3>)
      modifies this
      ensures groupMounted && player.Some? ==>
        currentPosition == LerpVec(old(currentPosition), Target(player.value), SmoothFactor)
        && groupPosition == currentPosition
      ensures !(groupMounted && player.Some?) ==>
        currentPosition == old(currentPosition) && groupPosition == old(groupPosition)
      ensures groupMounted && player.Some? ==>
        Target(player.value).Sub(currentPosition) == Target(player.value).Sub(old(currentPosition)).Scale(0.9)
        && Between(old(currentPosition), currentPosition, Target(player.value))
      ensures menuVisible == old(menuVisible)
    {
      if groupMounted && player.Some? {
        var target := Target(player.value);
        LerpVecBetween(currentPosition, target, SmoothFactor);
        currentPosition := LerpVec(currentPosition, target, SmoothFactor);
        groupPosition := currentPosition;
      }
    }
  }
}
