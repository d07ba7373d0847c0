/**
 * One frame of one player's bullets: every bullet advances, a bullet whose
 * new point lies in the opponent's rectangle is removed and costs the
 * opponent DAMAGE health, and a bullet that has left the canvas is removed
 * without damage.
 */
module Bullets {
  import opened Entities

  /** The bullet after one frame of flight. */
  function Advanced(b: Bullet): (a: Bullet)
    ensures a.y == b.y && a.direction == b.direction
    ensures b.direction == 1 ==> a.x == b.x + BULLET_SPEED
    ensures b.direction == -1 ==> a.x == b.x - BULLET_SPEED
  {
    b.(x := b.x + BULLET_SPEED * b.direction)
  }

  /**
   * The bullet's point lies in the closed rectangle of the target, edges
   * included. On whole-pixel points this is the strict overlap test of
   * `CheckCollision` between the point and the target grown by one pixel
   * on every side.
   */
  function InTarget(b: Bullet, target: Player): (hit: bool)
    ensures hit <==> CheckCollision(Rect(b.x, b.y, 0, 0),
                                    Rect(target.x - 1, target.y - 1, target.width + 2, target.height + 2))
  {
    b.x >= target.x && b.x <= target.x + target.width &&
    b.y >= target.y && b.y <= target.y + target.height
  }

  /** The bullet's point is outside the horizontal span [0, canvasWidth]. */
  function OffScreen(b: Bullet, canvasWidth: int): (off: bool)
    ensures !off <==> 0 <= b.x <= canvasWidth
  {
    b.x > canvasWidth || b.x < 0
  }

  /** Whether the bullet, once advanced, is removed this frame. */
  predicate Removed(b: Bullet, target: Player, canvasWidth: int)
  {
    InTarget(Advanced(b), target) || OffScreen(Advanced(b), canvasWidth)
  }

  /** The bullets still in flight after one frame, in their original order. */
  function Survivors(bullets: seq<Bullet>, target: Player, canvasWidth: int): seq<Bullet>
  {
    if bullets == [] then []
    else
      (if Removed(bullets[0], target, canvasWidth) then [] else [Advanced(bullets[0])])
      + Survivors(bullets[1..], target, canvasWidth)
  }

  /** The number of bullets that hit the target this frame. */
  function HitCount(bullets: seq<Bullet>, target: Player): nat
  {
    if bullets == [] then 0
    else (if InTarget(Advanced(bullets[0]), target) then 1 else 0) + HitCount(bullets[1..], target)
  }

  /** The number of bullets that miss the target and leave the canvas this frame. */
  function DiscardCount(bullets: seq<Bullet>, target: Player, canvasWidth: int): nat
  {
    if bullets == [] then 0
    else
      (if !InTarget(Advanced(bullets[0]), target) && OffScreen(Advanced(bullets[0]), canvasWidth) then 1 else 0)
      + DiscardCount(bullets[1..], target, canvasWidth)
  }

  /** Every bullet advanced by one frame, hit or not. */
  function AdvancedAll(bullets: seq<Bullet>): (r: seq<Bullet>)
    ensures |r| == |bullets|
    ensures forall k :: 0 <= k < |r| ==> r[k] == Advanced(bullets[k])
  {
    seq(|bullets|, k requires 0 <= k < |bullets| => Advanced(bullets[k]))
  }

  /** `s` can be obtained from `t` by deleting elements, keeping the order of the rest. */
  ghost predicate IsSubsequence(s: seq<Bullet>, t: seq<Bullet>)
    decreases |t|
  {
    if s == [] then true
    else if t == [] then false
    else (s[0] == t[0] && IsSubsequence(s[1..], t[1..])) || IsSubsequence(s, t[1..])
  }

  /**
   * The reverse index loop of the frame: walks the list from its last
   * bullet to its first, advances each bullet, and splices out the ones
   * that hit the target (lowering the target's health by DAMAGE each) or
   * that left the canvas.
   */
  method ProcessBullets(bullets: seq<Bullet>, target: Player, canvasWidth: int)
    returns (kept: seq<Bullet>, targetHealth: int)
    ensures kept == Survivors(bullets, target, canvasWidth)
    ensures targetHealth == target.health - DAMAGE * HitCount(bullets, target)
  {
    kept := bullets;
    targetHealth := target.health;
    var i := |kept| - 1;
    while i >= 0
      invariant -1 <= i < |bullets|
      invariant kept == bullets[..i + 1] + Survivors(bullets[i + 1..], target, canvasWidth)
      invariant targetHealth == target.health - DAMAGE * HitCount(bullets[i + 1..], target)
    {
      assert bullets[i..][1..] == bullets[i + 1..];
      assert kept[i] == bullets[i];
      var bullet := Advanced(kept[i]);
      kept := kept[i := bullet];
      if InTarget(bullet, target) {
        targetHealth := targetHealth - DAMAGE;
        kept := kept[..i] + kept[i + 1..];
        assert kept == bullets[..i] + Survivors(bullets[i..], target, canvasWidth);
      } else if OffScreen(bullet, canvasWidth) {
        kept := kept[..i] + kept[i + 1..];
        assert kept == bullets[..i] + Survivors(bullets[i..], target, canvasWidth);
      } else {
        assert kept == bullets[..i] + Survivors(bullets[i..], target, canvasWidth);
      }
      i := i - 1;
    }
    assert bullets[0..] == bullets;
  }

  /** After a frame every bullet in flight is on the canvas and outside the target. */
  lemma {:induction false} SurvivorsOnScreen(bullets: seq<Bullet>, target: Player, canvasWidth: int)
    ensures forall a :: a in Survivors(bullets, target, canvasWidth) ==>
              0 <= a.x <= canvasWidth && !InTarget(a, target)
  {
    if bullets != [] {
      SurvivorsOnScreen(bullets[1..], target, canvasWidth);
    }
  }

  /** The survivors are the advanced bullets with the removed ones deleted: each
      moved by exactly BULLET_SPEED * direction, and their order is kept. */
  lemma {:induction false} SurvivorsInOrder(bullets: seq<Bullet>, target: Player, canvasWidth: int)
    ensures IsSubsequence(Survivors(bullets, target, canvasWidth), AdvancedAll(bullets))
  {
    if bullets != [] {
      var s := Survivors(bullets, target, canvasWidth);
      var t := AdvancedAll(bullets);
      SurvivorsInOrder(bullets[1..], target, canvasWidth);
      assert t[1..] == AdvancedAll(bullets[1..]);
      if !Removed(bullets[0], target, canvasWidth) {
        assert s[0] == t[0] && s[1..] == Survivors(bullets[1..], target, canvasWidth);
      } else if s != [] {
        assert s == Survivors(bullets[1..], target, canvasWidth);
      }
    }
  }

  /** Every survivor is some input bullet advanced by one frame. */
  lemma {:induction false} SurvivorOrigin(bullets: seq<Bullet>, target: Player, canvasWidth: int, a: Bullet)
    requires a in Survivors(bullets, target, canvasWidth)
    ensures exists b :: b in bullets && a == Advanced(b) && !Removed(b, target, canvasWidth)
  {
    if a == Advanced(bullets[0]) && !Removed(bullets[0], target, canvasWidth) {
      assert bullets[0] in bullets;
    } else {
      SurvivorOrigin(bullets[1..], target, canvasWidth, a);
      var b :| b in bullets[1..] && a == Advanced(b) && !Removed(b, target, canvasWidth);
      assert b in bullets;
    }
  }

  /** Every bullet that neither hits nor leaves the canvas is still in flight. */
  lemma {:induction false} SurvivorsComplete(bullets: seq<Bullet>, target: Player, canvasWidth: int, j: int)
    requires 0 <= j < |bullets| && !Removed(bullets[j], target, canvasWidth)
    ensures Advanced(bullets[j]) in Survivors(bullets, target, canvasWidth)
  {
    if j > 0 {
      assert bullets[1..][j - 1] == bullets[j];
      SurvivorsComplete(bullets[1..], target, canvasWidth, j - 1);
    }
  }

  /** Each bullet is exactly one of: still in flight, a hit, or discarded off screen. */
  lemma {:induction false} BulletAccounting(bullets: seq<Bullet>, target: Player, canvasWidth: int)
    ensures |Survivors(bullets, target, canvasWidth)| + HitCount(bullets, target)
            + DiscardCount(bullets, target, canvasWidth) == |bullets|
  {
    if bullets != [] {
      BulletAccounting(bullets[1..], target, canvasWidth);
    }
  }

  /** Bullets keep their direction while in flight. */
  lemma {:induction false} SurvivorsKeepDirection(bullets: seq<Bullet>, target: Player, canvasWidth: int, d: int)
    requires forall b :: b in bullets ==> b.direction == d
    ensures forall a :: a in Survivors(bullets, target, canvasWidth) ==> a.direction == d
  {
    if bullets != [] {
      assert bullets[0] in bullets;
      SurvivorsKeepDirection(bullets[1..], target, canvasWidth, d);
    }
  }
}
