/**
 * The block passes of the engine's collision step, as folds over the block
 * list. The rectangle tested against every block is a snapshot taken before
 * the pass; the velocity used to pick the side is the live one, already
 * changed by earlier blocks of the same pass.
 */
module Collisions {
  import opened GameTypes
  import opened Physics

  /** What the player pass reads and writes of the player's body. */
  datatype Body = Body(position: Vector2D, velocity: Vector2D, onGround: bool)

  /**
   * One block of the player pass: a block overlapping the snapshot moves the
   * body to the resolved position and velocity, and a resolved vertical speed
   * of 0 marks the body as grounded, whatever side was hit.
   */
  function PlayerBlockStep(rect: Rectangle, b: Body, block: Rectangle): (r: Body)
    ensures !CheckCollision(rect, block) ==> r == b
    ensures CheckCollision(rect, block) ==>
              var res := ResolveCollision(rect, block, b.velocity);
              r.position == res.position && r.velocity == res.velocity &&
              (r.onGround <==> b.onGround || res.velocity.y == 0.0)
  {
    if CheckCollision(rect, block) then
      var res := ResolveCollision(rect, block, b.velocity);
      Body(res.position, res.velocity, b.onGround || (res.velocity.y == 0.0 && res.velocity.y >= 0.0))
    else b
  }

  /** The player pass over a list of blocks, in order. */
  function PlayerBlocks(rect: Rectangle, b: Body, blocks: seq<Rectangle>): Body
  {
    if blocks == [] then b
    else PlayerBlockStep(rect, PlayerBlocks(rect, b, blocks[..|blocks| - 1]), blocks[|blocks| - 1])
  }

  /** Blocks that do not overlap the snapshot change nothing, wherever they stand in the list. */
  lemma {:induction false} NonCollidingSuffix(rect: Rectangle, b: Body, pre: seq<Rectangle>, post: seq<Rectangle>)
    requires forall i :: 0 <= i < |post| ==> !CheckCollision(rect, post[i])
    ensures PlayerBlocks(rect, b, pre + post) == PlayerBlocks(rect, b, pre)
  {
    if post == [] {
      assert pre + post == pre;
    } else {
      var s := pre + post;
      assert s[..|s| - 1] == pre + post[..|post| - 1];
      assert s[|s| - 1] == post[|post| - 1];
      NonCollidingSuffix(rect, b, pre, post[..|post| - 1]);
    }
  }

  /** Hitting a block from below zeroes the vertical speed and so also marks the player as grounded. */
  lemma HeadBumpGrounds(rect: Rectangle, b: Body, block: Rectangle)
    requires GetCollisionDirection(rect, block, b.velocity) == Some(Bottom)
    ensures var r := PlayerBlockStep(rect, b, block);
            r.onGround && r.velocity.y == 0.0 && r.position.y == block.y + block.height
  {
  }

  /**
   * The stacked pipe blocks of level 1 at x = 800: a player moving right at
   * the height where the two blocks meet is pushed back to x = 784 by the
   * upper block; the lower block is then resolved with the zeroed speed and
   * pushes the player out on the far side, to x = 832. Touching the wall with
   * no vertical speed also marks the player as grounded.
   */
  lemma TwoBlockWallPushesThrough()
    ensures var rect := Rectangle(785.0, 320.0, 16.0, 16.0);
            var b := Body(Vector2D(785.0, 320.0), Vector2D(2.0, 0.0), false);
            var upper := Rectangle(800.0, 296.0, 32.0, 32.0);
            var lower := Rectangle(800.0, 328.0, 32.0, 32.0);
            PlayerBlocks(rect, b, [upper]).position.x == 784.0 &&
            PlayerBlocks(rect, b, [upper, lower]).position.x == 832.0 &&
            PlayerBlocks(rect, b, [upper, lower]).onGround
  {
    var rect := Rectangle(785.0, 320.0, 16.0, 16.0);
    var b := Body(Vector2D(785.0, 320.0), Vector2D(2.0, 0.0), false);
    var upper := Rectangle(800.0, 296.0, 32.0, 32.0);
    var lower := Rectangle(800.0, 328.0, 32.0, 32.0);
    assert [upper, lower][..1] == [upper];
    assert GetCollisionDirection(rect, upper, b.velocity) == Some(Left);
    assert [upper][..0] == [];
    assert CheckCollision(rect, upper);
    assert PlayerBlocks(rect, b, [upper]) == PlayerBlockStep(rect, b, upper);
    var first := PlayerBlocks(rect, b, [upper]);
    assert first.velocity == Vector2D(0.0, 0.0);
    assert GetCollisionDirection(rect, lower, first.velocity) == Some(Right);
  }

  /** What the enemy pass reads and writes of an enemy: its body's motion and its patrol direction. */
  datatype Mover = Mover(position: Vector2D, velocity: Vector2D, onGround: bool, direction: int, facingRight: bool)

  /**
   * One block of the enemy pass: as for the player, and in addition the enemy
   * turns around whenever the resolved horizontal speed is 0, which includes
   * landing on a block while standing still.
   */
  function EnemyBlockStep(rect: Rectangle, m: Mover, block: Rectangle): (r: Mover)
    ensures !CheckCollision(rect, block) ==> r == m
    ensures CheckCollision(rect, block) ==>
              var res := ResolveCollision(rect, block, m.velocity);
              r.position == res.position && r.velocity == res.velocity &&
              (r.onGround <==> m.onGround || res.velocity.y == 0.0) &&
              (res.velocity.x == 0.0 ==> r.direction == -m.direction && (r.facingRight <==> r.direction > 0)) &&
              (res.velocity.x != 0.0 ==> r.direction == m.direction && r.facingRight == m.facingRight)
    ensures m.direction in {-1, 1} ==> r.direction in {-1, 1}
  {
    if CheckCollision(rect, block) then
      var res := ResolveCollision(rect, block, m.velocity);
      var onGround := m.onGround || (res.velocity.y == 0.0 && res.velocity.y >= 0.0);
      if res.velocity.x == 0.0 then Mover(res.position, res.velocity, onGround, -m.direction, -m.direction > 0)
      else Mover(res.position, res.velocity, onGround, m.direction, m.facingRight)
    else m
  }

  function EnemyBlocks(rect: Rectangle, m: Mover, blocks: seq<Rectangle>): (r: Mover)
    ensures m.direction in {-1, 1} ==> r.direction in {-1, 1}
  {
    if blocks == [] then m
    else EnemyBlockStep(rect, EnemyBlocks(rect, m, blocks[..|blocks| - 1]), blocks[|blocks| - 1])
  }

  /**
   * An enemy standing still (a resting shell) turns around on every block it
   * overlaps: resting across two ground blocks it turns twice and keeps its
   * direction, resting on one it turns once.
   */
  lemma {:induction false} StillEnemyTurnsPerBlock(rect: Rectangle, m: Mover, blocks: seq<Rectangle>)
    requires m.velocity.x == 0.0
    ensures EnemyBlocks(rect, m, blocks).velocity.x == 0.0
    ensures EnemyBlocks(rect, m, blocks).direction ==
            (if CollidingCount(rect, blocks) % 2 == 0 then m.direction else -m.direction)
  {
    if blocks != [] {
      StillEnemyTurnsPerBlock(rect, m, blocks[..|blocks| - 1]);
    }
  }

  /** The number of blocks that overlap the rectangle. */
  function CollidingCount(rect: Rectangle, blocks: seq<Rectangle>): nat
  {
    if blocks == [] then 0
    else CollidingCount(rect, blocks[..|blocks| - 1]) + (if CheckCollision(rect, blocks[|blocks| - 1]) then 1 else 0)
  }
}
