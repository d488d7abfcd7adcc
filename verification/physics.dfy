/**
 * Axis-aligned rectangle physics: the overlap test, the choice of the side a
 * collision is resolved on, gravity, friction, velocity clamping, the bounds
 * test and the push-out resolution. Everything here is a pure function.
 */
module Physics {
  import opened GameTypes

  const Gravity: real := 0.5
  const Friction: real := 0.8
  const MaxVelocityX: real := 8.0
  const MaxVelocityY: real := 15.0
  const JumpForce: real := -12.0
  const Acceleration: real := 0.5

  /** Strict overlap on both axes: rectangles that only share an edge do not collide. */
  predicate CheckCollision(a: Rectangle, b: Rectangle)
  {
    a.x < b.x + b.width &&
    a.x + a.width > b.x &&
    a.y < b.y + b.height &&
    a.y + a.height > b.y
  }

  /** Length of the intersection of the two rectangles' x-intervals (negative when apart). */
  function IntersectionX(a: Rectangle, b: Rectangle): real
  {
    Min(a.x + a.width, b.x + b.width) - Max(a.x, b.x)
  }

  function IntersectionY(a: Rectangle, b: Rectangle): real
  {
    Min(a.y + a.height, b.y + b.height) - Max(a.y, b.y)
  }

  lemma CollisionSymmetric(a: Rectangle, b: Rectangle)
    ensures CheckCollision(a, b) <==> CheckCollision(b, a)
  {
  }

  /** For rectangles of positive size, colliding means a positive intersection on both axes. */
  lemma CollisionIffPositiveIntersection(a: Rectangle, b: Rectangle)
    requires a.width > 0.0 && a.height > 0.0 && b.width > 0.0 && b.height > 0.0
    ensures CheckCollision(a, b) <==> IntersectionX(a, b) > 0.0 && IntersectionY(a, b) > 0.0
  {
  }

  /** Two rectangles that share a vertical or horizontal edge do not collide. */
  lemma TouchingEdgesDoNotCollide(a: Rectangle, b: Rectangle)
    requires a.x + a.width == b.x || b.x + b.width == a.x ||
             a.y + a.height == b.y || b.y + b.height == a.y
    ensures !CheckCollision(a, b)
  {
  }

  datatype Side = Top | Bottom | Left | Right {
    predicate Horizontal() { this == Left || this == Right }
  }

  /** The smaller distance the moving rectangle must travel along x to leave the static one. */
  function PushOutX(moving: Rectangle, fixed: Rectangle): real
  {
    Min(moving.x + moving.width - fixed.x, fixed.x + fixed.width - moving.x)
  }

  function PushOutY(moving: Rectangle, fixed: Rectangle): real
  {
    Min(moving.y + moving.height - fixed.y, fixed.y + fixed.height - moving.y)
  }

  /**
   * The side of `fixed` the moving rectangle is pushed out to. The axis with the
   * strictly smaller push-out wins and ties go vertical; on that axis the sign of
   * the velocity alone decides the side.
   */
  function GetCollisionDirection(moving: Rectangle, fixed: Rectangle, velocity: Vector2D): (r: Option<Side>)
    ensures r.None? <==> !CheckCollision(moving, fixed)
    ensures r.Some? ==> (r.value.Horizontal() <==> PushOutX(moving, fixed) < PushOutY(moving, fixed))
    ensures r.Some? && r.value.Horizontal() ==> (r.value == Left <==> velocity.x > 0.0)
    ensures r.Some? && !r.value.Horizontal() ==> (r.value == Top <==> velocity.y > 0.0)
  {
    if !CheckCollision(moving, fixed) then None
    else if PushOutX(moving, fixed) < PushOutY(moving, fixed) then
      (if velocity.x > 0.0 then Some(Left) else Some(Right))
    else
      (if velocity.y > 0.0 then Some(Top) else Some(Bottom))
  }

  /**
   * With zero velocity an overlap is always pushed out to the right or to the
   * bottom, whatever the geometry: the velocity, not the position, picks the side.
   */
  lemma ZeroVelocityPushesRightOrDown(moving: Rectangle, fixed: Rectangle)
    requires CheckCollision(moving, fixed)
    ensures GetCollisionDirection(moving, fixed, Vector2D(0.0, 0.0)) in {Some(Right), Some(Bottom)}
  {
  }

  /** Gravity adds 0.5 to the vertical speed, capped at the maximum fall speed 15. */
  function ApplyGravity(v: Vector2D): (r: Vector2D)
    ensures r.x == v.x
    ensures r.y <= MaxVelocityY
    ensures r.y == v.y + Gravity || r.y == MaxVelocityY
    ensures v.y + Gravity <= MaxVelocityY ==> r.y == v.y + Gravity
    ensures v.y <= MaxVelocityY ==> r.y >= v.y
  {
    Vector2D(v.x, Min(v.y + Gravity, MaxVelocityY))
  }

  /** `n` successive applications of gravity. */
  function GravityIterate(v: Vector2D, n: nat): Vector2D
  {
    if n == 0 then v else ApplyGravity(GravityIterate(v, n - 1))
  }

  /** Repeated gravity never exceeds the cap: the vertical speed is min(vy + 0.5 n, 15). */
  lemma {:induction false} GravityIterateClosedForm(v: Vector2D, n: nat)
    requires v.y <= MaxVelocityY
    ensures GravityIterate(v, n).x == v.x
    ensures GravityIterate(v, n).y == Min(v.y + Gravity * n as real, MaxVelocityY)
    ensures GravityIterate(v, n).y <= MaxVelocityY
  {
    if n > 0 {
      GravityIterateClosedForm(v, n - 1);
    }
  }

  /** Friction scales the horizontal speed by 0.8 and leaves the vertical one. */
  function ApplyFriction(v: Vector2D): (r: Vector2D)
    ensures r.y == v.y
    ensures Abs(r.x) <= Abs(v.x)
    ensures v.x != 0.0 ==> Abs(r.x) < Abs(v.x)
    ensures (r.x > 0.0 <==> v.x > 0.0) && (r.x < 0.0 <==> v.x < 0.0)
  {
    Vector2D(v.x * Friction, v.y)
  }

  predicate InClampRange(v: Vector2D)
  {
    -MaxVelocityX <= v.x <= MaxVelocityX && -MaxVelocityY <= v.y <= MaxVelocityY
  }

  /** Clamps each component to its limit: the nearest vector within [-8,8] x [-15,15]. */
  function ClampVelocity(v: Vector2D): (r: Vector2D)
    ensures InClampRange(r)
    ensures InClampRange(v) ==> r == v
    ensures r.x == v.x || (v.x > MaxVelocityX && r.x == MaxVelocityX) || (v.x < -MaxVelocityX && r.x == -MaxVelocityX)
    ensures r.y == v.y || (v.y > MaxVelocityY && r.y == MaxVelocityY) || (v.y < -MaxVelocityY && r.y == -MaxVelocityY)
  {
    Vector2D(
      Max(-MaxVelocityX, Min(MaxVelocityX, v.x)),
      Max(-MaxVelocityY, Min(MaxVelocityY, v.y)))
  }

  lemma ClampIdempotent(v: Vector2D)
    ensures ClampVelocity(ClampVelocity(v)) == ClampVelocity(v)
  {
  }

  /** Whether the box at `position` with `size` lies within `bounds`, edges included. */
  predicate IsInBounds(position: Vector2D, size: Vector2D, bounds: Rectangle)
  {
    position.x >= bounds.x &&
    position.y >= bounds.y &&
    position.x + size.x <= bounds.x + bounds.width &&
    position.y + size.y <= bounds.y + bounds.height
  }

  /** A box of positive size that lies within the bounds overlaps them. */
  lemma InBoundsCollides(position: Vector2D, size: Vector2D, bounds: Rectangle)
    requires size.x > 0.0 && size.y > 0.0
    requires IsInBounds(position, size, bounds)
    ensures CheckCollision(Rectangle(position.x, position.y, size.x, size.y), bounds)
  {
  }

  datatype Resolution = Resolution(position: Vector2D, velocity: Vector2D)

  /**
   * Pushes the entity out of the obstacle on the side GetCollisionDirection picks:
   * the position snaps to that edge and the velocity on that axis becomes 0. The
   * other coordinate and velocity component stay as they were; with no collision
   * nothing changes.
   */
  function ResolveCollision(entity: Rectangle, obstacle: Rectangle, velocity: Vector2D): (r: Resolution)
    ensures GetCollisionDirection(entity, obstacle, velocity).None? ==>
              r == Resolution(Vector2D(entity.x, entity.y), velocity)
    ensures GetCollisionDirection(entity, obstacle, velocity) == Some(Top) ==>
              r == Resolution(Vector2D(entity.x, obstacle.y - entity.height), Vector2D(velocity.x, 0.0))
    ensures GetCollisionDirection(entity, obstacle, velocity) == Some(Bottom) ==>
              r == Resolution(Vector2D(entity.x, obstacle.y + obstacle.height), Vector2D(velocity.x, 0.0))
    ensures GetCollisionDirection(entity, obstacle, velocity) == Some(Left) ==>
              r == Resolution(Vector2D(obstacle.x - entity.width, entity.y), Vector2D(0.0, velocity.y))
    ensures GetCollisionDirection(entity, obstacle, velocity) == Some(Right) ==>
              r == Resolution(Vector2D(obstacle.x + obstacle.width, entity.y), Vector2D(0.0, velocity.y))
  {
    var newPosition := Vector2D(entity.x, entity.y);
    match GetCollisionDirection(entity, obstacle, velocity)
    case None => Resolution(newPosition, velocity)
    case Some(Top) => Resolution(newPosition.(y := obstacle.y - entity.height), velocity.(y := 0.0))
    case Some(Bottom) => Resolution(newPosition.(y := obstacle.y + obstacle.height), velocity.(y := 0.0))
    case Some(Left) => Resolution(newPosition.(x := obstacle.x - entity.width), velocity.(x := 0.0))
    case Some(Right) => Resolution(newPosition.(x := obstacle.x + obstacle.width), velocity.(x := 0.0))
  }

  function Moved(r: Rectangle, p: Vector2D): Rectangle
  {
    r.(x := p.x, y := p.y)
  }

  /** The rectangles share an edge and their intervals overlap on the other axis. */
  predicate Touching(a: Rectangle, b: Rectangle)
  {
    ((a.y + a.height == b.y || b.y + b.height == a.y) && a.x < b.x + b.width && a.x + a.width > b.x) ||
    ((a.x + a.width == b.x || b.x + b.width == a.x) && a.y < b.y + b.height && a.y + a.height > b.y)
  }

  /**
   * After a resolution of an actual collision the entity rests against the
   * obstacle: it touches it and no longer collides with it, and exactly one
   * coordinate and the matching velocity component have changed.
   */
  lemma ResolveSeparates(entity: Rectangle, obstacle: Rectangle, velocity: Vector2D)
    requires CheckCollision(entity, obstacle)
    ensures var r := ResolveCollision(entity, obstacle, velocity);
            !CheckCollision(Moved(entity, r.position), obstacle) &&
            Touching(Moved(entity, r.position), obstacle) &&
            ((r.position.x == entity.x && r.velocity.x == velocity.x && r.velocity.y == 0.0) ||
             (r.position.y == entity.y && r.velocity.y == velocity.y && r.velocity.x == 0.0))
  {
    var d := GetCollisionDirection(entity, obstacle, velocity);
    assert d.Some?;
  }
}
