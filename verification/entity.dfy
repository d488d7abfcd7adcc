/**
 * The base entity: position, velocity, size, optional sprite, kind, health,
 * facing, ground contact and liveness, with the accessors and mutators every
 * kind of entity shares. Players and enemies hold one of these as their body.
 */
module Entities {
  import opened GameTypes
  import Physics

  /** `config.health || 1`: a missing or zero health becomes 1. */
  function DefaultHealth(health: Option<int>): (r: int)
    ensures r != 0
    ensures health.Some? && health.value != 0 ==> r == health.value
  {
    if health.Some? && health.value != 0 then health.value else 1
  }

  /** `config.facingRight !== false`: facing right unless explicitly told otherwise. */
  function DefaultFacing(facingRight: Option<bool>): (r: bool)
    ensures !r <==> facingRight == Some(false)
  {
    facingRight != Some(false)
  }

  /** One application of gravity, friction while grounded, then the clamp. */
  function PhysicsStep(v: Vector2D, onGround: bool): (r: Vector2D)
    ensures Physics.InClampRange(r)
    ensures !onGround && -Physics.MaxVelocityX <= v.x <= Physics.MaxVelocityX ==> r.x == v.x
    ensures onGround && -Physics.MaxVelocityX <= v.x <= Physics.MaxVelocityX ==> Abs(r.x) <= Abs(v.x)
    ensures -Physics.MaxVelocityY - Physics.Gravity <= v.y ==> r.y == Min(v.y + Physics.Gravity, Physics.MaxVelocityY)
  {
    var g := Physics.ApplyGravity(v);
    var f := if onGround then Physics.ApplyFriction(g) else g;
    Physics.ClampVelocity(f)
  }

  /** The remainder of JavaScript's `%`: it takes the sign of the dividend. */
  function JsRem(a: int, b: int): (r: int)
    requires b != 0
    ensures a >= 0 && b > 0 ==> 0 <= r < b && r == a % b
  {
    var m := (if a >= 0 then a else -a) % (if b >= 0 then b else -b);
    if a >= 0 then m else -m
  }

  /**
   * One animation step: the timer advances by deltaTime; once it reaches the
   * animation speed the frame moves on cyclically and the timer restarts at 0.
   */
  function SpriteStep(s: Sprite, deltaTime: real): (r: Sprite)
    requires s.totalFrames != 0
    ensures s.totalFrames > 0 && 0 <= s.currentFrame < s.totalFrames ==> 0 <= r.currentFrame < s.totalFrames
    ensures r.currentFrame != s.currentFrame ==> r.animationTimer == 0.0
    ensures s.animationTimer + deltaTime < s.animationSpeed ==> r == s.(animationTimer := s.animationTimer + deltaTime)
    ensures s.animationTimer + deltaTime >= s.animationSpeed && 0 <= s.currentFrame < s.totalFrames ==>
              r.animationTimer == 0.0 &&
              r.currentFrame == (if s.currentFrame + 1 == s.totalFrames then 0 else s.currentFrame + 1)
    ensures r.(currentFrame := s.currentFrame, animationTimer := s.animationTimer) == s
  {
    var t := s.(animationTimer := s.animationTimer + deltaTime);
    if t.animationTimer >= t.animationSpeed then
      t.(currentFrame := JsRem(t.currentFrame + 1, t.totalFrames), animationTimer := 0.0)
    else t
  }

  /** The sprite after one animation step, when there is one. */
  function AdvanceSprite(s: Option<Sprite>, deltaTime: real): (r: Option<Sprite>)
    requires s.Some? ==> s.value.totalFrames != 0
    ensures r.Some? <==> s.Some?
    ensures r.Some? ==> r.value.totalFrames == s.value.totalFrames
  {
    if s.None? then None else Some(SpriteStep(s.value, deltaTime))
  }

  class Entity {
    var position: Vector2D
    var velocity: Vector2D
    var size: Vector2D
    var sprite: Option<Sprite>
    const kind: EntityType
    var health: int
    var facingRight: bool
    var onGround: bool
    var active: bool

    constructor (config: EntityConfig)
      ensures position == config.position && velocity == config.velocity && size == config.size
      ensures sprite == config.sprite && kind == config.kind
      ensures health == DefaultHealth(config.health) && facingRight == DefaultFacing(config.facingRight)
      ensures !onGround && active
    {
      position := config.position;
      velocity := config.velocity;
      size := config.size;
      sprite := config.sprite;
      kind := config.kind;
      health := DefaultHealth(config.health);
      facingRight := DefaultFacing(config.facingRight);
      onGround := false;
      active := true;
    }

    /** The collision box: the position as its corner and the size as its extent. */
    function GetRect(): (r: Rectangle)
      reads this
      ensures Physics.Moved(r, position) == r
      ensures r.width == size.x && r.height == size.y
    {
      Rectangle(position.x, position.y, size.x, size.y)
    }

    /** The midpoint of the box: equally far from opposite edges. */
    function GetCenter(): (r: Vector2D)
      reads this
      ensures r.x - position.x == position.x + size.x - r.x
      ensures r.y - position.y == position.y + size.y - r.y
    {
      Vector2D(position.x + size.x / 2.0, position.y + size.y / 2.0)
    }

    /** A sprite, when present, has a non-zero frame count, so the frame arithmetic is defined. */
    predicate SpriteOk()
      reads this
    {
      sprite.Some? ==> sprite.value.totalFrames != 0
    }

    predicate CheckCollision(other: Entity)
      reads this, other
    {
      Physics.CheckCollision(GetRect(), other.GetRect())
    }

    method SetPosition(x: real, y: real)
      modifies this`position
      ensures position == Vector2D(x, y)
    {
      position := Vector2D(x, y);
    }

    method Move(dx: real, dy: real)
      modifies this`position
      ensures position == Vector2D(old(position).x + dx, old(position).y + dy)
    {
      position := Vector2D(position.x + dx, position.y + dy);
    }

    method SetVelocity(vx: real, vy: real)
      modifies this`velocity
      ensures velocity == Vector2D(vx, vy)
    {
      velocity := Vector2D(vx, vy);
    }

    method AddVelocity(vx: real, vy: real)
      modifies this`velocity
      ensures velocity == Vector2D(old(velocity).x + vx, old(velocity).y + vy)
    {
      velocity := Vector2D(velocity.x + vx, velocity.y + vy);
    }

    method ApplyPhysics()
      modifies this`velocity
      ensures velocity == PhysicsStep(old(velocity), onGround)
      ensures Physics.InClampRange(velocity)
    {
      velocity := Physics.ApplyGravity(velocity);
      if onGround {
        velocity := Physics.ApplyFriction(velocity);
      }
      velocity := Physics.ClampVelocity(velocity);
    }

    method UpdateSprite(deltaTime: real)
      requires SpriteOk()
      modifies this`sprite
      ensures SpriteOk()
      ensures sprite == AdvanceSprite(old(sprite), deltaTime)
    {
      if sprite.None? {
        return;
      }
      var s := sprite.value.(animationTimer := sprite.value.animationTimer + deltaTime);
      if s.animationTimer >= s.animationSpeed {
        s := s.(currentFrame := JsRem(s.currentFrame + 1, s.totalFrames), animationTimer := 0.0);
      }
      sprite := Some(s);
    }

    /** Subtracts the damage and reports whether the entity is out of health. */
    method TakeDamage(damage: int) returns (dead: bool)
      modifies this`health
      ensures health == old(health) - damage
      ensures dead <==> health <= 0
    {
      health := health - damage;
      dead := health <= 0;
    }

    method Heal(amount: int)
      modifies this`health
      ensures health == old(health) + amount
    {
      health := health + amount;
    }

    predicate IsAlive()
      reads this
    {
      health > 0 && active
    }

    /** Logical deletion; the resulting state does not depend on the earlier one, so it is idempotent. */
    method Destroy()
      modifies this`active, this`health
      ensures !active && health == 0
      ensures !IsAlive()
    {
      active := false;
      health := 0;
    }

    function GetBounds(): (r: Rectangle)
      reads this
      ensures r == GetRect()
    {
      GetRect()
    }
  }
}
