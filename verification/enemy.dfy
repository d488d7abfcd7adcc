/**
 * Enemies: an entity body that patrols around the point where it was placed,
 * turning when it strays more than half its patrol distance from it or hits a
 * wall. Goombas and Koopas differ in size, speed and patrol distance; a Koopa
 * also has a shell state (walking, shell, kicked shell) that only moves forward.
 */
module Enemies {
  import opened GameTypes
  import Physics
  import opened Entities

  datatype Patrol = Patrol(vx: real, direction: int, facingRight: bool)

  /**
   * updateAI: the horizontal speed follows the current direction; the direction
   * (and the facing with it) turns only when the enemy is more than half the
   * patrol distance away from the patrol centre.
   */
  function PatrolStep(x: real, centerX: real, patrolDistance: real, direction: int, speed: real,
                      facingRight: bool): (r: Patrol)
    ensures r.vx == direction as real * speed
    ensures Abs(x - centerX) <= patrolDistance / 2.0 ==> r.direction == direction && r.facingRight == facingRight
    ensures Abs(x - centerX) > patrolDistance / 2.0 ==> r.direction == -direction && (r.facingRight <==> r.direction > 0)
    ensures direction in {-1, 1} ==> r.direction in {-1, 1}
  {
    var vx := direction as real * speed;
    if Abs(x - centerX) > patrolDistance / 2.0 then Patrol(vx, -direction, -direction > 0)
    else Patrol(vx, direction, facingRight)
  }

  /** The horizontal part of a patrol: position and direction. */
  datatype Walker = Walker(x: real, direction: int)

  /**
   * One frame of patrolling along x when each frame moves the enemy by `step`
   * times its direction (`step` is the speed in the air, 0.8 times it on the
   * ground), ignoring blocks.
   */
  function Walk(w: Walker, centerX: real, patrolDistance: real, step: real): Walker
  {
    var p := PatrolStep(w.x, centerX, patrolDistance, w.direction, step, false);
    Walker(w.x + p.vx, p.direction)
  }

  function WalkN(w: Walker, centerX: real, patrolDistance: real, step: real, n: nat): Walker
  {
    if n == 0 then w else Walk(WalkN(w, centerX, patrolDistance, step, n - 1), centerX, patrolDistance, step)
  }

  /** In the air the clamp and gravity leave the patrol speed alone: a frame moves x by direction * speed. */
  lemma AirborneStepIsPatrolSpeed(direction: int, speed: real, vy: real)
    requires direction in {-1, 1} && 0.0 <= speed <= Physics.MaxVelocityX
    ensures PhysicsStep(Vector2D(direction as real * speed, vy), false).x == direction as real * speed
  {
  }

  /** From the patrol centre, walking left, the enemy moves one step per frame while it is inside the range. */
  lemma {:induction false} WalkOutward(centerX: real, patrolDistance: real, step: real, n: nat)
    requires step > 0.0
    requires n > 0 ==> (n - 1) as real * step <= patrolDistance / 2.0
    ensures WalkN(Walker(centerX, -1), centerX, patrolDistance, step, n) == Walker(centerX - n as real * step, -1)
  {
    if n > 0 {
      var k := (n - 1) as real;
      OneMoreStep(n - 1, step);
      if n > 1 {
        OneMoreStep(n - 2, step);
      }
      WalkOutward(centerX, patrolDistance, step, n - 1);
      ProductNonNegative(k, step);
      WalkLeftInside(centerX - k * step, centerX, patrolDistance, step);
    }
  }

  lemma OneMoreStep(k: nat, step: real)
    ensures (k + 1) as real * step == k as real * step + step
  {
  }

  /** Inside the range a left-walking enemy keeps walking left, one step per frame. */
  lemma WalkLeftInside(x: real, centerX: real, patrolDistance: real, step: real)
    requires Abs(x - centerX) <= patrolDistance / 2.0
    ensures Walk(Walker(x, -1), centerX, patrolDistance, step) == Walker(x - step, -1)
  {
  }

  /**
   * Outside the range, when the next step keeps the enemy outside too, two
   * frames bring it back exactly where it was: it turns every frame and never
   * re-enters its patrol range.
   */
  lemma OscillatesOutsideRange(w: Walker, centerX: real, patrolDistance: real, step: real)
    requires w.direction in {-1, 1}
    requires Abs(w.x - centerX) > patrolDistance / 2.0
    requires Abs(w.x + w.direction as real * step - centerX) > patrolDistance / 2.0
    ensures Walk(Walk(w, centerX, patrolDistance, step), centerX, patrolDistance, step) == w
    ensures step > 0.0 ==> Walk(w, centerX, patrolDistance, step) != w
  {
  }

  /**
   * A patrol that starts at its centre, walking left, leaves its range after
   * the n-th frame and from then on alternates for ever between two positions
   * just outside it, instead of walking back across the range.
   */
  lemma {:induction false} PatrolGetsStuck(centerX: real, patrolDistance: real, step: real, n: nat, m: nat)
    requires step > 0.0 && n > 0
    requires (n - 1) as real * step <= patrolDistance / 2.0 < n as real * step
    ensures WalkN(Walker(centerX, -1), centerX, patrolDistance, step, n + 2 * m) == Walker(centerX - n as real * step, -1)
    ensures Abs(centerX - n as real * step - centerX) > patrolDistance / 2.0
  {
    if m == 0 {
      WalkOutward(centerX, patrolDistance, step, n);
    } else {
      PatrolGetsStuck(centerX, patrolDistance, step, n, m - 1);
      var w := Walker(centerX - n as real * step, -1);
      assert WalkN(Walker(centerX, -1), centerX, patrolDistance, step, n + 2 * m) ==
             Walk(WalkN(Walker(centerX, -1), centerX, patrolDistance, step, n + 2 * (m - 1) + 1), centerX, patrolDistance, step);
      OscillatesOutsideRange(w, centerX, patrolDistance, step);
    }
  }

  /** The shell state of a Koopa. */
  datatype ShellState = Walking | Shell | Kicked

  function ShellOf(isShell: bool, shellKicked: bool): ShellState
  {
    if shellKicked then Kicked else if isShell then Shell else Walking
  }

  /** stomp moves a walking Koopa into its shell and a resting shell into a kicked one; a kicked shell stays kicked. */
  function StompShell(s: ShellState): (r: ShellState)
    ensures s == Walking ==> r == Shell
    ensures s != Walking ==> r == Kicked
  {
    match s
    case Walking => Shell
    case Shell => Kicked
    case Kicked => Kicked
  }

  function ShellRank(s: ShellState): nat
  {
    match s
    case Walking => 0
    case Shell => 1
    case Kicked => 2
  }

  /** There are no backward transitions, and two stomps from any state end kicked. */
  lemma StompIsMonotone(s: ShellState)
    ensures ShellRank(StompShell(s)) >= ShellRank(s)
    ensures StompShell(s) == s <==> s == Kicked
    ensures StompShell(StompShell(s)) == Kicked
  {
  }

  const GoombaSize: Vector2D := Vector2D(16.0, 16.0)
  const KoopaSize: Vector2D := Vector2D(16.0, 24.0)

  class Enemy {
    const body: Entity
    const koopa: bool
    var movementSpeed: real
    var movementDirection: int
    const patrolDistance: real
    const initialPosition: Vector2D
    const patrolCenter: Vector2D
    var isShell: bool
    var shellKicked: bool

    ghost predicate Valid()
      reads this, body
    {
      movementDirection in {-1, 1} && body.SpriteOk() &&
      (koopa <==> body.kind == KoopaEntity) &&
      (shellKicked ==> isShell) && (!koopa ==> !isShell)
    }

    /** A plain enemy: the patrol is centred where it is placed and starts to the left. */
    constructor (config: EntityConfig, movementSpeed: real, patrolDistance: real)
      requires config.sprite.Some? ==> config.sprite.value.totalFrames != 0
      requires config.kind != KoopaEntity
      ensures Valid() && fresh(body) && !koopa
      ensures body.position == config.position && body.velocity == config.velocity && body.size == config.size
      ensures body.kind == config.kind && body.health == DefaultHealth(config.health)
      ensures body.facingRight == DefaultFacing(config.facingRight) && body.active && !body.onGround
      ensures this.movementSpeed == movementSpeed && this.patrolDistance == patrolDistance && movementDirection == -1
      ensures initialPosition == config.position && patrolCenter == config.position
      ensures !isShell && !shellKicked
    {
      body := new Entity(config);
      koopa := false;
      this.movementSpeed := movementSpeed;
      movementDirection := -1;
      this.patrolDistance := patrolDistance;
      initialPosition := config.position;
      patrolCenter := config.position;
      isShell := false;
      shellKicked := false;
    }

    /** A Goomba: 16 by 16, speed 1, patrol distance 120. */
    constructor Goomba(position: Vector2D)
      ensures Valid() && fresh(body) && !koopa
      ensures body.position == position && body.velocity == Vector2D(0.0, 0.0) && body.size == GoombaSize
      ensures body.kind == GoombaEntity && body.health == 1 && body.facingRight && body.active && !body.onGround
      ensures movementSpeed == 1.0 && patrolDistance == 120.0 && movementDirection == -1
      ensures initialPosition == position && patrolCenter == position
      ensures !isShell && !shellKicked
    {
      body := new Entity(EntityConfig(position, Vector2D(0.0, 0.0), GoombaSize, None, GoombaEntity, None, None));
      koopa := false;
      movementSpeed := 1.0;
      movementDirection := -1;
      patrolDistance := 120.0;
      initialPosition := position;
      patrolCenter := position;
      isShell := false;
      shellKicked := false;
    }

    /** A Koopa: 16 by 24, speed 1.5, patrol distance 100, out of its shell. */
    constructor Koopa(position: Vector2D)
      ensures Valid() && fresh(body) && koopa
      ensures body.position == position && body.velocity == Vector2D(0.0, 0.0) && body.size == KoopaSize
      ensures body.kind == KoopaEntity && body.health == 1 && body.facingRight && body.active && !body.onGround
      ensures movementSpeed == 1.5 && patrolDistance == 100.0 && movementDirection == -1
      ensures initialPosition == position && patrolCenter == position
      ensures !isShell && !shellKicked
    {
      body := new Entity(EntityConfig(position, Vector2D(0.0, 0.0), KoopaSize, None, KoopaEntity, None, None));
      koopa := true;
      movementSpeed := 1.5;
      movementDirection := -1;
      patrolDistance := 100.0;
      initialPosition := position;
      patrolCenter := position;
      isShell := false;
      shellKicked := false;
    }

    method UpdateAI()
      requires Valid()
      modifies this`movementDirection, body`velocity, body`facingRight
      ensures Valid()
      ensures Patrol(body.velocity.x, movementDirection, body.facingRight) ==
              PatrolStep(body.position.x, patrolCenter.x, patrolDistance, old(movementDirection), movementSpeed,
                         old(body.facingRight))
      ensures body.velocity.y == old(body.velocity.y)
    {
      body.velocity := body.velocity.(x := movementDirection as real * movementSpeed);
      var distanceFromCenter := body.position.x - patrolCenter.x;
      if Abs(distanceFromCenter) > patrolDistance / 2.0 {
        movementDirection := -movementDirection;
        body.facingRight := movementDirection > 0;
      }
    }

    /** Turns around; doing it twice restores the direction. */
    method HandleWallCollision()
      requires Valid()
      modifies this`movementDirection, body`facingRight
      ensures Valid()
      ensures movementDirection == -old(movementDirection)
      ensures body.facingRight <==> movementDirection > 0
    {
      movementDirection := -movementDirection;
      body.facingRight := movementDirection > 0;
    }

    /** Enemy.update: patrol, physics, integration, animation and the ground flag cleared. */
    method BaseUpdate(deltaTime: real)
      requires Valid()
      modifies this`movementDirection, body`velocity, body`facingRight, body`position, body`sprite, body`onGround
      ensures Valid()
      ensures !body.active ==> unchanged(this, body)
      ensures body.active ==>
                var p := PatrolStep(old(body.position.x), patrolCenter.x, patrolDistance, old(movementDirection),
                                    movementSpeed, old(body.facingRight));
                var v := PhysicsStep(Vector2D(p.vx, old(body.velocity.y)), old(body.onGround));
                movementDirection == p.direction && body.facingRight == p.facingRight &&
                body.velocity == v &&
                body.position == Vector2D(old(body.position.x) + v.x, old(body.position.y) + v.y) &&
                body.sprite == AdvanceSprite(old(body.sprite), deltaTime) && !body.onGround
    {
      if !body.active {
        return;
      }
      UpdateAI();
      body.ApplyPhysics();
      body.position := Vector2D(body.position.x + body.velocity.x, body.position.y + body.velocity.y);
      body.UpdateSprite(deltaTime);
      body.onGround := false;
    }

    /**
     * Koopa.update: a resting shell stops, a kicked shell gets physics without
     * patrolling, and a walking Koopa runs the plain enemy update; in every
     * case the position is then integrated and the sprite advanced once more,
     * so a walking Koopa moves twice its velocity per frame. None of the three
     * branches checks that the Koopa is active.
     */
    method KoopaUpdate(deltaTime: real)
      requires Valid() && koopa
      modifies this`movementDirection, body`velocity, body`facingRight, body`position, body`sprite, body`onGround
      ensures Valid()
      ensures !body.onGround
      ensures isShell && !shellKicked ==>
                body.velocity == old(body.velocity).(x := 0.0) &&
                body.position == Vector2D(old(body.position.x), old(body.position.y) + body.velocity.y) &&
                body.sprite == AdvanceSprite(old(body.sprite), deltaTime) &&
                unchanged(this) && body.facingRight == old(body.facingRight)
      ensures shellKicked ==>
                body.velocity == PhysicsStep(old(body.velocity), old(body.onGround)) &&
                body.position == Vector2D(old(body.position.x) + body.velocity.x, old(body.position.y) + body.velocity.y) &&
                body.sprite == AdvanceSprite(old(body.sprite), deltaTime) &&
                unchanged(this) && body.facingRight == old(body.facingRight)
      ensures !isShell && body.active ==>
                var p := PatrolStep(old(body.position.x), patrolCenter.x, patrolDistance, old(movementDirection),
                                    movementSpeed, old(body.facingRight));
                var v := PhysicsStep(Vector2D(p.vx, old(body.velocity.y)), old(body.onGround));
                movementDirection == p.direction && body.facingRight == p.facingRight &&
                body.velocity == v &&
                body.position == Vector2D(old(body.position.x) + 2.0 * v.x, old(body.position.y) + 2.0 * v.y) &&
                body.sprite == AdvanceSprite(AdvanceSprite(old(body.sprite), deltaTime), deltaTime)
      ensures !isShell && !body.active ==>
                body.velocity == old(body.velocity) &&
                body.position == Vector2D(old(body.position.x) + body.velocity.x, old(body.position.y) + body.velocity.y) &&
                body.sprite == AdvanceSprite(old(body.sprite), deltaTime) &&
                unchanged(this) && body.facingRight == old(body.facingRight)
    {
      if isShell && !shellKicked {
        body.velocity := body.velocity.(x := 0.0);
      } else if shellKicked {
        body.ApplyPhysics();
      } else {
        BaseUpdate(deltaTime);
      }
      body.position := Vector2D(body.position.x + body.velocity.x, body.position.y + body.velocity.y);
      body.UpdateSprite(deltaTime);
      body.onGround := false;
    }

    /** The update the engine calls: Koopa.update for a Koopa, Enemy.update otherwise. */
    method Update(deltaTime: real)
      requires Valid()
      modifies this`movementDirection, body`velocity, body`facingRight, body`position, body`sprite, body`onGround
      ensures Valid()
      ensures !koopa && !body.active ==> unchanged(this, body)
      ensures body.active ==> !body.onGround
    {
      if koopa {
        KoopaUpdate(deltaTime);
      } else {
        BaseUpdate(deltaTime);
      }
    }

    /** Turns only when hitting a block; the player's collision logic lives with the player. */
    method HandleCollision(other: Entity)
      requires Valid()
      modifies this`movementDirection, body`facingRight
      ensures Valid()
      ensures body.active && other.kind == BlockEntity ==>
                movementDirection == -old(movementDirection) && (body.facingRight <==> movementDirection > 0)
      ensures !(body.active && other.kind == BlockEntity) ==> unchanged(this, body)
    {
      if !body.active {
        return;
      }
      if other.kind == BlockEntity {
        HandleWallCollision();
      }
    }

    /**
     * Back to the placement point, still, alive, heading left and facing left;
     * a Koopa also leaves its shell and regains its full height of 24. The
     * movement speed is not restored, so a Koopa whose stomp set it to 0
     * stays still after a reset.
     */
    method Reset()
      requires Valid()
      modifies this`movementDirection, this`isShell, this`shellKicked
      modifies body`position, body`velocity, body`health, body`active, body`onGround, body`facingRight, body`size
      ensures Valid()
      ensures body.position == initialPosition && body.velocity == Vector2D(0.0, 0.0)
      ensures body.health == 1 && body.active && !body.onGround
      ensures movementDirection == -1 && !body.facingRight
      ensures !isShell && !shellKicked
      ensures koopa ==> body.size == old(body.size).(y := 24.0)
      ensures !koopa ==> body.size == old(body.size)
      ensures movementSpeed == old(movementSpeed)
    {
      body.position := initialPosition;
      body.velocity := Vector2D(0.0, 0.0);
      body.health := 1;
      body.active := true;
      body.onGround := false;
      movementDirection := -1;
      body.facingRight := false;
      if koopa {
        isShell := false;
        shellKicked := false;
        body.size := body.size.(y := 24.0);
      }
    }

    /**
     * Koopa.stomp: the first stomp turns a walking Koopa into a resting shell
     * (height 16, moved down 8, stopped, speed 0); the next kicks the shell at
     * speed 8 in the facing direction; later stomps change nothing.
     */
    method Stomp()
      requires Valid() && koopa
      modifies this`isShell, this`shellKicked, this`movementSpeed, body`size, body`position, body`velocity
      ensures Valid()
      ensures ShellOf(isShell, shellKicked) == StompShell(old(ShellOf(isShell, shellKicked)))
      ensures old(!isShell) ==>
                body.size == old(body.size).(y := 16.0) &&
                body.position == old(body.position).(y := old(body.position.y) + 8.0) &&
                body.velocity == old(body.velocity).(x := 0.0) && movementSpeed == 0.0
      ensures old(isShell && !shellKicked) ==>
                body.velocity == old(body.velocity).(x := if body.facingRight then 8.0 else -8.0) &&
                body.size == old(body.size) && body.position == old(body.position) && movementSpeed == old(movementSpeed)
      ensures old(shellKicked) ==> unchanged(this, body)
    {
      if !isShell {
        isShell := true;
        body.size := body.size.(y := 16.0);
        body.position := body.position.(y := body.position.y + 8.0);
        body.velocity := body.velocity.(x := 0.0);
        movementSpeed := 0.0;
      } else if !shellKicked {
        shellKicked := true;
        body.velocity := body.velocity.(x := if body.facingRight then 8.0 else -8.0);
      }
    }
  }
}
