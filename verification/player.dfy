/**
 * The player: an entity body plus the jump buffer, coyote time, running and
 * crouching flags, the invulnerability timer, the spawn point and the power
 * level. Each piece of input handling is specified by a pure step function
 * over the few values it touches; the class methods apply those steps to
 * the body's fields.
 */
module Players {
  import opened GameTypes
  import Physics
  import opened Entities

  /** Length of the jump buffer and of coyote time, in milliseconds. */
  const JumpWindow: real := 150.0
  /** Invulnerability after being hit while powered up, in milliseconds. */
  const HitInvulnerability: real := 2000.0
  /** The small bounce after a stomp: half the jump force. */
  const StompBounce: real := Physics.JumpForce * 0.5

  function Accel(running: bool): real
  {
    if running then Physics.Acceleration * 1.5 else Physics.Acceleration
  }

  function MaxSpeed(running: bool): real
  {
    if running then Physics.MaxVelocityX * 1.2 else Physics.MaxVelocityX * 0.8
  }

  datatype Steering = Steering(vx: real, facingRight: bool)

  /**
   * Horizontal steering: with exactly one of left/right held the speed moves by
   * the acceleration towards that side, capped at the maximum speed, and the
   * player faces that side; with both or neither held nothing changes.
   */
  function Steer(vx: real, facingRight: bool, input: InputState, running: bool): (r: Steering)
    ensures input.left == input.right ==> r == Steering(vx, facingRight)
    ensures input.left && !input.right ==>
              !r.facingRight && r.vx >= -MaxSpeed(running) &&
              (r.vx == vx - Accel(running) || r.vx == -MaxSpeed(running)) &&
              (vx - Accel(running) >= -MaxSpeed(running) ==> r.vx == vx - Accel(running))
    ensures input.right && !input.left ==>
              r.facingRight && r.vx <= MaxSpeed(running) &&
              (r.vx == vx + Accel(running) || r.vx == MaxSpeed(running)) &&
              (vx + Accel(running) <= MaxSpeed(running) ==> r.vx == vx + Accel(running))
  {
    if input.left && !input.right then Steering(Max(vx - Accel(running), -MaxSpeed(running)), false)
    else if input.right && !input.left then Steering(Min(vx + Accel(running), MaxSpeed(running)), true)
    else Steering(vx, facingRight)
  }

  /** Steering never takes a speed that is within the cap out of it. */
  lemma SteerWithinSpeed(vx: real, facingRight: bool, input: InputState, running: bool)
    requires Abs(vx) <= MaxSpeed(running)
    ensures Abs(Steer(vx, facingRight, input, running).vx) <= MaxSpeed(running)
  {
  }

  datatype JumpState = JumpState(vy: real, jumpBuffer: real, coyoteTime: real, onGround: bool)

  /** A jump fires when a press is pending (now or buffered) and the player is on the ground or in coyote time. */
  predicate JumpFires(s: JumpState, jump: bool)
  {
    (jump || s.jumpBuffer > 0.0) && (s.onGround || s.coyoteTime > 0.0)
  }

  /**
   * handleJumping: a press refills the buffer, ground contact refills coyote
   * time, a jump that fires sets the jump force and clears both timers and the
   * ground flag, and then an upward speed is halved when jump is not held.
   */
  function HandleJump(s: JumpState, jump: bool): (r: JumpState)
    ensures JumpFires(s, jump) ==>
              r == JumpState(if jump then Physics.JumpForce else Physics.JumpForce * 0.5, 0.0, 0.0, false)
    ensures !JumpFires(s, jump) ==>
              r.onGround == s.onGround &&
              r.jumpBuffer == (if jump then JumpWindow else s.jumpBuffer) &&
              r.coyoteTime == (if s.onGround then JumpWindow else s.coyoteTime)
    ensures !JumpFires(s, jump) && (jump || s.vy >= 0.0) ==> r.vy == s.vy
    ensures !JumpFires(s, jump) && !jump && s.vy < 0.0 ==> r.vy == s.vy / 2.0
  {
    var jumpBuffer := if jump then JumpWindow else s.jumpBuffer;
    var coyoteTime := if s.onGround then JumpWindow else s.coyoteTime;
    var t := if jumpBuffer > 0.0 && (s.onGround || coyoteTime > 0.0)
             then JumpState(Physics.JumpForce, 0.0, 0.0, false)
             else JumpState(s.vy, jumpBuffer, coyoteTime, s.onGround);
    if !jump && t.vy < 0.0 then t.(vy := t.vy * 0.5) else t
  }

  /** A timer counting down by deltaTime and stopping at 0. */
  function Decay(t: real, deltaTime: real): (r: real)
    ensures r >= 0.0
    ensures deltaTime >= 0.0 && t >= 0.0 ==> r <= t
    ensures r > 0.0 <==> t - deltaTime > 0.0
  {
    Max(0.0, t - deltaTime)
  }

  /** `n` updates of a countdown timer with the same frame time. */
  function DecayN(t: real, deltaTime: real, n: nat): real
  {
    if n == 0 then t else Decay(DecayN(t, deltaTime, n - 1), deltaTime)
  }

  lemma {:induction false} DecayNClosedForm(t: real, deltaTime: real, n: nat)
    requires t >= 0.0 && deltaTime >= 0.0
    ensures DecayN(t, deltaTime, n) == Max(0.0, t - n as real * deltaTime)
  {
    if n > 0 {
      DecayNClosedForm(t, deltaTime, n - 1);
    }
  }

  /**
   * A jump pressed in the air is remembered for 150 ms. Jump handling runs
   * only when the input record changes, so the buffered jump is tried at the
   * first key change after landing: n frame updates after the press it fires
   * exactly when those frames took less than 150 ms, and at half strength
   * because the jump key is no longer held.
   */
  lemma BufferedJumpWindow(vy: real, coyoteTime: real, deltaTime: real, n: nat)
    requires deltaTime >= 0.0
    ensures var r := HandleJump(JumpState(vy, DecayN(JumpWindow, deltaTime, n), coyoteTime, true), false);
            (!r.onGround <==> n as real * deltaTime < JumpWindow) &&
            (n as real * deltaTime < JumpWindow ==> r.vy == Physics.JumpForce * 0.5)
  {
    DecayNClosedForm(JumpWindow, deltaTime, n);
  }

  /**
   * Coyote time. Jump handling runs only when the input record changes, so
   * the 150 ms are refilled only by a key change while the player stands on
   * the ground. Once off the ground, a jump press n frame updates after that
   * refill fires, at full force, exactly when those frames took less than
   * 150 ms; otherwise it is only buffered.
   */
  lemma CoyoteWindow(vy: real, jumpBuffer: real, deltaTime: real, n: nat)
    requires deltaTime >= 0.0
    ensures var s := JumpState(vy, jumpBuffer, DecayN(JumpWindow, deltaTime, n), false);
            (JumpFires(s, true) <==> n as real * deltaTime < JumpWindow) &&
            (n as real * deltaTime < JumpWindow ==> HandleJump(s, true) == JumpState(Physics.JumpForce, 0.0, 0.0, false)) &&
            (n as real * deltaTime >= JumpWindow ==>
               HandleJump(s, true).vy == vy && HandleJump(s, true).jumpBuffer == JumpWindow && !HandleJump(s, true).onGround)
  {
    DecayNClosedForm(JumpWindow, deltaTime, n);
  }

  datatype Shield = Shield(invulnerable: bool, timer: real)

  /** The invulnerability part of updateTimers: the timer runs down while invulnerable and ends it at 0. */
  function ShieldStep(s: Shield, deltaTime: real): (r: Shield)
    ensures !s.invulnerable ==> r == s
    ensures s.invulnerable ==> r.timer == s.timer - deltaTime && (r.invulnerable <==> r.timer > 0.0)
  {
    if s.invulnerable then Shield(s.timer - deltaTime > 0.0, s.timer - deltaTime) else s
  }

  function ShieldN(s: Shield, deltaTime: real, n: nat): Shield
  {
    if n == 0 then s else ShieldStep(ShieldN(s, deltaTime, n - 1), deltaTime)
  }

  /**
   * Invulnerability granted for `duration` lasts through exactly the updates
   * whose accumulated frame time stays below it.
   */
  lemma {:induction false} InvulnerabilityLasts(duration: real, deltaTime: real, n: nat)
    requires duration > 0.0 && deltaTime >= 0.0
    ensures ShieldN(Shield(true, duration), deltaTime, n).invulnerable <==> duration - n as real * deltaTime > 0.0
    ensures ShieldN(Shield(true, duration), deltaTime, n).invulnerable ==>
              ShieldN(Shield(true, duration), deltaTime, n).timer == duration - n as real * deltaTime
  {
    if n > 0 {
      InvulnerabilityLasts(duration, deltaTime, n - 1);
    }
  }

  datatype Posture = Posture(crouching: bool, y: real, height: real)

  /**
   * handleCrouching: the player crouches exactly while down is held on the
   * ground; entering halves the height and leaving doubles it, and in both the
   * top edge moves so that the feet stay where they were.
   */
  function Crouch(p: Posture, down: bool, onGround: bool): (r: Posture)
    ensures r.crouching == (down && onGround)
    ensures r.y + r.height == p.y + p.height
    ensures r.crouching && !p.crouching ==> r.height == p.height / 2.0
    ensures !r.crouching && p.crouching ==> r.height == p.height * 2.0
    ensures r.crouching == p.crouching ==> r == p
  {
    var crouching := down && onGround;
    if crouching && !p.crouching then
      var h := p.height * 0.5;
      Posture(true, p.y + h, h)
    else if !crouching && p.crouching then
      Posture(false, p.y - p.height, p.height * 2.0)
    else p.(crouching := crouching)
  }

  /** Crouching and then standing up restores the hitbox exactly. */
  lemma CrouchThenStand(p: Posture, onGround: bool)
    requires !p.crouching
    ensures Crouch(Crouch(p, true, true), false, onGround) == p
  {
  }

  datatype Stature = Stature(powerLevel: int, y: real, height: real)

  /** powerUp: one level up to a maximum of 2; growing from small doubles the height with the feet in place. */
  function PowerUpStep(s: Stature): (r: Stature)
    ensures s.powerLevel >= 2 ==> r == s
    ensures s.powerLevel < 2 ==> r.powerLevel == s.powerLevel + 1
    ensures 0 <= s.powerLevel <= 2 ==> 0 <= r.powerLevel <= 2
    ensures s.powerLevel == 0 ==> r.height == 2.0 * s.height && r.y + r.height == s.y + s.height
    ensures s.powerLevel != 0 ==> r.height == s.height && r.y == s.y
  {
    if s.powerLevel < 2 then
      var level := s.powerLevel + 1;
      if level == 1 then
        var h := s.height * 2.0;
        Stature(level, s.y - h / 2.0, h)
      else s.(powerLevel := level)
    else s
  }

  /**
   * powerDown: one level down to a minimum of 0; shrinking to small halves the
   * height but moves the top edge down by only a quarter of the old height, so
   * the feet end up a quarter of the tall height above where they were.
   */
  function PowerDownStep(s: Stature): (r: Stature)
    ensures s.powerLevel <= 0 ==> r == s
    ensures s.powerLevel > 0 ==> r.powerLevel == s.powerLevel - 1
    ensures 0 <= s.powerLevel <= 2 ==> 0 <= r.powerLevel <= 2
    ensures s.powerLevel == 1 ==> r.height == s.height / 2.0 && r.y + r.height == s.y + s.height - s.height / 4.0
    ensures s.powerLevel != 1 ==> r.height == s.height && r.y == s.y
  {
    if s.powerLevel > 0 then
      var level := s.powerLevel - 1;
      if level == 0 then
        var h := s.height / 2.0;
        Stature(level, s.y + h / 2.0, h)
      else s.(powerLevel := level)
    else s
  }

  /** Growing and then shrinking restores the height, but the top edge ends half the small height higher. */
  lemma PowerUpThenDown(s: Stature)
    requires s.powerLevel == 0
    ensures PowerDownStep(PowerUpStep(s)) == Stature(0, s.y - s.height / 2.0, s.height)
  {
  }

  /** What handling an input record reads and changes of the player. */
  datatype Pilot = Pilot(
    velocity: Vector2D, facingRight: bool, jumpBuffer: real, coyoteTime: real, onGround: bool,
    crouching: bool, position: Vector2D, size: Vector2D, running: bool)

  /**
   * handleInput on an active player: steering with the running flag of the
   * previous record, then jumping, then crouching against the ground flag the
   * jump left, and last the new running flag. A jump that fires takes the
   * player off the ground, so it also ends or prevents a crouch.
   */
  function TakeInput(p: Pilot, input: InputState): (r: Pilot)
    ensures Steering(r.velocity.x, r.facingRight) == Steer(p.velocity.x, p.facingRight, input, p.running)
    ensures JumpState(r.velocity.y, r.jumpBuffer, r.coyoteTime, r.onGround) ==
            HandleJump(JumpState(p.velocity.y, p.jumpBuffer, p.coyoteTime, p.onGround), input.jump)
    ensures r.onGround <==> p.onGround && !JumpFires(JumpState(p.velocity.y, p.jumpBuffer, p.coyoteTime, p.onGround), input.jump)
    ensures r.crouching <==> input.down && r.onGround
    ensures r.position.x == p.position.x && r.size.x == p.size.x
    ensures r.position.y + r.size.y == p.position.y + p.size.y
    ensures r.running == input.run
  {
    var st := Steer(p.velocity.x, p.facingRight, input, p.running);
    var j := HandleJump(JumpState(p.velocity.y, p.jumpBuffer, p.coyoteTime, p.onGround), input.jump);
    var c := Crouch(Posture(p.crouching, p.position.y, p.size.y), input.down, j.onGround);
    Pilot(Vector2D(st.vx, j.vy), st.facingRight, j.jumpBuffer, j.coyoteTime, j.onGround,
          c.crouching, Vector2D(p.position.x, c.y), Vector2D(p.size.x, c.height), input.run)
  }

  /** TakeInput assembled from its three steps. */
  lemma TakeInputParts(p: Pilot, input: InputState, r: Pilot)
    requires Steering(r.velocity.x, r.facingRight) == Steer(p.velocity.x, p.facingRight, input, p.running)
    requires JumpState(r.velocity.y, r.jumpBuffer, r.coyoteTime, r.onGround) ==
             HandleJump(JumpState(p.velocity.y, p.jumpBuffer, p.coyoteTime, p.onGround), input.jump)
    requires Posture(r.crouching, r.position.y, r.size.y) == Crouch(Posture(p.crouching, p.position.y, p.size.y), input.down, r.onGround)
    requires r.position.x == p.position.x && r.size.x == p.size.x && r.running == input.run
    ensures r == TakeInput(p, input)
  {
  }

  /** The stomp rule: the player's center is above the enemy's and the player is falling. */
  predicate Stomps(playerCenterY: real, enemyCenterY: real, vy: real)
  {
    playerCenterY < enemyCenterY && vy > 0.0
  }

  /** The part of the player that meeting an enemy reads or changes. */
  datatype Fighter = Fighter(
    position: Vector2D, size: Vector2D, velocity: Vector2D, active: bool, health: int,
    powerLevel: int, invulnerable: bool, invulnerabilityTimer: real)

  function FighterRect(f: Fighter): Rectangle
  {
    Rectangle(f.position.x, f.position.y, f.size.x, f.size.y)
  }

  function FighterCenterY(f: Fighter): real
  {
    f.position.y + f.size.y / 2.0
  }

  /**
   * handleEnemyCollision on the player's side: falling onto the enemy from
   * above bounces the player at half the jump force and changes nothing else;
   * any other contact shrinks a powered-up player (as powerDown does) and
   * makes it invulnerable for 2000 ms, and destroys a small one. Either way a
   * player that was hit cannot be hit again straight away.
   */
  function EnemyHit(f: Fighter, enemyCenterY: real): (r: Fighter)
    ensures Stomps(FighterCenterY(f), enemyCenterY, f.velocity.y) ==> r == f.(velocity := f.velocity.(y := StompBounce))
    ensures !Stomps(FighterCenterY(f), enemyCenterY, f.velocity.y) && f.powerLevel > 0 ==>
              Stature(r.powerLevel, r.position.y, r.size.y) == PowerDownStep(Stature(f.powerLevel, f.position.y, f.size.y)) &&
              r.position.x == f.position.x && r.size.x == f.size.x && r.velocity == f.velocity &&
              r.invulnerable && r.invulnerabilityTimer == HitInvulnerability &&
              r.active == f.active && r.health == f.health
    ensures !Stomps(FighterCenterY(f), enemyCenterY, f.velocity.y) && f.powerLevel <= 0 ==> r == f.(active := false, health := 0)
    ensures !Stomps(FighterCenterY(f), enemyCenterY, f.velocity.y) ==> !r.active || r.invulnerable
  {
    if Stomps(FighterCenterY(f), enemyCenterY, f.velocity.y) then
      f.(velocity := f.velocity.(y := StompBounce))
    else if f.powerLevel > 0 then
      var s := PowerDownStep(Stature(f.powerLevel, f.position.y, f.size.y));
      f.(powerLevel := s.powerLevel, position := f.position.(y := s.y), size := f.size.(y := s.height),
         invulnerable := true, invulnerabilityTimer := HitInvulnerability)
    else
      f.(active := false, health := 0)
  }

  class Player {
    const body: Entity
    var jumpBuffer: real
    var coyoteTime: real
    var running: bool
    var crouching: bool
    var invulnerable: bool
    var invulnerabilityTimer: real
    var initialPosition: Vector2D
    var powerLevel: int

    function Piloting(): Pilot
      reads this, body
    {
      Pilot(body.velocity, body.facingRight, jumpBuffer, coyoteTime, body.onGround,
            crouching, body.position, body.size, running)
    }

    function Fighting(): Fighter
      reads this, body
    {
      Fighter(body.position, body.size, body.velocity, body.active, body.health,
              powerLevel, invulnerable, invulnerabilityTimer)
    }

    ghost predicate Valid()
      reads this, body
    {
      body.kind == PlayerEntity && body.SpriteOk() &&
      0 <= powerLevel <= 2 && jumpBuffer >= 0.0 && coyoteTime >= 0.0
    }

    /** The body is built from the configuration with the player kind and health 1. */
    constructor (config: EntityConfig)
      requires config.sprite.Some? ==> config.sprite.value.totalFrames != 0
      ensures Valid() && fresh(body)
      ensures body.position == config.position && body.velocity == config.velocity && body.size == config.size
      ensures body.health == 1 && body.active && !body.onGround && body.facingRight == DefaultFacing(config.facingRight)
      ensures initialPosition == config.position
      ensures jumpBuffer == 0.0 && coyoteTime == 0.0 && invulnerabilityTimer == 0.0
      ensures !running && !crouching && !invulnerable && powerLevel == 0
    {
      body := new Entity(config.(kind := PlayerEntity, health := Some(1)));
      jumpBuffer := 0.0;
      coyoteTime := 0.0;
      running := false;
      crouching := false;
      invulnerable := false;
      invulnerabilityTimer := 0.0;
      initialPosition := config.position;
      powerLevel := 0;
    }

    method UpdateTimers(deltaTime: real)
      requires Valid()
      modifies this`jumpBuffer, this`coyoteTime, this`invulnerable, this`invulnerabilityTimer
      ensures Valid()
      ensures jumpBuffer == Decay(old(jumpBuffer), deltaTime) && coyoteTime == Decay(old(coyoteTime), deltaTime)
      ensures Shield(invulnerable, invulnerabilityTimer) == ShieldStep(old(Shield(invulnerable, invulnerabilityTimer)), deltaTime)
    {
      jumpBuffer := Max(0.0, jumpBuffer - deltaTime);
      coyoteTime := Max(0.0, coyoteTime - deltaTime);
      if invulnerable {
        invulnerabilityTimer := invulnerabilityTimer - deltaTime;
        if invulnerabilityTimer <= 0.0 {
          invulnerable := false;
        }
      }
    }

    /**
     * One frame: timers, physics, integration of the position, animation, and
     * the ground flag cleared for the collision pass to set again.
     */
    method Update(deltaTime: real)
      requires Valid()
      modifies this`jumpBuffer, this`coyoteTime, this`invulnerable, this`invulnerabilityTimer
      modifies body`velocity, body`position, body`sprite, body`onGround
      ensures Valid()
      ensures !body.active ==> unchanged(this, body)
      ensures body.active ==>
                jumpBuffer == Decay(old(jumpBuffer), deltaTime) &&
                coyoteTime == Decay(old(coyoteTime), deltaTime) &&
                Shield(invulnerable, invulnerabilityTimer) == ShieldStep(old(Shield(invulnerable, invulnerabilityTimer)), deltaTime) &&
                body.velocity == PhysicsStep(old(body.velocity), old(body.onGround)) &&
                body.position == Vector2D(old(body.position).x + body.velocity.x, old(body.position).y + body.velocity.y) &&
                body.sprite == AdvanceSprite(old(body.sprite), deltaTime) &&
                !body.onGround
    {
      if !body.active {
        return;
      }
      UpdateTimers(deltaTime);
      body.ApplyPhysics();
      body.position := Vector2D(body.position.x + body.velocity.x, body.position.y + body.velocity.y);
      body.UpdateSprite(deltaTime);
      body.onGround := false;
    }

    method HandleHorizontalMovement(input: InputState)
      modifies body`velocity, body`facingRight
      ensures Steering(body.velocity.x, body.facingRight) == Steer(old(body.velocity.x), old(body.facingRight), input, running)
      ensures body.velocity.y == old(body.velocity.y)
    {
      if input.left && !input.right {
        body.velocity := body.velocity.(x := Max(body.velocity.x - Accel(running), -MaxSpeed(running)));
        body.facingRight := false;
      } else if input.right && !input.left {
        body.velocity := body.velocity.(x := Min(body.velocity.x + Accel(running), MaxSpeed(running)));
        body.facingRight := true;
      }
    }

    method HandleJumping(input: InputState)
      requires Valid()
      modifies this`jumpBuffer, this`coyoteTime, body`velocity, body`onGround
      ensures Valid()
      ensures body.velocity.x == old(body.velocity.x)
      ensures JumpState(body.velocity.y, jumpBuffer, coyoteTime, body.onGround) ==
              HandleJump(old(JumpState(body.velocity.y, jumpBuffer, coyoteTime, body.onGround)), input.jump)
    {
      if input.jump {
        jumpBuffer := JumpWindow;
      }
      if body.onGround {
        coyoteTime := JumpWindow;
      }
      if jumpBuffer > 0.0 && (body.onGround || coyoteTime > 0.0) {
        body.velocity := body.velocity.(y := Physics.JumpForce);
        jumpBuffer := 0.0;
        coyoteTime := 0.0;
        body.onGround := false;
      }
      if !input.jump && body.velocity.y < 0.0 {
        body.velocity := body.velocity.(y := body.velocity.y * 0.5);
      }
    }

    method HandleCrouching(input: InputState)
      modifies this`crouching, body`size, body`position
      ensures Posture(crouching, body.position.y, body.size.y) ==
              Crouch(old(Posture(crouching, body.position.y, body.size.y)), input.down, body.onGround)
      ensures body.position.x == old(body.position.x) && body.size.x == old(body.size.x)
    {
      var wasCrouching := crouching;
      crouching := input.down && body.onGround;
      if crouching && !wasCrouching {
        body.size := body.size.(y := body.size.y * 0.5);
        body.position := body.position.(y := body.position.y + body.size.y);
      } else if !crouching && wasCrouching {
        body.position := body.position.(y := body.position.y - body.size.y);
        body.size := body.size.(y := body.size.y * 2.0);
      }
    }

    /** Steering with the previous running flag, then jumping, then crouching, then the new running flag. */
    method HandleInput(input: InputState)
      requires Valid()
      modifies this`jumpBuffer, this`coyoteTime, this`crouching, this`running
      modifies body`velocity, body`facingRight, body`onGround, body`size, body`position
      ensures Valid()
      ensures !body.active ==> unchanged(this, body)
      ensures body.active ==> Piloting() == TakeInput(old(Piloting()), input)
    {
      if !body.active {
        return;
      }
      ghost var p := Piloting();
      HandleHorizontalMovement(input);
      HandleJumping(input);
      HandleCrouching(input);
      running := input.run;
      TakeInputParts(p, input, Piloting());
    }

    method MakeInvulnerable(duration: real)
      modifies this`invulnerable, this`invulnerabilityTimer
      ensures invulnerable && invulnerabilityTimer == duration
    {
      invulnerable := true;
      invulnerabilityTimer := duration;
    }

    method PowerUp()
      requires Valid()
      modifies this`powerLevel, body`size, body`position
      ensures Valid()
      ensures Stature(powerLevel, body.position.y, body.size.y) ==
              PowerUpStep(old(Stature(powerLevel, body.position.y, body.size.y)))
      ensures body.position.x == old(body.position.x) && body.size.x == old(body.size.x)
    {
      if powerLevel < 2 {
        powerLevel := powerLevel + 1;
        if powerLevel == 1 {
          body.size := body.size.(y := body.size.y * 2.0);
          body.position := body.position.(y := body.position.y - body.size.y / 2.0);
        }
      }
    }

    method PowerDown()
      requires Valid()
      modifies this`powerLevel, body`size, body`position
      ensures Valid()
      ensures Stature(powerLevel, body.position.y, body.size.y) ==
              PowerDownStep(old(Stature(powerLevel, body.position.y, body.size.y)))
      ensures body.position.x == old(body.position.x) && body.size.x == old(body.size.x)
    {
      if powerLevel > 0 {
        powerLevel := powerLevel - 1;
        if powerLevel == 0 {
          body.size := body.size.(y := body.size.y / 2.0);
          body.position := body.position.(y := body.position.y + body.size.y / 2.0);
        }
      }
    }

    /** A powered-up player shrinks and becomes invulnerable for 2000 ms; a small one is destroyed. */
    method TakeDamageFromEnemy()
      requires Valid()
      modifies this`powerLevel, this`invulnerable, this`invulnerabilityTimer
      modifies body`size, body`position, body`active, body`health
      ensures Valid()
      ensures old(powerLevel) > 0 ==>
                Stature(powerLevel, body.position.y, body.size.y) ==
                PowerDownStep(old(Stature(powerLevel, body.position.y, body.size.y))) &&
                body.position.x == old(body.position.x) && body.size.x == old(body.size.x) &&
                invulnerable && invulnerabilityTimer == HitInvulnerability &&
                body.active == old(body.active) && body.health == old(body.health)
      ensures old(powerLevel) == 0 ==>
                !body.active && body.health == 0 &&
                unchanged(this) && body.position == old(body.position) && body.size == old(body.size)
    {
      if powerLevel > 0 {
        PowerDown();
        MakeInvulnerable(HitInvulnerability);
      } else {
        body.Destroy();
      }
    }

    /**
     * The player's side of a collision: ignored while inactive or invulnerable;
     * an enemy is stomped (destroyed, with a bounce) or deals damage; a power-up
     * is consumed; anything else changes nothing.
     */
    method HandleCollision(other: Entity)
      requires Valid()
      modifies this`powerLevel, this`invulnerable, this`invulnerabilityTimer
      modifies body`velocity, body`size, body`position, body`active, body`health
      modifies other`active, other`health
      ensures Valid()
      ensures jumpBuffer == old(jumpBuffer) && coyoteTime == old(coyoteTime) && running == old(running) &&
              crouching == old(crouching) && body.onGround == old(body.onGround) &&
              body.facingRight == old(body.facingRight) && body.sprite == old(body.sprite)
      ensures (!old(body.active) || old(invulnerable) ||
               other.kind !in {GoombaEntity, KoopaEntity, PowerupEntity}) ==> unchanged(this, body, other)
      ensures old(body.active) && !old(invulnerable) && other.kind in {GoombaEntity, KoopaEntity} ==>
                Fighting() == EnemyHit(old(Fighting()), old(other.GetCenter().y)) &&
                (Stomps(old(body.GetCenter().y), old(other.GetCenter().y), old(body.velocity.y)) ==>
                   !other.active && other.health == 0) &&
                (!Stomps(old(body.GetCenter().y), old(other.GetCenter().y), old(body.velocity.y)) ==>
                   unchanged(other))
      ensures old(body.active) && !old(invulnerable) && other.kind == PowerupEntity ==>
                Stature(powerLevel, body.position.y, body.size.y) ==
                PowerUpStep(old(Stature(powerLevel, body.position.y, body.size.y))) &&
                !other.active && other.health == 0 &&
                body.velocity == old(body.velocity) && body.active && !invulnerable == !old(invulnerable)
    {
      if !body.active || invulnerable {
        return;
      }
      match other.kind
      case GoombaEntity => HandleEnemyCollision(other);
      case KoopaEntity => HandleEnemyCollision(other);
      case PowerupEntity =>
        PowerUp();
        other.Destroy();
      case _ =>
    }

    method HandleEnemyCollision(enemy: Entity)
      requires Valid() && enemy.kind != PlayerEntity
      modifies this`powerLevel, this`invulnerable, this`invulnerabilityTimer
      modifies body`velocity, body`size, body`position, body`active, body`health
      modifies enemy`active, enemy`health
      ensures Valid()
      ensures Fighting() == EnemyHit(old(Fighting()), old(enemy.GetCenter().y))
      ensures Stomps(old(body.GetCenter().y), old(enemy.GetCenter().y), old(body.velocity.y)) ==>
                !enemy.active && enemy.health == 0
      ensures !Stomps(old(body.GetCenter().y), old(enemy.GetCenter().y), old(body.velocity.y)) ==> unchanged(enemy)
    {
      if Stomps(body.GetCenter().y, enemy.GetCenter().y, body.velocity.y) {
        enemy.Destroy();
        body.velocity := body.velocity.(y := StompBounce);
      } else {
        TakeDamageFromEnemy();
      }
    }

    /**
     * Back to the spawn point with every flag and timer cleared. The size is
     * not restored: a player reset while powered up or crouching keeps its
     * current hitbox although its power level becomes 0.
     */
    method Reset()
      requires Valid()
      modifies this`powerLevel, this`invulnerable, this`invulnerabilityTimer, this`jumpBuffer, this`coyoteTime
      modifies this`running, this`crouching
      modifies body`position, body`velocity, body`health, body`active, body`onGround, body`facingRight
      ensures Valid()
      ensures body.position == initialPosition && body.velocity == Vector2D(0.0, 0.0)
      ensures body.health == 1 && body.active && !body.onGround && body.facingRight
      ensures powerLevel == 0 && !invulnerable && invulnerabilityTimer == 0.0
      ensures jumpBuffer == 0.0 && coyoteTime == 0.0 && !running && !crouching
      ensures body.size == old(body.size)
    {
      body.position := initialPosition;
      body.velocity := Vector2D(0.0, 0.0);
      body.health := 1;
      body.active := true;
      body.onGround := false;
      powerLevel := 0;
      invulnerable := false;
      invulnerabilityTimer := 0.0;
      jumpBuffer := 0.0;
      coyoteTime := 0.0;
      running := false;
      crouching := false;
      body.facingRight := true;
    }

    /** A reset; a given position also becomes the new spawn point. */
    method Respawn(position: Option<Vector2D>)
      requires Valid()
      modifies this`powerLevel, this`invulnerable, this`invulnerabilityTimer, this`jumpBuffer, this`coyoteTime
      modifies this`running, this`crouching, this`initialPosition
      modifies body`position, body`velocity, body`health, body`active, body`onGround, body`facingRight
      ensures Valid()
      ensures position.Some? ==> body.position == position.value && initialPosition == position.value
      ensures position.None? ==> body.position == old(initialPosition) && initialPosition == old(initialPosition)
      ensures body.velocity == Vector2D(0.0, 0.0)
      ensures body.health == 1 && body.active && !body.onGround && body.facingRight
      ensures powerLevel == 0 && !invulnerable && invulnerabilityTimer == 0.0
      ensures jumpBuffer == 0.0 && coyoteTime == 0.0 && !running && !crouching
      ensures body.size == old(body.size)
    {
      Reset();
      if position.Some? {
        body.position := position.value;
        initialPosition := position.value;
      }
    }
  }
}
