/**
 * The self-contained game of the React component: one closure holding the
 * game record (score, lives, time, camera, particles), the player record, the
 * key maps and the level's platforms, enemies and coins, all updated in place
 * once per frame by `update`. The frame is modelled as a class whose fields
 * are those records; each part of the frame is a method proved against a pure
 * step function, and the loops over platforms, enemies, coins and particles
 * are proved against folds of those steps.
 */
module Inline {
  import opened GameTypes
  import Physics

  const Gravity: real := 0.8
  const GroundY: real := 400.0
  const MaxJumpForce: real := -18.0
  const MinJumpForce: real := -10.0
  const MoveSpeed: real := 6.0
  const CoyoteFrames: int := 8
  const MaxJumpHold: int := 12
  /** Where enemies turn back and where the camera stops. */
  const WorldEdge: real := 1600.0
  const StartLives: int := 3
  const StartTime: real := 400.0
  const TimeStep: real := 0.02
  const StompScore: int := 100
  const CoinScore: int := 200
  const ParticleLife: int := 60
  const Gold: string := "#FFD700"

  function Max0(n: int): int { if n < 0 then 0 else n }

  /** The script's own overlap test. */
  predicate Overlaps(a: Rectangle, b: Rectangle)
  {
    a.x < b.x + b.width && a.x + a.width > b.x && a.y < b.y + b.height && a.y + a.height > b.y
  }

  /** It is the engine's test under another name: strict on all four edges. */
  lemma OverlapsIsCheckCollision(a: Rectangle, b: Rectangle)
    ensures Overlaps(a, b) <==> Physics.CheckCollision(a, b)
    ensures Overlaps(a, b) <==> Overlaps(b, a)
  {
  }

  // ---------------------------------------------------------------- player

  datatype Size = Small | Super | Fire

  datatype Mario = Mario(
    x: real, y: real, width: real, height: real, vx: real, vy: real,
    onGround: bool, size: Size, facing: int, isMoving: bool, isJumping: bool,
    jumpHoldTime: int, coyoteTime: int, invulnerable: bool, invulnerabilityTime: int,
    transforming: bool, transformTime: int, starPower: bool, starTime: int)

  const MarioStart: Mario :=
    Mario(100.0, GroundY, 32.0, 32.0, 0.0, 0.0, false, Small, 1, false, false, 0, 0, false, 0, false, 0, false, 0)

  function MarioBox(p: Mario): Rectangle
  {
    Rectangle(p.x, p.y, p.width, p.height)
  }

  /** The bounds the frame keeps: both timers in range and a walking speed of at most 6. */
  predicate MarioOk(p: Mario)
  {
    0 <= p.coyoteTime <= CoyoteFrames && 0 <= p.jumpHoldTime <= MaxJumpHold && -MoveSpeed <= p.vx <= MoveSpeed
  }

  /** Left wins over right; with neither held the speed decays by a factor 0.8. */
  function Steer(p: Mario, keys: set<string>): (r: Mario)
    ensures "ArrowLeft" in keys ==> r.vx == -MoveSpeed && r.facing == -1 && r.isMoving
    ensures "ArrowLeft" !in keys && "ArrowRight" in keys ==> r.vx == MoveSpeed && r.facing == 1 && r.isMoving
    ensures "ArrowLeft" !in keys && "ArrowRight" !in keys ==>
              Abs(r.vx) <= Abs(p.vx) && (p.vx == 0.0 <==> r.vx == 0.0) && !r.isMoving && r.facing == p.facing
    ensures r.(vx := p.vx, facing := p.facing, isMoving := p.isMoving) == p
    ensures MarioOk(p) ==> MarioOk(r)
  {
    if "ArrowLeft" in keys then p.(vx := -MoveSpeed, facing := -1, isMoving := true)
    else if "ArrowRight" in keys then p.(vx := MoveSpeed, facing := 1, isMoving := true)
    else p.(vx := p.vx * 0.8, isMoving := false)
  }

  predicate JumpAllowed(p: Mario, pressed: set<string>)
  {
    "Space" in pressed && (p.onGround || p.coyoteTime > 0) && !p.isJumping
  }

  /** A jump starts only when Space was pressed, the player is grounded or within coyote time, and not already jumping. */
  function StartJump(p: Mario, pressed: set<string>): (r: Mario)
    ensures JumpAllowed(p, pressed) ==>
              r.vy == MinJumpForce && !r.onGround && r.isJumping && r.jumpHoldTime == 0 && r.coyoteTime == 0 &&
              r.(vy := p.vy, onGround := p.onGround, isJumping := p.isJumping,
                 jumpHoldTime := p.jumpHoldTime, coyoteTime := p.coyoteTime) == p
    ensures !JumpAllowed(p, pressed) ==> r == p
    ensures MarioOk(p) ==> MarioOk(r)
  {
    if JumpAllowed(p, pressed) then
      p.(vy := MinJumpForce, onGround := false, isJumping := true, jumpHoldTime := 0, coyoteTime := 0)
    else p
  }

  /**
   * Holding Space while rising adds an upward boost growing with the hold
   * time, for at most 12 frames; each boost is between 0 and 1.1 upward.
   */
  function HoldJump(p: Mario, keys: set<string>): (r: Mario)
    ensures p.jumpHoldTime >= 0 ==> p.vy - 1.1 <= r.vy <= p.vy
    ensures r.jumpHoldTime == p.jumpHoldTime || (r.jumpHoldTime == p.jumpHoldTime + 1 <= MaxJumpHold)
    ensures r.(vy := p.vy, jumpHoldTime := p.jumpHoldTime) == p
    ensures MarioOk(p) ==> MarioOk(r)
  {
    if p.isJumping && "Space" in keys && p.vy < 0.0 && p.jumpHoldTime < MaxJumpHold then
      var jumpBoost := (MaxJumpForce - MinJumpForce) * (p.jumpHoldTime as real / MaxJumpHold as real);
      p.(vy := p.vy + jumpBoost * 0.15, jumpHoldTime := p.jumpHoldTime + 1)
    else p
  }

  /** The boost is proportional to the hold time already spent, so the first held frame adds nothing. */
  lemma FirstHeldFrameAddsNothing(p: Mario, keys: set<string>)
    requires p.jumpHoldTime == 0
    ensures HoldJump(p, keys).vy == p.vy
  {
  }

  /**
   * Releasing Space while rising halves the upward speed. The guard is written
   * as two nested tests; the outer one is implied by the inner one, and the
   * contract states the single test that decides.
   */
  function CutJump(p: Mario, keys: set<string>): (r: Mario)
    ensures r.vy == (if p.isJumping && p.vy < 0.0 && "Space" !in keys then p.vy * 0.5 else p.vy)
    ensures p.vy <= r.vy && (p.vy < 0.0 ==> r.vy < 0.0)
    ensures r.(vy := p.vy) == p
  {
    if "Space" !in keys || p.jumpHoldTime >= MaxJumpHold || p.vy >= 0.0 then
      if p.isJumping && p.vy < 0.0 && "Space" !in keys then p.(vy := p.vy * 0.5) else p
    else p
  }

  /** R puts the player back at the start, small, but keeps its ground, jump and coyote bookkeeping and its width. */
  function Restarted(p: Mario): (r: Mario)
    ensures r == MarioStart.(width := p.width, onGround := p.onGround, isMoving := p.isMoving,
                             isJumping := p.isJumping, jumpHoldTime := p.jumpHoldTime, coyoteTime := p.coyoteTime)
  {
    p.(x := 100.0, y := GroundY, vx := 0.0, vy := 0.0, facing := 1, size := Small, height := 32.0,
       invulnerable := false, invulnerabilityTime := 0, starPower := false, starTime := 0,
       transforming := false, transformTime := 0)
  }

  /** Gravity, then the move by the new speed. */
  function Fall(p: Mario): Mario
  {
    p.(vy := p.vy + Gravity, x := p.x + p.vx, y := p.y + (p.vy + Gravity))
  }

  /**
   * The frame's input rules, in order: steering, starting, holding and cutting
   * a jump; a player still on the ground is then no longer jumping.
   */
  function Controls(p: Mario, keys: set<string>, pressed: set<string>): (r: Mario)
    ensures JumpAllowed(Steer(p, keys), pressed) && "Space" in keys ==> r.vy == MinJumpForce && !r.onGround && r.isJumping
    ensures r.onGround ==> !r.isJumping
    ensures r.x == p.x && r.y == p.y && r.size == p.size
    ensures MarioOk(p) ==> MarioOk(r)
  {
    var q := CutJump(HoldJump(StartJump(Steer(p, keys), pressed), keys), keys);
    if q.onGround then q.(isJumping := false) else q
  }

  // ---------------------------------------------------------------- platforms

  /** A platform of the level; its kind is one of the engine's block types. */
  datatype Tile = Tile(x: real, y: real, width: real, height: real, kind: BlockType, hit: bool)

  function PlatformBox(b: Tile): Rectangle
  {
    Rectangle(b.x, b.y, b.width, b.height)
  }

  /** Landing needs an overlap while falling with the player's top above the platform's. */
  predicate Lands(p: Mario, b: Tile)
  {
    Overlaps(MarioBox(p), PlatformBox(b)) && p.vy > 0.0 && p.y < b.y
  }

  /** One platform of the landing pass: a landing puts the feet on the platform's top, stopped and grounded. */
  function LandStep(p: Mario, b: Tile): (r: Mario)
    ensures Lands(p, b) ==>
              r.y + r.height == b.y && r.vy == 0.0 && r.onGround && r.(y := p.y, vy := p.vy, onGround := p.onGround) == p
    ensures !Lands(p, b) ==> r == p
    ensures Lands(p, b) ==> forall c :: !Lands(r, c)
    ensures MarioOk(p) ==> MarioOk(r)
  {
    if Lands(p, b) then p.(y := b.y - p.height, vy := 0.0, onGround := true) else p
  }

  /** The landing pass over the platforms, in order. */
  function Landing(p: Mario, bs: seq<Tile>): (r: Mario)
    ensures MarioOk(p) ==> MarioOk(r)
  {
    if bs == [] then p else LandStep(Landing(p, bs[..|bs| - 1]), bs[|bs| - 1])
  }

  /** Without a platform to land on, the pass changes nothing. */
  lemma {:induction false} LandingMissesAll(p: Mario, bs: seq<Tile>)
    requires forall j :: 0 <= j < |bs| ==> !Lands(p, bs[j])
    ensures Landing(p, bs) == p
  {
    if bs != [] {
      LandingMissesAll(p, bs[..|bs| - 1]);
    }
  }

  /** The first platform the player can land on decides; the stop makes every later platform irrelevant. */
  lemma {:induction false} LandingTakesFirst(p: Mario, bs: seq<Tile>, k: nat)
    requires k < |bs| && Lands(p, bs[k])
    requires forall j :: 0 <= j < k ==> !Lands(p, bs[j])
    ensures Landing(p, bs) == LandStep(p, bs[k])
  {
    var n := |bs| - 1;
    if n == k {
      LandingMissesAll(p, bs[..n]);
    } else {
      assert bs[..n][k] == bs[k];
      LandingTakesFirst(p, bs[..n], k);
    }
  }

  /** Coyote time: 8 frames on the ground, then counted down to 0 and no further. */
  function Coyote(p: Mario): (r: Mario)
    ensures p.onGround ==> r.coyoteTime == CoyoteFrames
    ensures !p.onGround && p.coyoteTime >= 0 ==> r.coyoteTime == Max0(p.coyoteTime - 1)
    ensures r.(coyoteTime := p.coyoteTime) == p
    ensures MarioOk(p) ==> MarioOk(r)
  {
    if p.onGround then p.(coyoteTime := CoyoteFrames)
    else if p.coyoteTime > 0 then p.(coyoteTime := p.coyoteTime - 1)
    else p
  }

  function CoyoteN(p: Mario, n: nat): Mario
  {
    if n == 0 then p else Coyote(CoyoteN(p, n - 1))
  }

  /** n frames in the air leave max(0, c - n) frames of coyote time: a jump stays possible for c frames. */
  lemma {:induction false} CoyoteRunsOut(p: Mario, n: nat)
    requires !p.onGround && p.coyoteTime >= 0
    ensures CoyoteN(p, n) == p.(coyoteTime := Max0(p.coyoteTime - n))
  {
    if n > 0 {
      CoyoteRunsOut(p, n - 1);
    }
  }

  /**
   * The frame's motion: a player no longer rising stops jumping, falls, is
   * taken off the ground and tried against the platforms, and the coyote
   * timer follows the outcome.
   */
  function Motion(p: Mario, bs: seq<Tile>): (r: Mario)
    ensures r.onGround ==> r.coyoteTime == CoyoteFrames
    ensures MarioOk(p) ==> MarioOk(r)
  {
    var q := if p.vy >= 0.0 then p.(isJumping := false) else p;
    Coyote(Landing(Fall(q).(onGround := false), bs))
  }

  // ---------------------------------------------------------------- particles

  datatype Particle = Particle(x: real, y: real, text: string, color: string, vy: real, life: int, maxLife: int)

  function NewParticle(x: real, y: real, text: string, color: string): Particle
  {
    Particle(x, y, text, color, -2.0, ParticleLife, ParticleLife)
  }

  /** One update of one particle: it moves by its speed, slows its rise by 0.1 and loses one unit of life. */
  function Advance(p: Particle): Particle
  {
    p.(y := p.y + p.vy, vy := p.vy + 0.1, life := p.life - 1)
  }

  predicate ParticlesAlive(ps: seq<Particle>)
  {
    forall k :: 0 <= k < |ps| ==> ps[k].life >= 1
  }

  /**
   * The buffer after one update: every particle advanced, those with no life
   * left dropped, the rest in their order.
   */
  function Survivors(ps: seq<Particle>): (r: seq<Particle>)
    ensures |r| <= |ps|
    ensures ParticlesAlive(r)
  {
    if ps == [] then []
    else (if Advance(ps[0]).life > 0 then [Advance(ps[0])] else []) + Survivors(ps[1..])
  }

  /** When every particle has life to spare, nothing is dropped: each one is advanced in place. */
  lemma {:induction false} SurvivorsKeepAll(ps: seq<Particle>)
    requires forall k :: 0 <= k < |ps| ==> ps[k].life > 1
    ensures |Survivors(ps)| == |ps|
    ensures forall k :: 0 <= k < |ps| ==> Survivors(ps)[k] == Advance(ps[k])
  {
    if ps != [] {
      SurvivorsKeepAll(ps[1..]);
      assert forall k :: 1 <= k < |ps| ==> ps[k] == ps[1..][k - 1];
    }
  }

  /** When every particle is on its last unit of life, all of them are dropped. */
  lemma {:induction false} SurvivorsDropAll(ps: seq<Particle>)
    requires forall k :: 0 <= k < |ps| ==> ps[k].life <= 1
    ensures Survivors(ps) == []
  {
    if ps != [] {
      SurvivorsDropAll(ps[1..]);
    }
  }

  /** Removal never reorders: the survivors of a split buffer are the survivors of each part, in order. */
  lemma {:induction false} SurvivorsAppend(a: seq<Particle>, b: seq<Particle>)
    ensures Survivors(a + b) == Survivors(a) + Survivors(b)
  {
    if a == [] {
      assert a + b == b;
    } else {
      assert (a + b)[0] == a[0];
      assert (a + b)[1..] == a[1..] + b;
      SurvivorsAppend(a[1..], b);
    }
  }

  function ParticlesAfter(ps: seq<Particle>, n: nat): seq<Particle>
  {
    if n == 0 then ps else Survivors(ParticlesAfter(ps, n - 1))
  }

  /** A lone particle with life L is still there, with life L - n, after n < L updates and gone after L. */
  lemma {:induction false} LoneParticleLifetime(p: Particle, n: nat)
    requires p.life >= 1
    ensures n < p.life ==> |ParticlesAfter([p], n)| == 1 && ParticlesAfter([p], n)[0].life == p.life - n
    ensures n >= p.life ==> ParticlesAfter([p], n) == []
  {
    if n > 0 {
      LoneParticleLifetime(p, n - 1);
      var before := ParticlesAfter([p], n - 1);
      if n - 1 < p.life {
        assert before == [before[0]];
        assert before[1..] == [];
      }
    }
  }

  /** A new particle is removed on exactly its 60th update. */
  lemma NewParticleLastsSixtyUpdates(x: real, y: real, text: string, color: string)
    ensures |ParticlesAfter([NewParticle(x, y, text, color)], 59)| == 1
    ensures ParticlesAfter([NewParticle(x, y, text, color)], 60) == []
  {
    LoneParticleLifetime(NewParticle(x, y, text, color), 59);
    LoneParticleLifetime(NewParticle(x, y, text, color), 60);
  }

  /**
   * The backward walk's step: with the first i + 1 particles untouched and the
   * rest already replaced by their survivors, advancing particle i in place and
   * splicing it out when its life is gone leaves the survivors from i on.
   */
  lemma SplicePrefix(start: seq<Particle>, i: int, ps: seq<Particle>)
    requires 0 <= i < |start| && ps == start[..i + 1] + Survivors(start[i + 1..])
    ensures ps[i] == start[i]
    ensures var p := Advance(ps[i]);
            (p.life > 0 ==> ps[i := p] == start[..i] + Survivors(start[i..])) &&
            (p.life <= 0 ==> ps[i := p][..i] + ps[i := p][i + 1..] == start[..i] + Survivors(start[i..]))
  {
    var p := Advance(start[i]);
    var rest := Survivors(start[i + 1..]);
    assert start[..i + 1] == start[..i] + [start[i]];
    assert ps == start[..i] + [start[i]] + rest;
    assert start[i..][1..] == start[i + 1..];
    assert Survivors(start[i..]) == (if p.life > 0 then [p] else []) + rest;
    assert ps[i := p] == start[..i] + [p] + rest;
    if p.life <= 0 {
      assert ps[i := p][..i] == start[..i];
      assert ps[i := p][i + 1..] == rest;
    }
  }

  // ---------------------------------------------------------------- the round

  /** The part of the game an enemy or a coin can change: the player, the score, the lives and the particles. */
  datatype Round = Round(player: Mario, score: int, lives: int, particles: seq<Particle>)

  predicate RoundOk(w: Round)
  {
    1 <= w.lives <= StartLives && w.score >= 0 && MarioOk(w.player) && ParticlesAlive(w.particles)
  }

  /**
   * A lost life: one life less, and on the last one the lives go back to 3
   * and the score to 0; the player returns to (100, 400) with its speed kept.
   */
  function LoseLife(w: Round): (r: Round)
    ensures w.lives > 1 ==> r.lives == w.lives - 1 && r.score == w.score
    ensures w.lives <= 1 ==> r.lives == StartLives && r.score == 0
    ensures r.player == w.player.(x := 100.0, y := GroundY) && r.particles == w.particles
    ensures RoundOk(w) ==> RoundOk(r)
  {
    var lives := w.lives - 1;
    var w' := if lives <= 0 then w.(lives := StartLives, score := 0) else w.(lives := lives);
    w'.(player := w'.player.(x := 100.0, y := GroundY))
  }

  /** Being hit: a super player only shrinks back to small; any other size, fire included, loses a life. */
  function Hurt(w: Round): (r: Round)
    ensures w.player.size == Super ==>
              r == w.(player := w.player.(size := Small, height := 32.0))
    ensures w.player.size != Super ==> r == LoseLife(w)
    ensures RoundOk(w) ==> RoundOk(r)
  {
    if w.player.size == Super then w.(player := w.player.(size := Small, height := 32.0))
    else LoseLife(w)
  }

  // ---------------------------------------------------------------- enemies

  datatype EnemyKind = Goomba | Koopa

  datatype Foe = Foe(
    x: real, y: real, width: real, height: real, vx: real, kind: EnemyKind,
    alive: bool, deathTimer: int, inShell: bool, shellTimer: int)

  function FoeBox(e: Foe): Rectangle
  {
    Rectangle(e.x, e.y, e.width, e.height)
  }

  /** The enemy's feet are within 5 of the platform's top and the two overlap horizontally. */
  predicate OnTop(e: Foe, b: Tile)
  {
    e.x + e.width > b.x && e.x < b.x + b.width &&
    e.y + e.height >= b.y - 5.0 && e.y + e.height <= b.y + 5.0
  }

  predicate StandsOnPlatform(e: Foe, bs: seq<Tile>)
  {
    exists k :: 0 <= k < |bs| && OnTop(e, bs[k])
  }

  /**
   * An enemy's walk: it moves by its speed, then turns around when it stands
   * on no platform or has reached either end of the world.
   */
  function FoeMove(e: Foe, bs: seq<Tile>): (r: Foe)
    ensures r.x == e.x + e.vx && (r.vx == e.vx || r.vx == -e.vx)
    ensures !StandsOnPlatform(e.(x := e.x + e.vx), bs) || r.x <= 0.0 || r.x >= WorldEdge - e.width ==> r.vx == -e.vx
    ensures StandsOnPlatform(e.(x := e.x + e.vx), bs) && 0.0 < r.x < WorldEdge - e.width ==> r.vx == e.vx
    ensures r.(x := e.x, vx := e.vx) == e
  {
    var moved := e.(x := e.x + e.vx);
    if !StandsOnPlatform(moved, bs) || moved.x <= 0.0 || moved.x >= WorldEdge - moved.width then moved.(vx := -moved.vx)
    else moved
  }

  predicate Stomps(p: Mario, e: Foe)
  {
    p.vy > 0.0 && p.y < e.y
  }

  /** A stomp: the enemy dies, the player bounces at 6 upward and may jump again, 100 points and a "100" particle. */
  function Stomped(w: Round, e: Foe): (r: Round)
    ensures r.player == w.player.(vy := MinJumpForce * 0.6, isJumping := false)
    ensures r.score == w.score + StompScore && r.lives == w.lives
    ensures r.particles == w.particles + [NewParticle(e.x + e.width / 2.0, e.y, "100", Gold)]
    ensures RoundOk(w) ==> RoundOk(r)
  {
    w.(player := w.player.(vy := MinJumpForce * 0.6, isJumping := false),
       score := w.score + StompScore,
       particles := w.particles + [NewParticle(e.x + e.width / 2.0, e.y, "100", Gold)])
  }

  /** One enemy of the enemy pass: a dead one is skipped; a live one walks, then meets the player if they overlap. */
  function FoeStep(w: Round, e: Foe, bs: seq<Tile>): (r: (Round, Foe))
    ensures r.1.y == e.y && r.1.height == e.height && r.1.kind == e.kind
    ensures RoundOk(w) ==> RoundOk(r.0)
  {
    if !e.alive then (w, e)
    else
      var m := FoeMove(e, bs);
      if Overlaps(MarioBox(w.player), FoeBox(m)) then
        if Stomps(w.player, m) then (Stomped(w, m), m.(alive := false)) else (Hurt(w), m)
      else (w, m)
  }

  /**
   * The four outcomes of one enemy: a dead one is skipped; a live one walks,
   * and then it is stomped when the player falls onto it from above, hurts
   * the player when they overlap otherwise, and leaves the round alone when
   * they do not.
   */
  lemma FoeStepOutcomes(w: Round, e: Foe, bs: seq<Tile>)
    ensures var r := FoeStep(w, e, bs);
            var m := FoeMove(e, bs);
            var hit := Overlaps(MarioBox(w.player), FoeBox(m));
            (!e.alive ==> r == (w, e)) &&
            (e.alive ==> r.1.(alive := true) == m) &&
            (e.alive && hit && Stomps(w.player, m) ==> !r.1.alive && r.0 == Stomped(w, m)) &&
            (e.alive && hit && !Stomps(w.player, m) ==> r.1.alive && r.0 == Hurt(w)) &&
            (e.alive && !hit ==> r.1.alive && r.0 == w)
  {
  }

  /** The enemy pass over the list, in order. */
  function FoesPass(w: Round, es: seq<Foe>, bs: seq<Tile>): (r: (Round, seq<Foe>))
    ensures |r.1| == |es|
    ensures RoundOk(w) ==> RoundOk(r.0)
  {
    if es == [] then (w, [])
    else
      var p := FoesPass(w, es[..|es| - 1], bs);
      var s := FoeStep(p.0, es[|es| - 1], bs);
      (s.0, p.1 + [s.1])
  }

  /** In the enemy pass every live enemy makes its walk, dying or not, and every dead one stays as it is. */
  lemma {:induction false} FoesPassWalks(w: Round, es: seq<Foe>, bs: seq<Tile>)
    ensures var r := FoesPass(w, es, bs);
            (forall k :: 0 <= k < |es| && es[k].alive ==> r.1[k].(alive := true) == FoeMove(es[k], bs)) &&
            (forall k :: 0 <= k < |es| && !es[k].alive ==> r.1[k] == es[k])
  {
    if es != [] {
      var n := |es| - 1;
      var p := FoesPass(w, es[..n], bs);
      var r := FoesPass(w, es, bs);
      FoesPassWalks(w, es[..n], bs);
      assert forall k :: 0 <= k < n ==> r.1[k] == p.1[k] && es[k] == es[..n][k];
    }
  }

  /** Enemies never fall or grow: each stays on the line y = 400, 32 high, or 38 for a Koopa. */
  predicate OnGroundLine(e: Foe)
  {
    e.y == GroundY && e.height == (if e.kind == Koopa then 38.0 else 32.0)
  }

  /** R brings every enemy back to life; a Koopa also leaves its shell at full height. */
  function Revived(e: Foe): (r: Foe)
    ensures r.alive && r.deathTimer == 0
    ensures r.kind == Koopa ==> !r.inShell && r.shellTimer == 0 && r.height == 38.0
    ensures OnGroundLine(e) ==> OnGroundLine(r)
    ensures r.(alive := e.alive, deathTimer := e.deathTimer, inShell := e.inShell, shellTimer := e.shellTimer, height := e.height) == e
  {
    if e.kind == Koopa then e.(alive := true, deathTimer := 0, inShell := false, shellTimer := 0, height := 38.0)
    else e.(alive := true, deathTimer := 0)
  }

  // ---------------------------------------------------------------- coins

  datatype Coin = Coin(x: real, y: real, width: real, height: real, collected: bool)

  function CoinBox(c: Coin): Rectangle
  {
    Rectangle(c.x, c.y, c.width, c.height)
  }

  /** One coin of the coin pass: an uncollected coin the player touches is collected for 200 points and a "200" particle. */
  function CoinStep(w: Round, c: Coin): (r: (Round, Coin))
    ensures c.collected || !Overlaps(MarioBox(w.player), CoinBox(c)) ==> r == (w, c)
    ensures !c.collected && Overlaps(MarioBox(w.player), CoinBox(c)) ==>
              r.1 == c.(collected := true) && r.0.score == w.score + CoinScore &&
              r.0.particles == w.particles + [NewParticle(c.x + c.width / 2.0, c.y, "200", Gold)]
    ensures r.0.player == w.player && r.0.lives == w.lives
    ensures RoundOk(w) ==> RoundOk(r.0)
  {
    if !c.collected && Overlaps(MarioBox(w.player), CoinBox(c)) then
      (w.(score := w.score + CoinScore,
          particles := w.particles + [NewParticle(c.x + c.width / 2.0, c.y, "200", Gold)]),
       c.(collected := true))
    else (w, c)
  }

  /** The number of collected coins. */
  function Collected(cs: seq<Coin>): nat
  {
    if cs == [] then 0 else Collected(cs[..|cs| - 1]) + (if cs[|cs| - 1].collected then 1 else 0)
  }

  /** The coin pass over the list, in order; it moves no one and takes no life. */
  function CoinsPass(w: Round, cs: seq<Coin>): (r: (Round, seq<Coin>))
    ensures |r.1| == |cs|
    ensures r.0.player == w.player && r.0.lives == w.lives
    ensures RoundOk(w) ==> RoundOk(r.0)
  {
    if cs == [] then (w, [])
    else
      var p := CoinsPass(w, cs[..|cs| - 1]);
      var s := CoinStep(p.0, cs[|cs| - 1]);
      (s.0, p.1 + [s.1])
  }

  /**
   * What the coin pass does to the coins: only the collected flags change,
   * never back to false; every coin the player touches ends collected; and
   * the score grows by 200 for each newly collected coin, so no coin scores
   * twice.
   */
  lemma {:induction false} CoinsPassCollects(w: Round, cs: seq<Coin>)
    ensures var r := CoinsPass(w, cs);
            (forall k :: 0 <= k < |cs| ==> r.1[k].(collected := cs[k].collected) == cs[k]) &&
            (forall k :: 0 <= k < |cs| && cs[k].collected ==> r.1[k].collected) &&
            (forall k :: 0 <= k < |cs| ==> r.1[k].collected || !Overlaps(MarioBox(w.player), CoinBox(r.1[k]))) &&
            r.0.score == w.score + CoinScore * (Collected(r.1) - Collected(cs))
  {
    if cs != [] {
      var n := |cs| - 1;
      var p := CoinsPass(w, cs[..n]);
      var r := CoinsPass(w, cs);
      CoinsPassCollects(w, cs[..n]);
      assert r.1 == p.1 + [r.1[n]];
      assert r.1[..n] == p.1;
      assert forall k :: 0 <= k < n ==> r.1[k] == p.1[k] && cs[k] == cs[..n][k];
    }
  }

  /** A pass over coins that are all collected or out of reach changes nothing. */
  lemma {:induction false} InertCoinsPass(w: Round, cs: seq<Coin>)
    requires forall k :: 0 <= k < |cs| ==> cs[k].collected || !Overlaps(MarioBox(w.player), CoinBox(cs[k]))
    ensures CoinsPass(w, cs) == (w, cs)
  {
    if cs != [] {
      InertCoinsPass(w, cs[..|cs| - 1]);
      assert cs[..|cs| - 1] + [cs[|cs| - 1]] == cs;
    }
  }

  /** Collecting is idempotent: a second pass with the player where it is collects and scores nothing. */
  lemma CoinsPassIdempotent(w: Round, cs: seq<Coin>)
    ensures CoinsPass(CoinsPass(w, cs).0, CoinsPass(w, cs).1) == CoinsPass(w, cs)
  {
    var r := CoinsPass(w, cs);
    CoinsPassCollects(w, cs);
    InertCoinsPass(r.0, r.1);
  }

  // ---------------------------------------------------------------- timer

  /** The clock: 0.02 per frame; when it runs out a life is lost and the clock restarts at 400. */
  function TickTime(t: real): (r: real)
    ensures t - TimeStep > 0.0 ==> r == t - TimeStep
    ensures t - TimeStep <= 0.0 ==> r == StartTime
    ensures 0.0 < r <= StartTime <== t <= StartTime
  {
    if t - TimeStep <= 0.0 then StartTime else t - TimeStep
  }

  function TickTimeN(t: real, n: nat): real
  {
    if n == 0 then t else TickTime(TickTimeN(t, n - 1))
  }

  /** From a full clock the time left after n < 20000 frames is 400 - 0.02 n. */
  lemma {:induction false} ClockCountsDown(n: nat)
    requires n < 20000
    ensures TickTimeN(StartTime, n) == StartTime - n as real * TimeStep
  {
    if n > 0 {
      ClockCountsDown(n - 1);
    }
  }

  /** So a full clock runs out, and a life is lost, on exactly the 20000th frame. */
  lemma ClockRunsOutAt20000()
    ensures TickTimeN(StartTime, 19999) > 0.0
    ensures TickTimeN(StartTime, 19999) - TimeStep <= 0.0
  {
    ClockCountsDown(19999);
  }

  // ---------------------------------------------------------------- the level

  const InitialPlatforms: seq<Tile> := [
    Tile(0.0, 450.0, 3200.0, 30.0, Ground, false),
    Tile(200.0, 350.0, 64.0, 32.0, Brick, false),
    Tile(264.0, 350.0, 32.0, 32.0, Question, false),
    Tile(296.0, 350.0, 64.0, 32.0, Brick, false),
    Tile(400.0, 300.0, 32.0, 32.0, Question, false),
    Tile(432.0, 300.0, 96.0, 32.0, Brick, false),
    Tile(600.0, 250.0, 32.0, 32.0, Question, false),
    Tile(632.0, 250.0, 96.0, 32.0, Brick, false),
    Tile(800.0, 200.0, 32.0, 32.0, Question, false),
    Tile(832.0, 200.0, 32.0, 32.0, Question, false),
    Tile(864.0, 200.0, 64.0, 32.0, Brick, false),
    Tile(1000.0, 350.0, 128.0, 32.0, Pipe, false),
    Tile(1200.0, 300.0, 128.0, 180.0, Pipe, false),
    Tile(1500.0, 400.0, 64.0, 32.0, Brick, false),
    Tile(1564.0, 400.0, 32.0, 32.0, Question, false),
    Tile(1596.0, 400.0, 64.0, 32.0, Brick, false),
    Tile(1800.0, 350.0, 32.0, 32.0, Question, false),
    Tile(2000.0, 300.0, 128.0, 32.0, Brick, false),
    Tile(2200.0, 250.0, 200.0, 32.0, Pipe, false),
    Tile(2600.0, 200.0, 300.0, 32.0, Brick, false)]

  const InitialFoes: seq<Foe> := [
    Foe(320.0, GroundY, 32.0, 32.0, -1.0, Goomba, true, 0, false, 0),
    Foe(520.0, GroundY, 32.0, 32.0, 1.0, Goomba, true, 0, false, 0),
    Foe(720.0, GroundY, 32.0, 38.0, -1.5, Koopa, true, 0, false, 0),
    Foe(980.0, GroundY, 32.0, 32.0, -1.0, Goomba, true, 0, false, 0),
    Foe(1150.0, GroundY, 32.0, 38.0, 1.2, Koopa, true, 0, false, 0),
    Foe(1450.0, GroundY, 32.0, 32.0, -1.0, Goomba, true, 0, false, 0),
    Foe(1750.0, GroundY, 32.0, 32.0, 1.0, Goomba, true, 0, false, 0),
    Foe(1950.0, GroundY, 32.0, 38.0, -1.0, Koopa, true, 0, false, 0),
    Foe(2150.0, GroundY, 32.0, 32.0, -1.5, Goomba, true, 0, false, 0),
    Foe(2450.0, GroundY, 32.0, 38.0, 1.0, Koopa, true, 0, false, 0)]

  const InitialCoins: seq<Coin> := [
    Coin(250.0, 320.0, 24.0, 24.0, false), Coin(350.0, 420.0, 24.0, 24.0, false),
    Coin(550.0, 270.0, 24.0, 24.0, false), Coin(750.0, 220.0, 24.0, 24.0, false),
    Coin(950.0, 170.0, 24.0, 24.0, false), Coin(1150.0, 320.0, 24.0, 24.0, false),
    Coin(1350.0, 420.0, 24.0, 24.0, false), Coin(1650.0, 370.0, 24.0, 24.0, false),
    Coin(1850.0, 320.0, 24.0, 24.0, false), Coin(2050.0, 270.0, 24.0, 24.0, false),
    Coin(2250.0, 420.0, 24.0, 24.0, false), Coin(2450.0, 370.0, 24.0, 24.0, false),
    Coin(2650.0, 320.0, 24.0, 24.0, false), Coin(2850.0, 170.0, 24.0, 24.0, false)]

  /**
   * Platforms that enemies on their line cannot stand on: every top is more
   * than 5 away from both 432 and 438, where those enemies' feet are.
   */
  predicate ClearOfGroundLine(bs: seq<Tile>)
  {
    forall k :: 0 <= k < |bs| ==> bs[k].y < 427.0 || bs[k].y > 443.0
  }

  /** No question block of the level starts hit, and nothing in the frame ever marks one. */
  predicate NoneHit(bs: seq<Tile>)
  {
    forall k :: 0 <= k < |bs| ==> !bs[k].hit
  }

  /** The level's platform tops are at 200, 250, 300, 350, 400 and 450: all clear of the enemies' feet. */
  lemma InitialPlatformsClear()
    ensures ClearOfGroundLine(InitialPlatforms) && NoneHit(InitialPlatforms)
  {
    forall k | 0 <= k < |InitialPlatforms|
      ensures InitialPlatforms[k].y in {200.0, 250.0, 300.0, 350.0, 400.0, 450.0} && !InitialPlatforms[k].hit
    {
    }
  }

  /** So an enemy on its line never stands on a platform. */
  lemma FoesNeverStand(e: Foe, bs: seq<Tile>)
    requires OnGroundLine(e) && ClearOfGroundLine(bs)
    ensures !StandsOnPlatform(e, bs)
  {
    forall k | 0 <= k < |bs|
      ensures !OnTop(e, bs[k])
    {
      assert bs[k].y < 427.0 || bs[k].y > 443.0;
    }
  }

  /**
   * So every live enemy turns around on every frame, and two frames bring it
   * back to where it was: the enemies of this level shake in place.
   */
  lemma FoesShakeInPlace(e: Foe, bs: seq<Tile>)
    requires OnGroundLine(e) && ClearOfGroundLine(bs)
    ensures FoeMove(e, bs).vx == -e.vx
    ensures FoeMove(FoeMove(e, bs), bs) == e
  {
    FoesNeverStand(e.(x := e.x + e.vx), bs);
    var once := FoeMove(e, bs);
    assert OnGroundLine(once);
    FoesNeverStand(once.(x := once.x + once.vx), bs);
  }

  function QuestionReset(b: Tile): (r: Tile)
    ensures b.kind == Question ==> !r.hit
    ensures r.(hit := b.hit) == b
  {
    if b.kind == Question then b.(hit := false) else b
  }

  /** Every coin uncollected, every enemy revived, every question block unhit: what R does to the level. */
  function Uncollected(cs: seq<Coin>): seq<Coin>
  {
    seq(|cs|, k requires 0 <= k < |cs| => cs[k].(collected := false))
  }

  function AllRevived(es: seq<Foe>): seq<Foe>
  {
    seq(|es|, k requires 0 <= k < |es| => Revived(es[k]))
  }

  function QuestionsReset(bs: seq<Tile>): seq<Tile>
  {
    seq(|bs|, k requires 0 <= k < |bs| => QuestionReset(bs[k]))
  }

  // ---------------------------------------------------------------- the frame as a function

  /** Everything the frame reads or writes, as one value. */
  datatype Game = Game(
    score: int, lives: int, level: int, time: real, cameraX: real, cameraY: real,
    particles: seq<Particle>, player: Mario, keys: set<string>, keysPressed: set<string>,
    platforms: seq<Tile>, enemies: seq<Foe>, coins: seq<Coin>)

  function RoundIn(g: Game): Round
  {
    Round(g.player, g.score, g.lives, g.particles)
  }

  function WithRound(g: Game, w: Round): Game
  {
    g.(player := w.player, score := w.score, lives := w.lives, particles := w.particles)
  }

  /**
   * The frame's invariant: lives 1 to 3, a score of at least 0, time left
   * on the clock, a player within its bounds, only live particles, enemies
   * on their line, platforms clear of that line and never hit, and a
   * pressed-key set that is always the held-key set.
   */
  predicate GameOk(g: Game)
  {
    RoundOk(RoundIn(g)) && 0.0 < g.time <= StartTime &&
    (forall k :: 0 <= k < |g.enemies| ==> OnGroundLine(g.enemies[k])) &&
    ClearOfGroundLine(g.platforms) && NoneHit(g.platforms) &&
    g.keysPressed == g.keys
  }

  /** R: the player back at the start, score 0, a full clock, no particles, and the level reset; the lives are kept. */
  function RestartGame(g: Game): Game
  {
    g.(player := Restarted(g.player), score := 0, time := StartTime, particles := [],
       coins := Uncollected(g.coins), enemies := AllRevived(g.enemies), platforms := QuestionsReset(g.platforms))
  }

  /** The first half of a frame: the input rules, R when it is held, and the motion. */
  function PlayerHalf(g: Game): Game
  {
    var c := g.(player := Controls(g.player, g.keys, g.keysPressed));
    var r := if "KeyR" in g.keys then RestartGame(c) else c;
    r.(player := Motion(r.player, r.platforms))
  }

  /** The enemy pass on the whole game. */
  function EnemyHalf(g: Game): Game
  {
    var r := FoesPass(RoundIn(g), g.enemies, g.platforms);
    WithRound(g, r.0).(enemies := r.1)
  }

  /** The coin pass, then one update of the particles. */
  function CoinHalf(g: Game): Game
  {
    var r := CoinsPass(RoundIn(g), g.coins);
    var h := WithRound(g, r.0).(coins := r.1);
    h.(particles := Survivors(h.particles))
  }

  /** The camera follows the player 400 to its right, within the world's 1600. */
  function Follow(g: Game, canvasWidth: real): Game
  {
    g.(cameraX := Max(0.0, Min(g.player.x - 400.0, WorldEdge - canvasWidth)))
  }

  /** The clock's frame: a step of 0.02, and a lost life when it runs out. */
  function TickGame(g: Game): Game
  {
    var h := if g.time - TimeStep > 0.0 then g else WithRound(g, LoseLife(RoundIn(g)));
    h.(time := TickTime(g.time))
  }

  /** The second half of a frame: the enemy and coin passes, the particles, the camera and the clock. */
  function WorldHalf(g: Game, canvasWidth: real): Game
  {
    TickGame(Follow(CoinHalf(EnemyHalf(g)), canvasWidth))
  }

  /** One frame of the inline game. */
  function Frame(g: Game, canvasWidth: real): Game
  {
    WorldHalf(PlayerHalf(g), canvasWidth)
  }

  /** With no question block hit, R leaves the platforms as they are and keeps the invariant. */
  lemma RestartKeepsOk(g: Game)
    requires GameOk(g)
    ensures var r := RestartGame(g);
            GameOk(r) && r.platforms == g.platforms && r.lives == g.lives && r.score == 0 && r.time == StartTime &&
            (forall k :: 0 <= k < |r.coins| ==> !r.coins[k].collected) &&
            (forall k :: 0 <= k < |r.enemies| ==> r.enemies[k].alive)
  {
    var r := RestartGame(g);
    assert r.platforms == g.platforms by {
      forall k | 0 <= k < |g.platforms|
        ensures r.platforms[k] == g.platforms[k]
      {
        assert !g.platforms[k].hit;
      }
    }
    assert MarioOk(r.player);
  }

  /** Every live enemy is on its line after the enemy pass as before. */
  lemma {:induction false} FoesPassStayOnLine(w: Round, es: seq<Foe>, bs: seq<Tile>)
    requires forall k :: 0 <= k < |es| ==> OnGroundLine(es[k])
    ensures forall k :: 0 <= k < |FoesPass(w, es, bs).1| ==> OnGroundLine(FoesPass(w, es, bs).1[k])
  {
    FoesPassWalks(w, es, bs);
    var r := FoesPass(w, es, bs);
    forall k | 0 <= k < |r.1|
      ensures OnGroundLine(r.1[k])
    {
      if es[k].alive {
        assert r.1[k].(alive := true) == FoeMove(es[k], bs);
      }
    }
  }

  lemma PlayerHalfOk(g: Game)
    requires GameOk(g)
    ensures GameOk(PlayerHalf(g))
  {
    var c := g.(player := Controls(g.player, g.keys, g.keysPressed));
    assert GameOk(c);
    if "KeyR" in g.keys {
      RestartKeepsOk(c);
    }
  }

  lemma EnemyHalfOk(g: Game)
    requires GameOk(g)
    ensures GameOk(EnemyHalf(g))
  {
    var r := FoesPass(RoundIn(g), g.enemies, g.platforms);
    FoesPassStayOnLine(RoundIn(g), g.enemies, g.platforms);
    assert RoundIn(WithRound(g, r.0)) == r.0;
    assert forall k :: 0 <= k < |r.1| ==> OnGroundLine(r.1[k]);
  }

  lemma CoinHalfOk(g: Game)
    requires GameOk(g)
    ensures GameOk(CoinHalf(g))
  {
    var r := CoinsPass(RoundIn(g), g.coins);
    assert RoundOk(r.0);
  }

  /**
   * A frame keeps the invariant: the lives stay between 1 and 3, the score
   * non-negative, the clock running, the player within its bounds, the
   * particles alive and the enemies on their line.
   */
  lemma FrameKeepsOk(g: Game, canvasWidth: real)
    requires GameOk(g)
    ensures GameOk(Frame(g, canvasWidth))
  {
    PlayerHalfOk(g);
    EnemyHalfOk(PlayerHalf(g));
    CoinHalfOk(EnemyHalf(PlayerHalf(g)));
  }

  /**
   * What a frame never changes: the held and pressed keys, the level, the
   * vertical camera and the platforms; the coin and enemy lists keep their
   * length; and the camera stays within the world.
   */
  lemma FrameKeeps(g: Game, canvasWidth: real)
    requires GameOk(g)
    ensures var r := Frame(g, canvasWidth);
            r.keys == g.keys && r.keysPressed == g.keysPressed && r.level == g.level && r.cameraY == g.cameraY &&
            r.platforms == g.platforms && |r.coins| == |g.coins| && |r.enemies| == |g.enemies| &&
            0.0 <= r.cameraX <= Max(0.0, WorldEdge - canvasWidth)
  {
    if "KeyR" in g.keys {
      RestartKeepsOk(g.(player := Controls(g.player, g.keys, g.keysPressed)));
    }
  }

  // ---------------------------------------------------------------- the game

  class InlineGame {
    var score: int
    var lives: int
    /** The level number; nothing in the frame changes it. */
    var level: int
    var time: real
    var cameraX: real
    var cameraY: real
    var particles: seq<Particle>
    var player: Mario
    /** The codes currently held, and the codes whose press has been seen. */
    var keys: set<string>
    var keysPressed: set<string>
    var platforms: seq<Tile>
    var enemies: seq<Foe>
    var coins: seq<Coin>
    const canvasWidth: real

    /** The frame's invariant, GameOk, on the current state. */
    ghost predicate Valid()
      reads this
    {
      GameOk(State())
    }

    function State(): Game
      reads this
    {
      Game(score, lives, level, time, cameraX, cameraY, particles, player, keys, keysPressed, platforms, enemies, coins)
    }

    function RoundOf(): Round
      reads this
    {
      Round(player, score, lives, particles)
    }

    constructor (canvasWidth: real)
      ensures Valid()
      ensures score == 0 && lives == StartLives && level == 1 && time == StartTime
      ensures cameraX == 0.0 && cameraY == 0.0 && particles == []
      ensures player == MarioStart && keys == {} && keysPressed == {}
      ensures platforms == InitialPlatforms && enemies == InitialFoes && coins == InitialCoins
      ensures this.canvasWidth == canvasWidth
    {
      score := 0;
      lives := StartLives;
      level := 1;
      time := StartTime;
      cameraX := 0.0;
      cameraY := 0.0;
      particles := [];
      player := MarioStart;
      keys := {};
      keysPressed := {};
      platforms := InitialPlatforms;
      enemies := InitialFoes;
      coins := InitialCoins;
      this.canvasWidth := canvasWidth;
      InitialPlatformsClear();
    }

    /** A key press marks the code pressed only on its up-to-down transition; the code is then held. */
    method KeyDown(code: string)
      modifies this`keys, this`keysPressed
      ensures keys == old(keys) + {code}
      ensures keysPressed == if code in old(keys) then old(keysPressed) else old(keysPressed) + {code}
      ensures old(keysPressed == keys) ==> keysPressed == keys
    {
      if code !in keys {
        keysPressed := keysPressed + {code};
      }
      keys := keys + {code};
    }

    /** A key release clears the code from both sets. */
    method KeyUp(code: string)
      modifies this`keys, this`keysPressed
      ensures keys == old(keys) - {code} && keysPressed == old(keysPressed) - {code}
      ensures old(keysPressed == keys) ==> keysPressed == keys
    {
      keys := keys - {code};
      keysPressed := keysPressed - {code};
    }

    method CreateParticle(x: real, y: real, text: string, color: string)
      modifies this`particles
      ensures particles == old(particles) + [NewParticle(x, y, text, color)]
    {
      var particle := Particle(x, y, text, color, -2.0, ParticleLife, ParticleLife);
      particles := particles + [particle];
    }

    /** Every particle advances; walking the buffer backwards, those with no life left are spliced out. */
    method UpdateParticles()
      modifies this`particles
      ensures particles == Survivors(old(particles))
    {
      ghost var start := particles;
      var i := |particles| - 1;
      while i >= 0
        invariant -1 <= i < |start|
        invariant particles == start[..i + 1] + Survivors(start[i + 1..])
        decreases i + 1
      {
        var particle := particles[i];
        SplicePrefix(start, i, particles);
        ghost var advanced := Advance(particle);
        particle := particle.(y := particle.y + particle.vy);
        particle := particle.(vy := particle.vy + 0.1);
        particle := particle.(life := particle.life - 1);
        assert particle == advanced;
        particles := particles[i := particle];
        if particle.life <= 0 {
          particles := particles[..i] + particles[i + 1..];
        }
        assert particles == start[..i] + Survivors(start[i..]);
        i := i - 1;
      }
      assert start[0..] == start;
    }

    /** Whether the enemy stands on some platform: the platforms are all tried, none stops the search. */
    method StandsOn(e: Foe) returns (onPlatform: bool)
      ensures onPlatform <==> StandsOnPlatform(e, platforms)
    {
      onPlatform := false;
      var k := 0;
      while k < |platforms|
        invariant 0 <= k <= |platforms|
        invariant onPlatform <==> exists j :: 0 <= j < k && OnTop(e, platforms[j])
      {
        if OnTop(e, platforms[k]) {
          onPlatform := true;
        }
        k := k + 1;
      }
    }

    /** The landing pass: the player is first taken off the ground, then tried against every platform in order. */
    method LandOnPlatforms()
      modifies this`player
      ensures player == Landing(old(player).(onGround := false), platforms)
    {
      ghost var start := player.(onGround := false);
      player := player.(onGround := false);
      var i := 0;
      while i < |platforms|
        invariant 0 <= i <= |platforms|
        invariant player == Landing(start, platforms[..i])
      {
        var platform := platforms[i];
        if Overlaps(MarioBox(player), PlatformBox(platform)) {
          if player.vy > 0.0 && player.y < platform.y {
            player := player.(y := platform.y - player.height, vy := 0.0, onGround := true);
          }
        }
        assert platforms[..i + 1][..i] == platforms[..i];
        i := i + 1;
      }
      assert platforms[..|platforms|] == platforms;
    }

    /** Damage from an enemy, as Hurt states it. */
    method TakeDamage()
      modifies this`player, this`lives, this`score
      ensures RoundOf() == Hurt(old(RoundOf()))
    {
      if player.size == Super {
        player := player.(size := Small, height := 32.0);
      } else {
        lives := lives - 1;
        if lives <= 0 {
          lives := StartLives;
          score := 0;
        }
        player := player.(x := 100.0, y := GroundY);
      }
    }

    /** The i-th enemy of the enemy pass; every other enemy is left alone. */
    method FoeAt(i: nat)
      requires i < |enemies|
      modifies this`enemies, this`player, this`score, this`lives, this`particles
      ensures |enemies| == old(|enemies|)
      ensures forall k :: 0 <= k < |enemies| && k != i ==> enemies[k] == old(enemies[k])
      ensures (RoundOf(), enemies[i]) == FoeStep(old(RoundOf()), old(enemies[i]), platforms)
    {
      var enemy := enemies[i];
      if !enemy.alive {
        return;
      }
      enemy := enemy.(x := enemy.x + enemy.vx);
      var onPlatform := StandsOn(enemy);
      if !onPlatform || enemy.x <= 0.0 || enemy.x >= WorldEdge - enemy.width {
        enemy := enemy.(vx := enemy.vx * -1.0);
      }
      enemies := enemies[i := enemy];
      if Overlaps(MarioBox(player), FoeBox(enemy)) {
        if player.vy > 0.0 && player.y < enemy.y {
          enemies := enemies[i := enemy.(alive := false)];
          player := player.(vy := MinJumpForce * 0.6, isJumping := false);
          score := score + StompScore;
          CreateParticle(enemy.x + enemy.width / 2.0, enemy.y, "100", Gold);
        } else {
          TakeDamage();
        }
      }
    }

    /** The enemy pass: every enemy in turn against the player as it stands at that moment. */
    method EnemiesPass()
      requires Valid()
      modifies this`enemies, this`player, this`score, this`lives, this`particles
      ensures Valid()
      ensures (RoundOf(), enemies) == FoesPass(old(RoundOf()), old(enemies), platforms)
    {
      ghost var w0 := RoundOf();
      ghost var es0 := enemies;
      var i := 0;
      while i < |enemies|
        invariant 0 <= i <= |enemies| == |es0|
        invariant forall k :: 0 <= k < |enemies| ==> OnGroundLine(enemies[k])
        invariant forall k :: i <= k < |enemies| ==> enemies[k] == es0[k]
        invariant (RoundOf(), enemies[..i]) == FoesPass(w0, es0[..i], platforms)
      {
        ghost var prefix := enemies[..i];
        FoeAt(i);
        assert enemies[..i + 1] == prefix + [enemies[i]];
        assert es0[..i + 1][..i] == es0[..i];
        i := i + 1;
      }
      assert es0[..|es0|] == es0;
      assert enemies[..|enemies|] == enemies;
    }

    /** The i-th coin of the coin pass; every other coin is left alone. */
    method CoinAt(i: nat)
      requires Valid() && i < |coins|
      modifies this`coins, this`score, this`particles
      ensures Valid()
      ensures |coins| == old(|coins|)
      ensures forall k :: 0 <= k < |coins| && k != i ==> coins[k] == old(coins[k])
      ensures (RoundOf(), coins[i]) == CoinStep(old(RoundOf()), old(coins[i]))
    {
      var coin := coins[i];
      if !coin.collected {
        if Overlaps(MarioBox(player), CoinBox(coin)) {
          coins := coins[i := coin.(collected := true)];
          score := score + CoinScore;
          CreateParticle(coin.x + coin.width / 2.0, coin.y, "200", Gold);
        }
      }
    }

    /** The coin pass, in order. */
    method CollectCoins()
      requires Valid()
      modifies this`coins, this`score, this`particles
      ensures Valid()
      ensures (RoundOf(), coins) == CoinsPass(old(RoundOf()), old(coins))
    {
      ghost var w0 := RoundOf();
      ghost var cs0 := coins;
      var i := 0;
      while i < |coins|
        invariant 0 <= i <= |coins| == |cs0|
        invariant Valid()
        invariant forall k :: i <= k < |coins| ==> coins[k] == cs0[k]
        invariant (RoundOf(), coins[..i]) == CoinsPass(w0, cs0[..i])
      {
        ghost var prefix := coins[..i];
        CoinAt(i);
        assert coins[..i + 1] == prefix + [coins[i]];
        assert cs0[..i + 1][..i] == cs0[..i];
        i := i + 1;
      }
      assert cs0[..|cs0|] == cs0;
      assert coins[..|coins|] == coins;
    }

    method ResetCoins()
      modifies this`coins
      ensures coins == Uncollected(old(coins))
    {
      var k := 0;
      while k < |coins|
        invariant 0 <= k <= |coins| == old(|coins|)
        invariant forall j :: 0 <= j < k ==> coins[j] == old(coins[j]).(collected := false)
        invariant forall j :: k <= j < |coins| ==> coins[j] == old(coins[j])
      {
        coins := coins[k := coins[k].(collected := false)];
        k := k + 1;
      }
    }

    method ReviveEnemies()
      modifies this`enemies
      ensures enemies == AllRevived(old(enemies))
    {
      var k := 0;
      while k < |enemies|
        invariant 0 <= k <= |enemies| == old(|enemies|)
        invariant forall j :: 0 <= j < k ==> enemies[j] == Revived(old(enemies[j]))
        invariant forall j :: k <= j < |enemies| ==> enemies[j] == old(enemies[j])
      {
        var enemy := enemies[k];
        enemy := enemy.(alive := true, deathTimer := 0);
        if enemy.kind == Koopa {
          enemy := enemy.(inShell := false, shellTimer := 0, height := 38.0);
        }
        enemies := enemies[k := enemy];
        k := k + 1;
      }
    }

    method ResetQuestionBlocks()
      modifies this`platforms
      ensures platforms == QuestionsReset(old(platforms))
    {
      var k := 0;
      while k < |platforms|
        invariant 0 <= k <= |platforms| == old(|platforms|)
        invariant forall j :: 0 <= j < k ==> platforms[j] == QuestionReset(old(platforms[j]))
        invariant forall j :: k <= j < |platforms| ==> platforms[j] == old(platforms[j])
      {
        if platforms[k].kind == Question {
          platforms := platforms[k := platforms[k].(hit := false)];
        }
        k := k + 1;
      }
    }

    /**
     * R: the player back at the start, score 0, a full clock, no particles,
     * every coin back, every enemy alive, every question block unhit; the
     * lives are kept.
     */
    method Restart()
      requires Valid()
      modifies this`player, this`score, this`time, this`particles, this`coins, this`enemies, this`platforms
      ensures Valid()
      ensures player == Restarted(old(player)) && score == 0 && time == StartTime && particles == []
      ensures lives == old(lives)
      ensures |coins| == old(|coins|) && forall k :: 0 <= k < |coins| ==> coins[k] == old(coins[k]).(collected := false)
      ensures |enemies| == old(|enemies|) && forall k :: 0 <= k < |enemies| ==> enemies[k] == Revived(old(enemies[k]))
      ensures platforms == old(platforms)
      ensures State() == RestartGame(old(State()))
    {
      RestartKeepsOk(State());
      player := Restarted(player);
      score := 0;
      time := StartTime;
      particles := [];
      ResetCoins();
      ReviveEnemies();
      ResetQuestionBlocks();
    }

    /** The clock's frame, as TickTime and LoseLife state it. */
    method Tick()
      requires Valid()
      modifies this`time, this`lives, this`score, this`player
      ensures Valid()
      ensures time == TickTime(old(time))
      ensures old(time) - TimeStep > 0.0 ==> RoundOf() == old(RoundOf())
      ensures old(time) - TimeStep <= 0.0 ==> RoundOf() == LoseLife(old(RoundOf()))
      ensures State() == TickGame(old(State()))
    {
      time := time - TimeStep;
      if time <= 0.0 {
        lives := lives - 1;
        time := StartTime;
        if lives <= 0 {
          lives := StartLives;
          score := 0;
        }
        player := player.(x := 100.0, y := GroundY);
      }
    }

    method ApplyControls()
      requires Valid()
      modifies this`player
      ensures Valid()
      ensures player == Controls(old(player), keys, keysPressed)
    {
      player := Steer(player, keys);
      player := StartJump(player, keysPressed);
      player := HoldJump(player, keys);
      player := CutJump(player, keys);
      if player.onGround {
        player := player.(isJumping := false);
      }
    }

    method MovePlayer()
      requires Valid()
      modifies this`player
      ensures Valid()
      ensures player == Motion(old(player), platforms)
    {
      if player.vy >= 0.0 {
        player := player.(isJumping := false);
      }
      player := Fall(player);
      LandOnPlatforms();
      player := Coyote(player);
    }

    /** The first half of a frame: the input rules, R, and the motion. */
    method PlayerPhase()
      requires Valid()
      modifies this`player, this`score, this`time, this`particles, this`coins, this`enemies, this`platforms
      ensures Valid()
      ensures |coins| == old(|coins|) && |enemies| == old(|enemies|) && platforms == old(platforms)
      ensures "KeyR" !in keys ==> coins == old(coins)
      ensures forall k :: 0 <= k < |enemies| ==>
                enemies[k].x == old(enemies[k]).x && enemies[k].vx == old(enemies[k]).vx &&
                (old(enemies[k]).alive ==> enemies[k].alive)
      ensures State() == PlayerHalf(old(State()))
    {
      ApplyControls();
      if "KeyR" in keys {
        Restart();
      }
      MovePlayer();
    }

    /** The enemy pass, seen from the frame: every live enemy walks one step and turns around. */
    method EnemyPhase()
      requires Valid()
      modifies this`enemies, this`player, this`score, this`lives, this`particles
      ensures Valid()
      ensures |enemies| == old(|enemies|)
      ensures forall k :: 0 <= k < |enemies| && old(enemies[k]).alive ==>
                enemies[k].x == old(enemies[k]).x + old(enemies[k]).vx && enemies[k].vx == -old(enemies[k]).vx
      ensures State() == EnemyHalf(old(State()))
    {
      ghost var walkers := enemies;
      ghost var w := RoundOf();
      EnemiesPass();
      FoesPassWalks(w, walkers, platforms);
      forall k | 0 <= k < |enemies| && walkers[k].alive
        ensures enemies[k].(alive := true) == FoeMove(walkers[k], platforms)
        ensures FoeMove(walkers[k], platforms).vx == -walkers[k].vx
      {
        FoesShakeInPlace(walkers[k], platforms);
      }
    }

    /** The coin pass and the particles, seen from the frame: collected coins stay collected. */
    method CoinPhase()
      requires Valid()
      modifies this`coins, this`score, this`particles
      ensures Valid()
      ensures |coins| == old(|coins|)
      ensures forall k :: 0 <= k < |coins| && old(coins[k].collected) ==> coins[k].collected
      ensures State() == CoinHalf(old(State()))
    {
      ghost var w := RoundOf();
      ghost var before := coins;
      CollectCoins();
      CoinsPassCollects(w, before);
      UpdateParticles();
    }

    /** The second half of a frame: the enemy and coin passes, the particles, the camera and the clock. */
    method WorldPhase()
      requires Valid()
      modifies this`player, this`score, this`lives, this`time, this`cameraX, this`particles, this`coins, this`enemies
      ensures Valid()
      ensures |coins| == old(|coins|) && |enemies| == old(|enemies|)
      ensures forall k :: 0 <= k < |coins| && old(coins[k].collected) ==> coins[k].collected
      ensures 0.0 <= cameraX <= Max(0.0, WorldEdge - canvasWidth)
      ensures forall k :: 0 <= k < |enemies| && old(enemies[k]).alive ==>
                enemies[k].x == old(enemies[k]).x + old(enemies[k]).vx && enemies[k].vx == -old(enemies[k]).vx
      ensures State() == WorldHalf(old(State()), canvasWidth)
    {
      EnemyPhase();
      CoinPhase();
      cameraX := Max(0.0, Min(player.x - 400.0, WorldEdge - canvasWidth));
      Tick();
    }

    /**
     * One frame: the input rules, R, the motion, the enemy and coin passes,
     * the particles, the camera and the clock, in that order. The key sets
     * are left as they are, so a held Space still counts as pressed on the
     * next frame. Every live enemy turns around on every frame.
     */
    method Update()
      requires Valid()
      modifies this`player, this`score, this`lives, this`time, this`cameraX, this`particles
      modifies this`coins, this`enemies, this`platforms
      ensures Valid()
      ensures |coins| == old(|coins|) && |enemies| == old(|enemies|) && platforms == old(platforms)
      ensures "KeyR" !in keys ==> forall k :: 0 <= k < |coins| && old(coins[k].collected) ==> coins[k].collected
      ensures 0.0 <= cameraX <= Max(0.0, WorldEdge - canvasWidth)
      ensures forall k :: 0 <= k < |enemies| && old(enemies[k]).alive ==>
                enemies[k].x == old(enemies[k]).x + old(enemies[k]).vx && enemies[k].vx == -old(enemies[k]).vx
      ensures State() == Frame(old(State()), canvasWidth)
    {
      PlayerPhase();
      WorldPhase();
    }
  }

  /**
   * The pressed set is meant to hold a key for the frame it goes down, but the
   * frame never clears it and a press only adds what a release removes, so it
   * always equals the held set. Holding Space therefore starts a new jump on
   * every landing.
   */
  lemma HeldSpaceJumpsAgain(p: Mario, keys: set<string>)
    requires "Space" in keys && p.onGround && !p.isJumping
    ensures StartJump(p, keys).isJumping && StartJump(p, keys).vy == MinJumpForce
  {
  }
}
