/**
 * The engine: it owns the input handler, the game-state manager, the player,
 * the enemy list and the level's block rectangles, and runs one frame as
 * player update, enemy updates, the three collision passes, the camera, the
 * win/lose checks and the removal of inactive enemies. Clocks and animation
 * frame ids are parameters; drawing is not modelled.
 */
module Engine {
  import opened GameTypes
  import Physics
  import opened Entities
  import opened Players
  import opened Enemies
  import Input
  import StateManager
  import LevelLoader
  import opened Collisions

  /** The ids under which the engine subscribes its two callbacks. */
  const InputCallback: nat := 0
  const StateCallback: nat := 1

  const PlayerStart: Vector2D := Vector2D(100.0, 320.0)
  const PlayerSize: Vector2D := Vector2D(16.0, 16.0)
  /** The goal counts as reached when the player's centre is nearer than this. */
  const GoalRadius: real := 50.0
  /** How far below the level's bottom edge the player counts as fallen off. */
  const FallMargin: real := 100.0

  function BodyOf(b: Entity): Body
    reads b
  {
    Body(b.position, b.velocity, b.onGround)
  }

  function MoverOf(e: Enemy): Mover
    reads e, e.body
  {
    Mover(e.body.position, e.body.velocity, e.body.onGround, e.movementDirection, e.body.facingRight)
  }

  /** No two enemies of the list share a body (and so no enemy is listed twice). */
  ghost predicate BodiesDistinct(es: seq<Enemy>)
  {
    forall i, j :: 0 <= i < j < |es| ==> es[i].body != es[j].body
  }

  /** The enemies whose body is still active, in their original order. */
  function ActiveOnly(es: seq<Enemy>): (r: seq<Enemy>)
    reads set e | e in es :: e.body
    ensures forall i :: 0 <= i < |r| ==> r[i] in es && r[i].body.active
    ensures forall i :: 0 <= i < |es| && es[i].body.active ==> es[i] in r
    ensures |r| <= |es|
  {
    if es == [] then []
    else (if es[0].body.active then [es[0]] else []) + ActiveOnly(es[1..])
  }

  /** Filtering distributes over concatenation, so the survivors keep their relative order. */
  lemma {:induction false} ActiveOnlyAppend(a: seq<Enemy>, b: seq<Enemy>)
    ensures ActiveOnly(a + b) == ActiveOnly(a) + ActiveOnly(b)
  {
    if a == [] {
      assert a + b == b;
    } else {
      assert (a + b)[1..] == a[1..] + b;
      ActiveOnlyAppend(a[1..], b);
    }
  }

  /** Filtering keeps the bodies distinct. */
  lemma {:induction false} ActiveOnlyDistinct(es: seq<Enemy>)
    requires BodiesDistinct(es)
    ensures BodiesDistinct(ActiveOnly(es))
  {
    if es != [] {
      var tail := es[1..];
      assert BodiesDistinct(tail) by {
        forall i, j | 0 <= i < j < |tail|
          ensures tail[i].body != tail[j].body
        {
          assert tail[i] == es[i + 1] && tail[j] == es[j + 1];
        }
      }
      ActiveOnlyDistinct(tail);
      var rest := ActiveOnly(tail);
      if es[0].body.active {
        var r := [es[0]] + rest;
        forall i, j | 0 <= i < j < |r|
          ensures r[i].body != r[j].body
        {
          if i == 0 {
            assert r[j] in tail;
            var k :| 0 <= k < |tail| && tail[k] == r[j];
            assert es[k + 1] == r[j];
          } else {
            assert r[i] == rest[i - 1] && r[j] == rest[j - 1];
          }
        }
      } else {
        assert ActiveOnly(es) == rest;
      }
    }
  }

  /** The block rectangles of a level: one 32 by 32 square at each block's position. */
  function BlockRects(bs: seq<BlockData>): (r: seq<Rectangle>)
    ensures |r| == |bs|
    ensures forall i :: 0 <= i < |bs| ==>
              Physics.Moved(r[i], bs[i].position) == r[i] &&
              r[i].width == LevelLoader.BlockSize && r[i].height == LevelLoader.BlockSize
  {
    seq(|bs|, i requires 0 <= i < |bs| =>
      Rectangle(bs[i].position.x, bs[i].position.y, LevelLoader.BlockSize, LevelLoader.BlockSize))
  }

  /**
   * One camera coordinate: centred on the player, but never showing anything
   * before the level's start or past its end; a level no larger than the view
   * pins the camera at 0.
   */
  function CameraAxis(center: real, levelExtent: real, viewExtent: real): (r: real)
    ensures r >= 0.0
    ensures levelExtent >= viewExtent ==> r <= levelExtent - viewExtent
    ensures levelExtent <= viewExtent ==> r == 0.0
    ensures viewExtent / 2.0 <= center <= levelExtent - viewExtent / 2.0 ==> r == center - viewExtent / 2.0
    ensures center < viewExtent / 2.0 ==> r == 0.0
    ensures levelExtent >= viewExtent && center > levelExtent - viewExtent / 2.0 ==> r == levelExtent - viewExtent
  {
    Max(0.0, Min(levelExtent - viewExtent, center - viewExtent / 2.0))
  }

  /** The goal test: the distance from the goal is below 50, compared on squares. */
  predicate NearGoal(center: Vector2D, goal: Vector2D)
  {
    var dx := center.x - goal.x;
    var dy := center.y - goal.y;
    dx * dx + dy * dy < GoalRadius * GoalRadius
  }

  /** The goal disc lies inside the 100 by 100 box around the goal and holds the 70 by 70 one. */
  lemma NearGoalBox(center: Vector2D, goal: Vector2D)
    ensures NearGoal(center, goal) ==> Abs(center.x - goal.x) < GoalRadius && Abs(center.y - goal.y) < GoalRadius
    ensures Abs(center.x - goal.x) < 35.0 && Abs(center.y - goal.y) < 35.0 ==> NearGoal(center, goal)
  {
    var dx := center.x - goal.x;
    var dy := center.y - goal.y;
    SquareBelow(dx, 35.0);
    SquareBelow(dy, 35.0);
    SquareAbove(dx, 50.0);
    SquareAbove(dy, 50.0);
  }

  /** What the engine builds for one enemy record of a level. */
  ghost predicate SpawnedFrom(e: Enemy, d: EnemyData)
    reads e, e.body
  {
    e.Valid() && e.body.position == d.position && e.body.velocity == Vector2D(0.0, 0.0) &&
    e.body.active && e.body.health == 1 && e.movementDirection == -1 && e.patrolCenter == d.position &&
    !e.isShell && !e.shellKicked &&
    (d.kind == GoombaEnemy ==>
       !e.koopa && e.body.kind == GoombaEntity && e.body.size == GoombaSize &&
       e.movementSpeed == 1.0 && e.patrolDistance == 120.0) &&
    (d.kind == KoopaEnemy ==>
       e.koopa && e.body.kind == KoopaEntity && e.body.size == KoopaSize &&
       e.movementSpeed == 1.5 && e.patrolDistance == 100.0)
  }

  /** Everything an enemy and its body hold that can change. */
  datatype EnemySnap = EnemySnap(
    speed: real, direction: int, isShell: bool, shellKicked: bool,
    position: Vector2D, velocity: Vector2D, size: Vector2D, sprite: Option<Sprite>,
    health: int, facingRight: bool, onGround: bool, active: bool)

  function SnapOf(e: Enemy): EnemySnap
    reads e, e.body
  {
    EnemySnap(e.movementSpeed, e.movementDirection, e.isShell, e.shellKicked,
              e.body.position, e.body.velocity, e.body.size, e.body.sprite,
              e.body.health, e.body.facingRight, e.body.onGround, e.body.active)
  }

  /** The same enemy after Entity.destroy. */
  function Destroyed(s: EnemySnap): (r: EnemySnap)
    ensures !r.active && r.health == 0
    ensures r.(active := s.active, health := s.health) == s
  {
    s.(active := false, health := 0)
  }

  function SnapRect(s: EnemySnap): Rectangle
  {
    Rectangle(s.position.x, s.position.y, s.size.x, s.size.y)
  }

  function SnapMover(s: EnemySnap): Mover
  {
    Mover(s.position, s.velocity, s.onGround, s.direction, s.facingRight)
  }

  /**
   * An enemy after the enemy-versus-blocks pass: an active one runs the block
   * fold from its own rectangle, an inactive one is skipped; nothing outside
   * the motion and the patrol direction changes.
   */
  function AfterBlocks(s: EnemySnap, blocks: seq<Rectangle>): (r: EnemySnap)
    ensures !s.active ==> r == s
    ensures s.active ==> SnapMover(r) == EnemyBlocks(SnapRect(s), SnapMover(s), blocks)
    ensures r.(position := s.position, velocity := s.velocity, onGround := s.onGround,
               direction := s.direction, facingRight := s.facingRight) == s
  {
    if s.active then
      var m := EnemyBlocks(SnapRect(s), SnapMover(s), blocks);
      s.(position := m.position, velocity := m.velocity, onGround := m.onGround,
         direction := m.direction, facingRight := m.facingRight)
    else s
  }

  function SnapCenterY(s: EnemySnap): real
  {
    s.position.y + s.size.y / 2.0
  }

  /** The player and an enemy meet: the enemy is active, the two overlap, and the player is active and not invulnerable. */
  predicate Meets(f: Fighter, s: EnemySnap)
  {
    s.active && Physics.CheckCollision(FighterRect(f), SnapRect(s)) && f.active && !f.invulnerable
  }

  /**
   * One enemy of the player-versus-enemies pass. When the two meet, the
   * player's side of the collision decides: the enemy is destroyed exactly
   * when the player falls onto it from above, and the player bounces or is
   * hurt. The enemy's own collision logic ignores the player, so in every
   * other case nothing changes.
   */
  function Clash(f: Fighter, s: EnemySnap): (Fighter, EnemySnap)
  {
    if Meets(f, s) then
      var hit := EnemyHit(f, SnapCenterY(s));
      if Stomps(FighterCenterY(f), SnapCenterY(s), f.velocity.y) then (hit, Destroyed(s)) else (hit, s)
    else (f, s)
  }

  /**
   * What one meeting does: nothing unless the two meet; otherwise the player
   * takes the player's side of the collision, and the enemy is destroyed
   * exactly when the player stomps it.
   */
  lemma ClashOutcome(f: Fighter, s: EnemySnap)
    ensures var r := Clash(f, s);
            (!Meets(f, s) ==> r == (f, s)) &&
            (Meets(f, s) ==> r.0 == EnemyHit(f, SnapCenterY(s))) &&
            (r.1 == Destroyed(s) && s.active <==> Meets(f, s) && Stomps(FighterCenterY(f), SnapCenterY(s), f.velocity.y)) &&
            (r.1 == s || r.1 == Destroyed(s))
  {
  }

  /** The player-versus-enemies pass: the enemies in list order, each against the player as the earlier ones left it. */
  function PlayerEnemies(f: Fighter, ss: seq<EnemySnap>): (r: (Fighter, seq<EnemySnap>))
    ensures |r.1| == |ss|
  {
    if ss == [] then (f, [])
    else
      var p := PlayerEnemies(f, ss[..|ss| - 1]);
      var c := Clash(p.0, ss[|ss| - 1]);
      (c.0, p.1 + [c.1])
  }

  /** The pass over one more enemy is one more Clash. */
  lemma PlayerEnemiesStep(f: Fighter, ss: seq<EnemySnap>, i: nat)
    requires i < |ss|
    ensures var p := PlayerEnemies(f, ss[..i]);
            var c := Clash(p.0, ss[i]);
            PlayerEnemies(f, ss[..i + 1]) == (c.0, p.1 + [c.1])
  {
    assert ss[..i + 1][..i] == ss[..i];
  }

  /** In the pass every enemy is left as it was or, if it was active and stomped, destroyed. */
  lemma {:induction false} PassKeepsOrDestroys(f: Fighter, ss: seq<EnemySnap>)
    ensures forall k :: 0 <= k < |ss| ==>
              PlayerEnemies(f, ss).1[k] == ss[k] ||
              (ss[k].active && PlayerEnemies(f, ss).1[k] == Destroyed(ss[k]))
  {
    if ss != [] {
      var n := |ss| - 1;
      PassKeepsOrDestroys(f, ss[..n]);
      ClashOutcome(PlayerEnemies(f, ss[..n]).0, ss[n]);
      assert forall k :: 0 <= k < n ==> PlayerEnemies(f, ss).1[k] == PlayerEnemies(f, ss[..n]).1[k] && ss[..n][k] == ss[k];
    }
  }

  /** An inactive or invulnerable player passes through every enemy: the pass changes nothing. */
  lemma {:induction false} ShieldedPlayerPassesThrough(f: Fighter, ss: seq<EnemySnap>)
    requires !f.active || f.invulnerable
    ensures PlayerEnemies(f, ss) == (f, ss)
  {
    if ss != [] {
      var n := |ss| - 1;
      ShieldedPlayerPassesThrough(f, ss[..n]);
      assert ss[..n] + [ss[n]] == ss;
    }
  }

  /**
   * A pass hurts the player at most once: the power level ends where it was,
   * or one lower with the player invulnerable, because a hit makes the player
   * invulnerable (or destroys it) and so ends every later contact.
   */
  lemma {:induction false} OneHitPerPass(f: Fighter, ss: seq<EnemySnap>)
    ensures var g := PlayerEnemies(f, ss).0;
            g.powerLevel == f.powerLevel || (g.powerLevel == f.powerLevel - 1 && g.invulnerable)
  {
    if ss != [] {
      OneHitPerPass(f, ss[..|ss| - 1]);
      ClashOutcome(PlayerEnemies(f, ss[..|ss| - 1]).0, ss[|ss| - 1]);
    }
  }

  /** The snapshots of a list of enemies, index by index. */
  ghost function Snaps(es: seq<Enemy>): (r: seq<EnemySnap>)
    reads set e | e in es, set e | e in es :: e.body
    ensures |r| == |es| && forall k :: 0 <= k < |es| ==> r[k] == SnapOf(es[k])
  {
    if es == [] then [] else Snaps(es[..|es| - 1]) + [SnapOf(es[|es| - 1])]
  }

  /** What of the player the enemy pass never touches. */
  datatype PlayerRest = PlayerRest(
    jumpBuffer: real, coyoteTime: real, running: bool, crouching: bool, initialPosition: Vector2D,
    onGround: bool, facingRight: bool, sprite: Option<Sprite>)

  function RestOf(p: Player): PlayerRest
    reads p, p.body
  {
    PlayerRest(p.jumpBuffer, p.coyoteTime, p.running, p.crouching, p.initialPosition,
               p.body.onGround, p.body.facingRight, p.body.sprite)
  }

  class GameEngine {
    const inputHandler: Input.InputHandler
    const gameStateManager: StateManager.GameStateManager
    const player: Player
    var entities: seq<Enemy>
    var blocks: seq<Rectangle>
    var currentLevel: Option<LevelData>
    var camera: Vector2D
    var isRunning: bool
    var lastTime: real
    var animationFrameId: Option<int>
    var canvasWidth: real
    var canvasHeight: real

    ghost function EnemySet(): set<Enemy>
      reads this`entities
    {
      set e | e in entities
    }

    ghost function BodySet(): set<Entity>
      reads this`entities
    {
      set e | e in entities :: e.body
    }

    /**
     * Every enemy is well formed, none shares a body with the player or with
     * another enemy, the player is well formed, the manager keeps its bounds
     * with a power level the engine never raises, and the engine's input
     * callback is subscribed until the engine is destroyed.
     */
    ghost predicate Valid()
      reads this`entities, player, player.body, gameStateManager, inputHandler, EnemySet(), BodySet()
    {
      player.Valid() && gameStateManager.Valid() && gameStateManager.state.powerLevel == 0 &&
      (inputHandler.listeners == [InputCallback] || inputHandler.listeners == []) &&
      EnemiesValid()
    }

    ghost predicate EnemiesValid()
      reads this`entities, EnemySet(), BodySet()
    {
      (forall k :: 0 <= k < |entities| ==>
         entities[k].Valid() && entities[k].body != player.body &&
         entities[k].body.kind in {GoombaEntity, KoopaEntity}) &&
      BodiesDistinct(entities)
    }

    /** A player of 16 by 16 at (100, 320), both callbacks subscribed, no level, an 800 by 480 canvas. */
    constructor ()
      ensures Valid()
      ensures fresh(player) && fresh(player.body) && fresh(inputHandler) && fresh(gameStateManager)
      ensures player.body.position == PlayerStart && player.body.velocity == Vector2D(0.0, 0.0)
      ensures player.body.size == PlayerSize && player.initialPosition == PlayerStart && player.powerLevel == 0
      ensures inputHandler.listeners == [InputCallback] && gameStateManager.listeners == [StateCallback]
      ensures inputHandler.inputState == NoInput && gameStateManager.state == StateManager.InitialState
      ensures entities == [] && blocks == [] && currentLevel == None && camera == Vector2D(0.0, 0.0)
      ensures !isRunning && lastTime == 0.0 && animationFrameId == None
      ensures canvasWidth == 800.0 && canvasHeight == 480.0
    {
      inputHandler := new Input.InputHandler();
      gameStateManager := new StateManager.GameStateManager();
      player := new Player(EntityConfig(PlayerStart, Vector2D(0.0, 0.0), PlayerSize, None, PlayerEntity, None, None));
      entities := [];
      blocks := [];
      currentLevel := None;
      camera := Vector2D(0.0, 0.0);
      isRunning := false;
      lastTime := 0.0;
      animationFrameId := None;
      canvasWidth := 800.0;
      canvasHeight := 480.0;
      new;
      inputHandler.Subscribe(InputCallback);
      gameStateManager.Subscribe(StateCallback);
    }

    /**
     * Player against blocks: every block that overlaps the player's box as it
     * was before the pass moves the player out of it, each block resolved with
     * the velocity left by the previous ones.
     */
    method PlayerVsBlocks()
      requires Valid()
      modifies player.body`position, player.body`velocity, player.body`onGround
      ensures Valid()
      ensures BodyOf(player.body) == PlayerBlocks(old(player.body.GetRect()), old(BodyOf(player.body)), blocks)
    {
      var rect := player.body.GetRect();
      var i := 0;
      while i < |blocks|
        invariant 0 <= i <= |blocks|
        invariant BodyOf(player.body) == PlayerBlocks(rect, old(BodyOf(player.body)), blocks[..i])
      {
        var block := blocks[i];
        if Physics.CheckCollision(rect, block) {
          var resolved := Physics.ResolveCollision(rect, block, player.body.velocity);
          player.body.SetPosition(resolved.position.x, resolved.position.y);
          player.body.SetVelocity(resolved.velocity.x, resolved.velocity.y);
          if resolved.velocity.y == 0.0 && player.body.velocity.y >= 0.0 {
            player.body.onGround := true;
          }
        }
        assert blocks[..i + 1][..i] == blocks[..i];
        i := i + 1;
      }
      assert blocks[..|blocks|] == blocks;
    }

    /**
     * The player against the i-th enemy: when the enemy is active and overlaps
     * the player, the player's collision logic runs and then the enemy's,
     * which ignores the player. The outcome is Clash's; every other enemy is
     * untouched.
     */
    method PlayerVsEnemyAt(i: nat, e: Enemy)
      requires i < |entities| && e == entities[i] && player.Valid() && EnemiesValid()
      modifies player, player.body, e.body`active, e.body`health
      modifies e`movementDirection, e.body`facingRight
      ensures player.Valid() && EnemiesValid()
      ensures forall k :: 0 <= k < |entities| && k != i ==> SnapOf(entities[k]) == old(SnapOf(entities[k]))
      ensures (player.Fighting(), SnapOf(e)) == Clash(old(player.Fighting()), old(SnapOf(e)))
      ensures RestOf(player) == old(RestOf(player))
    {
      Meet(e);
    }

    /** The body of the pass for one enemy, framed to the player and that enemy alone. */
    method Meet(e: Enemy)
      requires player.Valid() && e.Valid() && e.body != player.body && e.body.kind in {GoombaEntity, KoopaEntity}
      modifies player, player.body, e.body`active, e.body`health
      modifies e`movementDirection, e.body`facingRight
      ensures player.Valid() && e.Valid()
      ensures (player.Fighting(), SnapOf(e)) == Clash(old(player.Fighting()), old(SnapOf(e)))
      ensures RestOf(player) == old(RestOf(player))
    {
      ghost var f := player.Fighting();
      ghost var s := SnapOf(e);
      if e.body.active && player.body.CheckCollision(e.body) {
        assert e.body.GetCenter().y == SnapCenterY(s);
        player.HandleCollision(e.body);
        e.HandleCollision(player.body);
        assert Meets(f, s) ==> player.Fighting() == EnemyHit(f, SnapCenterY(s));
      }
    }

    /**
     * Player against enemies: each enemy in turn, against the player as it
     * stands at that moment, as PlayerEnemies states it. Enemies never move
     * or turn here.
     */
    method PlayerVsEntities()
      requires Valid()
      modifies player, player.body, BodySet()`active, BodySet()`health
      modifies EnemySet()`movementDirection, BodySet()`facingRight
      ensures Valid()
      ensures (player.Fighting(), Snaps(entities)) == PlayerEnemies(old(player.Fighting()), old(Snaps(entities)))
      ensures RestOf(player) == old(RestOf(player))
    {
      ghost var f0 := player.Fighting();
      ghost var ss0 := Snaps(entities);
      ghost var done: seq<EnemySnap> := [];
      var i := 0;
      while i < |entities|
        invariant i <= |entities| && PassedUpTo(i, f0, ss0, done)
        invariant RestOf(player) == old(RestOf(player))
      {
        done := PassStep(i, entities[i], f0, ss0, done);
        i := i + 1;
      }
      assert ss0[..|entities|] == ss0;
      assert Snaps(entities) == done;
    }

    /**
     * The PlayerVsEntities loop after i enemies: the player and those enemies
     * are as PlayerEnemies leaves them, the rest as they were.
     */
    ghost predicate PassedUpTo(i: nat, f0: Fighter, ss0: seq<EnemySnap>, done: seq<EnemySnap>)
      reads this`entities, player, player.body, EnemySet(), BodySet()
    {
      i <= |entities| == |ss0| && |done| == i &&
      player.Valid() && EnemiesValid() &&
      (player.Fighting(), done) == PlayerEnemies(f0, ss0[..i]) &&
      (forall k :: 0 <= k < i ==> SnapOf(entities[k]) == done[k]) &&
      (forall k :: i <= k < |entities| ==> SnapOf(entities[k]) == ss0[k])
    }

    /** One turn of the PlayerVsEntities loop: the pass so far grows by the i-th enemy. */
    method PassStep(i: nat, e: Enemy, ghost f0: Fighter, ghost ss0: seq<EnemySnap>, ghost done: seq<EnemySnap>)
      returns (ghost done': seq<EnemySnap>)
      requires i < |entities| && e == entities[i] && PassedUpTo(i, f0, ss0, done)
      modifies player, player.body, e.body`active, e.body`health
      modifies e`movementDirection, e.body`facingRight
      ensures PassedUpTo(i + 1, f0, ss0, done')
      ensures RestOf(player) == old(RestOf(player))
    {
      PlayerEnemiesStep(f0, ss0, i);
      PlayerVsEnemyAt(i, e);
      done' := done + [SnapOf(e)];
    }

    /**
     * The player-versus-enemies pass with only what the other passes rely on:
     * each enemy is kept or, if it was active, destroyed.
     */
    method PlayerVsEntitiesKeeping()
      requires Valid()
      modifies player, player.body, BodySet()`active, BodySet()`health
      modifies EnemySet()`movementDirection, BodySet()`facingRight
      ensures Valid()
      ensures forall k :: 0 <= k < |entities| ==>
                SnapOf(entities[k]) == old(SnapOf(entities[k])) ||
                (old(entities[k].body.active) && SnapOf(entities[k]) == Destroyed(old(SnapOf(entities[k]))))
    {
      ghost var f0 := player.Fighting();
      ghost var ss0 := Snaps(entities);
      PlayerVsEntities();
      PassKeepsOrDestroys(f0, ss0);
    }

    /** One enemy against every block, with its box as it was before the pass. */
    method EnemyVsBlocks(e: Enemy)
      requires e.Valid()
      modifies e`movementDirection, e.body`position, e.body`velocity, e.body`onGround, e.body`facingRight
      ensures e.Valid()
      ensures MoverOf(e) == EnemyBlocks(old(e.body.GetRect()), old(MoverOf(e)), blocks)
    {
      var rect := e.body.GetRect();
      var i := 0;
      while i < |blocks|
        invariant 0 <= i <= |blocks|
        invariant e.Valid()
        invariant MoverOf(e) == EnemyBlocks(rect, old(MoverOf(e)), blocks[..i])
      {
        var block := blocks[i];
        if Physics.CheckCollision(rect, block) {
          var resolved := Physics.ResolveCollision(rect, block, e.body.velocity);
          e.body.SetPosition(resolved.position.x, resolved.position.y);
          e.body.SetVelocity(resolved.velocity.x, resolved.velocity.y);
          if resolved.velocity.y == 0.0 && e.body.velocity.y >= 0.0 {
            e.body.onGround := true;
          }
          if resolved.velocity.x == 0.0 {
            e.HandleWallCollision();
          }
        }
        assert blocks[..i + 1][..i] == blocks[..i];
        i := i + 1;
      }
      assert blocks[..|blocks|] == blocks;
    }

    /** The i-th enemy against the blocks, if it is active; every other enemy is untouched. */
    method EnemyVsBlocksAt(i: nat, e: Enemy)
      requires i < |entities| && e == entities[i] && EnemiesValid()
      modifies e`movementDirection, e.body`position, e.body`velocity
      modifies e.body`onGround, e.body`facingRight
      ensures EnemiesValid()
      ensures forall k :: 0 <= k < |entities| && k != i ==> SnapOf(entities[k]) == old(SnapOf(entities[k]))
      ensures SnapOf(e) == AfterBlocks(old(SnapOf(e)), blocks)
    {
      if e.body.active {
        EnemyVsBlocks(e);
      }
    }

    /** Enemies against blocks: every enemy active at the start of the pass runs the block fold; the others stay put. */
    method EntitiesVsBlocks()
      requires Valid()
      modifies EnemySet(), BodySet()
      ensures Valid()
      ensures forall k :: 0 <= k < |entities| ==> SnapOf(entities[k]) == AfterBlocks(old(SnapOf(entities[k])), blocks)
    {
      ghost var before := Snaps(entities);
      var i := 0;
      while i < |entities|
        invariant 0 <= i <= |entities|
        invariant EnemiesValid()
        invariant forall k :: 0 <= k < i ==> SnapOf(entities[k]) == AfterBlocks(before[k], blocks)
        invariant forall k :: i <= k < |entities| ==> SnapOf(entities[k]) == before[k]
      {
        EnemyVsBlocksAt(i, entities[i]);
        i := i + 1;
      }
    }

    /** The three collision passes in order. */
    method HandleCollisions()
      requires Valid()
      modifies player, player.body, EnemySet(), BodySet()
      ensures Valid()
      ensures forall k :: 0 <= k < |entities| ==>
                entities[k].isShell == old(entities[k].isShell) && entities[k].body.size == old(entities[k].body.size)
      ensures forall k :: 0 <= k < |entities| && !old(entities[k].body.active) ==>
                SnapOf(entities[k]) == old(SnapOf(entities[k]))
    {
      PlayerVsBlocks();
      PlayerVsEntitiesKeeping();
      EntitiesVsBlocks();
    }

    /** Updates the i-th enemy if it is active; every other enemy is untouched. */
    method UpdateEnemyAt(i: nat, e: Enemy, deltaTime: real)
      requires i < |entities| && e == entities[i] && EnemiesValid()
      modifies e`movementDirection, e.body`velocity, e.body`facingRight
      modifies e.body`position, e.body`sprite, e.body`onGround
      ensures EnemiesValid()
      ensures forall k :: 0 <= k < |entities| && k != i ==> SnapOf(entities[k]) == old(SnapOf(entities[k]))
      ensures !old(e.body.active) ==> SnapOf(e) == old(SnapOf(e))
      ensures old(e.body.active) ==> !e.body.onGround
    {
      if e.body.active {
        e.Update(deltaTime);
      }
    }

    /** Only active enemies are updated; every updated enemy ends the frame airborne. */
    method UpdateEntities(deltaTime: real)
      requires Valid()
      modifies EnemySet()`movementDirection, BodySet()`velocity, BodySet()`facingRight, BodySet()`position
      modifies BodySet()`sprite, BodySet()`onGround
      ensures Valid()
      ensures forall k :: 0 <= k < |entities| && !old(entities[k].body.active) ==>
                SnapOf(entities[k]) == old(SnapOf(entities[k]))
      ensures forall k :: 0 <= k < |entities| && old(entities[k].body.active) ==> !entities[k].body.onGround
    {
      var i := 0;
      while i < |entities|
        invariant 0 <= i <= |entities|
        invariant EnemiesValid()
        invariant forall k :: 0 <= k < i && !old(entities[k].body.active) ==>
                    SnapOf(entities[k]) == old(SnapOf(entities[k]))
        invariant forall k :: 0 <= k < i && old(entities[k].body.active) ==> !entities[k].body.onGround
        invariant forall k :: i <= k < |entities| ==> SnapOf(entities[k]) == old(SnapOf(entities[k]))
      {
        UpdateEnemyAt(i, entities[i], deltaTime);
        i := i + 1;
      }
    }

    method UpdateCamera()
      modifies this`camera
      ensures currentLevel.None? ==> camera == old(camera)
      ensures currentLevel.Some? ==>
                var c := player.body.GetCenter();
                camera == Vector2D(CameraAxis(c.x, currentLevel.value.width, canvasWidth),
                                   CameraAxis(c.y, currentLevel.value.height, canvasHeight))
    {
      if currentLevel.None? {
        return;
      }
      var c := player.body.GetCenter();
      camera := Vector2D(CameraAxis(c.x, currentLevel.value.width, canvasWidth),
                         CameraAxis(c.y, currentLevel.value.height, canvasHeight));
    }

    /**
     * Reaching the goal completes the level; falling more than 100 below the
     * level powers the manager down (a lost life, since its power level stays
     * 0) and sends the player back to its spawn point. Both can happen in the
     * same frame.
     */
    method CheckGameConditions()
      requires Valid()
      modifies gameStateManager, player, player.body
      ensures Valid()
      ensures currentLevel.None? ==> unchanged(gameStateManager, player, player.body)
      ensures currentLevel.Some? ==>
                var near := NearGoal(old(player.body.GetCenter()), currentLevel.value.goalPosition);
                var fell := old(player.body.position.y) > currentLevel.value.height + FallMargin;
                var s := if near then StateManager.LevelCompleted(old(gameStateManager.state))
                         else old(gameStateManager.state);
                gameStateManager.state == (if fell then StateManager.PoweredDown(s) else s) &&
                (fell ==> gameStateManager.state.lives == Max0(s.lives - 1) &&
                          player.body.position == old(player.initialPosition) &&
                          player.body.velocity == Vector2D(0.0, 0.0) && player.powerLevel == 0 &&
                          player.body.active && player.body.health == 1) &&
                (!fell ==> unchanged(player, player.body))
      ensures currentLevel.Some? ==>
                var near := NearGoal(old(player.body.GetCenter()), currentLevel.value.goalPosition);
                var fell := old(player.body.position.y) > currentLevel.value.height + FallMargin;
                var old0 := old(gameStateManager.state);
                var sent := if near then old(gameStateManager.broadcasts) + [StateManager.ScoreAdded(old0, old0.time * 50), StateManager.LevelCompleted(old0)]
                            else old(gameStateManager.broadcasts);
                var timer := !near && old(gameStateManager.timerRunning);
                var final := gameStateManager.state;
                gameStateManager.broadcasts ==
                  (if fell then sent + (if final.lives == 0 then [final, final] else [final]) else sent) &&
                gameStateManager.timerRunning == (if fell then timer && final.lives > 0 else timer)
    {
      if currentLevel.None? {
        return;
      }
      var level := currentLevel.value;
      var c := player.body.GetCenter();
      if NearGoal(c, level.goalPosition) {
        gameStateManager.CompleteLevel();
      }
      if player.body.position.y > level.height + FallMargin {
        gameStateManager.PowerDown();
        player.Respawn(None);
      }
    }

    /** Drops the enemies whose body is inactive. */
    method CleanupEntities()
      requires Valid()
      modifies this`entities
      ensures Valid()
      ensures entities == ActiveOnly(old(entities))
    {
      ActiveOnlyDistinct(entities);
      entities := ActiveOnly(entities);
    }

    /**
     * One frame of game logic, skipped when no level is loaded. Afterwards
     * every listed enemy is active and was listed before, and the camera lies
     * inside the level.
     */
    method Update(deltaTime: real)
      requires Valid()
      modifies this`entities, this`camera, player, player.body, gameStateManager, EnemySet(), BodySet()
      ensures Valid()
      ensures currentLevel == old(currentLevel) && blocks == old(blocks)
      ensures currentLevel.None? ==>
                unchanged(this, player, player.body, gameStateManager) &&
                forall k :: 0 <= k < |entities| ==> SnapOf(entities[k]) == old(SnapOf(entities[k]))
      ensures currentLevel.Some? ==> forall k :: 0 <= k < |entities| ==> entities[k] in old(entities) && entities[k].body.active
      ensures currentLevel.Some? ==> camera.x >= 0.0 && camera.y >= 0.0
    {
      if currentLevel.None? {
        return;
      }
      MoveAll(deltaTime);
      Settle();
    }

    /** The moving half of a frame: the player, the live enemies, then the collision passes. */
    method MoveAll(deltaTime: real)
      requires Valid()
      modifies player, player.body, EnemySet(), BodySet()
      ensures Valid()
    {
      player.Update(deltaTime);
      UpdateEntities(deltaTime);
      HandleCollisions();
    }

    /** The settling half of a frame: camera, goal and fall checks, and dropping dead enemies. */
    method Settle()
      requires Valid()
      modifies this`entities, this`camera, player, player.body, gameStateManager
      ensures Valid()
      ensures currentLevel == old(currentLevel) && blocks == old(blocks)
      ensures forall k :: 0 <= k < |entities| ==> entities[k] in old(entities) && entities[k].body.active
      ensures currentLevel.Some? ==> camera.x >= 0.0 && camera.y >= 0.0
    {
      UpdateCamera();
      CheckGameConditions();
      CleanupEntities();
    }

    /** A square of side 32 at each block position. */
    method CreateBlocks()
      modifies this`blocks
      ensures currentLevel.None? ==> blocks == old(blocks)
      ensures currentLevel.Some? ==> blocks == BlockRects(currentLevel.value.blocks)
    {
      if currentLevel.None? {
        return;
      }
      blocks := BlockRects(currentLevel.value.blocks);
    }

    /** One new Goomba or Koopa per enemy record, appended in order. */
    method CreateEnemies()
      requires Valid()
      modifies this`entities
      ensures Valid()
      ensures currentLevel.None? ==> entities == old(entities)
      ensures currentLevel.Some? ==>
                var ds := currentLevel.value.enemies;
                |entities| == |old(entities)| + |ds| && entities[..|old(entities)|] == old(entities) &&
                forall j :: |old(entities)| <= j < |entities| ==>
                  fresh(entities[j]) && fresh(entities[j].body) && SpawnedFrom(entities[j], ds[j - |old(entities)|])
    {
      if currentLevel.None? {
        return;
      }
      var ds := currentLevel.value.enemies;
      var n := |entities|;
      var i := 0;
      while i < |ds|
        invariant 0 <= i <= |ds|
        invariant |entities| == n + i && entities[..n] == old(entities)
        invariant Valid()
        invariant forall j :: n <= j < n + i ==>
                    fresh(entities[j]) && fresh(entities[j].body) && SpawnedFrom(entities[j], ds[j - n])
      {
        AppendEnemy(ds[i]);
        i := i + 1;
      }
    }

    /** One new enemy of the record's kind at the record's position, appended to the list. */
    method AppendEnemy(d: EnemyData)
      requires Valid()
      modifies this`entities
      ensures Valid()
      ensures |entities| == |old(entities)| + 1 && entities[..|old(entities)|] == old(entities)
      ensures fresh(entities[|old(entities)|]) && fresh(entities[|old(entities)|].body)
      ensures SpawnedFrom(entities[|old(entities)|], d)
    {
      var enemy: Enemy;
      if d.kind == GoombaEnemy {
        enemy := new Enemy.Goomba(d.position);
      } else {
        enemy := new Enemy.Koopa(d.position);
      }
      entities := entities + [enemy];
    }

    /**
     * Installs a level. An invalid level is still recorded as the current one
     * but nothing else changes; a valid one replaces blocks and enemies,
     * respawns the player at its spawn point and resets the camera.
     */
    method SetupLevel(level: LevelData)
      requires Valid()
      modifies this`currentLevel, this`entities, this`blocks, this`camera, player, player.body
      ensures Valid()
      ensures currentLevel == Some(level)
      ensures !LevelLoader.ValidateLevel(level) ==>
                entities == old(entities) && blocks == old(blocks) && camera == old(camera) &&
                unchanged(player, player.body)
      ensures LevelLoader.ValidateLevel(level) ==>
                blocks == BlockRects(level.blocks) && camera == Vector2D(0.0, 0.0) &&
                |entities| == |level.enemies| &&
                (forall k :: 0 <= k < |entities| ==>
                   fresh(entities[k]) && fresh(entities[k].body) && SpawnedFrom(entities[k], level.enemies[k])) &&
                player.body.position == level.playerSpawn && player.initialPosition == level.playerSpawn &&
                player.body.velocity == Vector2D(0.0, 0.0) && player.powerLevel == 0 &&
                player.body.active && player.body.health == 1 && player.body.size == old(player.body.size)
    {
      currentLevel := Some(level);
      if !LevelLoader.ValidateLevel(level) {
        return;
      }
      InstallLevel(level);
    }

    /** The valid-level half of setupLevel, once the level is recorded. */
    method InstallLevel(level: LevelData)
      requires Valid() && currentLevel == Some(level)
      modifies this`entities, this`blocks, this`camera, player, player.body
      ensures Valid()
      ensures blocks == BlockRects(level.blocks) && camera == Vector2D(0.0, 0.0)
      ensures |entities| == |level.enemies|
      ensures forall k :: 0 <= k < |entities| ==>
                fresh(entities[k]) && fresh(entities[k].body) && SpawnedFrom(entities[k], level.enemies[k])
      ensures player.body.position == level.playerSpawn && player.initialPosition == level.playerSpawn
      ensures player.body.velocity == Vector2D(0.0, 0.0) && player.powerLevel == 0
      ensures player.body.active && player.body.health == 1 && player.body.size == old(player.body.size)
    {
      entities := [];
      blocks := [];
      player.Respawn(Some(level.playerSpawn));
      PopulateLevel(level);
      camera := Vector2D(0.0, 0.0);
    }

    /** Blocks and enemies of the recorded level, into the emptied lists. */
    method PopulateLevel(level: LevelData)
      requires Valid() && currentLevel == Some(level) && entities == []
      modifies this`entities, this`blocks
      ensures Valid()
      ensures blocks == BlockRects(level.blocks)
      ensures |entities| == |level.enemies|
      ensures forall k :: 0 <= k < |entities| ==>
                fresh(entities[k]) && fresh(entities[k].body) && SpawnedFrom(entities[k], level.enemies[k])
    {
      CreateBlocks();
      CreateEnemies();
      forall k | 0 <= k < |entities|
        ensures fresh(entities[k]) && fresh(entities[k].body) && SpawnedFrom(entities[k], level.enemies[k])
      {
        assert level.enemies[k] == level.enemies[k - 0];
      }
    }

    /** loadLevel: the level comes from the loader, which always yields a valid one. */
    method LoadLevel(levelId: int)
      requires Valid()
      modifies this`currentLevel, this`entities, this`blocks, this`camera, player, player.body
      ensures Valid()
      ensures currentLevel == Some(LevelLoader.LoadLevel(levelId))
      ensures blocks == BlockRects(LevelLoader.LoadLevel(levelId).blocks) && camera == Vector2D(0.0, 0.0)
      ensures |entities| == |LevelLoader.LoadLevel(levelId).enemies|
      ensures forall k :: 0 <= k < |entities| ==>
                fresh(entities[k]) && fresh(entities[k].body) && SpawnedFrom(entities[k], LevelLoader.LoadLevel(levelId).enemies[k])
      ensures player.body.position == PlayerStart && player.initialPosition == PlayerStart
    {
      LevelLoader.HardcodedLevelsValid(levelId);
      SetupLevel(LevelLoader.LoadLevel(levelId));
    }

    /**
     * One iteration of the game loop: nothing once stopped; otherwise the
     * clock advances, the game logic runs only while the game is being played,
     * and the next frame is requested.
     */
    method Frame(now: real, frameId: int)
      requires Valid()
      modifies this`lastTime, this`animationFrameId, this`entities, this`camera, player, player.body, gameStateManager, EnemySet(), BodySet()
      ensures Valid()
      ensures !old(isRunning) ==>
                unchanged(this, player, player.body, gameStateManager) &&
                forall k :: 0 <= k < |entities| ==> SnapOf(entities[k]) == old(SnapOf(entities[k]))
      ensures old(isRunning) ==> lastTime == now && animationFrameId == Some(frameId)
      ensures old(isRunning) && !old(gameStateManager.IsGameActive()) ==>
                entities == old(entities) && camera == old(camera) &&
                unchanged(player, player.body, gameStateManager) &&
                forall k :: 0 <= k < |entities| ==> SnapOf(entities[k]) == old(SnapOf(entities[k]))
    {
      if !isRunning {
        return;
      }
      var deltaTime := now - lastTime;
      lastTime := now;
      if gameStateManager.IsGameActive() {
        Update(deltaTime);
      }
      animationFrameId := Some(frameId);
    }

    /** Starts the loop unless it is running: the clock is read at start and again by the first frame. */
    method Start(startTime: real, frameTime: real, frameId: int)
      requires Valid()
      modifies this`isRunning, this`lastTime, this`animationFrameId, this`entities, this`camera, player, player.body, gameStateManager, EnemySet(), BodySet()
      ensures Valid()
      ensures old(isRunning) ==>
                unchanged(this, player, player.body, gameStateManager) &&
                forall k :: 0 <= k < |entities| ==> SnapOf(entities[k]) == old(SnapOf(entities[k]))
      ensures !old(isRunning) ==> isRunning && lastTime == frameTime && animationFrameId == Some(frameId)
    {
      if isRunning {
        return;
      }
      isRunning := true;
      lastTime := startTime;
      Frame(frameTime, frameId);
    }

    /** Stops the loop; a pending frame request is cancelled unless its id is 0, which reads as no request. */
    method Stop()
      modifies this`isRunning, this`animationFrameId
      ensures !isRunning
      ensures animationFrameId == (if old(animationFrameId) == Some(0) then Some(0) else None)
    {
      isRunning := false;
      if animationFrameId.Some? && animationFrameId.value != 0 {
        animationFrameId := None;
      }
    }

    /** Loads level 1 and starts the loop. */
    method Init(startTime: real, frameTime: real, frameId: int)
      requires Valid()
      modifies this, player, player.body, gameStateManager, EnemySet(), BodySet()
      ensures Valid()
      ensures currentLevel == Some(LevelLoader.LoadLevel(1))
      ensures isRunning
    {
      LoadLevel(1);
      Start(startTime, frameTime, frameId);
    }

    /**
     * The input callback: a record with pause held toggles the pause and
     * nothing else; otherwise, only while playing, the player takes the input.
     */
    method HandleInput(input: InputState)
      requires Valid()
      modifies gameStateManager, player, player.body
      ensures Valid()
      ensures input.pause ==>
                gameStateManager.state == StateManager.Toggled(old(gameStateManager.state)) &&
                unchanged(player, player.body)
      ensures !input.pause && !old(gameStateManager.IsGameActive()) ==>
                unchanged(gameStateManager, player, player.body)
      ensures !input.pause && old(gameStateManager.IsGameActive()) ==>
                unchanged(gameStateManager) &&
                (old(player.body.active) ==> player.Piloting() == TakeInput(old(player.Piloting()), input)) &&
                (!old(player.body.active) ==> unchanged(player, player.body))
    {
      if input.pause {
        gameStateManager.TogglePause();
        return;
      }
      if gameStateManager.IsGameActive() {
        player.HandleInput(input);
      }
    }

    /**
     * A key press: the input handler updates its record, and when that
     * notifies and the engine is still subscribed the engine handles the new
     * record. While the pause key is held, any other bound key that is
     * pressed toggles the pause again.
     */
    method KeyDown(code: string)
      requires Valid()
      modifies inputHandler`inputState, inputHandler`notifications, gameStateManager, player, player.body
      ensures Valid()
      ensures inputHandler.inputState == Input.Press(old(inputHandler.inputState), inputHandler.keyMap, code)
      ensures !(Input.PressNotifies(old(inputHandler.inputState), inputHandler.keyMap, code) &&
                inputHandler.listeners == [InputCallback]) ==>
                unchanged(gameStateManager, player, player.body)
      ensures Input.PressNotifies(old(inputHandler.inputState), inputHandler.keyMap, code) &&
              inputHandler.listeners == [InputCallback] && inputHandler.inputState.pause ==>
                gameStateManager.state == StateManager.Toggled(old(gameStateManager.state)) &&
                unchanged(player, player.body)
      ensures Input.PressNotifies(old(inputHandler.inputState), inputHandler.keyMap, code) &&
              inputHandler.listeners == [InputCallback] && !inputHandler.inputState.pause ==>
                (!old(gameStateManager.IsGameActive()) ==> unchanged(gameStateManager, player, player.body)) &&
                (old(gameStateManager.IsGameActive()) ==>
                   unchanged(gameStateManager) &&
                   (old(player.body.active) ==> player.Piloting() == TakeInput(old(player.Piloting()), inputHandler.inputState)) &&
                   (!old(player.body.active) ==> unchanged(player, player.body)))
    {
      var notifies := Input.PressNotifies(inputHandler.inputState, inputHandler.keyMap, code);
      inputHandler.HandleKeyDown(code);
      if notifies && inputHandler.listeners == [InputCallback] {
        HandleInput(inputHandler.inputState);
      }
    }

    /** A key release, dispatched like a press. */
    method KeyUp(code: string)
      requires Valid()
      modifies inputHandler`inputState, inputHandler`notifications, gameStateManager, player, player.body
      ensures Valid()
      ensures inputHandler.inputState == Input.Release(old(inputHandler.inputState), inputHandler.keyMap, code)
      ensures !(Input.ReleaseNotifies(old(inputHandler.inputState), inputHandler.keyMap, code) &&
                inputHandler.listeners == [InputCallback]) ==>
                unchanged(gameStateManager, player, player.body)
      ensures Input.ReleaseNotifies(old(inputHandler.inputState), inputHandler.keyMap, code) &&
              inputHandler.listeners == [InputCallback] && inputHandler.inputState.pause ==>
                gameStateManager.state == StateManager.Toggled(old(gameStateManager.state)) &&
                unchanged(player, player.body)
      ensures Input.ReleaseNotifies(old(inputHandler.inputState), inputHandler.keyMap, code) &&
              inputHandler.listeners == [InputCallback] && !inputHandler.inputState.pause ==>
                (!old(gameStateManager.IsGameActive()) ==> unchanged(gameStateManager, player, player.body)) &&
                (old(gameStateManager.IsGameActive()) ==>
                   unchanged(gameStateManager) &&
                   (old(player.body.active) ==> player.Piloting() == TakeInput(old(player.Piloting()), inputHandler.inputState)) &&
                   (!old(player.body.active) ==> unchanged(player, player.body)))
    {
      var notifies := Input.ReleaseNotifies(inputHandler.inputState, inputHandler.keyMap, code);
      inputHandler.HandleKeyUp(code);
      if notifies && inputHandler.listeners == [InputCallback] {
        HandleInput(inputHandler.inputState);
      }
    }

    method Resize(width: real, height: real)
      modifies this`canvasWidth, this`canvasHeight
      ensures canvasWidth == width && canvasHeight == height
    {
      canvasWidth := width;
      canvasHeight := height;
    }

    /** Stops the loop and unsubscribes everyone from both the input handler and the manager. */
    method Destroy()
      requires Valid()
      modifies this`isRunning, this`animationFrameId, inputHandler`listeners, gameStateManager
      ensures Valid()
      ensures !isRunning && inputHandler.listeners == []
      ensures gameStateManager.listeners == [] && !gameStateManager.timerRunning
      ensures gameStateManager.state == old(gameStateManager.state)
    {
      Stop();
      inputHandler.Destroy();
      gameStateManager.Destroy();
    }
  }

  function Max0(n: int): int
  {
    if n > 0 then n else 0
  }

  /** Once stopped, a frame callback that still arrives changes nothing. */
  method StopThenFrame(g: GameEngine, now: real, frameId: int)
    requires g.Valid()
    modifies g, g.player, g.player.body, g.gameStateManager, g.EnemySet(), g.BodySet()
    ensures g.Valid() && !g.isRunning
    ensures g.entities == old(g.entities) && g.lastTime == old(g.lastTime) && g.camera == old(g.camera)
    ensures unchanged(g.player, g.player.body, g.gameStateManager)
    ensures forall k :: 0 <= k < |g.entities| ==> SnapOf(g.entities[k]) == old(SnapOf(g.entities[k]))
  {
    g.Stop();
    g.Frame(now, frameId);
  }
}
