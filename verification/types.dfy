/**
 * The shared game records: vectors, rectangles, sprites, entity configuration,
 * the game-state record, level descriptions and the input-action record.
 * Every number of the game is a `real` here except the counters (score, lives,
 * coins, time, level, power level, health, animation frames), which are `int`.
 */
module GameTypes {

  datatype Option<+T> = None | Some(value: T)

  function Min(a: real, b: real): real { if a <= b then a else b }
  function Max(a: real, b: real): real { if a >= b then a else b }
  function Abs(a: real): real { if a < 0.0 then -a else a }

  lemma ProductPositive(x: real, y: real)
    requires x > 0.0 && y > 0.0
    ensures x * y > 0.0
  {
  }

  lemma ProductNonNegative(x: real, y: real)
    requires x >= 0.0 && y >= 0.0
    ensures x * y >= 0.0
  {
  }

  /** Squares compare as absolute values do: below a positive bound ... */
  lemma SquareBelow(d: real, bound: real)
    requires bound > 0.0
    ensures Abs(d) < bound ==> d * d < bound * bound
  {
    if Abs(d) < bound {
      ProductPositive(bound - d, bound + d);
      assert (bound - d) * (bound + d) == bound * bound - d * d;
    }
  }

  /** ... and at or above it. */
  lemma SquareAbove(d: real, bound: real)
    requires bound > 0.0
    ensures Abs(d) >= bound ==> d * d >= bound * bound
  {
    if d >= bound {
      ProductNonNegative(d - bound, d + bound);
      assert (d - bound) * (d + bound) == d * d - bound * bound;
    } else if d <= -bound {
      ProductNonNegative(-d - bound, -d + bound);
      assert (-d - bound) * (-d + bound) == d * d - bound * bound;
    }
  }

  datatype Vector2D = Vector2D(x: real, y: real)

  datatype Rectangle = Rectangle(x: real, y: real, width: real, height: real)

  /** An animated sprite; the image handle itself is presentation and is dropped. */
  datatype Sprite = Sprite(
    frameWidth: real,
    frameHeight: real,
    currentFrame: int,
    totalFrames: int,
    animationSpeed: real,
    animationTimer: real)

  datatype EntityType =
    | PlayerEntity
    | GoombaEntity
    | KoopaEntity
    | CoinEntity
    | PowerupEntity
    | BlockEntity
    | PipeEntity

  /** Constructor arguments of an entity; `health` and `facingRight` are optional. */
  datatype EntityConfig = EntityConfig(
    position: Vector2D,
    velocity: Vector2D,
    size: Vector2D,
    sprite: Option<Sprite>,
    kind: EntityType,
    health: Option<int>,
    facingRight: Option<bool>)

  datatype GameStatus = Playing | Paused | GameOver | Complete

  /** powerLevel: 0 = small, 1 = super, 2 = fire. */
  datatype GameState = GameState(
    score: int,
    lives: int,
    level: int,
    powerLevel: int,
    gameStatus: GameStatus,
    time: int,
    coins: int)

  datatype BlockType = Ground | Brick | Question | Pipe | Platform

  datatype BlockData = BlockData(
    position: Vector2D,
    kind: BlockType,
    breakable: Option<bool>,
    powerup: Option<string>)

  datatype EnemyType = GoombaEnemy | KoopaEnemy

  datatype EnemyData = EnemyData(position: Vector2D, kind: EnemyType, movementRange: Option<real>)

  datatype CollectibleType = CoinItem | Mushroom | FireFlower | OneUp

  datatype CollectibleData = CollectibleData(position: Vector2D, kind: CollectibleType, points: int)

  datatype LevelData = LevelData(
    width: real,
    height: real,
    backgroundImage: Option<string>,
    blocks: seq<BlockData>,
    enemies: seq<EnemyData>,
    collectibles: seq<CollectibleData>,
    playerSpawn: Vector2D,
    goalPosition: Vector2D)

  datatype InputState = InputState(
    left: bool,
    right: bool,
    up: bool,
    down: bool,
    jump: bool,
    run: bool,
    pause: bool)

  const NoInput := InputState(false, false, false, false, false, false, false)
}
