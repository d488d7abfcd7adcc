/**
 * The level loader: two hardcoded level layouts assembled from generated rows of
 * ground and platform blocks, the lookup by level id with its fallback to level
 * 1, level metadata, and the validation of a level's size and spawn point.
 */
module LevelLoader {
  import opened GameTypes
  import Physics

  const BlockSize: real := 32.0

  /** The number of 32-pixel steps from 0 that stay strictly below `width`: ceil(width / 32). */
  function GroundCount(width: real): (n: nat)
    ensures width <= 0.0 ==> n == 0
    ensures width > 0.0 ==> BlockSize * (n - 1) as real < width <= BlockSize * n as real
  {
    if width <= 0.0 then 0
    else
      var q := (width / BlockSize).Floor;
      if q as real * BlockSize == width then q else q + 1
  }

  function GroundBlock(x: real, y: real): BlockData
  {
    BlockData(Vector2D(x, y), Ground, None, None)
  }

  /**
   * The row createGroundRow builds: ground blocks at startX, startX + 32, ...,
   * every one strictly left of startX + width, all at height y.
   */
  function GroundRow(startX: real, y: real, width: real): (r: seq<BlockData>)
    ensures |r| == GroundCount(width)
    ensures forall i :: 0 <= i < |r| ==>
              r[i] == GroundBlock(startX + BlockSize * i as real, y) && r[i].position.x < startX + width
    ensures startX + BlockSize * |r| as real >= startX + width
  {
    seq(GroundCount(width), i => GroundBlock(startX + BlockSize * i as real, y))
  }

  /** The loop of createGroundRow, stepping x by 32 while it is left of startX + width. */
  method CreateGroundRow(startX: real, y: real, width: real) returns (blocks: seq<BlockData>)
    ensures blocks == GroundRow(startX, y, width)
  {
    blocks := [];
    var x := startX;
    ghost var i: nat := 0;
    ghost var row := GroundRow(startX, y, width);
    while x < startX + width
      invariant i <= |row|
      invariant x == startX + BlockSize * i as real
      invariant blocks == row[..i]
      decreases |row| - i
    {
      blocks := blocks + [GroundBlock(x, y)];
      x := x + BlockSize;
      i := i + 1;
    }
  }

  function PlatformBlock(x: real, y: real): BlockData
  {
    BlockData(Vector2D(x, y), Platform, None, None)
  }

  /** The row createPlatformRow builds: `count` platforms (none for count <= 0), the i-th at startX + 32 i. */
  function PlatformRow(startX: real, y: real, count: int): (r: seq<BlockData>)
    ensures |r| == if count > 0 then count else 0
    ensures forall i :: 0 <= i < |r| ==> r[i] == PlatformBlock(startX + BlockSize * i as real, y)
  {
    seq(if count > 0 then count else 0, i => PlatformBlock(startX + BlockSize * i as real, y))
  }

  method CreatePlatformRow(startX: real, y: real, count: int) returns (blocks: seq<BlockData>)
    ensures blocks == PlatformRow(startX, y, count)
  {
    blocks := [];
    var i := 0;
    ghost var row := PlatformRow(startX, y, count);
    while i < count
      invariant 0 <= i <= |row|
      invariant blocks == row[..i]
    {
      blocks := blocks + [PlatformBlock(startX + i as real * BlockSize, y)];
      i := i + 1;
    }
  }

  function Block(x: real, y: real, kind: BlockType): BlockData
  {
    BlockData(Vector2D(x, y), kind, None, None)
  }

  function Enemy(x: real, y: real, kind: EnemyType): EnemyData
  {
    EnemyData(Vector2D(x, y), kind, None)
  }

  function Item(x: real, y: real, kind: CollectibleType, points: int): CollectibleData
  {
    CollectibleData(Vector2D(x, y), kind, points)
  }

  function Level1(): LevelData
  {
    LevelData(
      3200.0, 480.0, None,
      GroundRow(0.0, 360.0, 200.0) + GroundRow(320.0, 360.0, 100.0) + GroundRow(520.0, 360.0, 300.0) +
      [ Block(240.0, 280.0, Platform), Block(256.0, 280.0, Platform), Block(272.0, 280.0, Platform),
        BlockData(Vector2D(256.0, 200.0), Question, None, Some("mushroom")),
        BlockData(Vector2D(400.0, 200.0), Question, None, Some("coin")),
        BlockData(Vector2D(600.0, 200.0), Question, None, Some("coin")),
        BlockData(Vector2D(240.0, 200.0), Brick, Some(true), None),
        BlockData(Vector2D(272.0, 200.0), Brick, Some(true), None),
        BlockData(Vector2D(416.0, 200.0), Brick, Some(true), None),
        Block(800.0, 296.0, Pipe), Block(800.0, 328.0, Pipe),
        Block(816.0, 296.0, Pipe), Block(816.0, 328.0, Pipe) ] +
      GroundRow(900.0, 360.0, 400.0) +
      PlatformRow(1200.0, 280.0, 3) + PlatformRow(1400.0, 240.0, 2) +
      GroundRow(2800.0, 360.0, 400.0),
      [ Enemy(350.0, 328.0, GoombaEnemy), Enemy(450.0, 328.0, GoombaEnemy), Enemy(650.0, 328.0, KoopaEnemy),
        Enemy(950.0, 328.0, GoombaEnemy), Enemy(1100.0, 328.0, KoopaEnemy), Enemy(1300.0, 248.0, GoombaEnemy),
        Enemy(2900.0, 328.0, KoopaEnemy) ],
      [ Item(180.0, 320.0, CoinItem, 200), Item(280.0, 240.0, CoinItem, 200), Item(480.0, 320.0, CoinItem, 200),
        Item(680.0, 320.0, CoinItem, 200), Item(1000.0, 320.0, CoinItem, 200), Item(1220.0, 240.0, CoinItem, 200),
        Item(1420.0, 200.0, CoinItem, 200), Item(2850.0, 320.0, CoinItem, 200), Item(2950.0, 280.0, OneUp, 1000) ],
      Vector2D(100.0, 320.0),
      Vector2D(3000.0, 320.0))
  }

  function Level2(): LevelData
  {
    LevelData(
      4000.0, 480.0, None,
      GroundRow(0.0, 360.0, 150.0) + GroundRow(300.0, 360.0, 100.0) + GroundRow(500.0, 360.0, 200.0) +
      PlatformRow(800.0, 320.0, 4) + PlatformRow(1000.0, 280.0, 3) + PlatformRow(1200.0, 240.0, 2) +
      GroundRow(1500.0, 360.0, 600.0) + GroundRow(3500.0, 360.0, 500.0),
      [ Enemy(350.0, 328.0, KoopaEnemy), Enemy(550.0, 328.0, GoombaEnemy), Enemy(750.0, 328.0, KoopaEnemy),
        Enemy(820.0, 288.0, GoombaEnemy), Enemy(1020.0, 248.0, KoopaEnemy), Enemy(1600.0, 328.0, GoombaEnemy),
        Enemy(1800.0, 328.0, GoombaEnemy), Enemy(2000.0, 328.0, KoopaEnemy), Enemy(3600.0, 328.0, KoopaEnemy),
        Enemy(3750.0, 328.0, GoombaEnemy) ],
      [ Item(200.0, 320.0, CoinItem, 200), Item(400.0, 280.0, CoinItem, 200), Item(600.0, 320.0, CoinItem, 200),
        Item(840.0, 280.0, CoinItem, 200), Item(1040.0, 240.0, CoinItem, 200), Item(1240.0, 200.0, CoinItem, 200),
        Item(1700.0, 320.0, Mushroom, 1000), Item(1900.0, 320.0, CoinItem, 200), Item(3700.0, 320.0, OneUp, 1000) ],
      Vector2D(100.0, 320.0),
      Vector2D(3800.0, 320.0))
  }

  /** Level 2 for id 2, level 1 for every other id. */
  function GetHardcodedLevel(levelId: int): (r: LevelData)
    ensures r == if levelId == 2 then Level2() else Level1()
  {
    match levelId
    case 1 => Level1()
    case 2 => Level2()
    case _ => Level1()
  }

  /** loadLevel, with the asynchronous wrapper removed. */
  function LoadLevel(levelId: int): LevelData
  {
    GetHardcodedLevel(levelId)
  }

  /**
   * A level is valid when its dimensions are positive and its spawn point lies
   * in the closed box [0,width] x [0,height]; blocks, enemies, collectibles and
   * the goal are never inspected.
   */
  function ValidateLevel(level: LevelData): (ok: bool)
    ensures level.width <= 0.0 || level.height <= 0.0 ==> !ok
    ensures ok <==> level.width > 0.0 && level.height > 0.0 &&
                    Physics.IsInBounds(level.playerSpawn, Vector2D(0.0, 0.0), Rectangle(0.0, 0.0, level.width, level.height))
  {
    if level.width <= 0.0 || level.height <= 0.0 then false
    else if level.playerSpawn.x < 0.0 || level.playerSpawn.x > level.width ||
            level.playerSpawn.y < 0.0 || level.playerSpawn.y > level.height then false
    else true
  }

  /** The verdict does not depend on the level's contents or goal. */
  lemma ValidateIgnoresContents(level: LevelData, blocks: seq<BlockData>, enemies: seq<EnemyData>,
                                items: seq<CollectibleData>, goal: Vector2D)
    ensures ValidateLevel(level) ==
            ValidateLevel(level.(blocks := blocks, enemies := enemies, collectibles := items, goalPosition := goal))
  {
  }

  /** Both hardcoded levels pass validation, so loading never fails. */
  lemma HardcodedLevelsValid(levelId: int)
    ensures ValidateLevel(LoadLevel(levelId))
    ensures LoadLevel(levelId).playerSpawn == Vector2D(100.0, 320.0)
  {
    var l := LoadLevel(levelId);
    assert l.width >= 3200.0 && l.height == 480.0 && l.playerSpawn == Vector2D(100.0, 320.0);
  }

  datatype Difficulty = Easy | Medium | Hard

  datatype LevelInfo = LevelInfo(id: int, name: string, difficulty: Difficulty, estimatedTime: int)

  /** Metadata for levels 1 and 2; every other id falls back to level 1's. */
  function GetLevelInfo(levelId: int): (r: LevelInfo)
    ensures r.id in {1, 2}
    ensures r.id == (if levelId == 2 then 2 else 1)
  {
    match levelId
    case 1 => LevelInfo(1, "World 1-1", Easy, 180)
    case 2 => LevelInfo(2, "World 1-2", Medium, 240)
    case _ => LevelInfo(1, "World 1-1", Easy, 180)
  }

  /** The level data and the metadata fall back in the same way: the info names the level that is loaded. */
  lemma InfoMatchesLevel(levelId: int)
    ensures GetHardcodedLevel(levelId) == GetHardcodedLevel(GetLevelInfo(levelId).id)
    ensures GetLevelInfo(levelId) == GetLevelInfo(GetLevelInfo(levelId).id)
  {
  }
}
