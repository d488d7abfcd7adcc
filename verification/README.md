# Super Mario platformer — a verified Dafny model

This project models the game logic of a browser-based Mario-style platformer.
The repository contains two versions of the game, and both are modelled:

- **The structured engine.** It is made of these parts:
  - rectangle physics;
  - the keyboard input handler;
  - the game-state manager, with its one-second countdown and change notifications;
  - the level loader;
  - the entity hierarchy (Entity, Player, Enemy, Goomba, Koopa);
  - the engine, which runs one frame as: update the player and enemies, run the three collision passes, follow with the camera, check for a win or a loss, and drop inactive enemies.
- **The self-contained game of the React page component.** It is one `update` function over a game record, a player record, two key maps and the level's platforms, enemies and coins.

Each part is written in the form of its source:

- Code that only computes becomes datatypes, functions and lemmas.
- Every object whose fields change in place becomes a `class`. Its methods are proved against pure step functions: `ensures state == CoinAdded(old(state))`, `ensures particles == Survivors(old(particles))`.
- The properties the game promises are proved as lemmas about those functions.

| file | module | models |
|---|---|---|
| types.dfy | GameTypes | the shared records (vectors, rectangles, sprites, entity configuration, game state, level data, input state) |
| physics.dfy | Physics | `utils/physics.ts` |
| listeners.dfy | Listeners | the subscribe/unsubscribe lists of the state manager and the input handler |
| game_state_manager.dfy | StateManager | `utils/gameStateManager.ts` |
| level_loader.dfy | LevelLoader | `utils/levelLoader.ts` |
| entity.dfy | Entities | `entities/Entity.ts` |
| player.dfy | Players | `entities/Player.ts` |
| enemy.dfy | Enemies | `entities/Enemy.ts` (Enemy, Goomba, Koopa) |
| input_handler.dfy | Input | `utils/inputHandler.ts` |
| collisions.dfy | Collisions | the block passes of the engine's collision step, as folds |
| game_engine.dfy | Engine | `engine/GameEngine.ts` |
| inline_game.dfy | Inline | the `update` frame, the particle functions, the overlap test and the key handlers of `components/SuperMarioGame.tsx` |

## How the model is built

- **Numbers.** Positions, speeds and times are `real`. Scores, lives, coins, levels, power levels, health and frame counters are `int`.
  - Floating-point rounding is not modelled, so `time - 0.02` is exact here.
  - JavaScript's `%` on a frame counter is `JsRem`. It equals Dafny's `%` on the non-negative operands that occur.
- **Inheritance.** The TypeScript class hierarchy is modelled by composition.
  - `Player` and `Enemy` each own a `const body: Entity`.
  - A Koopa is an `Enemy` whose `koopa` flag selects `Koopa.update`, `Koopa.reset` and `stomp`. The Goomba and Koopa constructors are named constructors of `Enemy`.
- **Callbacks and notifications.** Callbacks are numbers in the subscriber lists.
  - Every notification is recorded in a ghost log as the snapshot it delivers: `broadcasts` in the state manager and `notifications` in the input handler.
  - The engine's input callback is modelled by calling `GameEngine.HandleInput` with that snapshot.
  - That callback runs only when a key event changes the input record (GameEngine.ts:57, 509-520); the engine's `update` never calls it. Steering, jumping and crouching therefore apply once per change of the input record, not once per frame. Coyote time is refilled only by a key event while on the ground, and a buffered jump fires at the first key change after landing.
- **Timers and clocks.** The state manager's `setInterval` handle is the flag `timerRunning`. `startTimer`, `pauseTimer`, `resumeTimer` and `stopTimer` set or clear it where the source calls them, and one firing of the interval is `Tick`.
  - `performance.now()` and the animation-frame id are parameters of `Frame` and `Start`.
- **The engine's collision passes.**
  - The rectangle each pass tests is taken once, before the pass.
  - The velocity the side test uses is the live one, already changed by earlier blocks of the same pass.
  - The passes are therefore folds over the block list from that snapshot.
- **The inline game.**
  - It is the class `InlineGame`. Its fields are the closure's records, and `keys` and `keysPressed` are sets of held key codes.
  - `Update` is the source's `update` split into its phases: controls, R restart, motion and landing, then enemies, coins, particles, camera and timer. Each phase is proved against a pure function, and each loop against a fold of one step.
  - The pure `Frame` composes the phase functions (`PlayerHalf`, `EnemyHalf`, `CoinHalf`, the camera and `TickGame`). `Update` ends in `Frame` of its old state, and the lemmas about a frame are stated on `Frame`.
- **Where the code and its description differ, the model follows the code:**
  - An invalid level does not stop the engine from starting. `loadLevel` catches its own error, so `init` still calls `start`.
  - Stomping an enemy in the engine grants no score; only the inline game adds 100.
  - A kicked Koopa shell does not damage anything.
  - A standing player is not kept on the ground between frames. Every update clears `onGround` after gravity has made the vertical speed 0.5, and only the collision pass sets it again.

### Behaviours the proofs bring out

These are proved about the code as written, and the model keeps that behaviour:

- `Enemies.PatrolGetsStuck`: an enemy patrolling from its centre walks out of its range. It then flips direction on every frame and never comes back, because it turns whenever it is outside the range rather than only when it is moving away.
- `Enemies.Enemy.KoopaUpdate`: a walking Koopa is moved and animated twice per frame. `Koopa.update` calls `Enemy.update`, which integrates the position, and then integrates it again.
- `Players.PowerDownStep` and `Players.PowerUpThenDown`:
  - Growing keeps the feet in place, but shrinking moves the top edge down by only a quarter of the tall height.
  - So shrinking from super leaves the player floating a quarter of the tall height up, and a grow followed by a shrink ends half the small height higher.
- `Players.Player.Reset`: it does not restore the hitbox size, so a player reset while super or crouching keeps its larger or smaller box at power level 0.
- `Enemies.Enemy.Reset`: a reset does not restore the movement speed. `Koopa.stomp` sets it to 0, so a Koopa stomped once and then reset heads left again but does not move.
- `Collisions.TwoBlockWallPushesThrough`: the player pass tests every block against the rectangle taken before the pass. A player walking into a wall of two stacked blocks is pushed back by the first block and then through the wall by the second.
- `Collisions.HeadBumpGrounds`: hitting a block from below zeroes the vertical speed, and the pass marks the player as on the ground.
- `Inline.FoesShakeInPlace`:
  - In the page component every enemy stands with its feet at y = 432 (Koopas at 438). The ground platform's top is at 450, and no platform top is within 5 of either.
  - So no enemy ever counts as standing on a platform, and each one turns around on every frame, shaking in place instead of walking.
- `Inline.HeldSpaceJumpsAgain`: `keysPressed` is set on key-down and cleared only on key-up, so it always equals `keys` (an invariant of `InlineGame`). Holding Space therefore starts a new jump on every landing.
- `Inline.Restarted`: R restores the player's position, speed, size and power state, but not its ground, jump or coyote bookkeeping.

## Model

| member | source | states |
|---|---|---|
| Physics.CollisionSymmetric | super-mario-game/src/utils/physics.ts:16-23 | The overlap test does not depend on the order of its two rectangles. |
| Physics.CollisionIffPositiveIntersection | super-mario-game/src/utils/physics.ts:16-23 | For rectangles of positive size, two rectangles collide exactly when their intersection has positive width and positive height. |
| Physics.TouchingEdgesDoNotCollide | super-mario-game/src/utils/physics.ts:16-23 | The comparisons are strict, so rectangles that only share an edge do not collide. |
| Physics.GetCollisionDirection | super-mario-game/src/utils/physics.ts:28-52 | No side is reported exactly when the rectangles do not collide. Otherwise the side is horizontal exactly when the x push-out is smaller than the y push-out. A horizontal side is Left exactly when moving right, and a vertical side is Top exactly when moving down. |
| Physics.ZeroVelocityPushesRightOrDown | super-mario-game/src/utils/physics.ts:28-52 | A colliding mover with zero velocity is always reported as hitting Right or Bottom. |
| Physics.ApplyGravity | super-mario-game/src/utils/physics.ts:57-62 | Gravity adds 0.5 to the vertical speed, capped at 15. The horizontal speed is kept. A speed already at or below the cap never decreases. |
| Physics.GravityIterateClosedForm | super-mario-game/src/utils/physics.ts:57-62 | n applications of gravity give min(vy + 0.5 n, 15). |
| Physics.ApplyFriction | super-mario-game/src/utils/physics.ts:67-72 | Friction strictly shrinks a non-zero horizontal speed and never changes its sign. The vertical speed is kept. |
| Physics.ClampVelocity | super-mario-game/src/utils/physics.ts:77-88 | The result lies within ±8 horizontally and ±15 vertically. An in-range velocity is returned unchanged, and each component is either kept or set to the bound it exceeded. |
| Physics.ClampIdempotent | super-mario-game/src/utils/physics.ts:77-88 | Clamping twice is the same as clamping once. |
| Physics.InBoundsCollides | super-mario-game/src/utils/physics.ts:114-125 | A rectangle of positive size that is in bounds overlaps the bounds rectangle. |
| Physics.ResolveCollision | super-mario-game/src/utils/physics.ts:130-159 | For each side reported by the direction test, the mover is placed flush against that face of the obstacle and the speed component across it is zeroed. Without a collision, position and velocity are returned unchanged. |
| Physics.ResolveSeparates | super-mario-game/src/utils/physics.ts:130-159 | After resolution the two rectangles no longer collide but touch. Exactly one axis of position and velocity was changed. |
| Listeners.RemoveFirst | super-mario-game/src/utils/gameStateManager.ts:24-34 | Unsubscribing removes one occurrence of the callback (one fewer element in the multiset) and does nothing when the callback is absent. |
| Listeners.RemoveFirstSplit | super-mario-game/src/utils/inputHandler.ts:89-94 | The occurrence removed is the first one (indexOf then splice): the list is cut around it. |
| Listeners.SubscribeThenUnsubscribe | super-mario-game/src/utils/inputHandler.ts:85-95 | Subscribing a new callback and calling its unsubscribe function restores the list. Calling that function again changes nothing. |
| StateManager.InitialStateInv | super-mario-game/src/utils/gameStateManager.ts:4-12 | The initial record is score 0, 3 lives, level 1, power 0, playing, time 300, 0 coins, and it satisfies the state invariant. |
| StateManager.ScoreAdded | super-mario-game/src/utils/gameStateManager.ts:50-53 | Only the score changes, by the points given, and the invariant is kept. |
| StateManager.LifeAdded | super-mario-game/src/utils/gameStateManager.ts:74-78 | One more life and 1000 points; nothing else changes and the invariant is kept. |
| StateManager.CoinAdded | super-mario-game/src/utils/gameStateManager.ts:58-69 | The coin count advances modulo 100. The 100th coin adds a life and 1000 points; every coin adds 200 points. Nothing else changes and the invariant is kept. |
| StateManager.LifeLost | super-mario-game/src/utils/gameStateManager.ts:83-91 | Lives drop by one but not below 0. Reaching 0 lives ends the game; otherwise the status is kept. |
| StateManager.PowerLevelSet | super-mario-game/src/utils/gameStateManager.ts:96-105 | The power level is clamped into [0,2]. A requested level above 2 also awards 1000 points. |
| StateManager.PoweredUp | super-mario-game/src/utils/gameStateManager.ts:110-114 | The power level goes up by one, saturating at 2, without points. |
| StateManager.PoweredDown | super-mario-game/src/utils/gameStateManager.ts:119-125 | A powered-up player loses one level; a small one loses a life instead. |
| StateManager.LevelCompleted | super-mario-game/src/utils/gameStateManager.ts:147-158 | A completed level awards 50 points per remaining second, advances the level, resets the time to 300 and marks the status complete. |
| StateManager.Ticked | super-mario-game/src/utils/gameStateManager.ts:193-207 | Outside play a tick changes nothing. Otherwise it takes one second off. At time 1 or below it costs a life and restarts the clock at 300, or leaves it at 0 when the game is over; nothing else changes. |
| StateManager.Toggled | super-mario-game/src/utils/gameStateManager.ts:254-260 | Playing and paused swap; game over and complete are left alone. |
| StateManager.ToggleTwiceFromPlaying | super-mario-game/src/utils/gameStateManager.ts:254-260 | Pausing and resuming restores the state. |
| StateManager.CoinsBelowHundred | super-mario-game/src/utils/gameStateManager.ts:58-69 | Fewer than 100 coins from 0 only count coins and add 200 each. |
| StateManager.HundredCoins | super-mario-game/src/utils/gameStateManager.ts:58-69 | The 100th coin wraps the count to 0 and adds exactly one life and 100·200 + 1000 points. |
| StateManager.TimeOutWithLivesLeft | super-mario-game/src/utils/gameStateManager.ts:199-205 | Running out of time with lives to spare costs exactly one life and restarts the clock. |
| StateManager.GameStateManager.constructor | super-mario-game/src/utils/gameStateManager.ts:17-19 | The manager starts in the initial state with no subscribers and the timer running. |
| StateManager.GameStateManager.Subscribe | super-mario-game/src/utils/gameStateManager.ts:24-27 | The callback is appended; state, timer and broadcasts are untouched. |
| StateManager.GameStateManager.Unsubscribe | super-mario-game/src/utils/gameStateManager.ts:28-33 | The callback's first occurrence is removed; nothing else changes. |
| StateManager.GameStateManager.NotifyListeners | super-mario-game/src/utils/gameStateManager.ts:36-38 | Exactly one snapshot of the current state is broadcast. |
| StateManager.GameStateManager.GetState | super-mario-game/src/utils/gameStateManager.ts:43-45 | Returns the current record. |
| StateManager.GameStateManager.AddScore | super-mario-game/src/utils/gameStateManager.ts:50-53 | Performs ScoreAdded and broadcasts once. |
| StateManager.GameStateManager.AddCoin | super-mario-game/src/utils/gameStateManager.ts:58-69 | Performs CoinAdded and broadcasts in the source's order. With the 100th coin there are four broadcasts: the count before the wrap, two from the nested addLife, then the final state. |
| StateManager.GameStateManager.AddLife | super-mario-game/src/utils/gameStateManager.ts:74-78 | Performs LifeAdded and broadcasts twice, once from the nested addScore. |
| StateManager.GameStateManager.LoseLife | super-mario-game/src/utils/gameStateManager.ts:83-91 | Performs LifeLost. The timer stops with the last life, and the game-over status change broadcasts a second time. |
| StateManager.GameStateManager.SetPowerLevel | super-mario-game/src/utils/gameStateManager.ts:96-105 | Performs PowerLevelSet, broadcasting twice when the bonus points are added. |
| StateManager.GameStateManager.PowerUp | super-mario-game/src/utils/gameStateManager.ts:110-114 | Performs PoweredUp and broadcasts only when the level changed. |
| StateManager.GameStateManager.PowerDown | super-mario-game/src/utils/gameStateManager.ts:119-125 | Performs PoweredDown. It broadcasts once, or twice when the power level was above 3 or the lost life was the last. The timer stops only when the lost life was the last. |
| StateManager.GameStateManager.SetGameStatus | super-mario-game/src/utils/gameStateManager.ts:130-142 | Sets the status. The timer runs exactly when the new status is playing, which covers the pause, resume and stop paths. One broadcast. |
| StateManager.GameStateManager.CompleteLevel | super-mario-game/src/utils/gameStateManager.ts:147-158 | Performs LevelCompleted, stops the timer, and broadcasts the score-only snapshot and then the final state. |
| StateManager.GameStateManager.StartLevel | super-mario-game/src/utils/gameStateManager.ts:163-167 | Time back to 300, playing, timer running, one broadcast. |
| StateManager.GameStateManager.ResetGame | super-mario-game/src/utils/gameStateManager.ts:172-185 | Back to the initial state with the timer running, one broadcast. |
| StateManager.GameStateManager.Tick | super-mario-game/src/utils/gameStateManager.ts:190-208 | One interval callback performs Ticked. The timer stays registered only while the game is still playing, and a tick outside play broadcasts nothing. A tick in play broadcasts the new state once. When the clock runs out it first broadcasts what loseLife does: the state with time 0 and one life fewer, twice when that was the last life. |
| StateManager.GameStateManager.TogglePause | super-mario-game/src/utils/gameStateManager.ts:254-260 | Performs Toggled. The timer follows the new status, and only a real toggle broadcasts. |
| StateManager.GameStateManager.Destroy | super-mario-game/src/utils/gameStateManager.ts:265-268 | The timer is stopped and every subscriber dropped; the state is kept. |
| StateManager.TransitionsKeepValid | super-mario-game/src/utils/gameStateManager.ts:58-167 | Any sequence of the counting transitions keeps the manager's invariant: coins in [0,100), power in [0,2], lives ≥ 0, time in [0,300], level ≥ 1. |
| LevelLoader.GroundCount | super-mario-game/src/utils/levelLoader.ts:162 | The ground loop runs ceil(width / 32) times: the last block starts below startX + width and the next would not. |
| LevelLoader.GroundRow | super-mario-game/src/utils/levelLoader.ts:158-170 | Block i of a ground row is a ground block at startX + 32i, every block starts before the row's end, and the row reaches it. |
| LevelLoader.CreateGroundRow | super-mario-game/src/utils/levelLoader.ts:158-170 | The loop builds exactly GroundRow. |
| LevelLoader.PlatformRow | super-mario-game/src/utils/levelLoader.ts:175-187 | count platform blocks (none for count ≤ 0), block i at startX + 32i. |
| LevelLoader.CreatePlatformRow | super-mario-game/src/utils/levelLoader.ts:175-187 | The loop builds exactly PlatformRow. |
| LevelLoader.GetHardcodedLevel | super-mario-game/src/utils/levelLoader.ts:16-25 | Id 2 gives level 2; every other id falls back to level 1. |
| LevelLoader.ValidateLevel | super-mario-game/src/utils/levelLoader.ts:192-215 | A level is valid exactly when its dimensions are positive and its spawn lies in the closed level box. |
| LevelLoader.ValidateIgnoresContents | super-mario-game/src/utils/levelLoader.ts:192-215 | Validation never looks at blocks, enemies, collectibles or the goal. |
| LevelLoader.HardcodedLevelsValid | super-mario-game/src/utils/levelLoader.ts:7-153 | Every level id loads a valid level spawning at (100, 320). |
| LevelLoader.GetLevelInfo | super-mario-game/src/utils/levelLoader.ts:220-249 | The metadata id is 2 for id 2 and 1 for every other id. |
| LevelLoader.InfoMatchesLevel | super-mario-game/src/utils/levelLoader.ts:220-249 | The metadata falls back exactly as the level data does, so it names the level that is loaded. |
| Entities.DefaultHealth | super-mario-game/src/entities/Entity.ts:21 | Missing or zero health becomes 1 (the logical-or default), so a fresh entity's health is never 0. |
| Entities.DefaultFacing | super-mario-game/src/entities/Entity.ts:22 | The entity faces left only when facingRight is given as false. |
| Entities.PhysicsStep | super-mario-game/src/entities/Entity.ts:89-100 | applyPhysics: the result is within the clamp range. In the air an in-range horizontal speed is kept; on the ground friction never raises it. Gravity adds 0.5 up to 15. |
| Entities.JsRem | super-mario-game/src/entities/Entity.ts:110 | JavaScript's `%` agrees with the mathematical remainder for a non-negative dividend and positive divisor. |
| Entities.SpriteStep | super-mario-game/src/entities/Entity.ts:105-114 | The animation timer accumulates until it reaches the speed. Then the frame advances cyclically within [0,totalFrames) and the timer resets. Nothing else changes. |
| Entities.AdvanceSprite | super-mario-game/src/entities/Entity.ts:105-114 | Without a sprite nothing happens; a sprite keeps its frame count. |
| Entities.Entity.constructor | super-mario-game/src/entities/Entity.ts:15-23 | The fields come from the configuration with the health and facing defaults; the entity starts active and not on the ground. |
| Entities.Entity.GetRect | super-mario-game/src/entities/Entity.ts:28-35 | The rectangle sits at the position with the entity's size. |
| Entities.Entity.GetCenter | super-mario-game/src/entities/Entity.ts:40-45 | The centre is equidistant from both edges on both axes. |
| Entities.Entity.SetPosition | super-mario-game/src/entities/Entity.ts:57-60 | The position becomes (x, y). |
| Entities.Entity.Move | super-mario-game/src/entities/Entity.ts:65-68 | The position moves by (dx, dy). |
| Entities.Entity.SetVelocity | super-mario-game/src/entities/Entity.ts:73-76 | The velocity becomes (vx, vy). |
| Entities.Entity.AddVelocity | super-mario-game/src/entities/Entity.ts:81-84 | The velocity grows by (vx, vy). |
| Entities.Entity.ApplyPhysics | super-mario-game/src/entities/Entity.ts:89-100 | Performs PhysicsStep, so the velocity ends in the clamp range. |
| Entities.Entity.UpdateSprite | super-mario-game/src/entities/Entity.ts:105-114 | Performs AdvanceSprite and keeps a non-zero frame count. |
| Entities.Entity.TakeDamage | super-mario-game/src/entities/Entity.ts:134-137 | Health drops by the damage; the result says whether health reached 0 or below. |
| Entities.Entity.Heal | super-mario-game/src/entities/Entity.ts:142-144 | Health grows by the amount, without a cap. |
| Entities.Entity.Destroy | super-mario-game/src/entities/Entity.ts:156-159 | The entity becomes inactive with health 0, so isAlive is false. |
| Entities.Entity.GetBounds | super-mario-game/src/entities/Entity.ts:169-171 | The bounds are the entity's rectangle. |
| Players.Steer | super-mario-game/src/entities/Player.ts:71-87 | With exactly one of left and right held, the speed moves by the acceleration toward that side, capped at the running or walking maximum, and the facing follows. With both or neither held nothing changes. |
| Players.SteerWithinSpeed | super-mario-game/src/entities/Player.ts:71-87 | A speed within the cap stays within it. |
| Players.HandleJump | super-mario-game/src/entities/Player.ts:89-112 | A jump fires when a press is pending (now or buffered) and the player is grounded or in coyote time. It then sets the jump force, halved when the key is no longer held, and clears both timers and the ground flag. Otherwise the press refills the buffer, ground contact refills coyote time, and a rising speed is halved when jump is not held. |
| Players.Decay | super-mario-game/src/entities/Player.ts:129-130 | A countdown never goes below 0, never rises, and stays positive exactly while time remains. |
| Players.DecayNClosedForm | super-mario-game/src/entities/Player.ts:129-130 | n countdown updates leave max(0, t − n·dt). |
| Players.BufferedJumpWindow | super-mario-game/src/entities/Player.ts:89-112 | Jump handling runs only when the input record changes, so a buffered press is tried at the first key change after landing. It fires exactly when the n frames since the press took less than 150 ms, and then at half force. |
| Players.CoyoteWindow | super-mario-game/src/entities/Player.ts:95-106 | Coyote time is refilled only by a key change while on the ground. A press n frames later, off the ground, fires at full force exactly when those frames took less than 150 ms; otherwise it is only buffered. |
| Players.ShieldStep | super-mario-game/src/entities/Player.ts:132-137 | Invulnerability counts down and ends when the timer reaches 0; a vulnerable player is unaffected. |
| Players.InvulnerabilityLasts | super-mario-game/src/entities/Player.ts:132-137 | Invulnerability granted for a duration lasts through exactly the updates whose accumulated time is below it. |
| Players.Crouch | super-mario-game/src/entities/Player.ts:114-126 | The player crouches exactly while down is held on the ground. Entering halves the height and leaving doubles it, with the feet kept in place. |
| Players.CrouchThenStand | super-mario-game/src/entities/Player.ts:114-126 | Crouching then standing restores the hitbox. |
| Players.PowerUpStep | super-mario-game/src/entities/Player.ts:206-216 | The power level goes up by one, at most to 2. Growing from small doubles the height with the feet kept in place. |
| Players.PowerDownStep | super-mario-game/src/entities/Player.ts:221-231 | The power level goes down by one, at least to 0. Shrinking halves the height but moves the top down by only a quarter of the tall height, so the feet end a quarter of the tall height higher. |
| Players.TakeInput | super-mario-game/src/entities/Player.ts:55-126 | Steering, jumping and crouching compose in that order: steering as Steer with the previous running flag, the jump as HandleJump, grounded exactly when it was and no jump fired, crouching exactly when down is held on the ground, with the feet and the horizontal box kept and the running flag taken from the input. |
| Players.EnemyHit | super-mario-game/src/entities/Player.ts:174-204 | A stomp only bounces the player at half the jump force. Any other contact shrinks a powered-up player as PowerDownStep does and makes it invulnerable for 2000 ms, or destroys a small one. Either way a hit player cannot be hit again at once. |
| Players.PowerUpThenDown | super-mario-game/src/entities/Player.ts:206-231 | Growing and shrinking restores the height but leaves the top edge half a small height higher. |
| Players.Player.constructor | super-mario-game/src/entities/Player.ts:18-26 | A player body with health 1, the spawn remembered, every timer and flag cleared, power 0. |
| Players.Player.UpdateTimers | super-mario-game/src/entities/Player.ts:128-138 | Performs Decay on both timers and ShieldStep on invulnerability. |
| Players.Player.Update | super-mario-game/src/entities/Player.ts:31-50 | An inactive player is untouched. Otherwise the timers run, physics is applied, the position moves by the new velocity, the sprite advances and the ground flag is cleared. |
| Players.Player.HandleHorizontalMovement | super-mario-game/src/entities/Player.ts:71-87 | Performs Steer with the current running flag; the vertical speed is kept. |
| Players.Player.HandleJumping | super-mario-game/src/entities/Player.ts:89-112 | Performs HandleJump on the speed, timers and ground flag. |
| Players.Player.HandleCrouching | super-mario-game/src/entities/Player.ts:114-126 | Performs Crouch on the posture; x and width are kept. |
| Players.Player.HandleInput | super-mario-game/src/entities/Player.ts:55-69 | An inactive player is untouched. An active one ends as TakeInput of its old steering, jump and crouch state and the input. |
| Players.Player.MakeInvulnerable | super-mario-game/src/entities/Player.ts:236-239 | Invulnerable for exactly the given duration. |
| Players.Player.PowerUp | super-mario-game/src/entities/Player.ts:206-216 | Performs PowerUpStep on the stature. |
| Players.Player.PowerDown | super-mario-game/src/entities/Player.ts:221-231 | Performs PowerDownStep on the stature. |
| Players.Player.TakeDamageFromEnemy | super-mario-game/src/entities/Player.ts:194-201 | A powered-up player shrinks and becomes invulnerable for 2000 ms; a small one is destroyed. |
| Players.Player.HandleCollision | super-mario-game/src/entities/Player.ts:157-172 | An inactive or invulnerable player ignores everything, and so does every player for kinds other than enemy or power-up. Against an enemy the player ends as EnemyHit says, and the enemy is destroyed exactly on a stomp. A power-up powers the player up and is destroyed. The input, jump and animation fields never change. |
| Players.Player.HandleEnemyCollision | super-mario-game/src/entities/Player.ts:174-204 | The player ends as EnemyHit says; the enemy is destroyed on a stomp and untouched otherwise. |
| Players.Player.Reset | super-mario-game/src/entities/Player.ts:297-312 | Back to the spawn point, still, health 1, active, facing right, every timer and flag cleared, power 0. The hitbox size is kept. |
| Players.Player.Respawn | super-mario-game/src/entities/Player.ts:317-323 | A reset; a given position is used and also becomes the new spawn point. |
| Enemies.PatrolStep | super-mario-game/src/entities/Enemy.ts:22-33 | The speed follows the direction. The direction turns, and the facing with it, exactly when the enemy is more than half the patrol distance from its centre. A direction of ±1 stays ±1. |
| Enemies.AirborneStepIsPatrolSpeed | super-mario-game/src/entities/Enemy.ts:46-54 | In the air physics leaves a patrol speed alone. |
| Enemies.WalkOutward | super-mario-game/src/entities/Enemy.ts:22-33 | From the centre an enemy walks left one step per frame while inside its range. |
| Enemies.OscillatesOutsideRange | super-mario-game/src/entities/Enemy.ts:22-33 | Outside the range, an enemy whose next step keeps it outside flips every frame: two frames bring it back. |
| Enemies.PatrolGetsStuck | super-mario-game/src/entities/Enemy.ts:22-33 | A patrol from the centre leaves its range after n frames and from then on alternates between two points just outside it, never crossing back. |
| Enemies.StompShell | super-mario-game/src/entities/Enemy.ts:168-180 | A walking Koopa becomes a shell; a shell becomes kicked; kicked stays kicked. |
| Enemies.StompIsMonotone | super-mario-game/src/entities/Enemy.ts:168-180 | Stomps never go back; only a kicked shell is a fixed point, and two stomps always end kicked. |
| Enemies.Enemy.constructor | super-mario-game/src/entities/Enemy.ts:11-17 | The body from the configuration, the patrol centred on the placement point, walking left. |
| Enemies.Enemy.Goomba | super-mario-game/src/entities/Enemy.ts:126-138 | A 16×16 Goomba with speed 1 and patrol distance 120. |
| Enemies.Enemy.Koopa | super-mario-game/src/entities/Enemy.ts:148-163 | A 16×24 Koopa with speed 1.5 and patrol distance 100, out of its shell. |
| Enemies.Enemy.UpdateAI | super-mario-game/src/entities/Enemy.ts:22-33 | Performs PatrolStep at the current position. |
| Enemies.Enemy.HandleWallCollision | super-mario-game/src/entities/Enemy.ts:38-41 | The direction flips and the facing follows it. |
| Enemies.Enemy.BaseUpdate | super-mario-game/src/entities/Enemy.ts:46-61 | An inactive enemy is untouched. Otherwise it patrols, gets physics, moves by the new velocity, animates, and its ground flag is cleared. |
| Enemies.Enemy.KoopaUpdate | super-mario-game/src/entities/Enemy.ts:182-204 | A resting shell stops horizontally. A kicked shell gets physics without patrolling. A walking Koopa runs the base update and then moves again, so an active walking Koopa moves twice its velocity per frame and animates twice. No branch checks that the Koopa is active. |
| Enemies.Enemy.Update | super-mario-game/src/entities/Enemy.ts:46-61 | Dispatches to the Koopa or base update; an active enemy ends off the ground and an inactive non-Koopa is untouched. |
| Enemies.Enemy.HandleCollision | super-mario-game/src/entities/Enemy.ts:66-78 | An active enemy turns on hitting a block; every other case changes nothing. |
| Enemies.Enemy.Reset | super-mario-game/src/entities/Enemy.ts:112-120 | Back to the placement point, still, alive, heading and facing left, out of its shell. A Koopa regains height 24. The movement speed is kept, so a Koopa that a stomp stopped stays at speed 0. |
| Enemies.Enemy.Stomp | super-mario-game/src/entities/Enemy.ts:168-180 | Performs StompShell. The first stomp drops height to 16, moves down 8 and stops the Koopa; the second kicks the shell at 8 toward the facing; later stomps change nothing. |
| Input.Set | super-mario-game/src/utils/inputHandler.ts:50-51 | Setting one action leaves the other six alone. |
| Input.SameActionsSameState | super-mario-game/src/utils/inputHandler.ts:4-12 | The action record is exactly its seven flags. |
| Input.Press | super-mario-game/src/utils/inputHandler.ts:48-55 | A bound key sets its action and changes nothing else. The record changes (and listeners are notified) exactly when the action was not already held. An unbound key changes nothing. |
| Input.Release | super-mario-game/src/utils/inputHandler.ts:57-64 | A bound key clears its action and changes nothing else, notifying exactly when the action was held. |
| Input.RepeatedPressIsSilent | super-mario-game/src/utils/inputHandler.ts:48-55 | Key repeat is a no-op that notifies no one. |
| Input.PressThenRelease | super-mario-game/src/utils/inputHandler.ts:48-64 | Pressing and releasing a key that was up restores the record. |
| Input.EitherShiftReleasesRun | super-mario-game/src/utils/inputHandler.ts:14-24 | Both Shift keys drive run, so releasing either ends running while the other may still be down, and the second release is silent. |
| Input.InputHandler.constructor | super-mario-game/src/utils/inputHandler.ts:4-30 | Nothing held, the default nine bindings, no subscribers, enabled. |
| Input.InputHandler.NotifyListeners | super-mario-game/src/utils/inputHandler.ts:78-80 | One snapshot of the action record is delivered. |
| Input.InputHandler.HandleKeyDown | super-mario-game/src/utils/inputHandler.ts:48-55 | Performs Press and records a notification exactly when the press changed something. |
| Input.InputHandler.HandleKeyUp | super-mario-game/src/utils/inputHandler.ts:57-64 | Performs Release and records a notification exactly when the release changed something. |
| Input.InputHandler.HandleWindowBlur | super-mario-game/src/utils/inputHandler.ts:66-72 | Losing focus releases everything and always notifies. |
| Input.InputHandler.ClearInputs | super-mario-game/src/utils/inputHandler.ts:121-126 | Everything is released and one notification is sent. |
| Input.InputHandler.Subscribe | super-mario-game/src/utils/inputHandler.ts:85-87 | The callback is appended. |
| Input.InputHandler.Unsubscribe | super-mario-game/src/utils/inputHandler.ts:89-94 | The callback's first occurrence is removed. |
| Input.InputHandler.GetInputState | super-mario-game/src/utils/inputHandler.ts:100-102 | A copy that agrees with the record on every action. |
| Input.InputHandler.IsActionActive | super-mario-game/src/utils/inputHandler.ts:107-109 | Whether that action is held. |
| Input.InputHandler.SetKeyMapping | super-mario-game/src/utils/inputHandler.ts:114-116 | The key is bound to the action; every other binding is kept. |
| Input.InputHandler.SetEnabled | super-mario-game/src/utils/inputHandler.ts:144-149 | The flag is set; disabling also clears every action with one notification. |
| Input.InputHandler.Destroy | super-mario-game/src/utils/inputHandler.ts:131-137 | Every subscriber is dropped. |
| Collisions.PlayerBlockStep | super-mario-game/src/engine/GameEngine.ts:263-278 | A block missing the pre-pass snapshot changes nothing. A block hit moves the body to the resolved position and velocity and grounds it whenever the resolved vertical speed is 0, whatever side was hit. |
| Collisions.NonCollidingSuffix | super-mario-game/src/engine/GameEngine.ts:263-279 | Blocks that the snapshot does not overlap add nothing to the pass. |
| Collisions.HeadBumpGrounds | super-mario-game/src/engine/GameEngine.ts:274-277 | Hitting a block's underside zeroes the vertical speed, so the player is marked as on the ground below the block. |
| Collisions.TwoBlockWallPushesThrough | super-mario-game/src/engine/GameEngine.ts:260-279 | With the stale snapshot, a player walking right into a wall of two stacked blocks is first pushed back to 784. The second block then pushes it through the wall to 832, grounded. |
| Collisions.EnemyBlockStep | super-mario-game/src/engine/GameEngine.ts:295-316 | Like the player's step, and a resolved horizontal speed of 0 also turns the enemy around. A direction of ±1 stays ±1. |
| Collisions.EnemyBlocks | super-mario-game/src/engine/GameEngine.ts:290-317 | The enemy pass keeps a direction of ±1. |
| Collisions.StillEnemyTurnsPerBlock | super-mario-game/src/engine/GameEngine.ts:311-314 | An enemy with zero horizontal speed turns once per block it overlaps, so an even number of overlaps leaves it facing the same way. |
| Engine.ActiveOnly | super-mario-game/src/engine/GameEngine.ts:363-365 | The kept enemies are exactly the active ones of the list, and there are no more than before. |
| Engine.ActiveOnlyAppend | super-mario-game/src/engine/GameEngine.ts:363-365 | The filter distributes over concatenation, so order is kept. |
| Engine.ActiveOnlyDistinct | super-mario-game/src/engine/GameEngine.ts:363-365 | Filtering keeps the enemies' bodies distinct. |
| Engine.BlockRects | super-mario-game/src/engine/GameEngine.ts:133-142 | One 32×32 rectangle per block at its position. |
| Engine.CameraAxis | super-mario-game/src/engine/GameEngine.ts:323-337 | The camera centres on the player but stays in [0, level − view]. It is 0 when the level is smaller than the view and at either end when the player is near it. |
| Engine.NearGoalBox | super-mario-game/src/engine/GameEngine.ts:346-349 | The goal radius test implies being within 50 on both axes, and is implied by being within 35 on both axes. |
| Engine.Destroyed | super-mario-game/src/entities/Entity.ts:156-159 | A destroyed enemy snapshot differs only in being inactive with health 0. |
| Engine.AfterBlocks | super-mario-game/src/engine/GameEngine.ts:290-317 | An inactive enemy is skipped; an active one goes through the enemy block pass from its snapshot. |
| Engine.GameEngine.constructor | super-mario-game/src/engine/GameEngine.ts:36-64 | A new input handler and state manager, each with the engine's callback subscribed. The player is 16×16 at (100, 320). No level, entities or blocks, the camera at 0, not running, canvas 800×480. |
| Engine.GameEngine.PlayerVsBlocks | super-mario-game/src/engine/GameEngine.ts:260-279 | The player's body ends as the block fold from the snapshot rectangle. |
| Engine.GameEngine.PlayerVsEnemyAt | super-mario-game/src/engine/GameEngine.ts:282-287 | The player and enemy i end as Clash of their old states; every other enemy and the rest of the player are untouched. |
| Engine.GameEngine.Meet | super-mario-game/src/engine/GameEngine.ts:283-286 | When the enemy is active and overlaps, the player's collision logic and then the enemy's run; the outcome is Clash of the old states. |
| Engine.GameEngine.PlayerVsEntities | super-mario-game/src/engine/GameEngine.ts:282-287 | The player and the enemy list end as the PlayerEnemies fold of their old states: each enemy in list order against the player as the earlier ones left it. The player's input and jump fields are untouched. |
| Engine.ClashOutcome | super-mario-game/src/engine/GameEngine.ts:282-287 | Without a meeting nothing changes. A meeting hits the player as EnemyHit says, and the enemy is destroyed exactly when it was active and the player stomped it. |
| Engine.PassKeepsOrDestroys | super-mario-game/src/engine/GameEngine.ts:282-287 | In the pass every enemy is left as it was or, if it was active, destroyed. |
| Engine.ShieldedPlayerPassesThrough | super-mario-game/src/engine/GameEngine.ts:282-287 | An inactive or invulnerable player passes through every enemy: the pass changes nothing. |
| Engine.OneHitPerPass | super-mario-game/src/engine/GameEngine.ts:282-287 | A pass hurts the player at most once: the power level ends where it was, or one lower with the player invulnerable. |
| Engine.GameEngine.EnemyVsBlocks | super-mario-game/src/engine/GameEngine.ts:293-316 | The enemy's motion state ends as the enemy block fold from its snapshot rectangle. |
| Engine.GameEngine.EnemyVsBlocksAt | super-mario-game/src/engine/GameEngine.ts:290-316 | Only enemy i changes, as AfterBlocks says. |
| Engine.GameEngine.EntitiesVsBlocks | super-mario-game/src/engine/GameEngine.ts:290-317 | Every enemy ends as AfterBlocks of its old snapshot. |
| Engine.GameEngine.HandleCollisions | super-mario-game/src/engine/GameEngine.ts:259-318 | No pass changes an enemy's shell or size, and inactive enemies are untouched. |
| Engine.GameEngine.UpdateEnemyAt | super-mario-game/src/engine/GameEngine.ts:237-241 | Only enemy i changes; an inactive one not at all, an active one ends off the ground. |
| Engine.GameEngine.UpdateEntities | super-mario-game/src/engine/GameEngine.ts:237-241 | Inactive enemies are untouched and active ones end off the ground. |
| Engine.GameEngine.UpdateCamera | super-mario-game/src/engine/GameEngine.ts:323-337 | Without a level the camera stays. Otherwise each axis is CameraAxis of the player's centre. |
| Engine.GameEngine.CheckGameConditions | super-mario-game/src/engine/GameEngine.ts:342-358 | Near the goal the level completes, broadcasting the bonus and the completed state and stopping the timer. A player below the level's bottom plus 100 powers down, which costs a life when small, broadcasting the new state (twice at game over) and keeping the timer only while lives remain, and respawns at the spawn point with zero speed. |
| Engine.GameEngine.CleanupEntities | super-mario-game/src/engine/GameEngine.ts:363-365 | The list becomes ActiveOnly of itself. |
| Engine.GameEngine.Update | super-mario-game/src/engine/GameEngine.ts:230-254 | Without a level nothing changes. Otherwise the level and blocks are kept, only active enemies from the old list remain, and the camera is non-negative. |
| Engine.GameEngine.CreateBlocks | super-mario-game/src/engine/GameEngine.ts:133-142 | The blocks become BlockRects of the level's blocks. |
| Engine.GameEngine.CreateEnemies | super-mario-game/src/engine/GameEngine.ts:144-163 | One fresh Goomba or Koopa per enemy entry is appended, in order, spawned at its position. |
| Engine.GameEngine.SetupLevel | super-mario-game/src/engine/GameEngine.ts:99-131 | An invalid level is recorded but nothing else changes. A valid one installs its blocks and enemies, resets the camera and respawns the player at the level's spawn. |
| Engine.GameEngine.LoadLevel | super-mario-game/src/engine/GameEngine.ts:99-131 | Loading any id installs that hardcoded level, which always validates, with the player at (100, 320). |
| Engine.GameEngine.Frame | super-mario-game/src/engine/GameEngine.ts:206-225 | A stopped engine ignores the frame. A running one records the time and frame id, and updates the world only while the game is playing. |
| Engine.GameEngine.Start | super-mario-game/src/engine/GameEngine.ts:179-187 | A running engine is left alone; otherwise it starts and runs one frame. |
| Engine.GameEngine.Stop | super-mario-game/src/engine/GameEngine.ts:192-201 | The engine stops and a pending frame id is cleared. Frame id 0 is falsy and is kept. |
| Engine.GameEngine.Init | super-mario-game/src/engine/GameEngine.ts:82-94 | Level 1 is loaded and the loop is running. |
| Engine.GameEngine.HandleInput | super-mario-game/src/engine/GameEngine.ts:509-520 | Pause toggles the game and touches nothing else. Outside play other input is ignored. In play an active player ends as TakeInput of its old state and the input; an inactive one is untouched. |
| Engine.GameEngine.KeyDown | super-mario-game/src/utils/inputHandler.ts:48-55 | The input record becomes Press of the old one. The engine's callback runs exactly when the press notifies and the engine is subscribed. Then pause toggles the game; otherwise, in play, an active player ends as TakeInput of the new record, and outside play nothing changes. |
| Engine.GameEngine.KeyUp | super-mario-game/src/utils/inputHandler.ts:57-64 | The input record becomes Release of the old one. The callback runs exactly when the release notifies and the engine is subscribed. If pause is still held (another action was released), the callback toggles the game again; otherwise, in play, an active player ends as TakeInput of the new record. |
| Engine.GameEngine.Resize | super-mario-game/src/engine/GameEngine.ts:533-536 | The canvas takes the new size. |
| Engine.GameEngine.Destroy | super-mario-game/src/engine/GameEngine.ts:541-545 | Stopped, both subscriber lists emptied, the state timer stopped, the state kept. |
| Engine.StopThenFrame | super-mario-game/src/engine/GameEngine.ts:192-207 | A frame that fires after stop changes nothing. |
| Inline.OverlapsIsCheckCollision | super-mario-game/src/components/SuperMarioGame.tsx:257-262 | The component's overlap test is the physics module's test, and it is symmetric. |
| Inline.Steer | super-mario-game/src/components/SuperMarioGame.tsx:267-279 | Left wins over right, each at speed 6 with the facing set. With neither held the speed decays toward 0 without changing sign. Nothing else changes. |
| Inline.StartJump | super-mario-game/src/components/SuperMarioGame.tsx:282-289 | A jump starts at speed −10, with its bookkeeping reset, exactly when Space was pressed, the player is grounded or in coyote time, and not already jumping. |
| Inline.HoldJump | super-mario-game/src/components/SuperMarioGame.tsx:292-297 | Holding Space while rising adds an upward boost of at most 1.1 per frame for at most 12 frames. |
| Inline.FirstHeldFrameAddsNothing | super-mario-game/src/components/SuperMarioGame.tsx:294-295 | The boost is proportional to hold time already spent, so the first held frame adds nothing. |
| Inline.CutJump | super-mario-game/src/components/SuperMarioGame.tsx:300-305 | Releasing Space while jumping upward halves the rise; the outer guard never matters. |
| Inline.Restarted | super-mario-game/src/components/SuperMarioGame.tsx:324-336 | R returns the player to the start, small, but keeps its width and its ground, jump and coyote bookkeeping. |
| Inline.Controls | super-mario-game/src/components/SuperMarioGame.tsx:267-320 | In order: steering, jump start, hold, cut. A jump that starts with Space still held leaves the player rising at −10 and airborne. A grounded player is not jumping. Position and size are untouched and the frame bounds are kept. |
| Inline.LandStep | super-mario-game/src/components/SuperMarioGame.tsx:373-379 | Falling onto a platform from above puts the feet on its top, stopped and grounded, after which no platform can land the player again. |
| Inline.Landing | super-mario-game/src/components/SuperMarioGame.tsx:371-380 | The landing pass keeps the frame bounds. |
| Inline.LandingMissesAll | super-mario-game/src/components/SuperMarioGame.tsx:371-380 | Without a platform to land on, the pass changes nothing. |
| Inline.LandingTakesFirst | super-mario-game/src/components/SuperMarioGame.tsx:371-380 | The first platform the player can land on decides the pass. |
| Inline.Coyote | super-mario-game/src/components/SuperMarioGame.tsx:383-387 | Grounded refills coyote time to 8; in the air it counts down to 0 and no further. |
| Inline.CoyoteRunsOut | super-mario-game/src/components/SuperMarioGame.tsx:383-387 | n airborne frames leave max(0, c − n) frames of coyote time. |
| Inline.Motion | super-mario-game/src/components/SuperMarioGame.tsx:358-387 | After the fall, landing and coyote update, a grounded player has a full coyote window and the frame bounds hold. |
| Inline.Survivors | super-mario-game/src/components/SuperMarioGame.tsx:243-254 | The particles left after an update all have life, and there are no more than before. |
| Inline.SurvivorsKeepAll | super-mario-game/src/components/SuperMarioGame.tsx:243-254 | When every particle had more than one unit of life, all survive, advanced in place. |
| Inline.SurvivorsDropAll | super-mario-game/src/components/SuperMarioGame.tsx:250-252 | When none had more than one, the buffer empties. |
| Inline.SurvivorsAppend | super-mario-game/src/components/SuperMarioGame.tsx:243-254 | The update works particle by particle: it distributes over concatenation. |
| Inline.LoneParticleLifetime | super-mario-game/src/components/SuperMarioGame.tsx:243-254 | A particle with life L survives exactly L − 1 updates, with life L − n after n of them. |
| Inline.NewParticleLastsSixtyUpdates | super-mario-game/src/components/SuperMarioGame.tsx:230-254 | A new particle is still present after 59 updates and gone after 60. |
| Inline.LoseLife | super-mario-game/src/components/SuperMarioGame.tsx:434-441 | With lives to spare one is lost; on the last the game restarts at 3 lives and score 0. Either way the player goes back to (100, 400). |
| Inline.Hurt | super-mario-game/src/components/SuperMarioGame.tsx:428-442 | A super player shrinks to small (height 32) and keeps its lives; any other size loses a life. |
| Inline.FoeMove | super-mario-game/src/components/SuperMarioGame.tsx:393-415 | The enemy moves by its speed. It turns exactly when, at the new position, it stands on no platform or has reached either world edge. |
| Inline.Stomped | super-mario-game/src/components/SuperMarioGame.tsx:419-426 | A stomp bounces the player up at 6 and lets it jump again. It adds 100 points and a gold "100" particle over the enemy. |
| Inline.FoeStep | super-mario-game/src/components/SuperMarioGame.tsx:390-445 | An enemy's height, kind and vertical position never change, and the round's bounds hold. |
| Inline.FoeStepOutcomes | super-mario-game/src/components/SuperMarioGame.tsx:390-445 | A dead enemy is skipped. A live one walks; on contact after the walk it is stomped by a falling player that is above it, and otherwise hurts the player. |
| Inline.FoesPass | super-mario-game/src/components/SuperMarioGame.tsx:390-445 | The pass keeps the number of enemies and the round's bounds. |
| Inline.FoesPassWalks | super-mario-game/src/components/SuperMarioGame.tsx:390-445 | Each live enemy has walked once, by FoeMove against the platforms, and dead enemies are unchanged. |
| Inline.Revived | super-mario-game/src/components/SuperMarioGame.tsx:341-349 | R brings an enemy back alive; a Koopa leaves its shell and regains height 38. Nothing else changes. |
| Inline.CoinStep | super-mario-game/src/components/SuperMarioGame.tsx:448-464 | An uncollected coin the player overlaps is collected for 200 points and a "200" particle; any other coin changes nothing. |
| Inline.CoinsPass | super-mario-game/src/components/SuperMarioGame.tsx:448-464 | The pass keeps the number of coins, the player and the lives. |
| Inline.CoinsPassCollects | super-mario-game/src/components/SuperMarioGame.tsx:448-464 | Only collected flags change, and never back. After the pass every coin the player overlaps is collected, and the score rises by 200 per newly collected coin. |
| Inline.InertCoinsPass | super-mario-game/src/components/SuperMarioGame.tsx:448-464 | With nothing left to collect the pass changes nothing. |
| Inline.CoinsPassIdempotent | super-mario-game/src/components/SuperMarioGame.tsx:448-464 | A second pass in the same position collects nothing more. |
| Inline.TickTime | super-mario-game/src/components/SuperMarioGame.tsx:473-476 | The clock drops by 0.02 per frame and restarts at 400 when it reaches 0, so it stays in (0, 400]. |
| Inline.ClockCountsDown | super-mario-game/src/components/SuperMarioGame.tsx:473-476 | After n < 20000 frames the clock reads 400 − 0.02 n. |
| Inline.ClockRunsOutAt20000 | super-mario-game/src/components/SuperMarioGame.tsx:473-476 | In exact arithmetic the clock runs out on frame 20000, 400 seconds at 50 frames per second; with floating-point steps the source's runs out one frame later. |
| Inline.InitialPlatformsClear | super-mario-game/src/components/SuperMarioGame.tsx:85-106 | No platform top lies within 5 of the enemies' feet at 432 or 438; none starts hit. |
| Inline.FoesNeverStand | super-mario-game/src/components/SuperMarioGame.tsx:402-411 | An enemy on the ground line never counts as standing on a platform. |
| Inline.FoesShakeInPlace | super-mario-game/src/components/SuperMarioGame.tsx:402-415 | Such an enemy therefore turns on every frame: two frames return it exactly where it was. |
| Inline.QuestionReset | super-mario-game/src/components/SuperMarioGame.tsx:350-352 | R clears a question block's hit flag; other blocks are untouched. |
| Inline.InlineGame.constructor | super-mario-game/src/components/SuperMarioGame.tsx:14-160 | The record, player, key maps and level data start as the component declares them. |
| Inline.InlineGame.KeyDown | super-mario-game/src/components/SuperMarioGame.tsx:65-68 | The key is held; it is marked pressed only when it was not already held, so both maps stay equal when they were. |
| Inline.InlineGame.KeyUp | super-mario-game/src/components/SuperMarioGame.tsx:70-73 | The key is released in both maps. |
| Inline.InlineGame.CreateParticle | super-mario-game/src/components/SuperMarioGame.tsx:230-241 | Appends a new particle with speed −2 and life 60. |
| Inline.InlineGame.UpdateParticles | super-mario-game/src/components/SuperMarioGame.tsx:243-254 | The backward loop with splice leaves exactly Survivors of the old buffer. |
| Inline.InlineGame.StandsOn | super-mario-game/src/components/SuperMarioGame.tsx:403-411 | The flag loop computes StandsOnPlatform. |
| Inline.InlineGame.LandOnPlatforms | super-mario-game/src/components/SuperMarioGame.tsx:371-380 | The loop leaves the player as Landing after the ground flag is cleared. |
| Inline.InlineGame.TakeDamage | super-mario-game/src/components/SuperMarioGame.tsx:428-442 | The round becomes Hurt of the old round. |
| Inline.InlineGame.FoeAt | super-mario-game/src/components/SuperMarioGame.tsx:390-445 | Enemy i and the round go through FoeStep; the other enemies are untouched. |
| Inline.InlineGame.EnemiesPass | super-mario-game/src/components/SuperMarioGame.tsx:390-445 | The loop over enemies performs FoesPass and keeps the game invariant. |
| Inline.InlineGame.CoinAt | super-mario-game/src/components/SuperMarioGame.tsx:448-464 | Coin i and the round go through CoinStep; the other coins are untouched. |
| Inline.InlineGame.CollectCoins | super-mario-game/src/components/SuperMarioGame.tsx:448-464 | The loop over coins performs CoinsPass. |
| Inline.InlineGame.ResetCoins | super-mario-game/src/components/SuperMarioGame.tsx:340 | The coins become Uncollected: every coin uncollected and otherwise unchanged. |
| Inline.InlineGame.ReviveEnemies | super-mario-game/src/components/SuperMarioGame.tsx:341-349 | The enemies become AllRevived: every enemy Revived. |
| Inline.InlineGame.ResetQuestionBlocks | super-mario-game/src/components/SuperMarioGame.tsx:350-352 | The platforms become QuestionsReset: every platform QuestionReset. |
| Inline.InlineGame.Restart | super-mario-game/src/components/SuperMarioGame.tsx:322-355 | The state becomes RestartGame of the old one: R restarts the player, score, time and particles, uncollects coins and revives enemies, keeping the lives. The platforms end as they started, since no block is ever hit. |
| Inline.InlineGame.Tick | super-mario-game/src/components/SuperMarioGame.tsx:473-484 | The state becomes TickGame of the old one: the clock follows TickTime, and when it runs out the round loses a life as LoseLife says. |
| Inline.InlineGame.ApplyControls | super-mario-game/src/components/SuperMarioGame.tsx:267-320 | The player becomes Controls of the held and pressed keys. |
| Inline.InlineGame.MovePlayer | super-mario-game/src/components/SuperMarioGame.tsx:358-387 | The player becomes Motion against the platforms. |
| Inline.InlineGame.PlayerPhase | super-mario-game/src/components/SuperMarioGame.tsx:267-387 | The state becomes PlayerHalf of the old one. This keeps every enemy's position and speed and, without R, every coin; with R, coins and enemies are reset but nobody dies. |
| Inline.InlineGame.EnemyPhase | super-mario-game/src/components/SuperMarioGame.tsx:390-445 | The state becomes EnemyHalf of the old one. Every enemy alive at the start moved by its speed and turned around, because none ever stands on a platform. |
| Inline.InlineGame.CoinPhase | super-mario-game/src/components/SuperMarioGame.tsx:448-464 | The state becomes CoinHalf of the old one. Collected coins stay collected. |
| Inline.InlineGame.WorldPhase | super-mario-game/src/components/SuperMarioGame.tsx:390-484 | The state becomes WorldHalf of the old one: the enemy, coin, particle, camera and timer steps. The camera stays in [0, max(0, 1600 − canvas width)]. |
| Inline.InlineGame.Update | super-mario-game/src/components/SuperMarioGame.tsx:265-485 | The state becomes Frame of the old one. A frame keeps the numbers of coins and enemies and the platforms. Without R collected coins stay collected. The camera stays within the world. Every enemy alive at the start of the frame moves by its speed and turns around. |
| Inline.RestartKeepsOk | super-mario-game/src/components/SuperMarioGame.tsx:322-355 | R keeps the frame invariant and the lives, leaves the platforms as they are, uncollects every coin and revives every enemy. |
| Inline.FoesPassStayOnLine | super-mario-game/src/components/SuperMarioGame.tsx:390-445 | The enemy pass keeps every enemy on its line. |
| Inline.PlayerHalfOk | super-mario-game/src/components/SuperMarioGame.tsx:267-387 | The first half of the frame keeps the invariant. |
| Inline.EnemyHalfOk | super-mario-game/src/components/SuperMarioGame.tsx:390-445 | The enemy pass keeps the invariant. |
| Inline.CoinHalfOk | super-mario-game/src/components/SuperMarioGame.tsx:448-467 | The coin pass and the particle update keep the invariant. |
| Inline.FrameKeepsOk | super-mario-game/src/components/SuperMarioGame.tsx:265-485 | A frame keeps the invariant: lives 1 to 3, a non-negative score, a well-formed player, live particles, time on the clock, enemies on the ground line, and platforms clear of that line and unhit. |
| Inline.FrameKeeps | super-mario-game/src/components/SuperMarioGame.tsx:265-485 | A frame never changes the keys, the level, the vertical camera or the platforms, keeps the numbers of coins and enemies, and keeps the camera within the world. |
| Inline.HeldSpaceJumpsAgain | super-mario-game/src/components/SuperMarioGame.tsx:65-68 | A key counts as pressed for as long as it is held, so holding Space starts a new jump on every landing. |

## Left out

- **Drawing.**
  - Not modelled: all canvas drawing (`render`, `renderBlocks`, `renderUI`, the pause, game-over, level-complete and debug screens, `getPlayerColor`, `getEnemyColor`, the page component's sprite and background painters), the HUD text and sound.
  - The invulnerability flicker uses `Date.now()` and only affects drawing.
- **Engine frame bookkeeping.** The FPS counter (`updateFPS`, `frameCount`, `fps`) is presentation only. `setupCanvas` is not modelled beyond the 800×480 size it sets.
- **Logging and alerts.** `console.log`/`console.error` and `alert` calls are not modelled. `handleGameStateChange` only logs, so the engine's state callback is an id in the manager's list.
- **DOM listeners.**
  - Registering and removing listeners (`setupEventListeners`, `preventDefault`, the `focus` handler, which does nothing, and the page component's `addEventListener` calls) is not modelled.
  - `InputHandler.Destroy` models only the emptying of the subscriber list.
- **Collectibles.** `createCollectibles` only logs, so collectibles are never created in the engine. Coins and power-ups are collected only by the page component's own coin loop.
- **Distance.** `PhysicsUtils.distance` and `normalize` use a square root. The goal test of `checkGameConditions` is modelled by `Engine.NearGoal`, which compares squared distances; `Engine.NearGoalBox` relates it to the box test.
- **Level validation.** The missing-spawn-or-goal guard of `validateLevel` cannot fire on a typed `LevelData` and is left out.
- **Level data.**
  - `EnemyData.movementRange` is never read by the source and is not modelled.
  - The default branch of `createEnemies` is unreachable: enemy types are only `goomba` and `koopa`.
- **Accessors.** `getGameState`, `isGameActive`, `isGamePaused` and `isGameOver` are predicates or plain field reads with nothing to prove.
- **Unused Koopa behaviour.** `Koopa.stomp` is modelled (`Enemies.Enemy.Stomp`) but nothing in the engine calls it: the player's stomp destroys the enemy.
- **Page component, fields and constants nothing reads or fills:**
  - Animation counters (`animFrame`, `animTimer` of player, enemies and coins) only select drawings.
  - The `powerUps`, `fireballs`, `koopas` and `shells` arrays are never filled, and clearing them on R is omitted.
  - `MAX_SPEED`, `ACCELERATION`, `FRICTION`, `wasOnGround`, the platforms' `breakable`, `coins` and `contains` fields, and the game record's `level` are never read.
  - Invulnerability, star power and transformation fields are only reset on R, which `Inline.Restarted` states.
- **Page component loop and audio.** The `requestAnimationFrame` loop around `update` and the click handler that starts audio are left out. `InlineGame.Update` is one call of `update`.
- **Page component camera.** The camera stops at 1600 although the ground is 3200 wide. `Inline.WorldEdge` is the source's 1600 and the model keeps it.
- **Asynchrony.** `loadLevel` and `init` are asynchronous in the source; here they run to completion in order.
- Engine.GameEngine.HandleCollisions: states only that the passes keep every enemy's shell state and size and leave inactive enemies alone. Each pass is specified in full by its own member: `PlayerVsBlocks` by the `PlayerBlocks` fold, `PlayerVsEntities` by the `PlayerEnemies` fold, `EntitiesVsBlocks` by `AfterBlocks`. Their composition over heap snapshots is not restated.
- Engine.GameEngine.UpdateEntities: states only that inactive enemies are untouched and active ones end off the ground. Each enemy's full update is stated by `Enemies.Enemy.BaseUpdate` and `Enemies.Enemy.KoopaUpdate`.
- Engine.GameEngine.Update: states the frame's invariants (only active enemies of the old list remain, the camera is non-negative, level and blocks are kept), not the composed effect of every phase.
- Enemies.Enemy.Update: states only the dispatch's shared outcome. The full effect of each branch is stated by `BaseUpdate` and `KoopaUpdate`.
- StateManager.TransitionsKeepValid: a fixed sequence of transitions, standing for the claim that each transition keeps the invariant. `AddScore` is not included, because the source allows negative points and the invariant does not bound the score.
- Entities.SpriteStep, Entities.AdvanceSprite, Entities.Entity.SpriteOk: require a sprite to have a non-zero frame count. In the source a sprite with zero frames makes `updateSprite` take a remainder by zero, which gives NaN (Entity.ts:110); the model has no NaN. The constructors of `Entities.Entity`, `Enemies.Enemy` and `Players.Player` carry the same condition on the configured sprite.
- Entities.Entity.TakeDamage, Entities.Entity.Heal: the source's default amount of 1 (`takeDamage(damage = 1)`, `heal(amount = 1)`, Entity.ts:134, 142) is not a default here; callers pass the amount.
- Enemies.Enemy.constructor: the source's optional `movementSpeed` (default 1) and `patrolDistance` (default 100) (Enemy.ts:11) are required parameters here; `Goomba` and `Koopa` pass their own values.
