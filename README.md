# A verified model of the game.js space shooter

`game.js` is a browser canvas shooter. The player's ship sits at the bottom of an
800 × 600 field and follows the pointer. A click fires a projectile upwards.
Enemies appear at the top at random and fall at a speed that depends on the chosen
difficulty. A projectile that touches an enemy destroys both and scores
`10 * scoreMultiplier`. An enemy that touches the ship ends the game.

This project models the game logic of that script in Dafny, and proves what the
logic does:

- Module `Geometry` holds the screen constants and the rectangle test `isColliding`.
- Module `Difficulty` holds the fixed `DIFFICULTY_SETTINGS` table.
- Module `Entities` holds the three game objects `Player`, `Enemy` and `Projectile`.
  - Each is a `class` whose `Update` method changes its fields in place, as `update()` does.
  - Each also has a value view (`PlayerState`, `EnemyState`, `ShotState`) with its step and its `getBounds` box.
- Module `Collisions` holds `checkCollisions` on values:
  - `InnerPass` and `ProjectilePass` follow the two nested `forEach` loops index by index;
  - they splice both lists exactly as the code does.
- Module `Simulation` treats the whole global state as one `World` value.
  - The frame step `update` is the function `Step`.
  - Each input handler is a function from the old `World` to the new one.
  - It holds the lemmas about them, including an invariant `Inv` that every reachable state keeps.
- Module `GameState` holds the global state as the class `Game`.
  - Its methods change it in place, as the script's functions do.
  - Each method is proved to leave `Snapshot()` equal to the matching `Simulation` function applied to the old snapshot.
  - So every lemma about `Simulation` also holds for the imperative code.
- Module `Util` holds an `Option`, and JavaScript's `splice(i, 1)` and `filter` on sequences.

Modelling choices:

- **Coordinates.** Horizontal positions are `real`: the pointer position and `Math.random() * 760` can be fractional. Vertical positions are `int`: every object starts at y = 0 or y = 500 and moves by a whole speed.
- **Randomness.** `Math.random()` is two inputs of `update`, `roll` and `pick`, both in [0, 1).
  - An enemy spawns exactly when `roll < enemySpawnChance`.
  - It spawns at x = `pick * 760`.
- **Pointer input.** The `mousemove`, `touchstart` and `touchmove` handlers have the same body. They are one method, `PointerMove`, which takes the pointer's x relative to the canvas.
- **`checkCollisions`, as written.**
  - `forEach` visits the indices below the array's current length, because the arrays only shrink.
  - After a hit, the element that `splice` moves into the freed slot is skipped.
  - The `projectile` passed to the callback stays the same object for the whole inner pass, even after it has been spliced out.
  - So a second hit in the same pass splices whatever projectile now sits at `pIndex`.
  - `ShiftedProjectileIsSkipped` and `SecondHitRemovesNeighbour` show both effects on concrete inputs.
- **The breach test never fires.**
  - Every enemy starts at y = 0, and every enemy speed (2, 3, 4) divides 600, so no enemy passes `GAME_HEIGHT`.
  - An enemy that reaches y = 600 exactly does not trigger `e.y > GAME_HEIGHT` in `update`. The next frame's `filter(e => e.y < GAME_HEIGHT)` drops it without ending the game.
  - In every reachable state, game over can only come from an enemy touching the player.
  - `BreachNeverFires`, `EnemyReachesBottom` and `EnemyAtBottomIsDropped` state this.
  - The model keeps the test exactly as written.

## Model

| member | source | states |
|---|---|---|
| Geometry.CollidingIsSymmetric | game.js:273-278 | the overlap test gives the same answer with its arguments swapped |
| Geometry.TouchingOrApartDoesNotCollide | game.js:273-278 | the test is strict: boxes that share only an edge, or are apart on either axis, do not collide |
| Geometry.NonEmptyCollidesWithItself | game.js:273-278 | a box of positive width and height collides with itself |
| Geometry.CollidingIffCommonInteriorPoint | game.js:273-278 | for boxes of positive size, they collide exactly when some point lies strictly inside both |
| Difficulty.SettingsOf | game.js:216-235 | each level's spawn chance lies strictly between 0 and 1; its speed is positive and divides GAME_HEIGHT; its multiplier is 1 to 3 |
| Difficulty.Points | game.js:259 | one hit always pays a positive multiple of 10 |
| Difficulty.HarderIsStrictlyHarder | game.js:216-235 | a harder level spawns more often, falls faster and pays more per hit |
| Entities.PlayerStep | game.js:60-64 | the new x always lies in [0, GAME_WIDTH - 60]; it is exactly x + dx when that is in range, otherwise the nearer bound; y and dx are unchanged |
| Entities.ShotBounds | game.js:139-146 | a projectile's box is 10 × 20, horizontally centred on its x, with its top at its y |
| Entities.Player.constructor | game.js:52-58 | a new player is at the given position with zero velocity |
| Entities.Player.Update | game.js:60-64 | the object's new state is `PlayerStep` of its old state |
| Entities.Enemy.constructor | game.js:86-92 | a new enemy has the given position and speed |
| Entities.Enemy.Update | game.js:94-96 | the enemy falls by its own speed; x is unchanged |
| Entities.Projectile.constructor | game.js:118-124 | a new projectile is at the given position |
| Entities.Projectile.Update | game.js:126-128 | the projectile rises by 15; x is unchanged |
| Util.Splice | game.js:257-258 | `splice(i, 1)` removes exactly the element at `i`, keeping the order of the others; an index past the end removes nothing |
| Util.SpliceMultiset | game.js:257-258 | what `splice` leaves is the old contents less the removed element |
| Util.FilterMembers | game.js:284-286 | `filter` keeps exactly the elements that pass the test and never lengthens the list |
| Util.FilterAppend | game.js:284-286 | `filter` keeps the survivors in their original order: filtering a concatenation is the concatenation of the filtered parts |
| Collisions.InnerPass | game.js:255-262 | the inner `forEach` of one projectile never lengthens either list |
| Collisions.ProjectilePass | game.js:254-263 | the nested passes never lengthen either list |
| Collisions.InnerPassOnlyRemoves | game.js:255-262 | the inner pass only removes projectiles and enemies; it adds or alters none |
| Collisions.ProjectilePassOnlyRemoves | game.js:254-263 | the whole pass only removes projectiles and enemies |
| Collisions.InnerPassScore | game.js:256-259 | the inner pass adds `points` once per enemy it removes |
| Collisions.ProjectilePassScore | game.js:254-263 | the score grows by exactly `points` times the number of enemies removed |
| Collisions.InnerPassSparesMissed | game.js:256-258 | an enemy the projectile does not touch keeps its number of copies |
| Collisions.ProjectilePassSparesMissed | game.js:254-263 | an enemy that no projectile touches survives the pass |
| Collisions.InnerPassNoContact | game.js:255-262 | with no overlap, the inner pass changes nothing |
| Collisions.ProjectilePassNoContact | game.js:254-263 | with no projectile touching any enemy, the pass changes nothing |
| Collisions.SingleHit | game.js:254-263 | one projectile on one enemy: both are removed and one hit is scored |
| Collisions.ShiftedProjectileIsSkipped | game.js:254-263 | after a hit, the projectile shifted into the freed slot is never compared with the enemies this frame, although it overlaps one |
| Collisions.SecondHitRemovesNeighbour | game.js:255-259 | a projectile that hits two enemies in one inner pass also splices out the other projectile that moved into its index |
| Simulation.InitialSatisfiesInv | game.js:7-15 | the script's initial globals satisfy the invariant |
| Simulation.FallKeepsAligned | game.js:94-96 | an on-screen enemy that falls one step stays on its grid of multiples of its speed and does not pass the bottom |
| Simulation.ScoreStaysMultiple | game.js:259 | adding one hit's points any number of times keeps the score a non-negative multiple of them |
| Simulation.PreCollisionEnemiesAligned | game.js:286-295 | every enemy handed to `checkCollisions` is on the difficulty's grid |
| Simulation.StepPreservesInv | game.js:280-302 | the frame step keeps the invariant: score a non-negative multiple of one hit's points, enemies on their grid at or above the bottom |
| Simulation.HandlersPreserveInv | game.js:171-251 | click, pointer moves and the difficulty buttons keep the invariant |
| Simulation.IdleStepChangesNothing | game.js:281 | `update` returns the state unchanged unless a game is running |
| Simulation.SpawnAddsAtMostOne | game.js:289-295 | at most one enemy spawns per frame, exactly when the roll is below the spawn chance; it is at y = 0, at the difficulty's speed, with x in [0, 760) |
| Simulation.StepWithoutContact | game.js:283-297 | with no projectile touching an enemy, a frame drops the projectiles with y <= 0 and the enemies with y >= 600, moves each survivor once, appends the spawn and keeps the score |
| Simulation.ScoreNeverDecreases | game.js:253-263 | the frame step never lowers the score; click and pointer moves leave it alone; none of them changes the difficulty |
| Simulation.BreachNeverFires | game.js:299-301 | from a reachable running state, no enemy is past the bottom after a frame, so game over is set exactly when an enemy touches the player |
| Simulation.EnemyReachesBottom | game.js:286-301 | an Easy enemy at y = 598 falls to y = 600 and the game goes on |
| Simulation.EnemyAtBottomIsDropped | game.js:286-287 | the next frame removes that enemy without ending the game |
| Simulation.GameOverIsSticky | game.js:178-186 | once the game is over, neither a frame, nor a click, nor a pointer move clears it |
| Simulation.InitGameResets | game.js:150-156 | a difficulty button starts a fresh game: started, not over, score 0, both lists empty, the player at (370, 500), the chosen difficulty set |
| Simulation.ClickWhilePlaying | game.js:187-192 | during play a click appends exactly one projectile at (player.x + 30, player.y) and changes nothing else |
| Simulation.ClickAfterGameOver | game.js:179-186 | after game over a click only clears `gameStarted`; nothing is fired |
| Simulation.PointerMoveIsUnclamped | game.js:171-176 | during play a pointer move centres the player on the pointer with no clamp; the next frame brings it back on screen |
| GameState.Game.constructor | game.js:7-15 | a new game state is the initial one |
| GameState.Game.InitGame | game.js:150-156 | the state after `initGame` is `Simulation.InitGame` of the old one, with a new player object |
| GameState.Game.ChooseDifficulty | game.js:238-251 | a difficulty button sets the level, then runs `initGame` |
| GameState.Game.PointerMove | game.js:171-176 | the handler moves the player as `Simulation.PointerMove` says |
| GameState.Game.Click | game.js:178-194 | the handler changes the state as `Simulation.Click` says |
| GameState.Game.RemovePair | game.js:257-259 | a hit splices both lists at their indices and adds the points |
| GameState.Game.HitTest | game.js:255-262 | one projectile's inner loop changes the lists and score exactly as `InnerPass` |
| GameState.Game.HitTests | game.js:254-263 | the outer loop changes the lists and score exactly as `ProjectilePass` |
| GameState.Game.PlayerTest | game.js:265-270 | game over is set exactly when some enemy touches the player; nothing else changes |
| GameState.Game.CheckCollisions | game.js:253-271 | `checkCollisions` leaves the state the projectile pass produces, with game over also set when an enemy touches the player |
| GameState.Game.FilterProjectiles | game.js:284 | the projectile list becomes `Filter(shots, y > 0)`, made of the old objects |
| GameState.Game.MoveProjectiles | game.js:285 | every projectile rises one step |
| GameState.Game.FilterEnemies | game.js:286 | the enemy list becomes `Filter(enemies, y < 600)`, made of the old objects |
| GameState.Game.MoveEnemies | game.js:287 | every enemy falls one step |
| GameState.Game.SpawnEnemy | game.js:289-295 | the enemy list gains exactly the `Spawned` enemy, if any |
| GameState.Game.MovePlayer | game.js:283 | the player takes one `PlayerStep` |
| GameState.Game.EndIfBreached | game.js:299-301 | game over is set when some enemy is past the bottom |
| GameState.Game.Update | game.js:280-302 | one call of `update` changes the state exactly as `Simulation.Step`, so every `Step` lemma holds for it |

## Left out

- Drawing: the `draw` methods, `draw()`, text, overlays, the star field and image loading. They only present the state.
- Audio: `playSound` and the `sounds` elements. They are browser calls with no effect on the state.
- DOM wiring: element lookup, menu visibility, listener registration and `getBoundingClientRect`. The handlers take the pointer's canvas x as a parameter instead.
- `requestAnimationFrame` and `gameLoop`. One `Update` call is one frame.
- `Math.random()`. It is the parameters `roll` and `pick`, not a generator.
- IEEE floating point. Coordinates are exact reals and integers, because the logic only adds, subtracts and compares.
- The difficulty `color` strings. They are cosmetic.
- `PLAYER_SPEED` and `stars`. The script declares them but no modelled code uses them. Nothing sets `player.dx` after construction, so `PlayerStep` is modelled for any `dx`.
- GameState.Game.InitGame: requires a difficulty to be set. The script calls `initGame` only from the difficulty buttons, right after they set `difficulty`. Without one, the next `update` would index `DIFFICULTY_SETTINGS` with `null`.
- Error behaviour of the script when `player` is undefined. No modelled handler can reach those paths: each returns before touching `player` unless a game has started.
