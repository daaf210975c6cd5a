/** The game of game.js as a state machine over values: the global state
    (`gameStarted`, `gameOver`, `score`, `difficulty`, `player`, `enemies`,
    `projectiles`) is one `World`, and the frame step `update` and each input
    handler is a function from the old `World` to the new one. */
module Simulation {
  import opened Util
  import opened Geometry
  import opened Difficulty
  import opened Entities
  import opened Collisions

  datatype World = World(
    started: bool,
    over: bool,
    score: int,
    difficulty: Option<Level>,
    player: Option<PlayerState>,
    enemies: seq<EnemyState>,
    shots: seq<ShotState>)

  /** The globals as the script leaves them before any button is pressed. */
  const INITIAL: World := World(false, false, 0, None, None, [], [])

  /** Where `initGame` puts the player: `GAME_WIDTH / 2 - 30`, `GAME_HEIGHT - 100`. */
  const START_X: real := (GAME_WIDTH / 2 - 30) as real
  const START_Y: int := GAME_HEIGHT - 100

  /** `Math.random() * (GAME_WIDTH - 40)` ranges over [0, SPAWN_RANGE). */
  const SPAWN_RANGE: real := (GAME_WIDTH - ENEMY_WIDTH) as real

  /** A started game has a player and a difficulty (both are set before `gameStarted`). */
  ghost predicate Wf(w: World) {
    w.started ==> w.player.Some? && w.difficulty.Some?
  }

  /** The `filter` conditions of `update`. */
  predicate InFlight(s: ShotState) { s.y > 0 }
  predicate OnScreen(e: EnemyState) { e.y < GAME_HEIGHT }

  /** The `forEach(p => p.update())` passes, on values. */
  function AdvanceShots(s: seq<ShotState>): (r: seq<ShotState>)
    ensures |r| == |s| && forall i :: 0 <= i < |s| ==> r[i] == ShotStep(s[i])
  {
    seq(|s|, i requires 0 <= i < |s| => ShotStep(s[i]))
  }

  function AdvanceEnemies(s: seq<EnemyState>): (r: seq<EnemyState>)
    ensures |r| == |s| && forall i :: 0 <= i < |s| ==> r[i] == EnemyStep(s[i])
  {
    seq(|s|, i requires 0 <= i < |s| => EnemyStep(s[i]))
  }

  /** The spawn roll: `roll` and `pick` are the two `Math.random()` draws. */
  function Spawned(d: Level, roll: real, pick: real): seq<EnemyState>
  {
    if roll < SettingsOf(d).enemySpawnChance then [EnemyState(pick * SPAWN_RANGE, 0, SettingsOf(d).enemySpeed)]
    else []
  }

  /** `enemies.some(e => e.y > GAME_HEIGHT)`. */
  predicate Breached(enemies: seq<EnemyState>) {
    exists i :: 0 <= i < |enemies| && enemies[i].y > GAME_HEIGHT
  }

  /** `update`: one animation frame. */
  function Step(w: World, roll: real, pick: real): World
    requires Wf(w)
    requires 0.0 <= roll < 1.0 && 0.0 <= pick < 1.0
  {
    if !w.started || w.over then w
    else
      var d := w.difficulty.value;
      var player := PlayerStep(w.player.value);
      var shots := AdvanceShots(Filter(w.shots, InFlight));
      var enemies := AdvanceEnemies(Filter(w.enemies, OnScreen)) + Spawned(d, roll, pick);
      var a := ProjectilePass(Arena(shots, enemies, w.score), 0, Points(d));
      w.(player := Some(player), shots := a.shots, enemies := a.enemies, score := a.score,
         over := PlayerStruck(player, a.enemies) || Breached(a.enemies))
  }

  /** The canvas `click` handler. */
  function Click(w: World): World
    requires Wf(w)
  {
    if w.over then w.(started := false)
    else if !w.started then w
    else
      var p := w.player.value;
      w.(shots := w.shots + [ShotState(p.x + (PLAYER_WIDTH as real) / 2.0, p.y)])
  }

  /** The `mousemove`, `touchstart` and `touchmove` handlers; `px` is the pointer's
      x relative to the canvas. There is no clamp here. */
  function PointerMove(w: World, px: real): World
    requires Wf(w)
  {
    if !w.started || w.over then w
    else w.(player := Some(w.player.value.(x := px - (PLAYER_WIDTH as real) / 2.0)))
  }

  /** `initGame`. */
  function InitGame(w: World): World {
    World(true, false, 0, w.difficulty, Some(PlayerState(START_X, START_Y, 0.0)), [], [])
  }

  /** The three difficulty buttons: set `difficulty`, then `initGame`. */
  function ChooseDifficulty(w: World, d: Level): World {
    InitGame(w.(difficulty := Some(d)))
  }

  // ---------------------------------------------------------------------------
  // Invariant of every reachable state

  /** Enemies of the current difficulty fall from y = 0 in steps of their speed and
      never get past the bottom edge. */
  ghost predicate Aligned(e: EnemyState, d: Level) {
    e.speed == SettingsOf(d).enemySpeed && 0 <= e.y <= GAME_HEIGHT && e.y % e.speed == 0
  }

  ghost predicate Inv(w: World) {
    Wf(w) &&
    match w.difficulty
    case None => w.score == 0 && w.enemies == []
    case Some(d) =>
      0 <= w.score && w.score % Points(d) == 0 &&
      forall e :: e in w.enemies ==> Aligned(e, d)
  }

  lemma InitialSatisfiesInv()
    ensures Inv(INITIAL)
  {
  }

  lemma FallKeepsAligned(e: EnemyState, d: Level)
    requires Aligned(e, d) && OnScreen(e)
    ensures Aligned(EnemyStep(e), d)
  {
    match d
    case Easy =>
    case Medium =>
    case Hard =>
  }

  /** Adding `points` per removed enemy keeps the score a non-negative multiple of `Points(d)`. */
  lemma ScoreStaysMultiple(score: int, d: Level, k: nat)
    requires 0 <= score && score % Points(d) == 0
    ensures 0 <= score + Points(d) * k && (score + Points(d) * k) % Points(d) == 0
  {
    match d
    case Easy =>
    case Medium =>
    case Hard =>
  }

  /** The enemy list handed to the projectile pass is aligned. */
  lemma PreCollisionEnemiesAligned(w: World, d: Level, roll: real, pick: real)
    requires Inv(w) && w.difficulty == Some(d)
    ensures forall e :: e in AdvanceEnemies(Filter(w.enemies, OnScreen)) + Spawned(d, roll, pick) ==> Aligned(e, d)
  {
    var kept := Filter(w.enemies, OnScreen);
    FilterMembers(w.enemies, OnScreen);
    var moved := AdvanceEnemies(kept);
    forall e | e in moved + Spawned(d, roll, pick) ensures Aligned(e, d) {
      if e in moved {
        var i :| 0 <= i < |moved| && moved[i] == e;
        assert kept[i] in kept;
        FallKeepsAligned(kept[i], d);
      }
    }
  }

  /** `update` keeps the invariant. */
  lemma StepPreservesInv(w: World, roll: real, pick: real)
    requires Inv(w) && 0.0 <= roll < 1.0 && 0.0 <= pick < 1.0
    ensures Inv(Step(w, roll, pick))
  {
    if w.started && !w.over {
      var d := w.difficulty.value;
      var shots := AdvanceShots(Filter(w.shots, InFlight));
      var enemies := AdvanceEnemies(Filter(w.enemies, OnScreen)) + Spawned(d, roll, pick);
      var a0 := Arena(shots, enemies, w.score);
      var a := ProjectilePass(a0, 0, Points(d));
      PreCollisionEnemiesAligned(w, d, roll, pick);
      ProjectilePassOnlyRemoves(a0, 0, Points(d));
      ProjectilePassScore(a0, 0, Points(d));
      ScoreStaysMultiple(w.score, d, |enemies| - |a.enemies|);
      forall e | e in a.enemies ensures Aligned(e, d) {
        assert multiset(a.enemies)[e] > 0;
        assert multiset(enemies)[e] > 0;
      }
    }
  }

  /** The handlers keep the invariant. */
  lemma HandlersPreserveInv(w: World, px: real, d: Level)
    requires Inv(w)
    ensures Inv(Click(w)) && Inv(PointerMove(w, px)) && Inv(ChooseDifficulty(w, d))
  {
  }

  // ---------------------------------------------------------------------------
  // Properties of the frame step

  /** `update` returns at once unless a game is running. */
  lemma IdleStepChangesNothing(w: World, roll: real, pick: real)
    requires Wf(w) && 0.0 <= roll < 1.0 && 0.0 <= pick < 1.0
    requires !w.started || w.over
    ensures Step(w, roll, pick) == w
  {
  }

  /** The spawn roll adds at most one enemy, at the top, at the difficulty's speed,
      with x in [0, 760). */
  lemma SpawnAddsAtMostOne(d: Level, roll: real, pick: real)
    requires 0.0 <= roll < 1.0 && 0.0 <= pick < 1.0
    ensures |Spawned(d, roll, pick)| <= 1
    ensures |Spawned(d, roll, pick)| == 1 <==> roll < SettingsOf(d).enemySpawnChance
    ensures forall e :: e in Spawned(d, roll, pick) ==>
              e.y == 0 && e.speed == SettingsOf(d).enemySpeed && 0.0 <= e.x < SPAWN_RANGE
  {
  }

  /** When no projectile touches any enemy in a frame, the frame is exactly: drop
      the projectiles with y <= 0 and the enemies with y >= GAME_HEIGHT, move each
      survivor once, append the spawn, keep the score. */
  lemma StepWithoutContact(w: World, roll: real, pick: real)
    requires Wf(w) && 0.0 <= roll < 1.0 && 0.0 <= pick < 1.0
    requires w.started && !w.over
    requires var d := w.difficulty.value;
             var shots := AdvanceShots(Filter(w.shots, InFlight));
             var enemies := AdvanceEnemies(Filter(w.enemies, OnScreen)) + Spawned(d, roll, pick);
             forall s, v :: s in shots && v in enemies ==> !IsColliding(ShotBounds(s), EnemyBounds(v))
    ensures var r := Step(w, roll, pick);
            var d := w.difficulty.value;
            r.shots == AdvanceShots(Filter(w.shots, InFlight)) &&
            r.enemies == AdvanceEnemies(Filter(w.enemies, OnScreen)) + Spawned(d, roll, pick) &&
            r.score == w.score && r.started
  {
    var d := w.difficulty.value;
    var shots := AdvanceShots(Filter(w.shots, InFlight));
    var enemies := AdvanceEnemies(Filter(w.enemies, OnScreen)) + Spawned(d, roll, pick);
    ProjectilePassNoContact(Arena(shots, enemies, w.score), 0, Points(d));
  }

  /** Within a game the score never goes down: `update` only adds `Points(d)` per
      destroyed enemy, and the handlers other than the difficulty buttons leave it alone. */
  lemma ScoreNeverDecreases(w: World, roll: real, pick: real, px: real)
    requires Wf(w) && 0.0 <= roll < 1.0 && 0.0 <= pick < 1.0
    ensures Step(w, roll, pick).score >= w.score
    ensures Click(w).score == w.score && PointerMove(w, px).score == w.score
    ensures Step(w, roll, pick).difficulty == Click(w).difficulty == PointerMove(w, px).difficulty == w.difficulty
  {
    if w.started && !w.over {
      var d := w.difficulty.value;
      var shots := AdvanceShots(Filter(w.shots, InFlight));
      var enemies := AdvanceEnemies(Filter(w.enemies, OnScreen)) + Spawned(d, roll, pick);
      var a0 := Arena(shots, enemies, w.score);
      var a := ProjectilePass(a0, 0, Points(d));
      ProjectilePassScore(a0, 0, Points(d));
      ScoreStaysMultiple(0, d, |enemies| - |a.enemies|);
    }
  }

  /** The breach test of `update` never fires in a reachable state: enemies start at
      y = 0 and fall by a speed that divides GAME_HEIGHT, so none passes y = GAME_HEIGHT;
      one that reaches it exactly is dropped by the next frame's filter. Game over
      therefore comes only from an enemy touching the player. */
  lemma BreachNeverFires(w: World, roll: real, pick: real)
    requires Inv(w) && 0.0 <= roll < 1.0 && 0.0 <= pick < 1.0
    requires w.started && !w.over
    ensures !Breached(Step(w, roll, pick).enemies)
    ensures Step(w, roll, pick).over == PlayerStruck(Step(w, roll, pick).player.value, Step(w, roll, pick).enemies)
  {
    StepPreservesInv(w, roll, pick);
    var r := Step(w, roll, pick);
    forall i | 0 <= i < |r.enemies| ensures r.enemies[i].y <= GAME_HEIGHT {
      assert r.enemies[i] in r.enemies;
    }
  }

  /** A running Easy game with the player at its start position, no projectiles
      and the given enemies. */
  function EasyFrame(enemies: seq<EnemyState>): World {
    World(true, false, 0, Some(Easy), Some(PlayerState(START_X, START_Y, 0.0)), enemies, [])
  }

  /** An enemy two pixels above the bottom edge falls to y = GAME_HEIGHT exactly,
      the breach test `e.y > GAME_HEIGHT` does not fire, and the game goes on. */
  lemma EnemyReachesBottom()
    ensures Step(EasyFrame([EnemyState(0.0, 598, 2)]), 0.5, 0.0) == EasyFrame([EnemyState(0.0, 600, 2)])
  {
    var player := PlayerState(START_X, START_Y, 0.0);
    var e0, e1 := EnemyState(0.0, 598, 2), EnemyState(0.0, 600, 2);
    assert PlayerStep(player) == player;
    assert Spawned(Easy, 0.5, 0.0) == [];
    FilterSnoc([], e0, OnScreen);
    assert AdvanceEnemies(Filter([e0], OnScreen)) == [e1];
    assert ProjectilePass(Arena([], [e1], 0), 0, Points(Easy)) == Arena([], [e1], 0);
    assert !PlayerStruck(player, [e1]) by {
      assert !IsColliding(PlayerBounds(player), EnemyBounds(e1));
    }
    assert !Breached([e1]);
  }

  /** The next frame's `filter(e => e.y < GAME_HEIGHT)` drops that enemy silently:
      it leaves the screen without ending the game. */
  lemma EnemyAtBottomIsDropped()
    ensures Step(EasyFrame([EnemyState(0.0, 600, 2)]), 0.5, 0.0) == EasyFrame([])
  {
    var player := PlayerState(START_X, START_Y, 0.0);
    var e1 := EnemyState(0.0, 600, 2);
    assert PlayerStep(player) == player;
    assert Spawned(Easy, 0.5, 0.0) == [];
    FilterSnoc([], e1, OnScreen);
    assert AdvanceEnemies(Filter([e1], OnScreen)) == [];
    assert ProjectilePass(Arena([], [], 0), 0, Points(Easy)) == Arena([], [], 0);
  }

  // ---------------------------------------------------------------------------
  // Properties of the handlers and of game over

  /** Game over is one-way: only the difficulty buttons (through `initGame`) clear it. */
  lemma GameOverIsSticky(w: World, roll: real, pick: real, px: real)
    requires Wf(w) && 0.0 <= roll < 1.0 && 0.0 <= pick < 1.0
    requires w.over
    ensures Step(w, roll, pick).over && Click(w).over && PointerMove(w, px).over
  {
  }

  /** `initGame` starts a fresh game: started, not over, score 0, no enemies or
      projectiles, the player at its start position, the chosen difficulty kept. */
  lemma InitGameResets(w: World, d: Level)
    ensures var r := ChooseDifficulty(w, d);
            r.started && !r.over && r.score == 0 && r.enemies == [] && r.shots == [] &&
            r.difficulty == Some(d) && r.player == Some(PlayerState(START_X, START_Y, 0.0)) && Inv(r)
  {
  }

  /** A click during play fires exactly one projectile from the middle of the
      player's top edge and changes nothing else. */
  lemma ClickWhilePlaying(w: World)
    requires Wf(w) && w.started && !w.over
    ensures var r := Click(w);
            var p := w.player.value;
            |r.shots| == |w.shots| + 1 && r.shots[..|w.shots|] == w.shots &&
            r.shots[|w.shots|] == ShotState(p.x + 30.0, p.y) &&
            r.enemies == w.enemies && r.score == w.score && r.player == w.player &&
            r.started && !r.over
  {
  }

  /** A click after game over only returns to the menu: nothing is fired. */
  lemma ClickAfterGameOver(w: World)
    requires Wf(w) && w.over
    ensures Click(w) == w.(started := false)
  {
  }

  /** Pointer moves during play centre the player on the pointer without clamping,
      and the next frame's `Player.update` brings it back on screen. */
  lemma PointerMoveIsUnclamped(w: World, px: real, roll: real, pick: real)
    requires Wf(w) && w.started && !w.over && 0.0 <= roll < 1.0 && 0.0 <= pick < 1.0
    ensures var r := PointerMove(w, px);
            r.player.value.x == px - 30.0 && r.player.value.y == w.player.value.y &&
            r == w.(player := r.player)
    ensures var r := PointerMove(w, px);
            var p := Step(r, roll, pick).player.value;
            0.0 <= p.x <= MAX_PLAYER_X
  {
  }
}
