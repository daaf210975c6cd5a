/** The global state of game.js and the code that changes it in place: the frame
    step `update` with `checkCollisions`, `initGame`, the difficulty buttons and
    the canvas input handlers. Each method is proved to move the state exactly as
    the matching function of module Simulation says. */
module GameState {
  import opened Util
  import opened Geometry
  import opened Difficulty
  import opened Entities
  import opened Collisions
  import opened Simulation

  lemma ShotViewsSnoc(s: seq<Projectile>, x: Projectile)
    ensures ShotViews(s + [x]) == ShotViews(s) + [x.State()]
  {
  }

  lemma EnemyViewsSnoc(s: seq<Enemy>, x: Enemy)
    ensures EnemyViews(s + [x]) == EnemyViews(s) + [x.State()]
  {
  }

  lemma ShotViewsSplice(s: seq<Projectile>, i: nat)
    ensures ShotViews(Splice(s, i)) == Splice(ShotViews(s), i)
  {
  }

  lemma EnemyViewsSplice(s: seq<Enemy>, i: nat)
    ensures EnemyViews(Splice(s, i)) == Splice(EnemyViews(s), i)
  {
  }

  class Game {
    var gameStarted: bool
    var gameOver: bool
    var score: int
    var difficulty: Option<Level>
    var player: Player?
    var enemies: seq<Enemy>
    var projectiles: seq<Projectile>

    ghost predicate Valid()
      reads this
    {
      (gameStarted ==> player != null && difficulty.Some?) &&
      Distinct(enemies) && Distinct(projectiles)
    }

    /** The state as a value. */
    function Snapshot(): World
      reads this, player, enemies, projectiles
    {
      World(gameStarted, gameOver, score, difficulty,
            if player == null then None else Some(player.State()),
            EnemyViews(enemies), ShotViews(projectiles))
    }

    /** The part of the state `checkCollisions` changes. */
    function Field(): Arena
      reads this, enemies, projectiles
    {
      Arena(ShotViews(projectiles), EnemyViews(enemies), score)
    }

    constructor ()
      ensures Valid() && Snapshot() == INITIAL
    {
      gameStarted, gameOver, score := false, false, 0;
      difficulty, player := None, null;
      enemies, projectiles := [], [];
    }

    /** `initGame`. */
    method InitGame()
      requires difficulty.Some?
      modifies this
      ensures Valid() && fresh(player)
      ensures Snapshot() == Simulation.InitGame(old(Snapshot()))
    {
      player := new Player((GAME_WIDTH / 2 - 30) as real, GAME_HEIGHT - 100);
      enemies := [];
      projectiles := [];
      score := 0;
      gameOver := false;
      gameStarted := true;
    }

    /** A difficulty button: `difficulty = 'EASY'` (or another level), then `initGame()`. */
    method ChooseDifficulty(d: Level)
      modifies this
      ensures Valid()
      ensures Snapshot() == Simulation.ChooseDifficulty(old(Snapshot()), d)
    {
      difficulty := Some(d);
      InitGame();
    }

    /** The `mousemove`, `touchstart` and `touchmove` handlers; `px` is the pointer's x
        relative to the canvas. */
    method PointerMove(px: real)
      requires Valid()
      modifies player
      ensures Valid()
      ensures Snapshot() == Simulation.PointerMove(old(Snapshot()), px)
    {
      if !gameStarted || gameOver { return; }
      player.x := px - (player.width as real) / 2.0;
    }

    /** The canvas `click` handler. */
    method Click()
      requires Valid()
      modifies this
      ensures Valid()
      ensures Snapshot() == Simulation.Click(old(Snapshot()))
    {
      if gameOver {
        gameStarted := false;
        return;
      }
      if !gameStarted { return; }
      ghost var w := Snapshot();
      var p := new Projectile(player.x + (player.width as real) / 2.0, player.y);
      ShotViewsSnoc(projectiles, p);
      assert p !in projectiles;
      projectiles := projectiles + [p];
      assert EnemyViews(enemies) == w.enemies && player.State() == w.player.value;
      assert ShotViews(projectiles) == w.shots + [p.State()];
    }

    /** A hit: `projectiles.splice(pIndex, 1)`, `enemies.splice(eIndex, 1)` and the
        score increase. */
    method RemovePair(p: nat, e: nat, points: int)
      requires Valid()
      modifies this
      ensures Valid()
      ensures gameStarted == old(gameStarted) && gameOver == old(gameOver)
      ensures difficulty == old(difficulty) && player == old(player)
      ensures projectiles == Splice(old(projectiles), p) && enemies == Splice(old(enemies), e)
      ensures Field() == Arena(Splice(old(Field()).shots, p), Splice(old(Field()).enemies, e), old(score) + points)
    {
      ShotViewsSplice(projectiles, p);
      EnemyViewsSplice(enemies, e);
      SpliceKeepsDistinct(projectiles, p);
      SpliceKeepsDistinct(enemies, e);
      projectiles := Splice(projectiles, p);
      enemies := Splice(enemies, e);
      score := score + points;
    }

    /** One turn of the outer `forEach` of `checkCollisions`: projectile `p` (held
        in a local for the whole turn) against the enemies, walking their current
        length and splicing both lists at each hit. */
    method HitTest(p: nat, points: int)
      requires Valid() && p < |projectiles|
      modifies this
      ensures Valid()
      ensures gameStarted == old(gameStarted) && gameOver == old(gameOver)
      ensures difficulty == old(difficulty) && player == old(player)
      ensures Field() == InnerPass(old(projectiles[p].State()), p, old(Field()), 0, points)
    {
      var projectile := projectiles[p];
      ghost var shot := projectile.State();
      ghost var arena := Field();
      ghost var goal := InnerPass(shot, p, arena, 0, points);
      var e := 0;
      while e < |enemies|
        invariant Valid()
        invariant gameStarted == old(gameStarted) && gameOver == old(gameOver)
        invariant difficulty == old(difficulty) && player == old(player)
        invariant projectile.State() == shot
        invariant Field() == arena
        invariant InnerPass(shot, p, arena, e, points) == goal
        decreases |enemies| - e
      {
        assert arena.enemies[e] == enemies[e].State();
        if IsColliding(ShotBounds(projectile.State()), EnemyBounds(enemies[e].State())) {
          arena := Arena(Splice(arena.shots, p), Splice(arena.enemies, e), arena.score + points);
          RemovePair(p, e, points);
        }
        e := e + 1;
      }
    }

    /** The outer `projectiles.forEach` of `checkCollisions`, walking the current
        length of the list. */
    method HitTests(points: int)
      requires Valid()
      modifies this
      ensures Valid()
      ensures gameStarted == old(gameStarted) && gameOver == old(gameOver)
      ensures difficulty == old(difficulty) && player == old(player)
      ensures Field() == ProjectilePass(old(Field()), 0, points)
    {
      ghost var goal := ProjectilePass(Field(), 0, points);
      var p := 0;
      while p < |projectiles|
        invariant Valid()
        invariant gameStarted == old(gameStarted) && gameOver == old(gameOver)
        invariant difficulty == old(difficulty) && player == old(player)
        invariant ProjectilePass(Field(), p, points) == goal
        decreases |projectiles| - p
      {
        HitTest(p, points);
        p := p + 1;
      }
    }

    /** The last loop of `checkCollisions`: any enemy touching the player ends the game. */
    method PlayerTest()
      requires Valid() && gameStarted
      modifies this
      ensures Valid()
      ensures gameStarted && difficulty == old(difficulty) && player == old(player)
      ensures Field() == old(Field())
      ensures gameOver == (old(gameOver) || PlayerStruck(player.State(), EnemyViews(enemies)))
    {
      for i := 0 to |enemies|
        invariant Valid() && gameStarted && difficulty == old(difficulty) && player == old(player)
        invariant Field() == old(Field())
        invariant gameOver == (old(gameOver) || exists k :: 0 <= k < i && IsColliding(PlayerBounds(player.State()), EnemyBounds(enemies[k].State())))
      {
        if IsColliding(PlayerBounds(player.State()), EnemyBounds(enemies[i].State())) {
          gameOver := true;
        }
      }
    }

    /** `checkCollisions`. */
    method CheckCollisions()
      requires Valid() && gameStarted
      modifies this
      ensures Valid()
      ensures var w := old(Snapshot());
              var a := ProjectilePass(Arena(w.shots, w.enemies, w.score), 0, Points(w.difficulty.value));
              Snapshot() == w.(shots := a.shots, enemies := a.enemies, score := a.score,
                               over := w.over || PlayerStruck(w.player.value, a.enemies))
    {
      ghost var w := Snapshot();
      assert Field() == Arena(w.shots, w.enemies, w.score);
      HitTests(10 * SettingsOf(difficulty.value).scoreMultiplier);
      PlayerTest();
    }

    /** `projectiles = projectiles.filter(p => p.y > 0)`. */
    method FilterProjectiles()
      requires Valid()
      modifies this
      ensures Valid()
      ensures enemies == old(enemies)
      ensures forall k :: 0 <= k < |projectiles| ==> projectiles[k] in old(projectiles)
      ensures Snapshot() == old(Snapshot()).(shots := Filter(old(Snapshot()).shots, InFlight))
    {
      ghost var shots0 := ShotViews(projectiles);
      var kept: seq<Projectile> := [];
      for i := 0 to |projectiles|
        modifies {}
        invariant ShotViews(kept) == Filter(shots0[..i], InFlight)
        invariant Distinct(kept)
        invariant forall k :: 0 <= k < |kept| ==> kept[k] in projectiles[..i]
      {
        assert shots0[..i + 1] == shots0[..i] + [shots0[i]];
        FilterSnoc(shots0[..i], shots0[i], InFlight);
        if projectiles[i].y > 0 {
          ShotViewsSnoc(kept, projectiles[i]);
          kept := kept + [projectiles[i]];
        }
      }
      assert shots0[..|projectiles|] == shots0;
      ghost var w := Snapshot();
      ghost var views := ShotViews(kept);
      projectiles := kept;
      assert ShotViews(projectiles) == views;
      assert Snapshot() == w.(shots := views);
    }

    /** `projectiles.forEach(p => p.update())`. */
    method MoveProjectiles()
      requires Valid()
      modifies projectiles
      ensures Valid()
      ensures Snapshot() == old(Snapshot()).(shots := AdvanceShots(old(Snapshot()).shots))
    {
      ghost var live := ShotViews(projectiles);
      for i := 0 to |projectiles|
        invariant forall k :: 0 <= k < i ==> projectiles[k].State() == ShotStep(live[k])
        invariant forall k :: i <= k < |projectiles| ==> projectiles[k].State() == live[k]
      {
        projectiles[i].Update();
      }
    }

    /** `enemies = enemies.filter(e => e.y < GAME_HEIGHT)`. */
    method FilterEnemies()
      requires Valid()
      modifies this
      ensures Valid()
      ensures forall k :: 0 <= k < |enemies| ==> enemies[k] in old(enemies)
      ensures Snapshot() == old(Snapshot()).(enemies := Filter(old(Snapshot()).enemies, OnScreen))
    {
      ghost var enemies0 := EnemyViews(enemies);
      var kept: seq<Enemy> := [];
      for i := 0 to |enemies|
        modifies {}
        invariant EnemyViews(kept) == Filter(enemies0[..i], OnScreen)
        invariant Distinct(kept)
        invariant forall k :: 0 <= k < |kept| ==> kept[k] in enemies[..i]
      {
        assert enemies0[..i + 1] == enemies0[..i] + [enemies0[i]];
        FilterSnoc(enemies0[..i], enemies0[i], OnScreen);
        if enemies[i].y < GAME_HEIGHT {
          EnemyViewsSnoc(kept, enemies[i]);
          kept := kept + [enemies[i]];
        }
      }
      assert enemies0[..|enemies|] == enemies0;
      ghost var w := Snapshot();
      ghost var views := EnemyViews(kept);
      enemies := kept;
      assert EnemyViews(enemies) == views;
      assert Snapshot() == w.(enemies := views);
    }

    /** `enemies.forEach(e => e.update())`. */
    method MoveEnemies()
      requires Valid()
      modifies enemies
      ensures Valid()
      ensures Snapshot() == old(Snapshot()).(enemies := AdvanceEnemies(old(Snapshot()).enemies))
    {
      ghost var live := EnemyViews(enemies);
      for i := 0 to |enemies|
        invariant forall k :: 0 <= k < i ==> enemies[k].State() == EnemyStep(live[k])
        invariant forall k :: i <= k < |enemies| ==> enemies[k].State() == live[k]
      {
        enemies[i].Update();
      }
    }

    /** The spawn in `update`: with probability `enemySpawnChance` a new enemy at the
        top, at a random x; `roll` and `pick` are the two `Math.random()` draws. */
    method SpawnEnemy(roll: real, pick: real)
      requires Valid() && gameStarted
      requires 0.0 <= roll < 1.0 && 0.0 <= pick < 1.0
      modifies this
      ensures Valid()
      ensures Snapshot() == old(Snapshot()).(enemies := old(Snapshot()).enemies + Spawned(old(difficulty.value), roll, pick))
    {
      var settings := SettingsOf(difficulty.value);
      if roll < settings.enemySpawnChance {
        var enemy := new Enemy(pick * ((GAME_WIDTH - 40) as real), 0, settings.enemySpeed);
        EnemyViewsSnoc(enemies, enemy);
        enemies := enemies + [enemy];
      }
    }

    /** `player.update()`. */
    method MovePlayer()
      requires Valid() && gameStarted
      modifies player
      ensures Valid()
      ensures Snapshot() == old(Snapshot()).(player := Some(PlayerStep(old(Snapshot()).player.value)))
    {
      player.Update();
    }

    /** `if (enemies.some(e => e.y > GAME_HEIGHT)) gameOver = true`. */
    method EndIfBreached()
      requires Valid()
      modifies this
      ensures Valid()
      ensures Snapshot() == old(Snapshot()).(over := old(gameOver) || Breached(old(Snapshot()).enemies))
    {
      if Breached(EnemyViews(enemies)) {
        gameOver := true;
      }
    }

    /** `update`: one animation frame; `roll` and `pick` are the two `Math.random()`
        draws of the spawn. */
    method Update(roll: real, pick: real)
      requires Valid()
      requires 0.0 <= roll < 1.0 && 0.0 <= pick < 1.0
      modifies this, player, enemies, projectiles
      ensures Valid()
      ensures Snapshot() == Step(old(Snapshot()), roll, pick)
    {
      if !gameStarted || gameOver { return; }
      ghost var w0 := Snapshot();
      ghost var d := w0.difficulty.value;
      MovePlayer();
      ghost var w1 := Snapshot();
      FilterProjectiles();
      MoveProjectiles();
      ghost var w2 := Snapshot();
      assert w2 == w1.(shots := AdvanceShots(Filter(w0.shots, InFlight)));
      FilterEnemies();
      MoveEnemies();
      SpawnEnemy(roll, pick);
      ghost var w3 := Snapshot();
      assert w3 == w2.(enemies := AdvanceEnemies(Filter(w0.enemies, OnScreen)) + Spawned(d, roll, pick));
      CheckCollisions();
      ghost var w4 := Snapshot();
      EndIfBreached();
    }
  }
}
