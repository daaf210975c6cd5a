/** The three game objects of game.js (`Player`, `Enemy`, `Projectile`): a value
    view of each (its state, its `update` step and its `getBounds` box) and the
    mutable class whose `update` method changes the object in place. */
module Entities {
  import opened Geometry

  const PLAYER_WIDTH: int := 60
  const PLAYER_HEIGHT: int := 60
  const ENEMY_WIDTH: int := 40
  const ENEMY_HEIGHT: int := 40
  const PROJECTILE_WIDTH: int := 10
  const PROJECTILE_HEIGHT: int := 20
  const PROJECTILE_SPEED: int := 15

  /** Rightmost x the clamp in `Player.update` allows. */
  const MAX_PLAYER_X: real := (GAME_WIDTH - PLAYER_WIDTH) as real

  datatype PlayerState = PlayerState(x: real, y: int, dx: real)
  datatype EnemyState = EnemyState(x: real, y: int, speed: int)
  datatype ShotState = ShotState(x: real, y: int)

  /** `Player.update`: apply the velocity, then clamp to the screen. */
  function PlayerStep(p: PlayerState): (r: PlayerState)
    ensures 0.0 <= r.x <= MAX_PLAYER_X
    ensures 0.0 <= p.x + p.dx <= MAX_PLAYER_X ==> r.x == p.x + p.dx
    ensures p.x + p.dx < 0.0 ==> r.x == 0.0
    ensures p.x + p.dx > MAX_PLAYER_X ==> r.x == MAX_PLAYER_X
    ensures r.y == p.y && r.dx == p.dx
  {
    var x := p.x + p.dx;
    var x := if x < 0.0 then 0.0 else x;
    var x := if x > MAX_PLAYER_X then MAX_PLAYER_X else x;
    p.(x := x)
  }

  /** `Enemy.update`: fall by the enemy's own speed. */
  function EnemyStep(e: EnemyState): EnemyState {
    e.(y := e.y + e.speed)
  }

  /** `Projectile.update`: rise by the fixed projectile speed. */
  function ShotStep(s: ShotState): ShotState {
    s.(y := s.y - PROJECTILE_SPEED)
  }

  function PlayerBounds(p: PlayerState): Rect {
    Rect(p.x, p.y as real, PLAYER_WIDTH as real, PLAYER_HEIGHT as real)
  }

  function EnemyBounds(e: EnemyState): Rect {
    Rect(e.x, e.y as real, ENEMY_WIDTH as real, ENEMY_HEIGHT as real)
  }

  /** A projectile's box is horizontally centred on its x. */
  function ShotBounds(s: ShotState): (r: Rect)
    ensures r.x + r.width / 2.0 == s.x && r.y == s.y as real
    ensures r.width == 10.0 && r.height == 20.0
  {
    Rect(s.x - (PROJECTILE_WIDTH as real) / 2.0, s.y as real,
         PROJECTILE_WIDTH as real, PROJECTILE_HEIGHT as real)
  }

  class Player {
    var x: real
    var y: int
    var dx: real
    const width: int := PLAYER_WIDTH
    const height: int := PLAYER_HEIGHT

    function State(): PlayerState
      reads this
    {
      PlayerState(x, y, dx)
    }

    constructor (x0: real, y0: int)
      ensures State() == PlayerState(x0, y0, 0.0)
    {
      x, y, dx := x0, y0, 0.0;
    }

    method Update()
      modifies this
      ensures State() == PlayerStep(old(State()))
    {
      x := x + dx;
      if x < 0.0 { x := 0.0; }
      if x > (GAME_WIDTH - width) as real { x := (GAME_WIDTH - width) as real; }
    }
  }

  class Enemy {
    var x: real
    var y: int
    const speed: int
    const width: int := ENEMY_WIDTH
    const height: int := ENEMY_HEIGHT

    function State(): EnemyState
      reads this
    {
      EnemyState(x, y, speed)
    }

    constructor (x0: real, y0: int, speed0: int)
      ensures State() == EnemyState(x0, y0, speed0)
    {
      x, y, speed := x0, y0, speed0;
    }

    method Update()
      modifies this
      ensures State() == EnemyStep(old(State()))
    {
      y := y + speed;
    }
  }

  class Projectile {
    var x: real
    var y: int
    const width: int := PROJECTILE_WIDTH
    const height: int := PROJECTILE_HEIGHT
    const speed: int := PROJECTILE_SPEED

    function State(): ShotState
      reads this
    {
      ShotState(x, y)
    }

    constructor (x0: real, y0: int)
      ensures State() == ShotState(x0, y0)
    {
      x, y := x0, y0;
    }

    method Update()
      modifies this
      ensures State() == ShotStep(old(State()))
    {
      y := y - speed;
    }
  }

  /** The values of a list of enemy objects, in order. */
  function EnemyViews(s: seq<Enemy>): (r: seq<EnemyState>)
    reads s
    ensures |r| == |s|
    ensures forall i :: 0 <= i < |s| ==> r[i] == s[i].State()
  {
    seq(|s|, i reads s requires 0 <= i < |s| => s[i].State())
  }

  /** The values of a list of projectile objects, in order. */
  function ShotViews(s: seq<Projectile>): (r: seq<ShotState>)
    reads s
    ensures |r| == |s|
    ensures forall i :: 0 <= i < |s| ==> r[i] == s[i].State()
  {
    seq(|s|, i reads s requires 0 <= i < |s| => s[i].State())
  }
}
