/** The fixed `DIFFICULTY_SETTINGS` table of game.js (the cosmetic colour is left out). */
module Difficulty {
  import opened Geometry

  datatype Level = Easy | Medium | Hard

  datatype Settings = Settings(enemySpawnChance: real, enemySpeed: int, scoreMultiplier: int)

  function SettingsOf(d: Level): (s: Settings)
    ensures 0.0 < s.enemySpawnChance < 1.0
    ensures 0 < s.enemySpeed && GAME_HEIGHT % s.enemySpeed == 0
    ensures 1 <= s.scoreMultiplier <= 3
  {
    match d
    case Easy => Settings(0.01, 2, 1)
    case Medium => Settings(0.02, 3, 2)
    case Hard => Settings(0.03, 4, 3)
  }

  /** Score awarded for one projectile hit: `10 * scoreMultiplier`. */
  function Points(d: Level): (p: int)
    ensures p > 0 && p % 10 == 0
  {
    10 * SettingsOf(d).scoreMultiplier
  }

  function Rank(d: Level): nat {
    match d
    case Easy => 0
    case Medium => 1
    case Hard => 2
  }

  /** A harder level spawns more often, moves faster and pays more per hit. */
  lemma HarderIsStrictlyHarder(d1: Level, d2: Level)
    requires Rank(d1) < Rank(d2)
    ensures SettingsOf(d1).enemySpawnChance < SettingsOf(d2).enemySpawnChance
    ensures SettingsOf(d1).enemySpeed < SettingsOf(d2).enemySpeed
    ensures Points(d1) < Points(d2)
  {
  }
}
