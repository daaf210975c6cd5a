/** Screen constants and the axis-aligned rectangle overlap test of game.js. */
module Geometry {

  const GAME_WIDTH: int := 800
  const GAME_HEIGHT: int := 600

  /** The `{x, y, width, height}` record every `getBounds()` returns. */
  datatype Rect = Rect(x: real, y: real, width: real, height: real)

  /** `isColliding`: each rectangle's near edge lies strictly before the other's
      far edge, on both axes. */
  predicate IsColliding(r1: Rect, r2: Rect) {
    r1.x < r2.x + r2.width &&
    r1.x + r1.width > r2.x &&
    r1.y < r2.y + r2.height &&
    r1.y + r1.height > r2.y
  }

  /** The point lies in the open interior of the rectangle. */
  predicate Contains(r: Rect, px: real, py: real) {
    r.x < px < r.x + r.width && r.y < py < r.y + r.height
  }

  lemma CollidingIsSymmetric(a: Rect, b: Rect)
    ensures IsColliding(a, b) <==> IsColliding(b, a)
  {
  }

  /** Rectangles that only share an edge, or are apart on either axis, do not collide. */
  lemma TouchingOrApartDoesNotCollide(a: Rect, b: Rect)
    requires a.x + a.width <= b.x || b.x + b.width <= a.x ||
             a.y + a.height <= b.y || b.y + b.height <= a.y
    ensures !IsColliding(a, b) && !IsColliding(b, a)
  {
  }

  lemma NonEmptyCollidesWithItself(a: Rect)
    requires a.width > 0.0 && a.height > 0.0
    ensures IsColliding(a, a)
  {
  }

  function Max(a: real, b: real): real { if a < b then b else a }
  function Min(a: real, b: real): real { if a < b then a else b }

  /** For rectangles of positive size, the overlap test agrees with its geometric
      meaning: some point lies strictly inside both. */
  lemma CollidingIffCommonInteriorPoint(a: Rect, b: Rect)
    requires a.width > 0.0 && a.height > 0.0 && b.width > 0.0 && b.height > 0.0
    ensures IsColliding(a, b) <==> exists px, py :: Contains(a, px, py) && Contains(b, px, py)
  {
    if IsColliding(a, b) {
      var px := (Max(a.x, b.x) + Min(a.x + a.width, b.x + b.width)) / 2.0;
      var py := (Max(a.y, b.y) + Min(a.y + a.height, b.y + b.height)) / 2.0;
      assert Contains(a, px, py) && Contains(b, px, py);
    }
  }
}
