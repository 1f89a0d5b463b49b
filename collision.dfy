/**
 * isColliding and checkCollisions of game.js: the player's hitbox (not its
 * sprite rectangle) against an obstacle's full rectangle.
 */
module Collision {
  import opened Scroll
  import opened Physics

  /** Strict axis-aligned overlap between the player's hitbox and the obstacle. */
  predicate IsColliding<K>(p: Player, o: Sprite<K>)
  {
    var hitboxX := p.x + p.hitboxOffsetX;
    var hitboxY := p.y + p.hitboxOffsetY;
    hitboxX < o.x + o.width &&
    hitboxX + p.hitboxWidth > o.x &&
    hitboxY < o.y + o.height &&
    hitboxY + p.hitboxHeight > o.y
  }

  /** Some obstacle of the list collides with the player. */
  predicate HitsAny<K>(p: Player, obstacles: seq<Sprite<K>>)
  {
    exists k :: 0 <= k < |obstacles| && IsColliding(p, obstacles[k])
  }

  /** (px, py) lies strictly inside the player's hitbox. */
  predicate InHitbox(p: Player, px: real, py: real)
  {
    p.x + p.hitboxOffsetX < px < p.x + p.hitboxOffsetX + p.hitboxWidth &&
    p.y + p.hitboxOffsetY < py < p.y + p.hitboxOffsetY + p.hitboxHeight
  }

  /** (px, py) lies strictly inside the obstacle's rectangle. */
  predicate InSprite<K>(o: Sprite<K>, px: real, py: real)
  {
    o.x < px < o.x + o.width && o.y < py < o.y + o.height
  }

  function Max(a: real, b: real): real { if a >= b then a else b }
  function Min(a: real, b: real): real { if a <= b then a else b }

  /**
   * The four strict comparisons hold exactly when the two open rectangles
   * share a point; rectangles that only touch along an edge do not collide.
   */
  lemma CollidingIffSharedPoint<K>(p: Player, o: Sprite<K>)
    requires p.hitboxWidth > 0.0 && p.hitboxHeight > 0.0
    requires o.width > 0.0 && o.height > 0.0
    ensures IsColliding(p, o) <==> exists px, py :: InHitbox(p, px, py) && InSprite(o, px, py)
  {
    if IsColliding(p, o) {
      var hx, hy := p.x + p.hitboxOffsetX, p.y + p.hitboxOffsetY;
      var px := (Max(hx, o.x) + Min(hx + p.hitboxWidth, o.x + o.width)) / 2.0;
      var py := (Max(hy, o.y) + Min(hy + p.hitboxHeight, o.y + o.height)) / 2.0;
      assert InHitbox(p, px, py) && InSprite(o, px, py);
    }
  }

  /** Touching edges: a hitbox whose right edge is the obstacle's left edge is not a hit. */
  lemma EdgeContactIsNoHit<K>(p: Player, o: Sprite<K>)
    requires p.x + p.hitboxOffsetX + p.hitboxWidth == o.x ||
             o.x + o.width == p.x + p.hitboxOffsetX ||
             p.y + p.hitboxOffsetY + p.hitboxHeight == o.y ||
             o.y + o.height == p.y + p.hitboxOffsetY
    ensures !IsColliding(p, o)
  {
  }
}
