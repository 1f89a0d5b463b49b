/**
 * The player record of game.js and its vertical physics (updatePlayer).
 * Canvas y grows downwards, so "above the ground" means a smaller y.
 */
module Physics {

  /** this.player, without the placeholder colour used only for drawing. */
  datatype Player = Player(
    x: real, y: real, width: real, height: real,
    hitboxWidth: real, hitboxHeight: real, hitboxOffsetX: real, hitboxOffsetY: real,
    dy: real, jumpPower: real, grounded: bool, ducking: bool)

  const Gravity: real := 0.08
  const StandingHeight: real := 47.0
  const DuckingHeight: real := 26.0

  /** The y at which a player of this height touches the ground: groundY - height + 5. */
  function RestY(groundY: real, height: real): real
  {
    groundY - height + 5.0
  }

  /** The player as the constructor lays it out, standing on the ground and not yet grounded. */
  function InitialPlayer(groundY: real): (p: Player)
    ensures p.y == RestY(groundY, p.height) && p.height == StandingHeight
    ensures !p.grounded && !p.ducking && p.dy == 0.0
  {
    Player(25.0, RestY(groundY, StandingHeight), 44.0, StandingHeight,
           35.0, 40.0, 5.0, 4.0, 0.0, 4.25, false, false)
  }

  /**
   * One tick of updatePlayer: gravity is added to the velocity, the velocity
   * to the position, and a player at or below the ground is clamped onto it.
   */
  function Fallen(p: Player, groundY: real): (q: Player)
    ensures q == p.(y := q.y, dy := q.dy, grounded := q.grounded)
    ensures q.y <= RestY(groundY, q.height)
    ensures (p.y + p.dy + Gravity >= RestY(groundY, p.height)) <==> q.y == RestY(groundY, q.height)
    ensures q.y == RestY(groundY, q.height) ==> q.dy == 0.0 && q.grounded
    ensures q.y < RestY(groundY, q.height) ==>
      q.dy == p.dy + Gravity && q.y == p.y + q.dy && q.grounded == p.grounded
    ensures p.grounded ==> q.grounded
  {
    var dy := p.dy + Gravity;
    var y := p.y + dy;
    if y >= RestY(groundY, p.height) then p.(y := RestY(groundY, p.height), dy := 0.0, grounded := true)
    else p.(y := y, dy := dy)
  }

  /**
   * How the player stays between inputs: its fixed geometry, its height set by
   * the pose, never below the ground, at rest when grounded, and ducking only
   * on the ground.
   */
  predicate PlayerValid(p: Player, groundY: real)
  {
    p.x == 25.0 && p.width == 44.0 &&
    p.hitboxWidth == 35.0 && p.hitboxHeight == 40.0 &&
    p.hitboxOffsetX == 5.0 && p.hitboxOffsetY == 4.0 && p.jumpPower == 4.25 &&
    p.height == (if p.ducking then DuckingHeight else StandingHeight) &&
    p.y <= RestY(groundY, p.height) &&
    (p.grounded ==> p.y == RestY(groundY, p.height) && p.dy == 0.0) &&
    (p.ducking ==> p.grounded)
  }

  /** A tick of physics keeps the player valid; a grounded player does not move. */
  lemma FallenKeepsValid(p: Player, groundY: real)
    requires PlayerValid(p, groundY)
    ensures PlayerValid(Fallen(p, groundY), groundY)
    ensures p.grounded ==> Fallen(p, groundY) == p
  {
  }
}
