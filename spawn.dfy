/**
 * New entities created by game.js: obstacles (generateObstacle), clouds
 * (generateCloud) and ground elements (the push in updateGroundElements),
 * and the randomised obstacle interval. Every Math.random() result is a
 * `Draw` passed in by the caller.
 */
module Spawn {
  import opened Scroll

  /** One Math.random() result. */
  type Draw = r: real | 0.0 <= r < 1.0

  datatype ObstacleKind = CactusSmall | CactusLarge | CactusGroup | Bird

  /** Clouds and ground elements carry no type in the source; the tag only names the list. */
  datatype Scenery = Cloud | GroundPatch

  const ObstacleTypes: seq<ObstacleKind> := [CactusSmall, CactusLarge, CactusGroup, Bird]
  const BirdAltitudes: seq<real> := [75.0, 95.0, 115.0]

  const MinObstacleInterval: real := 180.0
  const MaxObstacleInterval: real := 350.0
  const CloudInterval: nat := 200
  const GroundSpawnChance: real := 0.02

  /** Math.floor(Math.random() * n): an index into a list of length n. */
  function PickIndex(n: nat, r: Draw): (i: nat)
    requires n > 0
    ensures i < n
    ensures i as real <= r * n as real < i as real + 1.0
  {
    ScaleBelow(r, n as real);
    (r * n as real).Floor
  }

  /** A draw scales a positive length to strictly less than that length. */
  lemma ScaleBelow(r: Draw, m: real)
    requires m > 0.0
    ensures 0.0 <= r * m < m
  {
  }

  /** The obstacle type drawn by generateObstacle: each type owns a quarter of [0, 1). */
  function KindFromDraw(r: Draw): (k: ObstacleKind)
    ensures k == CactusSmall <==> r < 0.25
    ensures k == CactusLarge <==> 0.25 <= r < 0.5
    ensures k == CactusGroup <==> 0.5 <= r < 0.75
    ensures k == Bird <==> 0.75 <= r
  {
    ObstacleTypes[PickIndex(|ObstacleTypes|, r)]
  }

  function ObstacleWidth(k: ObstacleKind): real
  {
    match k
    case CactusSmall => 17.0
    case CactusLarge => 25.0
    case CactusGroup => 40.0
    case Bird => 46.0
  }

  function ObstacleHeight(k: ObstacleKind): real
  {
    match k
    case CactusSmall => 35.0
    case CactusLarge => 50.0
    case CactusGroup => 35.0
    case Bird => 40.0
  }

  /**
   * The fixed size of each obstacle type, cacti standing on the ground line
   * and birds flying at one of three altitudes above it.
   */
  predicate ObstacleShape(o: Sprite<ObstacleKind>, groundY: real)
  {
    o.width == ObstacleWidth(o.kind) && o.height == ObstacleHeight(o.kind) &&
    (o.kind != Bird ==> o.y + o.height == groundY) &&
    (o.kind == Bird ==> groundY - o.y in BirdAltitudes)
  }

  /** generateObstacle: the obstacle appended at the right edge of the canvas. */
  function NewObstacle(kind: ObstacleKind, altitude: Draw, canvasWidth: real, groundY: real)
    : (o: Sprite<ObstacleKind>)
    ensures o.kind == kind && o.x == canvasWidth
    ensures ObstacleShape(o, groundY)
  {
    var width := ObstacleWidth(kind);
    var height := ObstacleHeight(kind);
    if kind == Bird then
      Sprite(kind, canvasWidth, groundY - BirdAltitudes[PickIndex(|BirdAltitudes|, altitude)], width, height)
    else
      Sprite(kind, canvasWidth, groundY - height, width, height)
  }

  /** The next obstacle interval: minObstacleInterval + r * (max - min), in [180, 350). */
  function NextObstacleInterval(r: Draw): (interval: real)
    ensures MinObstacleInterval <= interval < MaxObstacleInterval
  {
    MinObstacleInterval + r * (MaxObstacleInterval - MinObstacleInterval)
  }

  /** generateCloud: a cloud at the right edge, y in [20, 60), width in [40, 60), height 20. */
  function NewCloud(yDraw: Draw, widthDraw: Draw, canvasWidth: real): (c: Sprite<Scenery>)
    ensures c.x == canvasWidth && c.height == 20.0
    ensures 20.0 <= c.y < 60.0 && 40.0 <= c.width < 60.0
  {
    Sprite(Cloud, canvasWidth, 20.0 + yDraw * 40.0, 40.0 + widthDraw * 20.0, 20.0)
  }

  /** A ground element at the right edge, 5 above the ground line, width in [10, 20), height 5. */
  function NewGroundPatch(widthDraw: Draw, canvasWidth: real, groundY: real): (g: Sprite<Scenery>)
    ensures g.x == canvasWidth && g.y == groundY - 5.0 && g.height == 5.0
    ensures 10.0 <= g.width < 20.0
  {
    Sprite(GroundPatch, canvasWidth, groundY - 5.0, 10.0 + widthDraw * 10.0, 5.0)
  }

  /** Moving and pruning keeps every obstacle's type-fixed shape. */
  lemma {:induction false} AdvanceKeepsShapes(s: seq<Sprite<ObstacleKind>>, step: real, groundY: real)
    requires forall k :: 0 <= k < |s| ==> ObstacleShape(s[k], groundY)
    ensures forall k :: 0 <= k < |Advance(s, step)| ==> ObstacleShape(Advance(s, step)[k], groundY)
  {
    if s != [] {
      AdvanceKeepsShapes(s[1..], step, groundY);
    }
  }
}
