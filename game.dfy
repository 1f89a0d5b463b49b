/**
 * The per-tick state machine of the CapyDinoGame class in game.js: the game
 * state, score and speed, the player and the three entity lists, changed in
 * place by the input handlers and by update().
 */
module Game {
  import opened Scroll
  import opened Spawn
  import opened Physics
  import opened Collision
  import opened Pace

  /** 'start', 'playing' and 'gameOver'. */
  datatype GameState = Start | Playing | GameOver

  /** The Math.random() results one call of update() may consume. */
  datatype TickDraws = TickDraws(
    obstacleType: Draw, birdAltitude: Draw, nextInterval: Draw,
    cloudY: Draw, cloudWidth: Draw,
    groundChance: Draw, groundWidth: Draw)

  const GroundHeight: real := 30.0
  const InitialObstacleInterval: real := 200.0
  const CloudDrift: real := 0.2

  /** The high score kept by gameOver: the running maximum of the floored scores. */
  function HighScore(hiScore: nat, score: real): (h: nat)
    ensures h >= hiScore && h >= score.Floor
    ensures h == hiScore || h == score.Floor
  {
    if score.Floor > hiScore then score.Floor else hiScore
  }

  /**
   * The obstacle timer has not reached its interval, which lies in [180, 350),
   * and every obstacle is on screen with the fixed shape of its type.
   */
  predicate ObstaclesValid(obstacles: seq<Sprite<ObstacleKind>>, timer: nat, interval: real,
                           canvasWidth: real, groundY: real)
  {
    canvasWidth >= 0.0 &&
    MinObstacleInterval <= interval < MaxObstacleInterval &&
    timer as real < interval &&
    AllOnScreen(obstacles) &&
    (forall k :: 0 <= k < |obstacles| ==> ObstacleShape(obstacles[k], groundY))
  }

  /** The cloud timer is below 200 and every cloud is on screen. */
  predicate CloudsValid(clouds: seq<Sprite<Scenery>>, timer: nat, canvasWidth: real)
  {
    canvasWidth >= 0.0 && timer < CloudInterval && AllOnScreen(clouds)
  }

  /** Every ground element is on screen. */
  predicate GroundValid(groundElements: seq<Sprite<Scenery>>, canvasWidth: real)
  {
    canvasWidth >= 0.0 && AllOnScreen(groundElements)
  }

  class CapyDinoGame {
    const canvasWidth: real
    const groundY: real

    var gameState: GameState
    var gameSpeed: real
    var score: real
    var hiScore: nat
    var lastSpeedIncreaseScore: real
    var player: Player
    var obstacles: seq<Sprite<ObstacleKind>>
    var obstacleTimer: nat
    var obstacleInterval: real
    var clouds: seq<Sprite<Scenery>>
    var cloudTimer: nat
    var groundElements: seq<Sprite<Scenery>>

    /** Score, speed and watermark together. */
    ghost function Pacing(): Pace
      reads this`score, this`gameSpeed, this`lastSpeedIncreaseScore
    {
      Pace(score, gameSpeed, lastSpeedIncreaseScore)
    }

    /** What holds between calls; gameState and hiScore are free. */
    ghost predicate Valid()
      reads this
    {
      Paced(Pacing()) &&
      PlayerValid(player, groundY) &&
      ObstaclesValid(obstacles, obstacleTimer, obstacleInterval, canvasWidth, groundY) &&
      CloudsValid(clouds, cloudTimer, canvasWidth) &&
      GroundValid(groundElements, canvasWidth)
    }

    /** The field initialisation of the constructor; the canvas size and stored high score are given. */
    constructor (width: nat, height: nat, storedHiScore: nat)
      ensures Valid()
      ensures canvasWidth == width as real && groundY == height as real - GroundHeight
      ensures gameState == Start && Pacing() == Rest && hiScore == storedHiScore
      ensures player == InitialPlayer(groundY)
      ensures obstacles == [] && obstacleTimer == 0 && obstacleInterval == InitialObstacleInterval
      ensures clouds == [] && cloudTimer == 0 && groundElements == []
    {
      RestIsPaced();
      canvasWidth := width as real;
      groundY := height as real - GroundHeight;
      gameState := Start;
      gameSpeed := StartSpeed;
      score := 0.0;
      hiScore := storedHiScore;
      lastSpeedIncreaseScore := 0.0;
      player := InitialPlayer(height as real - GroundHeight);
      obstacles := [];
      obstacleTimer := 0;
      obstacleInterval := InitialObstacleInterval;
      clouds := [];
      cloudTimer := 0;
      groundElements := [];
    }

    /** Jump input: start, jump when standing on the ground, or restart after a game over. */
    method HandleJump()
      requires Valid()
      modifies this`gameState, this`player, this`score, this`gameSpeed,
               this`lastSpeedIncreaseScore, this`obstacles, this`obstacleTimer
      ensures Valid()
      ensures old(gameState) == Start ==>
        gameState == Playing && player == old(player) && Pacing() == old(Pacing()) &&
        obstacles == old(obstacles) && obstacleTimer == old(obstacleTimer)
      ensures old(gameState) == Playing && old(player).grounded && !old(player).ducking ==>
        gameState == Playing && player == old(player).(dy := -old(player).jumpPower, grounded := false) &&
        Pacing() == old(Pacing()) && obstacles == old(obstacles) && obstacleTimer == old(obstacleTimer)
      ensures old(gameState) == Playing && !(old(player).grounded && !old(player).ducking) ==>
        unchanged(this)
      ensures old(gameState) == GameState.GameOver ==>
        gameState == Playing && Pacing() == Rest && obstacles == [] && obstacleTimer == 0 &&
        player == old(player).(y := RestY(groundY, old(player).height), dy := 0.0, grounded := true)
    {
      if gameState == Start {
        StartGame();
      } else if gameState == Playing && player.grounded && !player.ducking {
        player := player.(dy := -player.jumpPower);
        player := player.(grounded := false);
      } else if gameState == GameState.GameOver {
        Restart();
      }
    }

    /** Duck input: on the ground while playing, swap pose and keep the feet on the ground line. */
    method HandleDuck(isDucking: bool)
      requires Valid()
      modifies this`player
      ensures Valid()
      ensures !(old(gameState) == Playing && old(player).grounded) ==> player == old(player)
      ensures old(gameState) == Playing && old(player).grounded ==>
        var h := if isDucking then DuckingHeight else StandingHeight;
        player == old(player).(ducking := isDucking, height := h, y := RestY(groundY, h))
    {
      if gameState == Playing && player.grounded {
        player := player.(ducking := isDucking);
        if isDucking {
          player := player.(height := DuckingHeight);
          player := player.(y := RestY(groundY, player.height));
        } else {
          player := player.(height := StandingHeight);
          player := player.(y := RestY(groundY, player.height));
        }
      }
    }

    method StartGame()
      requires Valid()
      modifies this`gameState
      ensures Valid() && gameState == Playing
    {
      gameState := Playing;
    }

    /**
     * Back to playing from rest: score, speed, watermark, obstacles and their
     * timer are reset and the player is put back on the ground in its current pose.
     */
    method Restart()
      requires Valid()
      modifies this`gameState, this`player, this`score, this`gameSpeed,
               this`lastSpeedIncreaseScore, this`obstacles, this`obstacleTimer
      ensures Valid()
      ensures gameState == Playing && Pacing() == Rest && obstacles == [] && obstacleTimer == 0
      ensures player == old(player).(y := RestY(groundY, old(player).height), dy := 0.0, grounded := true)
    {
      RestIsPaced();
      gameState := Playing;
      score := 0.0;
      gameSpeed := StartSpeed;
      lastSpeedIncreaseScore := 0.0;
      obstacles := [];
      obstacleTimer := 0;
      player := player.(y := RestY(groundY, player.height), dy := 0.0, grounded := true);
    }

    /** One tick of gravity and the ground clamp. */
    method UpdatePlayer()
      requires PlayerValid(player, groundY)
      modifies this`player
      ensures PlayerValid(player, groundY)
      ensures player == Fallen(old(player), groundY)
    {
      player := player.(dy := player.dy + Gravity);
      player := player.(y := player.y + player.dy);
      if player.y >= RestY(groundY, player.height) {
        player := player.(y := RestY(groundY, player.height), dy := 0.0, grounded := true);
      }
      FallenKeepsValid(old(player), groundY);
    }

    /** Appends one obstacle of the drawn type at the right edge. */
    method GenerateObstacle(typeDraw: Draw, altitudeDraw: Draw)
      modifies this`obstacles
      ensures obstacles == old(obstacles) + [NewObstacle(KindFromDraw(typeDraw), altitudeDraw, canvasWidth, groundY)]
    {
      var kind := KindFromDraw(typeDraw);
      var obstacle := NewObstacle(kind, altitudeDraw, canvasWidth, groundY);
      obstacles := obstacles + [obstacle];
    }

    /** The obstacle spawner, then moving and pruning of every obstacle. */
    method UpdateObstacles(typeDraw: Draw, altitudeDraw: Draw, intervalDraw: Draw)
      requires ObstaclesValid(obstacles, obstacleTimer, obstacleInterval, canvasWidth, groundY)
      modifies this`obstacles, this`obstacleTimer, this`obstacleInterval
      ensures ObstaclesValid(obstacles, obstacleTimer, obstacleInterval, canvasWidth, groundY)
      ensures var spawn := (old(obstacleTimer) + 1) as real >= old(obstacleInterval);
        obstacleTimer == (if spawn then 0 else old(obstacleTimer) + 1) &&
        obstacleInterval == (if spawn then NextObstacleInterval(intervalDraw) else old(obstacleInterval)) &&
        obstacles == Advance(old(obstacles) +
          (if spawn then [NewObstacle(KindFromDraw(typeDraw), altitudeDraw, canvasWidth, groundY)] else []),
          gameSpeed)
    {
      obstacleTimer := obstacleTimer + 1;
      if obstacleTimer as real >= obstacleInterval {
        GenerateObstacle(typeDraw, altitudeDraw);
        obstacleTimer := 0;
        obstacleInterval := NextObstacleInterval(intervalDraw);
      }
      ghost var before := obstacles;
      assert before == old(obstacles) + (if obstacleTimer == old(obstacleTimer) + 1 then [] else [NewObstacle(KindFromDraw(typeDraw), altitudeDraw, canvasWidth, groundY)]);
      assert forall k :: 0 <= k < |before| ==> ObstacleShape(before[k], groundY);
      obstacles := MoveAndPrune(obstacles, gameSpeed);
      AdvanceOnScreen(before, gameSpeed);
      AdvanceKeepsShapes(before, gameSpeed, groundY);
    }

    /** Appends one cloud at the right edge. */
    method GenerateCloud(yDraw: Draw, widthDraw: Draw)
      modifies this`clouds
      ensures clouds == old(clouds) + [NewCloud(yDraw, widthDraw, canvasWidth)]
    {
      clouds := clouds + [NewCloud(yDraw, widthDraw, canvasWidth)];
    }

    /** A cloud every 200 ticks; clouds drift at a fifth of the game speed. */
    method UpdateClouds(yDraw: Draw, widthDraw: Draw)
      requires CloudsValid(clouds, cloudTimer, canvasWidth)
      modifies this`clouds, this`cloudTimer
      ensures CloudsValid(clouds, cloudTimer, canvasWidth)
      ensures var spawn := old(cloudTimer) + 1 >= CloudInterval;
        cloudTimer == (if spawn then 0 else old(cloudTimer) + 1) &&
        clouds == Advance(old(clouds) + (if spawn then [NewCloud(yDraw, widthDraw, canvasWidth)] else []),
                          gameSpeed * CloudDrift)
    {
      cloudTimer := cloudTimer + 1;
      if cloudTimer >= CloudInterval {
        GenerateCloud(yDraw, widthDraw);
        cloudTimer := 0;
      }
      ghost var before := clouds;
      assert before == old(clouds) + (if cloudTimer == old(cloudTimer) + 1 then [] else [NewCloud(yDraw, widthDraw, canvasWidth)]);
      clouds := MoveAndPrune(clouds, gameSpeed * CloudDrift);
      AdvanceOnScreen(before, gameSpeed * CloudDrift);
    }

    /** Ground elements are moved and pruned first, then one may be added with chance 0.02. */
    method UpdateGroundElements(chanceDraw: Draw, widthDraw: Draw)
      requires GroundValid(groundElements, canvasWidth)
      modifies this`groundElements
      ensures GroundValid(groundElements, canvasWidth)
      ensures groundElements == Advance(old(groundElements), gameSpeed) +
        (if chanceDraw < GroundSpawnChance then [NewGroundPatch(widthDraw, canvasWidth, groundY)] else [])
    {
      AdvanceOnScreen(groundElements, gameSpeed);
      groundElements := MoveAndPrune(groundElements, gameSpeed);
      if chanceDraw < GroundSpawnChance {
        groundElements := groundElements + [NewGroundPatch(widthDraw, canvasWidth, groundY)];
      }
    }

    /**
     * The first obstacle that hits the player ends the game and the scan
     * stops there; `calls` counts the calls of GameOver.
     */
    method CheckCollisions() returns (ghost calls: nat)
      modifies this`gameState, this`hiScore
      ensures calls <= 1 && (calls == 1 <==> HitsAny(player, obstacles))
      ensures gameState == if HitsAny(player, obstacles) then GameState.GameOver else old(gameState)
      ensures hiScore == if HitsAny(player, obstacles) then HighScore(old(hiScore), score) else old(hiScore)
    {
      calls := 0;
      var i := 0;
      while i < |obstacles|
        invariant 0 <= i <= |obstacles|
        invariant forall k :: 0 <= k < i ==> !IsColliding(player, obstacles[k])
        invariant calls == 0 && gameState == old(gameState) && hiScore == old(hiScore)
      {
        if IsColliding(player, obstacles[i]) {
          GameOver();
          calls := calls + 1;
          break;
        }
        i := i + 1;
      }
    }

    /** The game-over transition and the high score as a running maximum. */
    method GameOver()
      modifies this`gameState, this`hiScore
      ensures gameState == GameState.GameOver
      ensures hiScore == HighScore(old(hiScore), score)
    {
      gameState := GameState.GameOver;
      if score.Floor > hiScore {
        hiScore := score.Floor;
      }
    }

    /** The score and speed step at the top of update(). */
    method StepScore()
      requires Paced(Pacing())
      modifies this`score, this`gameSpeed, this`lastSpeedIncreaseScore
      ensures Paced(Pacing())
      ensures Pacing() == Tick(old(Pacing()))
    {
      TickKeepsPaced(Pacing());
      score := score + ScorePerTick;
      var currentHundreds := Bucket(score);
      var lastHundreds := Bucket(lastSpeedIncreaseScore);
      if currentHundreds > lastHundreds && score > 0.0 {
        gameSpeed := gameSpeed * SpeedFactor;
        lastSpeedIncreaseScore := score;
      }
    }

    /** One tick of update(): nothing unless playing, otherwise a playing tick. */
    method Update(d: TickDraws) returns (ghost gameOverCalls: nat)
      requires Valid()
      modifies this
      ensures Valid()
      ensures gameOverCalls <= 1
      ensures old(gameState) != Playing ==> unchanged(this) && gameOverCalls == 0
      ensures old(gameState) == Playing ==>
        Pacing() == Tick(old(Pacing())) && player == Fallen(old(player), groundY)
      ensures old(gameState) == Playing ==>
        var spawn := (old(obstacleTimer) + 1) as real >= old(obstacleInterval);
        obstacleTimer == (if spawn then 0 else old(obstacleTimer) + 1) &&
        obstacleInterval == (if spawn then NextObstacleInterval(d.nextInterval) else old(obstacleInterval)) &&
        obstacles == Advance(old(obstacles) +
          (if spawn then [NewObstacle(KindFromDraw(d.obstacleType), d.birdAltitude, canvasWidth, groundY)] else []),
          gameSpeed)
      ensures old(gameState) == Playing ==>
        var spawn := old(cloudTimer) + 1 >= CloudInterval;
        cloudTimer == (if spawn then 0 else old(cloudTimer) + 1) &&
        clouds == Advance(old(clouds) + (if spawn then [NewCloud(d.cloudY, d.cloudWidth, canvasWidth)] else []),
                          gameSpeed * CloudDrift)
      ensures old(gameState) == Playing ==>
        groundElements == Advance(old(groundElements), gameSpeed) +
          (if d.groundChance < GroundSpawnChance then [NewGroundPatch(d.groundWidth, canvasWidth, groundY)] else [])
      ensures old(gameState) == Playing ==>
        gameState == (if HitsAny(player, obstacles) then GameState.GameOver else Playing) &&
        hiScore == (if HitsAny(player, obstacles) then HighScore(old(hiScore), score) else old(hiScore))
    {
      gameOverCalls := 0;
      if gameState != Playing {
        return;
      }
      gameOverCalls := PlayTick(d);
    }

    /**
     * The body of update() while playing: the score and speed step, physics,
     * the three lists and the collision check, in that order.
     */
    method PlayTick(d: TickDraws) returns (ghost gameOverCalls: nat)
      requires Valid() && gameState == Playing
      modifies this
      ensures Valid()
      ensures gameOverCalls <= 1 && (gameOverCalls == 1 <==> gameState == GameState.GameOver)
      ensures Pacing() == Tick(old(Pacing()))
      ensures player == Fallen(old(player), groundY)
      ensures var spawn := (old(obstacleTimer) + 1) as real >= old(obstacleInterval);
        obstacleTimer == (if spawn then 0 else old(obstacleTimer) + 1) &&
        obstacleInterval == (if spawn then NextObstacleInterval(d.nextInterval) else old(obstacleInterval)) &&
        obstacles == Advance(old(obstacles) +
          (if spawn then [NewObstacle(KindFromDraw(d.obstacleType), d.birdAltitude, canvasWidth, groundY)] else []),
          gameSpeed)
      ensures var spawn := old(cloudTimer) + 1 >= CloudInterval;
        cloudTimer == (if spawn then 0 else old(cloudTimer) + 1) &&
        clouds == Advance(old(clouds) + (if spawn then [NewCloud(d.cloudY, d.cloudWidth, canvasWidth)] else []),
                          gameSpeed * CloudDrift)
      ensures groundElements == Advance(old(groundElements), gameSpeed) +
        (if d.groundChance < GroundSpawnChance then [NewGroundPatch(d.groundWidth, canvasWidth, groundY)] else [])
      ensures gameState == (if HitsAny(player, obstacles) then GameState.GameOver else Playing)
      ensures hiScore == (if HitsAny(player, obstacles) then HighScore(old(hiScore), score) else old(hiScore))
    {
      StepScoreAndPlayer();
      UpdateLists(d);
      gameOverCalls := CheckCollisions();
    }

    /** The score and speed step of update(), then updatePlayer. */
    method StepScoreAndPlayer()
      requires Paced(Pacing()) && PlayerValid(player, groundY)
      modifies this`score, this`gameSpeed, this`lastSpeedIncreaseScore, this`player
      ensures Paced(Pacing()) && PlayerValid(player, groundY)
      ensures Pacing() == Tick(old(Pacing()))
      ensures player == Fallen(old(player), groundY)
    {
      StepScore();
      UpdatePlayer();
    }

    /** The three list updates of update(), in the source's order, at the new speed. */
    method UpdateLists(d: TickDraws)
      requires ObstaclesValid(obstacles, obstacleTimer, obstacleInterval, canvasWidth, groundY)
      requires CloudsValid(clouds, cloudTimer, canvasWidth)
      requires GroundValid(groundElements, canvasWidth)
      modifies this`obstacles, this`obstacleTimer, this`obstacleInterval,
               this`clouds, this`cloudTimer, this`groundElements
      ensures ObstaclesValid(obstacles, obstacleTimer, obstacleInterval, canvasWidth, groundY)
      ensures CloudsValid(clouds, cloudTimer, canvasWidth)
      ensures GroundValid(groundElements, canvasWidth)
      ensures var spawn := (old(obstacleTimer) + 1) as real >= old(obstacleInterval);
        obstacleTimer == (if spawn then 0 else old(obstacleTimer) + 1) &&
        obstacleInterval == (if spawn then NextObstacleInterval(d.nextInterval) else old(obstacleInterval)) &&
        obstacles == Advance(old(obstacles) +
          (if spawn then [NewObstacle(KindFromDraw(d.obstacleType), d.birdAltitude, canvasWidth, groundY)] else []),
          gameSpeed)
      ensures var spawn := old(cloudTimer) + 1 >= CloudInterval;
        cloudTimer == (if spawn then 0 else old(cloudTimer) + 1) &&
        clouds == Advance(old(clouds) + (if spawn then [NewCloud(d.cloudY, d.cloudWidth, canvasWidth)] else []),
                          gameSpeed * CloudDrift)
      ensures groundElements == Advance(old(groundElements), gameSpeed) +
        (if d.groundChance < GroundSpawnChance then [NewGroundPatch(d.groundWidth, canvasWidth, groundY)] else [])
    {
      UpdateObstacles(d.obstacleType, d.birdAltitude, d.nextInterval);
      UpdateClouds(d.cloudY, d.cloudWidth);
      UpdateGroundElements(d.groundChance, d.groundWidth);
    }
  }
}
