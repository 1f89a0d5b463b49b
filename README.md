# CapyDino game core in Dafny

A model of the per-tick state machine of the `CapyDinoGame` class in `game.js`, a
browser endless-runner in which a capybara jumps over cacti and ducks under
birds. The model covers:

- the game state (`'start'`, `'playing'`, `'gameOver'`) and the input handlers
  that move between states;
- the score and speed step at the top of `update()`, with its hundreds-bucket
  watermark;
- the player's gravity and ground clamp;
- the obstacle, cloud and ground-element lists, which are spawned on a timer or
  by chance, moved left each tick and spliced out once off screen;
- the hitbox collision test and the game-over high score;
- `formatScore`.

The modules follow the parts of the class:

| module | file | what it holds |
|---|---|---|
| `Scroll` | scroll.dfy | `Sprite<K>`, the rectangle of every list entry; `Advance`, the move-and-prune pass as a function; `MoveAndPrune`, the reverse-index splice loop proved equal to it |
| `Spawn` | spawn.dfy | obstacle kinds and their fixed sizes; the new obstacle, cloud and ground element; the random obstacle interval |
| `Physics` | physics.dfy | the player record and the one-tick fall `Fallen` |
| `Collision` | collision.dfy | `IsColliding`, and the proof that it means the two open rectangles share a point |
| `Pace` | pace.dfy | the score/speed/watermark tick, the invariant "one 5% raise per hundred reached", and the state after n ticks |
| `ScoreFormat` | score_format.dfy | decimal digits, `padStart`, `FormatScore`, and the proof that the digits read back as the score |
| `Game` | game.dfy | the class `CapyDinoGame`: fields updated in place by the handlers and by `Update` |

Each `Math.random()` result is a `Draw`, a real in [0, 1), passed in by
the caller. `Update` takes all the draws one tick may use as a `TickDraws`
record. The canvas width and height and the stored high score are
constructor parameters. Coordinates, speed and score are reals.

`CapyDinoGame.Valid()` is the invariant every handler and `Update` keep. It
says:
- The speed equals 1.5 * 1.05^floor(score / 100), and the watermark is in
  the score's hundred.
- The player has its fixed geometry and never sinks below the ground line.
  A grounded player is at rest on it, and a ducking player is grounded.
- Both timers are below their intervals, and the interval lies in [180, 350).
- Every list entry is on screen, and every obstacle has the dimensions of
  its type.

Two points of the code the model keeps as written:
- The ground clamp is at `groundY - height + 5` (game.js:245), five below the
  ground line minus the height, and `RestY` is that line.
- The speed raise also requires `score > 0` (game.js:217).

## Model

| member | source | states |
|---|---|---|
| Scroll.Advance | game.js:263-270 | one move-and-prune pass over a list, as a function: each entry moved left by the step, kept when still on screen (its contract is carried by the lemmas below) |
| Scroll.SurvivorsFromExact | game.js:263-270 | the reference list of surviving positions is strictly increasing, stays in range, and contains j exactly when entity j is still on screen after moving |
| Scroll.AdvanceIndexed | game.js:263-270 | the k-th entry after the pass is the k-th survivor moved by the step, and the pass keeps exactly as many entries as there are survivors |
| Scroll.AdvanceSpec | game.js:263-270 | the whole pass: the survivors are exactly the entries still on screen after moving, each moved left by exactly the step with no other field changed, in their old relative order |
| Scroll.AdvanceOnScreen | game.js:267-269 | after the pass every entry has x + width >= 0, and the list never grows |
| Scroll.AdvanceFrom | game.js:264-265 | every entry after the pass is the moved copy of an entry from before it |
| Scroll.MoveAndPrune | game.js:263-270 | the reverse-index loop that moves entry i in place and splices it out when x + width < 0 computes exactly `Advance` |
| Spawn.PickIndex | game.js:275 | Math.floor(r * n) is an index below n, the unique integer with i <= r * n < i + 1 |
| Spawn.KindFromDraw | game.js:274-275 | each of the four obstacle types is chosen exactly on its quarter of [0, 1) |
| Spawn.NewObstacle | game.js:277-301 | a new obstacle has the drawn type, starts at the canvas's right edge, has its type's fixed width and height (17x35, 25x50, 40x35, 46x40), stands on the ground line when a cactus, and flies 75, 95 or 115 above it when a bird |
| Spawn.NextObstacleInterval | game.js:259 | the next obstacle interval lies in [180, 350) |
| Spawn.NewCloud | game.js:324-331 | a new cloud starts at the right edge with height 20, y in [20, 60) and width in [40, 60) |
| Spawn.NewGroundPatch | game.js:356-363 | a new ground element starts at the right edge, 5 above the ground line, with height 5 and width in [10, 20) |
| Spawn.AdvanceKeepsShapes | game.js:263-270 | moving and pruning keeps every obstacle's type-fixed shape |
| Physics.InitialPlayer | game.js:42-62 | the constructor's player stands on the ground line at full height, not ducking, at rest but not yet grounded |
| Physics.Fallen | game.js:239-250 | one tick of physics changes only y, dy and grounded. Afterwards y <= groundY - height + 5. The clamp fires exactly when the integrated y reaches that line, and then dy is 0 and grounded is true. Otherwise y and dy are the plain gravity step. A grounded player never becomes ungrounded |
| Physics.FallenKeepsValid | game.js:239-250 | a tick of physics keeps the player's invariant, and a grounded player at rest does not move |
| Collision.IsColliding | game.js:386-397 | the four strict hitbox-against-obstacle comparisons (their meaning is the next row) |
| Collision.CollidingIffSharedPoint | game.js:386-397 | the four strict comparisons hold exactly when the player's hitbox and the obstacle's rectangle, as open rectangles, share a point |
| Collision.EdgeContactIsNoHit | game.js:393-396 | a hitbox that only touches an obstacle along an edge does not collide |
| Pace.Tick | game.js:212-220 | the score grows by exactly 0.025. When the new score's hundred is above the watermark's and the score is positive, the speed is multiplied by 1.05 and the watermark becomes the score. Otherwise speed and watermark are unchanged |
| Pace.BucketStep | game.js:213-215 | one tick moves the score at most one hundred further |
| Pace.TickKeepsPaced | game.js:212-220 | a tick keeps "speed = 1.5 * 1.05^floor(score/100), watermark in the score's hundred", and the raise fires exactly on the tick the score enters a new hundred |
| Pace.RestIsPaced | game.js:35-39 | the starting score, speed and watermark satisfy that invariant |
| Pace.TicksScore | game.js:213 | after n ticks from the start the score is n * 0.025 |
| Pace.TicksPaced | game.js:212-220 | every score/speed state reachable from the start satisfies the invariant |
| Pace.TicksFromRest | game.js:217-218 | after n ticks from the start the speed is 1.5 * 1.05^floor(n * 0.025 / 100) |
| ScoreFormat.Decimal | game.js:599 | `toString` of a non-negative integer below 10^21 yields at least one character, all decimal digits |
| ScoreFormat.DecimalLength | game.js:599 | those digits are the shortest representation: n < 10^len, and 10^(len-1) <= n when len > 1 (no leading zero) |
| ScoreFormat.ParseDecimalOfDecimal | game.js:599 | the digits read back as the number |
| ScoreFormat.PadStart | game.js:599 | `padStart` has length max(len, length of s), ends with s, and the part before s is all fill characters |
| ScoreFormat.ParseLeadingZeros | game.js:599 | leading zeros do not change the value read back |
| ScoreFormat.FormatScore | game.js:598-600 | the score's decimal digits padded in front with '0' to five characters (its contract is carried by the next two rows) |
| ScoreFormat.FormatScoreShape | game.js:598-600 | the formatted score has length max(5, digits), is exactly 5 long precisely when the score is below 100000, is all digits, ends with the score's digits, and is preceded only by '0's |
| ScoreFormat.FormatScoreRoundTrip | game.js:598-600 | the formatted score reads back as the score |
| Game.HighScore | game.js:403-404 | the high score after a game over is max(hiScore, floor(score)): it never decreases and is one of the two |
| Game.CapyDinoGame.constructor | game.js:33-76 | the field initialisation: state 'start', score 0, speed 1.5, watermark 0, the stored high score, the initial player, empty lists with zero timers and an obstacle interval of 200; the invariant holds |
| Game.CapyDinoGame.HandleJump | game.js:166-175 | from 'start' only the state changes, to 'playing'. While playing, a grounded, non-ducking player gets dy = -jumpPower and grounded = false. Any other playing player makes no change at all. From 'gameOver' the effects of restart follow. The invariant is kept |
| Game.CapyDinoGame.HandleDuck | game.js:177-188 | nothing changes unless playing and grounded. Otherwise ducking is set, the height becomes 26 or 47, and y = groundY - height + 5 |
| Game.CapyDinoGame.StartGame | game.js:190-193 | the state becomes 'playing' and nothing else changes |
| Game.CapyDinoGame.Restart | game.js:195-207 | the state becomes 'playing'. Score, speed and watermark are reset, the obstacles are emptied and their timer zeroed. The player gets y = groundY - height + 5, dy = 0 and grounded = true, with height and ducking kept. Clouds, ground elements, the cloud timer and the high score are not in its modifies clause |
| Game.CapyDinoGame.UpdatePlayer | game.js:239-250 | the player becomes `Fallen` of the old player, and nothing else changes |
| Game.CapyDinoGame.GenerateObstacle | game.js:273-304 | exactly one obstacle, of the drawn type and shape, is appended |
| Game.CapyDinoGame.UpdateObstacles | game.js:252-271 | the timer increments. When it reaches the interval, one obstacle is appended, the timer resets to 0 and a new interval is drawn. Then the list is moved by gameSpeed and pruned. The timer, interval, on-screen and shape invariant is kept |
| Game.CapyDinoGame.GenerateCloud | game.js:324-331 | exactly one cloud is appended |
| Game.CapyDinoGame.UpdateClouds | game.js:306-322 | a cloud is appended every 200 ticks, and the clouds move by gameSpeed * 0.2 and are pruned |
| Game.CapyDinoGame.UpdateGroundElements | game.js:344-364 | the ground elements are moved by gameSpeed and pruned first. Then one is appended exactly when the draw is below 0.02 |
| Game.CapyDinoGame.CheckCollisions | game.js:377-384 | gameOver is called at most once, and exactly when some obstacle collides. The state and the high score change only in that case |
| Game.CapyDinoGame.GameOver | game.js:399-410 | the state becomes 'gameOver' and the high score becomes max(hiScore, floor(score)) |
| Game.CapyDinoGame.StepScore | game.js:212-220 | score, speed and watermark become `Tick` of their old values, and the pace invariant is kept |
| Game.CapyDinoGame.StepScoreAndPlayer | game.js:212-224 | the score step followed by updatePlayer |
| Game.CapyDinoGame.UpdateLists | game.js:226-233 | the obstacle, cloud and ground-element updates in order, each with its contract above |
| Game.CapyDinoGame.PlayTick | game.js:211-236 | a playing tick: score and speed step, player physics, the three list updates, then the collision check. gameOver runs at most once, and the state becomes 'gameOver' exactly when the final player hits a final obstacle |
| Game.CapyDinoGame.Update | game.js:209-237 | when not playing nothing changes at all. When playing, the tick's full effect. The invariant is kept and gameOver is called at most once |

## Left out

- Rendering: `render`, the draw helpers and `updateGifPosition`. These are canvas and DOM calls with no effect on the game state.
- DOM and event wiring: `setupEventListeners`, the external link button, and the screen `style.display` writes in `startGame`, `restart` and `gameOver`. This is I/O only.
- `updateScore`'s `textContent` write, and `gameOver`'s write of the formatted high score. These are output; `FormatScore` models the string they show.
- `localStorage`: the stored high score is a constructor parameter, and the write in `gameOver` is not modelled. game.js:38 can load the stored value as a string; the model assumes a non-negative integer.
- `gameLoop` and `requestAnimationFrame`, and the image `onload`/`onerror` callbacks. These are host scheduling and asynchronous I/O.
- `init`: the constructor ends by calling `init()` (game.js:81), which fills the lists through `generateInitialClouds` and `generateInitialGroundElements`. Right after construction the source therefore holds 3 clouds and 5 ground elements at random x in [0, canvas width). The model's constructor covers only the field initialisation of game.js:33-76, so its lists start empty.
- ScoreFormat.Decimal: it gives plain digits for every non-negative integer. JavaScript's `toString` uses exponent form (`1e+21`) from 10^21 up. The game never reaches that range: the floating-point score stops growing long before it, and the high score passed to the constructor is taken to be a small integer.
- The obstacle colour and the player colour fields, which are only used for drawing.
- libgif.js, a host-side GIF stub with no game logic.
- IEEE-754 rounding: score, speed, gravity and positions are exact reals. No claim is made about float-exact results, for example about whether 40 ticks give a score of exactly 1.
- The random distribution: draws are inputs in [0, 1), and only their ranges are used.
