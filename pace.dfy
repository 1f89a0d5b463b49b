/**
 * The score and speed step at the top of update() in game.js: the score grows
 * by a fixed amount per tick and the speed grows by 5% the first tick the
 * score enters a new hundred, tracked by the lastSpeedIncreaseScore watermark.
 */
module Pace {

  /** score, gameSpeed and lastSpeedIncreaseScore. */
  datatype Pace = Pace(score: real, speed: real, watermark: real)

  const ScorePerTick: real := 0.025
  const StartSpeed: real := 1.5
  const SpeedFactor: real := 1.05

  /** Math.floor(v / 100): the hundred a score lies in. */
  function Bucket(v: real): int
  {
    (v / 100.0).Floor
  }

  function Pow(b: real, n: nat): real
  {
    if n == 0 then 1.0 else b * Pow(b, n - 1)
  }

  /** The state set by the constructor and by restart. */
  const Rest: Pace := Pace(0.0, StartSpeed, 0.0)

  /** The speed is raised when the new score is in a later hundred than the watermark. */
  predicate Raises(score: real, watermark: real)
  {
    Bucket(score) > Bucket(watermark) && score > 0.0
  }

  /** One tick of score and speed. */
  function Tick(p: Pace): (q: Pace)
    ensures q.score == p.score + ScorePerTick
    ensures Raises(q.score, p.watermark) ==> q.speed == p.speed * SpeedFactor && q.watermark == q.score
    ensures !Raises(q.score, p.watermark) ==> q.speed == p.speed && q.watermark == p.watermark
  {
    var score := p.score + ScorePerTick;
    if Raises(score, p.watermark) then Pace(score, p.speed * SpeedFactor, score)
    else Pace(score, p.speed, p.watermark)
  }

  /** n ticks from p. */
  function Ticks(p: Pace, n: nat): Pace
  {
    if n == 0 then p else Tick(Ticks(p, n - 1))
  }

  /**
   * The watermark is in the score's hundred and the speed has been raised
   * exactly once per hundred reached.
   */
  predicate Paced(p: Pace)
  {
    p.score >= 0.0 &&
    Bucket(p.watermark) == Bucket(p.score) &&
    p.speed == StartSpeed * Pow(SpeedFactor, Bucket(p.score) as nat)
  }

  /** A tick moves the score at most one hundred further. */
  lemma BucketStep(s: real)
    requires s >= 0.0
    ensures 0 <= Bucket(s) <= Bucket(s + ScorePerTick) <= Bucket(s) + 1
  {
  }

  /** A tick keeps the pace invariant: the raise fires once on entering each hundred. */
  lemma TickKeepsPaced(p: Pace)
    requires Paced(p)
    ensures Paced(Tick(p))
    ensures Bucket(Tick(p).score) > Bucket(p.score) <==> Raises(Tick(p).score, p.watermark)
  {
    BucketStep(p.score);
  }

  /** The state set by the constructor and by restart is paced. */
  lemma RestIsPaced()
    ensures Paced(Rest)
  {
    assert Bucket(0.0) == 0;
  }

  /** After n ticks from rest the score is n * 0.025. */
  lemma {:induction false} TicksScore(n: nat)
    ensures Ticks(Rest, n).score == n as real * ScorePerTick
  {
    if n > 0 {
      TicksScore(n - 1);
      assert Ticks(Rest, n).score == Ticks(Rest, n - 1).score + ScorePerTick;
    }
  }

  /** Every state reached from rest is paced. */
  lemma {:induction false} TicksPaced(n: nat)
    ensures Paced(Ticks(Rest, n))
  {
    if n == 0 {
      RestIsPaced();
    } else {
      TicksPaced(n - 1);
      TickKeepsPaced(Ticks(Rest, n - 1));
    }
  }

  /**
   * After n ticks from rest the speed has been multiplied by 1.05 exactly
   * floor(n * 0.025 / 100) times.
   */
  lemma TicksFromRest(n: nat)
    ensures Ticks(Rest, n).speed == StartSpeed * Pow(SpeedFactor, Bucket(n as real * ScorePerTick) as nat)
  {
    TicksScore(n);
    TicksPaced(n);
  }
}
