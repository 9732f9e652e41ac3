/** Scoring and difficulty: the scoring pass of updatePlatforms
    (game.js:64-78) and the speed-up rule inside it. */
module Scoring {
  import opened World
  import opened Platforms

  function Min(a: int, b: int): int {
    if a <= b then a else b
  }

  /** Reference curve: the scroll speed `score` points after a reset, one speed
      step for every multiple of ten reached, held at the maximum. */
  function SpeedForScore(score: nat): (s: int)
    ensures InitialPlatformSpeed <= s <= MaxPlatformSpeed
    ensures s == MaxPlatformSpeed || s == InitialPlatformSpeed + score / SpeedUpEvery
  {
    Min(InitialPlatformSpeed + score / SpeedUpEvery * SpeedStep, MaxPlatformSpeed)
  }

  /** A higher score never earns a lower speed. */
  lemma SpeedForScoreMonotone(a: nat, b: nat)
    requires a <= b
    ensures SpeedForScore(a) <= SpeedForScore(b)
  {
  }

  /** The speed-up applied when the score has just become `score`
      (game.js:69-72). */
  function StepSpeed(speed: int, score: nat): (r: int)
    ensures speed <= MaxPlatformSpeed ==> speed <= r <= MaxPlatformSpeed
    ensures r != speed <==> score % SpeedUpEvery == 0 && speed < MaxPlatformSpeed
    ensures r != speed ==> r == Min(speed + SpeedStep, MaxPlatformSpeed)
  {
    if score % SpeedUpEvery == 0 && speed < MaxPlatformSpeed then
      var raised := speed + SpeedStep;
      if raised > MaxPlatformSpeed then MaxPlatformSpeed else raised
    else
      speed
  }

  /** The speed-up rule follows the reference curve one point at a time. */
  lemma StepSpeedFollowsScore(score: nat)
    ensures StepSpeed(SpeedForScore(score), score + 1) == SpeedForScore(score + 1)
  {
  }

  /** The scoring test of game.js:65: not yet scored, and its top edge is below
      the player's bottom edge `bottom`. */
  predicate Clears(p: Platform, bottom: int) {
    !p.scored && p.y > bottom
  }

  /** One platform after the scoring pass: its flag only goes from false to true,
      nothing else about it changes. */
  function Mark(p: Platform, bottom: int): (r: Platform)
    ensures r.y == p.y && r.gapX == p.gapX && r.gapWidth == p.gapWidth
    ensures r.scored <==> p.scored || p.y > bottom
    ensures p.scored ==> r == p
    ensures !Clears(r, bottom)
  {
    if Clears(p, bottom) then p.(scored := true) else p
  }

  /** Number of the first `n` platforms that the scoring pass marks. */
  function NewlyScored(ps: seq<Platform>, n: nat, bottom: int): (count: nat)
    requires n <= |ps|
    ensures count <= n
  {
    if n == 0 then 0
    else NewlyScored(ps, n - 1, bottom) + (if Clears(ps[n - 1], bottom) then 1 else 0)
  }

  /** The pass scores nothing exactly when no platform passes the scoring test. */
  lemma {:induction false} NothingScoredIffNoneClears(ps: seq<Platform>, n: nat, bottom: int)
    requires n <= |ps|
    ensures NewlyScored(ps, n, bottom) == 0 <==> forall i :: 0 <= i < n ==> !Clears(ps[i], bottom)
  {
    if n > 0 {
      NothingScoredIffNoneClears(ps, n - 1, bottom);
    }
  }

  /** A second scoring pass with the player where it was marks nothing. */
  lemma {:induction false} RescoringScoresNothing(ps: seq<Platform>, qs: seq<Platform>, bottom: int)
    requires |qs| == |ps|
    requires forall i :: 0 <= i < |ps| ==> qs[i] == Mark(ps[i], bottom)
    ensures NewlyScored(qs, |qs|, bottom) == 0
  {
    NothingScoredIffNoneClears(qs, |qs|, bottom);
  }
}
