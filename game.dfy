/** One game session: the module-level state of game.js (player, platforms,
    score, platformSpeed, isGameOver) as one object, and the functions of the
    per-frame simulation as its methods. */
module Falldown {
  import opened World
  import opened Platforms
  import opened Scoring
  import opened Physics
  import opened Input

  /** The stream keeps its seeded length, every gap fits, and it rises to its
      lowest platform `lowest` and falls after it. */
  ghost predicate StreamOk(ps: seq<Platform>, lowest: nat) {
    |ps| == SeedCount && AllGapsFit(ps) && Stacked(ps, lowest)
  }

  /** The speed is the one the score has earned, and a winning score has ended
      the game. */
  ghost predicate CountersOk(score: nat, platformSpeed: int, isGameOver: bool) {
    platformSpeed == SpeedForScore(score) && (score >= MaxScore ==> isGameOver)
  }

  /** The scoring pass changes only scored flags, so the stream stays well formed. */
  lemma MarkKeepsStream(ps: seq<Platform>, qs: seq<Platform>, lowest: nat, bottom: int)
    requires StreamOk(ps, lowest) && |qs| == |ps|
    requires forall i :: 0 <= i < |ps| ==> qs[i] == Mark(ps[i], bottom)
    ensures StreamOk(qs, lowest)
  {
  }

  class Game {
    // the player object (game.js:10-18); w, h and speed are never written
    var x: int
    var y: int
    const w: int := PlayerW
    const h: int := PlayerH
    const speed: int := PlayerSpeed
    var dx: int
    var dy: int

    /** The platform queue; index 0 is the front. */
    var platforms: seq<Platform>
    var score: nat
    var platformSpeed: int
    var isGameOver: bool

    /** Index of the lowest platform: the stream rises towards it and falls after it. */
    ghost var lowest: nat

    ghost predicate Valid()
      reads this
    {
      0 <= x <= Width - w && SessionOk()
    }

    /** The part of the invariant about the platforms and the session counters. */
    ghost predicate SessionOk()
      reads this`platforms, this`lowest, this`score, this`platformSpeed, this`isGameOver
    {
      StreamOk(platforms, lowest) && CountersOk(score, platformSpeed, isGameOver)
    }

    /** The declarations of game.js:10-31 and 54, then the call of resetGame
        at game.js:217. */
    constructor (rand: nat -> Draw)
      ensures Valid()
      ensures x == Width / 2 - w / 2 && y == Height / 2 - h / 2 && dx == 0 && dy == 0
      ensures score == 0 && platformSpeed == InitialPlatformSpeed && !isGameOver
      ensures |platforms| == SeedCount
      ensures forall i :: 0 <= i < |platforms| ==> platforms[i] == NewPlatform(i * PlatformGap, rand(i))
    {
      x := Width / 2 - 150;
      y := Height / 2 - 150;
      dx, dy := 0, 0;
      platformSpeed := InitialPlatformSpeed;
      isGameOver := false;
      score := 0;
      platforms := [];
      lowest := 0;
      new;
      ResetGame(rand);
    }

    /** createPlatform (game.js:48-52): append one platform with a fresh gap. */
    method CreatePlatform(py: int, d: Draw)
      modifies this`platforms
      ensures platforms == old(platforms) + [NewPlatform(py, d)]
    {
      platforms := platforms + [NewPlatform(py, d)];
    }

    /** resetGame (game.js:33-46): the player back at the centre and at rest, the
        session counters back to their start, and the stream seeded at
        y = 0, platformGap, 2 * platformGap, ... while above the bottom. */
    method ResetGame(rand: nat -> Draw)
      modifies this`x, this`y, this`dx, this`dy, this`isGameOver, this`score,
               this`platformSpeed, this`platforms, this`lowest
      ensures Valid()
      ensures x == Width / 2 - w / 2 && y == Height / 2 - h / 2 && dx == 0 && dy == 0
      ensures score == 0 && platformSpeed == InitialPlatformSpeed && !isGameOver
      ensures |platforms| == SeedCount
      ensures forall i :: 0 <= i < |platforms| ==> platforms[i] == NewPlatform(i * PlatformGap, rand(i))
      ensures lowest == |platforms| - 1
    {
      x := Width / 2 - w / 2;
      y := Height / 2 - h / 2;
      dx := 0;
      dy := 0;
      isGameOver := false;
      score := 0;
      platformSpeed := InitialPlatformSpeed;
      platforms := [];
      var py := 0;
      var k := 0;
      while py < Height
        invariant 0 <= k <= SeedCount && py == k * PlatformGap
        invariant |platforms| == k
        invariant forall i :: 0 <= i < k ==> platforms[i] == NewPlatform(i * PlatformGap, rand(i))
        modifies this`platforms
        decreases Height - py
      {
        CreatePlatform(py, rand(k));
        py := py + PlatformGap;
        k := k + 1;
      }
      lowest := |platforms| - 1;
    }

    /** First phase of updatePlatforms (game.js:57-59): every platform moves down
        by the scroll speed. */
    method AdvancePlatforms()
      requires StreamOk(platforms, lowest)
      modifies this`platforms
      ensures StreamOk(platforms, lowest)
      ensures |platforms| == |old(platforms)|
      ensures forall i :: 0 <= i < |platforms| ==>
        platforms[i] == old(platforms[i]).(y := old(platforms[i]).y + platformSpeed)
    {
      var i := 0;
      while i < |platforms|
        invariant 0 <= i <= |platforms| == |old(platforms)|
        invariant forall j :: 0 <= j < i ==>
          platforms[j] == old(platforms[j]).(y := old(platforms[j]).y + platformSpeed)
        invariant forall j :: i <= j < |platforms| ==> platforms[j] == old(platforms[j])
        modifies this`platforms
      {
        platforms := platforms[i := platforms[i].(y := platforms[i].y + platformSpeed)];
        i := i + 1;
      }
      StackedShift(old(platforms), platforms, lowest, platformSpeed);
    }

    /** Second phase of updatePlatforms (game.js:60-63): while the front platform
        is below the stage, shift it out and push a new one a gap above the last.
        The k-th platform pushed uses the draws `rand(k)`. */
    method RecyclePlatforms(rand: nat -> Draw)
      requires StreamOk(platforms, lowest)
      modifies this`platforms, this`lowest
      ensures StreamOk(platforms, lowest)
      ensures platforms == Recycled(old(platforms), rand, 0)
      ensures platforms[0].y <= Height
      ensures lowest == if old(platforms[0].y) > Height then 0 else old(lowest)
    {
      var k := 0;
      while |platforms| > 0 && platforms[0].y > Height
        invariant |platforms| == SeedCount
        invariant Recycled(platforms, rand, k) == Recycled(old(platforms), rand, 0)
        modifies this`platforms
        decreases RecycleMeasure(platforms)
      {
        ghost var before := platforms;
        platforms := platforms[1..];
        CreatePlatform(platforms[|platforms| - 1].y - PlatformGap, rand(k));
        RecycleStepDecreases(before, platforms[|platforms| - 1]);
        k := k + 1;
      }
      RecycledShape(old(platforms), rand, 0, lowest);
      lowest := if old(platforms[0].y) > Height then 0 else lowest;
    }

    /** Third phase of updatePlatforms (game.js:64-78): each unscored platform
        whose top edge is below the player's bottom edge is marked and scores one
        point; each point may raise the speed and may end the game with a win. */
    method ScorePlatforms()
      requires CountersOk(score, platformSpeed, isGameOver)
      modifies this`platforms, this`score, this`platformSpeed, this`isGameOver
      ensures CountersOk(score, platformSpeed, isGameOver)
      ensures |platforms| == |old(platforms)|
      ensures forall i :: 0 <= i < |platforms| ==> platforms[i] == Mark(old(platforms[i]), y + h)
      ensures score == old(score) + NewlyScored(old(platforms), |platforms|, y + h)
      ensures isGameOver == (old(isGameOver) || (score > old(score) && score >= MaxScore))
    {
      var bottom := y + h;
      var i := 0;
      while i < |platforms|
        invariant 0 <= i <= |platforms| == |old(platforms)|
        invariant forall j :: 0 <= j < i ==> platforms[j] == Mark(old(platforms[j]), bottom)
        invariant forall j :: i <= j < |platforms| ==> platforms[j] == old(platforms[j])
        invariant score == old(score) + NewlyScored(old(platforms), i, bottom)
        invariant platformSpeed == SpeedForScore(score)
        invariant isGameOver == (old(isGameOver) || (score > old(score) && score >= MaxScore))
      {
        var plat := platforms[i];
        if !plat.scored && plat.y > bottom {
          StepSpeedFollowsScore(score);
          score := score + 1;
          platforms := platforms[i := plat.(scored := true)];
          platformSpeed := StepSpeed(platformSpeed, score);
          if score >= MaxScore {
            isGameOver := true;
          }
        }
        i := i + 1;
      }
    }

    /** updatePlatforms (game.js:56-79). */
    method UpdatePlatforms(rand: nat -> Draw)
      requires Valid()
      modifies this`platforms, this`lowest, this`score, this`platformSpeed, this`isGameOver
      ensures Valid()
      ensures old(score) <= score <= old(score) + |platforms|
      ensures old(platformSpeed) <= platformSpeed
      ensures isGameOver == (old(isGameOver) || (score > old(score) && score >= MaxScore))
      ensures old(platforms[0].y) + old(platformSpeed) > Height ==> lowest == 0
    {
      ghost var score0 := score;
      AdvancePlatforms();
      RecyclePlatforms(rand);
      ghost var recycled := platforms;
      ScorePlatforms();
      MarkKeepsStream(recycled, platforms, lowest, y + h);
      SpeedForScoreMonotone(score0, score);
    }

    /** updatePlayer (game.js:94-116): move by the velocity, clamp to the stage,
        fall by gravity, then resolve collisions against the platforms. */
    method UpdatePlayer()
      modifies this`x, this`y
      ensures 0 <= x <= Width - w
      ensures x == ClampAxis(old(x) + dx, w, Width)
      ensures y == Collide(platforms, x, ClampAxis(old(y) + dy, h, Height) + Gravity)
    {
      x := x + dx;
      y := y + dy;

      if x < 0 { x := 0; }
      if x + w > Width { x := Width - w; }
      if y < 0 { y := 0; }
      if y + h > Height { y := Height - h; }
      assert x == ClampAxis(old(x) + dx, w, Width) && 0 <= x <= Width - w;
      assert y == ClampAxis(old(y) + dy, h, Height) && 0 <= y <= Height - h;

      y := y + Gravity;
      ghost var fallen := y;

      var i := 0;
      while i < |platforms|
        invariant 0 <= i <= |platforms|
        invariant y == Collide(platforms[..i], x, fallen)
        modifies this`y
      {
        CollideStep(platforms, x, fallen, i);
        var plat := platforms[i];
        if SpansOverlap(plat, y) {
          if OutsideGap(plat, x) {
            y := plat.y + PlatformHeight;
            y := y + SettleOffset;
          }
        }
        i := i + 1;
      }
      assert platforms[..i] == platforms;
    }

    /** checkGameOver (game.js:118-123): the lose test. */
    method CheckGameOver()
      requires Valid()
      modifies this`isGameOver
      ensures Valid()
      ensures isGameOver == (old(isGameOver) || y + h >= Height)
    {
      if y + h >= Height {
        isGameOver := true;
      }
    }

    /** One frame of loop (game.js:133-145) without the drawing; `running` says
        whether the loop schedules another frame. */
    method Tick(rand: nat -> Draw) returns (running: bool)
      requires Valid()
      modifies this`x, this`y, this`platforms, this`lowest, this`score,
               this`platformSpeed, this`isGameOver
      ensures Valid()
      ensures x == ClampAxis(old(x) + dx, w, Width)
      ensures y == Collide(platforms, x, ClampAxis(old(y) + dy, h, Height) + Gravity)
      ensures running == !isGameOver
      ensures old(isGameOver) ==> isGameOver
      ensures isGameOver <==> old(isGameOver) || score >= MaxScore || y + h >= Height
      ensures old(score) <= score && old(platformSpeed) <= platformSpeed
      ensures dx == old(dx) && dy == old(dy)
    {
      UpdatePlatforms(rand);
      ghost var stream := platforms;
      UpdatePlayer();
      assert platforms == stream;
      CheckGameOver();
      running := !isGameOver;
    }

    /** The keydown handler (game.js:148-153). */
    method KeyDown(key: string)
      modifies this`dx, this`dy
      ensures dx == PressAxis(key, Horizontal, old(dx), speed)
      ensures dy == PressAxis(key, Vertical, old(dy), speed)
      ensures old(Valid()) ==> Valid()
    {
      dx := PressAxis(key, Horizontal, dx, speed);
      dy := PressAxis(key, Vertical, dy, speed);
    }

    /** The keyup handler (game.js:154-159). */
    method KeyUp(key: string)
      modifies this`dx, this`dy
      ensures dx == ReleaseAxis(key, Horizontal, old(dx))
      ensures dy == ReleaseAxis(key, Vertical, old(dy))
      ensures old(Valid()) ==> Valid()
    {
      dx := ReleaseAxis(key, Horizontal, dx);
      dy := ReleaseAxis(key, Vertical, dy);
    }

    /** handleTouch (game.js:163-168), for a pointer at (tx, ty) in stage coordinates. */
    method HandleTouch(tx: real, ty: real)
      modifies this`dx, this`dy
      ensures dx == TouchAxis(tx, HalfWidth, speed)
      ensures dy == TouchAxis(ty, HalfHeight, speed)
      ensures old(Valid()) ==> Valid()
    {
      dx := TouchAxis(tx, HalfWidth, speed);
      dy := TouchAxis(ty, HalfHeight, speed);
    }

    /** The touchend and mouseup handlers (game.js:185-189, 206-210). */
    method Release()
      modifies this`dx, this`dy
      ensures dx == 0 && dy == 0
      ensures old(Valid()) ==> Valid()
    {
      dx := 0;
      dy := 0;
    }
  }
}
