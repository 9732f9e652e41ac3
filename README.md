# Falldown: a verified model of the per-frame simulation

The game is a single-screen arcade game. A 30 x 30 box falls under gravity
through a stream of gapped platforms that scroll down the stage. The player
scores once for each platform that passes below them. The scroll speed rises
every ten points, and the game ends with a win at 100 000 points or with a loss
when the box reaches the bottom edge of the stage.

This project models the simulation in `game.js` without the drawing and DOM
calls. The model is one `Game` object (module `Falldown`) that holds:

- the player fields `x, y, w, h, speed, dx, dy`;
- the platform queue `platforms`;
- `score`, `platformSpeed` and `isGameOver`.

Its methods are the functions of `game.js`, with the same branches and in the
same order: `ResetGame`, `CreatePlatform`, the three phases of
`updatePlatforms`, `UpdatePlayer`, `CheckGameOver`, one frame of `loop` as
`Tick`, and the input handlers. The loops of the source stay loops. Each loop
is proved against a function of the old state:

- module `Platforms`: creation, recycling and the shape of the stream;
- module `Scoring`: the scoring pass and the speed-up rule;
- module `Physics`: clamping and collision;
- module `Input`: key and pointer velocity rules.

**Units.** Every length and speed is counted in tenths of a canvas pixel. That
makes the fractional constants exact integers: gravity 1.7 becomes 17, the
speed step 0.1 becomes 1, and the platform gap `player.h * 1.7 = 51` becomes
510. Positions are then `int`, so the recycling loop has an integer termination
measure. The gap of a platform comes from `Math.random()`, so `gapX` and
`gapWidth` are `real`. Pointer coordinates passed to `HandleTouch` are stage
coordinates in the same unit.

**Randomness.** Each `createPlatform` call uses two `Math.random()` draws. The
model passes them in as a `Draw`: two reals in [0, 1). The sequence of draws is
a parameter `rand: nat -> Draw`. Seeding uses `rand(i)` for the i-th platform,
and one recycling pass uses `rand(k)` for the k-th platform it pushes.

**What the invariant says.** `Game.Valid()` holds after the constructor and
`ResetGame`. `UpdatePlatforms`, `CheckGameOver`, `Tick` and the input handlers
keep it. `AdvancePlatforms` and `RecyclePlatforms` keep its stream part and
`ScorePlatforms` keeps its counter part; `UpdatePlatforms` gets the stream part
after scoring from `MarkKeepsStream`. `UpdatePlayer` keeps `x` on the stage.
`CreatePlatform` is a step of seeding and recycling, and breaks the length part
until its loop is done.
`Valid()` says:

- `x` is on the stage;
- the stream always has `SeedCount` = 10 platforms and every gap fits (at
  least `minGapWidth`, at most half the stage, wholly on the stage);
- the stream is `Stacked` around a ghost index `lowest`: the top edges grow by
  one platform gap up to platform `lowest`, then shrink by one gap to the end;
- `platformSpeed == SpeedForScore(score)`, which is `min(2 + 0.1 * (score / 10), 10)`
  in pixels, so the speed only grows and stays within [2, 10];
- a score of at least 100 000 means the game is over.

**The queue order, as written.** Seeding stores the platforms with ascending
`y`, so `platforms[0]` is the top-most platform. The recycling test reads that
one, and the new platform is placed one gap above the current last element
(game.js:60-62). The model keeps this order and proves what it leads to:

- `RisingFrontIsTopmost`: while the stream is in seeded order, nothing is
  recycled until every platform has left the stage.
- `RecycledShape`: the first pass that recycles anything leaves the stream
  falling from its front. After that, `platforms[0]` is the lowest platform and
  the queue behaves as a front-is-lowest queue.

**Scored flags.** A platform's `scored` flag is set only by the scoring test:

- `Mark` only sets a flag, and `AdvancePlatforms` keeps every flag.
- `RecycledKeepsSurvivors` shows that recycling keeps every platform it does
  not shift out, flag included, and pushes only unscored platforms.

A point is scored only for an unscored platform (`Clears`), so a platform that
has scored cannot score again while it stays in the stream.

## Model

| member | source | states |
|---|---|---|
| Platforms.Scale | game.js:49-50 | `Math.random() * s` for a non-negative length s lies between 0 and s |
| Platforms.NewPlatform | game.js:48-52 | the created platform has the requested top edge and is unscored; its gap width is between minGapWidth and half the stage width, its gap starts at or right of 0 and ends at or left of the stage width, for any two draws in [0, 1) |
| Platforms.RecycleStepDecreases | game.js:60-63 | one turn of the recycling loop (drop the front, push one gap above the last) strictly lowers a natural-number measure, so the loop terminates |
| Platforms.Recycled | game.js:60-63 | the recycling loop keeps the stream length, ends with the front platform's top edge at or above the stage bottom, changes nothing when the front is already on the stage, and keeps every gap within bounds |
| Platforms.StackedHeights | game.js:42-44 | in a stacked stream, platform i lies exactly Dist(i, m) gaps above platform m, so platform m is the lowest |
| Platforms.RisingFrontIsTopmost | game.js:60 | while the stream is still in its seeded ascending order, the recycle test on the front succeeds only when every platform is below the stage |
| Platforms.StackedShift | game.js:57-59 | moving every platform by the same amount keeps the stacked shape and its lowest index |
| Platforms.StackedStep | game.js:61-62 | one shift-and-push moves the lowest index one place to the front, or keeps a falling stream falling |
| Platforms.Survives | game.js:61-62 | defines "r is ps with its first d platforms shifted out and d unscored platforms pushed at the back" |
| Platforms.SurvivesStep | game.js:61-62 | one shift-and-push of an unscored platform drops one more platform of the old stream, keeping the rest unchanged |
| Platforms.RecycledKeepsSurvivors | game.js:60-63 | the recycling loop only shifts platforms out at the front and pushes fresh unscored ones at the back: every surviving platform keeps all its fields, its scored flag included, and nothing is shifted exactly when the front is on the stage |
| Platforms.RecycledLast | game.js:60-63 | each pushed platform lies one gap above the then-last platform, so the pass ends with the last platform t gaps above the old last one, and t is 0 exactly when the front was already on the stage |
| Platforms.RecycledFrontNearBottom | game.js:60-63 | a pass that recycles anything on a stacked stream ends with the front platform's top edge less than one gap above the stage bottom (and, by Recycled, at or above it) |
| Platforms.RecycledShape | game.js:60-63 | a recycling pass that removes anything ends with lowest index 0 (front is the lowest, each later platform one gap higher); a pass that removes nothing keeps the shape |
| Scoring.SpeedForScore | game.js:69-72 | the reference speed curve stays within [initialPlatformSpeed, maxPlatformSpeed] and is either the maximum or the initial speed plus one step per ten points |
| Scoring.StepSpeed | game.js:69-72 | the speed-up never lowers a speed at or below the maximum and never exceeds the maximum; it changes the speed exactly when the new score is a multiple of 10 and the speed is below the maximum, and then by one step, held at the maximum |
| Scoring.SpeedForScoreMonotone | game.js:66-72 | a higher score never earns a lower reference speed |
| Scoring.StepSpeedFollowsScore | game.js:66-72 | scoring one point from a speed on the reference curve gives the reference speed of the new score |
| Scoring.Clears | game.js:65 | the scoring test: the platform is unscored and its top edge is below the player's bottom edge |
| Scoring.Mark | game.js:65-67 | the pass changes only a platform's flag, and only from false to true, exactly when the platform is unscored and below the player's bottom edge; an already scored platform is untouched, and no marked platform passes the test again |
| Scoring.NewlyScored | game.js:64-67 | the number of points scored among the first n platforms is at most n |
| Scoring.NothingScoredIffNoneClears | game.js:65-66 | the pass scores no point exactly when no platform passes the scoring test |
| Scoring.RescoringScoresNothing | game.js:64-67 | a second scoring pass in the same frame, over the marked stream with the player where it was, scores nothing |
| Physics.ClampAxis | game.js:98-101 | after clamping, a box no larger than the stage lies on the stage; a coordinate already on the stage is kept; below 0 gives 0; past the far edge gives the far edge |
| Physics.SpansOverlap | game.js:107-108 | the vertical overlap test of the player's box and a platform |
| Physics.OutsideGap | game.js:110 | the test that the player is not wholly inside the platform's gap |
| Physics.Hits | game.js:107-110 | a platform is hit when both tests hold |
| Physics.RestBelow | game.js:111-112 | where a hit puts the player: the platform's top edge plus its height plus the settle offset |
| Physics.Collide | game.js:105-115 | the collision loop: the platforms are tested in array order against the current y, and each hit puts the player just below that platform |
| Physics.CollideOutcome | game.js:105-115 | collision resolution leaves y as it was or puts the player just below one of the platforms |
| Physics.CollideMisses | game.js:105-115 | if no platform is hit at the player's position, collision leaves y unchanged, so y after updatePlayer is the clamped y plus gravity |
| Physics.LastHitWins | game.js:105-115 | if platform j is hit and no later platform is hit, the player ends at platform j's bottom edge plus the settle offset: the last hit in array order wins |
| Input.IsBackKey | game.js:149-158 | the keys that move towards smaller coordinates, as tested on lines 149, 151, 155 and 157: ArrowLeft or a on the horizontal axis, ArrowUp or w on the vertical one |
| Input.IsForthKey | game.js:149-158 | the keys that move towards larger coordinates, as tested on lines 150, 152, 156 and 158: ArrowRight or d on the horizontal axis, ArrowDown or s on the vertical one |
| Input.PressAxis | game.js:148-153 | pressing a key of one axis sets that axis to -speed or +speed by direction, and any other key leaves it unchanged |
| Input.ReleaseAxis | game.js:154-159 | releasing a key zeroes an axis only when it moves in that key's direction, and otherwise leaves it unchanged |
| Input.ReleaseUndoesPress | game.js:148-159 | releasing the key just pressed stops that axis |
| Input.ReleaseOppositeKeepsMotion | game.js:154-159 | releasing the opposite key does not stop a pressed direction |
| Input.TouchAxis | game.js:163-168 | the pointer velocity on an axis is 0 when the pointer is within the 20-pixel dead zone of the centre, +speed beyond it on the far side, -speed beyond it on the near side |
| Falldown.MarkKeepsStream | game.js:64-67 | the scoring pass keeps the stream's length, gap bounds and stacked shape |
| Falldown.Game.constructor | game.js:10-31 | the session starts as resetGame leaves it and satisfies the invariant |
| Falldown.Game.CreatePlatform | game.js:48-52 | appends exactly one new platform and leaves every earlier platform unchanged |
| Falldown.Game.ResetGame | game.js:33-46 | player centred and at rest, score 0, initial speed, not over, and exactly the platforms at y = 0, gap, 2 gap, ... while y < height (on the stage), in ascending order; the invariant holds |
| Falldown.Game.AdvancePlatforms | game.js:57-59 | every platform's top edge grows by exactly platformSpeed; gaps and flags are unchanged; the stream stays well formed |
| Falldown.Game.RecyclePlatforms | game.js:60-63 | the new stream is the Recycled function of the old one, with the front on the stage and the lowest index updated |
| Falldown.Game.ScorePlatforms | game.js:64-78 | each platform becomes Mark of itself, the score rises by exactly the number newly marked, the speed stays on the reference curve, and the game is over afterwards exactly when it was before or a point was scored and the score reached maxScore |
| Falldown.Game.UpdatePlatforms | game.js:56-79 | keeps the invariant; score and speed never decrease; the score rises by at most the number of platforms; game over is kept |
| Falldown.Game.UpdatePlayer | game.js:94-116 | x is the clamped x plus velocity; y is the collision result from the clamped y plus velocity plus gravity; x stays on the stage |
| Falldown.Game.CheckGameOver | game.js:118-123 | sets game over exactly when the player's bottom edge reaches the stage bottom, and never clears it |
| Falldown.Game.Tick | game.js:133-145 | one frame keeps the invariant; x is the clamped x plus velocity and y the collision result from the clamped y plus velocity plus gravity; it never clears game over, is over afterwards exactly when it was or the score reached maxScore or the player reached the bottom, never lowers score or speed, keeps the velocity, and reports whether another frame is scheduled |
| Falldown.Game.KeyDown | game.js:148-153 | the keydown handler sets both axes by PressAxis and keeps the invariant |
| Falldown.Game.KeyUp | game.js:154-159 | the keyup handler sets both axes by ReleaseAxis and keeps the invariant |
| Falldown.Game.HandleTouch | game.js:163-168 | sets both velocity axes by TouchAxis around the stage centre |
| Falldown.Game.Release | game.js:185-189 | touch release and mouse release (game.js:206-210) zero both velocity axes |

## Left out

- Drawing (`drawPlatforms`, `drawPlayer`, `drawScore`, `clearRect`, game.js:81-92, 125-131, 134): it only writes to the canvas and changes no state.
- The game-over panel (`classList` calls, game.js:45, 75, 121): represented only by `isGameOver`.
- `requestAnimationFrame` and `restartGame` (game.js:143, 212-215, 218): the host frame loop is not modelled; `Tick` returns whether the next frame would be scheduled.
- Event-listener wiring, `getBoundingClientRect` conversion and the `touchActive` flag (game.js:148-210 apart from the velocity writes): browser input delivery. `touchActive` only decides whether a move event calls `handleTouch`.
- `Math.random()`: its draws are the `rand` parameter.
- IEEE-754 rounding of 1.7, 0.1 and the clamp of the speed: the model computes exactly, in tenths of a pixel. In exact arithmetic the speed reaches 10 without overshooting, so the clamp at game.js:71 never fires.
- The canvas size assignment (game.js:7-8): the stage is fixed at 320 x 480.
- Platforms.Recycled: requires at least two platforms. With one platform, line 62 would read an element of an empty array and the script would stop with an error. The invariant keeps ten platforms, so this case cannot occur and is not modelled.
- Falldown.Game.UpdatePlatforms: states bounds and monotonicity, not the exact new stream or the exact score; the exact state after each phase is stated by AdvancePlatforms, RecyclePlatforms and ScorePlatforms. Composing the three in one postcondition makes the proof too costly for the verifier's resource limit.
- Falldown.Game.Tick: states the exact new x and y, but for the platforms and the score only the invariant and the bounds, for the same reason as UpdatePlatforms.
