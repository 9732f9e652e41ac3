/** The fixed configuration of one game session (game.js:4-31).
    Every length and speed is counted in tenths of a canvas pixel, so that the
    fractional constants of the game (gravity 1.7, speed step 0.1, platform gap
    51) become exact integers. */
module World {

  /** Stage size: 320 x 480 pixels. */
  const Width: int := 3200
  const Height: int := 4800
  /** The stage centre, as a real for comparing with pointer coordinates. */
  const HalfWidth: real := (Width / 2) as real
  const HalfHeight: real := (Height / 2) as real

  /** Player box: 30 x 30 pixels, moving 5 pixels per frame per pressed axis. */
  const PlayerW: int := 300
  const PlayerH: int := 300
  const PlayerSpeed: int := 50

  /** `player.w + 10`: the narrowest gap, wide enough for the player to pass. */
  const MinGapWidth: real := 400.0
  /** `player.h * 1.7`: vertical distance between consecutive platforms. */
  const PlatformGap: int := 510
  const PlatformHeight: int := 100

  /** Scroll speed: 2 pixels per frame at the start, at most 10, raised by 0.1. */
  const InitialPlatformSpeed: int := 20
  const MaxPlatformSpeed: int := 100
  const SpeedStep: int := 1
  /** The speed is raised whenever the score reaches a multiple of this. */
  const SpeedUpEvery: nat := 10

  const Gravity: int := 17
  /** Offset below a platform's bottom edge at which a colliding player is put. */
  const SettleOffset: int := 20

  /** Lines to clear to win. */
  const MaxScore: nat := 100000

  /** Half-width of the dead zone around the stage centre for pointer input. */
  const TouchDeadzone: real := 200.0
}
