/** The velocity updates of the input handlers: keyboard (game.js:148-159) and
    pointer or touch (game.js:163-168). */
module Input {
  import opened World

  datatype Axis = Horizontal | Vertical

  /** The keys that move towards smaller coordinates: left, or up. */
  predicate IsBackKey(key: string, axis: Axis) {
    match axis
    case Horizontal => key == "ArrowLeft" || key == "a"
    case Vertical => key == "ArrowUp" || key == "w"
  }

  /** The keys that move towards larger coordinates: right, or down. */
  predicate IsForthKey(key: string, axis: Axis) {
    match axis
    case Horizontal => key == "ArrowRight" || key == "d"
    case Vertical => key == "ArrowDown" || key == "s"
  }

  /** The keydown handler on one axis's velocity `v`. */
  function PressAxis(key: string, axis: Axis, v: int, speed: int): (r: int)
    ensures IsBackKey(key, axis) ==> r == -speed
    ensures IsForthKey(key, axis) ==> r == speed
    ensures !IsBackKey(key, axis) && !IsForthKey(key, axis) ==> r == v
  {
    var back := if IsBackKey(key, axis) then -speed else v;
    if IsForthKey(key, axis) then speed else back
  }

  /** The keyup handler on one axis's velocity `v`: a key stops the motion only
      when the axis is moving in that key's direction. */
  function ReleaseAxis(key: string, axis: Axis, v: int): (r: int)
    ensures (IsBackKey(key, axis) && v < 0) || (IsForthKey(key, axis) && v > 0) ==> r == 0
    ensures !((IsBackKey(key, axis) && v < 0) || (IsForthKey(key, axis) && v > 0)) ==> r == v
  {
    var back := if IsBackKey(key, axis) && v < 0 then 0 else v;
    if IsForthKey(key, axis) && back > 0 then 0 else back
  }

  /** Releasing the key just pressed stops that axis. */
  lemma ReleaseUndoesPress(key: string, axis: Axis, v: int, speed: int)
    requires speed > 0
    requires IsBackKey(key, axis) || IsForthKey(key, axis)
    ensures ReleaseAxis(key, axis, PressAxis(key, axis, v, speed)) == 0
  {
  }

  /** Releasing the opposite key does not stop a pressed direction. */
  lemma ReleaseOppositeKeepsMotion(pressed: string, released: string, axis: Axis, v: int, speed: int)
    requires speed > 0
    requires (IsBackKey(pressed, axis) && IsForthKey(released, axis))
      || (IsForthKey(pressed, axis) && IsBackKey(released, axis))
    ensures ReleaseAxis(released, axis, PressAxis(pressed, axis, v, speed)) == PressAxis(pressed, axis, v, speed)
  {
  }

  function Abs(v: real): real {
    if v < 0.0 then -v else v
  }

  /** handleTouch on one axis: the pointer coordinate `c` against the stage
      centre `centre`; no motion inside the dead zone, otherwise towards the pointer. */
  function TouchAxis(c: real, centre: real, speed: int): (r: int)
    ensures Abs(c - centre) <= TouchDeadzone ==> r == 0
    ensures c - centre > TouchDeadzone ==> r == speed
    ensures c - centre < -TouchDeadzone ==> r == -speed
  {
    var move := if c < centre then -speed else speed;
    if Abs(c - centre) > TouchDeadzone then move else 0
  }
}
