/** Player movement and collision resolution of updatePlayer (game.js:94-116). */
module Physics {
  import opened World
  import opened Platforms

  /** The two clamping tests of one axis (game.js:98-101): a coordinate `v` of a
      box of length `size` is kept on a stage of length `extent`. */
  function ClampAxis(v: int, size: int, extent: int): (r: int)
    ensures size <= extent ==> 0 <= r <= extent - size
    ensures 0 <= v && v + size <= extent ==> r == v
    ensures size <= extent && v < 0 ==> r == 0
    ensures v + size > extent ==> r == extent - size
  {
    var low := if v < 0 then 0 else v;
    if low + size > extent then extent - size else low
  }

  /** The player's vertical span [y, y + h) overlaps the platform's
      [p.y, p.y + platformHeight) (game.js:107-108). */
  predicate SpansOverlap(p: Platform, y: int) {
    y + PlayerH > p.y && y < p.y + PlatformHeight
  }

  /** The player at `x` is not wholly inside the gap, so it touches a solid part
      (game.js:110). */
  predicate OutsideGap(p: Platform, x: int) {
    (x as real) < p.gapX || ((x + PlayerW) as real) > p.gapX + p.gapWidth
  }

  predicate Hits(p: Platform, x: int, y: int) {
    SpansOverlap(p, y) && OutsideGap(p, x)
  }

  /** Where a player that hits `p` is put: just below the platform's bottom edge. */
  function RestBelow(p: Platform): int {
    p.y + PlatformHeight + SettleOffset
  }

  /** The collision loop of updatePlayer: the platforms are tested in array order
      against the player's current `y`, which each hit overwrites. */
  function Collide(ps: seq<Platform>, x: int, y0: int): int
  {
    if ps == [] then y0
    else
      var y := Collide(ps[..|ps| - 1], x, y0);
      var p := ps[|ps| - 1];
      if Hits(p, x, y) then RestBelow(p) else y
  }

  /** Collision either leaves `y` alone or puts the player just below one of
      the platforms. */
  lemma {:induction false} CollideOutcome(ps: seq<Platform>, x: int, y0: int)
    ensures Collide(ps, x, y0) == y0 || exists i :: 0 <= i < |ps| && Collide(ps, x, y0) == RestBelow(ps[i])
  {
    if ps != [] {
      var n := |ps| - 1;
      CollideOutcome(ps[..n], x, y0);
      if Collide(ps, x, y0) != y0 && Collide(ps, x, y0) != RestBelow(ps[n]) {
        var i :| 0 <= i < n && Collide(ps[..n], x, y0) == RestBelow(ps[..n][i]);
        assert ps[..n][i] == ps[i];
      }
    }
  }

  /** If no platform is hit where the player stands, collision leaves `y` alone. */
  lemma {:induction false} CollideMisses(ps: seq<Platform>, x: int, y0: int)
    requires forall i :: 0 <= i < |ps| ==> !Hits(ps[i], x, y0)
    ensures Collide(ps, x, y0) == y0
  {
    if ps != [] {
      CollideMisses(ps[..|ps| - 1], x, y0);
    }
  }

  /** One more platform of the collision loop, as a prefix of the array. */
  lemma CollideStep(ps: seq<Platform>, x: int, y0: int, k: nat)
    requires k < |ps|
    ensures Collide(ps[..k + 1], x, y0) ==
      var y := Collide(ps[..k], x, y0);
      if Hits(ps[k], x, y) then RestBelow(ps[k]) else y
  {
    assert ps[..k + 1][..k] == ps[..k];
  }

  /** The last hit in array order wins: if platform `j` is hit (at the `y` reached
      after the platforms before it) and no later platform up to `n` is, the
      player ends just below platform `j`. */
  lemma {:induction false} LastHitWins(ps: seq<Platform>, x: int, y0: int, j: nat, n: nat)
    requires j < n <= |ps|
    requires Hits(ps[j], x, Collide(ps[..j], x, y0))
    requires forall k :: j < k < n ==> !Hits(ps[k], x, Collide(ps[..k], x, y0))
    ensures Collide(ps[..n], x, y0) == RestBelow(ps[j])
    decreases n
  {
    CollideStep(ps, x, y0, n - 1);
    if j < n - 1 {
      LastHitWins(ps, x, y0, j, n - 1);
    }
  }
}
