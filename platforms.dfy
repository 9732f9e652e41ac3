/** The platform stream: creation, the recycling queue and the shape of the
    stream (game.js:42-63). */
module Platforms {
  import opened World

  /** One draw of Math.random(): a real in [0, 1). */
  type Unit = r: real | 0.0 <= r < 1.0 witness 0.0

  /** The two Math.random() draws one createPlatform call consumes, in call order. */
  datatype Draw = Draw(r1: Unit, r2: Unit)

  /** A platform: its top edge `y` and the gap [gapX, gapX + gapWidth] in it. */
  datatype Platform = Platform(y: int, gapX: real, gapWidth: real, scored: bool)

  /** The seeding loop of resetGame creates one platform for each multiple of
      platformGap below the bottom of the stage. */
  const SeedCount: nat := (Height + PlatformGap - 1) / PlatformGap

  /** The gap is at least minGapWidth and at most half the stage wide, and lies
      wholly on the stage. */
  predicate GapFits(p: Platform) {
    MinGapWidth <= p.gapWidth <= HalfWidth && 0.0 <= p.gapX && p.gapX + p.gapWidth <= Width as real
  }

  predicate AllGapsFit(ps: seq<Platform>) {
    forall i :: 0 <= i < |ps| ==> GapFits(ps[i])
  }

  lemma ProductNonNegative(a: real, b: real)
    requires 0.0 <= a && 0.0 <= b
    ensures 0.0 <= a * b
  {
  }

  /** The fraction `r` of a non-negative length `s`, as `Math.random() * s`. */
  function Scale(r: Unit, s: real): (v: real)
    requires 0.0 <= s
    ensures 0.0 <= v <= s
  {
    ProductNonNegative(r, s);
    ProductNonNegative(1.0 - r, s);
    assert s - r * s == (1.0 - r) * s;
    r * s
  }

  /** createPlatform (game.js:48-52): the platform that is pushed for top edge `y`. */
  function NewPlatform(y: int, d: Draw): (p: Platform)
    ensures p.y == y && !p.scored
    ensures GapFits(p)
  {
    var gapWidth := MinGapWidth + Scale(d.r1, HalfWidth - MinGapWidth);
    var gapX := Scale(d.r2, Width as real - gapWidth);
    Platform(y, gapX, gapWidth, false)
  }

  /** Number of platforms whose top edge is below the bottom of the stage. */
  function Below(ps: seq<Platform>): nat {
    if ps == [] then 0 else (if ps[0].y > Height then 1 else 0) + Below(ps[1..])
  }

  lemma {:induction false} BelowAppend(ps: seq<Platform>, q: Platform)
    ensures Below(ps + [q]) == Below(ps) + (if q.y > Height then 1 else 0)
  {
    if ps != [] {
      assert (ps + [q])[1..] == ps[1..] + [q];
      BelowAppend(ps[1..], q);
    }
  }

  /** How far the last platform's top edge lies below the stage, or 0. */
  function Excess(ps: seq<Platform>): nat
    requires ps != []
  {
    var last := ps[|ps| - 1].y;
    if last > Height then last - Height else 0
  }

  /** Termination measure of the recycling loop. */
  function RecycleMeasure(ps: seq<Platform>): nat
    requires ps != []
  {
    Below(ps) + Excess(ps)
  }

  /** One turn of the recycling loop (shift the front, push a platform one gap
      above the last one) strictly lowers the measure. */
  lemma RecycleStepDecreases(ps: seq<Platform>, q: Platform)
    requires |ps| >= 2 && ps[0].y > Height
    requires q.y == ps[|ps| - 1].y - PlatformGap
    ensures RecycleMeasure(ps[1..] + [q]) < RecycleMeasure(ps)
  {
    BelowAppend(ps[1..], q);
  }

  /** The recycling `while` loop of updatePlatforms (game.js:60-63) as a function:
      while the FRONT platform is below the stage, drop it and push a new platform
      one gap above the current LAST one. The k-th recycled platform of the pass
      uses the draws `rand(k)`. Line 62 reads the last element after the shift,
      so the stream must keep at least two platforms. */
  function Recycled(ps: seq<Platform>, rand: nat -> Draw, k: nat): (r: seq<Platform>)
    requires |ps| >= 2
    ensures |r| == |ps|
    ensures r[0].y <= Height
    ensures ps[0].y <= Height ==> r == ps
    ensures AllGapsFit(ps) ==> AllGapsFit(r)
    decreases RecycleMeasure(ps)
  {
    if ps[0].y > Height then
      var q := NewPlatform(ps[|ps| - 1].y - PlatformGap, rand(k));
      RecycleStepDecreases(ps, q);
      Recycled(ps[1..] + [q], rand, k + 1)
    else
      ps
  }

  /** `r` is `ps` with its first `d` platforms dropped and `d` unscored
      platforms appended at the back. */
  predicate Survives(ps: seq<Platform>, r: seq<Platform>, d: nat) {
    d <= |ps| == |r| && r[..|ps| - d] == ps[d..] &&
    forall i :: |ps| - d <= i < |ps| ==> !r[i].scored
  }

  /** One turn of the recycling loop drops one more platform of the old stream,
      unless every old platform has already gone. */
  lemma SurvivesStep(ps: seq<Platform>, q: Platform, r: seq<Platform>, d: nat)
    requires ps != [] && !q.scored && Survives(ps[1..] + [q], r, d)
    ensures Survives(ps, r, if d < |ps| then d + 1 else d)
  {
    var n := |ps|;
    var ns := ps[1..] + [q];
    if d < n {
      assert r[..n - (d + 1)] == r[..n - d][..n - (d + 1)];
      assert ns[d..][..n - (d + 1)] == ps[d + 1..];
      assert r[n - (d + 1)] == r[..n - d][n - (d + 1)] == q;
    }
  }

  /** A recycling pass only drops platforms from the front and appends fresh
      ones: what is left of the old stream keeps every field, its scored flag
      included, and every appended platform is unscored. Nothing is dropped
      exactly when the front is already on the stage. */
  lemma {:induction false} RecycledKeepsSurvivors(ps: seq<Platform>, rand: nat -> Draw, k: nat)
    requires |ps| >= 2
    ensures exists d: nat :: Survives(ps, Recycled(ps, rand, k), d) && (d == 0 <==> ps[0].y <= Height)
    decreases RecycleMeasure(ps)
  {
    var r := Recycled(ps, rand, k);
    if ps[0].y <= Height {
      assert Survives(ps, r, 0);
    } else {
      var q := NewPlatform(ps[|ps| - 1].y - PlatformGap, rand(k));
      var ns := ps[1..] + [q];
      RecycleStepDecreases(ps, q);
      RecycledKeepsSurvivors(ns, rand, k + 1);
      var d: nat :| Survives(ns, r, d) && (d == 0 <==> ns[0].y <= Height);
      SurvivesStep(ps, q, r, d);
      assert Survives(ps, r, if d < |ps| then d + 1 else d);
    }
  }

  function Dist(i: int, j: int): nat {
    if i <= j then j - i else i - j
  }

  /** Each platform a recycling pass pushes lies one gap above the last platform
      at that moment, so the pass ends with the last platform `t` gaps above the
      old last one, where `t` is the number of platforms pushed. */
  lemma {:induction false} RecycledLast(ps: seq<Platform>, rand: nat -> Draw, k: nat)
    requires |ps| >= 2
    ensures exists t: nat ::
      (Recycled(ps, rand, k)[|ps| - 1].y == ps[|ps| - 1].y - t * PlatformGap &&
       (t == 0 <==> ps[0].y <= Height))
    decreases RecycleMeasure(ps)
  {
    var r := Recycled(ps, rand, k);
    var n := |ps|;
    if ps[0].y <= Height {
      assert r[n - 1].y == ps[n - 1].y - 0 * PlatformGap;
    } else {
      var q := NewPlatform(ps[n - 1].y - PlatformGap, rand(k));
      var ns := ps[1..] + [q];
      RecycleStepDecreases(ps, q);
      RecycledLast(ns, rand, k + 1);
      var t: nat :| r[n - 1].y == ns[n - 1].y - t * PlatformGap && (t == 0 <==> ns[0].y <= Height);
      assert r[n - 1].y == ps[n - 1].y - (t + 1) * PlatformGap;
    }
  }

  /** A pass that recycles anything stops at the first front platform on the
      stage, and that platform lies less than one gap above the bottom. */
  lemma {:induction false} RecycledFrontNearBottom(ps: seq<Platform>, rand: nat -> Draw, k: nat, m: nat)
    requires |ps| >= 2 && Stacked(ps, m) && ps[0].y > Height
    ensures Height - PlatformGap < Recycled(ps, rand, k)[0].y
    decreases RecycleMeasure(ps)
  {
    var n := |ps|;
    var q := NewPlatform(ps[n - 1].y - PlatformGap, rand(k));
    var ns := ps[1..] + [q];
    StackedStep(ps, m, q);
    RecycleStepDecreases(ps, q);
    if ns[0].y > Height {
      RecycledFrontNearBottom(ns, rand, k + 1, if m == 0 then 0 else m - 1);
    } else {
      assert ps[1].y >= ps[0].y - PlatformGap;
    }
  }

  /** The shape of the stream around its lowest platform `m`: the top edges grow
      by exactly one platform gap from index 0 up to `m`, and shrink by exactly
      one gap from `m` to the end. Seeding gives m == |ps| - 1. */
  predicate Stacked(ps: seq<Platform>, m: nat) {
    m < |ps| &&
    (forall i :: 0 <= i <= m ==> ps[i].y == ps[m].y - (m - i) * PlatformGap) &&
    (forall i :: m <= i < |ps| ==> ps[i].y == ps[m].y - (i - m) * PlatformGap)
  }

  /** In a stacked stream, platform `i` lies `Dist(i, m)` gaps above platform `m`,
      so platform `m` is the lowest. */
  lemma StackedHeights(ps: seq<Platform>, m: nat, i: nat)
    requires Stacked(ps, m) && i < |ps|
    ensures ps[i].y == ps[m].y - Dist(i, m) * PlatformGap
    ensures ps[i].y <= ps[m].y
  {
  }

  /** While the stream is still in its seeded, rising order, the recycling test
      on the front platform succeeds only when every platform has left the stage. */
  lemma RisingFrontIsTopmost(ps: seq<Platform>)
    requires ps != [] && Stacked(ps, |ps| - 1) && ps[0].y > Height
    ensures forall i :: 0 <= i < |ps| ==> ps[i].y > Height
  {
  }

  /** Shifting every platform by the same amount keeps the shape. */
  lemma StackedShift(ps: seq<Platform>, qs: seq<Platform>, m: nat, d: int)
    requires Stacked(ps, m) && |qs| == |ps|
    requires forall i :: 0 <= i < |ps| ==> qs[i].y == ps[i].y + d
    ensures Stacked(qs, m)
  {
  }

  /** One turn of the recycling loop moves the peak one place to the front, or
      keeps a falling stream falling. */
  lemma StackedStep(ps: seq<Platform>, m: nat, q: Platform)
    requires |ps| >= 2 && Stacked(ps, m)
    requires q.y == ps[|ps| - 1].y - PlatformGap
    ensures Stacked(ps[1..] + [q], if m == 0 then 0 else m - 1)
  {
  }

  /** A recycling pass that removes anything leaves the stream falling from its
      front: the front platform is then the lowest, and each later one is one gap
      higher. A pass that removes nothing leaves the stream as it was. */
  lemma {:induction false} RecycledShape(ps: seq<Platform>, rand: nat -> Draw, k: nat, m: nat)
    requires |ps| >= 2 && Stacked(ps, m)
    ensures Stacked(Recycled(ps, rand, k), if ps[0].y > Height then 0 else m)
    decreases RecycleMeasure(ps)
  {
    if ps[0].y > Height {
      var q := NewPlatform(ps[|ps| - 1].y - PlatformGap, rand(k));
      var ns := ps[1..] + [q];
      var m' := if m == 0 then 0 else m - 1;
      StackedStep(ps, m, q);
      RecycleStepDecreases(ps, q);
      if m >= 1 {
        assert ns[0].y > Height;
      }
      RecycledShape(ns, rand, k + 1, m');
    }
  }
}
