/** What one orientation change computes, as functions of the values it reads:
    the normalised current angle, the target size and angle for the new
    orientation, the sample of the animation at a given time since the change,
    and the transform that places the interface inside the device. The
    controller's methods are proved against these. */
module Transition {
  import opened Geometry
  import opened Orientations

  /** How long a transition animates, in seconds. */
  const AnimationDuration: real := 0.25
  /** The change time recorded for a change that is not animated. */
  const NotAnimated: real := -1.0

  /** The size of the simulated device on screen. */
  const DeviceFrame: Vec2 := Vec2(384.0, 512.0)

  /** The first normalisation loop: add full turns while the angle is negative. */
  function RaiseAngle(a: real): (r: real)
    ensures a < 0.0 ==> 0.0 <= r < FullTurn
    ensures a >= 0.0 ==> r == a
    ensures SameDirection(r, a)
    decreases if a < 0.0 then -a.Floor else 0
  {
    if a < 0.0 then
      var r := RaiseAngle(a + FullTurn);
      WholeSum((r - (a + FullTurn)) / FullTurn, 1.0);
      r
    else a
  }

  /** The second normalisation loop: subtract full turns while the angle exceeds a full turn. */
  function LowerAngle(a: real): (r: real)
    ensures a > FullTurn ==> 0.0 < r <= FullTurn
    ensures a <= FullTurn ==> r == a
    ensures SameDirection(r, a)
    decreases if a > FullTurn then a.Floor else 0
  {
    if a > FullTurn then
      var r := LowerAngle(a - FullTurn);
      WholeSum((r - (a - FullTurn)) / FullTurn, 1.0);
      r
    else a
  }

  /** The current angle brought into [0, FullTurn] (both ends included) without
      changing its direction; an angle already in that range is kept. */
  function Normalized(a: real): (r: real)
    ensures 0.0 <= r <= FullTurn
    ensures SameDirection(r, a)
    ensures 0.0 <= a <= FullTurn ==> r == a
    ensures a < 0.0 ==> r < FullTurn
    ensures a > FullTurn ==> r > 0.0
  {
    LowerAngle(RaiseAngle(a))
  }

  /** The interface size for orientation o: the device frame turned by the
      device angle, with absolute values taken. It swaps width and height for
      the two landscape orientations and keeps them otherwise. */
  function TargetSize(deviceSize: Vec2, o: Orientation): (r: Vec2)
    ensures r.NonNegative()
  {
    var theta := DeviceAngle(o);
    Vec2(Abs(deviceSize.x * Cos(theta) + deviceSize.y * Sin(theta)),
         Abs(deviceSize.y * Cos(theta) + deviceSize.x * Sin(theta)))
  }

  /** The target size swaps the device frame's width and height for the two
      landscape orientations and keeps them for every other code. */
  lemma {:induction false} TargetSizeSwapsForLandscape(deviceSize: Vec2, o: Orientation)
    ensures TargetSize(deviceSize, o)
         == if IsLandscape(o) then Vec2(Abs(deviceSize.y), Abs(deviceSize.x))
            else Vec2(Abs(deviceSize.x), Abs(deviceSize.y))
    ensures deviceSize.NonNegative() ==>
              TargetSize(deviceSize, o) == if IsLandscape(o) then deviceSize.Swapped() else deviceSize
  {
    var w, h := deviceSize.x, deviceSize.y;
    var theta := DeviceAngle(o);
    if o == Portrait || !IsInterfaceOrientation(o) {
      assert theta == 0.0 && Cos(theta) == 1.0 && Sin(theta) == 0.0;
      assert w * 1.0 + h * 0.0 == w && h * 1.0 + w * 0.0 == h;
    } else if o == LandscapeLeft {
      assert theta == 1.5 && Cos(theta) == 0.0 && Sin(theta) == -1.0;
      assert w * 0.0 + h * -1.0 == -h && h * 0.0 + w * -1.0 == -w;
    } else if o == UpsideDownPortrait {
      assert theta == 1.0 && Cos(theta) == -1.0 && Sin(theta) == 0.0;
      assert w * -1.0 + h * 0.0 == -w && h * -1.0 + w * 0.0 == -h;
    } else {
      assert theta == 0.5 && Cos(theta) == 0.0 && Sin(theta) == 1.0;
      assert w * 0.0 + h * 1.0 == h && h * 0.0 + w * 1.0 == w;
    }
  }

  /** The interface angle for orientation o, corrected by at most one full turn
      so that, from a normalised current angle, it is at most a half turn away. */
  function TargetAngle(o: Orientation, current: real): (r: real)
    ensures SameDirection(r, FullTurn - DeviceAngle(o))
    ensures r == FullTurn - DeviceAngle(o) || r == FullTurn - DeviceAngle(o) + FullTurn
         || r == FullTurn - DeviceAngle(o) - FullTurn
    ensures 0.0 <= current <= FullTurn ==> Abs(r - current) <= HalfTurn
  {
    var target := FullTurn - DeviceAngle(o);
    WholeOfInt(1);
    WholeOfInt(-1);
    WholeOfInt(0);
    if Abs(target - current) > HalfTurn then
      if target < current then target + FullTurn else target - FullTurn
    else target
  }

  /** Of all angles naming the target direction, TargetAngle is one closest to
      the normalised current angle: the animation never turns further than it must. */
  lemma {:induction false} TargetAngleIsShortest(o: Orientation, current: real, a: real)
    requires 0.0 <= current <= FullTurn
    requires SameDirection(a, FullTurn - DeviceAngle(o))
    ensures Abs(TargetAngle(o, current) - current) <= Abs(a - current)
  {
    var r := TargetAngle(o, current);
    SameDirectionSymmetric(r, FullTurn - DeviceAngle(o));
    SameDirectionTransitive(a, FullTurn - DeviceAngle(o), r);
    NearestOfDirection(r, current, a);
  }

  /** From upright, Landscape Right swaps the sides of the device frame and
      turns the interface a quarter turn backwards rather than three forwards. */
  lemma UprightToLandscapeRight()
    ensures TargetSize(DeviceFrame, LandscapeRight) == Vec2(512.0, 384.0)
    ensures FullTurn - DeviceAngle(LandscapeRight) == 1.5
    ensures TargetAngle(LandscapeRight, 0.0) == -0.5
  {
    TargetSizeSwapsForLandscape(DeviceFrame, LandscapeRight);
  }

  /** From upright, Upside Down Portrait keeps the sides of the device frame
      and turns the interface half a turn, which needs no correction. */
  lemma UprightToUpsideDown()
    ensures TargetSize(DeviceFrame, UpsideDownPortrait) == DeviceFrame
    ensures TargetAngle(UpsideDownPortrait, 0.0) == FullTurn - DeviceAngle(UpsideDownPortrait) == HalfTurn
  {
    TargetSizeSwapsForLandscape(DeviceFrame, UpsideDownPortrait);
  }

  /** The animated angle elapsed seconds after a change: a linear interpolation
      from prev to target while the animation runs, exactly target afterwards. */
  function Sample(prev: real, target: real, elapsed: real): (r: real)
    ensures elapsed >= AnimationDuration ==> r == target
    ensures elapsed == 0.0 ==> r == prev
    ensures prev == target ==> r == target
    ensures 0.0 <= elapsed ==> Min(prev, target) <= r <= Max(prev, target)
  {
    if elapsed < AnimationDuration then
      if 0.0 <= elapsed then LerpBetween(prev, target, elapsed / AnimationDuration); Lerp(prev, target, elapsed / AnimationDuration)
      else Lerp(prev, target, elapsed / AnimationDuration)
    else target
  }

  /** As time goes on, the animated angle only gets closer to its target. */
  lemma {:induction false} SampleApproachesTarget(prev: real, target: real, e1: real, e2: real)
    requires 0.0 <= e1 <= e2
    ensures Abs(Sample(prev, target, e2) - target) <= Abs(Sample(prev, target, e1) - target)
  {
    if e2 < AnimationDuration {
      LerpApproachesTarget(prev, target, e1 / AnimationDuration, e2 / AnimationDuration);
    }
  }

  /** The animated size elapsed seconds after a change, componentwise as Sample. */
  function SampleSize(prev: Vec2, target: Vec2, elapsed: real): (r: Vec2)
    ensures elapsed >= AnimationDuration ==> r == target
    ensures elapsed == 0.0 ==> r == prev
    ensures prev == target ==> r == target
    ensures 0.0 <= elapsed ==> Min(prev.x, target.x) <= r.x <= Max(prev.x, target.x)
    ensures 0.0 <= elapsed ==> Min(prev.y, target.y) <= r.y <= Max(prev.y, target.y)
  {
    if elapsed < AnimationDuration then LerpVec(prev, target, elapsed / AnimationDuration) else target
  }

  /** As time goes on, each side of the animated size only gets closer to its target. */
  lemma {:induction false} SampleSizeApproachesTarget(prev: Vec2, target: Vec2, e1: real, e2: real)
    requires 0.0 <= e1 <= e2
    ensures Abs(SampleSize(prev, target, e2).x - target.x) <= Abs(SampleSize(prev, target, e1).x - target.x)
    ensures Abs(SampleSize(prev, target, e2).y - target.y) <= Abs(SampleSize(prev, target, e1).y - target.y)
  {
    SampleApproachesTarget(prev.x, target.x, e1, e2);
    SampleApproachesTarget(prev.y, target.y, e1, e2);
  }

  /** A clock reading before the change time still interpolates, with a
      negative progress fraction: the sample leaves the segment and a side of
      the animated size can be negative. */
  lemma SampleBeforeChange()
    ensures SampleSize(DeviceFrame, DeviceFrame.Swapped(), -1.0) == Vec2(-128.0, 1024.0)
  {
  }

  /** Place the interface in the device: move the interface's centre to the
      origin, turn it by angle, and move it to the centre of the device. */
  function OrientationTransform(deviceSize: Vec2, angle: real, interfaceSize: Vec2): (t: Transform)
    ensures t.angle == angle
  {
    Transform(deviceSize.Scale(0.5), angle, interfaceSize.Scale(-0.5))
  }

  /** The interface geometry (size and angle) belongs to orientation o. */
  predicate GeometryMatches(deviceSize: Vec2, size: Vec2, angle: real, o: Orientation) {
    size == TargetSize(deviceSize, o) && SameDirection(angle, FullTurn - DeviceAngle(o))
  }

  /** Turning a rectangle about the device centre by a quarter-turn angle
      lines it up with the device frame when its sides are the frame's, swapped
      for an odd number of quarter turns. */
  lemma {:induction false} QuarterTurnCovers(deviceSize: Vec2, size: Vec2, angle: real)
    requires deviceSize.NonNegative() && IsQuarterTurn(angle)
    requires size == if QuarterIndex(angle) % 2 == 1 then deviceSize.Swapped() else deviceSize
    ensures CoversFrame(OrientationTransform(deviceSize, angle, size), size, deviceSize)
  {
    var w, h := deviceSize.x, deviceSize.y;
    var t := OrientationTransform(deviceSize, angle, size);
    var p := Apply(t, Vec2(0.0, 0.0));
    var q := Apply(t, size);
    match QuarterIndex(angle)
    case 0 =>
      assert Cos(angle) == 1.0 && Sin(angle) == 0.0;
      assert p == Vec2(0.0, 0.0) && q == Vec2(w, h);
    case 1 =>
      assert Cos(angle) == 0.0 && Sin(angle) == 1.0;
      assert p == Vec2(w, 0.0) && q == Vec2(0.0, h);
    case 2 =>
      assert Cos(angle) == -1.0 && Sin(angle) == 0.0;
      assert p == Vec2(w, h) && q == Vec2(0.0, 0.0);
    case 3 =>
      assert Cos(angle) == 0.0 && Sin(angle) == -1.0;
      assert p == Vec2(0.0, h) && q == Vec2(w, 0.0);
  }

  /** Once the interface has reached the target geometry of any orientation,
      it covers the device frame exactly: rotating about the device centre
      lines the turned interface up with the device. */
  lemma {:induction false} TargetGeometryCoversDevice(deviceSize: Vec2, o: Orientation, angle: real)
    requires deviceSize.NonNegative()
    requires SameDirection(angle, FullTurn - DeviceAngle(o))
    ensures IsQuarterTurn(angle)
    ensures CoversFrame(OrientationTransform(deviceSize, angle, TargetSize(deviceSize, o)),
                        TargetSize(deviceSize, o), deviceSize)
  {
    var theta := DeviceAngle(o);
    WholeSum(2.0 * theta, 4.0);
    assert 2.0 * (FullTurn - theta) == 4.0 - 2.0 * theta;
    QuarterTurnPeriodic(angle, FullTurn - theta);
    assert QuarterIndex(angle) % 2 == 1 <==> IsLandscape(o);
    TargetSizeSwapsForLandscape(deviceSize, o);
    QuarterTurnCovers(deviceSize, TargetSize(deviceSize, o), angle);
  }
}
