/** The orientation-transition controller: the state of the simulated device
    and of the interface inside it, updated in place when the device orientation
    changes and on every frame.

    The clock is a parameter: `now` is the elapsed-seconds reading the source
    takes from the application at the moment of the call. */
module Controller {
  import opened Geometry
  import opened Orientations
  import opened Transition

  class OrientationController {
    /** Size of the simulated device; set once, never changed. */
    const deviceSize: Vec2
    /** The orientation last reported by the platform. */
    var deviceOrientation: Orientation

    /** Where the current transition ends. */
    var targetInterfaceSize: Vec2
    var targetInterfaceAngle: real

    /** The interface as currently drawn; the angle need not be a quarter turn mid-animation. */
    var interfaceSize: Vec2
    var interfaceOrientation: Orientation
    var interfaceAngle: real
    var orientationMatrix: Transform

    /** Where the current transition started, and when (NotAnimated for a jump). */
    var prevInterfaceSize: Vec2
    var prevInterfaceAngle: real
    var orientationChangeTime: real

    /** The controller's invariant: the interface follows the device
        orientation, sizes are non-negative, and the current transition
        starts from a normalised angle and turns at most half a turn. */
    ghost predicate Valid()
      reads this
    {
      && interfaceOrientation == deviceOrientation
      && deviceSize.NonNegative()
      && targetInterfaceSize.NonNegative()
      && 0.0 <= prevInterfaceAngle <= FullTurn
      && -HalfTurn <= targetInterfaceAngle - prevInterfaceAngle <= HalfTurn
    }

    /** The target geometry is the one that belongs to the interface orientation. */
    ghost predicate TargetsMatchOrientation()
      reads this
    {
      GeometryMatches(deviceSize, targetInterfaceSize, targetInterfaceAngle, interfaceOrientation)
    }

    /** The interface has reached its target. */
    ghost predicate Converged()
      reads this
    {
      interfaceSize == targetInterfaceSize && interfaceAngle == targetInterfaceAngle
    }

    /** The state the application's setup leaves: the platform's initial
        orientation is recorded, but the interface gets the upright device
        geometry whatever that orientation is, so the targets match the
        orientation only for Portrait (and for codes the tables do not know). */
    constructor Setup(initial: Orientation)
      ensures Valid()
      ensures deviceSize == DeviceFrame
      ensures deviceOrientation == initial && interfaceOrientation == initial
      ensures interfaceSize == DeviceFrame && targetInterfaceSize == DeviceFrame && prevInterfaceSize == DeviceFrame
      ensures interfaceAngle == 0.0 && targetInterfaceAngle == 0.0 && prevInterfaceAngle == 0.0
      ensures orientationChangeTime == NotAnimated && orientationMatrix == Identity
      ensures Converged()
      ensures TargetsMatchOrientation() <==> (initial == Portrait || !IsInterfaceOrientation(initial))
    {
      deviceSize := DeviceFrame;
      deviceOrientation := initial;
      interfaceSize := DeviceFrame;
      interfaceOrientation := initial;
      interfaceAngle := 0.0;
      targetInterfaceSize := DeviceFrame;
      targetInterfaceAngle := 0.0;
      prevInterfaceSize := DeviceFrame;
      prevInterfaceAngle := 0.0;
      orientationChangeTime := NotAnimated;
      orientationMatrix := Identity;
      new;
      TargetSizeSwapsForLandscape(DeviceFrame, initial);
      WholeOfInt(-1);
      assert !IsWhole(-0.5);
    }

    /** Setup as its non-animated initial orientation change intends: start
        from the upright device geometry, then jump to the initial orientation,
        so that the targets always belong to the recorded orientation. */
    constructor SetupInOrientation(initial: Orientation)
      ensures Valid() && TargetsMatchOrientation()
      ensures deviceSize == DeviceFrame
      ensures deviceOrientation == initial && interfaceOrientation == initial
      ensures targetInterfaceSize == TargetSize(DeviceFrame, initial)
      ensures targetInterfaceAngle == TargetAngle(initial, 0.0)
      ensures prevInterfaceSize == DeviceFrame && prevInterfaceAngle == 0.0
      ensures interfaceSize == DeviceFrame && interfaceAngle == 0.0 && orientationMatrix == Identity
      ensures orientationChangeTime == NotAnimated
    {
      deviceSize := DeviceFrame;
      deviceOrientation := Portrait;
      interfaceSize := DeviceFrame;
      interfaceOrientation := Portrait;
      interfaceAngle := 0.0;
      targetInterfaceSize := DeviceFrame;
      targetInterfaceAngle := 0.0;
      prevInterfaceSize := DeviceFrame;
      prevInterfaceAngle := 0.0;
      orientationChangeTime := NotAnimated;
      orientationMatrix := Identity;
      new;
      WholeOfInt(-1);
      SetDeviceOrientation(initial, false, 0.0);
    }

    /** A new device orientation. Nothing but the recorded device orientation
        is touched when the interface already has it. Otherwise the current
        angle is normalised in place, the targets are set for the new
        orientation, the current size and angle become the start of the
        transition, and the change time is the clock reading (or NotAnimated). */
    method SetDeviceOrientation(orientation: Orientation, animate: bool, now: real)
      requires Valid()
      modifies this
      ensures Valid()
      ensures deviceOrientation == orientation && interfaceOrientation == orientation
      ensures old(interfaceOrientation) == orientation ==> unchanged(this)
      ensures old(interfaceOrientation) != orientation ==>
        && interfaceAngle == Normalized(old(interfaceAngle))
        && targetInterfaceSize == TargetSize(deviceSize, orientation)
        && targetInterfaceAngle == TargetAngle(orientation, interfaceAngle)
        && Abs(targetInterfaceAngle - interfaceAngle) <= HalfTurn
        && prevInterfaceSize == interfaceSize == old(interfaceSize)
        && prevInterfaceAngle == interfaceAngle
        && orientationChangeTime == (if animate then now else NotAnimated)
        && orientationMatrix == old(orientationMatrix)
      ensures TargetsMatchOrientation() <==> old(interfaceOrientation) != orientation || old(TargetsMatchOrientation())
    {
      deviceOrientation := orientation;

      if interfaceOrientation != deviceOrientation {
        interfaceOrientation := deviceOrientation;

        NormalizeInterfaceAngle();

        // the device frame turned by the device angle, and the angle turned
        // back by it the short way round
        targetInterfaceSize := TargetSize(deviceSize, deviceOrientation);
        targetInterfaceAngle := TargetAngle(deviceOrientation, interfaceAngle);

        prevInterfaceSize := interfaceSize;
        prevInterfaceAngle := interfaceAngle;

        if animate {
          orientationChangeTime := now;
        } else {
          orientationChangeTime := NotAnimated;
        }
      }
    }

    /** The current angle, which may be many turns away, brought into
        [0, FullTurn] in place by adding or subtracting full turns. */
    method NormalizeInterfaceAngle()
      modifies this`interfaceAngle
      ensures interfaceAngle == Normalized(old(interfaceAngle))
    {
      while interfaceAngle < 0.0
        invariant RaiseAngle(interfaceAngle) == RaiseAngle(old(interfaceAngle))
        decreases -interfaceAngle.Floor
      {
        interfaceAngle := interfaceAngle + FullTurn;
      }
      while interfaceAngle > FullTurn
        invariant interfaceAngle >= 0.0
        invariant LowerAngle(interfaceAngle) == Normalized(old(interfaceAngle))
        decreases interfaceAngle.Floor
      {
        interfaceAngle := interfaceAngle - FullTurn;
      }
    }

    /** One frame: the interface is sampled at the time since the last change
        (interpolated while the animation runs, exactly the target after it),
        and the transform that draws it inside the device is rebuilt. */
    method Update(now: real)
      requires Valid()
      modifies this`interfaceSize, this`interfaceAngle, this`orientationMatrix
      ensures Valid()
      ensures interfaceSize == SampleSize(prevInterfaceSize, targetInterfaceSize, now - orientationChangeTime)
      ensures interfaceAngle == Sample(prevInterfaceAngle, targetInterfaceAngle, now - orientationChangeTime)
      ensures orientationMatrix == OrientationTransform(deviceSize, interfaceAngle, interfaceSize)
      ensures now - orientationChangeTime >= AnimationDuration ==> Converged()
      ensures now - orientationChangeTime >= AnimationDuration && TargetsMatchOrientation() ==>
        IsQuarterTurn(interfaceAngle) && CoversFrame(orientationMatrix, interfaceSize, deviceSize)
    {
      var timeSinceChange := now - orientationChangeTime;
      var animationDuration := AnimationDuration;

      if timeSinceChange < animationDuration {
        var p := timeSinceChange / animationDuration;
        interfaceSize := LerpVec(prevInterfaceSize, targetInterfaceSize, p);
        interfaceAngle := Lerp(prevInterfaceAngle, targetInterfaceAngle, p);
      } else {
        interfaceSize := targetInterfaceSize;
        interfaceAngle := targetInterfaceAngle;
      }

      orientationMatrix := OrientationTransform(deviceSize, interfaceAngle, interfaceSize);

      if timeSinceChange >= AnimationDuration && TargetsMatchOrientation() {
        TargetGeometryCoversDevice(deviceSize, interfaceOrientation, interfaceAngle);
      }
    }
  }

  /** A client of the controller: starting upright, the device turns to
      Landscape Right. The interface swaps its sides and turns a quarter turn
      backwards instead of three quarters forwards. */
  method TurnToLandscapeRight() returns (c: OrientationController)
    ensures fresh(c) && c.Valid() && c.interfaceOrientation == LandscapeRight
    ensures c.prevInterfaceSize == Vec2(384.0, 512.0) && c.prevInterfaceAngle == 0.0
    ensures c.targetInterfaceSize == Vec2(512.0, 384.0) && c.targetInterfaceAngle == -0.5
    ensures c.orientationChangeTime == 10.0
  {
    c := new OrientationController.SetupInOrientation(Portrait);
    c.SetDeviceOrientation(LandscapeRight, true, 10.0);
    UprightToLandscapeRight();
  }

  /** The animation of that turn: half way there after half the animation,
      exactly there at its end, and still there afterwards; a repeated report
      of the same orientation restarts nothing. */
  method AnimateToLandscapeRight()
  {
    var c := TurnToLandscapeRight();
    c.Update(10.125);
    assert c.interfaceSize == Vec2(448.0, 448.0);
    assert c.interfaceAngle == -0.25;
    c.Update(10.25);
    assert c.interfaceSize == Vec2(512.0, 384.0) && c.interfaceAngle == -0.5;
    c.Update(11.0);
    assert c.interfaceSize == Vec2(512.0, 384.0) && c.interfaceAngle == -0.5;
    c.SetDeviceOrientation(LandscapeRight, true, 12.0);
    assert c.orientationChangeTime == 10.0;
  }

  /** A client of the controller: a platform that starts upside down. The
      setup as written keeps the upright geometry, which does not belong to
      that orientation, and a repeated report of it changes nothing, so even
      after the first frame the interface is drawn upright. */
  method StartUpsideDownAsWritten()
  {
    var c := new OrientationController.Setup(UpsideDownPortrait);
    assert !c.TargetsMatchOrientation();
    c.SetDeviceOrientation(UpsideDownPortrait, false, 0.0);
    c.Update(0.0);
    assert c.interfaceAngle == 0.0;
  }

  /** The same platform with the intended setup: the interface has the
      upside-down geometry from the first frame on. */
  method StartUpsideDownAsIntended()
  {
    var c := new OrientationController.SetupInOrientation(UpsideDownPortrait);
    UprightToUpsideDown();
    assert c.targetInterfaceAngle == 1.0;
    c.Update(0.0);
    assert c.interfaceAngle == 1.0 && c.interfaceSize == Vec2(384.0, 512.0);
  }
}
