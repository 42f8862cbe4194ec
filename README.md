# Orientation transition controller (iPhoneOrientation sample)

This project models the controller at the heart of the iPhoneOrientation sample. The controller keeps an "interface" rectangle lined up with a simulated "device" rectangle of 384 × 512. The platform reports a new device orientation (Portrait, Landscape Left, Upside Down Portrait or Landscape Right). The controller then computes the interface's target size and rotation angle. Each frame, it samples a quarter-second linear animation from the previous geometry to the target and rebuilds the transform that draws the interface inside the device.

The model has four modules:

- `Geometry` (geometry.dfy): 2D vectors, linear interpolation, exact cosine and sine at quarter turns, and the affine transform the frame update builds.
  - Angles are measured in half-turns: `HalfTurn` (1.0) is π and `FullTurn` (2.0) is 2π.
  - In this unit, every angle the controller produces is exact. The only nonlinear arithmetic is the interpolation's product (b − a) · p; its sign facts come from one small lemma, `NonNegativeProduct`.
- `Orientations` (orientations.dfy): the orientation codes and the two lookup tables, the device angle and the display label.
  - An orientation is the platform's integer code, so the tables' fallback entries for other codes are reachable.
- `Transition` (transition.dfy): what one orientation change and one frame compute, as functions of the values they read.
  - Functions: angle normalisation, target size and target angle, and the animation sample.
  - The transform's placement of the interface.
- `Controller` (controller.dfy): the controller as a class whose fields are those of the application object.
  - `Setup`, `SetDeviceOrientation` and `Update` change them in place.
  - They are proved against the `Transition` functions.
  - The class invariant `Valid` states:
    - the interface orientation follows the device orientation;
    - the device size and the target size are non-negative (the animated size is not bounded: see below);
    - every transition starts from a normalised angle and turns at most half a turn.
  - A few client methods walk through concrete scenarios.

The clock (`getElapsedSeconds`) is a parameter `now` of the methods that read it.

Normalisation keeps an angle of exactly 2π: the second loop only subtracts while the angle is strictly above 2π. The normalised range is therefore [0, 2π], both ends included, and `Normalized` states that range.

`Update` interpolates for every time since the change below 0.25 s, including a negative one (a clock reading before the change time). In that case the progress fraction is negative and the sample lies outside the segment: from 384 × 512 towards 512 × 384, one second before the change the width is −128. `Sample` and `SampleSize` bound the result only for non-negative elapsed time, and the class invariant says nothing about the sign of the animated size or of the start size snapshot from it.

## Model

| member | source | states |
|---|---|---|
| Orientations.DeviceAngle | samples/iPhoneOrientation/src/iPhoneOrientationApp.cpp:225-238 | the device angle of every code is a whole number of quarter turns in [0, 2π). It is π/2 or 3π/2 exactly for the two landscape orientations. It is 0 for every code outside the four. |
| Orientations.DeviceAngleInjective | samples/iPhoneOrientation/src/iPhoneOrientationApp.cpp:225-238 | distinct interface orientations have distinct device angles |
| Orientations.Description | samples/iPhoneOrientation/src/iPhoneOrientationApp.cpp:210-223 | the label is never empty. It is "Unknown Orientation" exactly for the codes that are not one of the four orientations. |
| Orientations.DescriptionInjective | samples/iPhoneOrientation/src/iPhoneOrientationApp.cpp:210-223 | distinct interface orientations have distinct labels |
| Transition.RaiseAngle | samples/iPhoneOrientation/src/iPhoneOrientationApp.cpp:111 | adding full turns while negative ends in [0, 2π) and keeps the direction. A non-negative angle is left alone. |
| Transition.LowerAngle | samples/iPhoneOrientation/src/iPhoneOrientationApp.cpp:112 | subtracting full turns while above 2π ends in (0, 2π] and keeps the direction. An angle of at most 2π is left alone. |
| Transition.Normalized | samples/iPhoneOrientation/src/iPhoneOrientationApp.cpp:110-112 | both loops together give an angle in [0, 2π] with the same direction. An angle already in range is unchanged. |
| Transition.TargetSize | samples/iPhoneOrientation/src/iPhoneOrientationApp.cpp:115-117 | the target size is non-negative in both components |
| Transition.TargetSizeSwapsForLandscape | samples/iPhoneOrientation/src/iPhoneOrientationApp.cpp:115-117 | the target size is the device size with width and height swapped for the two landscape orientations and kept for all other codes (absolute values taken) |
| Transition.TargetAngle | samples/iPhoneOrientation/src/iPhoneOrientationApp.cpp:118-128 | the target angle names the direction 2π − device angle and is that value shifted by at most one full turn. From a normalised current angle it is at most π away. |
| Transition.TargetAngleIsShortest | samples/iPhoneOrientation/src/iPhoneOrientationApp.cpp:120-128 | no angle naming the target direction is closer to the normalised current angle: the rotation takes the short way round |
| Transition.UprightToLandscapeRight | samples/iPhoneOrientation/src/iPhoneOrientationApp.cpp:115-128 | from an upright 384 × 512 device, Landscape Right gives a target size of 512 × 384. The uncorrected angle is 3π/2 and the corrected one is −π/2. |
| Transition.UprightToUpsideDown | samples/iPhoneOrientation/src/iPhoneOrientationApp.cpp:115-128 | from upright, Upside Down Portrait keeps the size 384 × 512 and turns by π with no correction |
| Geometry.Lerp | samples/iPhoneOrientation/src/iPhoneOrientationApp.cpp:151-152 | interpolation gives the start at p = 0 and the end at p = 1. Equal end points give that point. |
| Geometry.LerpBetween | samples/iPhoneOrientation/src/iPhoneOrientationApp.cpp:151-152 | for p in [0, 1] the interpolated value lies between the two end points |
| Geometry.LerpMonotone | samples/iPhoneOrientation/src/iPhoneOrientationApp.cpp:151-152 | as p grows, the interpolated value moves monotonically from the start towards the end |
| Geometry.LerpApproachesTarget | samples/iPhoneOrientation/src/iPhoneOrientationApp.cpp:149-152 | for 0 ≤ p ≤ q ≤ 1 the value at q is no further from the end point than the value at p |
| Geometry.LerpVec | samples/iPhoneOrientation/src/iPhoneOrientationApp.cpp:151 | componentwise interpolation of sizes: the end points at p = 0 and p = 1, between them for p in [0, 1] |
| Transition.Sample | samples/iPhoneOrientation/src/iPhoneOrientationApp.cpp:145-156 | the animated angle is the start angle at elapsed 0 and exactly the target from 0.25 s on. For non-negative elapsed time it lies between start and target. |
| Transition.SampleApproachesTarget | samples/iPhoneOrientation/src/iPhoneOrientationApp.cpp:145-156 | as time goes on, the animated angle only gets closer to its target |
| Transition.SampleSize | samples/iPhoneOrientation/src/iPhoneOrientationApp.cpp:145-156 | the animated size is the start size at elapsed 0 and exactly the target from 0.25 s on. For non-negative elapsed time it lies between them in each component. |
| Transition.SampleSizeApproachesTarget | samples/iPhoneOrientation/src/iPhoneOrientationApp.cpp:145-156 | as time goes on, the animated width and the animated height each only get closer to their targets |
| Transition.SampleBeforeChange | samples/iPhoneOrientation/src/iPhoneOrientationApp.cpp:145-152 | one second before the change, the size animated from 384 × 512 towards 512 × 384 is −128 × 1024: negative elapsed time is interpolated, not clamped |
| Transition.OrientationTransform | samples/iPhoneOrientation/src/iPhoneOrientationApp.cpp:158-162 | the transform rotates by the interface angle. What it does to the interface rectangle is stated by QuarterTurnCovers and TargetGeometryCoversDevice. |
| Transition.QuarterTurnCovers | samples/iPhoneOrientation/src/iPhoneOrientationApp.cpp:158-162 | centring a rectangle, turning it by a quarter-turn angle and moving it to the device centre gives exactly the device frame. The rectangle's sides are the device's, swapped for an odd number of quarter turns. |
| Transition.TargetGeometryCoversDevice | samples/iPhoneOrientation/src/iPhoneOrientationApp.cpp:158-162 | once the interface has the target size and an angle in the target direction of an orientation, the angle is a quarter turn and the transform maps the interface exactly onto the device frame |
| Controller.OrientationController.Setup | samples/iPhoneOrientation/src/iPhoneOrientationApp.cpp:59-80 | setup as written records the initial orientation but gives the interface the upright geometry. The invariant holds and the interface is at rest. The targets belong to the orientation exactly when it is Portrait (or a code outside the four). |
| Controller.OrientationController.SetupInOrientation | samples/iPhoneOrientation/src/iPhoneOrientationApp.cpp:96-97 | setup followed by the non-animated initial change: the invariant holds. The targets are the target size and angle of the initial orientation. The start and the current geometry are the upright device frame at angle 0, the transform is the identity, and the change time is −1, so the first frame jumps to the targets. |
| Controller.OrientationController.SetDeviceOrientation | samples/iPhoneOrientation/src/iPhoneOrientationApp.cpp:101-141 | keeps the invariant; both orientations become the new one. The same orientation changes nothing else. A new one: normalises the current angle; sets the targets to TargetSize and TargetAngle (at most π away); snapshots the current size and angle as the start; records the clock, or −1 when not animated. After a change the targets belong to the new orientation; a repeated report leaves that property as it was. |
| Controller.OrientationController.NormalizeInterfaceAngle | samples/iPhoneOrientation/src/iPhoneOrientationApp.cpp:110-112 | the two in-place loops leave the current angle equal to Normalized of its old value |
| Controller.OrientationController.Update | samples/iPhoneOrientation/src/iPhoneOrientationApp.cpp:143-163 | keeps the invariant. It sets size and angle to the animation sample at the time since the change and rebuilds the transform from them. From 0.25 s on, the interface has reached its target. When the targets belong to the orientation, the transform then maps the interface exactly onto the device frame. |
| Controller.TurnToLandscapeRight | samples/iPhoneOrientation/src/iPhoneOrientationApp.cpp:101-141 | starting upright and turning to Landscape Right at time 10 starts an animation from 384 × 512 at angle 0 towards 512 × 384 at −π/2 |

## Left out

- The iPhoneKeyboard sample is not part of this model.
- The notification plumbing (`setupNotifications`, lines 83-99) is not modelled.
  - The observer registration is platform I/O.
  - The platform's filter to valid interface orientations is not modelled either: `SetDeviceOrientation` accepts any code, as the member function itself does.
  - The initial call at line 97 happens before setup assigns the interface fields. Setup then overwrites the interface geometry it computed: the current size and angle, the targets and the start. Two values survive. The device orientation it recorded is read back at line 69. The change time (−1, line 138) is never assigned by lines 68-76. `Setup` takes that device orientation as its parameter and keeps the −1 change time.
- Drawing (`draw`, `drawDevice`, `drawInterface`, lines 165-208), fonts and text measurement are rendering only and are not modelled.
- Floating point is not modelled: the model computes with exact reals.
  - π is exact.
  - cos and sin are exact at the four quarter-turn angles (the only angles the source passes them).
  - No rounding in the normalisation loops or in the interpolation.
- `abs` at line 121 is taken to be the floating-point overload (with `using namespace std` it resolves to `std::abs(float)`), not the integer `abs`.
- The 4 × 4 matrix of lines 159-162 is recorded as a transform: the device-centre pivot, the rotation angle and the interface-centre offset. No matrix arithmetic is modelled.
  - Before the first frame the matrix is taken to be the identity.
- `Controller.OrientationController.Setup`: the change time is set to −1.
  - In the source, the change time may be left uninitialised when the initial call at line 97 finds the not-yet-assigned interface orientation already equal to the device orientation.
  - This choice does not affect any later frame: after setup the start and the target geometry are equal, so every sample is that geometry.

## Findings

| source | as written | input that shows it | evidently intended | confidence | as-written member | corrected member |
|---|---|---|---|---|---|---|
| samples/iPhoneOrientation/src/iPhoneOrientationApp.cpp:68-76 | setup runs the initial non-animated orientation change (line 97, through line 65) and then overwrites the interface geometry with the upright size and angle 0, while the interface orientation is set to the device orientation | the platform starts in Upside Down Portrait (or either landscape orientation) | the interface starts with the geometry of the initial orientation, as the non-animated change at line 97 computes it. A later report of the same orientation is a no-op, so the mismatch persists until the device turns. | medium, not executed | Controller.OrientationController.Setup (also Controller.StartUpsideDownAsWritten) | Controller.OrientationController.SetupInOrientation (also Controller.StartUpsideDownAsIntended) |
