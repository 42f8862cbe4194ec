/** The four interface orientations of the device and the two lookup tables
    over them: the angle by which the device is turned, and a label for display.

    An orientation is the platform's integer code (the UIKit device-orientation
    enumeration). Only four codes are interface orientations; any other code
    reaches the tables' fallback entries. */
module Orientations {
  import opened Geometry

  type Orientation = int

  const Portrait: Orientation := 1
  const UpsideDownPortrait: Orientation := 2
  const LandscapeLeft: Orientation := 3
  const LandscapeRight: Orientation := 4

  predicate IsInterfaceOrientation(o: Orientation) {
    o == Portrait || o == LandscapeLeft || o == UpsideDownPortrait || o == LandscapeRight
  }

  predicate IsLandscape(o: Orientation) {
    o == LandscapeLeft || o == LandscapeRight
  }

  /** How far the device is turned from upright. The two landscape
      orientations, and only they, are an odd number of quarter turns away. */
  function DeviceAngle(o: Orientation): (r: real)
    ensures IsQuarterTurn(r) && 0.0 <= r < FullTurn
    ensures IsLandscape(o) <==> r == 0.5 * HalfTurn || r == 1.5 * HalfTurn
    ensures !IsInterfaceOrientation(o) ==> r == 0.0
  {
    if o == Portrait then 0.0
    else if o == LandscapeLeft then 1.5 * HalfTurn
    else if o == UpsideDownPortrait then HalfTurn
    else if o == LandscapeRight then 0.5 * HalfTurn
    else 0.0
  }

  /** Distinct interface orientations are distinct device angles. */
  lemma DeviceAngleInjective(a: Orientation, b: Orientation)
    requires IsInterfaceOrientation(a) && IsInterfaceOrientation(b)
    requires DeviceAngle(a) == DeviceAngle(b)
    ensures a == b
  {
  }

  const UnknownDescription: string := "Unknown Orientation"

  /** A human-readable label: one per interface orientation, and a
      placeholder for every other code. */
  function Description(o: Orientation): (r: string)
    ensures r != []
    ensures r == UnknownDescription <==> !IsInterfaceOrientation(o)
  {
    if o == Portrait then "Portrait"
    else if o == LandscapeLeft then "Landscape Left"
    else if o == UpsideDownPortrait then "Upside Down Portrait"
    else if o == LandscapeRight then "Landscape Right"
    else UnknownDescription
  }

  /** Distinct interface orientations get distinct labels. */
  lemma DescriptionInjective(a: Orientation, b: Orientation)
    requires IsInterfaceOrientation(a) && IsInterfaceOrientation(b)
    requires Description(a) == Description(b)
    ensures a == b
  {
  }
}
