/** Per-frame signals derived from one face (components/GestureController.tsx):
    the yaw with its deadzone and sensitivity, and the parallax target. */
module FaceSignals {
  import opened Types

  const RotationSensitivity: real := 1.5
  const Deadzone: real := 0.015

  /** Nose x minus the midpoint of the two ears' x; negative when the viewer
      looks to their right. */
  function RawYaw(noseX: real, leftEarX: real, rightEarX: real): (yaw: real)
    ensures leftEarX == rightEarX ==> yaw == noseX - leftEarX
    ensures noseX + noseX == leftEarX + rightEarX ==> yaw == 0.0
  {
    noseX - (leftEarX + rightEarX) / 2.0
  }

  /** The rotation delta a face frame emits: none inside the deadzone, else
      the yaw inverted and scaled. */
  function RotationDelta(rawYaw: real): (delta: Option<real>)
    ensures delta.Some? <==> Abs(rawYaw) > Deadzone
    ensures delta.Some? ==> delta.value == -rawYaw * RotationSensitivity
    ensures delta.Some? ==> (delta.value > 0.0 <==> rawYaw < 0.0)
  {
    if Abs(rawYaw) > Deadzone then Some(-rawYaw * RotationSensitivity) else None
  }

  /** A raw yaw of 0.02 (above the deadzone) turns by -0.03; the deadzone
      edge itself does not turn. */
  lemma YawScenario()
    ensures RotationDelta(0.02) == Some(-0.03)
    ensures RotationDelta(0.015) == None && RotationDelta(-0.015) == None
  {
  }

  /** Parallax target: the nose's offset from the image centre, scaled by 8
      horizontally and 4 vertically, sign inverted. */
  function ParallaxTarget(nose: Point): (target: Point)
    ensures nose == Point(0.5, 0.5) ==> target == Point(0.0, 0.0)
    ensures 0.0 <= nose.x <= 1.0 && 0.0 <= nose.y <= 1.0 ==>
              -4.0 <= target.x <= 4.0 && -2.0 <= target.y <= 2.0
  {
    Point((0.5 - nose.x) * 8.0, (0.5 - nose.y) * 4.0)
  }
}
