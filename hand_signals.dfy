/** Per-frame signals derived from one hand (components/GestureController.tsx):
    the extension ratio and its classification, the pinch test, and the
    cursor source point with its mirrored NDC and screen mappings.
    Euclidean distances between landmarks are inputs. */
module HandSignals {
  import opened Types

  const DisperseAbove: real := 1.6
  const AssembleBelow: real := 1.3
  /** Divisor used when the hand scale is zero (`handScale || 0.1`). */
  const ScaleFallback: real := 0.1
  const PinchFactor: real := 0.4
  /** Fingertips the extension ratio averages over (landmarks 4, 8, 12, 16, 20). */
  const TipCount: nat := 5

  /** The `tips.forEach` loop that accumulates the wrist-to-tip distances. */
  method TotalTipDistance(tipDistances: seq<real>) returns (total: real)
    ensures total == Sum(tipDistances)
  {
    total := 0.0;
    var i := 0;
    while i < |tipDistances|
      invariant 0 <= i <= |tipDistances|
      invariant total == Sum(tipDistances[..i])
    {
      assert tipDistances[..i + 1][..i] == tipDistances[..i];
      total := total + tipDistances[i];
      i := i + 1;
    }
    assert tipDistances[..i] == tipDistances;
  }

  /** Average fingertip distance divided by the hand scale, with the zero
      scale replaced by 0.1 so that the ratio is always defined. */
  function ExtensionRatio(avgTipDist: real, handScale: real): (ratio: real)
    ensures handScale != 0.0 ==> ratio * handScale == avgTipDist
    ensures handScale == 0.0 ==> ratio == avgTipDist * 10.0
  {
    avgTipDist / (if handScale == 0.0 then ScaleFallback else handScale)
  }

  /** The vote one frame casts: open palm, fist, or nothing in the dead zone. */
  function Classify(ratio: real): (vote: Option<Mode>)
    ensures vote == Some(Disperse) <==> ratio > DisperseAbove
    ensures vote == Some(Assemble) <==> ratio < AssembleBelow
    ensures vote == None <==> AssembleBelow <= ratio <= DisperseAbove
  {
    if ratio > DisperseAbove then Some(Disperse)
    else if ratio < AssembleBelow then Some(Assemble)
    else None
  }

  /** Both ends of the dead zone are themselves no-vote. */
  lemma DeadZoneIsClosed()
    ensures Classify(1.3) == None && Classify(1.6) == None
    ensures Classify(1.6 + 1.0 / 1000000.0) == Some(Disperse)
  {
  }

  /** Hand scale 0.1 and fingertip distances summing to 0.8 give a ratio of
      exactly 1.6, which casts no vote. */
  lemma BoundaryScenario(tipDistances: seq<real>)
    requires |tipDistances| == TipCount && Sum(tipDistances) == 0.8
    ensures ExtensionRatio(Sum(tipDistances) / TipCount as real, 0.1) == 1.6
    ensures Classify(ExtensionRatio(Sum(tipDistances) / TipCount as real, 0.1)) == None
  {
  }

  /** `pinchDist < handScale * 0.4`; the raw scale is used, not the fallback. */
  function IsPinch(pinchDist: real, handScale: real): bool
  {
    pinchDist < handScale * PinchFactor
  }

  /** The threshold is strict, and a hand of scale zero never pinches. */
  lemma PinchThreshold(pinchDist: real, handScale: real)
    ensures pinchDist == handScale * PinchFactor ==> !IsPinch(pinchDist, handScale)
    ensures handScale == 0.0 && pinchDist >= 0.0 ==> !IsPinch(pinchDist, handScale)
    ensures handScale > 0.0 && 0.0 <= pinchDist < handScale * PinchFactor ==> IsPinch(pinchDist, handScale)
  {
  }

  /** The thumb/index midpoint while pinching, the index tip otherwise. */
  function CursorSource(pinching: bool, thumbTip: Point, indexTip: Point): (src: Point)
    ensures pinching ==> src.x + src.x == thumbTip.x + indexTip.x && src.y + src.y == thumbTip.y + indexTip.y
    ensures !pinching ==> src == indexTip
  {
    if pinching then Point((thumbTip.x + indexTip.x) / 2.0, (thumbTip.y + indexTip.y) / 2.0)
    else indexTip
  }

  /** Image coordinates to mirrored normalized device coordinates. */
  function ToNdc(src: Point): (ndc: Point)
    ensures ndc == Point(1.0 - 2.0 * src.x, 1.0 - 2.0 * src.y)
    ensures 0.0 <= src.x <= 1.0 && 0.0 <= src.y <= 1.0 ==>
              -1.0 <= ndc.x <= 1.0 && -1.0 <= ndc.y <= 1.0
    ensures src.x == 0.5 && src.y == 0.5 ==> ndc == Point(0.0, 0.0)
  {
    Point((1.0 - src.x) * 2.0 - 1.0, -(src.y * 2.0) + 1.0)
  }

  /** Normalized device coordinates to the screen square used by the UI cursor. */
  function ToScreen(ndc: Point): (screen: Point)
    ensures -1.0 <= ndc.x <= 1.0 && -1.0 <= ndc.y <= 1.0 ==>
              0.0 <= screen.x <= 1.0 && 0.0 <= screen.y <= 1.0
  {
    Point((ndc.x + 1.0) / 2.0, (1.0 - ndc.y) / 2.0)
  }

  /** Mapping to NDC and back to the screen mirrors horizontally only. */
  lemma ScreenOfNdc(src: Point)
    ensures ToScreen(ToNdc(src)) == Point(1.0 - src.x, src.y)
  {
  }

  /** The NDC mapping is mirrored: moving right in the image moves left. */
  lemma NdcMirrors(a: Point, b: Point)
    ensures a.x < b.x ==> ToNdc(a).x > ToNdc(b).x
    ensures a.y < b.y ==> ToNdc(a).y > ToNdc(b).y
  {
  }
}
