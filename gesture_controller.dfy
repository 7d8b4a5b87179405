/** The per-frame step of the gesture controller (`predictWebcam` in
    components/GestureController.tsx): one call per video frame reads the
    hand and face readings, updates the controller's own refs and writes the
    results into the shared store. */
module GestureController {
  import opened Types
  import opened Store
  import opened HandSignals
  import opened Debounce
  import opened Smoothing
  import opened FaceSignals

  /** What the hand landmarker yields for one hand, reduced to the distances
      and points the step uses (the Euclidean distances are inputs). */
  datatype HandReading = HandReading(
    handScale: real,            // wrist to middle-finger MCP
    tipDistances: seq<real>,    // wrist to each of the five fingertips
    pinchDistance: real,        // thumb tip to index tip
    thumbTip: Point,
    indexTip: Point)

  /** What the face landmarker yields for one face: the nose tip and the x
      coordinates of the two ears. */
  datatype FaceReading = FaceReading(nose: Point, leftEarX: real, rightEarX: real)

  /** One video frame: its timestamp and at most one hand and one face. */
  datatype VideoFrame = VideoFrame(currentTime: real, hand: Option<HandReading>, face: Option<FaceReading>)

  /** The controller's refs, which persist across frames. */
  datatype Refs = Refs(
    lastVideoTime: real,
    gestureHistory: seq<Mode>,
    lastMode: Mode,
    cursorSmooth: Point,
    faceTranslationSmooth: Point)

  function InitialRefs(): Refs
  {
    Refs(-1.0, [], Assemble, Point(0.0, 0.0), Point(0.0, 0.0))
  }

  /** A hand reading carries one distance per fingertip. */
  predicate WellFormed(frame: VideoFrame)
  {
    frame.hand.Some? ==> |frame.hand.value.tipDistances| == TipCount
  }

  /** The hand half of a new frame. */
  function HandStep(r: Refs, st: AppState, hand: Option<HandReading>): (Refs, AppState)
  {
    match hand
    case None =>
      (r.(gestureHistory := []), st.(isHandDetected := false, isPinching := false))
    case Some(h) =>
      var ratio := ExtensionRatio(Sum(h.tipDistances) / TipCount as real, h.handScale);
      var debouncer := match Classify(ratio)
                       case Some(v) => Vote(Debouncer(r.gestureHistory, r.lastMode), v)
                       case None => Debouncer(r.gestureHistory, r.lastMode);
      var mode := if debouncer.lastMode != r.lastMode then debouncer.lastMode else st.mode;
      var pinch := IsPinch(h.pinchDistance, h.handScale);
      var cursor := SmoothPoint(r.cursorSmooth, ToNdc(CursorSource(pinch, h.thumbTip, h.indexTip)), CursorRate);
      (r.(gestureHistory := debouncer.history, lastMode := debouncer.lastMode, cursorSmooth := cursor),
       st.(isHandDetected := true, mode := mode, isPinching := pinch,
           pinchCursor := cursor, cursorPosition := ToScreen(cursor)))
  }

  /** The face half of a new frame. */
  function FaceStep(r: Refs, st: AppState, face: Option<FaceReading>): (Refs, AppState)
  {
    match face
    case None =>
      (r, st.(isFaceDetected := false))
    case Some(f) =>
      var detected := st.(isFaceDetected := true);
      var turned := match RotationDelta(RawYaw(f.nose.x, f.leftEarX, f.rightEarX))
                    case Some(d) => Rotated(detected, d, 0.0)
                    case None => detected;
      var smooth := SmoothPoint(r.faceTranslationSmooth, ParallaxTarget(f.nose), ParallaxRate);
      (r.(faceTranslationSmooth := smooth), turned.(faceTranslation := smooth))
  }

  /** One call of the frame callback: nothing happens before the trackers are
      ready or when the video time has not advanced. */
  function FrameStep(r: Refs, st: AppState, trackersReady: bool, frame: VideoFrame): (Refs, AppState)
  {
    if !trackersReady || frame.currentTime == r.lastVideoTime then (r, st)
    else
      var afterHand := HandStep(r.(lastVideoTime := frame.currentTime), st, frame.hand);
      FaceStep(afterHand.0, afterHand.1, frame.face)
  }

  /** A frame whose video time equals the last processed one changes nothing. */
  lemma StaleFrameIgnored(r: Refs, st: AppState, trackersReady: bool, frame: VideoFrame)
    requires frame.currentTime == r.lastVideoTime
    ensures FrameStep(r, st, trackersReady, frame) == (r, st)
  {
  }

  /** A new frame without a hand empties the history and stops the pinch,
      and leaves the confirmed mode and the cursor where they were. */
  lemma HandLossResets(r: Refs, st: AppState, frame: VideoFrame)
    requires frame.currentTime != r.lastVideoTime && frame.hand.None?
    ensures var (r', st') := FrameStep(r, st, true, frame);
      && r'.gestureHistory == [] && !st'.isHandDetected && !st'.isPinching
      && r'.lastMode == r.lastMode && st'.mode == st.mode
      && r'.cursorSmooth == r.cursorSmooth
      && st'.pinchCursor == st.pinchCursor && st'.cursorPosition == st.cursorPosition
  {
  }

  /** A hand in the dead zone casts no vote: history and mode stay. */
  lemma NoVoteKeepsMode(r: Refs, st: AppState, frame: VideoFrame)
    requires frame.currentTime != r.lastVideoTime && frame.hand.Some?
    requires var h := frame.hand.value;
      Classify(ExtensionRatio(Sum(h.tipDistances) / TipCount as real, h.handScale)) == None
    ensures var (r', st') := FrameStep(r, st, true, frame);
      r'.gestureHistory == r.gestureHistory && r'.lastMode == r.lastMode && st'.mode == st.mode
  {
  }

  /** The mode only changes on a hand frame whose vote, pushed onto the
      history, gives it more than six agreeing votes. */
  lemma ModeChangeNeedsSupermajority(r: Refs, st: AppState, trackersReady: bool, frame: VideoFrame)
    requires st.mode == r.lastMode
    ensures var (r', st') := FrameStep(r, st, trackersReady, frame);
      st'.mode != st.mode ==>
        && frame.hand.Some?
        && r'.lastMode == st'.mode
        && Count(r'.gestureHistory, st'.mode) > Supermajority
  {
  }

  /** A face outside the deadzone turns the tree by the inverted, scaled
      yaw; inside it, rotation stays. Parallax follows the nose either way.
      Without a face only the detection flag changes. */
  lemma FaceTurnsAndShifts(r: Refs, st: AppState, f: Option<FaceReading>)
    ensures var (r', st') := FaceStep(r, st, f);
      match f
      case None => r' == r && st' == st.(isFaceDetected := false)
      case Some(face) =>
        var yaw := RawYaw(face.nose.x, face.leftEarX, face.rightEarX);
        && st'.isFaceDetected
        && st'.rotationY == (if Abs(yaw) > Deadzone then st.rotationY - yaw * RotationSensitivity else st.rotationY)
        && st'.faceTranslation == r'.faceTranslationSmooth
        && r'.faceTranslationSmooth == SmoothPoint(r.faceTranslationSmooth, ParallaxTarget(face.nose), ParallaxRate)
  {
  }

  /** The UI cursor is itself exponentially smoothed, toward the mirrored
      source point: screen mapping commutes with the smoothing step. */
  lemma ScreenCursorSmooths(cursor: Point, src: Point)
    ensures ToScreen(SmoothPoint(cursor, ToNdc(src), CursorRate)) ==
            SmoothPoint(ToScreen(cursor), Point(1.0 - src.x, src.y), CursorRate)
  {
  }

  /** What holds between the controller's refs and the store after every
      frame: the window is bounded, the store's mode mirrors the confirmed
      mode, pitch is never moved (every rotation update passes a zero pitch
      delta) and the store's cursor and parallax fields are the smoothed refs. */
  ghost predicate Consistent(r: Refs, st: AppState)
  {
    && |r.gestureHistory| <= Capacity
    && st.mode == r.lastMode
    && st.pitchX == 0.0
    && st.pinchCursor == r.cursorSmooth
    && st.cursorPosition == ToScreen(r.cursorSmooth)
    && st.faceTranslation == r.faceTranslationSmooth
  }

  lemma InitiallyConsistent()
    ensures Consistent(InitialRefs(), Initial())
  {
  }

  lemma {:induction false} FrameKeepsConsistent(r: Refs, st: AppState, trackersReady: bool, frame: VideoFrame)
    requires Consistent(r, st)
    ensures var (r', st') := FrameStep(r, st, trackersReady, frame); Consistent(r', st')
  {
    if trackersReady && frame.currentTime != r.lastVideoTime {
      var afterHand := HandStep(r.(lastVideoTime := frame.currentTime), st, frame.hand);
      assert Consistent(afterHand.0, afterHand.1);
      match frame.face
      case None =>
      case Some(f) =>
        YawOnlyKeepsPitch(afterHand.1.(isFaceDetected := true), 0.0);
        var yaw := RawYaw(f.nose.x, f.leftEarX, f.rightEarX);
        if RotationDelta(yaw).Some? {
          YawOnlyKeepsPitch(afterHand.1.(isFaceDetected := true), RotationDelta(yaw).value);
        }
    }
  }

  /** Consistency over any run of frames from the initial state. */
  function Run(r: Refs, st: AppState, frames: seq<VideoFrame>): (Refs, AppState)
  {
    if frames == [] then (r, st)
    else
      var prev := Run(r, st, frames[..|frames| - 1]);
      FrameStep(prev.0, prev.1, true, frames[|frames| - 1])
  }

  lemma {:induction false} RunKeepsConsistent(frames: seq<VideoFrame>)
    ensures var (r, st) := Run(InitialRefs(), Initial(), frames); Consistent(r, st)
  {
    if frames == [] {
      InitiallyConsistent();
    } else {
      RunKeepsConsistent(frames[..|frames| - 1]);
      var prev := Run(InitialRefs(), Initial(), frames[..|frames| - 1]);
      FrameKeepsConsistent(prev.0, prev.1, true, frames[|frames| - 1]);
    }
  }

  /** The controller object: its fields are the refs of the source. */
  class Controller {
    var lastVideoTime: real
    var gestureHistory: seq<Mode>
    var lastMode: Mode
    var cursorSmooth: Point
    var faceTranslationSmooth: Point

    function RefsOf(): Refs
      reads this
    {
      Refs(lastVideoTime, gestureHistory, lastMode, cursorSmooth, faceTranslationSmooth)
    }

    constructor ()
      ensures RefsOf() == InitialRefs()
    {
      lastVideoTime := -1.0;
      gestureHistory := [];
      lastMode := Assemble;
      cursorSmooth := Point(0.0, 0.0);
      faceTranslationSmooth := Point(0.0, 0.0);
    }

    /** `predictWebcam`: one frame, with the store's setters called in the
        source's order. */
    method PredictWebcam(store: AppStore, trackersReady: bool, frame: VideoFrame)
      requires WellFormed(frame)
      modifies this, store
      ensures (RefsOf(), store.state) == FrameStep(old(RefsOf()), old(store.state), trackersReady, frame)
    {
      if !trackersReady {
        return;
      }
      if frame.currentTime != lastVideoTime {
        lastVideoTime := frame.currentTime;
        HandFrame(store, frame.hand);
        FaceFrame(store, frame.face);
      }
    }

    /** The hand branch of `predictWebcam`. */
    method HandFrame(store: AppStore, hand: Option<HandReading>)
      requires hand.Some? ==> |hand.value.tipDistances| == TipCount
      modifies this, store
      ensures lastVideoTime == old(lastVideoTime) && faceTranslationSmooth == old(faceTranslationSmooth)
      ensures (RefsOf(), store.state) == HandStep(old(RefsOf()), old(store.state), hand)
    {
      match hand
      case Some(h) =>
        store.SetHandDetected(true);
        var totalTipDist := TotalTipDistance(h.tipDistances);
        var avgTipDist := totalTipDist / TipCount as real;
        var extensionRatio := ExtensionRatio(avgTipDist, h.handScale);
        var detectedGesture := Classify(extensionRatio);
        if detectedGesture.Some? {
          RecordGesture(store, detectedGesture.value);
        }
        var isPinch := IsPinch(h.pinchDistance, h.handScale);
        store.SetIsPinching(isPinch);
        MoveCursor(store, CursorSource(isPinch, h.thumbTip, h.indexTip));
      case None =>
        store.SetHandDetected(false);
        store.SetIsPinching(false);
        gestureHistory := [];
    }

    /** Push a detected gesture and apply the supermajority rule. */
    method RecordGesture(store: AppStore, gesture: Mode)
      modifies this, store
      ensures var d := Vote(Debouncer(old(gestureHistory), old(lastMode)), gesture);
        && gestureHistory == d.history && lastMode == d.lastMode
        && store.state == (if d.lastMode != old(lastMode) then old(store.state).(mode := d.lastMode) else old(store.state))
      ensures lastVideoTime == old(lastVideoTime) && cursorSmooth == old(cursorSmooth)
      ensures faceTranslationSmooth == old(faceTranslationSmooth)
    {
      ghost var voted := Vote(Debouncer(gestureHistory, lastMode), gesture);
      gestureHistory := gestureHistory + [gesture];
      if |gestureHistory| > Capacity {
        gestureHistory := gestureHistory[1..];
      }
      assert gestureHistory == voted.history;
      var disperseCount := Count(gestureHistory, Disperse);
      var assembleCount := Count(gestureHistory, Assemble);
      if disperseCount > Supermajority && lastMode != Disperse {
        store.SetMode(Disperse);
        lastMode := Disperse;
      } else if assembleCount > Supermajority && lastMode != Assemble {
        store.SetMode(Assemble);
        lastMode := Assemble;
      }
    }

    /** Smooth the cursor toward the mirrored source point and publish it in
        both NDC and screen coordinates. */
    method MoveCursor(store: AppStore, cursorSource: Point)
      modifies this, store
      ensures cursorSmooth == SmoothPoint(old(cursorSmooth), ToNdc(cursorSource), CursorRate)
      ensures store.state == old(store.state).(pinchCursor := cursorSmooth, cursorPosition := ToScreen(cursorSmooth))
      ensures lastVideoTime == old(lastVideoTime) && gestureHistory == old(gestureHistory)
      ensures lastMode == old(lastMode) && faceTranslationSmooth == old(faceTranslationSmooth)
    {
      var target := ToNdc(cursorSource);
      cursorSmooth := cursorSmooth.(x := cursorSmooth.x + (target.x - cursorSmooth.x) * CursorRate);
      cursorSmooth := cursorSmooth.(y := cursorSmooth.y + (target.y - cursorSmooth.y) * CursorRate);
      store.SetPinchCursor(cursorSmooth.x, cursorSmooth.y);
      store.SetCursorPosition((cursorSmooth.x + 1.0) / 2.0, (1.0 - cursorSmooth.y) / 2.0);
    }

    /** The face branch of `predictWebcam`. */
    method FaceFrame(store: AppStore, face: Option<FaceReading>)
      modifies this, store
      ensures (RefsOf(), store.state) == FaceStep(old(RefsOf()), old(store.state), face)
    {
      match face
      case Some(f) =>
        store.SetFaceDetected(true);
        var midX := (f.leftEarX + f.rightEarX) / 2.0;
        var rawYaw := f.nose.x - midX;
        if Abs(rawYaw) > Deadzone {
          store.UpdateRotation(-rawYaw * RotationSensitivity, 0.0);
        }
        var target := ParallaxTarget(f.nose);
        faceTranslationSmooth := faceTranslationSmooth.(
          x := faceTranslationSmooth.x + (target.x - faceTranslationSmooth.x) * ParallaxRate);
        faceTranslationSmooth := faceTranslationSmooth.(
          y := faceTranslationSmooth.y + (target.y - faceTranslationSmooth.y) * ParallaxRate);
        store.SetFaceTranslation(faceTranslationSmooth.x, faceTranslationSmooth.y);
      case None =>
        store.SetFaceDetected(false);
    }
  }
}
