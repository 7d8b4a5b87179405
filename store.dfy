/** The shared application store (store.ts): one long-lived record of fields,
    replaced slice by slice through setter actions. */
module Store {
  import opened Types

  const PitchLimit: real := 0.5

  /** Every field of the store's state object, in store.ts order. JavaScript
      numbers are reals; photo ids are integers (they are photo indices). */
  datatype AppState = AppState(
    mode: Mode,
    rotationY: real,
    pitchX: real,
    isAiReady: bool,
    isHandDetected: bool,
    isFaceDetected: bool,
    isPinching: bool,
    pinchCursor: Point,
    cursorPosition: Point,
    faceTranslation: Point,
    treeColor: string,
    particleCount: real,
    animationSpeed: real,
    titleText: string,
    subtitleText: string,
    hoveredPhotoId: Option<int>)

  /** The defaults the store is created with. */
  function Initial(): AppState
  {
    AppState(
      mode := Assemble,
      rotationY := 0.0,
      pitchX := 0.0,
      isAiReady := false,
      isHandDetected := false,
      isFaceDetected := false,
      isPinching := false,
      pinchCursor := Point(0.0, 0.0),
      cursorPosition := Point(0.5, 0.5),
      faceTranslation := Point(0.0, 0.0),
      treeColor := "#2f5e41",
      particleCount := 25000.0,
      animationSpeed := 1.5,
      titleText := "HOLOGRAPHIC XMAS",
      subtitleText := "AR AI Experience",
      hoveredPhotoId := None)
  }

  /** `Math.max(lo, Math.min(hi, x))`. */
  function Clamp(lo: real, hi: real, x: real): (r: real)
    requires lo <= hi
    ensures lo <= r <= hi
    ensures lo <= x <= hi ==> r == x
    ensures x > hi ==> r == hi
    ensures x < lo ==> r == lo
  {
    Max(lo, Min(hi, x))
  }

  ghost predicate PitchInRange(s: AppState)
  {
    -PitchLimit <= s.pitchX <= PitchLimit
  }

  /** The state `updateRotation(deltaY, deltaX)` leaves behind: yaw accumulates
      without bound, pitch accumulates and is clamped to [-0.5, 0.5]. */
  function Rotated(s: AppState, deltaY: real, deltaX: real): (r: AppState)
    ensures r.rotationY == s.rotationY + deltaY
    ensures PitchInRange(r)
    ensures PitchInRange(s.(pitchX := s.pitchX + deltaX)) ==> r.pitchX == s.pitchX + deltaX
    ensures s.pitchX + deltaX > PitchLimit ==> r.pitchX == PitchLimit
    ensures s.pitchX + deltaX < -PitchLimit ==> r.pitchX == -PitchLimit
    ensures r == s.(rotationY := r.rotationY, pitchX := r.pitchX)
  {
    s.(rotationY := s.rotationY + deltaY,
       pitchX := Clamp(-PitchLimit, PitchLimit, s.pitchX + deltaX))
  }

  /** A pitch already in range is left alone by a yaw-only update, which is
      the only kind of update the gesture pipeline ever makes. */
  lemma YawOnlyKeepsPitch(s: AppState, deltaY: real)
    requires PitchInRange(s)
    ensures Rotated(s, deltaY, 0.0).pitchX == s.pitchX
    ensures Rotated(s, deltaY, 0.0) == s.(rotationY := s.rotationY + deltaY)
  {
  }

  /** The pitch after a sequence of `updateRotation(_, d)` calls. */
  function PitchAfter(pitch: real, deltas: seq<real>): real
  {
    if deltas == [] then pitch
    else Clamp(-PitchLimit, PitchLimit, PitchAfter(pitch, deltas[..|deltas| - 1]) + deltas[|deltas| - 1])
  }

  /** Non-negative pitch deltas saturate: from an in-range pitch, the result
      is the plain sum capped at 0.5 (so driving pitch to +0.7 gives +0.5). */
  lemma {:induction false} PitchSaturates(pitch: real, deltas: seq<real>)
    requires -PitchLimit <= pitch <= PitchLimit
    requires forall i :: 0 <= i < |deltas| ==> deltas[i] >= 0.0
    ensures PitchAfter(pitch, deltas) == Min(PitchLimit, pitch + Sum(deltas))
  {
    if deltas != [] {
      var init := deltas[..|deltas| - 1];
      PitchSaturates(pitch, init);
      assert Sum(deltas) == Sum(init) + deltas[|deltas| - 1];
    }
  }

  /** The store object: `state` is replaced wholesale by each action, as
      zustand's `set` merges a partial update into a fresh state object. */
  class AppStore {
    var state: AppState

    constructor ()
      ensures state == Initial()
      ensures PitchInRange(state)
    {
      state := Initial();
    }

    method SetMode(mode: Mode)
      modifies this
      ensures state == old(state).(mode := mode)
    {
      state := state.(mode := mode);
    }

    method SetAiReady(ready: bool)
      modifies this
      ensures state == old(state).(isAiReady := ready)
    {
      state := state.(isAiReady := ready);
    }

    method SetHandDetected(detected: bool)
      modifies this
      ensures state == old(state).(isHandDetected := detected)
    {
      state := state.(isHandDetected := detected);
    }

    method SetFaceDetected(detected: bool)
      modifies this
      ensures state == old(state).(isFaceDetected := detected)
    {
      state := state.(isFaceDetected := detected);
    }

    method SetIsPinching(pinching: bool)
      modifies this
      ensures state == old(state).(isPinching := pinching)
    {
      state := state.(isPinching := pinching);
    }

    method SetPinchCursor(x: real, y: real)
      modifies this
      ensures state == old(state).(pinchCursor := Point(x, y))
    {
      state := state.(pinchCursor := Point(x, y));
    }

    method SetCursorPosition(x: real, y: real)
      modifies this
      ensures state == old(state).(cursorPosition := Point(x, y))
    {
      state := state.(cursorPosition := Point(x, y));
    }

    method SetFaceTranslation(x: real, y: real)
      modifies this
      ensures state == old(state).(faceTranslation := Point(x, y))
    {
      state := state.(faceTranslation := Point(x, y));
    }

    method UpdateRotation(deltaY: real, deltaX: real)
      modifies this
      ensures state == Rotated(old(state), deltaY, deltaX)
      ensures PitchInRange(state)
    {
      state := Rotated(state, deltaY, deltaX);
    }

    method SetTreeColor(color: string)
      modifies this
      ensures state == old(state).(treeColor := color)
    {
      state := state.(treeColor := color);
    }

    method SetParticleCount(count: real)
      modifies this
      ensures state == old(state).(particleCount := count)
    {
      state := state.(particleCount := count);
    }

    method SetAnimationSpeed(speed: real)
      modifies this
      ensures state == old(state).(animationSpeed := speed)
    {
      state := state.(animationSpeed := speed);
    }

    method SetTitleText(text: string)
      modifies this
      ensures state == old(state).(titleText := text)
    {
      state := state.(titleText := text);
    }

    method SetSubtitleText(text: string)
      modifies this
      ensures state == old(state).(subtitleText := text)
    {
      state := state.(subtitleText := text);
    }

    method SetHoveredPhotoId(id: Option<int>)
      modifies this
      ensures state == old(state).(hoveredPhotoId := id)
    {
      state := state.(hoveredPhotoId := id);
    }
  }
}
