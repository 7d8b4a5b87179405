# Gesture-to-state pipeline of the AR holiday tree

This project models the part of the AR holiday-tree app that turns webcam
hand and face landmarks into application state, and the gallery's
pinch-to-lock controller. It is written in Dafny.

- `types.dfy` (`Types`) holds the shared vocabulary: the tree mode
  (ASSEMBLE / DISPERSE), optional values, 2D points, sums and powers of reals.
- `store.dfy` (`Store`) models the shared zustand store. `AppState` has every
  field of the store. `AppStore` is a class whose `state` field each action
  replaces, as zustand's `set` does. The pitch clamp of `updateRotation` is
  the pure function `Rotated`.
- `hand_signals.dfy` (`HandSignals`) covers the per-frame hand signals. They
  are the fingertip-distance loop, the extension ratio with its 0.1 fallback
  and the open-palm/fist vote with its dead zone. The module also has the
  pinch test, the cursor source point and the mirrored NDC and screen
  mappings.
- `debounce.dfy` (`Debounce`) models the gesture debouncer. It keeps a FIFO
  of at most eight votes. A mode change needs more than six agreeing votes,
  and DISPERSE is tested before ASSEMBLE.
- `smoothing.dfy` (`Smoothing`) models exponential smoothing
  (`s += (t - s) * rate`, rate 0.3 for the cursor and 0.05 for parallax),
  with its convergence properties.
- `face_signals.dfy` (`FaceSignals`) covers the raw yaw, the 0.015 deadzone,
  the 1.5 rotation sensitivity and the parallax target.
- `gesture_controller.dfy` (`GestureController`) models `predictWebcam`. The
  class `Controller` holds the five state refs (the video element and the
  frame request are abstracted), and its method `PredictWebcam` calls
  the store's setters in the source's order. Each method is proved equal to
  the pure `FrameStep`/`HandStep`/`FaceStep` functions. Lemmas over those
  functions state the frame-level properties, including an invariant kept
  over any run of frames (`Consistent`).
- `gallery.dfy` (`Gallery`) models the `Gallery` frame callback. `NextLock`
  and `HoverAfter` are the pure transition functions and `GalleryController`
  is the component with its `lockedId` state. Lemmas cover the lock over
  runs of frames and the per-photo `isLocked` flags.

Inputs the model takes as parameters:
- The landmarker's output: a hand reading with its Euclidean distances
  already computed, a face reading, and the video time.
- Whether both trackers and the video element exist.
- The photo indices that the gallery's ray hits, nearest first.

The gallery takes a lock on any frame where the pinch is held, no lock is
set and a hover id is known. Hit-testing keeps running while unlocked, so a
lock can also be taken mid-pinch, when the cursor reaches a photo while the
fingers stay pinched (`Gallery.NextLock`).

## Model

| member | source | states |
|---|---|---|
| Store.AppStore.constructor | store.ts:40-56 | The store starts with the documented defaults, and its pitch starts in [-0.5, 0.5]. |
| Store.AppStore.SetMode | store.ts:58 | Replaces `mode` and nothing else. |
| Store.AppStore.SetAiReady | store.ts:59 | Replaces `isAiReady` and nothing else. |
| Store.AppStore.SetHandDetected | store.ts:60 | Replaces `isHandDetected` and nothing else. |
| Store.AppStore.SetFaceDetected | store.ts:61 | Replaces `isFaceDetected` and nothing else. |
| Store.AppStore.SetIsPinching | store.ts:62 | Replaces `isPinching` and nothing else. |
| Store.AppStore.SetPinchCursor | store.ts:63 | Replaces `pinchCursor` with the point (x, y) and nothing else. |
| Store.AppStore.SetCursorPosition | store.ts:64 | Replaces `cursorPosition` with the point (x, y) and nothing else. |
| Store.AppStore.SetFaceTranslation | store.ts:65 | Replaces `faceTranslation` with the point (x, y) and nothing else. |
| Store.AppStore.UpdateRotation | store.ts:66-70 | The new state is `Rotated` of the old one. Pitch stays within [-0.5, 0.5] afterwards. |
| Store.AppStore.SetTreeColor | store.ts:71 | Replaces `treeColor` and nothing else. |
| Store.AppStore.SetParticleCount | store.ts:72 | Replaces `particleCount` and nothing else. |
| Store.AppStore.SetAnimationSpeed | store.ts:73 | Replaces `animationSpeed` and nothing else. |
| Store.AppStore.SetTitleText | store.ts:74 | Replaces `titleText` and nothing else. |
| Store.AppStore.SetSubtitleText | store.ts:75 | Replaces `subtitleText` and nothing else. |
| Store.AppStore.SetHoveredPhotoId | store.ts:76 | Replaces `hoveredPhotoId` and nothing else. |
| Store.Clamp | store.ts:69 | The result lies in [lo, hi]. It equals x inside the range and the nearer bound outside it. |
| Store.Rotated | store.ts:66-70 | Yaw accumulates by deltaY without bound. Pitch accumulates and saturates at ±0.5 and is always in range. No other field changes. |
| Store.YawOnlyKeepsPitch | store.ts:66-70 | A yaw-only update (deltaX 0) leaves an in-range pitch unchanged and only adds to the yaw. |
| Store.PitchSaturates | store.ts:69 | From an in-range pitch, non-negative pitch deltas give min(0.5, pitch + their sum). Driving pitch to +0.7 yields +0.5. |
| HandSignals.TotalTipDistance | components/GestureController.tsx:106-115 | The loop's total is the sum of the fingertip distances. |
| HandSignals.ExtensionRatio | components/GestureController.tsx:116-117 | With a non-zero scale, the ratio times the scale is the average tip distance. A zero scale falls back to 0.1, so the ratio is 10 times the average. |
| HandSignals.Classify | components/GestureController.tsx:119-122 | DISPERSE iff ratio > 1.6, ASSEMBLE iff ratio < 1.3, and no vote iff 1.3 <= ratio <= 1.6. |
| HandSignals.DeadZoneIsClosed | components/GestureController.tsx:121-122 | Ratios of exactly 1.3 and 1.6 cast no vote, while 1.6 + 0.000001 votes DISPERSE. |
| HandSignals.BoundaryScenario | components/GestureController.tsx:106-122 | A hand scale of 0.1 with tip distances summing to 0.8 gives a ratio of exactly 1.6, which casts no vote. |
| HandSignals.PinchThreshold | components/GestureController.tsx:149-150 | The pinch test is strict: a distance equal to 0.4 × scale is no pinch. A zero scale never pinches, and a smaller non-negative distance on a positive scale does. |
| HandSignals.CursorSource | components/GestureController.tsx:154-156 | While pinching, the source is the midpoint of the thumb and index tips. Otherwise it is the index tip. |
| HandSignals.ToNdc | components/GestureController.tsx:158-160 | The NDC point is (1 - 2x, 1 - 2y), mirrored horizontally and with y pointing up. The unit square maps into [-1, 1]², and the image centre maps to the origin. |
| HandSignals.NdcMirrors | components/GestureController.tsx:158-160 | The mapping reverses order on both axes, so the x axis is mirrored and y points up. |
| HandSignals.ToScreen | components/GestureController.tsx:166 | [-1, 1]² maps into the unit screen square. |
| HandSignals.ScreenOfNdc | components/GestureController.tsx:159-166 | Going from image to NDC to screen is a horizontal mirror: (x, y) becomes (1 - x, y). |
| Debounce.Count | components/GestureController.tsx:128-129 | A vote count never exceeds the history length. |
| Debounce.CountIsMultiplicity | components/GestureController.tsx:128-129 | The count of a mode equals its multiplicity in the history, which is what the filtered length measures. |
| Debounce.CountsPartition | components/GestureController.tsx:128-129 | The ASSEMBLE and DISPERSE counts add up to the history length. |
| Debounce.NoDoubleSupermajority | components/GestureController.tsx:126-137 | In a window of at most eight, both modes can never have more than six votes at once. |
| Debounce.PushVote | components/GestureController.tsx:124-126 | Below eight entries the vote is appended. At eight the oldest is evicted and the vote appended. The window stays at most eight long and ends with the new vote. |
| Debounce.Decide | components/GestureController.tsx:128-137 | Flips to DISPERSE iff its count > 6 and it is not already the mode. Flips to ASSEMBLE iff its count > 6 and it is not already the mode. Never flips to the current mode, and never flips when neither count exceeds 6. |
| Debounce.VoteFlipsOnSupermajority | components/GestureController.tsx:124-137 | A vote keeps the window bounded. A changed mode has more than six votes in the new window, and without such a count the mode stays. |
| Debounce.FirstVoteKeepsMode | components/GestureController.tsx:124-137 | From the empty history a lost hand leaves behind, the first vote is recorded alone and the confirmed mode stays. |
| Debounce.VoteAfterRun | components/GestureController.tsx:124-137 | The k-th DISPERSE vote in a row, from ASSEMBLE, extends the run and leaves the mode given by `ModeAfterRun(k)`. |
| Debounce.DisperseRunFlipsOnSeventh | components/GestureController.tsx:124-137 | From an empty history in ASSEMBLE, k DISPERSE votes (k <= 8) leave a history of k DISPERSE votes. The mode becomes DISPERSE exactly when k >= 7. |
| Debounce.WindowIsLastVotes | components/GestureController.tsx:124-126 | From an empty history, the window after any run of votes is exactly the last min(8, n) votes, in order. |
| Debounce.WindowStep | components/GestureController.tsx:124-126 | Pushing the newest vote onto the window of the earlier votes gives the window of all of them. |
| Smoothing.SmoothBetween | components/GestureController.tsx:162-163 | A step with a rate in [0, 1] lands between the value and its target and leaves (1 - rate) of the distance. |
| Smoothing.GapStep | components/GestureController.tsx:162-163 | One step multiplies the signed gap to the target by (1 - rate). |
| Smoothing.GapAfter | components/GestureController.tsx:162-163 | After n steps toward a fixed target, the signed gap is (1 - rate)^n times the initial gap. |
| Smoothing.DistanceAfter | components/GestureController.tsx:202-203 | The same in absolute value, for a rate in [0, 1]. |
| Smoothing.Monotone | components/GestureController.tsx:162-163 | Each step toward a fixed target moves no farther from it and never overshoots. |
| Smoothing.StaysOnSide | components/GestureController.tsx:202-203 | The smoothed signal stays between its start and a fixed target. |
| Smoothing.PowBound | components/GestureController.tsx:162-163 | (1 - rate)^n × (1 + n × rate) <= 1, which bounds the remaining gap. |
| Smoothing.WithinTolerance | components/GestureController.tsx:162-163 | Once n × rate × eps >= 1, the signal is within eps times its initial distance of a fixed target. |
| FaceSignals.RawYaw | components/GestureController.tsx:183-184 | The yaw is zero when the nose is midway between the ears. With equal ear x, it is the nose's offset from them. |
| FaceSignals.RotationDelta | components/GestureController.tsx:186-195 | A delta is emitted iff \|yaw\| > 0.015. Its value is -1.5 × yaw, and it is positive iff the yaw is negative. |
| FaceSignals.YawScenario | components/GestureController.tsx:186-194 | A yaw of 0.02 turns by -0.03. Yaws of ±0.015 do not turn. |
| FaceSignals.ParallaxTarget | components/GestureController.tsx:199-200 | A centred nose gives the zero target. A nose in the unit square gives a target within ±4 horizontally and ±2 vertically. |
| GestureController.Controller.constructor | components/GestureController.tsx:20-29 | The refs start at time -1, an empty history, ASSEMBLE and both smoothed points at the origin. |
| GestureController.Controller.PredictWebcam | components/GestureController.tsx:80-210 | Refs and store after the call are exactly `FrameStep` of their old values. Nothing changes when the trackers are missing or the video time has not advanced. |
| GestureController.Controller.HandFrame | components/GestureController.tsx:92-172 | Refs and store after the hand branch are `HandStep` of their old values. The video time and the parallax ref are untouched. |
| GestureController.Controller.RecordGesture | components/GestureController.tsx:124-137 | History and confirmed mode become those of one debouncer `Vote`. The store's mode is set only when the confirmed mode changes, and the other refs are untouched. |
| GestureController.Controller.MoveCursor | components/GestureController.tsx:158-166 | The cursor ref takes one 0.3 smoothing step toward the mirrored NDC target. The store gets it as the NDC cursor and its screen mapping as the UI cursor, and nothing else changes. |
| GestureController.Controller.FaceFrame | components/GestureController.tsx:175-209 | Refs and store after the face branch are `FaceStep` of their old values. |
| GestureController.StaleFrameIgnored | components/GestureController.tsx:84 | A frame whose time equals the last processed time changes neither refs nor store. |
| GestureController.HandLossResets | components/GestureController.tsx:168-172 | A new frame without a hand empties the history and clears the detection and pinch flags. It keeps the confirmed mode and the cursor. |
| GestureController.NoVoteKeepsMode | components/GestureController.tsx:119-124 | A hand in the dead zone leaves the history, the confirmed mode and the store's mode unchanged. |
| GestureController.ModeChangeNeedsSupermajority | components/GestureController.tsx:124-137 | The store's mode changes only on a frame with a hand. The new mode is the confirmed mode and has more than six votes in the window. |
| GestureController.FaceTurnsAndShifts | components/GestureController.tsx:175-209 | With a face, yaw outside the deadzone adds -1.5 × yaw to the rotation, and the parallax takes one 0.05 step toward the nose target. Without a face only `isFaceDetected` changes. |
| GestureController.ScreenCursorSmooths | components/GestureController.tsx:158-166 | The UI cursor is itself smoothed at 0.3 toward the horizontally mirrored source point. |
| GestureController.InitiallyConsistent | store.ts:40-56 | The initial refs and store satisfy `Consistent`. |
| GestureController.FrameKeepsConsistent | components/GestureController.tsx:80-210 | Every frame keeps `Consistent`: window <= 8, store mode = confirmed mode, pitch = 0, and the store's cursor and parallax fields equal the smoothed refs. |
| GestureController.RunKeepsConsistent | components/GestureController.tsx:80-211 | Any run of frames from the initial refs and store ends in a consistent state. |
| Gallery.NextLock | components/Decorations.tsx:151-156 | Releasing the pinch clears the lock. While pinching, a held lock is kept, and with no lock the lock becomes the hovered id (if any). |
| Gallery.LockTransitions | components/Decorations.tsx:151-156 | A held lock is released iff the pinch ends, and never moves to another id. A new lock needs a pinch and is the hovered id. |
| Gallery.HoverAfter | components/Decorations.tsx:158-168 | With a lock, the hover is forced to the lock. Otherwise it is the nearest hit's photo, or none when nothing is hit. |
| Gallery.LockedFlags | components/Decorations.tsx:174 | Photo i is flagged as locked iff the lock is i. |
| Gallery.AtMostOneLocked | components/Decorations.tsx:174 | At most one photo is flagged as locked. Exactly one is iff the lock names an existing photo. |
| Gallery.LockNeverSwitches | components/Decorations.tsx:151-169 | Over any run of frames, two consecutive set locks are equal. A lock changes only by passing through the unlocked state. |
| Gallery.LocksNamePhotos | components/Decorations.tsx:139-169 | When every hit is a photo index (0-11), every lock over a run names a photo. |
| Gallery.GalleryController.constructor | components/Decorations.tsx:137 | The gallery starts unlocked. |
| Gallery.GalleryController.OnFrame | components/Decorations.tsx:151-169 | The new lock is `NextLock` of the frame's pinch flag, lock and hover. The store's hover becomes `HoverAfter` of the lock as rendered, and nothing else in the store changes. |

## Left out

- Model loading, camera access and the `loadeddata` hook (components/GestureController.tsx:36-78) are left out. They are I/O. `setAiReady` is modelled only as a store action.
- Scheduling and teardown are left out (components/GestureController.tsx:211, 214-222). The `requestAnimationFrame` re-arm, cancellation and closing the landmarkers and the stream are I/O.
- The landmarker calls (`detectForVideo`) and `performance.now()` are inputs. A frame carries at most one hand and one face, already reduced to the points and distances the step reads.
- Euclidean distances (`Math.sqrt` of squared differences) are inputs rather than computed from 3D landmarks, because Dafny's reals have no square root.
- JavaScript numbers are IEEE doubles. The model uses exact reals, so rounding is not modelled, nor are NaN and infinities.
- ExtensionRatio: `handScale || 0.1` also replaces a NaN scale. Only the zero case is modelled, since reals have no NaN.
- The null checks on the two landmarkers and the video element (components/GestureController.tsx:81) are the boolean `trackersReady`.
- Smoothing.WithinTolerance: bounds the frames needed by 1/(rate × eps), not by the sharper logarithmic bound. The exact geometric gap is `Smoothing.GapAfter`.
- The ray cast and mesh traversal in the gallery (components/Decorations.tsx:160-164) are an input list of hit photo indices, nearest first. Camera and scene geometry are rendering.
- Gallery.GalleryController.OnFrame: the frame callback reads `isPinching` and `hoveredPhotoId` as captured at the component's last render. The model uses the store's values at the start of the frame and does not model a render that lags more than that.
- The refs `cursorSmooth` and `faceTranslationSmooth` are objects mutated in place. They are private and never aliased (the setters copy x and y), so the model reassigns point values.
- Photo layout, the `Polaroid` zoom animation, the star, the tree particles, the overlay panel and the other components are rendering and are not part of this model.
- The unused declarations in types.ts (`HandGestureState`, `PhotoData`, `GESTURE_THRESHOLDS`) are not part of this model. Only `TreeMode` is used.
