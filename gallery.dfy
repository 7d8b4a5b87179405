/** The photo gallery's per-frame lock/hover controller (the `Gallery`
    frame callback in components/Decorations.tsx): a pinch locks the hovered
    photo, releasing the pinch unlocks it, and hit-testing is suspended while
    a lock is held. */
module Gallery {
  import opened Types
  import opened Store

  /** Number of photos the gallery lays out (indices 0 to 11). */
  const PhotoCount: nat := 12

  /** The lock after one frame, from the values the frame callback reads:
      the pinch flag, the lock and the hovered id as of the frame's start. */
  function NextLock(isPinching: bool, lockedId: Option<int>, hoveredId: Option<int>): (next: Option<int>)
    ensures !isPinching ==> next == None
    ensures isPinching && lockedId.Some? ==> next == lockedId
    ensures isPinching && lockedId.None? ==> next == hoveredId
  {
    if isPinching then
      if lockedId.None? && hoveredId.Some? then hoveredId else lockedId
    else
      if lockedId.Some? then None else lockedId
  }

  /** A lock is released exactly when the pinch ends, and never moves
      straight from one photo to another. */
  lemma LockTransitions(isPinching: bool, lockedId: Option<int>, hoveredId: Option<int>)
    ensures lockedId.Some? ==> (NextLock(isPinching, lockedId, hoveredId).None? <==> !isPinching)
    ensures lockedId.Some? && NextLock(isPinching, lockedId, hoveredId).Some? ==>
              NextLock(isPinching, lockedId, hoveredId) == lockedId
    ensures lockedId.None? && NextLock(isPinching, lockedId, hoveredId).Some? ==>
              isPinching && NextLock(isPinching, lockedId, hoveredId) == hoveredId
  {
  }

  /** The hovered id the frame writes: with a lock (as of the frame's start)
      the lock itself and no hit-test; otherwise the first hit's photo index,
      or none when nothing was hit. */
  function HoverAfter(lockedId: Option<int>, hits: seq<int>): (hovered: Option<int>)
    ensures lockedId.Some? ==> hovered == lockedId
    ensures lockedId.None? && hits == [] ==> hovered == None
    ensures lockedId.None? && hits != [] ==> hovered == Some(hits[0])
  {
    if lockedId.None? then
      if |hits| > 0 then Some(hits[0]) else None
    else
      lockedId
  }

  /** The `isLocked` flag of each photo, `lockedId === i`. */
  function LockedFlags(lockedId: Option<int>, count: nat): (flags: seq<bool>)
    ensures |flags| == count
    ensures forall i :: 0 <= i < count ==> (flags[i] <==> lockedId == Some(i))
  {
    seq(count, i => lockedId == Some(i))
  }

  function CountTrue(flags: seq<bool>): nat
  {
    if flags == [] then 0
    else CountTrue(flags[..|flags| - 1]) + (if flags[|flags| - 1] then 1 else 0)
  }

  /** At most one photo is shown as locked, and exactly one when the lock
      names a photo that exists. */
  lemma {:induction false} AtMostOneLocked(lockedId: Option<int>, count: nat)
    ensures CountTrue(LockedFlags(lockedId, count)) <= 1
    ensures CountTrue(LockedFlags(lockedId, count)) == 1 <==>
              lockedId.Some? && 0 <= lockedId.value < count
  {
    if count > 0 {
      AtMostOneLocked(lockedId, count - 1);
      assert LockedFlags(lockedId, count)[..count - 1] == LockedFlags(lockedId, count - 1);
      if lockedId == Some(count - 1) {
        NoneLockedBelow(lockedId, count - 1);
      }
    }
  }

  lemma {:induction false} NoneLockedBelow(lockedId: Option<int>, count: nat)
    requires lockedId.Some? && lockedId.value >= count
    ensures CountTrue(LockedFlags(lockedId, count)) == 0
  {
    if count > 0 {
      assert LockedFlags(lockedId, count)[..count - 1] == LockedFlags(lockedId, count - 1);
      NoneLockedBelow(lockedId, count - 1);
    }
  }

  /** What the rendering layer supplies each frame: the pinch flag the frame
      reads and the photo indices the cursor ray hits, nearest first. */
  datatype FrameInput = FrameInput(isPinching: bool, hits: seq<int>)

  /** The lock held after each frame of a run, starting from `lockedId` with
      `hoveredId` in the store; each frame's hover is fed to the next. */
  function Locks(lockedId: Option<int>, hoveredId: Option<int>, frames: seq<FrameInput>): (locks: seq<Option<int>>)
    ensures |locks| == |frames| + 1 && locks[0] == lockedId
    decreases |frames|
  {
    if frames == [] then [lockedId]
    else
      [lockedId] + Locks(NextLock(frames[0].isPinching, lockedId, hoveredId),
                         HoverAfter(lockedId, frames[0].hits), frames[1..])
  }

  /** Consecutive locks that are both set are the same lock. */
  predicate NeverSwitches(locks: seq<Option<int>>)
  {
    forall i :: 0 <= i < |locks| - 1 && locks[i].Some? && locks[i + 1].Some? ==> locks[i + 1] == locks[i]
  }

  /** Over any run of frames, a lock never changes from one photo to another
      without passing through the unlocked state. */
  lemma {:induction false} LockNeverSwitches(lockedId: Option<int>, hoveredId: Option<int>, frames: seq<FrameInput>)
    decreases |frames|
    ensures NeverSwitches(Locks(lockedId, hoveredId, frames))
  {
    if frames != [] {
      var next := NextLock(frames[0].isPinching, lockedId, hoveredId);
      var hover := HoverAfter(lockedId, frames[0].hits);
      LockNeverSwitches(next, hover, frames[1..]);
      var locks := Locks(lockedId, hoveredId, frames);
      var rest := Locks(next, hover, frames[1..]);
      assert locks == [lockedId] + rest;
      forall i | 0 <= i < |locks| - 1 && locks[i].Some? && locks[i + 1].Some?
        ensures locks[i + 1] == locks[i]
      {
        if i > 0 {
          var j := i - 1;
          assert locks[i] == rest[j] && locks[i + 1] == rest[j + 1];
          assert 0 <= j < |rest| - 1 && rest[j].Some? && rest[j + 1].Some?;
          assert rest[j + 1] == rest[j];
        } else {
          assert locks[1] == rest[0] == next;
          assert locks[0] == lockedId;
        }
      }
    }
  }

  predicate IsPhoto(id: Option<int>)
  {
    id.None? || 0 <= id.value < PhotoCount
  }

  /** When every hit is a photo index, the hover and the lock only ever
      name photos: a lock comes from a hover, a hover from a hit or the lock. */
  lemma {:induction false} LocksNamePhotos(lockedId: Option<int>, hoveredId: Option<int>, frames: seq<FrameInput>)
    requires IsPhoto(lockedId) && IsPhoto(hoveredId)
    requires forall k, j :: 0 <= k < |frames| && 0 <= j < |frames[k].hits| ==> 0 <= frames[k].hits[j] < PhotoCount
    ensures forall l <- Locks(lockedId, hoveredId, frames) :: IsPhoto(l)
    decreases |frames|
  {
    if frames != [] {
      var next := NextLock(frames[0].isPinching, lockedId, hoveredId);
      var hover := HoverAfter(lockedId, frames[0].hits);
      assert frames[0].hits != [] ==> 0 <= frames[0].hits[0] < PhotoCount;
      LocksNamePhotos(next, hover, frames[1..]);
    }
  }

  /** The gallery component's lock state. */
  class GalleryController {
    var lockedId: Option<int>

    constructor ()
      ensures lockedId == None
    {
      lockedId := None;
    }

    /** One frame. `isPinching` and `hoveredPhotoId` are the store's values as
        the frame starts; `hits` is the hit-test result for the current
        cursor. The hit-test is gated on the lock as it was before this
        frame, because the new lock only becomes visible on the next render. */
    method OnFrame(store: AppStore, hits: seq<int>)
      modifies this, store
      ensures lockedId == NextLock(old(store.state.isPinching), old(lockedId), old(store.state.hoveredPhotoId))
      ensures store.state == old(store.state).(hoveredPhotoId := HoverAfter(old(lockedId), hits))
    {
      var isPinching := store.state.isPinching;
      var hoveredPhotoId := store.state.hoveredPhotoId;
      var renderedLock := lockedId;
      if isPinching {
        if renderedLock.None? && hoveredPhotoId.Some? {
          lockedId := hoveredPhotoId;
        }
      } else {
        if renderedLock.Some? {
          lockedId := None;
        }
      }
      if renderedLock.None? {
        store.SetHoveredPhotoId(if |hits| > 0 then Some(hits[0]) else None);
      } else {
        store.SetHoveredPhotoId(renderedLock);
      }
    }

  }
}
