/**
 * `SlideToStart`: the landing slider. Positions are whole pixels along a
 * 320-pixel track with a 60-pixel knob. The move and release listeners are
 * registered once at mount, so the completion flag they read is the mount-time
 * `false`; the invariant `Valid` shows that this never matters.
 */
module Slider {
  import opened Wrappers

  const TRACK_WIDTH: int := 320
  const SLIDER_SIZE: int := 60
  const MAX_POS: int := TRACK_WIDTH - SLIDER_SIZE

  /** `Math.max(0, Math.min(x, maxPos))` */
  function Clamp(x: int): (r: int)
    ensures 0 <= r <= MAX_POS
    ensures 0 <= x <= MAX_POS ==> r == x
    ensures x < 0 ==> r == 0
    ensures x > MAX_POS ==> r == MAX_POS
  {
    if x < 0 then 0 else if x > MAX_POS then MAX_POS else x
  }

  /** The knob's refs and the completion state. */
  class SlideToStart {
    var slidePosition: int
    var isDragging: bool
    var dragOffset: int
    var isCompleted: bool
    /** How many times `onComplete` has been called. */
    ghost var completions: nat

    /**
     * The knob stays on the track; it is at the far end exactly when the slide is complete; a completed
     * slide is not being dragged; a knob at rest is at the start; and `onComplete` ran once per completion.
     */
    ghost predicate Valid()
      reads this
    {
      && 0 <= slidePosition <= MAX_POS
      && (slidePosition == MAX_POS <==> isCompleted)
      && (isCompleted ==> !isDragging)
      && (!isDragging && !isCompleted ==> slidePosition == 0)
      && completions == (if isCompleted then 1 else 0)
    }

    constructor ()
      ensures Valid()
      ensures slidePosition == 0 && !isDragging && !isCompleted && completions == 0
    {
      slidePosition := 0;
      isDragging := false;
      dragOffset := 0;
      isCompleted := false;
      completions := 0;
    }

    /** `handleStart`: ignored once complete; otherwise dragging starts with the grab offset (half the knob without a measured knob). */
    method HandleStart(clientX: int, sliderLeft: Option<int>)
      requires Valid()
      modifies this
      ensures Valid()
      ensures old(isCompleted) ==> isDragging == old(isDragging) && dragOffset == old(dragOffset)
      ensures !old(isCompleted) ==> isDragging
      ensures !old(isCompleted) ==>
        dragOffset == (if sliderLeft.Some? then clientX - sliderLeft.value else SLIDER_SIZE / 2)
      ensures slidePosition == old(slidePosition) && isCompleted == old(isCompleted)
      ensures completions == old(completions)
    {
      if isCompleted {
        return;
      }
      isDragging := true;
      dragOffset := if sliderLeft.Some? then clientX - sliderLeft.value else SLIDER_SIZE / 2;
    }

    /** `completeSlide`: marks the slide complete at the far end and calls `onComplete`. */
    method CompleteSlide() returns (fired: bool)
      requires Valid() || (!isCompleted && isDragging && slidePosition == MAX_POS && completions == 0)
      modifies this
      ensures Valid()
      ensures fired <==> !old(isCompleted)
      ensures isCompleted && !isDragging && slidePosition == MAX_POS
      ensures completions == 1 && dragOffset == old(dragOffset)
    {
      if isCompleted {
        return false;
      }
      isCompleted := true;
      isDragging := false;
      slidePosition := MAX_POS;
      completions := completions + 1;
      fired := true;
    }

    /**
     * `handleMove`, as the mount-time listener runs it: ignored unless dragging over a measured track;
     * otherwise the knob follows the pointer, clamped to the track, and reaching the end completes the slide.
     */
    method HandleMove(clientX: int, trackLeft: Option<int>) returns (fired: bool)
      requires Valid()
      modifies this
      ensures Valid()
      ensures !old(isDragging) || trackLeft.None? ==>
        && !fired && slidePosition == old(slidePosition) && isDragging == old(isDragging)
        && isCompleted == old(isCompleted) && completions == old(completions)
      ensures old(isDragging) && trackLeft.Some? ==>
        var target := Clamp(clientX - trackLeft.value - old(dragOffset));
        && slidePosition == target
        && (fired <==> target == MAX_POS)
        && (fired ==> isCompleted && !isDragging && old(completions) == 0 && completions == 1)
        && (!fired ==> isDragging && !isCompleted)
      ensures dragOffset == old(dragOffset)
    {
      fired := false;
      if !isDragging {
        return;
      }
      if trackLeft.None? {
        return;
      }
      var newPos := Clamp(clientX - trackLeft.value - dragOffset);
      slidePosition := newPos;
      if newPos >= MAX_POS {
        fired := CompleteSlide();
      }
    }

    /** `handleEnd`, as the mount-time listener runs it: a release short of the end snaps the knob back to the start. */
    method HandleEnd()
      requires Valid()
      modifies this
      ensures Valid()
      ensures !old(isDragging) ==> slidePosition == old(slidePosition) && isDragging == old(isDragging)
      ensures old(isDragging) ==> !isDragging && slidePosition == 0
      ensures isCompleted == old(isCompleted) && completions == old(completions) && dragOffset == old(dragOffset)
    {
      if !isDragging {
        return;
      }
      isDragging := false;
      if slidePosition < MAX_POS {
        slidePosition := 0;
      }
    }
  }

  /** Dragging to the end completes once; a second gesture afterwards neither moves the knob nor fires again. */
  method CompletionIsPermanent(grabX: int, trackLeft: int, farX: int, laterX: int)
    returns (first: bool, second: bool, position: int)
    requires farX - trackLeft - SLIDER_SIZE / 2 >= MAX_POS
    ensures first && !second && position == MAX_POS
  {
    var s := new SlideToStart();
    s.HandleStart(grabX, None);
    first := s.HandleMove(farX, Some(trackLeft));
    s.HandleEnd();
    s.HandleStart(grabX, None);
    second := s.HandleMove(laterX, Some(trackLeft));
    s.HandleEnd();
    position := s.slidePosition;
  }

  /** A drag released short of the end leaves the knob at the start, still incomplete. */
  method ShortDragSnapsBack(grabX: int, trackLeft: int, x: int)
    returns (position: int, completed: bool)
    requires x - trackLeft - SLIDER_SIZE / 2 < MAX_POS
    ensures position == 0 && !completed
  {
    var s := new SlideToStart();
    s.HandleStart(grabX, None);
    var _ := s.HandleMove(x, Some(trackLeft));
    s.HandleEnd();
    position := s.slidePosition;
    completed := s.isCompleted;
  }
}
