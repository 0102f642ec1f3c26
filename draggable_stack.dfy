/**
 * The swipe state machine of the card stack: the controller that owns the
 * top card's offset and rotation and the peek scale of the card beneath it,
 * and the drag observer that feeds it drag steps and releases.
 *
 * Each animation is atomic: starting one records where it will end and what
 * runs when it ends, and completing it makes the values jump there.
 */
module StackController {
  import opened Options
  import opened Normalization

  /** The four animated values the controller publishes. */
  datatype Pose = Pose(offsetX: real, offsetY: real, rotation: real, scale: real)

  /** Centred, upright, and the card beneath shrunk to 0.8. */
  const Rest := Pose(0.0, 0.0, 0.0, 0.8)

  /** The controller callback, if any, that runs when an animation ends. */
  datatype Callback = NoCallback | OnSwipeLeft | OnSwipeRight

  /** A started animation: where the values end up, and the callback its end runs. */
  datatype Animation = Animation(target: Pose, onEnd: Callback)

  /** The three operations a release can start. */
  datatype Choice = LeftSwipe | RightSwipe | CenterReturn

  function Abs(x: real): (r: real)
    ensures r >= 0.0 && (r == x || r == -x)
  {
    if x < 0.0 then -x else x
  }

  /** Kotlin's `Float.sign`, for a number that is not NaN. */
  function Sign(x: real): (r: real)
    ensures x > 0.0 ==> r == 1.0
    ensures x < 0.0 ==> r == -1.0
    ensures x == 0.0 ==> r == 0.0
  {
    if x > 0.0 then 1.0 else if x < 0.0 then -1.0 else 0.0
  }

  /**
   * The rotation a drag gives the top card: up to 10 degrees, reached at a
   * full screen width, leaning against the direction of the drag.
   */
  function DragRotation(offsetX: real, screenWidth: real): (r: real)
    requires screenWidth > 0.0
    ensures -10.0 <= r <= 10.0
    ensures offsetX == 0.0 ==> r == 0.0
    ensures offsetX > 0.0 ==> r < 0.0
    ensures offsetX < 0.0 ==> r > 0.0
    ensures Abs(offsetX) >= screenWidth ==> Abs(r) == 10.0
  {
    Normalize(0.0, screenWidth, Abs(offsetX), 0.0, 10.0).value * -Sign(offsetX)
  }

  /**
   * The scale a drag gives the card beneath the top one: from 0.8 at the
   * centre up to 1, reached at a third of the screen width.
   */
  function DragScale(offsetX: real, screenWidth: real): (r: real)
    requires screenWidth > 0.0
    ensures 0.8 <= r <= 1.0
    ensures offsetX == 0.0 ==> r == 0.8
    ensures 0.0 < Abs(offsetX) < screenWidth / 3.0 ==> 0.8 < r < 1.0
    ensures Abs(offsetX) >= screenWidth / 3.0 ==> r == 1.0
  {
    Normalize(0.0, screenWidth / 3.0, Abs(offsetX), 0.8, 1.0).value
  }

  /** A drag further from the centre never shrinks the card beneath more. */
  lemma DragScaleMonotone(x1: real, x2: real, screenWidth: real)
    requires screenWidth > 0.0 && Abs(x1) <= Abs(x2)
    ensures DragScale(x1, screenWidth) <= DragScale(x2, screenWidth)
  {
    NormalizeMonotone(0.0, screenWidth / 3.0, Abs(x1), Abs(x2), 0.8, 1.0);
  }

  /** A drag further from the centre never tilts the card less. */
  lemma DragRotationMonotone(x1: real, x2: real, screenWidth: real)
    requires screenWidth > 0.0 && Abs(x1) <= Abs(x2)
    ensures Abs(DragRotation(x1, screenWidth)) <= Abs(DragRotation(x2, screenWidth))
  {
    NormalizeMonotone(0.0, screenWidth, Abs(x1), Abs(x2), 0.0, 10.0);
  }

  /** Dragging the same distance to the other side mirrors the rotation. */
  lemma DragRotationMirror(offsetX: real, screenWidth: real)
    requires screenWidth > 0.0
    ensures DragRotation(-offsetX, screenWidth) == -DragRotation(offsetX, screenWidth)
    ensures DragScale(-offsetX, screenWidth) == DragScale(offsetX, screenWidth)
  {
    assert Abs(-offsetX) == Abs(offsetX);
  }

  /** Rotation and scale are those a drag to the pose's offset would give. */
  ghost predicate Coherent(p: Pose, screenWidth: real)
    requires screenWidth > 0.0
  {
    p.rotation == DragRotation(p.offsetX, screenWidth) && p.scale == DragScale(p.offsetX, screenWidth)
  }

  /**
   * The release policy: the side is fixed by the sign of the offset (zero
   * counts as left); a fling at least as fast as the velocity threshold
   * towards that side swipes whatever the distance; otherwise the card
   * swipes once the distance threshold is reached, and returns before it.
   */
  function ReleaseChoice(offsetX: real, velocityX: real, threshold: real, velocityThresholdPx: real): (c: Choice)
    ensures offsetX <= 0.0 ==> c != RightSwipe
    ensures offsetX > 0.0 ==> c != LeftSwipe
    ensures offsetX <= 0.0 && velocityX <= -velocityThresholdPx ==> c == LeftSwipe
    ensures offsetX > 0.0 && velocityX >= velocityThresholdPx ==> c == RightSwipe
    ensures offsetX <= 0.0 && velocityX > -velocityThresholdPx ==> (c == CenterReturn <==> offsetX > -threshold)
    ensures offsetX > 0.0 && velocityX < velocityThresholdPx ==> (c == CenterReturn <==> offsetX < threshold)
  {
    if offsetX <= 0.0 then
      if velocityX <= -velocityThresholdPx then LeftSwipe
      else if offsetX > -threshold then CenterReturn
      else LeftSwipe
    else
      if velocityX >= velocityThresholdPx then RightSwipe
      else if offsetX < threshold then CenterReturn
      else RightSwipe
  }

  /** A card comes back only from strictly inside the threshold, and only without a fling to its side. */
  lemma ReturnOnlyInsideThreshold(offsetX: real, velocityX: real, threshold: real, velocityThresholdPx: real)
    requires threshold >= 0.0
    requires ReleaseChoice(offsetX, velocityX, threshold, velocityThresholdPx) == CenterReturn
    ensures -threshold < offsetX < threshold
    ensures offsetX <= 0.0 ==> velocityX > -velocityThresholdPx
    ensures offsetX > 0.0 ==> velocityX < velocityThresholdPx
  {
  }

  /** Exactly at the threshold the card swipes, whatever the velocity. */
  lemma SwipeAtThreshold(threshold: real, velocityX: real, velocityThresholdPx: real)
    requires threshold >= 0.0
    ensures ReleaseChoice(-threshold, velocityX, threshold, velocityThresholdPx) == LeftSwipe
    ensures threshold > 0.0 ==> ReleaseChoice(threshold, velocityX, threshold, velocityThresholdPx) == RightSwipe
  {
  }

  /**
   * What starting each operation records: a swipe moves the card a screen
   * width to its side and grows the card beneath to full size, ending in the
   * matching callback; a return goes back to the rest pose with no callback.
   */
  function Start(c: Choice, p: Pose, screenWidth: real): (a: Animation)
    ensures c == LeftSwipe ==> a.target.offsetX == -screenWidth && a.onEnd == OnSwipeLeft
    ensures c == RightSwipe ==> a.target.offsetX == screenWidth && a.onEnd == OnSwipeRight
    ensures c != CenterReturn ==> a.target.offsetY == p.offsetY && a.target.rotation == p.rotation && a.target.scale == 1.0
    ensures c == CenterReturn ==> a == Animation(Rest, NoCallback)
  {
    match c
    case LeftSwipe => Animation(Pose(-screenWidth, p.offsetY, p.rotation, 1.0), OnSwipeLeft)
    case RightSwipe => Animation(Pose(screenWidth, p.offsetY, p.rotation, 1.0), OnSwipeRight)
    case CenterReturn => Animation(Rest, NoCallback)
  }

  /** The values once an animation has ended: a swipe's end snaps them back to rest. */
  function Finish(a: Animation): (p: Pose)
    ensures a.onEnd != NoCallback ==> p == Rest
    ensures a.onEnd == NoCallback ==> p == a.target
  {
    if a.onEnd == NoCallback then a.target else Rest
  }

  /** Whichever operation starts, the controller settles at the rest pose. */
  lemma StartSettlesAtRest(c: Choice, p: Pose, screenWidth: real)
    ensures Finish(Start(c, p, screenWidth)) == Rest
    ensures Start(c, p, screenWidth).onEnd != NoCallback <==> c != CenterReturn
  {
  }

  /** The rest pose is one a drag to the centre would produce. */
  lemma RestIsCoherent(screenWidth: real)
    requires screenWidth > 0.0
    ensures Coherent(Rest, screenWidth)
  {
    assert DragRotation(0.0, screenWidth) == 0.0;
    assert DragScale(0.0, screenWidth) == 0.8;
  }

  /**
   * The controller: four animated values, the running animation (if any),
   * the distance threshold set by the drag modifier, and the screen width.
   */
  class CardStackController {
    const screenWidth: real
    var threshold: real
    var offsetX: real
    var offsetY: real
    var rotation: real
    var scale: real
    var pending: Option<Animation>

    /**
     * Whatever happened, rotation and scale are those the offset's drag would
     * give, and a running animation settles at rest.
     */
    ghost predicate Valid()
      reads this
    {
      screenWidth > 0.0 && threshold >= 0.0 &&
      Coherent(Current(), screenWidth) &&
      (pending.Some? ==> Finish(pending.value) == Rest)
    }

    function Current(): (p: Pose)
      reads this
    {
      Pose(offsetX, offsetY, rotation, scale)
    }

    /** The controller is animating exactly while a started animation has not completed. */
    predicate IsAnimationRunning(): (r: bool)
      reads this
      ensures r <==> pending != None
    {
      pending.Some?
    }

    constructor (screenWidth: real)
      requires screenWidth > 0.0
      ensures Valid()
      ensures this.screenWidth == screenWidth && threshold == 0.0
      ensures Current() == Rest && !IsAnimationRunning()
    {
      this.screenWidth := screenWidth;
      threshold := 0.0;
      offsetX, offsetY, rotation, scale := 0.0, 0.0, 0.0, 0.8;
      pending := None;
      new;
      RestIsCoherent(screenWidth);
    }

    /** Starts the swipe to the left; the values move only when it completes. */
    method SwipeLeft()
      requires Valid() && !IsAnimationRunning()
      modifies this
      ensures Valid() && threshold == old(threshold)
      ensures Current() == old(Current())
      ensures pending == Some(Start(LeftSwipe, old(Current()), screenWidth))
    {
      pending := Some(Animation(Pose(-screenWidth, offsetY, rotation, 1.0), OnSwipeLeft));
    }

    /** Starts the swipe to the right. */
    method SwipeRight()
      requires Valid() && !IsAnimationRunning()
      modifies this
      ensures Valid() && threshold == old(threshold)
      ensures Current() == old(Current())
      ensures pending == Some(Start(RightSwipe, old(Current()), screenWidth))
    {
      pending := Some(Animation(Pose(screenWidth, offsetY, rotation, 1.0), OnSwipeRight));
    }

    /** Starts the return of all four values to the rest pose. */
    method ReturnCenter()
      requires Valid() && !IsAnimationRunning()
      modifies this
      ensures Valid() && threshold == old(threshold)
      ensures Current() == old(Current())
      ensures pending == Some(Start(CenterReturn, old(Current()), screenWidth))
    {
      pending := Some(Animation(Rest, NoCallback));
    }

    /**
     * The running animation completes: the values reach its target, the
     * animation is over, and a swipe's end runs its callback once and then
     * snaps the values back to rest.
     */
    method Complete() returns (fired: Callback)
      requires Valid() && IsAnimationRunning()
      modifies this
      ensures Valid() && threshold == old(threshold) && !IsAnimationRunning()
      ensures fired == old(pending.value.onEnd)
      ensures Current() == Rest
    {
      var a := pending.value;
      offsetX, offsetY, rotation, scale := a.target.offsetX, a.target.offsetY, a.target.rotation, a.target.scale;
      pending := None;
      fired := a.onEnd;
      if fired != NoCallback {
        offsetX, offsetY, rotation, scale := 0.0, 0.0, 0.0, 0.8;
      }
      RestIsCoherent(screenWidth);
    }
  }

  /**
   * The drag modifier attached to a controller: it sets the controller's
   * threshold, moves the card on each drag step and decides at each release.
   */
  class DraggableStack {
    const controller: CardStackController
    const velocityThresholdPx: real

    constructor (controller: CardStackController, threshold: real, velocityThresholdPx: real)
      requires controller.Valid() && threshold >= 0.0
      modifies controller
      ensures this.controller == controller && this.velocityThresholdPx == velocityThresholdPx
      ensures controller.Valid() && controller.threshold == threshold
      ensures controller.Current() == old(controller.Current()) && controller.pending == old(controller.pending)
    {
      this.controller := controller;
      this.velocityThresholdPx := velocityThresholdPx;
      controller.threshold := threshold;
    }

    /** A new drag may begin only while no animation is pending. */
    predicate CanStartDragging(): (r: bool)
      reads this, controller
      ensures r <==> controller.pending == None
    {
      !controller.IsAnimationRunning()
    }

    /**
     * A drag step: unless an animation runs, the step is added to the offset
     * and rotation and scale are recomputed from the new horizontal offset.
     */
    method OnDrag(dx: real, dy: real)
      requires controller.Valid()
      modifies controller
      ensures controller.Valid()
      ensures old(controller.IsAnimationRunning()) ==> unchanged(controller)
      ensures !old(controller.IsAnimationRunning()) ==>
        controller.Current() == Pose(old(controller.offsetX) + dx, old(controller.offsetY) + dy,
                                     DragRotation(old(controller.offsetX) + dx, controller.screenWidth),
                                     DragScale(old(controller.offsetX) + dx, controller.screenWidth))
        && controller.pending == None && controller.threshold == old(controller.threshold)
    {
      if !controller.IsAnimationRunning() {
        controller.offsetX := controller.offsetX + dx;
        controller.offsetY := controller.offsetY + dy;
        var targetRotation := Normalize(0.0, controller.screenWidth, Abs(controller.offsetX), 0.0, 10.0).value;
        controller.rotation := targetRotation * -Sign(controller.offsetX);
        controller.scale := Normalize(0.0, controller.screenWidth / 3.0, Abs(controller.offsetX), 0.8, 1.0).value;
      }
    }

    /**
     * A release: starts exactly the operation the release policy chooses for
     * the current offset, the release velocity and the two thresholds.
     */
    method OnStop(velocityX: real)
      requires controller.Valid() && CanStartDragging()
      modifies controller
      ensures controller.Valid() && controller.threshold == old(controller.threshold)
      ensures controller.Current() == old(controller.Current())
      ensures controller.pending == Some(Start(ReleaseChoice(old(controller.offsetX), velocityX, controller.threshold, velocityThresholdPx),
                                               old(controller.Current()), controller.screenWidth))
    {
      if controller.offsetX <= 0.0 {
        if velocityX <= -velocityThresholdPx {
          controller.SwipeLeft();
        } else {
          if controller.offsetX > -controller.threshold { controller.ReturnCenter(); }
          else { controller.SwipeLeft(); }
        }
      } else {
        if velocityX >= velocityThresholdPx {
          controller.SwipeRight();
        } else {
          if controller.offsetX < controller.threshold { controller.ReturnCenter(); }
          else { controller.SwipeRight(); }
        }
      }
    }
  }
}
