/**
 * The earlier, single-card revision of the swipe machine kept in the sample
 * app: the same release policy by side, fling and distance, but a rotation
 * of -offsetX / 30 with no bound, no peek scale, no reset after a swipe, and
 * user callbacks only on the distance branches.
 */
module DraggableCardSample {
  import opened Options
  import StackController

  /** The three animated values of the sample controller. */
  datatype CardPose = CardPose(offsetX: real, offsetY: real, rotation: real)

  /** A started animation: its target, and whether its end calls the `onSwipe` it was given. */
  datatype CardAnimation = CardAnimation(target: CardPose, callsOnSwipe: bool)

  /** A call of one of the callbacks passed to the drag modifier. */
  datatype UserCallback = CalledOnSwipeLeft | CalledOnSwipeRight | CalledOnDrag(x: real, y: real)

  /** The five branches of the sample's release handler. */
  datatype ReleaseBranch = FlingLeft | DistanceLeft | FlingRight | DistanceRight | BackToCenter

  /** Which branch a release takes, for the offset, the velocity and the two thresholds. */
  function Branch(offsetX: real, velocityX: real, threshold: real, velocityThresholdPx: real): (b: ReleaseBranch)
    ensures b == FlingLeft <==> offsetX <= 0.0 && velocityX <= -velocityThresholdPx
    ensures b == DistanceLeft <==> offsetX <= 0.0 && velocityX > -velocityThresholdPx && offsetX <= -threshold
    ensures b == FlingRight <==> offsetX > 0.0 && velocityX >= velocityThresholdPx
    ensures b == DistanceRight <==> offsetX > 0.0 && velocityX < velocityThresholdPx && offsetX >= threshold
  {
    if offsetX <= 0.0 then
      if velocityX <= -velocityThresholdPx then FlingLeft
      else if offsetX > -threshold then BackToCenter
      else DistanceLeft
    else
      if velocityX >= velocityThresholdPx then FlingRight
      else if offsetX < threshold then BackToCenter
      else DistanceRight
  }

  /** The controller operation each branch calls. */
  function Operation(b: ReleaseBranch): (c: StackController.Choice)
  {
    match b
    case FlingLeft | DistanceLeft => StackController.LeftSwipe
    case FlingRight | DistanceRight => StackController.RightSwipe
    case BackToCenter => StackController.CenterReturn
  }

  /** Both revisions start the same operation for every release. */
  lemma SamePolicyAsStack(offsetX: real, velocityX: real, threshold: real, velocityThresholdPx: real)
    ensures Operation(Branch(offsetX, velocityX, threshold, velocityThresholdPx))
         == StackController.ReleaseChoice(offsetX, velocityX, threshold, velocityThresholdPx)
  {
  }

  /**
   * What each branch starts: a swipe goes a screen width to its side with
   * vertical offset and rotation back to 0, a return goes to the centre;
   * only the distance branch to the left hands `onSwipeLeft` to the swipe.
   */
  function StartedAnimation(b: ReleaseBranch, screenWidth: real): (a: CardAnimation)
    ensures Operation(b) == StackController.LeftSwipe ==> a.target == CardPose(-screenWidth, 0.0, 0.0)
    ensures Operation(b) == StackController.RightSwipe ==> a.target == CardPose(screenWidth, 0.0, 0.0)
    ensures Operation(b) == StackController.CenterReturn ==> a.target == CardPose(0.0, 0.0, 0.0)
    ensures a.callsOnSwipe <==> b == DistanceLeft
  {
    match b
    case FlingLeft => CardAnimation(CardPose(-screenWidth, 0.0, 0.0), false)
    case DistanceLeft => CardAnimation(CardPose(-screenWidth, 0.0, 0.0), true)
    case FlingRight | DistanceRight => CardAnimation(CardPose(screenWidth, 0.0, 0.0), false)
    case BackToCenter => CardAnimation(CardPose(0.0, 0.0, 0.0), false)
  }

  /** The user callbacks a branch calls at once, right after starting its operation. */
  function ImmediateCallbacks(b: ReleaseBranch): (calls: seq<UserCallback>)
    ensures calls == [] || calls == [CalledOnSwipeRight]
    ensures calls == [CalledOnSwipeRight] <==> b == DistanceRight
  {
    if b == DistanceRight then [CalledOnSwipeRight] else []
  }

  /** A fling swipes the card without calling either swipe callback, then or later. */
  lemma FlingCallsNothing(offsetX: real, velocityX: real, threshold: real, velocityThresholdPx: real, screenWidth: real)
    requires Branch(offsetX, velocityX, threshold, velocityThresholdPx) in {FlingLeft, FlingRight}
    ensures Operation(Branch(offsetX, velocityX, threshold, velocityThresholdPx)) != StackController.CenterReturn
    ensures ImmediateCallbacks(Branch(offsetX, velocityX, threshold, velocityThresholdPx)) == []
    ensures !StartedAnimation(Branch(offsetX, velocityX, threshold, velocityThresholdPx), screenWidth).callsOnSwipe
  {
  }

  /** The sample's drag rotation: a degree per 30 pixels, against the drag. */
  function CardRotation(offsetX: real): (r: real)
    ensures offsetX > 0.0 ==> r < 0.0
    ensures offsetX < 0.0 ==> r > 0.0
    ensures r * -30.0 == offsetX
  {
    -offsetX / 30.0
  }

  /**
   * Unlike the stack's, the sample's rotation has no bound: on a screen wider
   * than 300 pixels a full-width drag tilts the card past the stack's 10 degrees.
   */
  lemma RotationUnbounded(screenWidth: real)
    requires screenWidth > 300.0
    ensures CardRotation(-screenWidth) > 10.0
    ensures StackController.DragRotation(-screenWidth, screenWidth) == 10.0
  {
  }

  /** The sample controller: three animated values, the running animation and the threshold. */
  class DraggableCardController {
    const screenWidth: real
    var threshold: real
    var offsetX: real
    var offsetY: real
    var rotation: real
    var pending: Option<CardAnimation>

    ghost predicate Valid()
      reads this
    {
      screenWidth > 0.0 && threshold >= 0.0
    }

    function Current(): (p: CardPose)
      reads this
    {
      CardPose(offsetX, offsetY, rotation)
    }

    /** The controller is animating exactly while a started animation has not completed. */
    predicate IsAnimationRunning(): (r: bool)
      reads this
      ensures r <==> pending != None
    {
      pending.Some?
    }

    constructor (screenWidth: real)
      requires screenWidth > 0.0
      ensures Valid() && this.screenWidth == screenWidth && threshold == 0.0
      ensures Current() == CardPose(0.0, 0.0, 0.0) && !IsAnimationRunning()
    {
      this.screenWidth := screenWidth;
      threshold := 0.0;
      offsetX, offsetY, rotation := 0.0, 0.0, 0.0;
      pending := None;
    }

    /** Starts the swipe to the left; `callsOnSwipe` says whether its end calls the given `onSwipe`. */
    method SwipeLeft(callsOnSwipe: bool)
      requires Valid() && !IsAnimationRunning()
      modifies this
      ensures Valid() && threshold == old(threshold) && Current() == old(Current())
      ensures pending == Some(CardAnimation(CardPose(-screenWidth, 0.0, 0.0), callsOnSwipe))
    {
      pending := Some(CardAnimation(CardPose(-screenWidth, 0.0, 0.0), callsOnSwipe));
    }

    /** Starts the swipe to the right, whose end calls nothing. */
    method SwipeRight()
      requires Valid() && !IsAnimationRunning()
      modifies this
      ensures Valid() && threshold == old(threshold) && Current() == old(Current())
      ensures pending == Some(CardAnimation(CardPose(screenWidth, 0.0, 0.0), false))
    {
      pending := Some(CardAnimation(CardPose(screenWidth, 0.0, 0.0), false));
    }

    /** Starts the return to the centre. */
    method ReturnCenter()
      requires Valid() && !IsAnimationRunning()
      modifies this
      ensures Valid() && threshold == old(threshold) && Current() == old(Current())
      ensures pending == Some(CardAnimation(CardPose(0.0, 0.0, 0.0), false))
    {
      pending := Some(CardAnimation(CardPose(0.0, 0.0, 0.0), false));
    }

    /** The running animation completes; nothing moves the card back afterwards. */
    method Complete() returns (callsOnSwipe: bool)
      requires Valid() && IsAnimationRunning()
      modifies this
      ensures Valid() && threshold == old(threshold) && !IsAnimationRunning()
      ensures Current() == old(pending.value.target)
      ensures callsOnSwipe == old(pending.value.callsOnSwipe)
    {
      var a := pending.value;
      offsetX, offsetY, rotation := a.target.offsetX, a.target.offsetY, a.target.rotation;
      pending := None;
      callsOnSwipe := a.callsOnSwipe;
    }
  }

  /** No call of the `onDrag` callback is among the calls made. */
  ghost predicate NoDragCalls(calls: seq<UserCallback>)
  {
    forall k :: 0 <= k < |calls| ==> !calls[k].CalledOnDrag?
  }

  /**
   * The sample's drag modifier with the callbacks it was given; `calls`
   * records their calls in order.
   */
  class DraggableCard {
    const controller: DraggableCardController
    const velocityThresholdPx: real
    var calls: seq<UserCallback>

    /** The `onDrag` callback it receives is never called. */
    ghost predicate Valid()
      reads this, controller
    {
      controller.Valid() && NoDragCalls(calls)
    }

    constructor (controller: DraggableCardController, threshold: real, velocityThresholdPx: real)
      requires controller.Valid() && threshold >= 0.0
      modifies controller
      ensures Valid() && this.controller == controller && this.velocityThresholdPx == velocityThresholdPx
      ensures calls == [] && controller.threshold == threshold
      ensures controller.Current() == old(controller.Current()) && controller.pending == old(controller.pending)
    {
      this.controller := controller;
      this.velocityThresholdPx := velocityThresholdPx;
      calls := [];
      new;
      controller.threshold := threshold;
    }

    /** A new drag may begin only while no animation is pending. */
    predicate CanStartDragging(): (r: bool)
      reads this, controller
      ensures r <==> controller.pending == None
    {
      !controller.IsAnimationRunning()
    }

    /** A drag step moves the card by the step and sets the rotation; no guard, no callback. */
    method OnDrag(dx: real, dy: real)
      requires Valid()
      modifies controller
      ensures Valid() && controller.pending == old(controller.pending) && controller.threshold == old(controller.threshold)
      ensures controller.Current() == CardPose(old(controller.offsetX) + dx, old(controller.offsetY) + dy,
                                               CardRotation(old(controller.offsetX) + dx))
    {
      controller.offsetX := controller.offsetX + dx;
      controller.offsetY := controller.offsetY + dy;
      controller.rotation := -controller.offsetX / 30.0;
    }

    /**
     * A release starts what its branch calls for; the distance branch to the
     * right calls `onSwipeRight` at once, before the swipe has moved the card.
     */
    method OnStop(velocityX: real)
      requires Valid() && CanStartDragging()
      modifies this, controller
      ensures Valid() && controller.threshold == old(controller.threshold) && controller.Current() == old(controller.Current())
      ensures controller.pending == Some(StartedAnimation(Branch(old(controller.offsetX), velocityX, controller.threshold, velocityThresholdPx), controller.screenWidth))
      ensures calls == old(calls) + ImmediateCallbacks(Branch(old(controller.offsetX), velocityX, controller.threshold, velocityThresholdPx))
    {
      if controller.offsetX <= 0.0 {
        if velocityX <= -velocityThresholdPx {
          controller.SwipeLeft(false);
        } else {
          if controller.offsetX > -controller.threshold { controller.ReturnCenter(); }
          else { controller.SwipeLeft(true); }
        }
      } else {
        if velocityX >= velocityThresholdPx {
          controller.SwipeRight();
        } else {
          if controller.offsetX < controller.threshold { controller.ReturnCenter(); }
          else {
            controller.SwipeRight();
            calls := calls + [CalledOnSwipeRight];
          }
        }
      }
    }

    /** The running animation completes; a left swipe from the distance branch then calls `onSwipeLeft`. */
    method CompleteAnimation()
      requires Valid() && controller.IsAnimationRunning()
      modifies this, controller
      ensures Valid() && controller.threshold == old(controller.threshold) && !controller.IsAnimationRunning()
      ensures controller.Current() == old(controller.pending.value.target)
      ensures calls == old(calls) + (if old(controller.pending.value.callsOnSwipe) then [CalledOnSwipeLeft] else [])
    {
      var callsOnSwipe := controller.Complete();
      if callsOnSwipe {
        calls := calls + [CalledOnSwipeLeft];
      }
    }
  }
}
