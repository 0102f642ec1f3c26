# CardStack swipe machine, modelled in Dafny

This project models the core of CardStack, a Tinder-style stack of swipeable cards for Jetpack Compose. It has four parts:

- `normalization.dfy`: the `normalize` helper (`Normalization`). It clamps a value into `[min, max]` and then maps that interval linearly onto `[startRange, endRange]`. If `startRange < endRange` does not hold, the Kotlin `require` fails; the model returns the error value `StartNotBelowEnd` for that case.
- `draggable_stack.dfy`: the library's swipe state machine (`StackController`).
  - `CardStackController` holds the four animated values: `offsetX`, `offsetY`, `rotation` and `scale`. It also holds the running animation, if there is one, and the distance threshold.
  - `DraggableStack` is the drag observer of the `draggableStack` modifier, with `onDrag`, `onStop` and `canStartDragging`.
  - `ReleaseChoice` is the release policy. The side comes from the sign of `offsetX`, where zero counts as left. A fling at least as fast as the velocity threshold overrides the distance; otherwise the distance threshold decides.
  - `DragRotation` and `DragScale` compute the rotation and peek scale that a drag gives.
- `card_stack.dfy`: the `CardStack` composable (`CardStackView`). It holds the cursor `i`, which starts at `items.size - 1` and drops by one each time a swipe completes. It also decides, per display index, which card is moved, rotated, scaled and visible, and it runs the empty-stack check.
- `draggable_card.dfy`: the older single-card controller kept in the sample app (`DraggableCardSample`). It follows the same release policy. Its rotation is `-offsetX / 30` with no bound. It never resets after a swipe. It calls the user callbacks only on the distance branches: `onSwipeLeft` when the left swipe ends, and `onSwipeRight` at the moment the right swipe starts.

In the library's controller (`StackController`), each animation is modelled as two atomic steps:

1. Starting it records an `Animation`: its target values and the callback its end runs. From then on the controller counts as animating.
2. Completing it (`Complete`) makes the values jump to the target and clears the animation. For a swipe, it then runs the callback once and snaps the values back to rest `(0, 0, 0, 0.8)`.

In the sample's controller (`DraggableCardSample`), starting an animation records a `CardAnimation`: the target `(offsetX, offsetY, rotation)` and whether its end calls the `onSwipe` it was given. `Complete` makes the values jump to the target, and nothing resets them afterwards.

In the library's controller (`StackController`), rotation and scale always equal what a drag to the current `offsetX` would give (`CardStackController.Valid`). This holds at rest, after every drag step and after every completed animation. The screen width, the distance threshold and the velocity threshold in pixels are parameters. The screen width must be positive and the threshold non-negative.

The model keeps several behaviours of the code exactly as written:
- Cards are drawn from `items.asReversed()`, so display index `k` shows `items[size - 1 - k]`. The controller's values go to display index `i`, but the swipe callbacks report `items[i]`. That is the card at the mirrored display index (`SwipedItem`, `FirstSwipeReportsOtherCard`, `ReportedIsDraggedOnlyAtMiddle`).
- `CardStack` passes `onSwipeLeft`/`onSwipeRight` to `draggableStack`, but the signature of `draggableStack` (`DraggableStack.kt:158-162`) takes no such arguments. The model treats them as the controller callbacks `onSwipeLeft`/`onSwipeRight` that a swipe's end invokes.
- The empty-stack check calls `onEmptyStack(items.last())` on every composition pass while `i == -1`; nothing limits it to one call. With an empty item list, `items.last()` throws (`EmptyCheck.NoSuchElement`). The worked example `EmptyStackCallbackRepeats` runs two composition passes at `i == -1` and shows that both make the call.
- With a threshold of 0, releasing the card exactly at the centre swipes it left, because zero counts as the left side and `0 > -0` is false.

Three client methods in `card_stack.dfy` are worked examples; they carry no contract of their own and only assert what the contracts above give:
- `DistanceSwipeScenario`: four cards, a drag half a screen to the left and a release without velocity. It swipes left, reports `items[3]`, moves the cursor to 2 and leaves the controller at rest.
- `FlingSwipeScenario`: a drag of a twentieth of the screen released with a fling at twice the velocity threshold. It swipes left too.
- `EmptyStackCallbackRepeats`: a one-card stack swiped by the left button, then composed twice. Both passes call `onEmptyStack` with that card.

## Model

| member | source | states |
|---|---|---|
| Normalization.Clamp | cardstack/src/main/java/io/github/davidec00/cardstack/DraggableStack.kt:222 | the clamped value lies in [lo, hi]; it is the value itself inside the range and the nearer end outside it |
| Normalization.Normalize | cardstack/src/main/java/io/github/davidec00/cardstack/DraggableStack.kt:218-224 | fails exactly when startRange < endRange does not hold; otherwise the result lies in [startRange, endRange], equals startRange for any v <= min and endRange for any v >= max, and is strictly inside the range when v is strictly inside (min, max) |
| Normalization.NormalizeInside | cardstack/src/main/java/io/github/davidec00/cardstack/DraggableStack.kt:222-223 | inside [min, max] the clamp does nothing and the result is startRange + (v - min)(endRange - startRange)/(max - min) |
| Normalization.NormalizeAffine | cardstack/src/main/java/io/github/davidec00/cardstack/DraggableStack.kt:223 | for v1, v2 in [min, max] the results differ by (v2 - v1)(endRange - startRange)/(max - min) |
| Normalization.NormalizeMidpoint | cardstack/src/main/java/io/github/davidec00/cardstack/DraggableStack.kt:223 | the midpoint of [min, max] maps to the midpoint of [startRange, endRange] |
| Normalization.NormalizeMonotone | cardstack/src/main/java/io/github/davidec00/cardstack/DraggableStack.kt:222-223 | the result is monotone non-decreasing in v, through the clamped region as well |
| StackController.Abs | cardstack/src/main/java/io/github/davidec00/cardstack/DraggableStack.kt:196-198 | Kotlin `abs`: the result is non-negative and is the argument or its negation |
| StackController.Sign | cardstack/src/main/java/io/github/davidec00/cardstack/DraggableStack.kt:197 | Kotlin `sign`: 1, -1 or 0 according to the sign of its argument |
| StackController.DragRotation | cardstack/src/main/java/io/github/davidec00/cardstack/DraggableStack.kt:196-197 | the drag rotation has absolute value at most 10; it is negative for offsetX > 0, positive for offsetX < 0, 0 at offsetX = 0, and exactly ±10 from one screen width on |
| StackController.DragScale | cardstack/src/main/java/io/github/davidec00/cardstack/DraggableStack.kt:198 | the peek scale lies in [0.8, 1]; it is 0.8 at the centre, strictly between the two ends below a third of the screen width, and 1 from there on |
| StackController.DragScaleMonotone | cardstack/src/main/java/io/github/davidec00/cardstack/DraggableStack.kt:198 | a drag further from the centre never gives a smaller peek scale |
| StackController.DragRotationMonotone | cardstack/src/main/java/io/github/davidec00/cardstack/DraggableStack.kt:196-197 | a drag further from the centre never gives a smaller tilt |
| StackController.DragRotationMirror | cardstack/src/main/java/io/github/davidec00/cardstack/DraggableStack.kt:196-198 | mirroring the offset negates the rotation and keeps the scale |
| StackController.ReleaseChoice | cardstack/src/main/java/io/github/davidec00/cardstack/DraggableStack.kt:175-189 | a release picks exactly one of swipe left, swipe right or return; offsetX <= 0 never swipes right and offsetX > 0 never swipes left; a fling at or beyond the velocity threshold towards that side swipes whatever the distance; without one, the left side returns iff offsetX > -threshold and the right side iff offsetX < threshold |
| StackController.ReturnOnlyInsideThreshold | cardstack/src/main/java/io/github/davidec00/cardstack/DraggableStack.kt:175-189 | a return happens only from strictly inside (-threshold, threshold) and only without a fling towards the card's side |
| StackController.SwipeAtThreshold | cardstack/src/main/java/io/github/davidec00/cardstack/DraggableStack.kt:179-187 | exactly at -threshold (and at +threshold when it is positive) the card swipes, whatever the velocity |
| StackController.Start | cardstack/src/main/java/io/github/davidec00/cardstack/DraggableStack.kt:93-122 | a swipe targets offsetX = ∓screenWidth and scale 1 with offsetY and rotation left as they are, and ends in the matching callback; returnCenter targets (0, 0, 0, 0.8) with no callback |
| StackController.Finish | cardstack/src/main/java/io/github/davidec00/cardstack/DraggableStack.kt:94-122 | where an animation's end leaves the values: at rest after a swipe, whose end listener snaps them back, and at the target after a return |
| StackController.StartSettlesAtRest | cardstack/src/main/java/io/github/davidec00/cardstack/DraggableStack.kt:94-122 | whatever operation starts, the controller ends at (0, 0, 0, 0.8); a callback runs iff the operation is a swipe |
| StackController.RestIsCoherent | cardstack/src/main/java/io/github/davidec00/cardstack/DraggableStack.kt:76-87 | the initial values (0, 0, 0, 0.8) are those a drag to the centre gives |
| StackController.CardStackController.constructor | cardstack/src/main/java/io/github/davidec00/cardstack/DraggableStack.kt:45-87 | starts at rest, not animating, with threshold 0 |
| StackController.CardStackController.IsAnimationRunning | cardstack/src/main/java/io/github/davidec00/cardstack/DraggableStack.kt:45-46 | the controller is animating exactly while a started animation has not completed |
| StackController.CardStackController.SwipeLeft | cardstack/src/main/java/io/github/davidec00/cardstack/DraggableStack.kt:93-103 | records the left-swipe animation and sets the controller animating; the values do not move yet |
| StackController.CardStackController.SwipeRight | cardstack/src/main/java/io/github/davidec00/cardstack/DraggableStack.kt:105-115 | records the right-swipe animation and sets the controller animating |
| StackController.CardStackController.ReturnCenter | cardstack/src/main/java/io/github/davidec00/cardstack/DraggableStack.kt:117-122 | records the animation back to (0, 0, 0, 0.8) and sets the controller animating |
| StackController.CardStackController.Complete | cardstack/src/main/java/io/github/davidec00/cardstack/DraggableStack.kt:94-113 | clears the animating flag, reports the one callback the animation's end runs, and leaves the values at (0, 0, 0, 0.8); rotation and scale stay coherent with offsetX |
| StackController.DraggableStack.constructor | cardstack/src/main/java/io/github/davidec00/cardstack/DraggableStack.kt:170 | sets the controller's threshold and changes nothing else |
| StackController.DraggableStack.CanStartDragging | cardstack/src/main/java/io/github/davidec00/cardstack/DraggableStack.kt:203 | a new drag may start iff no animation is pending |
| StackController.DraggableStack.OnDrag | cardstack/src/main/java/io/github/davidec00/cardstack/DraggableStack.kt:192-201 | while animating, nothing changes; otherwise the deltas are added to offsetX and offsetY, and rotation and scale become DragRotation and DragScale of the new offsetX |
| StackController.DraggableStack.OnStop | cardstack/src/main/java/io/github/davidec00/cardstack/DraggableStack.kt:173-190 | starts exactly the animation that ReleaseChoice picks for the current offsetX, the velocity and the two thresholds |
| CardStackView.Layout | cardstack/src/main/java/io/github/davidec00/cardstack/CardStack.kt:117-128 | the card at display index i gets the controller's offset and rotation and every other card gets 0; a card is visible iff its index is i or i - 1; indices below i get the controller's scale and the rest get scale 1; the card shows items[size - 1 - index] |
| CardStackView.VisibleIndicesAtMostTwo | cardstack/src/main/java/io/github/davidec00/cardstack/CardStack.kt:122 | at most two cards are visible: none when i = -1, only index 0 when i = 0, and otherwise exactly i - 1 and i |
| CardStackView.SwipedItem | cardstack/src/main/java/io/github/davidec00/cardstack/CardStack.kt:106-117 | the item a swipe callback reports, items[i], is the one drawn at display index size - 1 - i |
| CardStackView.FirstSwipeReportsOtherCard | cardstack/src/main/java/io/github/davidec00/cardstack/CardStack.kt:106-121 | on the first swipe of a fresh stack with at least two items, the card dragged away shows items[0] while the callback reports items[size - 1], so the two differ whenever those items do |
| CardStackView.ReportedIsDraggedOnlyAtMiddle | cardstack/src/main/java/io/github/davidec00/cardstack/CardStack.kt:106-121 | with pairwise distinct items, the reported item is the card dragged away iff 2i = size - 1 |
| CardStackView.EmptyStackCheck | cardstack/src/main/java/io/github/davidec00/cardstack/CardStack.kt:63-65 | onEmptyStack is called iff i = -1 and there are items, with the last item, which is the card drawn at display index 0; with no items, items.last() throws |
| CardStackView.CardStack.constructor | cardstack/src/main/java/io/github/davidec00/cardstack/CardStack.kt:60-61 | the cursor starts at items.size - 1, no callback has been called yet, and the controller is at rest |
| CardStackView.CardStack.CompleteAnimation | cardstack/src/main/java/io/github/davidec00/cardstack/CardStack.kt:106-113 | a completed swipe calls the user's matching callback once with items[i] and decrements i by exactly one (this needs 0 <= i); a completed return changes neither; -1 <= i < size is kept |
| CardStackView.CardStack.Compose | cardstack/src/main/java/io/github/davidec00/cardstack/CardStack.kt:63-131 | one composition pass: the empty-stack check, then one Layout per display index of the reversed list |
| DraggableCardSample.Branch | sample/src/main/java/io/github/davidec00/cardstack/sample/draggableCard/DraggableCardController.kt:136-158 | each of the five branches is taken exactly under its condition: a fling at offsetX <= 0 with velocity <= -velocityThreshold; a left distance swipe iff the card is not flung and offsetX <= -threshold; the mirror cases on the right side; otherwise a return |
| DraggableCardSample.SamePolicyAsStack | sample/src/main/java/io/github/davidec00/cardstack/sample/draggableCard/DraggableCardController.kt:136-158 | the sample starts the same operation as the library's controller for every release |
| DraggableCardSample.StartedAnimation | sample/src/main/java/io/github/davidec00/cardstack/sample/draggableCard/DraggableCardController.kt:65-90 | swipeLeft targets (-screenWidth, 0, 0), swipeRight targets (screenWidth, 0, 0) and returnCenter targets (0, 0, 0); only the left distance branch hands onSwipeLeft to the swipe |
| DraggableCardSample.ImmediateCallbacks | sample/src/main/java/io/github/davidec00/cardstack/sample/draggableCard/DraggableCardController.kt:152-156 | onSwipeRight is called at once iff the release takes the right distance branch, and no other callback is called at once |
| DraggableCardSample.FlingCallsNothing | sample/src/main/java/io/github/davidec00/cardstack/sample/draggableCard/DraggableCardController.kt:137-150 | a fling swipes the card but neither swipe callback is called, at the release or when the swipe ends |
| DraggableCardSample.CardRotation | sample/src/main/java/io/github/davidec00/cardstack/sample/draggableCard/DraggableCardController.kt:165 | the sample rotation is the offset divided by -30, so it leans against the drag |
| DraggableCardSample.RotationUnbounded | sample/src/main/java/io/github/davidec00/cardstack/sample/draggableCard/DraggableCardController.kt:165 | on a screen wider than 300 px, a full-width drag tilts the sample card past 10 degrees, while the library's rotation stops at exactly 10 |
| DraggableCardSample.DraggableCardController.constructor | sample/src/main/java/io/github/davidec00/cardstack/sample/draggableCard/DraggableCardController.kt:26-63 | starts at (0, 0, 0), not animating, with threshold 0 |
| DraggableCardSample.DraggableCardController.IsAnimationRunning | sample/src/main/java/io/github/davidec00/cardstack/sample/draggableCard/DraggableCardController.kt:34-35 | the sample controller is animating exactly while a started animation has not completed |
| DraggableCardSample.DraggableCardController.SwipeLeft | sample/src/main/java/io/github/davidec00/cardstack/sample/draggableCard/DraggableCardController.kt:65-74 | records the animation to (-screenWidth, 0, 0), carrying whether its end calls the given onSwipe |
| DraggableCardSample.DraggableCardController.SwipeRight | sample/src/main/java/io/github/davidec00/cardstack/sample/draggableCard/DraggableCardController.kt:76-84 | records the animation to (screenWidth, 0, 0), whose end calls nothing |
| DraggableCardSample.DraggableCardController.ReturnCenter | sample/src/main/java/io/github/davidec00/cardstack/sample/draggableCard/DraggableCardController.kt:86-90 | records the animation to (0, 0, 0) |
| DraggableCardSample.DraggableCardController.Complete | sample/src/main/java/io/github/davidec00/cardstack/sample/draggableCard/DraggableCardController.kt:67-70 | the values take the target and stay there, with no reset, and the call reports whether onSwipe runs |
| DraggableCardSample.DraggableCard.constructor | sample/src/main/java/io/github/davidec00/cardstack/sample/draggableCard/DraggableCardController.kt:129 | sets the controller's threshold and changes nothing else |
| DraggableCardSample.DraggableCard.CanStartDragging | sample/src/main/java/io/github/davidec00/cardstack/sample/draggableCard/DraggableCardController.kt:169 | a new drag may start iff no animation is pending |
| DraggableCardSample.DraggableCard.OnDrag | sample/src/main/java/io/github/davidec00/cardstack/sample/draggableCard/DraggableCardController.kt:162-167 | with no animation guard, the deltas are added to the offsets and rotation becomes -offsetX / 30 of the new offset; no callback is called, and so the user's onDrag never is |
| DraggableCardSample.DraggableCard.OnStop | sample/src/main/java/io/github/davidec00/cardstack/sample/draggableCard/DraggableCardController.kt:132-160 | starts the animation of the release's branch and appends exactly that branch's immediate callbacks |
| DraggableCardSample.DraggableCard.CompleteAnimation | sample/src/main/java/io/github/davidec00/cardstack/sample/draggableCard/DraggableCardController.kt:142-145 | when the swipe ends, onSwipeLeft is called iff that swipe came from the left distance branch; the card stays at its target |

## Left out

- Frame-by-frame interpolation, `AnimationSpec` curves and the animation clock. Each animation is one atomic start and one atomic completion. The per-subscription toggling of `isAnimationRunning` by each animated value becomes a single flag: an animation is pending or it is not. In the source all animated values share one clock proxy, whose `unsubscribe` clears `isAnimationRunning` unconditionally (`DraggableStack.kt:67-69`, `DraggableCardController.kt:49-51`). A swipe starts two animations in the library (offsetX and scale) and three in the sample, so the first value to finish clears the flag while the others still run. From then on `canStartDragging` and the `onDrag` guard no longer protect the values still animating, and a new drag and release can reach them without any button press. The model does not capture this: its flag stays set until the whole animation completes.
- StackController.CardStackController.SwipeLeft: requires that no animation is running. In the source, the optional buttons (`CardStack.kt:81,89`) can call it at any time. The framework then ends the running animation as interrupted, and that animation's end listener still runs. Interruption is not modelled.
- StackController.CardStackController.SwipeRight: requires that no animation is running, for the same reason.
- StackController.CardStackController.ReturnCenter: requires that no animation is running, for the same reason.
- StackController.DraggableStack.OnStop: requires `CanStartDragging()`, that is, no animation is running. In this model, where the flag stays set until the animation completes, a release while animating can only follow a button press during the drag, which is the interruption case above. In the source it can also follow a drag started after the first animated value finished, as described in the first line of this section.
- DraggableCardSample.DraggableCard.OnStop: requires `CanStartDragging()`, that is, no animation is running. In this model, where the flag stays set until the animation completes, no release can meet a running animation, because drags cannot start while one runs and nothing else starts one. In the source a drag can start once the first of the three animated values has finished, and its release then meets the values still animating.
- DraggableCardSample.DraggableCard.OnDrag: does not model that `snapTo` stops a running animation. In this model, where the flag stays set until the animation completes, a drag step can never meet a running animation. In the source it can, once the first animated value has finished and cleared the flag.
- The drag gesture lifecycle of `rawDragGestureFilter` (start, move, stop) is framework code. The model exposes `CanStartDragging` and lets the host call `OnDrag` and `OnStop`.
- CardStackView.CardStack.CompleteAnimation: requires `0 <= i` for a swipe, because the callbacks index `items[i]`; the out-of-bounds exception a swipe at `i == -1` would raise is not modelled.
- CardStackView.CardStack: `items` is a fixed `seq`. The source takes a `MutableList<Item>` and remembers `i` from the first composition only, so a caller that changes the list would put `i` out of step with `items.size`; the model does not capture that.
- CardStackView.CardStack.Compose: returns what the empty-stack check does (`EmptyCheck`) and does not itself perform the `onEmptyStack` call.
- IEEE float behaviour: NaN, rounding, `sign` of NaN, the inexact `0.8f`, and the division by zero when `min == max`. Values are reals, and `Normalize` requires `min < max`; with this requirement, the empty-range exception of `coerceIn` cannot occur.
- Rendering and layout: `Card`, `Modifier.moveTo` placement and its `roundToInt`, `drawLayer`/`drawShadow`, `ConstraintLayout` and the button row. Only the per-index choice of offset, rotation, scale and visibility is modelled.
- `ThresholdConfig.computeThreshold` (the default `FractionalThreshold(0.2f)`), the dp-to-px conversion through `DensityAmbient`/`ConfigurationAmbient`, and `rememberCardStackController`/`rememberDraggableCardController` are foreign library calls. The threshold, the velocity threshold in pixels and the screen width are parameters.
- The user callbacks are recorded as values: `Notification` in the stack and `UserCallback` in the sample. The sample's `onSwipe` lambda argument of `swipeLeft` is modelled as a flag saying whether it calls `onSwipeLeft`.
- `CoilImage` image loading is an opaque external dependency. `sample/.../draggableCard/DraggableCard.kt` is composition only; it uses the same cursor decrement as the library, but it shows every card with `index <= i` (not only `i` and `i - 1`), and its `normalize` call over `screenWidth / 6` runs only through the `onDrag` callback, which `draggableCard` never calls. `sample/.../MainActivity.kt` is app start-up and sample data.
