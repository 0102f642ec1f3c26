/**
 * The stack around the controller: the item list, the cursor `i` that the
 * swipe callbacks move down, and the per-card choice of offset, rotation,
 * scale and visibility made on every composition pass.
 *
 * Cards are drawn from the reversed list, so display index `index` shows
 * `items[|items| - 1 - index]`; the controller's values are applied by
 * display index, while the swipe callbacks report `items[i]`. The model
 * keeps both as written.
 */
module CardStackView {
  import opened Options
  import opened StackController

  /** A card's content: an optional image address and two lines of text. */
  datatype Item = Item(url: Option<string>, text: string, subText: string)

  /** A call of one of the user's callbacks, with its argument. */
  datatype Notification = SwipedLeft(item: Item) | SwipedRight(item: Item)

  /** What the emptiness check at the start of a composition pass does. */
  datatype EmptyCheck = HasCards | CallOnEmptyStack(lastItem: Item) | NoSuchElement

  /** How one card is placed and drawn. */
  datatype CardLayout = CardLayout(item: Item, x: real, y: real, visible: bool, rotationZ: real, scale: real)

  /** The item drawn at a display index. */
  function DisplayedItem(items: seq<Item>, index: int): (it: Item)
    requires 0 <= index < |items|
  {
    items[|items| - 1 - index]
  }

  /** Only the card at the cursor and the one just below it are laid out. */
  predicate IsVisible(index: int, i: int)
  {
    index == i || index == i - 1
  }

  /** The placement of the card at display index `index` for cursor `i`. */
  function Layout(items: seq<Item>, index: int, i: int, pose: Pose): (c: CardLayout)
    requires 0 <= index < |items|
    ensures c.item == DisplayedItem(items, index)
    ensures index == i ==> c.x == pose.offsetX && c.y == pose.offsetY && c.rotationZ == pose.rotation
    ensures index != i ==> c.x == 0.0 && c.y == 0.0 && c.rotationZ == 0.0
    ensures c.visible <==> IsVisible(index, i)
    ensures index < i ==> c.scale == pose.scale
    ensures index >= i ==> c.scale == 1.0
  {
    CardLayout(DisplayedItem(items, index),
               if index == i then pose.offsetX else 0.0,
               if index == i then pose.offsetY else 0.0,
               IsVisible(index, i),
               if index == i then pose.rotation else 0.0,
               if index < i then pose.scale else 1.0)
  }

  /** The display indices of `n` cards that are laid out for cursor `i`. */
  function VisibleIndices(n: nat, i: int): set<int>
  {
    set index | 0 <= index < n && IsVisible(index, i)
  }

  /**
   * At most two cards are visible: none once the cursor has passed the last
   * card, the bottom card alone at cursor 0, and otherwise the cursor's card
   * and the one just below it.
   */
  lemma VisibleIndicesAtMostTwo(n: nat, i: int)
    requires -1 <= i < n
    ensures VisibleIndices(n, i) <= {i, i - 1}
    ensures |VisibleIndices(n, i)| <= 2
    ensures i == -1 ==> VisibleIndices(n, i) == {}
    ensures i == 0 ==> VisibleIndices(n, i) == {0}
    ensures i >= 1 ==> VisibleIndices(n, i) == {i - 1, i} && |VisibleIndices(n, i)| == 2
  {
    var v := VisibleIndices(n, i);
    if i == -1 {
      assert forall k :: k in v ==> false;
    } else if i == 0 {
      assert v == {0};
    } else {
      assert v == {i - 1, i};
    }
  }

  /**
   * The item a swipe callback reports for cursor `i`: `items[i]`, which is
   * the item drawn at the mirrored display index, not the one at `i`.
   */
  function SwipedItem(items: seq<Item>, i: int): (it: Item)
    requires 0 <= i < |items|
    ensures it == DisplayedItem(items, |items| - 1 - i)
  {
    items[i]
  }

  /**
   * The first swipe of a fresh stack drags away the card showing `items[0]`
   * but reports `items[|items| - 1]`.
   */
  lemma FirstSwipeReportsOtherCard(items: seq<Item>, pose: Pose)
    requires |items| >= 2 && items[0] != items[|items| - 1]
    ensures SwipedItem(items, |items| - 1) == items[|items| - 1]
    ensures Layout(items, |items| - 1, |items| - 1, pose).item == items[0]
    ensures SwipedItem(items, |items| - 1) != Layout(items, |items| - 1, |items| - 1, pose).item
  {
  }

  /**
   * With distinct items, the reported card is the one dragged away only when
   * the cursor is at the middle of the list.
   */
  lemma ReportedIsDraggedOnlyAtMiddle(items: seq<Item>, i: int, pose: Pose)
    requires 0 <= i < |items|
    requires forall j, k :: 0 <= j < k < |items| ==> items[j] != items[k]
    ensures SwipedItem(items, i) == Layout(items, i, i, pose).item <==> 2 * i == |items| - 1
  {
  }

  /**
   * The emptiness check: with the cursor at -1, `onEmptyStack` is called with
   * the last item of the list, the card drawn at the bottom; with no items at
   * all, `items.last()` throws.
   */
  function EmptyStackCheck(items: seq<Item>, i: int): (r: EmptyCheck)
    ensures r.CallOnEmptyStack? <==> i == -1 && |items| > 0
    ensures r.CallOnEmptyStack? ==> r.lastItem == DisplayedItem(items, 0)
    ensures r.NoSuchElement? <==> i == -1 && |items| == 0
  {
    if i != -1 then HasCards
    else if |items| == 0 then NoSuchElement
    else CallOnEmptyStack(items[|items| - 1])
  }

  /**
   * The card stack: its items, the cursor, its controller and drag modifier,
   * and the calls of the user's swipe callbacks so far.
   */
  class CardStack {
    const items: seq<Item>
    const controller: CardStackController
    const gestures: DraggableStack
    var i: int
    var notifications: seq<Notification>

    ghost predicate Valid()
      reads this, controller, gestures
    {
      controller.Valid() && gestures.controller == controller && -1 <= i < |items|
    }

    constructor (items: seq<Item>, screenWidth: real, threshold: real, velocityThresholdPx: real)
      requires screenWidth > 0.0 && threshold >= 0.0
      ensures Valid() && fresh(controller) && fresh(gestures)
      ensures this.items == items && i == |items| - 1 && notifications == []
      ensures controller.Current() == Rest && !controller.IsAnimationRunning()
      ensures controller.screenWidth == screenWidth && controller.threshold == threshold
      ensures gestures.velocityThresholdPx == velocityThresholdPx
    {
      this.items := items;
      var c := new CardStackController(screenWidth);
      controller := c;
      gestures := new DraggableStack(c, threshold, velocityThresholdPx);
      i := |items| - 1;
      notifications := [];
    }

    /**
     * The controller's running animation completes. A swipe's end calls the
     * user's callback with `items[i]` and moves the cursor down by one; a
     * return touches neither.
     */
    method CompleteAnimation()
      requires Valid() && controller.IsAnimationRunning()
      requires controller.pending.value.onEnd != NoCallback ==> 0 <= i
      modifies this, controller
      ensures Valid() && controller.Current() == Rest && !controller.IsAnimationRunning()
      ensures controller.threshold == old(controller.threshold)
      ensures old(controller.pending.value.onEnd) == OnSwipeLeft ==>
        notifications == old(notifications) + [SwipedLeft(SwipedItem(items, old(i)))] && i == old(i) - 1
      ensures old(controller.pending.value.onEnd) == OnSwipeRight ==>
        notifications == old(notifications) + [SwipedRight(SwipedItem(items, old(i)))] && i == old(i) - 1
      ensures old(controller.pending.value.onEnd) == NoCallback ==>
        notifications == old(notifications) && i == old(i)
    {
      var fired := controller.Complete();
      match fired
      case OnSwipeLeft =>
        notifications := notifications + [SwipedLeft(items[i])];
        i := i - 1;
      case OnSwipeRight =>
        notifications := notifications + [SwipedRight(items[i])];
        i := i - 1;
      case NoCallback =>
    }

    /**
     * One composition pass: the emptiness check, then the layout of every
     * card of the reversed list by display index.
     */
    method Compose() returns (empty: EmptyCheck, cards: seq<CardLayout>)
      ensures empty == EmptyStackCheck(items, i)
      ensures |cards| == |items|
      ensures forall index :: 0 <= index < |items| ==> cards[index] == Layout(items, index, i, controller.Current())
    {
      empty := if i == -1 then (if |items| == 0 then NoSuchElement else CallOnEmptyStack(items[|items| - 1])) else HasCards;
      cards := [];
      var index := 0;
      while index < |items|
        invariant 0 <= index <= |items|
        invariant |cards| == index
        invariant forall k :: 0 <= k < index ==> cards[k] == Layout(items, k, i, controller.Current())
      {
        var item := items[|items| - 1 - index];
        cards := cards + [CardLayout(item,
                                     if index == i then controller.offsetX else 0.0,
                                     if index == i then controller.offsetY else 0.0,
                                     index == i || index == i - 1,
                                     if index == i then controller.rotation else 0.0,
                                     if index < i then controller.scale else 1.0)];
        index := index + 1;
      }
    }
  }

  /**
   * Four cards A, B, C, D: a drag half a screen to the left released without
   * velocity swipes left; its completion reports `items[3]`, moves the cursor
   * to 2 and puts the controller back at rest.
   */
  method DistanceSwipeScenario(a: Item, b: Item, c: Item, d: Item, screenWidth: real, velocityThresholdPx: real)
    requires screenWidth > 0.0 && velocityThresholdPx > 0.0
  {
    var stack := new CardStack([a, b, c, d], screenWidth, screenWidth / 5.0, velocityThresholdPx);
    stack.gestures.OnDrag(-screenWidth / 2.0, 0.0);
    stack.gestures.OnStop(0.0);
    assert stack.controller.pending.value.onEnd == OnSwipeLeft;
    stack.CompleteAnimation();
    assert stack.notifications == [SwipedLeft(d)];
    assert stack.i == 2 && stack.controller.Current() == Rest;
  }

  /**
   * A one-card stack swiped away by the left button: every later composition
   * pass calls `onEmptyStack` again with that card.
   */
  method EmptyStackCallbackRepeats(a: Item, screenWidth: real)
    requires screenWidth > 0.0
  {
    var stack := new CardStack([a], screenWidth, screenWidth / 5.0, 125.0);
    stack.controller.SwipeLeft();
    stack.CompleteAnimation();
    assert stack.i == -1 && stack.notifications == [SwipedLeft(a)];
    var first, firstCards := stack.Compose();
    var second, secondCards := stack.Compose();
    assert first == CallOnEmptyStack(a) && second == CallOnEmptyStack(a);
  }

  /** A drag of a twentieth of the screen released with a fast fling to the left swipes too. */
  method FlingSwipeScenario(a: Item, b: Item, c: Item, d: Item, screenWidth: real, velocityThresholdPx: real)
    requires screenWidth > 0.0 && velocityThresholdPx > 0.0
  {
    var stack := new CardStack([a, b, c, d], screenWidth, screenWidth / 5.0, velocityThresholdPx);
    stack.gestures.OnDrag(-screenWidth / 20.0, 0.0);
    stack.gestures.OnStop(-2.0 * velocityThresholdPx);
    assert stack.controller.pending.value.onEnd == OnSwipeLeft;
    stack.CompleteAnimation();
    assert stack.notifications == [SwipedLeft(d)] && stack.i == 2;
  }
}
