/**
 * AnimatedScroll and AnimatedText: an element that enters from a signed offset along
 * each axis after a staggered delay, and the older word/character text splitter.
 */
module AnimatedScroll {
  import opened Wrappers
  import opened JsString

  datatype AnimationDirection = Up | Down | Left | Right | NoDirection

  /** One variant: opacity, offsets in px and blur radius in px. */
  datatype Pose = Pose(opacity: real, x: real, y: real, blurPx: real)

  /** The variants of an element: where it waits, where it ends, and the entry's duration and delay. */
  datatype Variants = Variants(hidden: Pose, visible: Pose, duration: real, delay: real)

  datatype TextType = Words | Chars

  const DefaultDirectionX: AnimationDirection := NoDirection
  const DefaultDirectionY: AnimationDirection := Up
  const DefaultMagnitude: real := 48.0
  const DefaultDuration: real := 0.72
  const DefaultStaggerDelay: real := 0.1
  const DefaultAnimate: string := "visible"
  const DefaultInitial: string := "hidden"

  /** The horizontal entry offset: `magnitude` from the right, `-magnitude` from the left, 0 otherwise. */
  function XOffset(directionX: AnimationDirection, magnitude: real): real
  {
    if directionX == Right then magnitude
    else if directionX == Left then -magnitude
    else 0.0
  }

  /** The vertical entry offset: `magnitude` for up (rising from below), `-magnitude` for down, 0 otherwise. */
  function YOffset(directionY: AnimationDirection, magnitude: real): real
  {
    if directionY == Up then magnitude
    else if directionY == Down then -magnitude
    else 0.0
  }

  /**
   * Each axis moves only for its own two directions, opposite directions give opposite
   * offsets, and no offset is larger than the magnitude.
   */
  lemma OffsetsBySide(d: AnimationDirection, magnitude: real)
    requires magnitude >= 0.0
    ensures XOffset(d, magnitude) != 0.0 ==> d == Left || d == Right
    ensures YOffset(d, magnitude) != 0.0 ==> d == Up || d == Down
    ensures XOffset(Left, magnitude) == -XOffset(Right, magnitude) && XOffset(Right, magnitude) == magnitude
    ensures YOffset(Down, magnitude) == -YOffset(Up, magnitude) && YOffset(Up, magnitude) == magnitude
    ensures -magnitude <= XOffset(d, magnitude) <= magnitude && -magnitude <= YOffset(d, magnitude) <= magnitude
  {
  }

  /** The entry delay of the element at position `staggerIndex` of a stagger. */
  function VisibleDelay(delay: real, staggerIndex: real, staggerDelay: real): real
  {
    delay + staggerIndex * staggerDelay
  }

  /** With a non-negative stagger step, later elements never start earlier; with a positive one, strictly later. */
  lemma DelayMonotone(delay: real, i: real, j: real, staggerDelay: real)
    requires i <= j && staggerDelay >= 0.0
    ensures VisibleDelay(delay, i, staggerDelay) <= VisibleDelay(delay, j, staggerDelay)
    ensures staggerDelay > 0.0 && i < j ==> VisibleDelay(delay, i, staggerDelay) < VisibleDelay(delay, j, staggerDelay)
    ensures VisibleDelay(delay, 0.0, staggerDelay) == delay
  {
    var step := (j - i) * staggerDelay;
    StepProduct(j - i, staggerDelay);
    assert j * staggerDelay == i * staggerDelay + step;
    if staggerDelay > 0.0 && i < j {
      assert step > 0.0;
    }
  }

  lemma StepProduct(a: real, b: real)
    requires a >= 0.0 && b >= 0.0
    ensures a * b >= 0.0
    ensures a > 0.0 && b > 0.0 ==> a * b > 0.0
  {
  }

  /** The built-in variants: faded, offset and blurred, then opaque, in place and sharp. */
  function DefaultVariants(directionX: AnimationDirection, directionY: AnimationDirection, magnitude: real,
                           duration: real, delay: real, staggerIndex: real, staggerDelay: real): (v: Variants)
    ensures v.hidden == Pose(0.0, XOffset(directionX, magnitude), YOffset(directionY, magnitude), 2.0)
    ensures v.visible == Pose(1.0, 0.0, 0.0, 0.0)
    ensures v.duration == duration && v.delay == VisibleDelay(delay, staggerIndex, staggerDelay)
  {
    Variants(Pose(0.0, XOffset(directionX, magnitude), YOffset(directionY, magnitude), 2.0),
             Pose(1.0, 0.0, 0.0, 0.0),
             duration, delay + staggerIndex * staggerDelay)
  }

  /** `variants || defaultVariants`: variants given by the caller replace the defaults entirely. */
  function ChosenVariants(custom: Option<Variants>, defaults: Variants): (v: Variants)
    ensures custom.Some? ==> v == custom.value
    ensures custom.None? ==> v == defaults
  {
    if custom.Some? then custom.value else defaults
  }

  /** The label animated to: `animate` once in view, `initial` otherwise. */
  function AnimateTarget(isInView: bool, animate: string, initial: string): string
  {
    if isInView then animate else initial
  }

  /** The pose a label names in a set of variants (none for an unknown label). */
  function PoseOf(v: Variants, name: string): Option<Pose>
  {
    if name == "hidden" then Some(v.hidden)
    else if name == "visible" then Some(v.visible)
    else None
  }

  /**
   * With the default labels and variants, the element is shown opaque and in place
   * exactly when in view, and otherwise waits transparent at its entry offset.
   */
  lemma DefaultEntry(isInView: bool, dx: AnimationDirection, dy: AnimationDirection, magnitude: real,
                     duration: real, delay: real, staggerIndex: real, staggerDelay: real)
    ensures var v := DefaultVariants(dx, dy, magnitude, duration, delay, staggerIndex, staggerDelay);
            var p := PoseOf(ChosenVariants(None, v), AnimateTarget(isInView, DefaultAnimate, DefaultInitial));
            p.Some?
            && (p.value.opacity == 1.0 <==> isInView)
            && (isInView ==> p.value.x == 0.0 && p.value.y == 0.0)
            && (!isInView ==> p.value.x == XOffset(dx, magnitude) && p.value.y == YOffset(dy, magnitude))
  {
  }

  /** `AnimatedText`'s items: `text.split(" ")` for words, `text.split("")` for characters. */
  function Items(text: string, t: TextType): (r: seq<string>)
    ensures t == Words ==> |r| >= 1
    ensures t == Chars ==> |r| == |text| && forall i :: 0 <= i < |r| ==> |r[i]| == 1
  {
    if t == Words then Split(text, ' ') else JsString.Chars(text)
  }

  /** The text shown: each item, followed by a space in words mode unless it is the last. */
  function RenderedItems(items: seq<string>, t: TextType): string
  {
    if |items| == 0 then ""
    else items[0] + (if t == Words && |items| > 1 then " " else "") + RenderedItems(items[1..], t)
  }

  lemma {:induction false} RenderedItemsJoin(items: seq<string>, t: TextType)
    ensures t == Words ==> RenderedItems(items, t) == Join(items, " ")
    ensures t == Chars ==> RenderedItems(items, t) == Concat(items)
  {
    if |items| > 0 {
      RenderedItemsJoin(items[1..], t);
    }
  }

  /** In both modes the shown text is exactly the input text. */
  lemma TextRoundTrip(text: string, t: TextType)
    ensures RenderedItems(Items(text, t), t) == text
  {
    RenderedItemsJoin(Items(text, t), t);
    if t == Words {
      JoinSplit(text, ' ');
    } else {
      ConcatChars(text);
    }
  }

  /** The empty text has no character items at all, but still one (empty) word item. */
  lemma EmptyText()
    ensures Items("", Chars) == []
    ensures Items("", Words) == [""]
  {
  }
}
