/**
 * A target of the multi-wave gesture view: a drawable (a state list of
 * child drawables, a plain drawable, or none) with its placement, scale,
 * alpha and enabled flag.
 */
module MultiWaveView {
  import opened Graphics
  import opened Wrappers

  /** android.R.attr.state_focused, state_enabled and state_active. */
  const StateFocused: int := 0x0101009c
  const StateEnabled: int := 0x0101009e
  const StateActive: int := 0x010100a2

  const StateActiveSet: seq<int> := [StateEnabled, StateActive]
  const StateInactiveSet: seq<int> := [StateEnabled, -StateActive]
  const StateFocusedSet: seq<int> := [StateEnabled, -StateActive, StateFocused]

  /** A child of a state list: its intrinsic size and its bounds. */
  datatype Child = Child(width: int, height: int, bounds: Rect)

  /**
   * The drawable a target holds. A state list records its children, the
   * index of the selected child (-1 when none is selected), its state array
   * and its own bounds. Its intrinsic size is that of the selected child.
   */
  datatype Drawable =
    | NoDrawable
    | Plain(width: int, height: int, bounds: Rect)
    | StateList(children: seq<Child>, current: int, state: seq<int>, bounds: Rect)

  /** Drawable.getIntrinsicWidth (-1: no intrinsic width). */
  function IntrinsicWidth(d: Drawable): int {
    match d
    case NoDrawable => -1
    case Plain(w, _, _) => w
    case StateList(children, current, _, _) =>
      if 0 <= current < |children| then children[current].width else -1
  }

  function IntrinsicHeight(d: Drawable): int {
    match d
    case NoDrawable => -1
    case Plain(_, h, _) => h
    case StateList(children, current, _, _) =>
      if 0 <= current < |children| then children[current].height else -1
  }

  /**
   * (w, h) is the size union of the first n children: each is at least 0
   * and at least every considered child's intrinsic size, and is 0 or one
   * of those sizes.
   */
  ghost predicate IsUnion(children: seq<Child>, n: int, w: int, h: int)
    requires n <= |children|
  {
    0 <= w && 0 <= h &&
    (forall i :: 0 <= i < n ==> children[i].width <= w && children[i].height <= h) &&
    (w == 0 || exists i :: 0 <= i < n && children[i].width == w) &&
    (h == 0 || exists i :: 0 <= i < n && children[i].height == h)
  }

  /** The first loop of resizeDrawables: the largest width and height over the first n children. */
  method ChildrenUnion(children: seq<Child>, n: int) returns (maxWidth: int, maxHeight: int)
    requires n <= |children|
    ensures IsUnion(children, n, maxWidth, maxHeight)
  {
    maxWidth, maxHeight := 0, 0;
    var i := 0;
    while i < n
      invariant 0 <= i <= (if n > 0 then n else 0)
      invariant IsUnion(children, i, maxWidth, maxHeight)
    {
      var child := children[i];
      if child.width > maxWidth {
        maxWidth := child.width;
      }
      if child.height > maxHeight {
        maxHeight := child.height;
      }
      i := i + 1;
    }
  }

  /** The second loop of resizeDrawables: the first n children get bounds (0, 0, w, h). */
  method SizeChildren(children: seq<Child>, n: int, w: int, h: int) returns (sized: seq<Child>)
    requires n <= |children|
    ensures |sized| == |children|
    ensures forall i :: 0 <= i < |children| ==>
      sized[i].width == children[i].width && sized[i].height == children[i].height &&
      sized[i].bounds == if i < n then Rect(0, 0, w, h) else children[i].bounds
  {
    sized := children;
    var i := 0;
    while i < n
      invariant 0 <= i <= (if n > 0 then n else 0)
      invariant |sized| == |children|
      invariant forall j :: 0 <= j < |children| ==>
        sized[j].width == children[j].width && sized[j].height == children[j].height &&
        sized[j].bounds == if j < i then Rect(0, 0, w, h) else children[j].bounds
    {
      sized := sized[i := sized[i].(bounds := Rect(0, 0, w, h))];
      i := i + 1;
    }
  }

  /** Whether resizeDrawables completes: a state list must have at least n children. */
  predicate Resizable(d: Drawable, n: int) {
    d.StateList? ==> n <= |d.children|
  }

  /**
   * `after` is what resizeDrawables makes of `before` with n considered
   * children, up to the state array. A state list whose children are fewer
   * than n ends with no child selected (Java then throws).
   */
  ghost predicate ResizedFrom(before: Drawable, after: Drawable, n: int) {
    match before
    case NoDrawable => after == NoDrawable
    case Plain(w, h, _) => after == Plain(w, h, Rect(0, 0, w, h))
    case StateList(children, current, _, bounds) =>
      after.StateList? &&
      if n <= |children| then
        |after.children| == |children| &&
        after.bounds.left == 0 && after.bounds.top == 0 &&
        IsUnion(children, n, after.bounds.right, after.bounds.bottom) &&
        after.current == (if n >= 1 then n - 1 else current) &&
        forall i :: 0 <= i < |children| ==>
          after.children[i].width == children[i].width && after.children[i].height == children[i].height &&
          after.children[i].bounds == if i < n then after.bounds else children[i].bounds
      else
        after.children == children && after.current == -1 && after.bounds == bounds
  }

  /** isActive's condition: a state list whose state array holds state_focused. */
  predicate Active(d: Drawable) {
    d.StateList? && StateFocused in d.state
  }

  /** What draw sets up on the canvas: the scale about the position, the offset, the alpha. */
  datatype Placement = Placement(scaleX: real, scaleY: real, pivotX: real, pivotY: real,
                                 dx: real, dy: real, alpha: real)

  class TargetDrawable {
    var translationX: real
    var translationY: real
    var positionX: real
    var positionY: real
    var scaleX: real
    var scaleY: real
    var alpha: real
    var drawable: Drawable
    var enabled: bool
    const resourceId: int
    var numDrawables: int

    /**
     * TargetDrawable(res, resId, count): the drawable is set, and so resized,
     * while numDrawables still holds its default 1; count is stored after.
     */
    constructor (res: int -> Drawable, resId: int, count: int)
      requires Resizable(if resId == 0 then NoDrawable else res(resId), 1)
      ensures resourceId == resId && numDrawables == count
      ensures ResizedFrom(if resId == 0 then NoDrawable else res(resId), drawable, 1)
      ensures drawable.StateList? ==> drawable.state == StateInactiveSet
      ensures !Active(drawable) && enabled
      ensures translationX == 0.0 && translationY == 0.0 && positionX == 0.0 && positionY == 0.0
      ensures scaleX == 1.0 && scaleY == 1.0 && alpha == 1.0
    {
      translationX, translationY, positionX, positionY := 0.0, 0.0, 0.0, 0.0;
      scaleX, scaleY, alpha := 1.0, 1.0, 1.0;
      drawable := NoDrawable;
      enabled := true;
      resourceId := resId;
      numDrawables := 1;
      new;
      var ok := SetDrawable(res, resId);
      numDrawables := count;
    }

    /** The copy constructor: shares the resource id and copies the drawable, but not numDrawables. */
    constructor Copy(other: TargetDrawable)
      requires Resizable(other.drawable, 1)
      ensures resourceId == other.resourceId && numDrawables == 1
      ensures ResizedFrom(old(other.drawable), drawable, 1)
      ensures drawable.StateList? ==> drawable.state == StateInactiveSet
      ensures !Active(drawable) && enabled
      ensures translationX == 0.0 && translationY == 0.0 && positionX == 0.0 && positionY == 0.0
      ensures scaleX == 1.0 && scaleY == 1.0 && alpha == 1.0
    {
      translationX, translationY, positionX, positionY := 0.0, 0.0, 0.0, 0.0;
      scaleX, scaleY, alpha := 1.0, 1.0, 1.0;
      drawable := other.drawable;
      enabled := true;
      resourceId := other.resourceId;
      numDrawables := 1;
      new;
      var ok := ResizeDrawables();
      SetState(StateInactiveSet);
    }

    /**
     * setDrawable: looks the drawable up (none for id 0), resizes it and puts
     * it in the inactive state. The resource id is kept. `ok` is false when
     * resizing throws, and then the state is not set.
     */
    method SetDrawable(res: int -> Drawable, resId: int) returns (ok: bool)
      modifies this`drawable
      ensures ok == Resizable(if resId == 0 then NoDrawable else res(resId), numDrawables)
      ensures ResizedFrom(if resId == 0 then NoDrawable else res(resId), drawable, numDrawables)
      ensures drawable.StateList? ==>
        drawable.state == if ok then StateInactiveSet else res(resId).state
      ensures ok ==> !Active(drawable)
    {
      drawable := if resId == 0 then NoDrawable else res(resId);
      ok := ResizeDrawables();
      if ok {
        SetState(StateInactiveSet);
      }
    }

    /** setState: only a state list takes the new state. */
    method SetState(state: seq<int>)
      modifies this`drawable
      ensures drawable == if old(drawable).StateList? then old(drawable).(state := state) else old(drawable)
    {
      if drawable.StateList? {
        drawable := drawable.(state := state);
      }
    }

    /** isActive: searches the state array of a state list for state_focused. */
    method IsActive() returns (active: bool)
      ensures active == Active(drawable)
    {
      if drawable.StateList? {
        var states := drawable.state;
        for i := 0 to |states|
          invariant forall j :: 0 <= j < i ==> states[j] != StateFocused
        {
          if states[i] == StateFocused {
            return true;
          }
        }
      }
      return false;
    }

    /** isEnabled: an enabled target has a drawable, so its size is the drawable's intrinsic size. */
    predicate IsEnabled()
      reads this
      ensures IsEnabled() ==> Width() == IntrinsicWidth(drawable) && Height() == IntrinsicHeight(drawable)
    {
      drawable != NoDrawable && enabled
    }

    /**
     * resizeDrawables: a state list's container and its first numDrawables
     * children get the union size; a plain drawable gets its intrinsic size.
     * `ok` is false when a state list has fewer children than numDrawables.
     */
    method ResizeDrawables() returns (ok: bool)
      modifies this`drawable
      ensures ok == Resizable(old(drawable), numDrawables)
      ensures ResizedFrom(old(drawable), drawable, numDrawables)
      ensures drawable.StateList? ==> drawable.state == old(drawable).state
      ensures drawable.Plain? ==> drawable.bounds == Rect(0, 0, Width(), Height())
    {
      match drawable
      case StateList(children, current, state, bounds) =>
        if numDrawables > |children| {
          drawable := drawable.(current := -1);
          return false;
        }
        var maxWidth, maxHeight := ChildrenUnion(children, numDrawables);
        var sized := SizeChildren(children, numDrawables, maxWidth, maxHeight);
        var selected := if numDrawables >= 1 then numDrawables - 1 else current;
        drawable := StateList(sized, selected, state, Rect(0, 0, maxWidth, maxHeight));
        return true;
      case Plain(w, h, _) =>
        drawable := Plain(w, h, Rect(0, 0, w, h));
        return true;
      case NoDrawable =>
        return true;
    }

    method SetX(x: real)
      modifies this`translationX
      ensures GetX() == x
    {
      translationX := x;
    }

    method SetY(y: real)
      modifies this`translationY
      ensures GetY() == y
    {
      translationY := y;
    }

    method SetScaleX(x: real)
      modifies this`scaleX
      ensures GetScaleX() == x
    {
      scaleX := x;
    }

    method SetScaleY(y: real)
      modifies this`scaleY
      ensures GetScaleY() == y
    {
      scaleY := y;
    }

    method SetAlpha(a: real)
      modifies this`alpha
      ensures GetAlpha() == a
    {
      alpha := a;
    }

    method SetPositionX(x: real)
      modifies this`positionX
      ensures GetPositionX() == x
    {
      positionX := x;
    }

    method SetPositionY(y: real)
      modifies this`positionY
      ensures GetPositionY() == y
    {
      positionY := y;
    }

    method SetEnabled(e: bool)
      modifies this`enabled
      ensures enabled == e
      ensures IsEnabled() <==> e && drawable != NoDrawable
    {
      enabled := e;
    }

    function GetX(): real reads this { translationX }
    function GetY(): real reads this { translationY }
    function GetScaleX(): real reads this { scaleX }
    function GetScaleY(): real reads this { scaleY }
    function GetAlpha(): real reads this { alpha }
    function GetPositionX(): real reads this { positionX }
    function GetPositionY(): real reads this { positionY }
    function GetResourceId(): int reads this { resourceId }

    /** getWidth: 0 without a drawable, the drawable's intrinsic width otherwise. */
    function Width(): (w: int)
      reads this
      ensures drawable == NoDrawable ==> w == 0
      ensures drawable != NoDrawable ==> w == IntrinsicWidth(drawable)
    {
      if drawable != NoDrawable then IntrinsicWidth(drawable) else 0
    }

    /** getHeight: 0 without a drawable, the drawable's intrinsic height otherwise. */
    function Height(): (h: int)
      reads this
      ensures drawable == NoDrawable ==> h == 0
      ensures drawable != NoDrawable ==> h == IntrinsicHeight(drawable)
    {
      if drawable != NoDrawable then IntrinsicHeight(drawable) else 0
    }

    /**
     * draw: nothing is drawn without a drawable or when disabled; otherwise
     * the drawable is scaled about its position and centred on its position
     * plus its translation.
     */
    function DrawPlacement(): (p: Option<Placement>)
      reads this
      ensures p.Some? <==> IsEnabled()
      ensures p.Some? ==> p.value.dx + 0.5 * Width() as real == translationX + positionX &&
                          p.value.dy + 0.5 * Height() as real == translationY + positionY
      ensures p.Some? ==> p.value.scaleX == scaleX && p.value.scaleY == scaleY && p.value.alpha == alpha
      ensures p.Some? ==> p.value.pivotX == positionX && p.value.pivotY == positionY
    {
      if drawable == NoDrawable || !enabled then None
      else Some(Placement(scaleX, scaleY, positionX, positionY,
                          translationX + positionX - 0.5 * Width() as real,
                          translationY + positionY - 0.5 * Height() as real, alpha))
    }
  }
}
