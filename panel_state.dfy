/** Geometry, theme and the pointer tracker of the floating panel
    (entrypoints/content/component/floating-panel.tsx), as values.

    Browser coordinates are modelled as integers. The tracker is the part of
    the panel's state that a pointer move reads and writes: the position, the
    size, the two mode flags and the reference point `dragStart`. */
module PanelState {

  datatype Point = Point(x: int, y: int)

  datatype Size = Size(width: int, height: int)

  /** The four theme entries; every value the panel writes is a CSS colour string. */
  datatype Colors = Colors(headerBg: string, headerText: string, bodyBg: string, bodyText: string)

  /** The keys `handleColorChange` accepts (`keyof Colors`). */
  datatype ColorKey = HeaderBg | HeaderText | BodyBg | BodyText

  const DefaultPosition: Point := Point(40, 40)
  const DefaultSize: Size := Size(320, 200)
  const MinSize: Size := Size(200, 100)
  const DefaultColors: Colors := Colors("#EF4444", "#FFFFFF", "#FFFFFF", "#374151")

  /** The panel's size invariant: never smaller than MIN_SIZE in either direction. */
  predicate AtLeastMin(s: Size) {
    s.width >= MinSize.width && s.height >= MinSize.height
  }

  function Max(a: int, b: int): int {
    if a >= b then a else b
  }

  /** `Math.max` against MIN_SIZE, field by field: the smallest size that is at
      least both `s` and MIN_SIZE. */
  function ClampSize(s: Size): (r: Size)
    ensures AtLeastMin(r)
    ensures r.width >= s.width && r.height >= s.height
    ensures r.width == s.width || r.width == MinSize.width
    ensures r.height == s.height || r.height == MinSize.height
    ensures AtLeastMin(s) <==> r == s
  {
    Size(Max(s.width, MinSize.width), Max(s.height, MinSize.height))
  }

  /** The vector that leads from `from` to `to`. */
  function Offset(from: Point, to: Point): Point {
    Point(to.x - from.x, to.y - from.y)
  }

  function Translate(p: Point, d: Point): Point {
    Point(p.x + d.x, p.y + d.y)
  }

  // ---------------------------------------------------------------------
  // Theme

  function ColorOf(c: Colors, key: ColorKey): string {
    match key
    case HeaderBg => c.headerBg
    case HeaderText => c.headerText
    case BodyBg => c.bodyBg
    case BodyText => c.bodyText
  }

  /** `{ ...prev, [key]: value }`: replaces one theme entry. */
  function WithColor(c: Colors, key: ColorKey, value: string): (r: Colors)
    ensures ColorOf(r, key) == value
    ensures forall k :: k != key ==> ColorOf(r, k) == ColorOf(c, k)
  {
    match key
    case HeaderBg => c.(headerBg := value)
    case HeaderText => c.(headerText := value)
    case BodyBg => c.(bodyBg := value)
    case BodyText => c.(bodyText := value)
  }

  /** Two themes agree on every key exactly when they are equal. */
  lemma ColorsExtensional(a: Colors, b: Colors)
    requires forall k :: ColorOf(a, k) == ColorOf(b, k)
    ensures a == b
  {
    assert ColorOf(a, HeaderBg) == ColorOf(b, HeaderBg);
    assert ColorOf(a, HeaderText) == ColorOf(b, HeaderText);
    assert ColorOf(a, BodyBg) == ColorOf(b, BodyBg);
    assert ColorOf(a, BodyText) == ColorOf(b, BodyText);
  }

  /** The preset buttons of the colour panel call `handleColorChange` for the
      header background and then for the header text: the result carries both
      new values and keeps the body entries. */
  lemma PresetKeepsBody(c: Colors, bg: string, text: string)
    ensures var r := WithColor(WithColor(c, HeaderBg, bg), HeaderText, text);
      r == Colors(bg, text, c.bodyBg, c.bodyText)
  {
    var r := WithColor(WithColor(c, HeaderBg, bg), HeaderText, text);
    forall k ensures ColorOf(r, k) == ColorOf(Colors(bg, text, c.bodyBg, c.bodyText), k) {
    }
    ColorsExtensional(r, Colors(bg, text, c.bodyBg, c.bodyText));
  }

  // ---------------------------------------------------------------------
  // Pointer tracker

  datatype Tracker = Tracker(position: Point, size: Size, isDragging: bool, isResizing: bool, dragStart: Point)

  /** The document-wide move/up listeners are attached exactly while a drag or a resize is armed. */
  predicate Subscribed(t: Tracker) {
    t.isDragging || t.isResizing
  }

  /** One `mousemove` at pointer `c`: nothing when idle; otherwise the delta
      since `dragStart` moves the panel (drag takes precedence) or grows the
      panel clamped to MIN_SIZE, and `dragStart` is re-based to `c`. */
  function Move(t: Tracker, c: Point): (r: Tracker)
    ensures r.isDragging == t.isDragging && r.isResizing == t.isResizing
    ensures r.position == t.position || r.size == t.size
    ensures !Subscribed(t) ==> r == t
    ensures Subscribed(t) ==> r.dragStart == c
    ensures AtLeastMin(t.size) ==> AtLeastMin(r.size)
  {
    if !t.isDragging && !t.isResizing then t
    else
      var d := Offset(t.dragStart, c);
      if t.isDragging then
        t.(position := Translate(t.position, d), dragStart := c)
      else
        t.(size := ClampSize(Size(t.size.width + d.x, t.size.height + d.y)), dragStart := c)
  }

  /** Dragging: the panel moves by exactly the pointer's displacement since the
      last recorded point, and its size does not change. */
  lemma DragMoveTranslates(t: Tracker, c: Point)
    requires t.isDragging
    ensures Move(t, c).position.x - t.position.x == c.x - t.dragStart.x
    ensures Move(t, c).position.y - t.position.y == c.y - t.dragStart.y
    ensures Move(t, c).size == t.size
  {
  }

  /** Resizing (and not dragging): the size becomes the pointer-grown size
      clamped to MIN_SIZE, and the position does not change. */
  lemma ResizeMoveClamps(t: Tracker, c: Point)
    requires t.isResizing && !t.isDragging
    ensures Move(t, c).position == t.position
    ensures AtLeastMin(Move(t, c).size)
    ensures Move(t, c).size.width == Max(t.size.width + c.x - t.dragStart.x, MinSize.width)
    ensures Move(t, c).size.height == Max(t.size.height + c.y - t.dragStart.y, MinSize.height)
  {
  }

  /** A sequence of pointer moves delivered one after another. */
  function Moves(t: Tracker, path: seq<Point>): (r: Tracker)
    decreases |path|
  {
    if path == [] then t else Moves(Move(t, path[0]), path[1..])
  }

  /** Incremental tracking telescopes: over a whole drag the panel moves by the
      displacement from the point recorded at drag start to the last pointer
      position, whatever the points in between. */
  lemma {:induction false} DragTelescopes(t: Tracker, path: seq<Point>)
    requires t.isDragging && path != []
    ensures Moves(t, path).position == Translate(t.position, Offset(t.dragStart, path[|path| - 1]))
    ensures Moves(t, path).size == t.size
    ensures Moves(t, path).dragStart == path[|path| - 1]
    decreases |path|
  {
    var t' := Move(t, path[0]);
    if |path| > 1 {
      DragTelescopes(t', path[1..]);
      assert path[1..][|path[1..]| - 1] == path[|path| - 1];
    }
  }

  /** Over a whole resize the position never changes, the size is never below
      MIN_SIZE once a move has happened, and the size is at least the starting
      size plus the total pointer displacement: clamping can only add. */
  lemma {:induction false} ResizeBounds(t: Tracker, path: seq<Point>)
    requires t.isResizing && !t.isDragging && path != []
    ensures Moves(t, path).position == t.position
    ensures AtLeastMin(Moves(t, path).size)
    ensures Moves(t, path).size.width >= t.size.width + path[|path| - 1].x - t.dragStart.x
    ensures Moves(t, path).size.height >= t.size.height + path[|path| - 1].y - t.dragStart.y
    decreases |path|
  {
    var t' := Move(t, path[0]);
    if |path| > 1 {
      ResizeBounds(t', path[1..]);
      assert path[1..][|path[1..]| - 1] == path[|path| - 1];
    }
  }

  /** Moves while idle change nothing at all. */
  lemma {:induction false} IdleMovesInert(t: Tracker, path: seq<Point>)
    requires !Subscribed(t)
    ensures Moves(t, path) == t
    decreases |path|
  {
    if path != [] {
      IdleMovesInert(Move(t, path[0]), path[1..]);
    }
  }
}
