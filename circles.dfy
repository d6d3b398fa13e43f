/**
 Model of the two-circle distance demo (moving_circles.py).

 The canvas is the ordered list of items the demo has created and not yet
 deleted. Each item carries the tag it was created with and the geometry it
 was drawn with; the distance label carries the squared distance between the
 centres instead of the formatted square root.
 */
module Circles {

  /** The interaction states (the State enum). */
  datatype State = WaitingForFirstClick | WaitingForSecondClick | DraggingCircles

  /** A mouse position in canvas pixels; tkinter reports integer coordinates. */
  datatype Point = Point(x: int, y: int)

  /** How far a drag moves a circle (the x, y passed to canvas.move). */
  datatype Offset = Offset(dx: int, dy: int)

  /** The corners (x1, y1) and (x2, y2) given to create_oval. */
  datatype Box = Box(x1: int, y1: int, x2: int, y2: int)

  /** Where the distance label is placed; `/` is true division, so it may fall on a half pixel. */
  datatype Position = Position(x: real, y: real)

  /** The tags the demo gives its canvas items. */
  datatype Tag = Circle1Tag | Circle2Tag | LineTag | TextTag

  /** One item on the canvas. */
  datatype Item =
    | Oval(tag: Tag, box: Box)
    | Line(from: Point, to: Point)
    | Text(at: Position, squaredDistance: int)

  /** The radius of both circles. */
  const RADIUS: int := 20

  function TagOf(item: Item): Tag
  {
    match item
    case Oval(tag, _) => tag
    case Line(_, _) => LineTag
    case Text(_, _) => TextTag
  }

  function Shift(p: Point, d: Offset): Point
  {
    Point(p.x + d.dx, p.y + d.dy)
  }

  function ShiftBox(b: Box, d: Offset): Box
  {
    Box(b.x1 + d.dx, b.y1 + d.dy, b.x2 + d.dx, b.y2 + d.dy)
  }

  /** The circle drawn around a centre: the box is centred on it and 2 * RADIUS wide and high. */
  function BoundingBox(center: Point): (b: Box)
    ensures b.x1 + b.x2 == 2 * center.x && b.y1 + b.y2 == 2 * center.y
    ensures b.x2 - b.x1 == 2 * RADIUS && b.y2 - b.y1 == 2 * RADIUS
  {
    Box(center.x - RADIUS, center.y - RADIUS, center.x + RADIUS, center.y + RADIUS)
  }

  /** The centre of a box. */
  function Center(b: Box): Point
  {
    Point((b.x1 + b.x2) / 2, (b.y1 + b.y2) / 2)
  }

  /** A circle's box gives back its centre, so distinct centres give distinct circles. */
  lemma CenterOfBoundingBox(center: Point)
    ensures Center(BoundingBox(center)) == center
  {
  }

  /** The offset a drag applies (x, y in move_circle1): it carries the old centre onto the new. */
  function DragDelta(from: Point, to: Point): (d: Offset)
    ensures Shift(from, d) == to
  {
    Offset(to.x - from.x, to.y - from.y)
  }

  /** Moving a circle's box by an offset gives the box around the moved centre. */
  lemma ShiftBoundingBox(center: Point, d: Offset)
    ensures ShiftBox(BoundingBox(center), d) == BoundingBox(Shift(center, d))
  {
  }

  /** The square of the distance the label shows. */
  function SquaredDistance(a: Point, b: Point): (d: int)
    ensures d >= 0
    ensures d == 0 <==> a == b
  {
    (a.x - b.x) * (a.x - b.x) + (a.y - b.y) * (a.y - b.y)
  }

  /** The distance does not depend on which circle is which. */
  lemma SquaredDistanceSymmetric(a: Point, b: Point)
    ensures SquaredDistance(a, b) == SquaredDistance(b, a)
  {
  }

  /** The label position: as far from the first centre as from the second, on each axis. */
  function Midpoint(a: Point, b: Point): (m: Position)
    ensures m.x - a.x as real == b.x as real - m.x
    ensures m.y - a.y as real == b.y as real - m.y
  {
    Position((b.x + a.x) as real / 2.0, (b.y + a.y) as real / 2.0)
  }

  /** Centres (100, 100) and (100, 300): distance 200, label at (100, 200). */
  lemma MidpointExample()
    ensures SquaredDistance(Point(100, 100), Point(100, 300)) == 200 * 200
    ensures Midpoint(Point(100, 100), Point(100, 300)) == Position(100.0, 200.0)
  {
  }

  /** The line and the label get_line_text draws for two centres: one item tagged line, one tagged text. */
  function LineText(c1: Point, c2: Point): (r: seq<Item>)
    ensures forall t :: Count(r, t) == if t == LineTag || t == TextTag then 1 else 0
  {
    var items := [Line(c1, c2), Text(Midpoint(c1, c2), SquaredDistance(c1, c2))];
    assert items[1..][1..] == [];
    assert forall t :: Count(items[1..], t) == if t == TextTag then 1 else 0;
    items
  }

  /** How many items on the canvas carry a tag. */
  function Count(canvas: seq<Item>, tag: Tag): nat
  {
    if canvas == [] then 0
    else (if TagOf(canvas[0]) == tag then 1 else 0) + Count(canvas[1..], tag)
  }

  lemma {:induction false} CountAppend(a: seq<Item>, b: seq<Item>, tag: Tag)
    ensures Count(a + b, tag) == Count(a, tag) + Count(b, tag)
  {
    if a == [] {
      assert a + b == b;
    } else {
      assert (a + b)[1..] == a[1..] + b;
      CountAppend(a[1..], b, tag);
    }
  }

  /** canvas.move on one item: an item carrying the tag is shifted, any other is left alone. */
  function MoveItem(item: Item, tag: Tag, d: Offset): (r: Item)
    ensures TagOf(r) == TagOf(item)
    ensures TagOf(item) != tag ==> r == item
    ensures TagOf(item) == tag && item.Oval? ==> r == Oval(item.tag, ShiftBox(item.box, d))
    ensures TagOf(item) == tag && item.Line? ==> r == Line(Shift(item.from, d), Shift(item.to, d))
    ensures TagOf(item) == tag && item.Text? ==>
      r == Text(Position(item.at.x + d.dx as real, item.at.y + d.dy as real), item.squaredDistance)
  {
    if TagOf(item) != tag then item
    else match item
      case Oval(t, b) => Oval(t, ShiftBox(b, d))
      case Line(p, q) => Line(Shift(p, d), Shift(q, d))
      case Text(at, text) => Text(Position(at.x + d.dx as real, at.y + d.dy as real), text)
  }

  /** canvas.move(tag, dx, dy): every item carrying the tag is shifted in place; order and tags are kept. */
  function Moved(canvas: seq<Item>, tag: Tag, d: Offset): (r: seq<Item>)
    ensures |r| == |canvas|
    ensures forall i :: 0 <= i < |canvas| ==> r[i] == MoveItem(canvas[i], tag, d)
  {
    if canvas == [] then [] else [MoveItem(canvas[0], tag, d)] + Moved(canvas[1..], tag, d)
  }

  /** canvas.delete(tags...): the items carrying none of the tags, in their order. */
  function Deleted(canvas: seq<Item>, tags: set<Tag>): (r: seq<Item>)
    ensures |r| <= |canvas|
    ensures forall i :: 0 <= i < |r| ==> TagOf(r[i]) !in tags
  {
    if canvas == [] then []
    else (if TagOf(canvas[0]) in tags then [] else [canvas[0]]) + Deleted(canvas[1..], tags)
  }

  /** An item survives a delete exactly when it was on the canvas and carries none of the deleted tags. */
  lemma {:induction false} DeletedMembers(canvas: seq<Item>, tags: set<Tag>, item: Item)
    ensures item in Deleted(canvas, tags) <==> item in canvas && TagOf(item) !in tags
  {
    if canvas != [] {
      DeletedMembers(canvas[1..], tags, item);
      assert item in canvas <==> item == canvas[0] || item in canvas[1..];
    }
  }

  /** Moving items changes no item's tag, so no tag's count. */
  lemma {:induction false} CountMoved(canvas: seq<Item>, tag: Tag, d: Offset, t: Tag)
    ensures Count(Moved(canvas, tag, d), t) == Count(canvas, t)
  {
    if canvas != [] {
      assert Moved(canvas, tag, d)[1..] == Moved(canvas[1..], tag, d);
      CountMoved(canvas[1..], tag, d, t);
    }
  }

  /** Moving items of a concatenation moves them in each part. */
  lemma MovedAppend(a: seq<Item>, b: seq<Item>, tag: Tag, d: Offset)
    ensures Moved(a + b, tag, d) == Moved(a, tag, d) + Moved(b, tag, d)
  {
  }

  /** Deleting from a concatenation deletes from each part. */
  lemma {:induction false} DeletedAppend(a: seq<Item>, b: seq<Item>, tags: set<Tag>)
    ensures Deleted(a + b, tags) == Deleted(a, tags) + Deleted(b, tags)
  {
    if a == [] {
      assert a + b == b;
    } else {
      assert (a + b)[1..] == a[1..] + b;
      DeletedAppend(a[1..], b, tags);
    }
  }

  /** Deleting tags no item carries keeps the whole canvas. */
  lemma {:induction false} DeletedNone(canvas: seq<Item>, tags: set<Tag>)
    requires forall i :: 0 <= i < |canvas| ==> TagOf(canvas[i]) !in tags
    ensures Deleted(canvas, tags) == canvas
  {
    if canvas != [] {
      DeletedNone(canvas[1..], tags);
    }
  }

  /** Deleting tags every item carries empties the canvas. */
  lemma {:induction false} DeletedAll(canvas: seq<Item>, tags: set<Tag>)
    requires forall i :: 0 <= i < |canvas| ==> TagOf(canvas[i]) in tags
    ensures Deleted(canvas, tags) == []
  {
    if canvas != [] {
      DeletedAll(canvas[1..], tags);
    }
  }

  /** Deleting by tags leaves none of those tags and every other tag's items. */
  lemma {:induction false} CountDeleted(canvas: seq<Item>, tags: set<Tag>, t: Tag)
    ensures Count(Deleted(canvas, tags), t) == if t in tags then 0 else Count(canvas, t)
  {
    if canvas != [] {
      var head := if TagOf(canvas[0]) in tags then [] else [canvas[0]];
      CountAppend(head, Deleted(canvas[1..], tags), t);
      CountDeleted(canvas[1..], tags, t);
    }
  }

  /**
   Whatever the canvas held, a drag (move one circle, delete the line and the
   label, draw them again) leaves exactly one line and one label on it and
   does not change how many circles of each kind there are.
   */
  lemma DragRedrawCounts(canvas: seq<Item>, circle: Tag, d: Offset, c1: Point, c2: Point, t: Tag)
    ensures Count(Deleted(Moved(canvas, circle, d), {LineTag, TextTag}) + LineText(c1, c2), t)
      == if t == LineTag || t == TextTag then 1 else Count(canvas, t)
  {
    CountAppend(Deleted(Moved(canvas, circle, d), {LineTag, TextTag}), LineText(c1, c2), t);
    CountDeleted(Moved(canvas, circle, d), {LineTag, TextTag}, t);
    CountMoved(canvas, circle, d, t);
  }

  /**
   The canvas each state shows: nothing before the first click, the first
   circle while waiting for the second, and then both circles, the line and
   the label, all drawn from the current centres.
   */
  function Scene(state: State, center1: Point, center2: Point): seq<Item>
  {
    match state
    case WaitingForFirstClick => []
    case WaitingForSecondClick => [Oval(Circle1Tag, BoundingBox(center1))]
    case DraggingCircles =>
      [Oval(Circle1Tag, BoundingBox(center1)), Oval(Circle2Tag, BoundingBox(center2))]
        + LineText(center1, center2)
  }

  /**
   Circles exist only from the second state on, there is never more than one
   circle of each kind (so never a third circle), and the line and label exist
   exactly while dragging.
   */
  lemma SceneCounts(state: State, center1: Point, center2: Point)
    ensures Count(Scene(state, center1, center2), Circle1Tag) == if state == WaitingForFirstClick then 0 else 1
    ensures Count(Scene(state, center1, center2), Circle2Tag) == if state == DraggingCircles then 1 else 0
    ensures Count(Scene(state, center1, center2), LineTag) == if state == DraggingCircles then 1 else 0
    ensures Count(Scene(state, center1, center2), TextTag) == if state == DraggingCircles then 1 else 0
  {
    forall t: Tag ensures Count(Scene(state, center1, center2), t) == SceneCount(state, t) {
      if state == DraggingCircles {
        var o1, o2 := Oval(Circle1Tag, BoundingBox(center1)), Oval(Circle2Tag, BoundingBox(center2));
        var l, x := Line(center1, center2), Text(Midpoint(center1, center2), SquaredDistance(center1, center2));
        assert Scene(state, center1, center2) == [o1] + ([o2] + ([l] + [x]));
        CountAppend([o1], [o2] + ([l] + [x]), t);
        CountAppend([o2], [l] + [x], t);
        CountAppend([l], [x], t);
      }
    }
  }

  /** The number of items with a tag that Scene shows in a state. */
  function SceneCount(state: State, t: Tag): nat
  {
    match t
    case Circle1Tag => if state == WaitingForFirstClick then 0 else 1
    case _ => if state == DraggingCircles then 1 else 0
  }

  /**
   On a canvas holding the two circles, a line and a label, moving the items of
   one tag and then deleting the line and the label leaves just the two
   circles, in their order, each moved or not according to its tag.
   */
  lemma DragKeepsCircles(o1: Item, o2: Item, l: Item, x: Item, moved: Tag, d: Offset)
    requires TagOf(o1) == Circle1Tag && TagOf(o2) == Circle2Tag && TagOf(l) == LineTag && TagOf(x) == TextTag
    ensures Deleted(Moved([o1, o2, l, x], moved, d), {LineTag, TextTag})
      == [MoveItem(o1, moved, d), MoveItem(o2, moved, d)]
  {
    var tags := {LineTag, TextTag};
    var m1, m2, m3, m4 := MoveItem(o1, moved, d), MoveItem(o2, moved, d), MoveItem(l, moved, d), MoveItem(x, moved, d);
    MovedAppend([o1, o2], [l, x], moved, d);
    assert [o1, o2, l, x] == [o1, o2] + [l, x];
    assert Moved([o1, o2], moved, d) == [m1, m2] by {
      assert [o1, o2][1..] == [o2] && [o2][1..] == [];
    }
    assert Moved([l, x], moved, d) == [m3, m4] by {
      assert [l, x][1..] == [x] && [x][1..] == [];
    }
    DeletedAppend([m1, m2], [m3, m4], tags);
    DeletedNone([m1, m2], tags);
    DeletedAll([m3, m4], tags);
  }

  /** Dragging the first circle to `to` redraws the scene for the new pair of centres. */
  lemma DragCircle1Scene(center1: Point, center2: Point, to: Point)
    ensures Deleted(Moved(Scene(DraggingCircles, center1, center2), Circle1Tag, DragDelta(center1, to)), {LineTag, TextTag})
      + LineText(to, center2) == Scene(DraggingCircles, to, center2)
  {
    var lt := LineText(center1, center2);
    var o1, o2 := Oval(Circle1Tag, BoundingBox(center1)), Oval(Circle2Tag, BoundingBox(center2));
    assert Scene(DraggingCircles, center1, center2) == [o1, o2, lt[0], lt[1]];
    ShiftBoundingBox(center1, DragDelta(center1, to));
    DragKeepsCircles(o1, o2, lt[0], lt[1], Circle1Tag, DragDelta(center1, to));
  }

  /** Dragging the second circle to `to` redraws the scene for the new pair of centres. */
  lemma DragCircle2Scene(center1: Point, center2: Point, to: Point)
    ensures Deleted(Moved(Scene(DraggingCircles, center1, center2), Circle2Tag, DragDelta(center2, to)), {LineTag, TextTag})
      + LineText(center1, to) == Scene(DraggingCircles, center1, to)
  {
    var lt := LineText(center1, center2);
    var o1, o2 := Oval(Circle1Tag, BoundingBox(center1)), Oval(Circle2Tag, BoundingBox(center2));
    assert Scene(DraggingCircles, center1, center2) == [o1, o2, lt[0], lt[1]];
    ShiftBoundingBox(center2, DragDelta(center2, to));
    DragKeepsCircles(o1, o2, lt[0], lt[1], Circle2Tag, DragDelta(center2, to));
  }

  /** The demo window's state: the interaction state, the two centres, the label and the canvas. */
  class MovingCircles {
    var state: State
    var center1: Point
    var center2: Point
    /** The square of `distance`. */
    var squaredDistance: int
    var txtCenter: Position
    var canvas: seq<Item>

    /** The canvas shows the scene of the current state, and while dragging the label reflects the current centres. */
    ghost predicate Valid()
      reads this
    {
      && canvas == Scene(state, center1, center2)
      && (state == DraggingCircles ==>
            squaredDistance == SquaredDistance(center1, center2) && txtCenter == Midpoint(center1, center2))
    }

    /** A fresh window: waiting for the first click, nothing drawn. */
    constructor ()
      ensures Valid()
      ensures state == WaitingForFirstClick && canvas == []
    {
      state := WaitingForFirstClick;
      center1, center2 := Point(0, 0), Point(0, 0);
      squaredDistance := 0;
      txtCenter := Position(0.0, 0.0);
      canvas := [];
      new;
      assert canvas == Scene(state, center1, center2);
    }

    /** clear: delete every item and wait for a first click again; the stored centres are kept. */
    method Clear()
      modifies this
      ensures Valid()
      ensures state == WaitingForFirstClick && canvas == []
      ensures center1 == old(center1) && center2 == old(center2)
      ensures squaredDistance == old(squaredDistance) && txtCenter == old(txtCenter)
    {
      canvas := [];
      state := WaitingForFirstClick;
    }

    /** mousedown_handler: the first click places circle 1, the second circle 2; later clicks do nothing. */
    method MousedownHandler(event: Point)
      requires Valid()
      modifies this
      ensures Valid()
      ensures old(state) == WaitingForFirstClick ==>
        && state == WaitingForSecondClick
        && center1 == event && center2 == old(center2)
        && canvas == old(canvas) + [Oval(Circle1Tag, BoundingBox(event))]
        && squaredDistance == old(squaredDistance) && txtCenter == old(txtCenter)
      ensures old(state) == WaitingForSecondClick ==>
        && state == DraggingCircles
        && center1 == old(center1) && center2 == event
        && canvas == old(canvas) + [Oval(Circle2Tag, BoundingBox(event))] + LineText(center1, event)
        && squaredDistance == SquaredDistance(center1, event) && txtCenter == Midpoint(center1, event)
      ensures old(state) == DraggingCircles ==> unchanged(this)
    {
      if state == WaitingForFirstClick {
        center1 := event;
        canvas := canvas + [Oval(Circle1Tag, BoundingBox(event))];
        state := WaitingForSecondClick;
      } else if state == WaitingForSecondClick {
        center2 := event;
        canvas := canvas + [Oval(Circle2Tag, BoundingBox(event))];
        GetLineText();
        state := DraggingCircles;
      }
    }

    /** get_line_text: draw the line between the centres and the label at its midpoint. */
    method GetLineText()
      modifies this
      ensures canvas == old(canvas) + LineText(center1, center2)
      ensures squaredDistance == SquaredDistance(center1, center2) && txtCenter == Midpoint(center1, center2)
      ensures state == old(state) && center1 == old(center1) && center2 == old(center2)
    {
      canvas := canvas + [Line(center1, center2)];
      squaredDistance := SquaredDistance(center1, center2);
      txtCenter := Midpoint(center1, center2);
      canvas := canvas + [Text(txtCenter, squaredDistance)];
    }

    /** move_circle1: drag circle 1 to the event point, then redraw the line and the label. */
    method MoveCircle1(event: Point)
      requires Valid() && state == DraggingCircles
      modifies this
      ensures Valid()
      ensures state == DraggingCircles && center1 == event && center2 == old(center2)
      ensures canvas == Deleted(Moved(old(canvas), Circle1Tag, DragDelta(old(center1), event)), {LineTag, TextTag})
        + LineText(center1, center2)
      ensures Count(canvas, LineTag) == 1 && Count(canvas, TextTag) == 1
    {
      var delta := Offset(event.x - center1.x, event.y - center1.y);
      assert delta == DragDelta(center1, event);
      DragCircle1Scene(center1, center2, event);
      center1 := event;
      canvas := Moved(canvas, Circle1Tag, delta);
      canvas := Deleted(canvas, {LineTag, TextTag});
      GetLineText();
      assert canvas == Scene(DraggingCircles, center1, center2);
      SceneCounts(DraggingCircles, center1, center2);
    }

    /** move_circle2: drag circle 2 to the event point, then redraw the line and the label. */
    method MoveCircle2(event: Point)
      requires Valid() && state == DraggingCircles
      modifies this
      ensures Valid()
      ensures state == DraggingCircles && center1 == old(center1) && center2 == event
      ensures canvas == Deleted(Moved(old(canvas), Circle2Tag, DragDelta(old(center2), event)), {LineTag, TextTag})
        + LineText(center1, center2)
      ensures Count(canvas, LineTag) == 1 && Count(canvas, TextTag) == 1
    {
      var delta := Offset(event.x - center2.x, event.y - center2.y);
      assert delta == DragDelta(center2, event);
      DragCircle2Scene(center1, center2, event);
      center2 := event;
      canvas := Moved(canvas, Circle2Tag, delta);
      canvas := Deleted(canvas, {LineTag, TextTag});
      GetLineText();
      assert canvas == Scene(DraggingCircles, center1, center2);
      SceneCounts(DraggingCircles, center1, center2);
    }
  }
}
