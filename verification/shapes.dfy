/**
 * The four shape kinds the whiteboard stores, the rule by which each kind follows the pointer
 * while it is being drawn, and the collection updaters that apply a rule to the entry being
 * drawn. Each updater is a pure function of the collection, the id of the active shape and the
 * pointer position; the handlers in module Board replace a collection with its result.
 */
module Shapes {
  import opened ShapeStore

  type Color = string

  /** The style a shape copies from the current settings when it is created. */
  datatype Style = Style(fillColor: Color, strokeColor: Color, strokeWidth: int)

  /** A pointer position in canvas coordinates. */
  datatype Point = Point(x: int, y: int)

  /** `edge` is the corner radius; only rectangles carry one. */
  datatype Rectangle = Rectangle(id: ShapeId, x: int, y: int, width: int, height: int, edge: int, style: Style)

  /** The radius is kept squared: the drawn radius is its square root. */
  datatype Circle = Circle(id: ShapeId, x: int, y: int, radiusSq: int, style: Style)

  /** `points` is the flat list x1, y1, x2, y2 of tail and head. */
  datatype Arrow = Arrow(id: ShapeId, points: seq<int>, style: Style)

  /** `points` is the flat list x1, y1, x2, y2, ... of the traced polyline. */
  datatype Scribble = Scribble(id: ShapeId, points: seq<int>, style: Style)

  function RectangleId(r: Rectangle): ShapeId { r.id }
  function CircleId(c: Circle): ShapeId { c.id }
  function ArrowId(a: Arrow): ShapeId { a.id }
  function ScribbleId(s: Scribble): ShapeId { s.id }

  function Min(a: int, b: int): int { if a <= b then a else b }
  function Abs(a: int): int { if a < 0 then -a else a }

  /** The interval [lo, lo + len] is non-empty-or-point and has exactly `a` and `b` as its ends. */
  predicate Spans(lo: int, len: int, a: int, b: int)
  {
    len >= 0 && ((lo == a && lo + len == b) || (lo == b && lo + len == a))
  }

  /** Squared distance between two points. */
  function DistSq(a: Point, b: Point): int
  {
    (b.x - a.x) * (b.x - a.x) + (b.y - a.y) * (b.y - a.y)
  }

  // ---------------------------------------------------------------------------------------
  // One entry following the pointer
  // ---------------------------------------------------------------------------------------

  /**
   * A rectangle move: the rectangle becomes the box whose opposite corners are its STORED
   * top-left corner and the pointer, so width and height are never negative.
   */
  function ResizeRectangle(r: Rectangle, p: Point): (r': Rectangle)
    ensures Spans(r'.x, r'.width, r.x, p.x) && Spans(r'.y, r'.height, r.y, p.y)
    ensures r'.id == r.id && r'.edge == r.edge && r'.style == r.style
  {
    r.(x := Min(r.x, p.x), y := Min(r.y, p.y), width := Abs(p.x - r.x), height := Abs(p.y - r.y))
  }

  /** A circle move: the centre stays and the pointer lies on the new circle. */
  function ResizeCircle(c: Circle, p: Point): (c': Circle)
    ensures c'.id == c.id && c'.x == c.x && c'.y == c.y && c'.style == c.style
    ensures c'.radiusSq >= 0
    ensures c'.radiusSq == 0 <==> p == Point(c.x, c.y)
    ensures DistSq(Point(c'.x, c'.y), p) == c'.radiusSq
  {
    var dx, dy := p.x - c.x, p.y - c.y;
    assert dx * dx >= 0 && dy * dy >= 0;
    assert dx * dx + dy * dy == 0 ==> dx == 0 && dy == 0 by {
      if dx != 0 { assert dx * dx > 0; }
      if dy != 0 { assert dy * dy > 0; }
    }
    c.(radiusSq := dy * dy + dx * dx)
  }

  /** An arrow move: the tail stays where it is and the head jumps to the pointer. */
  function MoveArrowHead(a: Arrow, p: Point): (a': Arrow)
    requires |a.points| >= 2
    ensures |a'.points| == 4
    ensures a'.points[..2] == a.points[..2] && a'.points[2..] == [p.x, p.y]
    ensures a'.id == a.id && a'.style == a.style
  {
    a.(points := [a.points[0], a.points[1], p.x, p.y])
  }

  /** A scribble move: the pointer is appended and nothing drawn so far is rewritten. */
  function ExtendScribble(s: Scribble, p: Point): (s': Scribble)
    ensures |s'.points| == |s.points| + 2
    ensures s'.points[..|s.points|] == s.points && s'.points[|s.points|..] == [p.x, p.y]
    ensures s'.id == s.id && s'.style == s.style
  {
    s.(points := s.points + [p.x, p.y])
  }

  // ---------------------------------------------------------------------------------------
  // The collection updaters of a pointer move
  // ---------------------------------------------------------------------------------------

  /** Only the entry with the active id is resized; length, order and ids are kept. */
  function MoveRectangles(rs: seq<Rectangle>, id: ShapeId, p: Point): (rs': seq<Rectangle>)
    ensures |rs'| == |rs| && Keys(rs', RectangleId) == Keys(rs, RectangleId)
    ensures forall i :: 0 <= i < |rs| && rs[i].id == id ==> rs'[i] == ResizeRectangle(rs[i], p)
    ensures forall i :: 0 <= i < |rs| && rs[i].id != id ==> rs'[i] == rs[i]
  {
    UpdateByIdKeepsKeys(rs, RectangleId, id, r => ResizeRectangle(r, p));
    UpdateById(rs, RectangleId, id, r => ResizeRectangle(r, p))
  }

  /** Only the radius of the entry with the active id changes; length, order and ids are kept. */
  function MoveCircles(cs: seq<Circle>, id: ShapeId, p: Point): (cs': seq<Circle>)
    ensures |cs'| == |cs| && Keys(cs', CircleId) == Keys(cs, CircleId)
    ensures forall i :: 0 <= i < |cs| && cs[i].id == id ==> cs'[i] == ResizeCircle(cs[i], p)
    ensures forall i :: 0 <= i < |cs| && cs[i].id != id ==> cs'[i] == cs[i]
  {
    UpdateByIdKeepsKeys(cs, CircleId, id, c => ResizeCircle(c, p));
    UpdateById(cs, CircleId, id, c => ResizeCircle(c, p))
  }

  /** Only the head of the entry with the active id moves; length, order and ids are kept. */
  function MoveArrows(arrows: seq<Arrow>, id: ShapeId, p: Point): (arrows': seq<Arrow>)
    requires forall i :: 0 <= i < |arrows| ==> |arrows[i].points| >= 2
    ensures |arrows'| == |arrows| && Keys(arrows', ArrowId) == Keys(arrows, ArrowId)
    ensures forall i :: 0 <= i < |arrows| && arrows[i].id == id ==> arrows'[i] == MoveArrowHead(arrows[i], p)
    ensures forall i :: 0 <= i < |arrows| && arrows[i].id != id ==> arrows'[i] == arrows[i]
  {
    UpdateByIdKeepsKeys(arrows, ArrowId, id, (a: Arrow) requires |a.points| >= 2 => MoveArrowHead(a, p));
    UpdateById(arrows, ArrowId, id, (a: Arrow) requires |a.points| >= 2 => MoveArrowHead(a, p))
  }

  /** Only the entry with the active id grows; length, order and ids are kept. */
  function MoveScribbles(ss: seq<Scribble>, id: ShapeId, p: Point): (ss': seq<Scribble>)
    ensures |ss'| == |ss| && Keys(ss', ScribbleId) == Keys(ss, ScribbleId)
    ensures forall i :: 0 <= i < |ss| && ss[i].id == id ==> ss'[i] == ExtendScribble(ss[i], p)
    ensures forall i :: 0 <= i < |ss| && ss[i].id != id ==> ss'[i] == ss[i]
  {
    UpdateByIdKeepsKeys(ss, ScribbleId, id, s => ExtendScribble(s, p));
    UpdateById(ss, ScribbleId, id, s => ExtendScribble(s, p))
  }

  // ---------------------------------------------------------------------------------------
  // One gesture: the same entry following a sequence of pointer moves
  // ---------------------------------------------------------------------------------------

  function Last(path: seq<Point>): Point
    requires path != []
  {
    path[|path| - 1]
  }

  function DragRectangle(r: Rectangle, path: seq<Point>): Rectangle
    decreases |path|
  {
    if path == [] then r else DragRectangle(ResizeRectangle(r, path[0]), path[1..])
  }

  function DragCircle(c: Circle, path: seq<Point>): Circle
    decreases |path|
  {
    if path == [] then c else DragCircle(ResizeCircle(c, path[0]), path[1..])
  }

  function DragArrow(a: Arrow, path: seq<Point>): Arrow
    requires |a.points| >= 2
    decreases |path|
  {
    if path == [] then a else DragArrow(MoveArrowHead(a, path[0]), path[1..])
  }

  function DragScribble(s: Scribble, path: seq<Point>): Scribble
    decreases |path|
  {
    if path == [] then s else DragScribble(ExtendScribble(s, path[0]), path[1..])
  }

  /** The coordinates of a path, flattened in order. */
  function Flatten(path: seq<Point>): seq<int>
    decreases |path|
  {
    if path == [] then [] else [path[0].x, path[0].y] + Flatten(path[1..])
  }

  /** Whatever the direction of the drag, a rectangle never gets a negative width or height. */
  lemma {:induction false} DragRectangleNonNegative(r: Rectangle, path: seq<Point>)
    requires r.width >= 0 && r.height >= 0
    ensures DragRectangle(r, path).width >= 0 && DragRectangle(r, path).height >= 0
    ensures DragRectangle(r, path).id == r.id && DragRectangle(r, path).style == r.style
    decreases |path|
  {
    if path != [] {
      DragRectangleNonNegative(ResizeRectangle(r, path[0]), path[1..]);
    }
  }

  /**
   * While the pointer stays right of and below the stored corner, that corner stays put and
   * the rectangle spans from it to the last pointer position.
   */
  lemma {:induction false} DragDownRightKeepsCorner(r: Rectangle, path: seq<Point>)
    requires path != []
    requires forall i :: 0 <= i < |path| ==> path[i].x >= r.x && path[i].y >= r.y
    ensures DragRectangle(r, path).x == r.x && DragRectangle(r, path).y == r.y
    ensures DragRectangle(r, path).width == Last(path).x - r.x
    ensures DragRectangle(r, path).height == Last(path).y - r.y
    decreases |path|
  {
    var r1 := ResizeRectangle(r, path[0]);
    if |path| > 1 {
      assert r1.x == r.x && r1.y == r.y;
      DragDownRightKeepsCorner(r1, path[1..]);
      assert Last(path[1..]) == Last(path);
    }
  }

  /**
   * A drag to the upper left moves the stored corner with the pointer, so the next move measures
   * from there: pressed at (10, 10) and dragged left through (8, 10) to (6, 10), the rectangle is
   * 2 wide, not the 4 that separate the pointer from the press point.
   */
  lemma DragUpLeftMovesCorner(style: Style)
    ensures DragRectangle(Rectangle("r", 10, 10, 1, 1, 10, style), [Point(8, 10), Point(6, 10)])
         == Rectangle("r", 6, 10, 2, 0, 10, style)
  {
    var r0 := Rectangle("r", 10, 10, 1, 1, 10, style);
    var r1 := ResizeRectangle(r0, Point(8, 10));
    assert r1 == Rectangle("r", 8, 10, 2, 0, 10, style);
    assert [Point(8, 10), Point(6, 10)][1..] == [Point(6, 10)];
  }

  /** A circle centred at (100, 100) dragged to (103, 104) has radius 5: its squared radius is 25. */
  lemma CircleThreeFourFive(id: ShapeId, style: Style)
    ensures ResizeCircle(Circle(id, 100, 100, 1, style), Point(103, 104)).radiusSq == 5 * 5
  {
  }

  /** After any non-empty drag the circle keeps its centre and passes through the last pointer. */
  lemma {:induction false} DragCircleFollowsLast(c: Circle, path: seq<Point>)
    requires path != []
    ensures DragCircle(c, path).x == c.x && DragCircle(c, path).y == c.y
    ensures DragCircle(c, path).radiusSq == DistSq(Point(c.x, c.y), Last(path))
    ensures DragCircle(c, path).id == c.id && DragCircle(c, path).style == c.style
    decreases |path|
  {
    if |path| > 1 {
      DragCircleFollowsLast(ResizeCircle(c, path[0]), path[1..]);
      assert Last(path[1..]) == Last(path);
    }
  }

  /** After any non-empty drag the arrow keeps its tail and its head is the last pointer. */
  lemma {:induction false} DragArrowFollowsLast(a: Arrow, path: seq<Point>)
    requires |a.points| >= 2 && path != []
    ensures DragArrow(a, path).points == a.points[..2] + [Last(path).x, Last(path).y]
    ensures DragArrow(a, path).id == a.id && DragArrow(a, path).style == a.style
    decreases |path|
  {
    var a1 := MoveArrowHead(a, path[0]);
    if |path| > 1 {
      DragArrowFollowsLast(a1, path[1..]);
      assert Last(path[1..]) == Last(path);
      assert a1.points[..2] == a.points[..2];
    } else {
      assert a1.points == a1.points[..2] + a1.points[2..];
    }
  }

  /** A scribble records every pointer position of the drag, in order, after what it had. */
  lemma {:induction false} DragScribbleAppends(s: Scribble, path: seq<Point>)
    ensures DragScribble(s, path).points == s.points + Flatten(path)
    ensures |DragScribble(s, path).points| == |s.points| + 2 * |path|
    ensures DragScribble(s, path).id == s.id && DragScribble(s, path).style == s.style
    decreases |path|
  {
    if path != [] {
      var s1 := ExtendScribble(s, path[0]);
      DragScribbleAppends(s1, path[1..]);
      assert s1.points == s.points + [path[0].x, path[0].y];
      assert s.points + [path[0].x, path[0].y] + Flatten(path[1..]) == s.points + Flatten(path);
    }
  }
}
