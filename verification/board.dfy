/**
 * The whiteboard's single owner of state: the active tool, the style applied to new shapes, the
 * four shape collections, the painting flag with the id of the shape being drawn, and the node
 * list of the transformer (the selection). Each pointer, click and toolbar handler is a method.
 */
module Board {
  import Tools
  import opened ShapeStore
  import opened Shapes

  datatype Option<T> = None | Some(value: T)

  /** The four collections, as the canvas reads them. */
  datatype Document = Document(
    rectangles: seq<Rectangle>, circles: seq<Circle>, arrows: seq<Arrow>, scribbles: seq<Scribble>)
  {
    /** Every id in use, across the four collections. */
    function Ids(): seq<ShapeId>
    {
      Keys(rectangles, RectangleId) + Keys(circles, CircleId) + Keys(arrows, ArrowId) + Keys(scribbles, ScribbleId)
    }

    /** Ids are unique across all four collections, and every entry has the shape its kind keeps. */
    predicate WellFormed()
    {
      Distinct(Ids()) &&
      RectanglesWellFormed(rectangles) && CirclesWellFormed(circles) &&
      ArrowsWellFormed(arrows) && ScribblesWellFormed(scribbles)
    }
  }

  predicate RectanglesWellFormed(rs: seq<Rectangle>)
  {
    forall i :: 0 <= i < |rs| ==> rs[i].width >= 0 && rs[i].height >= 0
  }

  predicate CirclesWellFormed(cs: seq<Circle>)
  {
    forall i :: 0 <= i < |cs| ==> cs[i].radiusSq >= 0
  }

  predicate ArrowsWellFormed(arrows: seq<Arrow>)
  {
    forall i :: 0 <= i < |arrows| ==> |arrows[i].points| == 4
  }

  predicate ScribblesWellFormed(ss: seq<Scribble>)
  {
    forall i :: 0 <= i < |ss| ==> |ss[i].points| >= 4 && |ss[i].points| % 2 == 0
  }

  /** In a well-formed document each collection has distinct ids on its own. */
  lemma CollectionsDistinct(d: Document)
    requires d.WellFormed()
    ensures Distinct(Keys(d.rectangles, RectangleId)) && Distinct(Keys(d.circles, CircleId))
    ensures Distinct(Keys(d.arrows, ArrowId)) && Distinct(Keys(d.scribbles, ScribbleId))
  {
    var r, c, a, s := Keys(d.rectangles, RectangleId), Keys(d.circles, CircleId), Keys(d.arrows, ArrowId), Keys(d.scribbles, ScribbleId);
    DistinctSplit(r + c + a, s);
    DistinctSplit(r + c, a);
    DistinctSplit(r, c);
  }

  /**
   * In a well-formed document a rectangle move rewrites exactly the one rectangle that carries
   * the active id and leaves every other entry as it was.
   */
  lemma RectangleMoveRewritesOne(d: Document, id: ShapeId, p: Point, k: nat)
    requires d.WellFormed() && k < |d.rectangles| && d.rectangles[k].id == id
    ensures MoveRectangles(d.rectangles, id, p) == d.rectangles[k := ResizeRectangle(d.rectangles[k], p)]
  {
    CollectionsDistinct(d);
    UpdateByIdUnique(d.rectangles, RectangleId, id, r => ResizeRectangle(r, p), k);
  }

  // ---------------------------------------------------------------------------------------
  // Appending a new shape with a fresh id keeps the document well formed
  // ---------------------------------------------------------------------------------------

  lemma AddRectangle(d: Document, e: Rectangle)
    requires d.WellFormed() && e.id !in d.Ids() && e.width >= 0 && e.height >= 0
    ensures d.(rectangles := d.rectangles + [e]).WellFormed()
    ensures d.(rectangles := d.rectangles + [e]).Ids() == Keys(d.rectangles, RectangleId) + [e.id] +
      (Keys(d.circles, CircleId) + Keys(d.arrows, ArrowId) + Keys(d.scribbles, ScribbleId))
  {
    var r, c, a, s := Keys(d.rectangles, RectangleId), Keys(d.circles, CircleId), Keys(d.arrows, ArrowId), Keys(d.scribbles, ScribbleId);
    KeysAppend(d.rectangles, RectangleId, e);
    assert r + (c + a + s) == d.Ids();
    DistinctInsert(r, c + a + s, e.id);
    assert d.(rectangles := d.rectangles + [e]).Ids() == r + [e.id] + (c + a + s);
  }

  lemma AddCircle(d: Document, e: Circle)
    requires d.WellFormed() && e.id !in d.Ids() && e.radiusSq >= 0
    ensures d.(circles := d.circles + [e]).WellFormed()
    ensures d.(circles := d.circles + [e]).Ids() == Keys(d.rectangles, RectangleId) + Keys(d.circles, CircleId) + [e.id] +
      (Keys(d.arrows, ArrowId) + Keys(d.scribbles, ScribbleId))
  {
    var r, c, a, s := Keys(d.rectangles, RectangleId), Keys(d.circles, CircleId), Keys(d.arrows, ArrowId), Keys(d.scribbles, ScribbleId);
    KeysAppend(d.circles, CircleId, e);
    assert (r + c) + (a + s) == d.Ids();
    DistinctInsert(r + c, a + s, e.id);
    assert d.(circles := d.circles + [e]).Ids() == (r + c) + [e.id] + (a + s);
  }

  lemma AddArrow(d: Document, e: Arrow)
    requires d.WellFormed() && e.id !in d.Ids() && |e.points| == 4
    ensures d.(arrows := d.arrows + [e]).WellFormed()
    ensures d.(arrows := d.arrows + [e]).Ids() ==
      Keys(d.rectangles, RectangleId) + Keys(d.circles, CircleId) + Keys(d.arrows, ArrowId) + [e.id] + Keys(d.scribbles, ScribbleId)
  {
    var r, c, a, s := Keys(d.rectangles, RectangleId), Keys(d.circles, CircleId), Keys(d.arrows, ArrowId), Keys(d.scribbles, ScribbleId);
    KeysAppend(d.arrows, ArrowId, e);
    DistinctInsert(r + c + a, s, e.id);
    assert d.(arrows := d.arrows + [e]).Ids() == (r + c + a) + [e.id] + s;
  }

  lemma AddScribble(d: Document, e: Scribble)
    requires d.WellFormed() && e.id !in d.Ids() && |e.points| >= 4 && |e.points| % 2 == 0
    ensures d.(scribbles := d.scribbles + [e]).WellFormed()
    ensures d.(scribbles := d.scribbles + [e]).Ids() == d.Ids() + [e.id]
  {
    KeysAppend(d.scribbles, ScribbleId, e);
    assert d.Ids() + [] == d.Ids();
    DistinctInsert(d.Ids(), [], e.id);
    assert d.(scribbles := d.scribbles + [e]).Ids() == d.Ids() + [e.id] + [];
  }

  // ---------------------------------------------------------------------------------------
  // A pointer move keeps the ids and keeps the document well formed
  // ---------------------------------------------------------------------------------------

  lemma MoveRectanglesWellFormed(d: Document, id: ShapeId, p: Point)
    requires d.WellFormed()
    ensures d.(rectangles := MoveRectangles(d.rectangles, id, p)).WellFormed()
    ensures d.(rectangles := MoveRectangles(d.rectangles, id, p)).Ids() == d.Ids()
  {
    var rs := MoveRectangles(d.rectangles, id, p);
    forall i | 0 <= i < |rs| ensures rs[i].width >= 0 && rs[i].height >= 0 {
      if d.rectangles[i].id == id { assert rs[i] == ResizeRectangle(d.rectangles[i], p); }
    }
  }

  lemma MoveCirclesWellFormed(d: Document, id: ShapeId, p: Point)
    requires d.WellFormed()
    ensures d.(circles := MoveCircles(d.circles, id, p)).WellFormed()
    ensures d.(circles := MoveCircles(d.circles, id, p)).Ids() == d.Ids()
  {
    var cs := MoveCircles(d.circles, id, p);
    forall i | 0 <= i < |cs| ensures cs[i].radiusSq >= 0 {
      if d.circles[i].id == id { assert cs[i] == ResizeCircle(d.circles[i], p); }
    }
  }

  lemma MoveArrowsWellFormed(d: Document, id: ShapeId, p: Point)
    requires d.WellFormed()
    ensures d.(arrows := MoveArrows(d.arrows, id, p)).WellFormed()
    ensures d.(arrows := MoveArrows(d.arrows, id, p)).Ids() == d.Ids()
  {
    var arrows := MoveArrows(d.arrows, id, p);
    forall i | 0 <= i < |arrows| ensures |arrows[i].points| == 4 {
      if d.arrows[i].id == id { assert arrows[i] == MoveArrowHead(d.arrows[i], p); }
    }
  }

  lemma MoveScribblesWellFormed(d: Document, id: ShapeId, p: Point)
    requires d.WellFormed()
    ensures d.(scribbles := MoveScribbles(d.scribbles, id, p)).WellFormed()
    ensures d.(scribbles := MoveScribbles(d.scribbles, id, p)).Ids() == d.Ids()
  {
    var ss := MoveScribbles(d.scribbles, id, p);
    forall i | 0 <= i < |ss| ensures |ss[i].points| >= 4 && |ss[i].points| % 2 == 0 {
      if d.scribbles[i].id == id { assert ss[i] == ExtendScribble(d.scribbles[i], p); }
    }
  }

  // ---------------------------------------------------------------------------------------
  // The document updates of one pointer event
  // ---------------------------------------------------------------------------------------

  /**
   * Pointer-down with a drawing tool: one degenerate shape with the fresh id and the given
   * style is appended to the collection of that tool; the other three are untouched.
   */
  function StartShape(d: Document, tool: Tools.Action, id: ShapeId, p: Point, style: Style, edge: int): (d': Document)
    requires tool.Draws() && d.WellFormed() && id !in d.Ids()
    ensures d'.WellFormed() && id in d'.Ids()
  {
    match tool
    case Rectangle =>
      var e := Rectangle(id, p.x, p.y, 1, 1, edge, style);
      AddRectangle(d, e);
      d.(rectangles := d.rectangles + [e])
    case Circle =>
      var e := Circle(id, p.x, p.y, 1, style);
      AddCircle(d, e);
      d.(circles := d.circles + [e])
    case Arrow =>
      var e := Arrow(id, [p.x, p.y, p.x + 1, p.y + 1], style);
      AddArrow(d, e);
      d.(arrows := d.arrows + [e])
    case Scribble =>
      var e := Scribble(id, [p.x, p.y, p.x + 1, p.y + 1], style);
      AddScribble(d, e);
      d.(scribbles := d.scribbles + [e])
  }

  /**
   * Pointer-move with a drawing tool: the collection of that tool has its entry with the active
   * id updated by the tool's rule; the ids and the other three collections are untouched.
   */
  function TrackPointer(d: Document, tool: Tools.Action, id: ShapeId, p: Point): (d': Document)
    requires tool.Draws() && d.WellFormed()
    ensures d'.WellFormed() && d'.Ids() == d.Ids()
  {
    match tool
    case Rectangle =>
      MoveRectanglesWellFormed(d, id, p);
      d.(rectangles := MoveRectangles(d.rectangles, id, p))
    case Circle =>
      MoveCirclesWellFormed(d, id, p);
      d.(circles := MoveCircles(d.circles, id, p))
    case Arrow =>
      MoveArrowsWellFormed(d, id, p);
      d.(arrows := MoveArrows(d.arrows, id, p))
    case Scribble =>
      MoveScribblesWellFormed(d, id, p);
      d.(scribbles := MoveScribbles(d.scribbles, id, p))
  }

  /**
   * What a pointer-down appends: one entry with the fresh id, degenerate geometry at the press
   * point (a 1 by 1 rectangle, a circle of radius 1, or the points x, y, x + 1, y + 1) and the
   * given style, at the end of the tool's collection; the other three collections are untouched.
   */
  lemma StartShapeAppends(d: Document, tool: Tools.Action, id: ShapeId, p: Point, style: Style, edge: int)
    requires tool.Draws() && d.WellFormed() && id !in d.Ids()
    ensures var d' := StartShape(d, tool, id, p, style, edge);
      d'.rectangles == d.rectangles +
        (if tool == Tools.Rectangle then [Rectangle(id, p.x, p.y, 1, 1, edge, style)] else []) &&
      d'.circles == d.circles +
        (if tool == Tools.Circle then [Circle(id, p.x, p.y, 1, style)] else []) &&
      d'.arrows == d.arrows +
        (if tool == Tools.Arrow then [Arrow(id, [p.x, p.y, p.x + 1, p.y + 1], style)] else []) &&
      d'.scribbles == d.scribbles +
        (if tool == Tools.Scribble then [Scribble(id, [p.x, p.y, p.x + 1, p.y + 1], style)] else [])
  {
  }

  /**
   * What a pointer-move changes: only the collection of the active tool, by that tool's
   * updater keyed by the active id.
   */
  lemma TrackPointerUpdates(d: Document, tool: Tools.Action, id: ShapeId, p: Point)
    requires tool.Draws() && d.WellFormed()
    ensures var d' := TrackPointer(d, tool, id, p);
      d'.rectangles == (if tool == Tools.Rectangle then MoveRectangles(d.rectangles, id, p) else d.rectangles) &&
      d'.circles == (if tool == Tools.Circle then MoveCircles(d.circles, id, p) else d.circles) &&
      d'.arrows == (if tool == Tools.Arrow then MoveArrows(d.arrows, id, p) else d.arrows) &&
      d'.scribbles == (if tool == Tools.Scribble then MoveScribbles(d.scribbles, id, p) else d.scribbles)
  {
  }

  class Whiteboard {
    var action: Tools.Action
    var fillColor: Color
    var strokeColor: Color
    var edge: int
    var strokeWidth: int

    var rectangles: seq<Rectangle>
    var circles: seq<Circle>
    var arrows: seq<Arrow>
    var scribbles: seq<Scribble>

    var isPainting: bool
    var currentShapeId: Option<ShapeId>
    var selection: seq<ShapeId>

    function Doc(): Document
      reads this
    {
      Document(rectangles, circles, arrows, scribbles)
    }

    /** The style a shape created now would copy. */
    function CurrentStyle(): Style
      reads this
    {
      Style(fillColor, strokeColor, strokeWidth)
    }

    /** The shape being drawn, if any, is in the store, and at most one node is selected. */
    ghost predicate Valid()
      reads this
    {
      Doc().WellFormed() &&
      (isPainting ==> currentShapeId.Some?) &&
      (currentShapeId.Some? ==> currentShapeId.value in Doc().Ids()) &&
      |selection| <= 1
    }

    /** The board as the page first shows it. */
    constructor ()
      ensures Valid()
      ensures action == Tools.Select
      ensures fillColor == "#ffc9c9" && strokeColor == "#B92929" && edge == 10 && strokeWidth == 3
      ensures Doc() == Document([], [], [], [])
      ensures !isPainting && currentShapeId == None && selection == []
    {
      action := Tools.Select;
      fillColor, strokeColor, edge, strokeWidth := "#ffc9c9", "#B92929", 10, 3;
      rectangles, circles, arrows, scribbles := [], [], [], [];
      isPainting, currentShapeId, selection := false, None, [];
    }

    /**
     * Pointer pressed at `p`; `id` stands for the freshly generated identifier. With a drawing
     * tool, one degenerate shape carrying the current style is appended to the collection of that
     * tool, and it becomes the shape being drawn, even if another was still being drawn.
     */
    method PointerDown(p: Point, id: ShapeId)
      requires Valid()
      requires id !in Doc().Ids()
      modifies this`rectangles, this`circles, this`arrows, this`scribbles, this`isPainting, this`currentShapeId
      ensures Valid()
      ensures !action.Draws() ==>
        Doc() == old(Doc()) && isPainting == old(isPainting) && currentShapeId == old(currentShapeId)
      ensures action.Draws() ==>
        Doc() == StartShape(old(Doc()), action, id, p, old(CurrentStyle()), edge) &&
        isPainting && currentShapeId == Some(id)
    {
      if action.Draws() {
        var d := StartShape(Doc(), action, id, p, CurrentStyle(), edge);
        rectangles, circles, arrows, scribbles := d.rectangles, d.circles, d.arrows, d.scribbles;
        currentShapeId, isPainting := Some(id), true;
        assert Doc() == d;
      }
    }

    /**
     * Pointer moved to `p`. Only while painting with a drawing tool: the collection of the active
     * tool has its entry carrying the active id updated by that kind's rule; nothing else changes.
     */
    method PointerMove(p: Point)
      requires Valid()
      modifies this`rectangles, this`circles, this`arrows, this`scribbles
      ensures Valid()
      ensures !action.Draws() || !isPainting ==> Doc() == old(Doc())
      ensures action.Draws() && isPainting ==> Doc() == TrackPointer(old(Doc()), action, currentShapeId.value, p)
    {
      if action.Draws() && isPainting {
        var d := TrackPointer(Doc(), action, currentShapeId.value, p);
        rectangles, circles, arrows, scribbles := d.rectangles, d.circles, d.arrows, d.scribbles;
        assert Doc() == d;
      }
    }

    /** Pointer released: the gesture ends; no shape changes and the active id is kept. */
    method PointerUp()
      requires Valid()
      modifies this`isPainting
      ensures Valid()
      ensures !isPainting
    {
      isPainting := false;
    }

    /** A shape node was clicked: with the Select tool it becomes the only selected node. */
    method Click(target: ShapeId)
      requires Valid()
      modifies this`selection
      ensures Valid()
      ensures selection == if action == Tools.Select then [target] else old(selection)
    {
      if action == Tools.Select {
        selection := [target];
      }
    }

    /** The white background was clicked: nothing is selected any more. */
    method BackgroundClick()
      requires Valid()
      modifies this`selection
      ensures Valid()
      ensures selection == []
    {
      selection := [];
    }

    /** A toolbar tool button: the drawing tools also clear the selection, Select keeps it. */
    method ChooseTool(tool: Tools.Action)
      requires Valid()
      modifies this`action, this`selection
      ensures Valid()
      ensures action == tool
      ensures selection == if tool.Draws() then [] else old(selection)
    {
      if tool.Draws() {
        selection := [];
      }
      action := tool;
    }

    /** The export button clears the selection before the snapshot is taken. */
    method ExportClick()
      requires Valid()
      modifies this`selection
      ensures Valid()
      ensures selection == []
    {
      selection := [];
    }

    method SetFillColor(color: Color)
      requires Valid()
      modifies this`fillColor
      ensures Valid()
      ensures CurrentStyle() == old(CurrentStyle()).(fillColor := color)
    {
      fillColor := color;
    }

    method SetStrokeColor(color: Color)
      requires Valid()
      modifies this`strokeColor
      ensures Valid()
      ensures CurrentStyle() == old(CurrentStyle()).(strokeColor := color)
    {
      strokeColor := color;
    }

    method SetEdge(radius: int)
      requires Valid()
      modifies this`edge
      ensures Valid()
      ensures edge == radius
    {
      edge := radius;
    }

    method SetStrokeWidth(width: int)
      requires Valid()
      modifies this`strokeWidth
      ensures Valid()
      ensures CurrentStyle() == old(CurrentStyle()).(strokeWidth := width)
    {
      strokeWidth := width;
    }
  }

  /**
   * A rectangle gesture on an empty document: press at (10, 10), move to (50, 80), move to
   * (5, 5). The rectangle is 1 by 1 at the press point, then 40 by 70 at (10, 10), then 5 by 5
   * at (5, 5), and it stays the only shape.
   */
  lemma RectangleGesture(style: Style, edge: int)
    ensures var d1 := StartShape(Document([], [], [], []), Tools.Rectangle, "r1", Point(10, 10), style, edge);
      var d2 := TrackPointer(d1, Tools.Rectangle, "r1", Point(50, 80));
      var d3 := TrackPointer(d2, Tools.Rectangle, "r1", Point(5, 5));
      d1.rectangles == [Rectangle("r1", 10, 10, 1, 1, edge, style)] &&
      d2.rectangles == [Rectangle("r1", 10, 10, 40, 70, edge, style)] &&
      d3 == Document([Rectangle("r1", 5, 5, 5, 5, edge, style)], [], [], [])
  {
    var d0 := Document([], [], [], []);
    assert d0.Ids() == [];
    var d1 := StartShape(d0, Tools.Rectangle, "r1", Point(10, 10), style, edge);
    StartShapeAppends(d0, Tools.Rectangle, "r1", Point(10, 10), style, edge);
    var d2 := TrackPointer(d1, Tools.Rectangle, "r1", Point(50, 80));
    TrackPointerUpdates(d1, Tools.Rectangle, "r1", Point(50, 80));
    assert d2.rectangles[0] == ResizeRectangle(d1.rectangles[0], Point(50, 80));
    var d3 := TrackPointer(d2, Tools.Rectangle, "r1", Point(5, 5));
    TrackPointerUpdates(d2, Tools.Rectangle, "r1", Point(5, 5));
    assert d3.rectangles[0] == ResizeRectangle(d2.rectangles[0], Point(5, 5));
  }
}
