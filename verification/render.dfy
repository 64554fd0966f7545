/**
 * The one piece of logic in the drawing layer: a rectangle is handed to the canvas only when it
 * has a positive width and a positive height. Circles, arrows and scribbles are always drawn.
 */
module Render {
  import opened Shapes

  predicate Visible(r: Rectangle)
  {
    r.width > 0 && r.height > 0
  }

  /** The rectangles that are drawn, in store order. */
  function DrawnRectangles(rs: seq<Rectangle>): (ds: seq<Rectangle>)
    ensures |ds| <= |rs|
    ensures forall r :: r in ds <==> r in rs && Visible(r)
    decreases |rs|
  {
    if rs == [] then []
    else if Visible(rs[0]) then [rs[0]] + DrawnRectangles(rs[1..])
    else DrawnRectangles(rs[1..])
  }

  /**
   * The filter keeps store order, which is the drawing (stacking) order: filtering two
   * collections one after the other gives the filtered first followed by the filtered second.
   */
  lemma {:induction false} DrawnRectanglesConcat(a: seq<Rectangle>, b: seq<Rectangle>)
    ensures DrawnRectangles(a + b) == DrawnRectangles(a) + DrawnRectangles(b)
    decreases |a|
  {
    if a != [] {
      assert (a + b)[1..] == a[1..] + b;
      DrawnRectanglesConcat(a[1..], b);
    } else {
      assert a + b == b;
    }
  }

  /** A rectangle appended to the store is drawn last, on top of all others, or not at all. */
  lemma DrawnRectanglesAppend(rs: seq<Rectangle>, r: Rectangle)
    ensures DrawnRectangles(rs + [r]) == DrawnRectangles(rs) + (if Visible(r) then [r] else [])
  {
    DrawnRectanglesConcat(rs, [r]);
    assert [r][1..] == [];
  }

  /** After a move, a rectangle is drawn exactly when the pointer is off both lines through its stored corner. */
  lemma ResizedVisibleIff(r: Rectangle, p: Point)
    ensures Visible(ResizeRectangle(r, p)) <==> p.x != r.x && p.y != r.y
  {
  }

  /**
   * Two move events at the same position up-left of the stored corner hide the rectangle: the
   * first moves the corner onto the pointer, the second measures a zero width from it.
   */
  lemma RepeatedUpLeftMoveHides(r: Rectangle, p: Point)
    requires p.x < r.x
    ensures !Visible(ResizeRectangle(ResizeRectangle(r, p), p))
  {
  }
}
