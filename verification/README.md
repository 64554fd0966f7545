# whiteboard-it: the drawing state machine, in Dafny

whiteboard-it is a single-page whiteboard. The user picks a tool (select, rectangle, circle,
arrow, scribble) and a style (fill colour, stroke colour, corner radius "edge", stroke width),
then drags on the canvas. Pointer-down creates a degenerate shape under the pointer. Each
pointer-move reshapes that shape. Pointer-up ends the gesture. With the select tool, clicking a
shape hands it to the transformer, the on-canvas resize handle. All of this lives in
`src/App.jsx`, and this project models it.

The model has five modules:

- `Tools` (tools.dfy): the tool enumeration, with `Draws()` true for every tool but Select.
- `ShapeStore` (store.dfy): ids and the id-directed update that every pointer-move handler
  applies. The update maps over a collection, rewrites each entry whose id matches and keeps
  every other entry. The module also holds the facts about distinct ids.
- `Shapes` (shapes.dfy): the four shape records and the rule by which each kind follows the
  pointer. It has the collection updaters of a pointer-move, and the lemmas about a whole
  gesture, where one entry follows a sequence of pointer positions.
- `Render` (render.dfy): the only logic in the drawing layer. A rectangle is drawn only when
  its width and its height are both positive.
- `Board` (board.dfy): the `Whiteboard` class, which owns all the state. Its fields are the tool,
  the style, the four collections, `isPainting`, `currentShapeId` and the transformer's node
  list (`selection`). Each event handler is a method. Next to the class are the pure document
  updates of pointer-down and pointer-move (`StartShape`, `TrackPointer`), which the methods are
  proved against, and the invariant `Document.WellFormed`: ids are unique across the four
  collections, widths and heights are non-negative, squared circle radii are non-negative, arrows
  have four coordinates, and scribbles have an even number of coordinates, at least four.

A few behaviours of the code differ from what a user of a drawing tool might expect. The model
follows the code:

- A rectangle move measures from the rectangle's stored corner, not from the press point. After
  a drag to the upper left, the stored corner has moved to the pointer. The next move then
  measures from there. `Shapes.DragUpLeftMovesCorner` shows a drag left through (8, 10) to
  (6, 10) from a press at (10, 10): the rectangle ends up 2 wide, not 4.
  `Render.RepeatedUpLeftMoveHides` shows that two move events at the same position left of the
  stored corner give a zero width, which the render filter then hides. `Shapes.DragDownRightKeepsCorner` shows that
  drags to the lower right behave as described.
- A second pointer-down while a shape is still being drawn is not ignored. It appends another
  shape and makes that shape the active one.
- Pointer-up only clears `isPainting`. `currentShapeId` keeps the last id.
- A scribble starts with the four numbers x, y, x + 1, y + 1, not with a single point. A circle
  starts with radius exactly 1.
- The Select tool button changes the tool and keeps the selection. The four drawing-tool buttons
  and the export button clear the selection first.
- The render guard at line 388 tests the `isPainting` ref object itself, not its `.current`
  value. The object is always truthy, so only `width > 0 && height > 0` filters.

Pointer-up is idempotent. Its frame lets it change only `isPainting`, and its postcondition sets
that field to false, so a second call leaves the same state as the first.

## Model

| member | source | states |
|---|---|---|
| `ShapeStore.UpdateById` | src/App.jsx:109-121 | The updater keeps the collection's length and order. Each entry whose id is the active id becomes its updated copy; every other entry stays as it was. |
| `ShapeStore.UpdateByIdMissing` | src/App.jsx:110-121 | When no entry carries the active id (e.g. a move after the tool changed to another kind), the collection is unchanged. |
| `ShapeStore.UpdateByIdUnique` | src/App.jsx:110-121 | When ids are distinct and entry k carries the active id, k is the only such entry, and the result is the collection with just entry k replaced. |
| `ShapeStore.UpdateByIdKeepsKeys` | src/App.jsx:112-118 | An update that keeps ids (the object spread keeps `id`) leaves the ids of the collection unchanged. |
| `ShapeStore.DistinctInsert` | src/App.jsx:38-41 | Inserting a fresh id anywhere among distinct ids keeps them distinct. |
| `Shapes.ResizeRectangle` | src/App.jsx:112-118 | After a move, the rectangle spans exactly from its stored corner to the pointer on each axis: one end is the stored coordinate, the other is the pointer's. Width and height are therefore non-negative. Id, edge and style are unchanged. |
| `Shapes.ResizeCircle` | src/App.jsx:127-132 | The centre, id and style stay. The pointer lies on the new circle (its squared distance to the centre is the squared radius). The radius is zero exactly when the pointer is at the centre. |
| `Shapes.MoveArrowHead` | src/App.jsx:140-145 | The arrow keeps its first two coordinates (the tail), and its head becomes the pointer. It has exactly four coordinates afterwards. |
| `Shapes.ExtendScribble` | src/App.jsx:153-158 | The old points are a prefix of the new ones, the pointer's x and y follow them, and the length grows by exactly 2. |
| `Shapes.MoveRectangles` | src/App.jsx:108-122 | The rectangle with the active id is resized; the length, the ids and every other rectangle are unchanged. |
| `Shapes.MoveCircles` | src/App.jsx:124-135 | The circle with the active id is resized; the length, the ids and every other circle are unchanged. |
| `Shapes.MoveArrows` | src/App.jsx:137-148 | The head of the arrow with the active id moves; the length, the ids and every other arrow are unchanged. |
| `Shapes.MoveScribbles` | src/App.jsx:150-161 | The scribble with the active id grows; the length, the ids and every other scribble are unchanged. |
| `Shapes.DragRectangleNonNegative` | src/App.jsx:114-117 | Over any sequence of moves, in any direction, width and height stay non-negative, and id and style stay. |
| `Shapes.DragDownRightKeepsCorner` | src/App.jsx:114-117 | While every pointer position is right of and below the stored corner, the corner stays put, and the rectangle spans from it to the last pointer position. |
| `Shapes.DragUpLeftMovesCorner` | src/App.jsx:114-117 | Pressed at (10, 10) and dragged left through (8, 10) to (6, 10), the rectangle sits at (6, 10) and is 2 wide: the stored corner moved with the pointer. |
| `Shapes.CircleThreeFourFive` | src/App.jsx:130 | A circle centred at (100, 100) and moved to (103, 104) has squared radius 25, i.e. radius 5. |
| `Shapes.DragCircleFollowsLast` | src/App.jsx:124-135 | After any non-empty sequence of moves, the circle keeps its centre, id and style, and passes through the last pointer position. |
| `Shapes.DragArrowFollowsLast` | src/App.jsx:137-148 | After any non-empty sequence of moves, the arrow keeps its tail, id and style, and its head is the last pointer position; earlier positions leave no trace. |
| `Shapes.DragScribbleAppends` | src/App.jsx:150-161 | After a sequence of moves, the scribble's points are its old points followed by every pointer position in order. The length grows by 2 per move, and nothing is rewritten. |
| `Render.DrawnRectangles` | src/App.jsx:387-389 | A rectangle is drawn if and only if it is stored and has positive width and height. |
| `Render.DrawnRectanglesConcat` | src/App.jsx:387-389 | The filter keeps store order: filtering two collections in turn gives the filtered first followed by the filtered second. The drawing order, and so the stacking, is therefore the store order. |
| `Render.DrawnRectanglesAppend` | src/App.jsx:387-389 | A rectangle appended to the store is drawn last, on top of every other rectangle, if it is visible; otherwise the drawn list is unchanged. |
| `Render.ResizedVisibleIff` | src/App.jsx:388 | After a move, the rectangle is drawn exactly when the pointer is off both lines through its stored corner. |
| `Render.RepeatedUpLeftMoveHides` | src/App.jsx:114-117 | Two move events at the same position left of the stored corner give a rectangle of width 0, which is not drawn. |
| `Board.AddRectangle` | src/App.jsx:45-58 | Appending a rectangle with a fresh id and non-negative size keeps the document well formed. The new id sits between the rectangle ids and the others. |
| `Board.AddCircle` | src/App.jsx:61-72 | Appending a circle with a fresh id keeps the document well formed. |
| `Board.AddArrow` | src/App.jsx:76-85 | Appending a four-coordinate arrow with a fresh id keeps the document well formed. |
| `Board.AddScribble` | src/App.jsx:88-97 | Appending a scribble with a fresh id and an even number (at least four) of coordinates keeps the document well formed. |
| `Board.RectangleMoveRewritesOne` | src/App.jsx:109-121 | In a well-formed document, a rectangle move rewrites exactly the one rectangle with the active id. |
| `Board.MoveRectanglesWellFormed` | src/App.jsx:109-122 | A rectangle move keeps every id and keeps the document well formed. |
| `Board.MoveCirclesWellFormed` | src/App.jsx:125-135 | A circle move keeps every id and keeps the document well formed. |
| `Board.MoveArrowsWellFormed` | src/App.jsx:138-148 | An arrow move keeps every id and keeps the document well formed. |
| `Board.MoveScribblesWellFormed` | src/App.jsx:151-161 | A scribble move keeps every id and keeps the document well formed. |
| `Board.StartShape` | src/App.jsx:43-99 | Pointer-down with a drawing tool keeps the document well formed, and the fresh id is now in use. |
| `Board.StartShapeAppends` | src/App.jsx:43-99 | Pointer-down appends exactly one entry to the tool's collection: it has the fresh id, degenerate geometry at the press point (1 by 1 rectangle, radius-1 circle, or points x, y, x + 1, y + 1) and the current style. The other three collections are unchanged. |
| `Board.TrackPointer` | src/App.jsx:107-163 | Pointer-move with a drawing tool keeps every id and keeps the document well formed. |
| `Board.TrackPointerUpdates` | src/App.jsx:107-163 | Pointer-move changes only the collection of the active tool, by that tool's updater keyed by the active id. |
| `Board.RectangleGesture` | src/App.jsx:33-164 | Pressing at (10, 10), moving to (50, 80) and then to (5, 5) gives (10, 10, 1, 1), then (10, 10, 40, 70), then (5, 5, 5, 5), and this rectangle is the only shape. |
| `Board.Whiteboard.constructor` | src/App.jsx:17-28 | Initial state: Select tool, fill #ffc9c9, stroke #B92929, edge 10, stroke width 3, empty collections, not painting, no active id, nothing selected. |
| `Board.Whiteboard.PointerDown` | src/App.jsx:33-100 | With Select, nothing changes. Otherwise the document becomes `StartShape` of the old one with the current style, `isPainting` is set and the fresh id becomes the active id, even if a gesture was already under way. The tool, the style and the selection are untouched. |
| `Board.Whiteboard.PointerMove` | src/App.jsx:101-164 | With Select, or when not painting, nothing changes. Otherwise the document becomes `TrackPointer` of the old one for the active tool and id. Only the collections may change. |
| `Board.Whiteboard.PointerUp` | src/App.jsx:166-168 | Sets `isPainting` to false and changes nothing else, so calling it twice is the same as calling it once. |
| `Board.Whiteboard.Click` | src/App.jsx:180-188 | With Select, the selection becomes exactly [target], replacing any earlier one. With any other tool it is unchanged. |
| `Board.Whiteboard.BackgroundClick` | src/App.jsx:382-384 | A click on the background empties the selection. |
| `Board.Whiteboard.ChooseTool` | src/App.jsx:196-257 | The tool becomes the chosen one. A drawing tool empties the selection; Select keeps it. |
| `Board.Whiteboard.ExportClick` | src/App.jsx:259-262 | The export button empties the selection. |
| `Board.Whiteboard.SetFillColor` | src/App.jsx:290-299 | Only the fill colour of the current style changes. Existing shapes keep theirs. |
| `Board.Whiteboard.SetStrokeColor` | src/App.jsx:274-283 | Only the stroke colour of the current style changes. Existing shapes keep theirs. |
| `Board.Whiteboard.SetEdge` | src/App.jsx:306-322 | Only the corner radius for new rectangles changes. |
| `Board.Whiteboard.SetStrokeWidth` | src/App.jsx:345-355 | Only the stroke width of the current style changes. Existing shapes keep theirs. |

## Left out

- Export (src/App.jsx:170-178): the snapshot as a data URL and the download through a temporary
  link are browser and canvas I/O. `ExportClick` models only the selection being cleared.
- Rendering: the JSX, the Konva nodes, the SVG icons and the Tailwind classes. The exception is
  the rectangle filter, modelled by `Render.DrawnRectangles`.
- The transformer's drag and resize geometry and the `draggable` flag. They belong to the Konva
  library. The transformer is modelled only by its node list.
- Id generation with `uuidv4`: the fresh id is a parameter, required not to be in use yet.
- Pointer coordinates are integers, not floating-point numbers.
- React state updates are modelled as immediate field updates. Batching and deferred setters
  are not modelled.
- The `console.log` call in the click handler.
- tailwind.config.js: static colour configuration, with no logic.
- Shapes.ResizeCircle: stores the squared radius instead of the floating-point square root the
  code computes. The drawn radius is the square root of `radiusSq`, and the initial radius 1 is
  the same either way.
- Board.Whiteboard.Click: the clicked node is modelled by the id of its shape. The code wires
  the handler only to shape nodes, and the model does not require the id to be in use.
- Shapes.MoveArrows: requires every arrow to have at least two coordinates, the two the code
  reads. Every arrow the board creates has four (`Document.WellFormed`).
