# Fractal tree and moving circles, modelled in Dafny

The repository holds two small GUI demos. This project models the logic of each one without the GUI toolkit.

- `circles.dfy`, module `Circles`, models `moving_circles.py`. The class `MovingCircles` is the interaction state machine. Its states are `WaitingForFirstClick`, `WaitingForSecondClick` and `DraggingCircles`. It stores the two circle centres, the label position and the squared distance, and keeps a canvas of tagged items. The tags are `circle1`, `circle2`, `line` and `text`. Each item records the geometry it was drawn with. `Valid()` is the object invariant: the canvas equals `Scene(state, center1, center2)`, and while dragging, the label reflects the current centres. The tkinter operations `canvas.move` and `canvas.delete` become the functions `Moved` and `Deleted` on the item list.
- `fractal.dfy`, module `Fractal`, models `fractal_tree.py`.
  - The class `FractalTree` holds `currentLevelsOfRecursion` and the list of lines on its canvas.
  - `Branches` gives the lines that one call of `draw_fractal` appends. The method `DrawFractal` mirrors the recursive procedure. Its contract says it appends exactly `Branches`.
  - Angles are integer multiples of `angleFactor` (pi/5) counted from pi/2. Points are symbolic: `Tip(from, angle, length)` stands for the endpoint that `cos`/`sin` would compute.
  - `Valid()` says two things. The level is never negative. The canvas holds the trees of levels 0 to n, where n is the current level, because `advance` never clears.

The tkinter canvas is an ordered display list, so each model keeps its canvas as a sequence. `Count` (per tag) and membership give the multiset view.

`advance` does not clear the canvas: the `delete('branches')` at fractal_tree.py:51 is commented out, so each new tree is drawn over the earlier ones. `Drawn` models this accumulation, and `DrawnLooksLikeTree` shows that the distinct lines on the canvas are still exactly those of a fresh tree at the current level.

## Model

| member | source | states |
|---|---|---|
| `Circles.BoundingBox` | moving_circles.py:57-61 | the oval's box is centred on the click point and is 2 * radius wide and high, with radius 20 |
| `Circles.CenterOfBoundingBox` | moving_circles.py:57-61 | the centre can be read back from a circle's box |
| `Circles.DragDelta` | moving_circles.py:91-93 | the offset a drag applies carries the old centre onto the new one (old + delta = new) |
| `Circles.ShiftBoundingBox` | moving_circles.py:91-94 | moving a circle's box by the drag offset gives the box around the new centre |
| `Circles.SquaredDistance` | moving_circles.py:84 | the squared distance is non-negative and is zero exactly when the centres coincide |
| `Circles.SquaredDistanceSymmetric` | moving_circles.py:84 | the distance does not depend on the order of the centres |
| `Circles.Midpoint` | moving_circles.py:86 | the label position is equally far from both centres on each axis (true division, so halves are kept) |
| `Circles.LineText` | moving_circles.py:83-87 | `get_line_text` draws exactly one item tagged `line` and one tagged `text`, and nothing with a circle tag |
| `Circles.MidpointExample` | moving_circles.py:84-86 | centres (100,100) and (100,300) give distance 200 and a label at (100,200) |
| `Circles.MoveItem` | moving_circles.py:94 | `canvas.move` shifts an item with the tag by the offset (an oval's box, both ends of a line, a label's position) and leaves any other item alone, never changing a tag |
| `Circles.Moved` | moving_circles.py:94 | `canvas.move` keeps the canvas length and order and moves each item in place |
| `Circles.Deleted` | moving_circles.py:104 | `canvas.delete('line','text')` never lengthens the canvas, and no surviving item carries a deleted tag |
| `Circles.DeletedMembers` | moving_circles.py:95 | an item survives `canvas.delete('line','text')` exactly when it was there and carries neither tag |
| `Circles.DeletedNone` | moving_circles.py:95 | deleting tags that no item carries leaves the canvas unchanged |
| `Circles.DeletedAll` | moving_circles.py:95 | deleting tags that every item carries empties the canvas |
| `Circles.CountMoved` | moving_circles.py:94 | moving items changes no tag's item count |
| `Circles.CountDeleted` | moving_circles.py:95 | after a delete, the deleted tags have no items and every other tag keeps its count |
| `Circles.DragRedrawCounts` | moving_circles.py:94-96 | on any canvas, a drag leaves exactly one line and one label, and the circle counts are unchanged |
| `Circles.SceneCounts` | moving_circles.py:54-79 | circle 1 exists from the second state on; circle 2, the line and the label exist only while dragging; there is never more than one of each |
| `Circles.DragKeepsCircles` | moving_circles.py:94-95 | moving one circle and deleting the line and label leaves just the two circles, in order |
| `Circles.DragCircle1Scene` | moving_circles.py:89-96 | dragging circle 1 produces exactly the scene for the new centre 1 and the unchanged centre 2 |
| `Circles.DragCircle2Scene` | moving_circles.py:98-105 | dragging circle 2 produces exactly the scene for the unchanged centre 1 and the new centre 2 |
| `Circles.MovingCircles.constructor` | moving_circles.py:39-41 | a new window waits for the first click with nothing drawn |
| `Circles.MovingCircles.Clear` | moving_circles.py:45-48 | from any state: empty canvas, state `WaitingForFirstClick`, stored centres and label kept |
| `Circles.MovingCircles.MousedownHandler` | moving_circles.py:54-79 | first click: centre 1 set and one circle 1 added, then the second state; second click: centre 2 set, centre 1 kept, circle 2, line and label added, then dragging; a click while dragging changes nothing |
| `Circles.MovingCircles.GetLineText` | moving_circles.py:81-87 | appends a line between the current centres and a label at their midpoint with their distance, and stores both |
| `Circles.MovingCircles.MoveCircle1` | moving_circles.py:89-96 | centre 1 becomes the drag point and centre 2 is kept; the canvas is moved, the line and label are deleted and redrawn; exactly one line and one label result, and the invariant is kept |
| `Circles.MovingCircles.MoveCircle2` | moving_circles.py:98-105 | the same as MoveCircle1 for circle 2 |
| `Fractal.Branches` | fractal_tree.py:63-72 | a call draws nothing when its depth is negative and exactly 2^(depth+1) - 1 lines otherwise |
| `Fractal.FirstBranch` | fractal_tree.py:63-69 | a call with depth >= 0 first draws its own segment from its start point |
| `Fractal.TreeZero` | fractal_tree.py:45 | the level-0 tree is just the root branch the constructor draws |
| `Fractal.InBranches` | fractal_tree.py:63-72 | a line of a call is its own segment or a line of one of its two sub-calls |
| `Fractal.BranchLevel` | fractal_tree.py:63-72 | every line lies at some recursion level j below the call, with 0 <= j <= depth |
| `Fractal.BranchScaled` | fractal_tree.py:71-72 | a line at level j is the call's length scaled j times by sizeFactor |
| `Fractal.BranchLength` | fractal_tree.py:71-72 | a line at level j is `branch_l * sizeFactor^j` long |
| `Fractal.ScaledIsPower` | fractal_tree.py:71-72 | scaling by sizeFactor j times is the same as multiplying by sizeFactor^j |
| `Fractal.BranchAngle` | fractal_tree.py:71-72 | a line at level j is within j angleFactor steps of the call's angle, with the parity of j |
| `Fractal.ChildOfParent` | fractal_tree.py:66-72 | only the first line starts at the call's start; every other line starts where a line of the call ends, is sizeFactor times as long, and is turned by exactly +angleFactor or -angleFactor |
| `Fractal.ParentHasChildren` | fractal_tree.py:66-72 | every line above the deepest level has both its children, turned by +angleFactor and by -angleFactor |
| `Fractal.BranchesGrow` | fractal_tree.py:63-72 | a call one level deeper draws every line of the shallower call |
| `Fractal.Tree` | fractal_tree.py:53 | the full tree that `advance` and `reset` draw at level n has 2^(n+1) - 1 lines |
| `Fractal.Drawn` | fractal_tree.py:49-53 | after n advances since the start or a reset, the canvas holds 2^(n+2) - n - 3 lines, the trees of levels 0 to n |
| `Fractal.DrawnLooksLikeTree` | fractal_tree.py:49-53 | the distinct lines after n advances are exactly those of a fresh tree at level n |
| `Fractal.FractalTree.constructor` | fractal_tree.py:44-45 | the level starts at 0 and the canvas holds the root branch alone |
| `Fractal.FractalTree.DrawFractal` | fractal_tree.py:55-72 | the recursive procedure appends exactly `Branches(start, branchL, angle, depth)` to the canvas |
| `Fractal.FractalTree.Advance` | fractal_tree.py:49-53 | the level goes up by one; a full tree at the new level is appended and nothing is removed, so the canvas grows by 2^(level+1) - 1 lines; the level stays non-negative |
| `Fractal.FractalTree.Reset` | fractal_tree.py:74-78 | the canvas is cleared, the level becomes 0, and exactly the root branch remains |

## Left out

- Window, frame, button and canvas construction, the `grid` layout, `tk.mainloop()`, and the `bind` and `tag_bind` wiring. These are GUI toolkit plumbing. The model assumes the wiring: a click calls `MousedownHandler`, and a drag can reach `MoveCircle1`/`MoveCircle2` only while dragging. That is why the two move methods require `state == DraggingCircles`.
- `quit` in both demos, because destroying the window has no state to model.
- Canvas item ids. `canvas.move(self.circle1, …)` moves an item by its id. The model moves by tag instead. Exactly one item carries each circle tag, so the two agree.
- `Circles.SquaredDistance`: the label shows `sqrt` of this value formatted with `"{:.2f}"`. Floating-point square roots and string formatting are not modelled.
- `Circles.GetLineText`: the source takes `center1` and `center2` as parameters but ignores them and reads the stored centres. Every caller passes the stored centres, so the model has no parameters.
- Before the first click, the source has no `center1`, `center2`, `distance` or `txt_center`. The constructor sets placeholder values, and `Valid()` does not constrain them in `WaitingForFirstClick`. `clear` keeps the old centres, as the source does.
- Colours, fill, fonts and the `branches` tag. They are presentational.
- `Fractal.BranchLength`: `math.cos`/`math.sin` endpoints and float coordinates are not computed. The model uses a symbolic endpoint `Tip`, and lengths and the factor 0.58 are exact reals rather than floats.
- `Fractal.FractalTree.constructor`: the source draws the root branch with fixed end coordinates, not through `draw_fractal`. The model draws the same segment symbolically, as the level-0 tree.
- Recursion depth is unbounded in the source. The model keeps this: it has no cap and no stack limit.
