# Hilbert curve and Pythagoras tree, modelled in Dafny

The repository draws two fractals.

- `hilbert_curve.py`: a `Curve` object walks a turtle (an angle, a position
  and a list of visited corners). `makeCurve` recurses four ways and turns by
  ±90 degrees between the quarters. `newPosition` moves one segment.
  `makeImage` chooses a start corner for the rotation. `drawCurve` strokes
  every segment in passes of shrinking width and blends the colours.
  `drawLine` pushes each segment's ends out by half the stroke width. The GUI
  changes the thickness with `+` and `-` and reads a rotation of 0..360.
- `pythagoras_tree.py`: a `Square` has a side, four corners, an order and an
  angle. `rotateSquare` turns the corners about one of them with a 3×3 affine
  matrix and `matrixMultiplication`. `makeTree` appends the two children of
  each square, depth first, to a shared list. `Tree.firstSquare` places the
  root. `Tree.drawTree` fills level i with the root colour plus i steps
  towards the branch colour. The GUI accepts each branch angle in 0..90.

The model keeps each file's form.

- The curve is a class `HilbertCurve.Curve`, with the fields the Python
  methods update. Each method is proved against a pure specification.
- `HilbertTurtle.Run` is makeCurve's recursion over a turtle value.
- `HilbertPath.Hilbert` is the closed form of the curve: four transformed
  copies of the curve one order down.
- `HilbertDraw.Drawing` is the list of strokes drawCurve issues.
- The squares are a class `PythagorasSquare.Square`, and the tree is a class
  `PythagorasTree.Tree`.
- `PythagorasSquare.Descendants` is the pre-order list that makeTree appends.
- `PythagorasTree.TreeDrawing` is the picture drawTree paints.
- `Matrix.MatrixMultiplication` keeps the source's triple loop.
- Python's `int()` on a float is `Colour.Trunc`, which truncates toward zero.
  `int()` on a text is `PyInt.ParseInt`.

Modelling choices:

- Headings of the curve are whole degrees that are multiples of 90. For
  those, `int(cos(radians(h)) * size)` and `int(sin(...) * size)` are
  exactly 0 or ±size, so points are integer pairs.
- The tree works on real coordinates. `sin`, `cos` (of whole degrees) and
  `sqrt` are parameters, a value of `PythagorasSquare.Maths`.
  `ValidMaths` states what the proofs need of them:
  - sin² + cos² = 1;
  - sin 0 = 0;
  - sin is positive on (0, 180];
  - sqrt is the non-negative root.
- Drawing is a log of values. A stroke is two end points, a width and a
  colour. A polygon is corners, an outline and a fill.

## Model

| member | source | states |
|---|---|---|
| HilbertCurve.Curve.constructor | hilbert_curve.py:114-136 | the given order, position, angle and size; white and black colours, green background, thickness 26, empty lineList |
| HilbertCurve.Curve.NewPosition | hilbert_curve.py:168-180 | the position moves by size along the unit vector of the heading and nothing else changes |
| HilbertCurve.Curve.MakeCurve | hilbert_curve.py:139-166 | the turtle ends in the state `Run` gives for `order - depth` levels, and the heading is still a multiple of 90 that matches the angle |
| HilbertTurtle.Unfold | hilbert_curve.py:153-166 | one level of makeCurve is: turn by -90f, the four sub-curves with moves and turns between them, turn by -90f |
| HilbertTurtle.RunDraws | hilbert_curve.py:139-166 | makeCurve with k levels left appends exactly the curve `Hilbert(k, …)` from the current position, ends at its last point `End`, and restores angle and heading |
| HilbertTurtle.Headings | hilbert_curve.py:153-166 | the four turns of a level give the headings of the quarter frames, and the net turn is zero |
| HilbertTurtle.OrderOne | hilbert_curve.py:139-183 | with one level left and factor 1 from p, makeCurve visits p, p + n·u, p + n·u + n·v, p + n·v (v the heading, u a quarter turn clockwise), ends at p + n·v and restores the angle |
| HilbertPath.HilbertOne | hilbert_curve.py:149-166 | the order-1 curve is the start followed by the starts of the other three quarters |
| HilbertPath.HilbertLength | hilbert_curve.py:149-166 | a curve of order k has exactly 4^k points |
| HilbertPath.HilbertFirst | hilbert_curve.py:149-151 | the first point of the curve is the start position |
| HilbertPath.HilbertLast | hilbert_curve.py:163-166 | the last point of the curve is where the pen ends, since no move follows the fourth quarter |
| HilbertPath.EndFormula | hilbert_curve.py:153-166 | the pen ends (2^k - 1)·size along the heading from where it started |
| HilbertPath.SideFormula | hilbert_curve.py:225 | the side of the square an order-k curve fills is (2^k - 1)·size, makeImage's sideLength |
| HilbertPath.Start2At | hilbert_curve.py:155-158 | the second quarter starts one quarter side plus one segment across the frame |
| HilbertPath.Start3At | hilbert_curve.py:159-161 | the third quarter starts one quarter side plus one segment across and along |
| HilbertPath.Start4At | hilbert_curve.py:161-165 | the fourth quarter starts one quarter side across and two quarter sides plus one segment along |
| HilbertPath.HilbertSteps | hilbert_curve.py:150-166 | consecutive points differ by exactly one move of size along one of the frame's four directions |
| HilbertPath.HilbertStepsTo | hilbert_curve.py:150-166 | the moves stay single steps when the next quarter's first point follows the curve |
| HilbertPath.HilbertInSquare | hilbert_curve.py:149-166 | every point of the curve lies in the square of side (2^k - 1)·size spanned by the frame at the start |
| HilbertPath.HeadingUnit | hilbert_curve.py:178-180 | the direction of every angle, reduced by a % that is never negative as Python's is, is one of the four unit axis vectors |
| HilbertPath.AlignedHeading | hilbert_curve.py:153-180 | the recursive heading invariant holds exactly when the angle is a multiple of 90 and the vector is its heading |
| HilbertPath.AlignedTurn | hilbert_curve.py:153-166 | a turn by ±90 keeps the angle a multiple of 90 and turns the heading vector with it |
| HilbertCurve.Curve.MakeImage | hilbert_curve.py:217-249 | the image side is (2^order - 1)·size + 2·size; the angle is unchanged; lineList is exactly the curve from the start corner, so two calls give the same list; the pen ends at its end; the strokes are the drawing of that list, which is None (ZeroDivisionError) for order 0, and for size 0 with a positive thickness |
| HilbertCurve.ImageRun | hilbert_curve.py:244-247 | makeCurve(0, 1) from the start corner with an empty lineList gives the image curve and its end |
| HilbertCurve.StartCornerAgrees | hilbert_curve.py:232-244 | the quadrant choice on angle % 360 agrees with the case split as written on 0..359 and differs at 360 |
| HilbertCurve.FrameAt | hilbert_curve.py:227-244 | for each of the four headings, the heading, the frame's first axis and the start corner |
| HilbertCurve.CurveFitsCanvas | hilbert_curve.py:225-247 | with the reduced start corner, every point of the curve lies within the gap of size around the canvas |
| HilbertCurve.PointOnCanvas | hilbert_curve.py:225-244 | a point of the frame's square lies between gap and gap + side on both axes |
| HilbertCurve.CurveDrawable | hilbert_curve.py:185-273 | for a non-zero size, an image curve has 4^order points and unit moves; drawCurve fails exactly for order 0, and otherwise every stroke is horizontal or vertical and drawLine can draw it |
| HilbertCurve.ZeroSizeFails | hilbert_curve.py:213-266 | a curve of size 0 (which the save dialog can set) fails to draw exactly when its order is 0 or its thickness is positive: its corners repeat, and drawLine divides by a zero length |
| HilbertCurve.FullTurnLeavesCanvas | hilbert_curve.py:232-247 | as written, angle 360 starts the curve at the far corner heading +x, so its last point lies outside the canvas |
| HilbertCurve.LastCorner | hilbert_curve.py:163-166 | the last point is the start moved (2^k - 1)·size along the heading |
| HilbertCurve.Curve.DrawCurve | hilbert_curve.py:185-215 | the strokes issued are exactly `Drawing(style, lineList)`: None when lineList has one point, or at the first stroke between two equal consecutive points (divisions by zero); otherwise the passes in order |
| HilbertCurve.DrawPass | hilbert_curve.py:203-215 | one pass draws segments 1..n-1 in order, each from point j - 1 to point j with width thickness - i; it fails iff two consecutive points are equal |
| HilbertDraw.Passes | hilbert_curve.py:202 | `range(0, thickness, 2)` has ceil(thickness / 2) values, and none for a thickness ≤ 0 |
| HilbertDraw.PassStrokesContent | hilbert_curve.py:203-215 | one pass draws segments 1..j in order, each from point j - 1 to point j |
| HilbertDraw.PassesStrokesContent | hilbert_curve.py:202-215 | p passes draw p·(n - 1) strokes; stroke q·(n-1) + m joins points m and m+1 with pass 2q's width and fill |
| HilbertDraw.DrawingStrokes | hilbert_curve.py:195-266 | drawCurve fails iff there is exactly one point, or the thickness is positive and two consecutive points are equal (drawLine divides by the segment's length); otherwise it issues ceil(thickness/2)·(n - 1) strokes of width thickness - 2q with the blended fill, none with equal ends, or none at all for an empty list or a thickness ≤ 0 |
| HilbertDraw.UnitStepsNoRepeat | hilbert_curve.py:264-266 | points one move of a non-zero size apart are never equal, so drawLine's length is never zero |
| HilbertDraw.PassesWidths | hilbert_curve.py:202-214 | every width lies between thickness - 2(p - 1) and thickness |
| HilbertDraw.StrokeWidths | hilbert_curve.py:202-214 | every stroke drawCurve issues has a width between 1 and thickness |
| HilbertDraw.PassesFollowSegments | hilbert_curve.py:203-215 | every stroke joins two consecutive points of lineList |
| HilbertDraw.ChannelBetween | hilbert_curve.py:200-210 | the colour at segment j lies between the start and end colours |
| HilbertDraw.ChannelAtEnd | hilbert_curve.py:200-210 | at the last segment the colours are exactly endMidColour and endEdgeColour |
| HilbertDraw.ChannelConstant | hilbert_curve.py:200-210 | with equal start and end colours every segment has that colour |
| HilbertDraw.BlendBetween | hilbert_curve.py:212-215 | the colour of pass i, edge + (i + 1)·(mid - edge)/thickness, lies between edge and mid |
| HilbertDraw.FillValid | hilbert_curve.py:199-215 | with valid colours every fill, truncated by int(), is a valid RGB colour |
| HilbertDraw.DrawLine | hilbert_curve.py:251-273 | a horizontal or vertical stroke has no line exactly when its ends coincide (division by a zero length) |
| HilbertDraw.DrawLineExtends | hilbert_curve.py:264-273 | for a horizontal or vertical stroke of non-zero length in any of the four directions, the normalised vector d is a unit vector with to - from = length·d, the line drawn is the stroke with each end moved out by width / 2 along d, and it is width longer than the stroke |
| HilbertDraw.DrawingDrawable | hilbert_curve.py:213-266 | on a list with unit moves every stroke is axis-aligned and has a line |
| Colour.Trunc | hilbert_curve.py:213-215 | int() on a float truncates toward zero: the result is within 1 of x, on the side of zero |
| Colour.TruncBetween | hilbert_curve.py:215 | a value between two non-negative integer bounds keeps them once truncated |
| HilbertCurve.Curve.PressKey | hilbert_curve.py:498-513 | the thickness after a key is `ThicknessAfterKey` of the one before |
| HilbertCurve.ThicknessKeepsShape | hilbert_curve.py:506-513 | from a positive thickness ≡ 2 (mod 4), such as 26, either key keeps it positive and ≡ 2 (mod 4), so the keys alone reach only such thicknesses; '-' lowers it unless it is 2, '+' raises it |
| HilbertCurve.MinusKeepsPositive | hilbert_curve.py:509-512 | whatever the thickness, '-' leaves it positive; it lowers a thickness above 4 and sets one of at most 4 to 2 |
| HilbertCurve.ThicknessKeysUndo | hilbert_curve.py:506-513 | '+' then '-' restores any positive thickness; '-' then '+' restores any thickness above 4 |
| HilbertCurve.Curve.SetRotation | hilbert_curve.py:455-470 | the text is accepted iff int() reads it as 0..360; then angle and heading follow it, otherwise neither changes |
| HilbertCurve.RotationOf | hilbert_curve.py:462-468 | an accepted rotation lies in 0..360 |
| HilbertCurve.RotationOfShow | hilbert_curve.py:462-468 | every 0..360 written out is accepted as itself; larger and negative numbers are refused |
| HilbertCurve.RotationAcceptsFullTurn | hilbert_curve.py:463-466 | "360" is accepted as a rotation of 360 |
| PyInt.ParseShow | hilbert_curve.py:463 | int() reads back what str() writes, with or without a minus sign |
| PyInt.ParseSpacedSign | hilbert_curve.py:463 | Python 2's int() also reads a sign separated from the digits by white space: "- n" is -n and "+ n" is n |
| PyInt.Strip | hilbert_curve.py:463 | int() skips surrounding white space: what is left neither starts nor ends with white space, and is empty only for a blank text |
| PythagorasSquare.Square.constructor | pythagoras_tree.py:131-145 | the square has the given corners and order, angle 0, and as side the distance from corner 0 to corner 1 |
| PythagorasSquare.Square.RotateSquare | pythagoras_tree.py:147-166 | the corners become the four corners turned about corner k, each computed through matrixMultiplication |
| PythagorasSquare.MatrixTurns | pythagoras_tree.py:157-166 | the column-major matrix applied to the column (x, y, 1) is the rotation about the pivot |
| PythagorasSquare.RotateAboutFixes | pythagoras_tree.py:159-163 | the pivot corner does not move |
| PythagorasSquare.RotateAboutKeepsDistance | pythagoras_tree.py:157-163 | with sin² + cos² = 1 the turn keeps the distance between any two points |
| PythagorasSquare.RotatedIsRigid | pythagoras_tree.py:164-166 | after rotateSquare corner k is unchanged and all distances between corners are kept |
| PythagorasSquare.RotatedSquare | pythagoras_tree.py:164-166 | a square of side d stays a square of side d |
| PythagorasSquare.Square.MakeTree | pythagoras_tree.py:183-218 | the list keeps its prefix and gains exactly `Descendants` of the square in pre-order; the square itself is unchanged |
| PythagorasSquare.Square.LeftSquare | pythagoras_tree.py:201-206 | a fresh square equal to the left child; no square in the list changes |
| PythagorasSquare.Square.RightSquare | pythagoras_tree.py:210-215 | a fresh square equal to the right child; no square in the list changes |
| PythagorasSquare.DescendantsOf | pythagoras_tree.py:207-217 | the appended list is the left child, its subtree, the right child, its subtree |
| PythagorasSquare.DescendantsCount | pythagoras_tree.py:198-218 | a square of order s in a tree of order n gets 2^(n - s + 1) - 2 descendants |
| PythagorasSquare.DescendantsOrders | pythagoras_tree.py:198-213 | every descendant has an order above its ancestor's and at most the tree's, and four corners |
| PythagorasSquare.ChildrenOnTopEdge | pythagoras_tree.py:202-215 | the left child's corner 0 is the parent's corner 3, the right child's corner 1 the parent's corner 2; the angles accumulate as parent - L and parent + R |
| PythagorasSquare.ChildrenAreSquares | pythagoras_tree.py:201-215 | for angles in 0..90 with L + R < 180, both children are squares whose sides are side·sin R / sin(180 - L - R) and side·sin L / sin(180 - L - R) |
| PythagorasSquare.SidesNonNegative | pythagoras_tree.py:201-210 | for such angles the divisor is positive and the child sides are non-negative |
| Matrix.MatrixMultiplication | pythagoras_tree.py:317-341 | None iff len(matrix1) != len(matrix2[0]); otherwise len(matrix2) columns of len(matrix1[0]) entries with result[j][i] = Σ_k matrix1[k][i]·matrix2[j][k] |
| Matrix.AffineColumn | pythagoras_tree.py:161-166 | a 3×3 column-major matrix times the column (x, y, 1) gives a·x + b·y + t in each entry |
| PythagorasTree.Tree.constructor | pythagoras_tree.py:243-267 | the given order, colours, outline, background, angles and scale; both offsets 0 |
| PythagorasTree.Tree.FirstSquare | pythagoras_tree.py:269-283 | a fresh square equal to the root |
| PythagorasTree.FirstCorners | pythagoras_tree.py:278-283 | four corners (x1,y1), (x2,y1), (x2,y2), (x1,y2) with x2 - x1 = y1 - y2 = w/8·scale, centred on w/2 + dx, base at 0.8·h + dy |
| PythagorasTree.FirstCornersSquare | pythagoras_tree.py:278-283 | those corners form a square of side w/8·scale |
| PythagorasTree.RootSquare | pythagoras_tree.py:278-283 | the root has order 0, angle 0 and side \|w/8·scale\|, and is a square |
| PythagorasTree.Tree.DrawTree | pythagoras_tree.py:285-315 | the picture is exactly `TreeDrawing` of the tree's attributes: None when makeTree divides by zero, otherwise the levels drawn in order |
| PythagorasTree.Tree.DrawLevels | pythagoras_tree.py:303-312 | levels 0..order drawn in ascending order, level i with the fill of level i |
| PythagorasTree.Tree.DrawLevel | pythagoras_tree.py:310-312 | the squares of the level, in list order, with the outline and the level's fill |
| PythagorasTree.StepsFill | pythagoras_tree.py:303-309 | the fill computed from steps worked out before the loop is the fill of the level |
| PythagorasTree.SquaresCount | pythagoras_tree.py:299-301 | drawTree's list holds 2^(order+1) - 1 squares, with orders in 0..order and four corners each |
| PythagorasTree.TreeDrawsEachOnce | pythagoras_tree.py:306-312 | drawing level after level paints every square exactly once, with the fill of its own order |
| PythagorasTree.TreeDrawingShape | pythagoras_tree.py:297-315 | None iff order > 0 and sin(180 - (L + R)) = 0; otherwise the picture has the size and background asked for and 2^(order+1) - 1 polygons, each square painted once |
| PythagorasTree.TreeOfOrderZero | pythagoras_tree.py:303-312 | a tree of order 0 is one polygon, the root, in rootColour |
| PythagorasTree.LevelFillEnds | pythagoras_tree.py:303-309 | level 0 is filled with rootColour exactly; for order > 0 level `order` is filled with branchColour |
| PythagorasTree.LevelChannelBetween | pythagoras_tree.py:305-309 | every level's channel lies between the root's and the branch's |
| PythagorasTree.LevelFillValid | pythagoras_tree.py:305-309 | with valid colours every level's fill is a valid RGB colour |
| PythagorasTree.Tree.ChangeAngleL | pythagoras_tree.py:548-564 | the text is accepted iff int() reads it as 0..90; then angleL is that number, otherwise unchanged |
| PythagorasTree.Tree.ChangeAngleR | pythagoras_tree.py:572-588 | the text is accepted iff int() reads it as 0..90; then angleR is that number, otherwise unchanged |
| PythagorasTree.AngleOf | pythagoras_tree.py:556-561 | an accepted angle lies in 0..90 |
| PythagorasTree.AngleOfShow | pythagoras_tree.py:556-561 | every 0..90 written out is accepted as itself; larger and negative numbers are refused |
| PythagorasTree.AcceptedAnglesDraw | pythagoras_tree.py:556-564 | for angles in 0..90 with L + R < 180 the divisor sin(180 - (L + R)) of makeTree is positive and drawTree draws |
| PythagorasTree.RightAnglesFail | pythagoras_tree.py:548-588 | both entries accept 90, and with L = R = 90 and order > 0 drawTree fails |
| PythagorasTree.GuardedAngleOf | pythagoras_tree.py:556-564 | an angle accepted with the guard is in 0..90 and leaves the two angles' sum below 180 |
| PythagorasTree.GuardedAnglesDraw | pythagoras_tree.py:548-588 | with the guard, every accepted change of either angle leaves a tree that draws, and 90 next to 90 is refused |

## Left out

- The Tk GUI is not modelled: windows, colour choosers, the order menu, mouse
  and arrow-key offsets, focus handling and save dialogs. Only the thickness
  keys and the rotation and angle entries are kept. The `updateImage()` calls
  that follow them redraw and are not modelled.
- PIL is not modelled (`Image.new`, `draw.line`, `draw.polygon`, `resize`,
  `img.save`, the PhotoImage conversion). Drawing is modelled as a log of
  strokes and polygons, and saving is left out.
- The branch of `newPosition` for headings that are not multiples of 90
  (hilbert_curve.py:181-183) works in floating point. It is not modelled.
- HilbertCurve.Curve.MakeImage: requires an angle that is a multiple of 90,
  because the curve is modelled only on the integer grid. The rotation entry
  accepts any 0..360, and other angles are not covered.
- HilbertCurve.Curve.MakeImage: chooses the start corner from angle % 360,
  the corrected choice under "## Findings". As written, angle 360 starts
  elsewhere.
- HilbertCurve.Curve.NewPosition: requires a heading vector that matches an
  angle that is a multiple of 90, for the same reason.
- HilbertCurve.Curve.MakeImage: the image side leaves out the cos + sin
  factor and `math.ceil` of `imageSize`. For multiples of 90 that factor is
  exactly 1.
- The `saveIt` rescaling of size and thickness is an export concern and is
  not modelled (hilbert_curve.py:565-579, pythagoras_tree.py:739-754).
- Angles are whole degrees, and `math.radians` is not modelled. sin, cos and
  sqrt are exact functions on reals, given as parameters. Their
  floating-point rounding is not modelled, nor whether `int(cos(...) * size)`
  lands on 0 at odd multiples of 90.
- HilbertDraw.ChannelAtEnd and PythagorasTree.LevelFillEnds: the colour
  gradients (`HilbertDraw.Channel`, `HilbertDraw.Blend`,
  `PythagorasTree.LevelChannel`) are computed on exact reals, so the last
  segment is exactly endMidColour and endEdgeColour and level `order`
  exactly branchColour. Python computes `start - ((start - end) / float(n -
  1)) * j` and `root + ((branch - root) / float(order)) * i` in doubles,
  which can land just below a whole number (1 / 49.0 * 49 is
  0.9999999999999999), and `int()` then gives one less. That rounding is not
  modelled.
- The hexadecimal halves of the colour tuples are not modelled, nor
  `storeOutlineColour` or `mousePosition`. A colour is its RGB triple, and an
  absent outline is `None`.
- HilbertDraw.DrawLine: models only horizontal and vertical strokes, where
  the square root of the length is exact. These are the only strokes a curve
  on the grid produces.
- PyInt.ParseInt: reads ASCII decimal digits, a sign, ASCII white space
  around the whole and white space between the sign and the digits, as
  Python 2's `int()` does. Unicode digits and spaces, which `int()` accepts
  in a unicode text, are not modelled. This parser decides what the rotation
  entry (`HilbertCurve.Curve.SetRotation`) and the two angle entries
  (`PythagorasTree.Tree.ChangeAngleL`, `PythagorasTree.Tree.ChangeAngleR`)
  accept.
- Matrix.MatrixMultiplication: requires a non-empty matrix2. When the shapes
  match, it also requires rows long enough to read. On the other inputs
  Python raises IndexError.
- PythagorasSquare.Square.MakeTree: requires a non-zero divisor while
  children remain to be made. Where the divisor is zero, drawTree's
  ZeroDivisionError is modelled by `DrawTree` returning None before the call.
- Tree.drawSquare's call into PIL is modelled as the polygon value it would
  draw.

## Findings

| source | as written | input that shows it | evidently intended | confidence | as-written member | corrected member |
|---|---|---|---|---|---|---|
| hilbert_curve.py:232-244 | the rotation entry accepts 360, and makeImage picks the start corner from the unreduced angle, so 360 falls in the last case (x = cos, y = cos + sin) | angle 360, order ≥ 1: the curve starts at the far corner (gap + side, gap + side) heading +x, and its last point lies at x = gap + 2·side ≥ side + 2·gap, the canvas's width, so outside the image | pick the corner from angle % 360, so 360 draws like 0 | high (not executed) | HilbertCurve.FullTurnLeavesCanvas | HilbertCurve.CurveFitsCanvas |
| pythagoras_tree.py:548-588 | each branch angle is checked alone against 0..90, so both can be 90 | angleL = angleR = 90 and order ≥ 1: makeTree divides by sin(radians(180 - 180)) = 0 and drawTree raises ZeroDivisionError | refuse an angle that brings the sum to 180 | high (not executed) | PythagorasTree.RightAnglesFail | PythagorasTree.GuardedAnglesDraw |
