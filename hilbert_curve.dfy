/** Class Curve of hilbert_curve.py and the two editing rules of its window
    that change a curve (the rotation entry and the +/- keys).

    A Curve keeps its order, the current position and heading of the pen,
    the segment length, four colours, the line thickness and lineList, the
    corners reached so far. makeCurve moves the pen through the recursion
    and appends corners, newPosition moves it one segment, makeImage places
    the pen so that the curve fits the picture and draws it with drawCurve.

    Only headings of whole quarter turns are modelled: newPosition's branch
    for other headings works on floats. With such headings every coordinate
    the source computes is a whole number, so positions are integer points.
    The ghost field `heading` is the direction vector (cos, sin) of `angle`;
    `State()` is the pen as the pure description in HilbertTurtle sees it. */
module HilbertCurve {
  import opened Colour
  import opened PyInt
  import opened HilbertPath
  import opened HilbertTurtle
  import opened HilbertDraw

  const White := Rgb(255, 255, 255)
  const Black := Rgb(0, 0, 0)
  const Green := Rgb(0, 255, 0)

  /** Thickness of a new curve. */
  const DefaultThickness := 26

  class Curve {
    const order: nat
    var position: Point
    var angle: int
    const size: int
    var midColour: Rgb
    var edgeColour: Rgb
    var endMidColour: Rgb
    var endEdgeColour: Rgb
    var background: Rgb
    var thickness: int
    var lineList: seq<Point>
    ghost var heading: Point

    ghost function State(): Turtle
      reads this
    {
      Turtle(angle, heading, position, lineList)
    }

    function Style(): Style
      reads this
    {
      HilbertDraw.Style(midColour, edgeColour, endMidColour, endEdgeColour, thickness)
    }

    /** A curve with white centre, black edges, a green background, thickness
        26 and no corners yet. */
    constructor (order: nat, position: Point, angle: int, size: int)
      ensures this.order == order && this.position == position && this.angle == angle && this.size == size
      ensures midColour == White && edgeColour == Black && endMidColour == White && endEdgeColour == Black
      ensures background == Green && thickness == DefaultThickness && lineList == []
      ensures heading == Heading(angle)
    {
      this.order := order;
      this.position := position;
      this.angle := angle;
      this.size := size;
      midColour := White;
      edgeColour := Black;
      endMidColour := White;
      endEdgeColour := Black;
      background := Green;
      thickness := DefaultThickness;
      lineList := [];
      heading := Heading(angle);
    }

    /** newPosition for a heading of whole quarter turns: the position moves
        by (int(cos(angle) * size), int(sin(angle) * size)), which is size
        along the heading. */
    method NewPosition()
      requires Aligned(angle, heading)
      modifies this`position
      ensures position == Plus(old(position), Scale(Heading(angle), size))
      ensures State() == Forward(old(State()), size)
    {
      AlignedHeading(angle, heading);
      var d := Heading(angle);
      position := Point(position.x + d.x * size, position.y + d.y * size);
    }

    /** makeCurve(depth, factor): the recursion turns by -90 factor, draws a
        sub-curve, moves, turns back, draws two sub-curves with a move between,
        turns and moves, draws the last sub-curve and turns back; at depth
        `order` it appends the position to lineList. The new state is the pure
        description Run of the same recursion, so by RunDraws it has appended
        the corners Hilbert(order - depth, ...) and come back to its heading. */
    method MakeCurve(depth: nat, factor: int)
      requires depth <= order
      requires factor == 1 || factor == -1
      requires Aligned(angle, heading)
      modifies this`angle, this`heading, this`position, this`lineList
      ensures State() == Run(old(State()), order - depth, factor, size)
      ensures Aligned(angle, heading)
      decreases order - depth
    {
      if depth == order {
        lineList := lineList + [position];
        return;
      }
      ghost var t0 := State();
      ghost var a1, w1 := angle, heading;
      angle, heading := angle - factor * 90, Rotate(heading, -factor);
      AlignedTurn(a1, angle, w1, -factor);
      assert State() == Turn(t0, -factor);
      MakeCurve(depth + 1, -factor);
      ghost var t1 := State();
      NewPosition();
      ghost var a2, w2 := angle, heading;
      angle, heading := angle + factor * 90, Rotate(heading, factor);
      AlignedTurn(a2, angle, w2, factor);
      assert State() == Turn(Forward(t1, size), factor);
      MakeCurve(depth + 1, factor);
      ghost var t2 := State();
      NewPosition();
      assert State() == Forward(t2, size);
      MakeCurve(depth + 1, factor);
      ghost var t3 := State();
      ghost var a3, w3 := angle, heading;
      angle, heading := angle + factor * 90, Rotate(heading, factor);
      AlignedTurn(a3, angle, w3, factor);
      NewPosition();
      assert State() == Forward(Turn(t3, factor), size);
      MakeCurve(depth + 1, -factor);
      ghost var t4 := State();
      ghost var a4, w4 := angle, heading;
      angle, heading := angle - 90 * factor, Rotate(heading, -factor);
      AlignedTurn(a4, angle, w4, -factor);
      assert State() == Turn(t4, -factor);
      Unfold(t0, order - depth, factor, size, t1, t2, t3, t4);
    }

    /** drawCurve: for every pass i = 0, 2, .. below the thickness and every
        segment j = 1 .. n - 1 one stroke; None when lineList has exactly one
        corner, where the gradient step divides by len(lineList) - 1 == 0, or
        at the first stroke whose two corners are equal, where drawLine
        divides by the segment's length 0. */
    method DrawCurve() returns (strokes: Option<seq<Stroke>>)
      ensures strokes == Drawing(Style(), lineList)
    {
      var pts, st := lineList, Style();
      var n := |pts|;
      if n == 1 {
        return None;
      }
      var out: seq<Stroke> := [];
      var i := 0;
      while i < st.thickness
        invariant 0 <= i && i % 2 == 0 && (i == 0 || i <= st.thickness + 1)
        invariant i > 0 && n > 0 ==> !HasRepeat(pts)
        invariant n == 0 || st.thickness <= 0 ==> out == []
        invariant n > 0 && st.thickness > 0 ==> out == PassesStrokes(st, pts, i / 2)
      {
        if n > 0 {
          var pass := DrawPass(pts, st, i);
          if pass.None? {
            return None;
          }
          out := out + pass.value;
        }
        assert (i + 2) / 2 == i / 2 + 1;
        i := i + 2;
      }
      return Some(out);
    }

    /** makeImage for a heading of whole quarter turns, with the start corner
        chosen by the heading reduced to [0, 360) (see Findings in the README):
        the picture is sideLength + 2 size wide, sideLength = (2^order - 1)
        size; the pen starts at the corner that keeps the curve in the square
        [size, size + sideLength]^2, lineList is rebuilt by makeCurve(0, 1),
        the pen ends at the end of the curve and the strokes are those of
        drawCurve. */
    method MakeImage() returns (imageSize: int, strokes: Option<seq<Stroke>>)
      requires Axial(angle)
      modifies this`position, this`lineList, this`heading, this`angle
      ensures imageSize == ImageSide(order, size) + 2 * size
      ensures angle == old(angle)
      ensures lineList == ImageCurve(order, size, angle)
      ensures position == ImageEnd(order, size, angle)
      ensures strokes == Drawing(Style(), lineList)
    {
      var sideLength := ImageSide(order, size);
      var gap := size;
      imageSize := sideLength + 2 * size;
      position := StartCorner(angle, sideLength, gap);
      lineList := [];
      heading := Heading(angle);
      AlignedHeading(angle, heading);
      assert Aligned(angle, heading);
      ghost var t0 := State();
      assert t0 == Turtle(angle, Heading(angle), StartCorner(angle, ImageSide(order, size), size), []);
      MakeCurve(0, 1);
      ImageRun(t0, State(), order, size, t0.angle);
      assert angle == t0.angle && lineList == ImageCurve(order, size, t0.angle);
      strokes := DrawCurve();
    }

    /** The +/- key handler. */
    method PressKey(c: char)
      modifies this`thickness
      ensures thickness == ThicknessAfterKey(old(thickness), c)
    {
      if c == '+' {
        thickness := thickness + 4;
      }
      if c == '-' {
        thickness := thickness - 4;
        if thickness <= 0 {
          thickness := 2;
        }
      }
    }

    /** The rotation entry: the text is read as an integer; a value outside
        0 .. 360 or a text that is not an integer is refused and leaves the
        angle alone. */
    method SetRotation(text: string) returns (accepted: bool)
      modifies this`angle, this`heading
      ensures accepted <==> RotationOf(text).Some?
      ensures accepted ==> angle == RotationOf(text).value && heading == Heading(angle)
      ensures !accepted ==> angle == old(angle) && heading == old(heading)
    {
      var value := ParseInt(text);
      if value.None? {
        return false;
      }
      if value.value < 0 || value.value > 360 {
        return false;
      }
      angle := value.value;
      heading := Heading(angle);
      return true;
    }
  }

  /** The inner loop of drawCurve, pass i: one stroke for each segment
      j = 1 .. n - 1 in order, with width thickness - i and the blended fill,
      or None at the first segment whose two corners are equal, where drawLine
      divides by its length 0. */
  method DrawPass(pts: seq<Point>, st: Style, i: int) returns (pass: Option<seq<Stroke>>)
    requires |pts| > 1 && st.thickness != 0
    ensures pass.None? <==> HasRepeat(pts)
    ensures pass.Some? ==> pass.value == PassStrokes(st, pts, i, |pts| - 1)
  {
    var n := |pts|;
    var out: seq<Stroke> := [];
    var j := 1;
    while j < n
      invariant 1 <= j <= n
      invariant forall m :: 1 <= m < j ==> pts[m - 1] != pts[m]
      invariant out == PassStrokes(st, pts, i, j - 1)
    {
      if pts[j - 1] == pts[j] {
        assert HasRepeat(pts);
        return None;
      }
      out := out + [Stroke(pts[j - 1], pts[j], st.thickness - i, Fill(st, n, j, i))];
      j := j + 1;
    }
    return Some(out);
  }

  /** makeImage's sideLength: the side of the square the curve fills. */
  function ImageSide(order: nat, size: int): int {
    (Pow(2, order) - 1) * size
  }

  /** The corners makeImage's curve visits: the curve of the given order
      entered with the heading `angle` from the start corner. */
  function ImageCurve(order: nat, size: int, angle: int): seq<Point> {
    Hilbert(order, size, Across(Heading(angle), 1), Heading(angle), StartCorner(angle, ImageSide(order, size), size))
  }

  /** Where makeImage's curve, and with it the pen, ends. */
  function ImageEnd(order: nat, size: int, angle: int): Point {
    End(order, size, Across(Heading(angle), 1), Heading(angle), StartCorner(angle, ImageSide(order, size), size))
  }

  /** makeCurve(0, 1) from makeImage's start draws ImageCurve and ends at
      ImageEnd. */
  lemma ImageRun(t: Turtle, t': Turtle, order: nat, size: int, angle: int)
    requires t == Turtle(angle, Heading(angle), StartCorner(angle, ImageSide(order, size), size), [])
    requires t' == Run(t, order, 1, size)
    ensures t' == Turtle(angle, Heading(angle), ImageEnd(order, size, angle), ImageCurve(order, size, angle))
  {
    RunDraws(t, order, 1, size);
    assert [] + ImageCurve(order, size, angle) == ImageCurve(order, size, angle);
  }

  /** The corner makeImage starts the pen at, chosen by the heading reduced
      to [0, 360). */
  function StartCorner(angle: int, side: int, gap: int): Point {
    if angle % 360 < 90 then Point(gap, gap + side)
    else if angle % 360 < 180 then Point(gap, gap)
    else if angle % 360 < 270 then Point(gap + side, gap)
    else Point(gap + side, gap + side)
  }

  /** The same choice as written, on the unreduced angle: with the axial
      headings cos(angle % 90) == 1 and sin(angle % 90) == 0. */
  function StartCornerAsWritten(angle: int, side: int, gap: int): Point {
    if angle < 90 then Point(gap, gap + side)
    else if angle < 180 then Point(gap, gap)
    else if angle < 270 then Point(gap + side, gap)
    else Point(gap + side, gap + side)
  }

  /** The two choices agree exactly on the angles of one turn. */
  lemma StartCornerAgrees(angle: int, side: int, gap: int)
    requires side > 0
    ensures 0 <= angle < 360 ==> StartCorner(angle, side, gap) == StartCornerAsWritten(angle, side, gap)
    ensures angle == 360 ==> StartCorner(angle, side, gap) != StartCornerAsWritten(angle, side, gap)
  {
  }

  /** A heading of whole quarter turns is one of the four compass headings
      once reduced. */
  lemma AxialQuarter(h: int)
    requires Axial(h)
    ensures h % 360 == 0 || h % 360 == 90 || h % 360 == 180 || h % 360 == 270
  {
    var q, d := h / 360, h / 90;
    assert h == 360 * q + h % 360;
    assert h == 90 * d;
    var m := d - 4 * q;
    assert h % 360 == 90 * m;
  }

  /** The frame of makeImage's curve for each of the four headings: the
      direction v of the heading, the first axis u = Across(v, 1) and the
      start corner. */
  lemma FrameAt(angle: int, side: int, gap: int)
    requires Axial(angle)
    ensures var v := Heading(angle);
      var u := Across(v, 1);
      var c := StartCorner(angle, side, gap);
      || (v == Point(1, 0) && u == Point(0, -1) && c == Point(gap, gap + side))
      || (v == Point(0, 1) && u == Point(1, 0) && c == Point(gap, gap))
      || (v == Point(-1, 0) && u == Point(0, 1) && c == Point(gap + side, gap))
      || (v == Point(0, -1) && u == Point(-1, 0) && c == Point(gap + side, gap + side))
  {
    AxialQuarter(angle);
    var v, c := Heading(angle), StartCorner(angle, side, gap);
    var r := angle % 360;
    if r == 0 {
      assert v == Point(1, 0) && c == Point(gap, gap + side);
    } else if r == 90 {
      assert v == Point(0, 1) && c == Point(gap, gap);
    } else if r == 180 {
      assert v == Point(-1, 0) && c == Point(gap + side, gap);
    } else {
      assert v == Point(0, -1) && c == Point(gap + side, gap + side);
    }
  }

  /** In each of the four frames the square of side `side` spanned from the
      start corner is [gap, gap + side]^2. */
  lemma BoxOfFrame(c: Point, u: Point, v: Point, side: int, gap: int, a: int, b: int)
    requires 0 <= a <= side && 0 <= b <= side
    requires || (v == Point(1, 0) && u == Point(0, -1) && c == Point(gap, gap + side))
             || (v == Point(0, 1) && u == Point(1, 0) && c == Point(gap, gap))
             || (v == Point(-1, 0) && u == Point(0, 1) && c == Point(gap + side, gap))
             || (v == Point(0, -1) && u == Point(-1, 0) && c == Point(gap + side, gap + side))
    ensures var q := Offset(c, u, a, v, b);
      gap <= q.x <= gap + side && gap <= q.y <= gap + side
  {
  }

  /** With a non-negative segment length every corner makeImage draws lies
      in [size, imageSize - size]^2, inside the picture. */
  lemma CurveFitsCanvas(order: nat, size: int, angle: int)
    requires Axial(angle) && size >= 0
    ensures var side := (Pow(2, order) - 1) * size;
      var v := Heading(angle);
      var imageSize := side + 2 * size;
      forall q :: q in Hilbert(order, size, Across(v, 1), v, StartCorner(angle, side, size)) ==>
        size <= q.x <= imageSize - size && size <= q.y <= imageSize - size
  {
    var side := (Pow(2, order) - 1) * size;
    var v := Heading(angle);
    var u := Across(v, 1);
    var start := StartCorner(angle, side, size);
    SideFormula(order, size);
    HilbertInSquare(order, size, u, v, start);
    forall q | q in Hilbert(order, size, u, v, start)
      ensures size <= q.x <= side + size && size <= q.y <= side + size
    {
      assert InSquare(q, start, u, v, side);
      PointOnCanvas(q, angle, side, size);
    }
  }

  lemma PointOnCanvas(q: Point, angle: int, side: int, gap: int)
    requires Axial(angle)
    requires var v := Heading(angle); InSquare(q, StartCorner(angle, side, gap), Across(v, 1), v, side)
    ensures gap <= q.x <= gap + side && gap <= q.y <= gap + side
  {
    var v := Heading(angle);
    var u, c := Across(v, 1), StartCorner(angle, side, gap);
    var a, b :| 0 <= a <= side && 0 <= b <= side && q == Offset(c, u, a, v, b);
    FrameAt(angle, side, gap);
    BoxOfFrame(c, u, v, side, gap, a, b);
  }

  /** A curve drawn along unit axes u and v (as makeImage's are, see
      ImageFrameUnit) has 4^order corners, each one axis-aligned move of |size|
      from the next; drawCurve fails only for order 0, where the curve is a
      single corner, and otherwise every stroke it makes is a horizontal or
      vertical segment of non-zero length, which drawLine can normalise. */
  lemma CurveDrawable(order: nat, size: int, u: Point, v: Point, start: Point, st: Style)
    requires IsUnit(u) && IsUnit(v) && size != 0
    ensures var pts := Hilbert(order, size, u, v, start);
      && |pts| == Pow(4, order)
      && UnitSteps(pts, size)
      && (Drawing(st, pts).None? <==> order == 0)
      && (Drawing(st, pts).Some? ==> forall l :: l in Drawing(st, pts).value ==>
            (l.from.x == l.to.x || l.from.y == l.to.y) && DrawLine(l).Some?)
  {
    var pts := Hilbert(order, size, u, v, start);
    HilbertLength(order, size, u, v, start);
    PowFour(order);
    HilbertSteps(order, size, u, v, start);
    FrameStepsAreUnit(pts, size, u, v);
    UnitStepsNoRepeat(pts, size);
    DrawingStrokes(st, pts);
    if Drawing(st, pts).Some? {
      DrawingDrawable(st, pts, size);
    }
  }

  /** A curve of segment length 0 (the size the save dialog sets for a size
      of 0) stays on its start corner: for order >= 1 its corners repeat, so
      drawCurve fails as soon as the thickness leaves a pass to draw, and it
      fails for order 0 as for every single corner. */
  lemma ZeroSizeFails(order: nat, u: Point, v: Point, start: Point, st: Style)
    ensures Drawing(st, Hilbert(order, 0, u, v, start)).None? <==> order == 0 || st.thickness > 0
  {
    var pts := Hilbert(order, 0, u, v, start);
    HilbertLength(order, 0, u, v, start);
    PowFour(order);
    DrawingStrokes(st, pts);
    if order > 0 {
      HilbertSteps(order, 0, u, v, start);
      assert StepAt(pts, 0, 0, u, v);
      assert pts[0] == pts[1];
      assert HasRepeat(pts);
    }
  }

  /** The frame of makeImage's curve is made of unit vectors. */
  lemma ImageFrameUnit(angle: int)
    ensures IsUnit(Heading(angle)) && IsUnit(Across(Heading(angle), 1))
  {
    HeadingUnit(angle);
  }

  lemma {:induction false} PowFour(k: nat)
    ensures Pow(4, k) >= 1 && (Pow(4, k) == 1 <==> k == 0)
  {
    if k > 0 {
      PowFour(k - 1);
    }
  }

  /** Finding: the rotation entry accepts 360, and makeImage as written then
      takes the branch for angles of 270 and over and starts the pen at the
      far corner (gap + side, gap + side), while the heading is that of 0.
      The curve then runs along x and ends at gap + 2 side, at or beyond the
      right edge of a picture imageSize = side + 2 gap wide, for every order
      >= 1 and size >= 1. */
  lemma FullTurnLeavesCanvas(order: nat, size: int, u: Point, v: Point)
    requires order >= 1 && size >= 1
    requires v == Heading(360) && u == Across(v, 1)
    ensures var side := (Pow(2, order) - 1) * size;
      var pts := Hilbert(order, size, u, v, StartCornerAsWritten(360, side, size));
      |pts| > 0 && Last(pts).x >= side + 2 * size
  {
    var side := (Pow(2, order) - 1) * size;
    assert v == Point(1, 0);
    var start := StartCornerAsWritten(360, side, size);
    assert start == Point(size + side, size + side);
    LastCorner(order, size, u, v, start);
    SideFormula(order, size);
    PowAtLeastTwo(order);
    MulAtLeast(Pow(2, order) - 1, size);
  }

  /** The last corner of a curve lies Side(k) along v from its start. */
  lemma LastCorner(k: nat, size: int, u: Point, v: Point, start: Point)
    ensures |Hilbert(k, size, u, v, start)| > 0
    ensures Last(Hilbert(k, size, u, v, start)) == Plus(start, Scale(v, Side(k, size)))
  {
    HilbertLast(k, size, u, v, start);
    EndFormula(k, size, u, v, start);
  }

  lemma MulAtLeast(m: int, size: int)
    requires m >= 1 && size >= 0
    ensures m * size >= size
  {
  }

  lemma {:induction false} PowAtLeastTwo(k: nat)
    requires k >= 1
    ensures Pow(2, k) >= 2
  {
    if k > 1 {
      PowAtLeastTwo(k - 1);
    }
  }

  /** The thickness after a key press: '+' adds 4, '-' takes 4 away and
      falls back to 2 when that leaves nothing. */
  function ThicknessAfterKey(t: int, c: char): (r: int)
  {
    if c == '+' then t + 4
    else if c == '-' then (if t - 4 <= 0 then 2 else t - 4)
    else t
  }

  /** The thicknesses the keys alone reach from 26 are 2, 6, 10, ...:
      positive and 2 more than a multiple of 4, so the last pass of drawCurve
      is exactly 2 wide. (The save dialog rescales the thickness to another
      even number, after which the keys keep its remainder modulo 4.) */
  lemma ThicknessKeepsShape(t: int, c: char)
    requires t > 0 && t % 4 == 2
    ensures var r := ThicknessAfterKey(t, c); r > 0 && r % 4 == 2
    ensures c == '-' ==> ThicknessAfterKey(t, c) < t || t == 2
    ensures c == '+' ==> ThicknessAfterKey(t, c) > t
  {
  }

  /** Whatever the thickness was, '-' leaves it positive, and lowers it
      unless it was already at most 4. */
  lemma MinusKeepsPositive(t: int)
    ensures ThicknessAfterKey(t, '-') > 0
    ensures t > 4 ==> ThicknessAfterKey(t, '-') < t
    ensures t <= 4 ==> ThicknessAfterKey(t, '-') == 2
  {
  }

  /** '+' followed by '-' restores any positive thickness; '-' followed by
      '+' restores a thickness above 4. */
  lemma ThicknessKeysUndo(t: int)
    ensures t > 0 ==> ThicknessAfterKey(ThicknessAfterKey(t, '+'), '-') == t
    ensures t > 4 ==> ThicknessAfterKey(ThicknessAfterKey(t, '-'), '+') == t
  {
  }

  /** The angle the rotation entry accepts for a text: its integer value
      when that lies in 0 .. 360. */
  function RotationOf(text: string): (r: Option<int>)
    ensures r.Some? ==> 0 <= r.value <= 360
  {
    var n := ParseInt(text);
    if n.Some? && 0 <= n.value <= 360 then n else None
  }

  /** The rotation entry accepts a full turn: "360" is read as 360. */
  lemma RotationAcceptsFullTurn()
    ensures RotationOf("360") == Some(360)
  {
    assert Digits("360") by {
      assert IsDigit('3') && IsDigit('6') && IsDigit('0');
    }
    assert DigitsValue("360") == 360 by {
      assert "360"[..2] == "36" && "36"[..1] == "3";
    }
  }

  /** Every angle the rotation entry accepts is accepted when typed as
      str(angle), and typing any other number is refused. */
  lemma RotationOfShow(a: int)
    ensures 0 <= a <= 360 ==> RotationOf(Show(a)) == Some(a)
    ensures a > 360 ==> RotationOf(Show(a)) == None
    ensures a > 0 ==> RotationOf("-" + Show(a)) == None
  {
    if a >= 0 {
      ParseShow(a);
    }
  }
}
