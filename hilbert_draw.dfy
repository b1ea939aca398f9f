/** What Curve.drawCurve and drawLine of hilbert_curve.py hand to the drawing
    library.

    drawCurve paints the curve in passes i = 0, 2, 4, ... below the thickness
    T; pass i draws every segment j = 1 .. n - 1 between corners j - 1 and j
    with width T - i, so the widest, darkest pass comes first and each later
    pass paints a narrower band nearer the centre colour on top. The colours
    run linearly from the start colours (midColour, edgeColour) at segment 0
    to the end colours (endMidColour, endEdgeColour) at segment n - 1, and
    across the passes from the edge colour to the centre colour. Python's
    float arithmetic is modelled exactly on reals, and int() by `Trunc`.

    A `Stroke` is one call of drawLine. `Drawing` is the whole sequence of
    calls, or None when drawCurve stops with a ZeroDivisionError (a curve of a
    single corner, or a segment of length zero). `DrawLine` is what drawLine
    passes on to the library: the segment lengthened at both ends by half the
    width so that consecutive strokes join without a notch. */
module HilbertDraw {
  import opened Colour
  import opened HilbertPath

  /** The colours and the thickness drawCurve reads from the curve. */
  datatype Style = Style(mid: Rgb, edge: Rgb, endMid: Rgb, endEdge: Rgb, thickness: int)

  /** One call drawLine(draw, from, to, width, fill). */
  datatype Stroke = Stroke(from: Point, to: Point, width: int, fill: Rgb)

  /** One line as the drawing library receives it. */
  datatype Line = Line(x0: real, y0: real, x1: real, y1: real, width: int, fill: Rgb)

  /** Number of passes of range(0, thickness, 2). */
  function Passes(thickness: int): (p: nat)
    ensures thickness > 0 ==> 2 * (p - 1) < thickness <= 2 * p
    ensures thickness <= 0 ==> p == 0
  {
    if thickness <= 0 then 0 else (thickness + 1) / 2
  }

  /** One channel of the colour at segment j: the start value minus j
      gradient steps of (start - end) / (n - 1). */
  function Channel(start: int, end: int, n: int, j: int): real
    requires n != 1
  {
    start as real - ((start - end) as real / (n - 1) as real) * j as real
  }

  /** One channel of the fill of pass i at segment j: the edge value plus
      i + 1 steps of (centre - edge) / thickness, truncated by int(). */
  function FillChannel(mid: int, endMid: int, edge: int, endEdge: int, n: int, j: int, i: int, thickness: int): int
    requires n != 1 && thickness != 0
  {
    Trunc(Blend(Channel(mid, endMid, n, j), Channel(edge, endEdge, n, j), i, thickness))
  }

  /** The edge value c2 plus i + 1 steps of (c1 - c2) / thickness. */
  function Blend(c1: real, c2: real, i: int, thickness: int): real
    requires thickness != 0
  {
    c2 + (i + 1) as real * ((c1 - c2) / thickness as real)
  }

  /** c lies between a and b, whichever is larger. */
  predicate Between(c: real, a: real, b: real) {
    (a <= c <= b) || (b <= c <= a)
  }

  function Fill(st: Style, n: int, j: int, i: int): Rgb
    requires n != 1 && st.thickness != 0
  {
    var t := st.thickness;
    Rgb(FillChannel(st.mid.r, st.endMid.r, st.edge.r, st.endEdge.r, n, j, i, t),
        FillChannel(st.mid.g, st.endMid.g, st.edge.g, st.endEdge.g, n, j, i, t),
        FillChannel(st.mid.b, st.endMid.b, st.edge.b, st.endEdge.b, n, j, i, t))
  }

  /** The stroke of pass i for segment j. */
  function StrokeOf(st: Style, pts: seq<Point>, i: int, j: int): Stroke
    requires 1 <= j < |pts| && st.thickness != 0
  {
    Stroke(pts[j - 1], pts[j], st.thickness - i, Fill(st, |pts|, j, i))
  }

  /** Pass i, segments 1 .. j. */
  function PassStrokes(st: Style, pts: seq<Point>, i: int, j: nat): seq<Stroke>
    requires j < |pts| && st.thickness != 0
  {
    if j == 0 then [] else PassStrokes(st, pts, i, j - 1) + [StrokeOf(st, pts, i, j)]
  }

  /** The first p passes, i = 0, 2, .., 2(p - 1). */
  function PassesStrokes(st: Style, pts: seq<Point>, p: nat): seq<Stroke>
    requires |pts| > 0 && st.thickness != 0
  {
    if p == 0 then [] else PassesStrokes(st, pts, p - 1) + PassStrokes(st, pts, 2 * (p - 1), |pts| - 1)
  }

  /** Some segment of pts joins a corner to an equal one. drawLine divides by
      the length of its segment, so the first stroke of such a segment stops
      drawCurve with a ZeroDivisionError. */
  predicate HasRepeat(pts: seq<Point>) {
    exists j :: 1 <= j < |pts| && pts[j - 1] == pts[j]
  }

  /** Everything drawCurve draws, in order; None when it divides by zero:
      in the gradient step for a single corner, or in drawLine for a segment
      of length zero once there is a pass to draw. */
  function Drawing(st: Style, pts: seq<Point>): Option<seq<Stroke>> {
    if |pts| == 1 then None
    else if |pts| == 0 || st.thickness <= 0 then Some([])
    else if HasRepeat(pts) then None
    else Some(PassesStrokes(st, pts, Passes(st.thickness)))
  }

  lemma {:induction false} PassStrokesContent(st: Style, pts: seq<Point>, i: int, j: nat)
    requires j < |pts| && st.thickness != 0
    ensures |PassStrokes(st, pts, i, j)| == j
    ensures forall m :: 0 <= m < j ==> PassStrokes(st, pts, i, j)[m] == StrokeOf(st, pts, i, m + 1)
  {
    if j > 0 {
      PassStrokesContent(st, pts, i, j - 1);
    }
  }

  /** Position of segment m + 1 of pass 2q when each of the p passes draws
      the n - 1 segments of n corners. */
  function Index(q: nat, m: nat, p: nat, n: nat): (x: nat)
    requires q < p && m < n - 1
    ensures x < p * (n - 1)
  {
    MulLess(q, p, n - 1, m);
    q * (n - 1) + m
  }

  lemma {:induction false} MulLess(q: nat, p: nat, s: nat, m: nat)
    requires q < p && m < s
    ensures q * s + m < p * s
  {
    if q < p - 1 {
      MulLess(q, p - 1, s, m);
    }
    MulStep(p, s);
  }

  lemma MulStep(p: int, s: int)
    ensures (p - 1) * s + s == p * s
  {
  }

  lemma {:induction false} PassesStrokesContent(st: Style, pts: seq<Point>, p: nat)
    requires |pts| > 0 && st.thickness != 0
    ensures |PassesStrokes(st, pts, p)| == p * (|pts| - 1)
    ensures forall q, m :: 0 <= q < p && 0 <= m < |pts| - 1 ==>
      PassesStrokes(st, pts, p)[Index(q, m, p, |pts|)] == StrokeOf(st, pts, 2 * q, m + 1)
  {
    if p > 0 {
      var s := |pts| - 1;
      PassesStrokesContent(st, pts, p - 1);
      PassStrokesContent(st, pts, 2 * (p - 1), s);
      var before, last := PassesStrokes(st, pts, p - 1), PassStrokes(st, pts, 2 * (p - 1), s);
      assert PassesStrokes(st, pts, p) == before + last;
      assert |before| == (p - 1) * s;
      MulStep(p, s);
      forall q, m | 0 <= q < p && 0 <= m < s
        ensures PassesStrokes(st, pts, p)[Index(q, m, p, |pts|)] == StrokeOf(st, pts, 2 * q, m + 1)
      {
        if q < p - 1 {
          assert Index(q, m, p, |pts|) == Index(q, m, p - 1, |pts|);
        } else {
          assert Index(q, m, p, |pts|) == |before| + m;
        }
      }
    }
  }

  /** drawCurve makes one call of drawLine per pass and segment: the call
      for segment m + 1 of pass 2q draws from corner m to corner m + 1 with
      width thickness - 2q, and the passes follow each other. It fails for a
      curve of a single corner, and for a curve with two equal consecutive
      corners when the thickness leaves a pass to draw; otherwise no stroke
      it makes has equal ends. */
  lemma DrawingStrokes(st: Style, pts: seq<Point>)
    ensures Drawing(st, pts).None? <==> |pts| == 1 || (st.thickness > 0 && HasRepeat(pts))
    ensures Drawing(st, pts).Some? ==> forall l :: l in Drawing(st, pts).value ==> l.from != l.to
    ensures Drawing(st, pts).Some? && (|pts| == 0 || st.thickness <= 0) ==> Drawing(st, pts).value == []
    ensures Drawing(st, pts).Some? && |pts| > 1 && st.thickness > 0 ==>
      var ls, n, p := Drawing(st, pts).value, |pts|, Passes(st.thickness);
      && |ls| == p * (n - 1)
      && forall q, m :: 0 <= q < p && 0 <= m < n - 1 ==>
        var l := ls[Index(q, m, p, |pts|)];
        l.from == pts[m] && l.to == pts[m + 1] && l.width == st.thickness - 2 * q
        && l.fill == Fill(st, n, m + 1, 2 * q)
  {
    if |pts| > 1 && st.thickness > 0 && !HasRepeat(pts) {
      PassesStrokesContent(st, pts, Passes(st.thickness));
      PassesFollowSegments(st, pts, Passes(st.thickness));
    }
  }

  /** Corners one move of a non-zero size apart are never equal. */
  lemma UnitStepsNoRepeat(pts: seq<Point>, size: int)
    requires UnitSteps(pts, size) && size != 0
    ensures !HasRepeat(pts)
  {
    forall j | 1 <= j < |pts|
      ensures pts[j - 1] != pts[j]
    {
      assert AxisStepAt(pts, j - 1, size);
    }
  }

  /** Every stroke of the first p passes is between thickness - 2(p - 1) and
      thickness wide. */
  lemma {:induction false} PassesWidths(st: Style, pts: seq<Point>, p: nat)
    requires |pts| > 0 && st.thickness != 0
    ensures forall l :: l in PassesStrokes(st, pts, p) ==> st.thickness - 2 * (p - 1) <= l.width <= st.thickness
  {
    if p > 0 {
      PassesWidths(st, pts, p - 1);
      PassStrokesContent(st, pts, 2 * (p - 1), |pts| - 1);
    }
  }

  /** Every stroke is between 1 and thickness wide: the passes narrow by 2
      and stop before the width would reach 0. */
  lemma StrokeWidths(st: Style, pts: seq<Point>)
    requires Drawing(st, pts).Some?
    ensures forall l :: l in Drawing(st, pts).value ==> 1 <= l.width <= st.thickness
  {
    if |pts| > 1 && st.thickness > 0 {
      PassesWidths(st, pts, Passes(st.thickness));
    }
  }

  /** l draws one segment of pts: from a corner to the next one. */
  predicate SegmentOf(l: Stroke, pts: seq<Point>) {
    exists j :: 1 <= j < |pts| && l.from == pts[j - 1] && l.to == pts[j]
  }

  lemma {:induction false} PassesFollowSegments(st: Style, pts: seq<Point>, p: nat)
    requires |pts| > 0 && st.thickness != 0
    ensures forall l :: l in PassesStrokes(st, pts, p) ==> SegmentOf(l, pts)
  {
    if p > 0 {
      PassesFollowSegments(st, pts, p - 1);
      var last := PassStrokes(st, pts, 2 * (p - 1), |pts| - 1);
      PassStrokesContent(st, pts, 2 * (p - 1), |pts| - 1);
      forall l | l in last
        ensures SegmentOf(l, pts)
      {
        var m :| 0 <= m < |last| && last[m] == l;
        assert l.from == pts[m] && l.to == pts[m + 1];
      }
    }
  }

  /** When consecutive corners are one axis-aligned move of a non-zero size
      apart, every stroke drawCurve makes is a horizontal or vertical segment
      of non-zero length, so drawLine's normalisation never divides by zero. */
  lemma DrawingDrawable(st: Style, pts: seq<Point>, size: int)
    requires UnitSteps(pts, size) && size != 0
    requires Drawing(st, pts).Some?
    ensures forall l :: l in Drawing(st, pts).value ==>
      (l.from.x == l.to.x || l.from.y == l.to.y) && DrawLine(l).Some?
  {
    if |pts| > 1 && st.thickness > 0 {
      PassesFollowSegments(st, pts, Passes(st.thickness));
      forall l | l in Drawing(st, pts).value
        ensures (l.from.x == l.to.x || l.from.y == l.to.y) && DrawLine(l).Some?
      {
        var j :| 1 <= j < |pts| && l.from == pts[j - 1] && l.to == pts[j];
        assert AxisStepAt(pts, j - 1, size);
      }
    }
  }

  /** (s * j) lies between 0 and s * m for 0 <= j <= m. */
  lemma ScaledBetween(s: real, j: real, m: real)
    requires 0.0 <= j <= m
    ensures s >= 0.0 ==> 0.0 <= s * j <= s * m
    ensures s < 0.0 ==> s * m <= s * j <= 0.0
  {
    if s >= 0.0 {
      assert s * (m - j) >= 0.0;
    } else {
      assert (-s) * (m - j) >= 0.0;
      assert (-s) * j >= 0.0;
    }
  }

  /** a - ((a - b) / m) * j, for 0 <= j <= m, lies between a and b. */
  lemma StepBetween(a: real, b: real, m: real, j: real)
    requires 0.0 < m && 0.0 <= j <= m
    ensures Between(a - ((a - b) / m) * j, a, b)
  {
    var s := (a - b) / m;
    assert s * m == a - b;
    ScaledBetween(s, j, m);
  }

  /** A channel of a segment lies between its start and end values. */
  lemma ChannelBetween(start: int, end: int, n: int, j: int)
    requires 1 <= j < n
    ensures Between(Channel(start, end, n, j), start as real, end as real)
  {
    StepBetween(start as real, end as real, (n - 1) as real, j as real);
  }

  /** The fill of pass i lies between the edge and the centre colour. */
  lemma BlendBetween(c1: real, c2: real, i: int, t: int)
    requires 0 <= i < t
    ensures Between(Blend(c1, c2, i, t), c2, c1)
  {
    var s := (c1 - c2) / t as real;
    assert s * t as real == c1 - c2;
    ScaledBetween(s, (i + 1) as real, t as real);
  }

  lemma FillInRange(c1: real, c2: real, i: int, t: int)
    requires 0.0 <= c1 <= 255.0 && 0.0 <= c2 <= 255.0 && 0 <= i < t
    ensures 0 <= Trunc(Blend(c1, c2, i, t)) <= 255
  {
    BlendBetween(c1, c2, i, t);
    TruncBetween(Blend(c1, c2, i, t), 0, 255);
  }

  /** With colour values in 0 .. 255 every fill channel is in 0 .. 255. */
  lemma FillChannelBounds(mid: int, endMid: int, edge: int, endEdge: int, n: int, j: int, i: int, t: int)
    requires 0 <= mid <= 255 && 0 <= endMid <= 255 && 0 <= edge <= 255 && 0 <= endEdge <= 255
    requires 1 <= j < n && 0 <= i < t
    ensures 0 <= FillChannel(mid, endMid, edge, endEdge, n, j, i, t) <= 255
  {
    ChannelBetween(mid, endMid, n, j);
    ChannelBetween(edge, endEdge, n, j);
    FillInRange(Channel(mid, endMid, n, j), Channel(edge, endEdge, n, j), i, t);
  }

  /** With valid colours every stroke has a valid fill. */
  lemma FillValid(st: Style, n: int, j: int, i: int)
    requires ValidRgb(st.mid) && ValidRgb(st.endMid) && ValidRgb(st.edge) && ValidRgb(st.endEdge)
    requires 1 <= j < n && 0 <= i < st.thickness
    ensures ValidRgb(Fill(st, n, j, i))
  {
    var t := st.thickness;
    FillChannelBounds(st.mid.r, st.endMid.r, st.edge.r, st.endEdge.r, n, j, i, t);
    FillChannelBounds(st.mid.g, st.endMid.g, st.edge.g, st.endEdge.g, n, j, i, t);
    FillChannelBounds(st.mid.b, st.endMid.b, st.edge.b, st.endEdge.b, n, j, i, t);
  }

  /** The colour reaches the end colour on the last segment: there the
      channel is exactly the end value. */
  lemma ChannelAtEnd(start: int, end: int, n: int)
    requires n > 1
    ensures Channel(start, end, n, n - 1) == end as real
  {
    var m := (n - 1) as real;
    assert ((start - end) as real / m) * m == (start - end) as real;
  }

  /** A colour that does not change from start to end is the same on every
      segment. */
  lemma ChannelConstant(c: int, n: int, j: int)
    requires n != 1
    ensures Channel(c, c, n, j) == c as real
  {
  }

  /** drawLine when the segment runs along an axis: the unit vector is exact
      and both ends move out by width / 2. */
  function DrawLine(s: Stroke): (r: Option<Line>)
    requires s.from.x == s.to.x || s.from.y == s.to.y
    ensures r.None? <==> s.from == s.to
  {
    var d := Minus(s.to, s.from);
    if d == Point(0, 0) then None
    else
      var nx, ny := Sign(d.x), Sign(d.y);
      var cx, cy := nx as real * s.width as real / 2.0, ny as real * s.width as real / 2.0;
      Some(Line(s.from.x as real - cx, s.from.y as real - cy, s.to.x as real + cx, s.to.y as real + cy, s.width, s.fill))
  }

  function Sign(x: int): int {
    if x > 0 then 1 else if x < 0 then -1 else 0
  }

  /** The length of an axis-aligned stroke. */
  function AxisLength(s: Stroke): int {
    Abs(s.to.x - s.from.x) + Abs(s.to.y - s.from.y)
  }

  function Abs(x: int): int {
    if x < 0 then -x else x
  }

  /** The direction of a stroke, as drawLine's normalised vector for a
      horizontal or vertical stroke. */
  function Direction(s: Stroke): Point {
    Point(Sign(s.to.x - s.from.x), Sign(s.to.y - s.from.y))
  }

  /** The stroke s with both ends moved out by width / 2 along d. */
  function Extended(s: Stroke, d: Point): Line {
    var h := s.width as real / 2.0;
    Line(s.from.x as real - d.x as real * h, s.from.y as real - d.y as real * h,
         s.to.x as real + d.x as real * h, s.to.y as real + d.y as real * h, s.width, s.fill)
  }

  /** The line drawn for a horizontal or vertical stroke of non-zero length,
      in any of the four directions, is the stroke lengthened by width / 2 at
      both ends along its own direction d: d is a unit vector, the stroke
      runs AxisLength(s) along d, and the line runs AxisLength(s) + width
      along d. */
  lemma DrawLineExtends(s: Stroke)
    requires s.from.x == s.to.x || s.from.y == s.to.y
    requires s.from != s.to
    ensures IsUnit(Direction(s))
    ensures Minus(s.to, s.from) == Scale(Direction(s), AxisLength(s))
    ensures DrawLine(s) == Some(Extended(s, Direction(s)))
    ensures var d, l := Direction(s), DrawLine(s).value;
      (l.x1 - l.x0) * d.x as real + (l.y1 - l.y0) * d.y as real == (AxisLength(s) + s.width) as real
  {
    var w := s.width as real;
    var h := w / 2.0;
    var x0, y0, x1, y1 := s.from.x as real, s.from.y as real, s.to.x as real, s.to.y as real;
    var d := Direction(s);
    var l := DrawLine(s).value;
    assert DrawLine(s) == Some(l);
    if s.to.y == s.from.y {
      assert d == Point(1, 0) || d == Point(-1, 0);
    } else {
      assert d == Point(0, 1) || d == Point(0, -1);
    }
    assert l.x0 == x0 - d.x as real * h && l.y0 == y0 - d.y as real * h;
    assert l.x1 == x1 + d.x as real * h && l.y1 == y1 + d.y as real * h;
    assert l == Extended(s, d);
  }
}
