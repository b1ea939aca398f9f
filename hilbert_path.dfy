/** The corners of the Hilbert curve drawn by hilbert_curve.py, as a pure
    self-similar description.

    Curve.makeCurve threads the heading `angle` and the current `position`
    through a four-branch recursion and appends every corner it reaches to
    `lineList`. `Hilbert(k, size, u, v, start)` describes the corners of an
    order-k curve directly: for k = 0 the single corner `start`; otherwise four
    order-(k-1) curves, the first with its axes exchanged, the two middle ones
    in the same frame, and the last turned half round with its axes exchanged,
    each starting one move of `size` past the end of the one before.

    u is the direction the curve first leaves its start in (for k > 0 the
    first quarter runs along v first, see below), v the direction its end lies
    in; for makeCurve entered with heading h and factor f these are the
    headings h - 90f and h. The lemmas below give the closed forms (where each
    quarter starts, where the curve ends), the number of corners, and show that
    consecutive corners are one move apart and that all corners stay in the
    square of side (2^k - 1) * size spanned from the start along u and v. */
module HilbertPath {
  import opened Colour

  datatype Point = Point(x: int, y: int)

  function Plus(p: Point, q: Point): Point {
    Point(p.x + q.x, p.y + q.y)
  }

  function Minus(p: Point, q: Point): Point {
    Point(p.x - q.x, p.y - q.y)
  }

  function Neg(p: Point): Point {
    Point(-p.x, -p.y)
  }

  /** p turned a quarter turn counter-clockwise (towards +y). */
  function Left(p: Point): Point {
    Point(-p.y, p.x)
  }

  function Scale(u: Point, n: int): Point {
    Point(u.x * n, u.y * n)
  }

  /** The point reached from p by a steps along u and b steps along v. */
  function Offset(p: Point, u: Point, a: int, v: Point, b: int): Point {
    Plus(Plus(p, Scale(u, a)), Scale(v, b))
  }

  function Last(s: seq<Point>): Point
    requires |s| > 0
  {
    s[|s| - 1]
  }

  predicate IsUnit(u: Point) {
    u == Point(1, 0) || u == Point(0, 1) || u == Point(-1, 0) || u == Point(0, -1)
  }

  /** A heading, in degrees, that is a whole number of quarter turns
      (the branch of newPosition that moves on the integer grid). */
  predicate Axial(h: int) {
    h % 90 == 0
  }

  /** (cos h, sin h) for a heading of whole quarter turns, as newPosition
      obtains it from int(cos(radians(h)) * size) and int(sin(radians(h)) * size):
      each of the two is exactly 0, 1 or -1 times size. The heading is reduced
      with a remainder that is never negative, as Python's % does, so -90 is
      the same direction as 270. */
  function Heading(h: int): (u: Point)
  {
    var a := h % 360;
    if a < 90 then Point(1, 0)
    else if a < 180 then Point(0, 1)
    else if a < 270 then Point(-1, 0)
    else Point(0, -1)
  }

  lemma HeadingUnit(h: int)
    ensures IsUnit(Heading(h))
  {
  }

  /** b is reached from a by one axis-aligned move of length |size|. */
  predicate IsStep(a: Point, b: Point, size: int) {
    var d := Minus(b, a);
    d == Point(size, 0) || d == Point(-size, 0) || d == Point(0, size) || d == Point(0, -size)
  }

  predicate AxisStepAt(pts: seq<Point>, i: nat, size: int)
    requires i + 1 < |pts|
  {
    IsStep(pts[i], pts[i + 1], size)
  }

  /** Every two consecutive points are one axis-aligned move apart. */
  predicate UnitSteps(pts: seq<Point>, size: int) {
    forall i: nat :: i + 1 < |pts| ==> AxisStepAt(pts, i, size)
  }

  /** b is reached from a by one move of size along u, v, -u or -v. */
  predicate FrameStep(a: Point, b: Point, size: int, u: Point, v: Point) {
    || b == Plus(a, Scale(u, size))
    || b == Plus(a, Scale(v, size))
    || b == Plus(a, Scale(Neg(u), size))
    || b == Plus(a, Scale(Neg(v), size))
  }

  predicate StepAt(pts: seq<Point>, i: nat, size: int, u: Point, v: Point)
    requires i + 1 < |pts|
  {
    FrameStep(pts[i], pts[i + 1], size, u, v)
  }

  /** Every two consecutive points are one move along the frame apart. */
  predicate FrameSteps(pts: seq<Point>, size: int, u: Point, v: Point) {
    forall i: nat :: i + 1 < |pts| ==> StepAt(pts, i, size, u, v)
  }

  /** Side of the square an order-k curve fills. */
  function Side(k: nat, size: int): (side: int)
    ensures size >= 0 ==> side >= 0
  {
    if k == 0 then 0 else 2 * Side(k - 1, size) + size
  }

  /** makeImage's sideLength, (2^order - 1) * size, is the side of the square. */
  lemma {:induction false} SideFormula(k: nat, size: int)
    ensures Side(k, size) == (Pow(2, k) - 1) * size
  {
    if k > 0 {
      SideFormula(k - 1, size);
      assert Side(k, size) == 2 * ((Pow(2, k - 1) - 1) * size) + size;
    }
  }

  /** The moves along a frame do not depend on the order or the sign of its
      two axes. */
  lemma FrameStepsSwap(pts: seq<Point>, size: int, u: Point, v: Point)
    requires FrameSteps(pts, size, v, u)
    ensures FrameSteps(pts, size, u, v)
  {
    forall i: nat | i + 1 < |pts|
      ensures StepAt(pts, i, size, u, v)
    {
      assert StepAt(pts, i, size, v, u);
    }
  }

  lemma FrameStepsNeg(pts: seq<Point>, size: int, u: Point, v: Point)
    requires FrameSteps(pts, size, Neg(v), Neg(u))
    ensures FrameSteps(pts, size, u, v)
  {
    forall i: nat | i + 1 < |pts|
      ensures StepAt(pts, i, size, u, v)
    {
      assert StepAt(pts, i, size, Neg(v), Neg(u));
      assert Neg(Neg(u)) == u && Neg(Neg(v)) == v;
    }
  }

  /** In a frame of unit vectors a move along the frame is an axis-aligned
      move of length |size|. */
  lemma FrameStepsAreUnit(pts: seq<Point>, size: int, u: Point, v: Point)
    requires IsUnit(u) && IsUnit(v)
    requires FrameSteps(pts, size, u, v)
    ensures UnitSteps(pts, size)
  {
    forall i: nat | i + 1 < |pts|
      ensures AxisStepAt(pts, i, size)
    {
      assert StepAt(pts, i, size, u, v);
      FrameStepIsStep(pts[i], pts[i + 1], size, u, v);
    }
  }

  lemma FrameStepIsStep(a: Point, b: Point, size: int, u: Point, v: Point)
    requires IsUnit(u) && IsUnit(v)
    requires FrameStep(a, b, size, u, v)
    ensures IsStep(a, b, size)
  {
  }

  /** The four headings in [0, 360) and their direction vectors. */
  predicate Compass(a: int, w: Point) {
    (a == 0 && w == Point(1, 0)) || (a == 90 && w == Point(0, 1))
    || (a == 180 && w == Point(-1, 0)) || (a == 270 && w == Point(0, -1))
  }

  /** A heading of whole quarter turns together with its direction vector,
      stated by recursion on the heading so that the verifier unfolds it one
      turn at a time: `Aligned(h, w)` holds exactly when h is a multiple of 90
      and w is Heading(h) (AlignedHeading). */
  predicate Aligned(h: int, w: Point)
    decreases if h < 0 then 360 - h else h
  {
    if h < 0 then
      Aligned(h + 360, w)
    else if h >= 360 then
      Aligned(h - 360, w)
    else
      Compass(h, w)
  }

  /** A quarter turn counter-clockwise (q == 1) or clockwise (q == -1). */
  function Rotate(w: Point, q: int): Point
    requires q == 1 || q == -1
  {
    if q == 1 then Left(w) else Neg(Left(w))
  }

  /** An angle brought into [0, 360) by at most one whole turn, with its
      direction vector. */
  predicate Wrapped(h: int, w: Point) {
    (0 <= h < 360 && Compass(h, w)) || (h < 0 && Compass(h + 360, w)) || (h >= 360 && Compass(h - 360, w))
  }

  lemma AlignedOf(h: int, w: Point)
    requires Wrapped(h, w)
    ensures Aligned(h, w)
  {
  }

  lemma AlignedShift(h: int, w: Point)
    ensures Aligned(h + 360, w) == Aligned(h, w)
  {
  }

  /** A quarter turn from one of the four compass headings. */
  lemma CompassTurn(a: int, w: Point, q: int)
    requires q == 1 || q == -1
    requires Compass(a, w)
    ensures Wrapped(a + 90 * q, Rotate(w, q))
  {
  }

  /** Turning by 90q degrees turns the direction vector a quarter turn. */
  lemma {:induction false} AlignedTurn(h: int, h': int, w: Point, q: int)
    requires q == 1 || q == -1
    requires h' == h + 90 * q
    requires Aligned(h, w)
    ensures Aligned(h', Rotate(w, q))
    decreases if h < 0 then 360 - h else h
  {
    if h < 0 {
      AlignedTurn(h + 360, h' + 360, w, q);
      AlignedShift(h', Rotate(w, q));
    } else if h >= 360 {
      AlignedTurn(h - 360, h' - 360, w, q);
      AlignedShift(h' - 360, Rotate(w, q));
    } else {
      CompassTurn(h, w, q);
      AlignedOf(h', Rotate(w, q));
    }
  }

  lemma ModShift(h: int)
    ensures (h + 360) % 360 == h % 360 && (h + 360) % 90 == h % 90
  {
  }

  /** Aligned is the quarter-turn heading together with its direction vector. */
  lemma {:induction false} AlignedHeading(h: int, w: Point)
    ensures Aligned(h, w) <==> Axial(h) && w == Heading(h)
    decreases if h < 0 then 360 - h else h
  {
    if h < 0 {
      AlignedHeading(h + 360, w);
      ModShift(h);
    } else if h >= 360 {
      AlignedHeading(h - 360, w);
      ModShift(h - 360);
    } else {
      var d := h / 90;
      assert h == 90 * d + h % 90;
    }
  }

  /** Where the second, third and fourth quarters of an order-k curve with
      frame (u, v) begin: one move of size past the end of the quarter before,
      along u, v and -u respectively. */
  function Start2(k: nat, size: int, u: Point, v: Point, start: Point): Point
    requires k > 0
    decreases k, 0
  {
    Plus(End(k - 1, size, v, u, start), Scale(u, size))
  }

  function Start3(k: nat, size: int, u: Point, v: Point, start: Point): Point
    requires k > 0
    decreases k, 1
  {
    Plus(End(k - 1, size, u, v, Start2(k, size, u, v, start)), Scale(v, size))
  }

  function Start4(k: nat, size: int, u: Point, v: Point, start: Point): Point
    requires k > 0
    decreases k, 2
  {
    Plus(End(k - 1, size, u, v, Start3(k, size, u, v, start)), Scale(Neg(u), size))
  }

  /** The last corner of an order-k curve: the end of its fourth quarter. */
  function End(k: nat, size: int, u: Point, v: Point, start: Point): Point
    decreases k, 3
  {
    if k == 0 then start else End(k - 1, size, Neg(v), Neg(u), Start4(k, size, u, v, start))
  }

  /** The corners of an order-k curve with frame (u, v) from start. */
  function Hilbert(k: nat, size: int, u: Point, v: Point, start: Point): seq<Point>
    decreases k
  {
    if k == 0 then [start]
    else
      Hilbert(k - 1, size, v, u, start)
      + Hilbert(k - 1, size, u, v, Start2(k, size, u, v, start))
      + Hilbert(k - 1, size, u, v, Start3(k, size, u, v, start))
      + Hilbert(k - 1, size, Neg(v), Neg(u), Start4(k, size, u, v, start))
  }

  /** The curve of order 1 is the start and the three other quarter
      starts. */
  lemma HilbertOne(size: int, u: Point, v: Point, p: Point)
    ensures Hilbert(1, size, u, v, p) == [p, Start2(1, size, u, v, p), Start3(1, size, u, v, p), Start4(1, size, u, v, p)]
  {
  }

  /** A list followed by the four quarters is the list followed by the curve. */
  lemma ListSplit(k: nat, size: int, u: Point, v: Point, p: Point, list: seq<Point>)
    requires k > 0
    ensures list + (Hilbert(k - 1, size, v, u, p) + Hilbert(k - 1, size, u, v, Start2(k, size, u, v, p)))
      + Hilbert(k - 1, size, u, v, Start3(k, size, u, v, p))
      + Hilbert(k - 1, size, Neg(v), Neg(u), Start4(k, size, u, v, p))
      == list + Hilbert(k, size, u, v, p)
  {
  }

  lemma EndSplit(k: nat, size: int, u: Point, v: Point, p: Point)
    requires k > 0
    ensures End(k, size, u, v, p) == End(k - 1, size, Neg(v), Neg(u), Start4(k, size, u, v, p))
  {
  }

  lemma FirstJoin(p: Point, u: Point, v: Point, l: int, s: int)
    ensures Offset(p, u, l + s, v, 0) == Plus(Plus(p, Scale(u, l)), Scale(u, s))
  {
  }

  lemma SecondJoin(p: Point, u: Point, v: Point, l: int, s: int)
    ensures Offset(p, u, l + s, v, l + s)
      == Plus(Plus(Offset(p, u, l + s, v, 0), Scale(v, l)), Scale(v, s))
  {
  }

  lemma ThirdJoin(p: Point, u: Point, v: Point, l: int, s: int)
    ensures Offset(p, u, l, v, 2 * l + s)
      == Plus(Plus(Offset(p, u, l + s, v, l + s), Scale(v, l)), Scale(Neg(u), s))
  {
  }

  lemma LastEnd(p: Point, u: Point, v: Point, l: int, s: int)
    ensures Plus(Offset(p, u, l, v, 2 * l + s), Scale(Neg(u), l)) == Plus(p, Scale(v, 2 * l + s))
  {
  }

  /** The quarters of an order-k curve start at the corners (l + size, 0),
      (l + size, l + size) and (l, 2l + size) of its frame, l the side of a
      quarter. */
  /** An order-k curve ends Side(k) along v from its start. */
  lemma {:induction false} EndFormula(k: nat, size: int, u: Point, v: Point, start: Point)
    ensures End(k, size, u, v, start) == Plus(start, Scale(v, Side(k, size)))
    decreases k, 3
  {
    if k > 0 {
      var l := Side(k - 1, size);
      Start4At(k, size, u, v, start);
      EndFormula(k - 1, size, Neg(v), Neg(u), Start4(k, size, u, v, start));
      LastEnd(start, u, v, l, size);
    }
  }

  /** The quarters of an order-k curve start at the corners (l + size, 0),
      (l + size, l + size) and (l, 2l + size) of its frame, l the side of a
      quarter. */
  lemma Start2At(k: nat, size: int, u: Point, v: Point, start: Point)
    requires k > 0
    ensures Start2(k, size, u, v, start) == Offset(start, u, Side(k - 1, size) + size, v, 0)
    decreases k, 0
  {
    EndFormula(k - 1, size, v, u, start);
    FirstJoin(start, u, v, Side(k - 1, size), size);
  }

  lemma Start3At(k: nat, size: int, u: Point, v: Point, start: Point)
    requires k > 0
    ensures var l := Side(k - 1, size);
      Start3(k, size, u, v, start) == Offset(start, u, l + size, v, l + size)
    decreases k, 1
  {
    Start2At(k, size, u, v, start);
    EndFormula(k - 1, size, u, v, Start2(k, size, u, v, start));
    SecondJoin(start, u, v, Side(k - 1, size), size);
  }

  lemma Start4At(k: nat, size: int, u: Point, v: Point, start: Point)
    requires k > 0
    ensures var l := Side(k - 1, size);
      Start4(k, size, u, v, start) == Offset(start, u, l, v, 2 * l + size)
    decreases k, 2
  {
    Start3At(k, size, u, v, start);
    EndFormula(k - 1, size, u, v, Start3(k, size, u, v, start));
    ThirdJoin(start, u, v, Side(k - 1, size), size);
  }

  /** makeCurve(0, 1) on an order-k curve appends 4^k corners. */
  lemma {:induction false} HilbertLength(k: nat, size: int, u: Point, v: Point, start: Point)
    ensures |Hilbert(k, size, u, v, start)| == Pow(4, k)
  {
    if k > 0 {
      HilbertLength(k - 1, size, v, u, start);
      HilbertLength(k - 1, size, u, v, Start2(k, size, u, v, start));
      HilbertLength(k - 1, size, u, v, Start3(k, size, u, v, start));
      HilbertLength(k - 1, size, Neg(v), Neg(u), Start4(k, size, u, v, start));
    }
  }

  /** The curve begins at its start. */
  lemma HilbertFirst(k: nat, size: int, u: Point, v: Point, start: Point)
    ensures |Hilbert(k, size, u, v, start)| > 0
    ensures Hilbert(k, size, u, v, start)[0] == start
  {
    if k > 0 {
      HilbertFirst(k - 1, size, v, u, start);
    }
  }

  /** The curve finishes at its end. */
  lemma {:induction false} HilbertLast(k: nat, size: int, u: Point, v: Point, start: Point)
    ensures |Hilbert(k, size, u, v, start)| > 0
    ensures Last(Hilbert(k, size, u, v, start)) == End(k, size, u, v, start)
  {
    if k > 0 {
      HilbertLast(k - 1, size, Neg(v), Neg(u), Start4(k, size, u, v, start));
    }
  }

  /** Between every two consecutive corners there is exactly one move of
      newPosition: length size along one of the axes of the frame. */
  lemma HilbertSteps(k: nat, size: int, u: Point, v: Point, start: Point)
    ensures FrameSteps(Hilbert(k, size, u, v, start), size, u, v)
  {
    var next := Plus(End(k, size, u, v, start), Scale(v, size));
    HilbertStepsTo(k, size, u, v, start, next);
    FrameStepsPrefix(Hilbert(k, size, u, v, start), next, size, u, v);
  }

  /** The same, with one more move from the end of the curve to `next`. */
  lemma {:induction false} HilbertStepsTo(k: nat, size: int, u: Point, v: Point, start: Point, next: Point)
    requires FrameStep(End(k, size, u, v, start), next, size, u, v)
    ensures FrameSteps(Hilbert(k, size, u, v, start) + [next], size, u, v)
  {
    if k == 0 {
      var pts := Hilbert(k, size, u, v, start) + [next];
      assert pts == [start, next];
      assert StepAt(pts, 0, size, u, v);
      return;
    }
    var s2, s3, s4 := Start2(k, size, u, v, start), Start3(k, size, u, v, start), Start4(k, size, u, v, start);
    var c1, c2 := Hilbert(k - 1, size, v, u, start), Hilbert(k - 1, size, u, v, s2);
    var c3, c4 := Hilbert(k - 1, size, u, v, s3), Hilbert(k - 1, size, Neg(v), Neg(u), s4);
    HilbertStepsTo(k - 1, size, v, u, start, s2);
    FrameStepsSwap(c1 + [s2], size, u, v);
    HilbertStepsTo(k - 1, size, u, v, s2, s3);
    HilbertStepsTo(k - 1, size, u, v, s3, s4);
    FrameStepNeg(End(k, size, u, v, start), next, size, u, v);
    HilbertStepsTo(k - 1, size, Neg(v), Neg(u), s4, next);
    FrameStepsNeg(c4 + [next], size, u, v);
    HilbertFirst(k - 1, size, u, v, s2);
    HilbertFirst(k - 1, size, u, v, s3);
    HilbertFirst(k - 1, size, Neg(v), Neg(u), s4);
    StepsGlue4(c1, c2, c3, c4, next, size, u, v);
  }

  lemma FrameStepNeg(a: Point, b: Point, size: int, u: Point, v: Point)
    requires FrameStep(a, b, size, u, v)
    ensures FrameStep(a, b, size, Neg(v), Neg(u))
  {
    assert Neg(Neg(u)) == u && Neg(Neg(v)) == v;
  }

  lemma FrameStepsPrefix(pts: seq<Point>, next: Point, size: int, u: Point, v: Point)
    requires FrameSteps(pts + [next], size, u, v)
    ensures FrameSteps(pts, size, u, v)
  {
    var all := pts + [next];
    forall i: nat | i + 1 < |pts|
      ensures StepAt(pts, i, size, u, v)
    {
      assert StepAt(all, i, size, u, v);
      assert all[i] == pts[i] && all[i + 1] == pts[i + 1];
    }
  }

  /** Two runs of moves glued where the first ends on the first point of the
      second. */
  lemma StepsGlue(a: seq<Point>, b: seq<Point>, next: Point, size: int, u: Point, v: Point)
    requires |b| > 0
    requires FrameSteps(a + [b[0]], size, u, v) && FrameSteps(b + [next], size, u, v)
    ensures FrameSteps(a + b + [next], size, u, v)
  {
    var p, q, r := a + [b[0]], b + [next], a + b + [next];
    forall i: nat | i + 1 < |r|
      ensures StepAt(r, i, size, u, v)
    {
      if i < |a| {
        assert StepAt(p, i, size, u, v);
        assert r[i] == p[i] && r[i + 1] == p[i + 1];
      } else {
        assert StepAt(q, i - |a|, size, u, v);
        assert r[i] == q[i - |a|] && r[i + 1] == q[i + 1 - |a|];
      }
    }
  }

  lemma StepsGlue4(c1: seq<Point>, c2: seq<Point>, c3: seq<Point>, c4: seq<Point>, next: Point,
                   size: int, u: Point, v: Point)
    requires |c2| > 0 && |c3| > 0 && |c4| > 0
    requires FrameSteps(c1 + [c2[0]], size, u, v) && FrameSteps(c2 + [c3[0]], size, u, v)
    requires FrameSteps(c3 + [c4[0]], size, u, v) && FrameSteps(c4 + [next], size, u, v)
    ensures FrameSteps(c1 + c2 + c3 + c4 + [next], size, u, v)
  {
    StepsGlue(c3, c4, next, size, u, v);
    assert (c3 + c4)[0] == c3[0];
    StepsGlue(c2, c3 + c4, next, size, u, v);
    assert (c2 + (c3 + c4))[0] == c2[0];
    StepsGlue(c1, c2 + (c3 + c4), next, size, u, v);
    assert c1 + (c2 + (c3 + c4)) + [next] == c1 + c2 + c3 + c4 + [next];
  }

  /** q lies in the square of side `side` spanned from `corner` along u and v. */
  predicate InSquare(q: Point, corner: Point, u: Point, v: Point, side: int) {
    exists a, b :: 0 <= a <= side && 0 <= b <= side && q == Offset(corner, u, a, v, b)
  }

  lemma OffsetSwap(p: Point, u: Point, v: Point, a: int, b: int)
    ensures Offset(p, v, b, u, a) == Offset(p, u, a, v, b)
  {
  }

  lemma OffsetShift(p: Point, u: Point, v: Point, a0: int, b0: int, a: int, b: int)
    ensures Offset(Offset(p, u, a0, v, b0), u, a, v, b) == Offset(p, u, a0 + a, v, b0 + b)
  {
  }

  lemma OffsetTurn(p: Point, u: Point, v: Point, a0: int, b0: int, a: int, b: int)
    ensures Offset(Offset(p, u, a0, v, b0), Neg(v), a, Neg(u), b) == Offset(p, u, a0 - b, v, b0 - a)
  {
  }

  /** Every corner of pts lies in the square of side `side` spanned from
      `corner` along u and v. */
  ghost predicate AllInSquare(pts: seq<Point>, corner: Point, u: Point, v: Point, side: int) {
    forall q :: q in pts ==> InSquare(q, corner, u, v, side)
  }

  /** A square of side l inside the frame (u, v) with its corner at (a0, b0)
      lies inside the square of side `side`. */
  lemma SubSquare(c: seq<Point>, p: Point, u: Point, v: Point, a0: int, b0: int, l: int, side: int)
    requires 0 <= a0 && a0 + l <= side && 0 <= b0 && b0 + l <= side
    requires AllInSquare(c, Offset(p, u, a0, v, b0), u, v, l)
    ensures AllInSquare(c, p, u, v, side)
  {
    forall q | q in c ensures InSquare(q, p, u, v, side) {
      var a, b :| 0 <= a <= l && 0 <= b <= l && q == Offset(Offset(p, u, a0, v, b0), u, a, v, b);
      OffsetShift(p, u, v, a0, b0, a, b);
    }
  }

  /** The same for a square whose frame has its axes exchanged. */
  lemma SwappedSquare(c: seq<Point>, p: Point, u: Point, v: Point, l: int, side: int)
    requires l <= side
    requires AllInSquare(c, p, v, u, l)
    ensures AllInSquare(c, p, u, v, side)
  {
    forall q | q in c ensures InSquare(q, p, u, v, side) {
      var a, b :| 0 <= a <= l && 0 <= b <= l && q == Offset(p, v, a, u, b);
      OffsetSwap(p, u, v, b, a);
    }
  }

  /** The same for a square turned half round with its axes exchanged, whose
      corner is at (a0, b0). */
  lemma TurnedSquare(c: seq<Point>, p: Point, u: Point, v: Point, a0: int, b0: int, l: int, side: int)
    requires l <= a0 <= side && l <= b0 <= side
    requires AllInSquare(c, Offset(p, u, a0, v, b0), Neg(v), Neg(u), l)
    ensures AllInSquare(c, p, u, v, side)
  {
    forall q | q in c ensures InSquare(q, p, u, v, side) {
      var a, b :| 0 <= a <= l && 0 <= b <= l && q == Offset(Offset(p, u, a0, v, b0), Neg(v), a, Neg(u), b);
      OffsetTurn(p, u, v, a0, b0, a, b);
    }
  }

  lemma AllInSquareJoin(c1: seq<Point>, c2: seq<Point>, c3: seq<Point>, c4: seq<Point>,
                        p: Point, u: Point, v: Point, side: int)
    requires AllInSquare(c1, p, u, v, side) && AllInSquare(c2, p, u, v, side)
    requires AllInSquare(c3, p, u, v, side) && AllInSquare(c4, p, u, v, side)
    ensures AllInSquare(c1 + c2 + c3 + c4, p, u, v, side)
  {
  }

  /** With size >= 0 the curve stays inside the square of side Side(k)
      spanned from its start along u and v. */
  lemma {:induction false} HilbertInSquare(k: nat, size: int, u: Point, v: Point, start: Point)
    requires size >= 0
    ensures AllInSquare(Hilbert(k, size, u, v, start), start, u, v, Side(k, size))
  {
    if k == 0 {
      assert start == Offset(start, u, 0, v, 0);
      assert InSquare(start, start, u, v, 0);
      return;
    }
    var l, side := Side(k - 1, size), Side(k, size);
    var s2, s3, s4 := Start2(k, size, u, v, start), Start3(k, size, u, v, start), Start4(k, size, u, v, start);
    Start2At(k, size, u, v, start);
    Start3At(k, size, u, v, start);
    Start4At(k, size, u, v, start);
    var c1, c2 := Hilbert(k - 1, size, v, u, start), Hilbert(k - 1, size, u, v, s2);
    var c3, c4 := Hilbert(k - 1, size, u, v, s3), Hilbert(k - 1, size, Neg(v), Neg(u), s4);
    HilbertInSquare(k - 1, size, v, u, start);
    SwappedSquare(c1, start, u, v, l, side);
    HilbertInSquare(k - 1, size, u, v, s2);
    SubSquare(c2, start, u, v, l + size, 0, l, side);
    HilbertInSquare(k - 1, size, u, v, s3);
    SubSquare(c3, start, u, v, l + size, l + size, l, side);
    HilbertInSquare(k - 1, size, Neg(v), Neg(u), s4);
    TurnedSquare(c4, start, u, v, l, 2 * l + size, l, side);
    AllInSquareJoin(c1, c2, c3, c4, start, u, v, side);
  }
}
