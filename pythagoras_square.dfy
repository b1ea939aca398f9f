/** Class Square of pythagoras_tree.py: one square of a Pythagoras tree, its
    rotation about a corner and makeTree, which builds the two squares on
    each square's top edge, depth first, down to the tree's order.

    Coordinates are reals. Angles are kept in whole degrees: every angle the
    source rotates by is a sum of the degrees typed into the angle entries,
    which the source converts to radians before calling math.sin and
    math.cos. Those functions and math.sqrt are a parameter of type Maths. */
module PythagorasSquare {
  import opened Colour
  import opened Matrix

  datatype Vec = Vec(x: real, y: real)

  /** The floating-point library: sin and cos of a whole number of degrees
      (math.sin(math.radians(d)), math.cos(math.radians(d))) and math.sqrt. */
  datatype Maths = Maths(sin: int -> real, cos: int -> real, sqrt: real -> real)

  /** What the model assumes of the library: sin and cos lie on the unit
      circle, sin is 0 at 0 and positive on (0, 180] (math.radians(180) falls
      just short of pi, so math.sin gives a small positive value there), and
      sqrt is the non-negative square root. */
  ghost predicate ValidMaths(m: Maths) {
    && (forall d :: m.sin(d) * m.sin(d) + m.cos(d) * m.cos(d) == 1.0)
    && m.sin(0) == 0.0
    && (forall d :: 0 < d <= 180 ==> m.sin(d) > 0.0)
    && (forall x :: 0.0 <= x ==> 0.0 <= m.sqrt(x) && m.sqrt(x) * m.sqrt(x) == x)
  }

  function Dist2(p: Vec, q: Vec): real {
    (q.x - p.x) * (q.x - p.x) + (q.y - p.y) * (q.y - p.y)
  }

  /** The fields of a square. */
  datatype SquareVal = SquareVal(side: real, corners: seq<Vec>, order: int, angle: int)

  /** Square.__init__'s side: the distance from the first corner to the
      second. */
  function SideOf(m: Maths, corners: seq<Vec>): real
    requires |corners| >= 2
  {
    m.sqrt(Dist2(corners[0], corners[1]))
  }

  /** A square as Square.__init__ makes it: unrotated. */
  function Make(m: Maths, corners: seq<Vec>, order: int): SquareVal
    requires |corners| >= 2
  {
    SquareVal(SideOf(m, corners), corners, order, 0)
  }

  /** q turned by a degrees about p: the column-major matrix rotateSquare
      builds, [cos, sin, 0], [-sin, cos, 0], [tx, ty, 1], applied to the
      column [q.x, q.y, 1]. */
  function RotateAbout(m: Maths, p: Vec, a: int, q: Vec): Vec {
    Turn(m.sin(a), m.cos(a), TranslateX(m.sin(a), m.cos(a), p), TranslateY(m.sin(a), m.cos(a), p), q)
  }

  /** rotateSquare's translatex and translatey for sine s and cosine c: the
      translation that keeps the pivot p in place. */
  function TranslateX(s: real, c: real, p: Vec): real {
    p.x * (1.0 - c) + p.y * s
  }

  function TranslateY(s: real, c: real, p: Vec): real {
    p.y * (1.0 - c) - p.x * s
  }

  /** The affine map of that matrix for given values of its entries. */
  function Turn(s: real, c: real, tx: real, ty: real, q: Vec): Vec {
    Vec(c * q.x - s * q.y + tx, s * q.x + c * q.y + ty)
  }

  /** The corners after rotateSquare(k, a): the first four turned about
      corner k. */
  function Rotated(m: Maths, cs: seq<Vec>, k: int, a: int): (r: seq<Vec>)
    requires |cs| >= 4 && 0 <= k < |cs|
    ensures |r| == |cs|
  {
    seq(|cs|, i requires 0 <= i < |cs| => if i < 4 then RotateAbout(m, cs[k], a, cs[i]) else cs[i])
  }

  /** The pivot does not move. */
  lemma RotateAboutFixes(m: Maths, p: Vec, a: int)
    ensures RotateAbout(m, p, a, p) == p
  {
    TurnFixes(m.sin(a), m.cos(a), p);
  }

  lemma TurnFixes(s: real, c: real, p: Vec)
    ensures Turn(s, c, TranslateX(s, c, p), TranslateY(s, c, p), p) == p
  {
    assert c * p.x - s * p.y + (p.x * (1.0 - c) + p.y * s) == p.x;
    assert s * p.x + c * p.y + (p.y * (1.0 - c) - p.x * s) == p.y;
  }

  /** With sin^2 + cos^2 = 1 the rotation keeps every distance. */
  lemma RotateAboutKeepsDistance(m: Maths, p: Vec, a: int, q1: Vec, q2: Vec)
    requires m.sin(a) * m.sin(a) + m.cos(a) * m.cos(a) == 1.0
    ensures Dist2(RotateAbout(m, p, a, q1), RotateAbout(m, p, a, q2)) == Dist2(q1, q2)
  {
    TurnKeepsDistance(m.sin(a), m.cos(a), TranslateX(m.sin(a), m.cos(a), p), TranslateY(m.sin(a), m.cos(a), p), q1, q2);
  }

  lemma TurnKeepsDistance(s: real, c: real, tx: real, ty: real, q1: Vec, q2: Vec)
    requires s * s + c * c == 1.0
    ensures Dist2(Turn(s, c, tx, ty, q1), Turn(s, c, tx, ty, q2)) == Dist2(q1, q2)
  {
    Shift(s, c, q1.x, q1.y, q2.x, q2.y, tx, ty);
    RotationNorm(s, c, q2.x - q1.x, q2.y - q1.y);
  }

  /** The difference of two turned points is the turned difference. */
  lemma Shift(s: real, c: real, x1: real, y1: real, x2: real, y2: real, tx: real, ty: real)
    ensures (c * x2 - s * y2 + tx) - (c * x1 - s * y1 + tx) == c * (x2 - x1) - s * (y2 - y1)
    ensures (s * x2 + c * y2 + ty) - (s * x1 + c * y1 + ty) == s * (x2 - x1) + c * (y2 - y1)
  {
  }

  /** Turning (u, v) by a unit (c, s) keeps its length. */
  lemma RotationNorm(s: real, c: real, u: real, v: real)
    requires s * s + c * c == 1.0
    ensures (c * u - s * v) * (c * u - s * v) + (s * u + c * v) * (s * u + c * v) == u * u + v * v
  {
    Lagrange(s, c, u, v);
  }

  lemma Lagrange(s: real, c: real, u: real, v: real)
    ensures (c * u - s * v) * (c * u - s * v) + (s * u + c * v) * (s * u + c * v) == (s * s + c * c) * (u * u + v * v)
  {
  }

  /** rotateSquare keeps its pivot and every distance between corners. */
  lemma RotatedIsRigid(m: Maths, cs: seq<Vec>, k: int, a: int, i: int, j: int)
    requires ValidMaths(m) && |cs| >= 4 && 0 <= k < 4 && 0 <= i < |cs| && 0 <= j < |cs|
    requires i < 4 && j < 4
    ensures Rotated(m, cs, k, a)[k] == cs[k]
    ensures Dist2(Rotated(m, cs, k, a)[i], Rotated(m, cs, k, a)[j]) == Dist2(cs[i], cs[j])
  {
    RotateAboutFixes(m, cs[k], a);
    RotateAboutKeepsDistance(m, cs[k], a, cs[i], cs[j]);
  }

  /** The non-negative square root of d * d is d. */
  lemma SqrtOfSquare(m: Maths, d: real)
    requires ValidMaths(m) && d >= 0.0
    ensures m.sqrt(d * d) == d
  {
    var r := m.sqrt(d * d);
    assert r >= 0.0 && r * r == d * d;
    if r < d {
      SquareLess(r, d);
    } else if d < r {
      SquareLess(d, r);
    }
  }

  lemma SquareLess(a: real, b: real)
    requires 0.0 <= a < b
    ensures a * a < b * b
  {
    MulNonNegative(a, b - a);
    MulPositive(b, b - a);
    assert a * (b - a) == a * b - a * a;
    assert b * (b - a) == b * b - a * b;
    calc {
      a * a;
    <=
      a * b;
    <
      b * b;
    }
  }

  lemma MulNonNegative(x: real, y: real)
    requires x >= 0.0 && y >= 0.0
    ensures x * y >= 0.0
  {
  }

  lemma MulPositive(x: real, y: real)
    requires x > 0.0 && y > 0.0
    ensures x * y > 0.0
  {
  }

  /** The divisor of both child sides in makeTree:
      sin(180 - (leftAngle + rightAngle)). */
  function Divisor(m: Maths, leftAngle: int, rightAngle: int): real {
    m.sin(180 - (leftAngle + rightAngle))
  }

  /** The corners of the left child before its rotation: a square of side
      d standing on corner 3 of its parent. */
  function LeftBase(c3: Vec, d: real): seq<Vec> {
    [c3, Vec(c3.x + d, c3.y), Vec(c3.x + d, c3.y - d), Vec(c3.x, c3.y - d)]
  }

  /** The corners of the right child before its rotation: a square of side
      d whose corner 1 is corner 2 of its parent. */
  function RightBase(c2: Vec, d: real): seq<Vec> {
    [Vec(c2.x - d, c2.y), c2, Vec(c2.x, c2.y - d), Vec(c2.x - d, c2.y - d)]
  }

  function LeftSide(m: Maths, s: SquareVal, leftAngle: int, rightAngle: int): real
    requires Divisor(m, leftAngle, rightAngle) != 0.0
  {
    s.side * m.sin(rightAngle) / Divisor(m, leftAngle, rightAngle)
  }

  function RightSide(m: Maths, s: SquareVal, leftAngle: int, rightAngle: int): real
    requires Divisor(m, leftAngle, rightAngle) != 0.0
  {
    s.side * m.sin(leftAngle) / Divisor(m, leftAngle, rightAngle)
  }

  /** makeTree's left child of s: built on corner 3, turned by -leftAngle
      more than s about its corner 0, one order deeper. */
  function LeftChild(m: Maths, s: SquareVal, leftAngle: int, rightAngle: int): SquareVal
    requires |s.corners| >= 4 && Divisor(m, leftAngle, rightAngle) != 0.0
  {
    var base := LeftBase(s.corners[3], LeftSide(m, s, leftAngle, rightAngle));
    var a := s.angle - leftAngle;
    SquareVal(SideOf(m, base), Rotated(m, base, 0, a), s.order + 1, a)
  }

  /** makeTree's right child of s: built on corner 2, turned by rightAngle
      more than s about its corner 1, one order deeper. */
  function RightChild(m: Maths, s: SquareVal, leftAngle: int, rightAngle: int): SquareVal
    requires |s.corners| >= 4 && Divisor(m, leftAngle, rightAngle) != 0.0
  {
    var base := RightBase(s.corners[2], RightSide(m, s, leftAngle, rightAngle));
    var a := s.angle + rightAngle;
    SquareVal(SideOf(m, base), Rotated(m, base, 1, a), s.order + 1, a)
  }

  /** What makeTree can be called on: a square of four corners no deeper
      than the tree, whose children's sides can be computed if it has any. */
  predicate CanGrow(m: Maths, s: SquareVal, leftAngle: int, rightAngle: int, order: int) {
    && |s.corners| >= 4
    && s.order <= order
    && (s.order < order ==> Divisor(m, leftAngle, rightAngle) != 0.0)
  }

  /** The squares makeTree appends for s, in the order it appends them: the
      left child, its squares, the right child, its squares. */
  function Descendants(m: Maths, s: SquareVal, leftAngle: int, rightAngle: int, order: int): seq<SquareVal>
    requires CanGrow(m, s, leftAngle, rightAngle, order)
    decreases order - s.order
  {
    if s.order == order then []
    else
      var l := LeftChild(m, s, leftAngle, rightAngle);
      var r := RightChild(m, s, leftAngle, rightAngle);
      [l] + Descendants(m, l, leftAngle, rightAngle, order) + [r] + Descendants(m, r, leftAngle, rightAngle, order)
  }

  /** Descendants of a square that has children, from its children's. */
  lemma DescendantsOf(m: Maths, s: SquareVal, leftAngle: int, rightAngle: int, order: int,
                      l: SquareVal, leftVals: seq<SquareVal>, r: SquareVal, rightVals: seq<SquareVal>)
    requires CanGrow(m, s, leftAngle, rightAngle, order) && s.order < order
    requires l == LeftChild(m, s, leftAngle, rightAngle) && leftVals == Descendants(m, l, leftAngle, rightAngle, order)
    requires r == RightChild(m, s, leftAngle, rightAngle) && rightVals == Descendants(m, r, leftAngle, rightAngle, order)
    ensures Descendants(m, s, leftAngle, rightAngle, order) == [l] + leftVals + [r] + rightVals
  {
    assert CanGrow(m, l, leftAngle, rightAngle, order);
  }

  /** The appended squares: 2^(order - s.order + 1) - 2 of them. */
  lemma {:induction false} DescendantsCount(m: Maths, s: SquareVal, leftAngle: int, rightAngle: int, order: int)
    requires CanGrow(m, s, leftAngle, rightAngle, order)
    ensures |Descendants(m, s, leftAngle, rightAngle, order)| == Pow(2, order - s.order + 1) - 2
    decreases order - s.order
  {
    if s.order < order {
      var l := LeftChild(m, s, leftAngle, rightAngle);
      var r := RightChild(m, s, leftAngle, rightAngle);
      DescendantsCount(m, l, leftAngle, rightAngle, order);
      DescendantsCount(m, r, leftAngle, rightAngle, order);
      assert Pow(2, order - s.order + 1) == 2 * Pow(2, order - l.order + 1);
    }
  }

  /** Every appended square is deeper than s by at least one, at most down
      to the tree's order, and has four corners. */
  lemma {:induction false} DescendantsOrders(m: Maths, s: SquareVal, leftAngle: int, rightAngle: int, order: int)
    requires CanGrow(m, s, leftAngle, rightAngle, order)
    ensures forall t :: t in Descendants(m, s, leftAngle, rightAngle, order) ==>
              s.order < t.order <= order && |t.corners| == 4
    decreases order - s.order
  {
    if s.order < order {
      var l := LeftChild(m, s, leftAngle, rightAngle);
      var r := RightChild(m, s, leftAngle, rightAngle);
      DescendantsOrders(m, l, leftAngle, rightAngle, order);
      DescendantsOrders(m, r, leftAngle, rightAngle, order);
    }
  }

  /** The children hang on the parent's top edge and turn with it: the left
      child's corner 0 is the parent's corner 3, the right child's corner 1
      is the parent's corner 2, and their angles add -leftAngle and
      rightAngle to the parent's. */
  lemma ChildrenOnTopEdge(m: Maths, s: SquareVal, leftAngle: int, rightAngle: int)
    requires |s.corners| >= 4 && Divisor(m, leftAngle, rightAngle) != 0.0
    ensures LeftChild(m, s, leftAngle, rightAngle).corners[0] == s.corners[3]
    ensures RightChild(m, s, leftAngle, rightAngle).corners[1] == s.corners[2]
    ensures LeftChild(m, s, leftAngle, rightAngle).angle == s.angle - leftAngle
    ensures RightChild(m, s, leftAngle, rightAngle).angle == s.angle + rightAngle
  {
    RotateAboutFixes(m, s.corners[3], s.angle - leftAngle);
    RotateAboutFixes(m, s.corners[2], s.angle + rightAngle);
  }

  /** Four corners, in order, that bound a square of side d: every edge is d
      long and both diagonals are d * sqrt 2 long. */
  predicate IsSquare(cs: seq<Vec>, d: real) {
    && |cs| == 4
    && Dist2(cs[0], cs[1]) == d * d && Dist2(cs[1], cs[2]) == d * d
    && Dist2(cs[2], cs[3]) == d * d && Dist2(cs[3], cs[0]) == d * d
    && Dist2(cs[0], cs[2]) == 2.0 * d * d && Dist2(cs[1], cs[3]) == 2.0 * d * d
  }

  lemma RotatedSquare(m: Maths, cs: seq<Vec>, k: int, a: int, d: real)
    requires ValidMaths(m) && IsSquare(cs, d) && 0 <= k < 4
    ensures IsSquare(Rotated(m, cs, k, a), d)
  {
    RotatedIsRigid(m, cs, k, a, 0, 1);
    RotatedIsRigid(m, cs, k, a, 1, 2);
    RotatedIsRigid(m, cs, k, a, 2, 3);
    RotatedIsRigid(m, cs, k, a, 3, 0);
    RotatedIsRigid(m, cs, k, a, 0, 2);
    RotatedIsRigid(m, cs, k, a, 1, 3);
  }

  /** For angles of a proper triangle on the parent's top edge, each child
      is a square whose side is the parent's side scaled by the sine rule,
      and Square.__init__ measures that side. */
  lemma ChildrenAreSquares(m: Maths, s: SquareVal, leftAngle: int, rightAngle: int)
    requires ValidMaths(m) && |s.corners| >= 4 && s.side >= 0.0
    requires 0 <= leftAngle <= 90 && 0 <= rightAngle <= 90 && leftAngle + rightAngle < 180
    ensures Divisor(m, leftAngle, rightAngle) > 0.0
    ensures IsSquare(LeftChild(m, s, leftAngle, rightAngle).corners, LeftSide(m, s, leftAngle, rightAngle))
    ensures LeftChild(m, s, leftAngle, rightAngle).side == LeftSide(m, s, leftAngle, rightAngle)
    ensures IsSquare(RightChild(m, s, leftAngle, rightAngle).corners, RightSide(m, s, leftAngle, rightAngle))
    ensures RightChild(m, s, leftAngle, rightAngle).side == RightSide(m, s, leftAngle, rightAngle)
  {
    SidesNonNegative(m, s, leftAngle, rightAngle);
    LeftChildIsSquare(m, s, leftAngle, rightAngle);
    RightChildIsSquare(m, s, leftAngle, rightAngle);
  }

  lemma SidesNonNegative(m: Maths, s: SquareVal, leftAngle: int, rightAngle: int)
    requires ValidMaths(m) && s.side >= 0.0
    requires 0 <= leftAngle <= 90 && 0 <= rightAngle <= 90 && leftAngle + rightAngle < 180
    ensures Divisor(m, leftAngle, rightAngle) > 0.0
    ensures LeftSide(m, s, leftAngle, rightAngle) >= 0.0 && RightSide(m, s, leftAngle, rightAngle) >= 0.0
  {
    assert Divisor(m, leftAngle, rightAngle) > 0.0;
    assert m.sin(rightAngle) >= 0.0 by { if rightAngle != 0 { assert 0 < rightAngle <= 180; } }
    assert m.sin(leftAngle) >= 0.0 by { if leftAngle != 0 { assert 0 < leftAngle <= 180; } }
    NonNegativeSide(s.side, m.sin(rightAngle), Divisor(m, leftAngle, rightAngle));
    NonNegativeSide(s.side, m.sin(leftAngle), Divisor(m, leftAngle, rightAngle));
  }

  lemma LeftChildIsSquare(m: Maths, s: SquareVal, leftAngle: int, rightAngle: int)
    requires ValidMaths(m) && |s.corners| >= 4 && Divisor(m, leftAngle, rightAngle) != 0.0
    requires LeftSide(m, s, leftAngle, rightAngle) >= 0.0
    ensures IsSquare(LeftChild(m, s, leftAngle, rightAngle).corners, LeftSide(m, s, leftAngle, rightAngle))
    ensures LeftChild(m, s, leftAngle, rightAngle).side == LeftSide(m, s, leftAngle, rightAngle)
  {
    var ls := LeftSide(m, s, leftAngle, rightAngle);
    BasesAreSquares(s.corners[3], s.corners[2], ls, ls);
    TurnedSquare(m, LeftBase(s.corners[3], ls), 0, s.angle - leftAngle, ls);
  }

  lemma RightChildIsSquare(m: Maths, s: SquareVal, leftAngle: int, rightAngle: int)
    requires ValidMaths(m) && |s.corners| >= 4 && Divisor(m, leftAngle, rightAngle) != 0.0
    requires RightSide(m, s, leftAngle, rightAngle) >= 0.0
    ensures IsSquare(RightChild(m, s, leftAngle, rightAngle).corners, RightSide(m, s, leftAngle, rightAngle))
    ensures RightChild(m, s, leftAngle, rightAngle).side == RightSide(m, s, leftAngle, rightAngle)
  {
    var rs := RightSide(m, s, leftAngle, rightAngle);
    BasesAreSquares(s.corners[3], s.corners[2], rs, rs);
    TurnedSquare(m, RightBase(s.corners[2], rs), 1, s.angle + rightAngle, rs);
  }

  /** A square of side d >= 0, turned about one of its corners, is still a
      square of side d, and Square.__init__ measures d. */
  lemma TurnedSquare(m: Maths, base: seq<Vec>, k: int, a: int, d: real)
    requires ValidMaths(m) && IsSquare(base, d) && d >= 0.0 && 0 <= k < 4
    ensures SideOf(m, base) == d && IsSquare(Rotated(m, base, k, a), d)
  {
    SqrtOfSquare(m, d);
    RotatedSquare(m, base, k, a, d);
  }

  lemma NonNegativeSide(side: real, sin: real, dv: real)
    requires side >= 0.0 && sin >= 0.0 && dv > 0.0
    ensures side * sin / dv >= 0.0
  {
    assert side * sin >= 0.0;
  }

  lemma BasesAreSquares(c3: Vec, c2: Vec, ls: real, rs: real)
    ensures IsSquare(LeftBase(c3, ls), ls)
    ensures IsSquare(RightBase(c2, rs), rs)
  {
  }

  /** rotateSquare's matrix times the column [q.x, q.y, 1] holds q's image
      in its first two entries. */
  lemma MatrixTurns(s: real, c: real, tx: real, ty: real, q: Vec, r: Matrix)
    requires Readable([[c, s, 0.0], [-1.0 * s, c, 0.0], [tx, ty, 1.0]], [[q.x, q.y, 1.0]])
    requires IsProduct([[c, s, 0.0], [-1.0 * s, c, 0.0], [tx, ty, 1.0]], [[q.x, q.y, 1.0]], r)
    ensures |r| == 1 && |r[0]| == 3 && Vec(r[0][0], r[0][1]) == Turn(s, c, tx, ty, q)
  {
    AffineColumn([c, s, 0.0], [-1.0 * s, c, 0.0], [tx, ty, 1.0], q.x, q.y, r);
  }

  /** One square of the tree. */
  class Square {
    var side: real
    var corners: seq<Vec>
    var order: int
    var angle: int

    function Val(): SquareVal
      reads this
    {
      SquareVal(side, corners, order, angle)
    }

    /** Square.__init__: the side is measured between the first two corners
        and the square starts unrotated. */
    constructor (m: Maths, corners: seq<Vec>, order: int)
      requires |corners| >= 2
      ensures Val() == Make(m, corners, order)
    {
      assert Dist2(corners[0], corners[1]) ==
        (corners[1].x - corners[0].x) * (corners[1].x - corners[0].x) +
        (corners[1].y - corners[0].y) * (corners[1].y - corners[0].y);
      side := m.sqrt((corners[1].x - corners[0].x) * (corners[1].x - corners[0].x) +
                     (corners[1].y - corners[0].y) * (corners[1].y - corners[0].y));
      this.corners := corners;
      this.order := order;
      angle := 0;
    }

    /** rotateSquare(cornerNum, a): each of the four corners is multiplied,
        as the column [x, y, 1], by the rotation matrix about corner
        cornerNum. */
    method RotateSquare(m: Maths, cornerNum: int, a: int)
      requires |corners| >= 4 && 0 <= cornerNum < |corners|
      modifies this`corners
      ensures corners == Rotated(m, old(corners), cornerNum, a)
    {
      var sine, cosine := m.sin(a), m.cos(a);
      var p := corners[cornerNum];
      var translatex := p.x * (1.0 - cosine) + p.y * sine;
      var translatey := p.y * (1.0 - cosine) - p.x * sine;
      var transform := [[cosine, sine, 0.0], [-1.0 * sine, cosine, 0.0], [translatex, translatey, 1.0]];
      ghost var cs := corners;
      assert translatex == TranslateX(sine, cosine, p) && translatey == TranslateY(sine, cosine, p);
      for i := 0 to 4
        invariant |corners| == |cs|
        invariant forall j :: 0 <= j < |cs| ==>
          corners[j] == if j < i then Turn(sine, cosine, translatex, translatey, cs[j]) else cs[j]
      {
        var q := corners[i];
        var corner := MatrixMultiplication(transform, [[q.x, q.y, 1.0]]);
        MatrixTurns(sine, cosine, translatex, translatey, q, corner.value);
        corners := corners[i := Vec(corner.value[0][0], corner.value[0][1])];
      }
    }

    /** makeTree(leftAngle, rightAngle, order, listOfSquares): appends this
        square's descendants to the list, depth first, and returns it. The
        squares it appends are new; no square that existed before changes. */
    method MakeTree(m: Maths, leftAngle: int, rightAngle: int, order: int, list: seq<Square>)
      returns (result: seq<Square>)
      requires CanGrow(m, Val(), leftAngle, rightAngle, order)
      ensures |list| <= |result| && result[..|list|] == list
      ensures Val() == old(Val())
      ensures Vals(result) == old(Vals(list)) + Descendants(m, Val(), leftAngle, rightAngle, order)
      decreases order - this.order, 0
    {
      if this.order == order {
        return list;
      }
      ghost var s, before := Val(), Vals(list);
      var leftSquare := LeftSquare(m, leftAngle, rightAngle, list);
      result := leftSquare.Grow(m, leftAngle, rightAngle, order, list);
      ghost var leftResult, mid := result, Vals(result);
      var rightSquare := RightSquare(m, leftAngle, rightAngle, result);
      result := rightSquare.Grow(m, leftAngle, rightAngle, order, result);
      ghost var l, r := LeftChild(m, s, leftAngle, rightAngle), RightChild(m, s, leftAngle, rightAngle);
      ghost var dl, dr := Descendants(m, l, leftAngle, rightAngle, order), Descendants(m, r, leftAngle, rightAngle, order);
      Prefixes(list, leftSquare, leftResult, rightSquare, result);
      DescendantsOf(m, s, leftAngle, rightAngle, order, l, dl, r, dr);
      Assemble(before, l, dl, mid, r, dr, Vals(result), Descendants(m, s, leftAngle, rightAngle, order));
    }

    /** The first half of makeTree's step: the left child, a square of side
        side * sin(rightAngle) / sin(180 - (leftAngle + rightAngle)) standing
        on corner 3, turned by -leftAngle more than this square about its
        corner 0. Nothing that existed before changes. */
    method LeftSquare(m: Maths, leftAngle: int, rightAngle: int, ghost others: seq<Square>) returns (leftSquare: Square)
      requires |corners| >= 4 && Divisor(m, leftAngle, rightAngle) != 0.0
      ensures fresh(leftSquare) && Vals(others) == old(Vals(others))
      ensures leftSquare.Val() == LeftChild(m, Val(), leftAngle, rightAngle)
    {
      var leftSquareSide := side * m.sin(rightAngle) / m.sin(180 - (leftAngle + rightAngle));
      var c3 := corners[3];
      leftSquare := NewTurnedSquare(m, [c3, Vec(c3.x + leftSquareSide, c3.y),
                                        Vec(c3.x + leftSquareSide, c3.y - leftSquareSide),
                                        Vec(c3.x, c3.y - leftSquareSide)], order + 1, angle - leftAngle, 0, others);
      LeftChildIs(m, Val(), leftAngle, rightAngle, c3, leftSquareSide, leftSquare.Val());
    }

    /** The second half: the right child, of side
        side * sin(leftAngle) / sin(180 - (leftAngle + rightAngle)), whose
        corner 1 is corner 2, turned by rightAngle more than this square
        about that corner. */
    method RightSquare(m: Maths, leftAngle: int, rightAngle: int, ghost others: seq<Square>) returns (rightSquare: Square)
      requires |corners| >= 4 && Divisor(m, leftAngle, rightAngle) != 0.0
      ensures fresh(rightSquare) && Vals(others) == old(Vals(others))
      ensures rightSquare.Val() == RightChild(m, Val(), leftAngle, rightAngle)
    {
      var rightSquareSide := side * m.sin(leftAngle) / m.sin(180 - (leftAngle + rightAngle));
      var c2 := corners[2];
      rightSquare := NewTurnedSquare(m, [Vec(c2.x - rightSquareSide, c2.y), c2,
                                         Vec(c2.x, c2.y - rightSquareSide),
                                         Vec(c2.x - rightSquareSide, c2.y - rightSquareSide)], order + 1,
                                     angle + rightAngle, 1, others);
      RightChildIs(m, Val(), leftAngle, rightAngle, c2, rightSquareSide, rightSquare.Val());
    }

    /** listOfSquares.append(square) followed by square.makeTree(...). */
    method Grow(m: Maths, leftAngle: int, rightAngle: int, order: int, list: seq<Square>)
      returns (result: seq<Square>)
      requires CanGrow(m, Val(), leftAngle, rightAngle, order)
      ensures |list| + 1 <= |result| && result[..|list| + 1] == list + [this]
      ensures Val() == old(Val())
      ensures Vals(result) == old(Vals(list)) + [Val()] + Descendants(m, Val(), leftAngle, rightAngle, order)
      decreases order - this.order, 1
    {
      ValsAppend(list, [this]);
      result := MakeTree(m, leftAngle, rightAngle, order, list + [this]);
    }
  }

  lemma LeftChildIs(m: Maths, s: SquareVal, leftAngle: int, rightAngle: int, c3: Vec, d: real, l: SquareVal)
    requires |s.corners| >= 4 && Divisor(m, leftAngle, rightAngle) != 0.0
    requires c3 == s.corners[3] && d == LeftSide(m, s, leftAngle, rightAngle)
    requires var cs := [c3, Vec(c3.x + d, c3.y), Vec(c3.x + d, c3.y - d), Vec(c3.x, c3.y - d)];
      l == SquareVal(SideOf(m, cs), Rotated(m, cs, 0, s.angle - leftAngle), s.order + 1, s.angle - leftAngle)
    ensures l == LeftChild(m, s, leftAngle, rightAngle)
  {
  }

  lemma RightChildIs(m: Maths, s: SquareVal, leftAngle: int, rightAngle: int, c2: Vec, d: real, r: SquareVal)
    requires |s.corners| >= 4 && Divisor(m, leftAngle, rightAngle) != 0.0
    requires c2 == s.corners[2] && d == RightSide(m, s, leftAngle, rightAngle)
    requires var cs := [Vec(c2.x - d, c2.y), c2, Vec(c2.x, c2.y - d), Vec(c2.x - d, c2.y - d)];
      r == SquareVal(SideOf(m, cs), Rotated(m, cs, 1, s.angle + rightAngle), s.order + 1, s.angle + rightAngle)
    ensures r == RightChild(m, s, leftAngle, rightAngle)
  {
  }

  /** The three steps makeTree takes for each child: Square(corners, order),
      then the angle set, then rotateSquare(cornerNum, angle). */
  method NewTurnedSquare(m: Maths, corners: seq<Vec>, order: int, angle: int, cornerNum: int, ghost others: seq<Square>)
    returns (square: Square)
    requires |corners| >= 4 && 0 <= cornerNum < |corners|
    ensures fresh(square)
    ensures Vals(others) == old(Vals(others))
    ensures square.Val() == SquareVal(SideOf(m, corners), Rotated(m, corners, cornerNum, angle), order, angle)
  {
    square := new Square(m, corners, order);
    square.angle := angle;
    square.RotateSquare(m, cornerNum, square.angle);
  }

  /** The list makeTree returns starts with the list it was given. */
  lemma Prefixes(list: seq<Square>, left: Square, leftResult: seq<Square>, right: Square, result: seq<Square>)
    requires |list + [left]| <= |leftResult| && leftResult[..|list + [left]|] == list + [left]
    requires |leftResult + [right]| <= |result| && result[..|leftResult + [right]|] == leftResult + [right]
    ensures |list| <= |result| && result[..|list|] == list
  {
    assert result[..|list|] == leftResult[..|list|];
  }

  lemma Assemble<T>(before: seq<T>, l: T, dl: seq<T>, mid: seq<T>, r: T, dr: seq<T>, final: seq<T>, ds: seq<T>)
    requires mid == before + [l] + dl && final == mid + [r] + dr && ds == [l] + dl + [r] + dr
    ensures final == before + ds
  {
  }

  /** The fields of each square of a list. */
  function Vals(ss: seq<Square>): (vs: seq<SquareVal>)
    reads ss
    ensures |vs| == |ss|
  {
    if ss == [] then [] else [ss[0].Val()] + Vals(ss[1..])
  }

  lemma {:induction false} ValsAppend(a: seq<Square>, b: seq<Square>)
    ensures Vals(a + b) == Vals(a) + Vals(b)
  {
    if a != [] {
      assert (a + b)[0] == a[0];
      assert (a + b)[1..] == a[1..] + b;
      ValsAppend(a[1..], b);
    } else {
      assert a + b == b;
    }
  }
}
