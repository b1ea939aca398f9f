/** Class Tree of pythagoras_tree.py: the root square, drawTree's colouring
    level by level, and the two angle entries of its window.

    drawTree places the root square with firstSquare, lets makeTree append
    every other square to the list [root], and then draws the squares level
    by level: for each order i = 0 .. tree order it computes one fill colour,
    a linear step from rootColour towards branchColour, and draws, in list
    order, every square of order i with that fill and the outline colour
    (None when outlines are switched off). A `Polygon` is one call of
    drawSquare; a `Picture` is the image drawTree returns, as the size, the
    background and the polygons drawn on it in order. */
module PythagorasTree {
  import opened Colour
  import opened PyInt
  import opened PythagorasSquare

  /** One call square.drawSquare(draw, outline, fill). */
  datatype Polygon = Polygon(corners: seq<Vec>, outline: Option<Rgb>, fill: Rgb)

  /** The image drawTree returns: width, height, background and what was
      drawn on it, in drawing order. */
  datatype Picture = Picture(width: int, height: int, background: Rgb, polygons: seq<Polygon>)

  /** The attributes of a Tree that drawTree reads. */
  datatype Settings = Settings(order: nat, rootColour: Rgb, branchColour: Rgb, outline: Option<Rgb>,
                               background: Rgb, angleL: int, angleR: int, scale: real,
                               positionChangex: real, positionChangey: real)

  /** firstSquare's corners for an image w wide and h high: a square of side
      w / 8 * scale, centred horizontally and moved by the offset, whose
      lower edge lies at 8/10 of the height. The corners run (x1, y1),
      (x2, y1), (x2, y2), (x1, y2). */
  function FirstCorners(w: int, h: int, scale: real, dx: real, dy: real): (cs: seq<Vec>)
    ensures |cs| == 4
    ensures var width := w as real / 8.0 * scale;
      && cs[1].x - cs[0].x == width && cs[0].y - cs[3].y == width
      && cs[0].y == cs[1].y && cs[2].y == cs[3].y && cs[0].x == cs[3].x && cs[1].x == cs[2].x
    ensures cs[0].x + cs[1].x == 2.0 * (w as real / 2.0 + dx)
    ensures cs[0].y == 8.0 / 10.0 * h as real + dy
  {
    var width := w as real / 8.0 * scale;
    var x1 := w as real / 2.0 - width / 2.0 + dx;
    var x2 := w as real / 2.0 + width / 2.0 + dx;
    var y1 := 8.0 / 10.0 * h as real + dy;
    var y2 := y1 - width;
    [Vec(x1, y1), Vec(x2, y1), Vec(x2, y2), Vec(x1, y2)]
  }

  /** The root square of the tree. */
  function Root(m: Maths, st: Settings, w: int, h: int): SquareVal {
    Make(m, FirstCorners(w, h, st.scale, st.positionChangex, st.positionChangey), 0)
  }

  /** firstSquare makes a square of order 0 whose side Square.__init__
      measures as the absolute value of w / 8 * scale. */
  lemma RootSquare(m: Maths, st: Settings, w: int, h: int)
    requires ValidMaths(m)
    ensures var r := Root(m, st, w, h); var width := w as real / 8.0 * st.scale;
      && r.order == 0 && r.angle == 0
      && r.side == (if width >= 0.0 then width else -width)
      && IsSquare(r.corners, width)
  {
    var width := w as real / 8.0 * st.scale;
    var cs := FirstCorners(w, h, st.scale, st.positionChangex, st.positionChangey);
    FirstCornersSquare(w, h, st.scale, st.positionChangex, st.positionChangey);
    assert Dist2(cs[0], cs[1]) == width * width;
    assert Root(m, st, w, h).side == m.sqrt(width * width);
    SqrtOfSquareAbs(m, width);
  }

  /** The first corners span a square whose side is w / 8 * scale. */
  lemma FirstCornersSquare(w: int, h: int, scale: real, dx: real, dy: real)
    ensures IsSquare(FirstCorners(w, h, scale, dx, dy), w as real / 8.0 * scale)
  {
    var cs := FirstCorners(w, h, scale, dx, dy);
    var d := w as real / 8.0 * scale;
    assert cs[1].x - cs[0].x == d && cs[0].y - cs[3].y == d;
    assert Dist2(cs[0], cs[1]) == d * d;
    assert Dist2(cs[1], cs[2]) == d * d;
    assert Dist2(cs[2], cs[3]) == d * d;
    assert Dist2(cs[3], cs[0]) == d * d;
    assert Dist2(cs[0], cs[2]) == d * d + d * d;
    assert Dist2(cs[1], cs[3]) == d * d + d * d;
  }

  /** The square root of d * d is the absolute value of d. */
  lemma SqrtOfSquareAbs(m: Maths, d: real)
    requires ValidMaths(m)
    ensures m.sqrt(d * d) == if d >= 0.0 then d else -d
  {
    if d >= 0.0 {
      SqrtOfSquare(m, d);
    } else {
      var e := -d;
      assert d * d == e * e;
      SqrtOfSquare(m, e);
      assert m.sqrt(e * e) == e;
    }
  }

  /** makeTree does not divide by zero on this tree: either the root is
      the whole tree or the divisor of the child sides is not 0. */
  predicate Grows(m: Maths, st: Settings) {
    st.order > 0 ==> Divisor(m, st.angleL, st.angleR) != 0.0
  }

  /** The list drawTree colours: the root followed by what makeTree
      appends. */
  function Squares(m: Maths, st: Settings, w: int, h: int): seq<SquareVal>
    requires Grows(m, st)
  {
    var root := Root(m, st, w, h);
    [root] + Descendants(m, root, st.angleL, st.angleR, st.order)
  }

  /** The list holds 2^(order + 1) - 1 squares: a full binary tree of depth
      order, every square's order between 0 and the tree's. */
  lemma SquaresCount(m: Maths, st: Settings, w: int, h: int)
    requires Grows(m, st)
    ensures |Squares(m, st, w, h)| == Pow(2, st.order + 1) - 1
    ensures forall s :: s in Squares(m, st, w, h) ==> 0 <= s.order <= st.order && |s.corners| == 4
  {
    var root := Root(m, st, w, h);
    DescendantsCount(m, root, st.angleL, st.angleR, st.order);
    DescendantsOrders(m, root, st.angleL, st.angleR, st.order);
  }

  /** One channel of the fill of level i: rootColour plus i steps of
      (branch - root) / order, or no step at all for a tree of order 0. */
  function LevelChannel(root: int, branch: int, order: nat, i: int): real {
    root as real + Step(root, branch, order) * i as real
  }

  /** The change of one channel from a level to the next. */
  function Step(root: int, branch: int, order: nat): real {
    if order != 0 then (branch - root) as real / order as real else 0.0
  }

  /** The fill drawTree computes from steps worked out before its loop is
      the fill of that level. */
  lemma StepsFill(root: Rgb, branch: Rgb, order: nat, stepR: real, stepG: real, stepB: real, i: int)
    requires stepR == Step(root.r, branch.r, order)
    requires stepG == Step(root.g, branch.g, order)
    requires stepB == Step(root.b, branch.b, order)
    ensures Rgb(Trunc(root.r as real + stepR * i as real),
                Trunc(root.g as real + stepG * i as real),
                Trunc(root.b as real + stepB * i as real)) == LevelFill(root, branch, order, i)
  {
    assert root.r as real + stepR * i as real == LevelChannel(root.r, branch.r, order, i);
    assert root.g as real + stepG * i as real == LevelChannel(root.g, branch.g, order, i);
    assert root.b as real + stepB * i as real == LevelChannel(root.b, branch.b, order, i);
  }

  /** The fill of level i, each channel truncated by int(). */
  function LevelFill(root: Rgb, branch: Rgb, order: nat, i: int): Rgb {
    Rgb(Trunc(LevelChannel(root.r, branch.r, order, i)),
        Trunc(LevelChannel(root.g, branch.g, order, i)),
        Trunc(LevelChannel(root.b, branch.b, order, i)))
  }

  /** Level 0 is filled with rootColour, and the deepest level of a tree of
      order > 0 with branchColour. */
  lemma LevelFillEnds(root: Rgb, branch: Rgb, order: nat)
    ensures LevelFill(root, branch, order, 0) == root
    ensures order > 0 ==> LevelFill(root, branch, order, order) == branch
  {
    TruncOfInt(root.r);
    TruncOfInt(root.g);
    TruncOfInt(root.b);
    if order > 0 {
      ChannelAtOrder(root.r, branch.r, order);
      ChannelAtOrder(root.g, branch.g, order);
      ChannelAtOrder(root.b, branch.b, order);
      TruncOfInt(branch.r);
      TruncOfInt(branch.g);
      TruncOfInt(branch.b);
    }
  }

  lemma ChannelAtOrder(root: int, branch: int, order: nat)
    requires order > 0
    ensures LevelChannel(root, branch, order, order) == branch as real
  {
    var n := order as real;
    assert ((branch - root) as real / n) * n == (branch - root) as real;
  }

  /** Every level's channel lies between the root's and the branch's. */
  lemma LevelChannelBetween(root: int, branch: int, order: nat, i: int)
    requires 0 <= i <= order
    ensures root <= branch ==> root as real <= LevelChannel(root, branch, order, i) <= branch as real
    ensures branch <= root ==> branch as real <= LevelChannel(root, branch, order, i) <= root as real
  {
    if order > 0 {
      var s := (branch - root) as real / order as real;
      assert s * order as real == (branch - root) as real;
      if s >= 0.0 {
        assert s * (order - i) as real >= 0.0;
      } else {
        assert (-s) * (order - i) as real >= 0.0;
        assert (-s) * i as real >= 0.0;
      }
    }
  }

  lemma LevelChannelInRange(root: int, branch: int, order: nat, i: int)
    requires 0 <= root <= 255 && 0 <= branch <= 255 && 0 <= i <= order
    ensures 0 <= Trunc(LevelChannel(root, branch, order, i)) <= 255
  {
    LevelChannelBetween(root, branch, order, i);
    TruncBetween(LevelChannel(root, branch, order, i), 0, 255);
  }

  /** With valid colours every level's fill is a valid colour. */
  lemma LevelFillValid(root: Rgb, branch: Rgb, order: nat, i: int)
    requires ValidRgb(root) && ValidRgb(branch) && 0 <= i <= order
    ensures ValidRgb(LevelFill(root, branch, order, i))
  {
    LevelChannelInRange(root.r, branch.r, order, i);
    LevelChannelInRange(root.g, branch.g, order, i);
    LevelChannelInRange(root.b, branch.b, order, i);
  }

  /** The squares of one level drawn in list order, all with the same fill. */
  function LevelDraws(list: seq<SquareVal>, level: int, outline: Option<Rgb>, fill: Rgb): seq<Polygon>
    decreases |list|
  {
    if list == [] then []
    else
      var s := list[|list| - 1];
      LevelDraws(list[..|list| - 1], level, outline, fill)
        + (if s.order == level then [Polygon(s.corners, outline, fill)] else [])
  }

  /** Everything drawn for the levels 0 .. levels - 1, level after level,
      level i filled with fill(i). */
  function TreeDraws(list: seq<SquareVal>, outline: Option<Rgb>, fill: int -> Rgb, levels: nat): seq<Polygon> {
    if levels == 0 then []
    else TreeDraws(list, outline, fill, levels - 1) + LevelDraws(list, levels - 1, outline, fill(levels - 1))
  }

  /** The fills of the levels of a tree. */
  function LevelFills(st: Settings): int -> Rgb {
    i => LevelFill(st.rootColour, st.branchColour, st.order, i)
  }

  /** drawTree: None where makeTree divides by sin(180 - (angleL + angleR))
      == 0, otherwise the picture with every level drawn. */
  function TreeDrawing(m: Maths, st: Settings, w: int, h: int): Option<Picture> {
    if !Grows(m, st) then None
    else Some(Picture(w, h, st.background, TreeDraws(Squares(m, st, w, h), st.outline, LevelFills(st), st.order + 1)))
  }

  /** The polygon a square should get: its corners, the outline and the
      fill of its level. */
  function Paint(s: SquareVal, outline: Option<Rgb>, fill: int -> Rgb): Polygon {
    Polygon(s.corners, outline, fill(s.order))
  }

  /** The squares of the list whose order is in 0 .. levels - 1, painted,
      in list order. */
  function PaintedBelow(list: seq<SquareVal>, outline: Option<Rgb>, fill: int -> Rgb, levels: int): seq<Polygon>
    decreases |list|
  {
    if list == [] then []
    else
      var s := list[|list| - 1];
      PaintedBelow(list[..|list| - 1], outline, fill, levels)
        + (if 0 <= s.order < levels then [Paint(s, outline, fill)] else [])
  }

  /** Every square of the list, painted, in list order. */
  function Painted(list: seq<SquareVal>, outline: Option<Rgb>, fill: int -> Rgb): seq<Polygon>
    decreases |list|
  {
    if list == [] then [] else Painted(list[..|list| - 1], outline, fill) + [Paint(list[|list| - 1], outline, fill)]
  }

  /** Adding level L to the levels below it adds the squares of level L. */
  lemma {:induction false} PaintedNextLevel(list: seq<SquareVal>, outline: Option<Rgb>, fill: int -> Rgb, levels: nat)
    requires levels > 0
    ensures multiset(PaintedBelow(list, outline, fill, levels))
      == multiset(PaintedBelow(list, outline, fill, levels - 1)) + multiset(LevelDraws(list, levels - 1, outline, fill(levels - 1)))
    decreases |list|
  {
    if list != [] {
      var init, s := list[..|list| - 1], list[|list| - 1];
      PaintedNextLevel(init, outline, fill, levels);
      var a := if 0 <= s.order < levels then [Paint(s, outline, fill)] else [];
      var b := if 0 <= s.order < levels - 1 then [Paint(s, outline, fill)] else [];
      var c := if s.order == levels - 1 then [Polygon(s.corners, outline, fill(levels - 1))] else [];
      if s.order == levels - 1 {
        assert a == c && b == [];
      } else {
        assert a == b && c == [];
      }
      assert PaintedBelow(list, outline, fill, levels) == PaintedBelow(init, outline, fill, levels) + a;
      assert PaintedBelow(list, outline, fill, levels - 1) == PaintedBelow(init, outline, fill, levels - 1) + b;
      assert LevelDraws(list, levels - 1, outline, fill(levels - 1)) == LevelDraws(init, levels - 1, outline, fill(levels - 1)) + c;
      SumJoins(PaintedBelow(init, outline, fill, levels), a, PaintedBelow(init, outline, fill, levels - 1), b,
               LevelDraws(init, levels - 1, outline, fill(levels - 1)), c);
    }
  }

  lemma SumJoins<T>(x: seq<T>, a: seq<T>, y: seq<T>, b: seq<T>, z: seq<T>, c: seq<T>)
    requires multiset(x) == multiset(y) + multiset(z) && ((a == c && b == []) || (a == b && c == []))
    ensures multiset(x + a) == multiset(y + b) + multiset(z + c)
  {
  }

  /** The first L levels draw exactly the squares of order below L, each
      once, in some order. */
  lemma {:induction false} TreeDrawsBelow(list: seq<SquareVal>, outline: Option<Rgb>, fill: int -> Rgb, levels: nat)
    ensures multiset(TreeDraws(list, outline, fill, levels)) == multiset(PaintedBelow(list, outline, fill, levels))
  {
    if levels == 0 {
      NothingBelowZero(list, outline, fill);
    } else {
      TreeDrawsBelow(list, outline, fill, levels - 1);
      PaintedNextLevel(list, outline, fill, levels);
      NextLevelJoins(TreeDraws(list, outline, fill, levels - 1), LevelDraws(list, levels - 1, outline, fill(levels - 1)),
                     PaintedBelow(list, outline, fill, levels - 1), PaintedBelow(list, outline, fill, levels),
                     TreeDraws(list, outline, fill, levels));
    }
  }

  lemma NextLevelJoins(before: seq<Polygon>, level: seq<Polygon>, below: seq<Polygon>, next: seq<Polygon>,
                       drawn: seq<Polygon>)
    requires drawn == before + level
    requires multiset(before) == multiset(below) && multiset(next) == multiset(below) + multiset(level)
    ensures multiset(drawn) == multiset(next)
  {
  }

  lemma {:induction false} NothingBelowZero(list: seq<SquareVal>, outline: Option<Rgb>, fill: int -> Rgb)
    ensures PaintedBelow(list, outline, fill, 0) == []
    decreases |list|
  {
    if list != [] {
      NothingBelowZero(list[..|list| - 1], outline, fill);
    }
  }

  /** When every order lies in 0 .. L - 1 the first L levels hold every
      square. */
  lemma {:induction false} AllBelow(list: seq<SquareVal>, outline: Option<Rgb>, fill: int -> Rgb, levels: int)
    requires forall s :: s in list ==> 0 <= s.order < levels
    ensures PaintedBelow(list, outline, fill, levels) == Painted(list, outline, fill)
    decreases |list|
  {
    if list != [] {
      var init := list[..|list| - 1];
      assert forall s :: s in init ==> s in list;
      AllBelow(init, outline, fill, levels);
      assert list[|list| - 1] in list;
    }
  }

  lemma {:induction false} PaintedLength(list: seq<SquareVal>, outline: Option<Rgb>, fill: int -> Rgb)
    ensures |Painted(list, outline, fill)| == |list|
    decreases |list|
  {
    if list != [] {
      PaintedLength(list[..|list| - 1], outline, fill);
    }
  }

  /** drawTree draws every square of the list exactly once, with the
      outline colour and the fill of its own level, and nothing else: the
      drawn polygons are the painted list, rearranged by level. */
  lemma TreeDrawsEachOnce(list: seq<SquareVal>, outline: Option<Rgb>, fill: int -> Rgb, order: nat)
    requires forall s :: s in list ==> 0 <= s.order <= order
    ensures multiset(TreeDraws(list, outline, fill, order + 1)) == multiset(Painted(list, outline, fill))
    ensures |TreeDraws(list, outline, fill, order + 1)| == |list|
  {
    var drawn, painted := TreeDraws(list, outline, fill, order + 1), Painted(list, outline, fill);
    TreeDrawsBelow(list, outline, fill, order + 1);
    AllBelow(list, outline, fill, order + 1);
    PaintedLength(list, outline, fill);
    assert |multiset(drawn)| == |drawn| && |multiset(painted)| == |painted|;
  }

  /** The whole picture: drawTree fails exactly when the tree has children
      and their sides divide by zero; otherwise it draws 2^(order + 1) - 1
      polygons, one for each square, each with its level's fill. */
  lemma TreeDrawingShape(m: Maths, st: Settings, w: int, h: int)
    ensures TreeDrawing(m, st, w, h).None? <==> st.order > 0 && Divisor(m, st.angleL, st.angleR) == 0.0
    ensures TreeDrawing(m, st, w, h).Some? ==>
      var pic := TreeDrawing(m, st, w, h).value;
      && pic.width == w && pic.height == h && pic.background == st.background
      && |pic.polygons| == Pow(2, st.order + 1) - 1
      && multiset(pic.polygons) == multiset(Painted(Squares(m, st, w, h), st.outline, LevelFills(st)))
  {
    if Grows(m, st) {
      SquaresCount(m, st, w, h);
      TreeDrawsEachOnce(Squares(m, st, w, h), st.outline, LevelFills(st), st.order);
    }
  }

  /** A tree of order 0 is its root alone, drawn in rootColour. */
  lemma TreeOfOrderZero(m: Maths, st: Settings, w: int, h: int)
    requires st.order == 0
    ensures TreeDrawing(m, st, w, h) ==
      Some(Picture(w, h, st.background, [Polygon(Root(m, st, w, h).corners, st.outline, st.rootColour)]))
  {
    var root := Root(m, st, w, h);
    assert Squares(m, st, w, h) == [root];
    LevelFillEnds(st.rootColour, st.branchColour, 0);
    assert LevelFills(st)(0) == st.rootColour;
    assert [root][..0] == [];
    var p := Polygon(root.corners, st.outline, st.rootColour);
    assert LevelDraws([root], 0, st.outline, st.rootColour) == [p];
    assert TreeDraws([root], st.outline, LevelFills(st), 1) == [] + [p];
  }

  /** The angle an angle entry accepts for a text: its integer value when
      that lies in 0 .. 90. */
  function AngleOf(text: string): (r: Option<int>)
    ensures r.Some? ==> 0 <= r.value <= 90
  {
    var n := ParseInt(text);
    if n.Some? && 0 <= n.value <= 90 then n else None
  }

  /** Every angle in 0 .. 90 typed as str(angle) is accepted, and every
      other number is refused. */
  lemma AngleOfShow(a: int)
    ensures 0 <= a <= 90 ==> AngleOf(Show(a)) == Some(a)
    ensures a > 90 ==> AngleOf(Show(a)) == None
    ensures a > 0 ==> AngleOf("-" + Show(a)) == None
  {
    if a >= 0 {
      ParseShow(a);
    }
  }

  /** With both angles accepted and summing to less than 180 the divisor
      is positive, so drawTree always draws. */
  lemma AcceptedAnglesDraw(m: Maths, st: Settings, w: int, h: int)
    requires ValidMaths(m)
    requires 0 <= st.angleL <= 90 && 0 <= st.angleR <= 90 && st.angleL + st.angleR < 180
    ensures Divisor(m, st.angleL, st.angleR) > 0.0
    ensures TreeDrawing(m, st, w, h).Some?
  {
    assert 0 < 180 - (st.angleL + st.angleR) <= 180;
  }

  /** Finding: both entries accept 90, and with angleL == angleR == 90 the
      divisor is sin(0) == 0, so drawTree of any tree of order > 0 raises
      ZeroDivisionError. */
  lemma RightAnglesFail(m: Maths, st: Settings, w: int, h: int)
    requires ValidMaths(m)
    requires st.angleL == 90 && st.angleR == 90 && st.order > 0
    ensures AngleOf(Show(90)) == Some(90)
    ensures TreeDrawing(m, st, w, h).None?
  {
    AngleOfShow(90);
  }

  /** The angle entry with the guard the tree needs: a value is accepted
      when it lies in 0 .. 90 and, with the other branch's angle, leaves the
      triangle on the top edge a third angle above 0. */
  function GuardedAngleOf(text: string, other: int): (r: Option<int>)
    ensures r.Some? ==> 0 <= r.value <= 90 && r.value + other < 180
  {
    var a := AngleOf(text);
    if a.Some? && a.value + other < 180 then a else None
  }

  /** The guarded entries never let drawTree divide by zero: whichever
      entry accepts a value, the tree draws; a refused value leaves the
      angles, and so the drawing, as they were. */
  lemma GuardedAnglesDraw(m: Maths, st: Settings, w: int, h: int, text: string)
    requires ValidMaths(m)
    requires 0 <= st.angleL <= 90 && 0 <= st.angleR <= 90 && st.angleL + st.angleR < 180
    ensures GuardedAngleOf(text, st.angleR).Some? ==>
      TreeDrawing(m, st.(angleL := GuardedAngleOf(text, st.angleR).value), w, h).Some?
    ensures GuardedAngleOf(text, st.angleL).Some? ==>
      TreeDrawing(m, st.(angleR := GuardedAngleOf(text, st.angleL).value), w, h).Some?
    ensures GuardedAngleOf(Show(90), 90).None?
  {
    var l, r := GuardedAngleOf(text, st.angleR), GuardedAngleOf(text, st.angleL);
    if l.Some? {
      AcceptedAnglesDraw(m, st.(angleL := l.value), w, h);
    }
    if r.Some? {
      AcceptedAnglesDraw(m, st.(angleR := r.value), w, h);
    }
    AngleOfShow(90);
  }

  class Tree {
    var order: nat
    var rootColour: Rgb
    var branchColour: Rgb
    var outline: Option<Rgb>
    var background: Rgb
    var angleL: int
    var angleR: int
    var scale: real
    var positionChangex: real
    var positionChangey: real

    function Attributes(): Settings
      reads this
    {
      Settings(order, rootColour, branchColour, outline, background, angleL, angleR, scale,
               positionChangex, positionChangey)
    }

    /** Tree.__init__: the given attributes and no offset. */
    constructor (order: nat, rootColour: Rgb, branchColour: Rgb, outline: Option<Rgb>, background: Rgb,
                 angleL: int, angleR: int, scale: real)
      ensures Attributes() == Settings(order, rootColour, branchColour, outline, background, angleL, angleR,
                                       scale, 0.0, 0.0)
    {
      this.order := order;
      this.rootColour := rootColour;
      this.branchColour := branchColour;
      this.outline := outline;
      this.background := background;
      this.angleL := angleL;
      this.angleR := angleR;
      this.scale := scale;
      positionChangex := 0.0;
      positionChangey := 0.0;
    }

    /** firstSquare(size) for an image w wide and h high. */
    method FirstSquare(m: Maths, w: int, h: int) returns (square: Square)
      ensures fresh(square)
      ensures square.Val() == Root(m, Attributes(), w, h)
    {
      var width := w as real / 8.0 * scale;
      var x1 := w as real / 2.0 - width / 2.0 + positionChangex;
      var x2 := w as real / 2.0 + width / 2.0 + positionChangex;
      var y1 := 8.0 / 10.0 * h as real + positionChangey;
      var y2 := y1 - width;
      assert [Vec(x1, y1), Vec(x2, y1), Vec(x2, y2), Vec(x1, y2)] ==
        FirstCorners(w, h, scale, positionChangex, positionChangey);
      square := new Square(m, [Vec(x1, y1), Vec(x2, y1), Vec(x2, y2), Vec(x1, y2)], 0);
    }

    /** drawTree(size) for an image w wide and h high: the root square,
        makeTree on the list [root], then for each level i = 0 .. order the
        squares of order i in list order, filled with the colour of level i.
        None where makeTree raises ZeroDivisionError. Saving the image is
        not modelled. */
    method DrawTree(m: Maths, w: int, h: int) returns (picture: Option<Picture>)
      ensures picture == TreeDrawing(m, Attributes(), w, h)
    {
      var square := FirstSquare(m, w, h);
      if order > 0 && m.sin(180 - (angleL + angleR)) == 0.0 {
        return None;
      }
      ghost var st := Attributes();
      var listOfSquares := square.MakeTree(m, angleL, angleR, order, [square]);
      assert Vals([square]) == [square.Val()];
      assert Vals(listOfSquares) == Squares(m, st, w, h);
      var polygons := DrawLevels(listOfSquares);
      return Some(Picture(w, h, background, polygons));
    }

    /** The outer loop of drawTree: the levels 0 .. order, level i drawn
        with rootColour plus i steps towards branchColour. */
    method DrawLevels(listOfSquares: seq<Square>) returns (polygons: seq<Polygon>)
      ensures polygons == TreeDraws(Vals(listOfSquares), outline, LevelFills(Attributes()), order + 1)
    {
      ghost var st := Attributes();
      ghost var vals := Vals(listOfSquares);
      ghost var fills := LevelFills(st);
      var stepR := Step(rootColour.r, branchColour.r, order);
      var stepG := Step(rootColour.g, branchColour.g, order);
      var stepB := Step(rootColour.b, branchColour.b, order);
      polygons := [];
      var i := 0;
      while i < order + 1
        invariant 0 <= i <= order + 1
        invariant polygons == TreeDraws(vals, outline, fills, i)
      {
        var fillColour := Rgb(Trunc(rootColour.r as real + stepR * i as real),
                              Trunc(rootColour.g as real + stepG * i as real),
                              Trunc(rootColour.b as real + stepB * i as real));
        StepsFill(rootColour, branchColour, order, stepR, stepG, stepB, i);
        assert fillColour == fills(i);
        var level := DrawLevel(listOfSquares, i, outline, fillColour);
        assert TreeDraws(vals, outline, fills, i + 1) == polygons + level;
        polygons := polygons + level;
        i := i + 1;
      }
    }

    /** The inner loop of drawTree: every square of order `level`, in list
        order, drawn with the same fill. */
    method DrawLevel(listOfSquares: seq<Square>, level: int, outline: Option<Rgb>, fillColour: Rgb)
      returns (drawn: seq<Polygon>)
      ensures drawn == LevelDraws(Vals(listOfSquares), level, outline, fillColour)
    {
      ghost var vals := Vals(listOfSquares);
      drawn := [];
      var j := 0;
      while j < |listOfSquares|
        invariant 0 <= j <= |listOfSquares|
        invariant drawn == LevelDraws(vals[..j], level, outline, fillColour)
      {
        ValsAt(listOfSquares, j);
        assert vals[..j + 1][..j] == vals[..j] && vals[..j + 1][j] == vals[j];
        if listOfSquares[j].order == level {
          drawn := drawn + [Polygon(listOfSquares[j].corners, outline, fillColour)];
        }
        j := j + 1;
      }
      assert vals[..|listOfSquares|] == vals;
    }

    /** changeAngleL: the text is read as an integer; a value outside
        0 .. 90 or a text that is not an integer is refused and leaves the
        angle alone. */
    method ChangeAngleL(text: string) returns (accepted: bool)
      modifies this`angleL
      ensures accepted <==> AngleOf(text).Some?
      ensures angleL == if accepted then AngleOf(text).value else old(angleL)
    {
      var value := ParseInt(text);
      if value.None? {
        return false;
      }
      if value.value < 0 || value.value > 90 {
        return false;
      }
      angleL := value.value;
      return true;
    }

    /** changeAngleR: the same for the right branch. */
    method ChangeAngleR(text: string) returns (accepted: bool)
      modifies this`angleR
      ensures accepted <==> AngleOf(text).Some?
      ensures angleR == if accepted then AngleOf(text).value else old(angleR)
    {
      var value := ParseInt(text);
      if value.None? {
        return false;
      }
      if value.value < 0 || value.value > 90 {
        return false;
      }
      angleR := value.value;
      return true;
    }
  }

  /** Entry k of the values of a list is the value of its square k. */
  lemma {:induction false} ValsAt(ss: seq<Square>, k: int)
    requires 0 <= k < |ss|
    ensures Vals(ss)[k] == ss[k].Val()
    decreases |ss|
  {
    if k > 0 {
      ValsAt(ss[1..], k - 1);
    }
  }
}
