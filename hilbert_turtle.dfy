/** Curve.makeCurve of hilbert_curve.py as a turtle program on values.

    The state makeCurve threads through its recursion is the heading `angle`,
    the current `position` and the list `lineList` of corners. A `Turtle`
    holds these together with `heading`, the direction vector of `angle`
    (Curve keeps it as a ghost field; newPosition computes it from the angle
    with cos and sin). `Run(t, k, f, size)` is what makeCurve does with k
    recursion levels left and turn factor f: on the last level it appends the
    position; otherwise it turns by -90f, runs a level with -f, moves, turns
    by 90f, runs a level with f, moves, runs a level with f, turns by 90f,
    moves, runs a level with -f and turns by -90f.

    `RunDraws` proves that this program appends exactly the corners of the
    curve `Hilbert` of HilbertPath, in the frame whose second axis is the
    heading and whose first axis is the heading turned by -90f, that it comes
    back to the heading it started with, and that it stops at the curve's
    end. */
module HilbertTurtle {
  import opened HilbertPath

  datatype Turtle = Turtle(angle: int, heading: Point, position: Point, lineList: seq<Point>)

  /** A turn by 90q degrees: the angle changes by 90q and the direction
      vector turns a quarter turn. */
  function Turn(t: Turtle, q: int): Turtle
    requires q == 1 || q == -1
  {
    t.(angle := t.angle + 90 * q, heading := Rotate(t.heading, q))
  }

  /** newPosition: one segment of length size along the heading. */
  function Forward(t: Turtle, size: int): Turtle {
    t.(position := Plus(t.position, Scale(t.heading, size)))
  }

  /** The last level of makeCurve: the position is appended to lineList. */
  function Mark(t: Turtle): Turtle {
    t.(lineList := t.lineList + [t.position])
  }

  /** makeCurve with k levels left and turn factor f. */
  function Run(t: Turtle, k: nat, f: int, size: int): Turtle
    requires f == 1 || f == -1
    decreases k, 2
  {
    if k == 0 then Mark(t) else Level(t, k, f, size)
  }

  /** A level above the last: turn by -90f, draw the four sub-curves, turn
      by -90f again. */
  function Level(t: Turtle, k: nat, f: int, size: int): Turtle
    requires k > 0 && (f == 1 || f == -1)
    decreases k, 1
  {
    Turn(SubCurves(Turn(t, -f), k, f, size), -f)
  }

  /** The four recursive calls of a level and the moves and turns between
      them. */
  function SubCurves(t: Turtle, k: nat, f: int, size: int): Turtle
    requires k > 0 && (f == 1 || f == -1)
    decreases k, 0
  {
    var t1 := Run(t, k - 1, -f, size);
    var t2 := Run(Turn(Forward(t1, size), f), k - 1, f, size);
    var t3 := Run(Forward(t2, size), k - 1, f, size);
    Run(Forward(Turn(t3, f), size), k - 1, -f, size)
  }

  /** One level of Run, with the states after the four recursive calls
      named. */
  lemma Unfold(t: Turtle, k: nat, f: int, size: int, t1: Turtle, t2: Turtle, t3: Turtle, t4: Turtle)
    requires k > 0 && (f == 1 || f == -1)
    requires t1 == Run(Turn(t, -f), k - 1, -f, size)
    requires t2 == Run(Turn(Forward(t1, size), f), k - 1, f, size)
    requires t3 == Run(Forward(t2, size), k - 1, f, size)
    requires t4 == Run(Forward(Turn(t3, f), size), k - 1, -f, size)
    ensures Run(t, k, f, size) == Turn(t4, -f)
  {
    assert Run(t, k, f, size) == Level(t, k, f, size);
  }

  /** The first axis of the frame of a level entered at t with factor f. */
  function Across(v: Point, f: int): Point
    requires f == 1 || f == -1
  {
    Rotate(v, -f)
  }

  /** The headings met in a level entered with heading v and factor f. */
  lemma Headings(v: Point, f: int)
    requires f == 1 || f == -1
    ensures Rotate(Across(v, f), f) == v
    ensures Rotate(v, f) == Neg(Across(v, f))
    ensures Across(Neg(Across(v, f)), -f) == Neg(v)
    ensures Rotate(Neg(Across(v, f)), -f) == v
  {
  }

  /** What Run draws: the same angle and heading, the position moved to the
      end of the curve, and the corners of the curve appended. */
  function Drawn(t: Turtle, k: nat, f: int, size: int): Turtle
    requires f == 1 || f == -1
  {
    Turtle(t.angle, t.heading, End(k, size, Across(t.heading, f), t.heading, t.position),
           t.lineList + Hilbert(k, size, Across(t.heading, f), t.heading, t.position))
  }

  /** makeCurve draws the self-similar curve. */
  lemma {:induction false} RunDraws(t: Turtle, k: nat, f: int, size: int)
    requires f == 1 || f == -1
    ensures Run(t, k, f, size) == Drawn(t, k, f, size)
    decreases k, 1
  {
    if k == 0 {
      return;
    }
    var h, v, p, list := t.angle, t.heading, t.position, t.lineList;
    var u := Across(v, f);
    Headings(v, f);
    var x0 := Turn(t, -f);
    assert x0 == Turtle(h - 90 * f, u, p, list);
    RunDraws(x0, k - 1, -f, size);
    var r1 := Run(x0, k - 1, -f, size);
    assert r1 == Turtle(h - 90 * f, u, End(k - 1, size, v, u, p), list + Hilbert(k - 1, size, v, u, p));
    var x1 := Turn(Forward(r1, size), f);
    var s2 := Start2(k, size, u, v, p);
    assert x1 == Turtle(h, v, s2, list + Hilbert(k - 1, size, v, u, p));
    RunDraws(x1, k - 1, f, size);
    var r2 := Run(x1, k - 1, f, size);
    LastHalf(t, k, f, size, r1, r2);
  }

  /** The third and fourth quarters of RunDraws, given the first two. */
  lemma {:induction false} LastHalf(t: Turtle, k: nat, f: int, size: int, r1: Turtle, r2: Turtle)
    requires k > 0 && (f == 1 || f == -1)
    requires r1 == Run(Turn(t, -f), k - 1, -f, size)
    requires r2 == Run(Turn(Forward(r1, size), f), k - 1, f, size)
    requires var u, p := Across(t.heading, f), t.position;
      r2 == Turtle(t.angle, t.heading, End(k - 1, size, u, t.heading, Start2(k, size, u, t.heading, p)),
                   t.lineList + Hilbert(k - 1, size, t.heading, u, p) + Hilbert(k - 1, size, u, t.heading, Start2(k, size, u, t.heading, p)))
    ensures Run(t, k, f, size) == Drawn(t, k, f, size)
    decreases k, 0
  {
    var h, v, p, list := t.angle, t.heading, t.position, t.lineList;
    var u := Across(v, f);
    Headings(v, f);
    var s3, s4 := Start3(k, size, u, v, p), Start4(k, size, u, v, p);
    var c12 := Hilbert(k - 1, size, v, u, p) + Hilbert(k - 1, size, u, v, Start2(k, size, u, v, p));
    var c3, c4 := Hilbert(k - 1, size, u, v, s3), Hilbert(k - 1, size, Neg(v), Neg(u), s4);
    var x2 := Forward(r2, size);
    assert x2 == Turtle(h, v, s3, list + c12);
    RunDraws(x2, k - 1, f, size);
    var r3 := Run(x2, k - 1, f, size);
    assert r3 == Turtle(h, v, End(k - 1, size, u, v, s3), list + c12 + c3);
    var x3 := Forward(Turn(r3, f), size);
    assert x3 == Turtle(h + 90 * f, Neg(u), s4, list + c12 + c3);
    RunDraws(x3, k - 1, -f, size);
    EndSplit(k, size, u, v, p);
    var r4 := Run(x3, k - 1, -f, size);
    assert r4 == Turtle(h + 90 * f, Neg(u), End(k, size, u, v, p), list + c12 + c3 + c4);
    Unfold(t, k, f, size, r1, r2, r3, r4);
    ListSplit(k, size, u, v, p, list);
  }

  /** One level of makeCurve with one level left and factor 1: from p it
      visits p, p + size u, p + size u + size v and p + size v, where v is
      the heading and u a quarter turn clockwise of it, and ends at the last
      of them with its angle and heading restored. From (0, 0) with heading
      0 and size 100 these are (0, 0), (0, -100), (100, -100), (100, 0). */
  lemma OrderOne(t: Turtle, size: int)
    ensures var u, v, p := Across(t.heading, 1), t.heading, t.position;
      Run(t, 1, 1, size) == Turtle(t.angle, v, Plus(p, Scale(v, size)),
        t.lineList + [p, Plus(p, Scale(u, size)), Plus(Plus(p, Scale(u, size)), Scale(v, size)), Plus(p, Scale(v, size))])
  {
    var u, v, p := Across(t.heading, 1), t.heading, t.position;
    HilbertOne(size, u, v, p);
    RunDraws(t, 1, 1, size);
    Start2At(1, size, u, v, p);
    Start3At(1, size, u, v, p);
    Start4At(1, size, u, v, p);
    EndFormula(1, size, u, v, p);
    assert Side(0, size) == 0 && Side(1, size) == size;
  }
}
