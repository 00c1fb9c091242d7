/** An abstract turtle-graphics pen working in whole pixels.

    The pen has a position, an absolute compass heading, a pen-up/pen-down
    flag and a colour. Only right-angle headings are modelled: heading 0
    points up (+y), 90 right (+x), 180 down (-y) and 270 left (-x). Moving
    with the pen down leaves one straight segment of ink on the canvas.
 */
module Turtle {

  /** A canvas point (or a displacement), in pixels. */
  datatype Point = Point(x: int, y: int)

  const Origin := Point(0, 0)

  /** An absolute heading in degrees, clockwise from up. */
  type Heading = h: int | h == 0 || h == 90 || h == 180 || h == 270

  /** The unit step taken by a forward move at heading `h`. */
  function Ahead(h: Heading): (v: Point) {
    if h == 0 then Point(0, 1)
    else if h == 90 then Point(1, 0)
    else if h == 180 then Point(0, -1)
    else Point(-1, 0)
  }

  datatype PenState = PenState(pos: Point, heading: Heading, penDown: bool, color: int)

  /** The commands a drawing routine issues to the turtle. */
  datatype Command =
    | SetX(x: int)
    | SetY(y: int)
    | SetColor(rgb: int)
    | SetHeading(h: Heading)
    | Forward(d: int)
    | Back(d: int)
    | PenUp
    | PenDown
  {
    predicate IsMove() {
      Forward? || Back?
    }
  }

  /** A straight stroke of ink from `from` to `to`. */
  datatype Segment = Segment(from: Point, to: Point)

  /** The pen moved by `d` pixels along its heading (backwards when `d` is negative). */
  function Move(p: PenState, d: int): (q: PenState) {
    var a := Ahead(p.heading);
    p.(pos := Point(p.pos.x + d * a.x, p.pos.y + d * a.y))
  }

  /** The effect of one command on the pen. */
  function Step(p: PenState, c: Command): (q: PenState) {
    match c
    case SetX(x) => p.(pos := Point(x, p.pos.y))
    case SetY(y) => p.(pos := Point(p.pos.x, y))
    case SetColor(rgb) => p.(color := rgb)
    case SetHeading(h) => p.(heading := h)
    case Forward(d) => Move(p, d)
    case Back(d) => Move(p, -d)
    case PenUp => p.(penDown := false)
    case PenDown => p.(penDown := true)
  }

  /** The ink one command leaves: a segment exactly when it is a move made with the pen down. */
  function StepInk(p: PenState, c: Command): (segs: seq<Segment>) {
    if c.IsMove() && p.penDown then [Segment(p.pos, Step(p, c).pos)] else []
  }

  /** The pen after running `cmds` in order from `p`. */
  function Run(p: PenState, cmds: seq<Command>): (q: PenState)
    decreases |cmds|
  {
    if cmds == [] then p else Run(Step(p, cmds[0]), cmds[1..])
  }

  /** The pen position after each command of `cmds`, one entry per command. */
  function Positions(p: PenState, cmds: seq<Command>): (ps: seq<Point>)
    ensures |ps| == |cmds|
    decreases |cmds|
  {
    if cmds == [] then [] else [Step(p, cmds[0]).pos] + Positions(Step(p, cmds[0]), cmds[1..])
  }

  /** Every position the pen occupies: the start, then one entry per command. */
  function Visited(p: PenState, cmds: seq<Command>): (vs: seq<Point>)
    ensures |vs| == |cmds| + 1
  {
    [p.pos] + Positions(p, cmds)
  }

  /** The ink `cmds` leave on the canvas, in drawing order. */
  function Ink(p: PenState, cmds: seq<Command>): (segs: seq<Segment>)
    decreases |cmds|
  {
    if cmds == [] then [] else StepInk(p, cmds[0]) + Ink(Step(p, cmds[0]), cmds[1..])
  }

  /** Running two command lists one after the other is running their concatenation. */
  lemma {:induction false} RunAppend(p: PenState, a: seq<Command>, b: seq<Command>)
    ensures Run(p, a + b) == Run(Run(p, a), b)
    decreases |a|
  {
    if a == [] {
      assert a + b == b;
    } else {
      assert (a + b)[0] == a[0];
      assert (a + b)[1..] == a[1..] + b;
      RunAppend(Step(p, a[0]), a[1..], b);
    }
  }

  /** The positions of a concatenation are the positions of each part, the second part run from where the first ends. */
  lemma {:induction false} PositionsAppend(p: PenState, a: seq<Command>, b: seq<Command>)
    ensures Positions(p, a + b) == Positions(p, a) + Positions(Run(p, a), b)
    decreases |a|
  {
    if a == [] {
      assert a + b == b;
    } else {
      assert (a + b)[0] == a[0];
      assert (a + b)[1..] == a[1..] + b;
      PositionsAppend(Step(p, a[0]), a[1..], b);
    }
  }

  /** The ink of a concatenation is the ink of each part, in order. */
  lemma {:induction false} InkAppend(p: PenState, a: seq<Command>, b: seq<Command>)
    ensures Ink(p, a + b) == Ink(p, a) + Ink(Run(p, a), b)
    decreases |a|
  {
    if a == [] {
      assert a + b == b;
    } else {
      assert (a + b)[0] == a[0];
      assert (a + b)[1..] == a[1..] + b;
      InkAppend(Step(p, a[0]), a[1..], b);
    }
  }

  /** Running a two-command list, spelled out. */
  lemma RunTwo(p: PenState, a: Command, b: Command)
    ensures Run(p, [a, b]) == Step(Step(p, a), b)
    ensures Positions(p, [a, b]) == [Step(p, a).pos, Step(Step(p, a), b).pos]
    ensures Ink(p, [a, b]) == StepInk(p, a) + StepInk(Step(p, a), b)
  {
    var q := Step(p, a);
    assert [a, b][1..] == [b];
    assert [b][1..] == [];
    assert Run(q, [b]) == Run(Step(q, b), []);
    assert Ink(q, [b]) == StepInk(q, b) + Ink(Step(q, b), []);
  }

  /** Running a three-command list, spelled out. */
  lemma RunThree(p: PenState, a: Command, b: Command, c: Command)
    ensures Run(p, [a, b, c]) == Step(Step(Step(p, a), b), c)
    ensures Ink(p, [a, b, c]) == StepInk(p, a) + StepInk(Step(p, a), b) + StepInk(Step(Step(p, a), b), c)
  {
    var q := Step(p, a);
    assert [a, b, c][1..] == [b, c];
    RunTwo(q, b, c);
  }

  /** An axis-aligned rectangle from `lo` (lower-left) to `hi` (upper-right). */
  datatype Box = Box(lo: Point, hi: Point)

  /** `q` lies inside `b`, edges included. */
  predicate InBox(b: Box, q: Point) {
    b.lo.x <= q.x <= b.hi.x && b.lo.y <= q.y <= b.hi.y
  }

  /** `b` holds every point of `ps` and each of its four sides touches one of them. */
  predicate IsBoundingBox(ps: seq<Point>, b: Box) {
    && (forall i :: 0 <= i < |ps| ==> InBox(b, ps[i]))
    && (exists i :: 0 <= i < |ps| && ps[i].x == b.lo.x)
    && (exists i :: 0 <= i < |ps| && ps[i].x == b.hi.x)
    && (exists i :: 0 <= i < |ps| && ps[i].y == b.lo.y)
    && (exists i :: 0 <= i < |ps| && ps[i].y == b.hi.y)
  }

  /** The smallest box holding every point of a non-empty list. */
  function BoundingBox(ps: seq<Point>): (b: Box)
    requires |ps| > 0
    ensures IsBoundingBox(ps, b)
    decreases |ps|
  {
    if |ps| == 1 then Box(ps[0], ps[0])
    else
      var b := BoundingBox(ps[1..]);
      var q := ps[0];
      Box(Point(if q.x < b.lo.x then q.x else b.lo.x, if q.y < b.lo.y then q.y else b.lo.y),
          Point(if q.x > b.hi.x then q.x else b.hi.x, if q.y > b.hi.y then q.y else b.hi.y))
  }

  /** A list has only one bounding box. */
  lemma BoundingBoxUnique(ps: seq<Point>, b: Box)
    requires |ps| > 0 && IsBoundingBox(ps, b)
    ensures BoundingBox(ps) == b
  {
    var c := BoundingBox(ps);
    SidesAgreeX(ps, b, c);
    SidesAgreeY(ps, b, c);
  }

  /** Two bounding boxes of the same list have the same left and right sides. */
  lemma SidesAgreeX(ps: seq<Point>, b: Box, c: Box)
    requires IsBoundingBox(ps, b) && IsBoundingBox(ps, c)
    ensures b.lo.x == c.lo.x && b.hi.x == c.hi.x
  {
    var i0 :| 0 <= i0 < |ps| && ps[i0].x == b.lo.x;
    var i1 :| 0 <= i1 < |ps| && ps[i1].x == b.hi.x;
    var j0 :| 0 <= j0 < |ps| && ps[j0].x == c.lo.x;
    var j1 :| 0 <= j1 < |ps| && ps[j1].x == c.hi.x;
    assert InBox(b, ps[j0]) && InBox(b, ps[j1]) && InBox(c, ps[i0]) && InBox(c, ps[i1]);
  }

  /** Two bounding boxes of the same list have the same bottom and top sides. */
  lemma SidesAgreeY(ps: seq<Point>, b: Box, c: Box)
    requires IsBoundingBox(ps, b) && IsBoundingBox(ps, c)
    ensures b.lo.y == c.lo.y && b.hi.y == c.hi.y
  {
    var i0 :| 0 <= i0 < |ps| && ps[i0].y == b.lo.y;
    var i1 :| 0 <= i1 < |ps| && ps[i1].y == b.hi.y;
    var j0 :| 0 <= j0 < |ps| && ps[j0].y == c.lo.y;
    var j1 :| 0 <= j1 < |ps| && ps[j1].y == c.hi.y;
    assert InBox(b, ps[j0]) && InBox(b, ps[j1]) && InBox(c, ps[i0]) && InBox(c, ps[i1]);
  }
}
