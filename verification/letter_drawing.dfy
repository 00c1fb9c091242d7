/** `drawLetter`: how a letter's stroke path becomes turtle commands, and
    what the turtle does when it runs them.
 */
module LetterDrawing {
  import opened Turtle
  import opened Glyphs
  import opened GlyphFacts

  /** Pixels per letter unit. */
  const Multiplier: nat := 20

  /** Where the unit point `c` of a letter drawn from pixel `o` lands on the canvas. */
  function Place(o: Point, c: Point): (q: Point) {
    Point(o.x + Multiplier * c.x, o.y + Multiplier * c.y)
  }

  /** The two commands one stroke becomes: set the direction's heading, then
      move `distance × Multiplier`, backwards for a Left stroke and forwards otherwise. */
  function StrokeCommands(s: Stroke): (cmds: seq<Command>) {
    [SetHeading(HeadingOf(s.dir)),
     if s.dir == Left then Back(s.distance * Multiplier) else Forward(s.distance * Multiplier)]
  }

  /** The commands for a whole path, stroke after stroke. */
  function DrawPath(path: seq<Stroke>): (cmds: seq<Command>)
    decreases |path|
  {
    if path == [] then [] else DrawPath(path[..|path| - 1]) + StrokeCommands(path[|path| - 1])
  }

  /** `drawLetter`: the commands for one letter. */
  function DrawLetter(l: Letter): (cmds: seq<Command>) {
    DrawPath(Path(l))
  }

  /** The ink a path leaves when traced with the pen down from pixel `o`:
      one segment per stroke, from where the path so far ends to where the
      stroke takes it. */
  function Outline(o: Point, path: seq<Stroke>): (segs: seq<Segment>)
    ensures |segs| == |path|
    decreases |path|
  {
    if path == [] then []
    else Outline(o, path[..|path| - 1]) + [Segment(Place(o, End(path[..|path| - 1])), Place(o, End(path)))]
  }

  /** The `k`-th segment of an outline joins corner `k` to corner `k + 1`. */
  lemma {:induction false} OutlineAt(o: Point, path: seq<Stroke>, k: nat)
    requires k < |path|
    ensures Outline(o, path)[k] == Segment(Place(o, CornerAt(path, k)), Place(o, CornerAt(path, k + 1)))
    decreases |path|
  {
    var n := |path|;
    var prefix := path[..n - 1];
    CornerAtPrefix(path, n - 1, k);
    if k < n - 1 {
      OutlineAt(o, prefix, k);
      CornerAtPrefix(path, n - 1, k + 1);
      assert Outline(o, path)[k] == Outline(o, prefix)[k];
    }
  }

  /** A path becomes exactly two commands per stroke, in stroke order:
      the stroke's heading, then its move. */
  lemma {:induction false} DrawPathShape(path: seq<Stroke>)
    ensures |DrawPath(path)| == 2 * |path|
    ensures forall i :: 0 <= i < |DrawPath(path)| ==>
      DrawPath(path)[i] == StrokeCommands(path[i / 2])[i % 2]
    decreases |path|
  {
    if path != [] {
      var n := |path|;
      DrawPathShape(path[..n - 1]);
      var d := DrawPath(path);
      assert d == DrawPath(path[..n - 1]) + StrokeCommands(path[n - 1]);
      forall i | 0 <= i < |d|
        ensures d[i] == StrokeCommands(path[i / 2])[i % 2]
      {
        if i < 2 * (n - 1) {
          assert d[i] == DrawPath(path[..n - 1])[i];
          assert path[..n - 1][i / 2] == path[i / 2];
        }
      }
    }
  }

  /** One stroke moves the pen by exactly the stroke's intended displacement
      (a Left stroke therefore goes towards -x, through the backward move),
      leaves the pen flag and colour alone, and inks one segment when the pen is down. */
  lemma StrokeEffect(p: PenState, s: Stroke)
    ensures Run(p, StrokeCommands(s)) == p.(pos := Place(p.pos, Displacement(s)), heading := HeadingOf(s.dir))
    ensures Positions(p, StrokeCommands(s)) == [p.pos, Place(p.pos, Displacement(s))]
    ensures Ink(p, StrokeCommands(s)) == if p.penDown then [Segment(p.pos, Place(p.pos, Displacement(s)))] else []
  {
    var move := StrokeCommands(s)[1];
    RunTwo(p, SetHeading(HeadingOf(s.dir)), move);
    StrokeMove(p.(heading := HeadingOf(s.dir)), s);
  }

  /** The move of a stroke, made at the stroke's heading, goes exactly the
      stroke's displacement: a backward move at heading 90 goes towards -x. */
  lemma StrokeMove(q: PenState, s: Stroke)
    requires q.heading == HeadingOf(s.dir)
    ensures Step(q, StrokeCommands(s)[1]) == q.(pos := Place(q.pos, Displacement(s)))
    ensures StrokeCommands(s)[1].IsMove()
  {
    match s.dir
    case Up =>
    case Down =>
    case Left =>
    case Right =>
  }

  /** What each direction's heading and move do to the pen: UP turns to 0 and
      goes forward 20 pixels per unit along +y, DOWN turns to 180 and goes
      along -y, RIGHT turns to 90 and goes along +x, and LEFT turns to 90 as
      well but moves backwards, so it travels along -x. */
  lemma StrokeDirection(p: PenState, s: Stroke)
    ensures s.dir == Up ==>
      Run(p, StrokeCommands(s)) == p.(pos := Point(p.pos.x, p.pos.y + 20 * s.distance), heading := 0)
    ensures s.dir == Down ==>
      Run(p, StrokeCommands(s)) == p.(pos := Point(p.pos.x, p.pos.y - 20 * s.distance), heading := 180)
    ensures s.dir == Right ==>
      Run(p, StrokeCommands(s)) == p.(pos := Point(p.pos.x + 20 * s.distance, p.pos.y), heading := 90)
    ensures s.dir == Left ==>
      Run(p, StrokeCommands(s)) == p.(pos := Point(p.pos.x - 20 * s.distance, p.pos.y), heading := 90)
  {
    StrokeEffect(p, s);
  }

  /** Placing is compatible with adding displacements. */
  lemma PlaceStep(o: Point, c: Point, d: Point)
    ensures Place(Place(o, c), d) == Place(o, Point(c.x + d.x, c.y + d.y))
  {
  }

  /** Drawing a path moves the pen from its start to the path's end point
      (scaled to pixels), keeps the pen flag and colour, and leaves the heading
      of the last stroke. */
  lemma {:induction false} DrawPathRun(p: PenState, path: seq<Stroke>)
    ensures Run(p, DrawPath(path)) ==
      p.(pos := Place(p.pos, End(path)),
         heading := if path == [] then p.heading else HeadingOf(path[|path| - 1].dir))
    decreases |path|
  {
    if path != [] {
      var n := |path|;
      var prefix := path[..n - 1];
      DrawPathRun(p, prefix);
      RunAppend(p, DrawPath(prefix), StrokeCommands(path[n - 1]));
      var q := Run(p, DrawPath(prefix));
      StrokeEffect(q, path[n - 1]);
      EndSnoc(path);
      PlaceStep(p.pos, End(prefix), Displacement(path[n - 1]));
    }
  }

  /** The positions the pen occupies while drawing a path are exactly its
      corners, each held twice (once when the heading is set, once after the
      move), apart from the origin, which is also the start. */
  lemma {:induction false} DrawPathVisits(p: PenState, path: seq<Stroke>)
    ensures |Visited(p, DrawPath(path))| == 2 * |path| + 1
    ensures forall i :: 0 <= i < |Visited(p, DrawPath(path))| ==>
      Visited(p, DrawPath(path))[i] == Place(p.pos, CornerAt(path, i / 2))
    decreases |path|
  {
    DrawPathShape(path);
    if path != [] {
      var n := |path|;
      var prefix := path[..n - 1];
      var last := StrokeCommands(path[n - 1]);
      DrawPathVisits(p, prefix);
      DrawPathRun(p, prefix);
      DrawPathShape(prefix);
      var q := Run(p, DrawPath(prefix));
      PositionsAppend(p, DrawPath(prefix), last);
      StrokeEffect(q, path[n - 1]);
      var vp := Visited(p, DrawPath(prefix));
      assert Visited(p, DrawPath(path)) == vp + [q.pos, Place(q.pos, Displacement(path[n - 1]))];
      VisitsExtend(p.pos, path, vp);
    }
  }

  /** The corner list held twice over extends by the next corner, twice. */
  lemma VisitsExtend(o: Point, path: seq<Stroke>, vp: seq<Point>)
    requires path != []
    requires |vp| == 2 * (|path| - 1) + 1
    requires forall i :: 0 <= i < |vp| ==> vp[i] == Place(o, CornerAt(path[..|path| - 1], i / 2))
    ensures var e := Place(o, End(path[..|path| - 1]));
      forall i :: 0 <= i < |vp| + 2 ==>
        (vp + [e, Place(e, Displacement(path[|path| - 1]))])[i] == Place(o, CornerAt(path, i / 2))
  {
    var n := |path|;
    var prefix := path[..n - 1];
    var e := Place(o, End(prefix));
    var v := vp + [e, Place(e, Displacement(path[n - 1]))];
    forall i | 0 <= i < |v|
      ensures v[i] == Place(o, CornerAt(path, i / 2))
    {
      if i < |vp| {
        assert v[i] == vp[i];
        CornerAtPrefix(path, n - 1, i / 2);
      } else if i == |vp| {
        CornerAtPrefix(path, n - 1, n - 1);
      } else {
        CornerAtPrefix(path, n - 1, n - 1);
        PlaceStep(o, End(prefix), Displacement(path[n - 1]));
      }
    }
  }

  /** Drawing a path with the pen down inks exactly its outline, one segment
      per stroke; with the pen up it inks nothing. */
  lemma {:induction false} DrawPathInk(p: PenState, path: seq<Stroke>)
    ensures Ink(p, DrawPath(path)) == if p.penDown then Outline(p.pos, path) else []
    decreases |path|
  {
    if path != [] {
      var n := |path|;
      var prefix := path[..n - 1];
      var last := StrokeCommands(path[n - 1]);
      DrawPathInk(p, prefix);
      DrawPathRun(p, prefix);
      var q := Run(p, DrawPath(prefix));
      InkAppend(p, DrawPath(prefix), last);
      StrokeEffect(q, path[n - 1]);
      EndSnoc(path);
      PlaceStep(p.pos, End(prefix), Displacement(path[n - 1]));
      var seg := Segment(q.pos, Place(q.pos, Displacement(path[n - 1])));
      assert seg == Segment(Place(p.pos, End(prefix)), Place(p.pos, End(path)));
      assert Ink(q, last) == if p.penDown then [seg] else [];
    }
  }

  /** Corner `j` of a path is where the pen stands after the `j`-th stroke's move. */
  lemma CornerVisited(p: PenState, path: seq<Stroke>, j: nat)
    requires j <= |path|
    ensures 2 * j < |Visited(p, DrawPath(path))|
    ensures Visited(p, DrawPath(path))[2 * j] == Place(p.pos, CornerAt(path, j))
  {
    DrawPathVisits(p, path);
    assert (2 * j) / 2 == j;
  }

  /** Placing keeps a point inside the correspondingly placed box. */
  lemma PlaceInBox(o: Point, b: Box, c: Point)
    requires InBox(b, c)
    ensures InBox(Box(Place(o, b.lo), Place(o, b.hi)), Place(o, c))
  {
  }

  /** The pixel box a path's drawing covers is its unit bounding box, scaled and
      placed at the pen's start. */
  lemma PlacedBox(p: PenState, path: seq<Stroke>, b: Box)
    requires IsBoundingBox(Corners(path), b)
    ensures IsBoundingBox(Visited(p, DrawPath(path)), Box(Place(p.pos, b.lo), Place(p.pos, b.hi)))
  {
    PlacedInside(p, path, b);
    PlacedSides(p, path, b);
  }

  /** Every position the pen passes through lies in the placed box. */
  lemma PlacedInside(p: PenState, path: seq<Stroke>, b: Box)
    requires forall k :: 0 <= k < |Corners(path)| ==> InBox(b, Corners(path)[k])
    ensures var v := Visited(p, DrawPath(path));
      forall i :: 0 <= i < |v| ==> InBox(Box(Place(p.pos, b.lo), Place(p.pos, b.hi)), v[i])
  {
    DrawPathVisits(p, path);
    var v := Visited(p, DrawPath(path));
    var cs := Corners(path);
    forall i | 0 <= i < |v|
      ensures InBox(Box(Place(p.pos, b.lo), Place(p.pos, b.hi)), v[i])
    {
      assert v[i] == Place(p.pos, cs[i / 2]);
      PlaceInBox(p.pos, b, cs[i / 2]);
    }
  }

  /** Each side of the placed box is touched by a corner the pen passes through. */
  lemma PlacedSides(p: PenState, path: seq<Stroke>, b: Box)
    requires IsBoundingBox(Corners(path), b)
    ensures var v := Visited(p, DrawPath(path)); var pb := Box(Place(p.pos, b.lo), Place(p.pos, b.hi));
      && (exists i :: 0 <= i < |v| && v[i].x == pb.lo.x)
      && (exists i :: 0 <= i < |v| && v[i].x == pb.hi.x)
      && (exists i :: 0 <= i < |v| && v[i].y == pb.lo.y)
      && (exists i :: 0 <= i < |v| && v[i].y == pb.hi.y)
  {
    var v := Visited(p, DrawPath(path));
    var cs := Corners(path);
    var j0 :| 0 <= j0 < |cs| && cs[j0].x == b.lo.x;
    var j1 :| 0 <= j1 < |cs| && cs[j1].x == b.hi.x;
    var j2 :| 0 <= j2 < |cs| && cs[j2].y == b.lo.y;
    var j3 :| 0 <= j3 < |cs| && cs[j3].y == b.hi.y;
    CornerVisited(p, path, j0);
    CornerVisited(p, path, j1);
    CornerVisited(p, path, j2);
    CornerVisited(p, path, j3);
    assert v[2 * j0].x == Place(p.pos, b.lo).x;
    assert v[2 * j1].x == Place(p.pos, b.hi).x;
    assert v[2 * j2].y == Place(p.pos, b.lo).y;
    assert v[2 * j3].y == Place(p.pos, b.hi).y;
  }

  /** A letter ends where it started, with the pen flag and colour untouched,
      for every letter except T, which ends one unit to the right. */
  lemma LetterReturns(p: PenState, l: Letter)
    ensures Run(p, DrawLetter(l)).pos == p.pos <==> l != T
    ensures l == T ==> Run(p, DrawLetter(l)).pos == Point(p.pos.x + Multiplier, p.pos.y)
    ensures Run(p, DrawLetter(l)).penDown == p.penDown
    ensures Run(p, DrawLetter(l)).color == p.color
  {
    DrawPathRun(p, Path(l));
    LetterClosure(l);
  }

  /** Everything the pen passes while drawing a letter lies in a box 5 units
      tall and as wide as the letter's declared width, starting at the pen, and
      the pen touches all four sides; T instead spans 3 units although its
      declared width is 2. */
  lemma LetterBox(p: PenState, l: Letter)
    ensures l != T ==> BoundingBox(Visited(p, DrawLetter(l))) == Box(p.pos, Place(p.pos, Point(Width(l), 5)))
    ensures l == T ==> BoundingBox(Visited(p, DrawLetter(l))) == Box(p.pos, Place(p.pos, Point(3, 5)))
  {
    LetterExtent(l);
    var b := if l == T then Box(Origin, Point(3, 5)) else Box(Origin, Point(Width(l), 5));
    PlacedBox(p, Path(l), b);
    BoundingBoxUnique(Visited(p, DrawLetter(l)), Box(Place(p.pos, b.lo), Place(p.pos, b.hi)));
  }

  /** Drawn with the pen down, a letter inks exactly its outline at the pen, one
      segment per stroke. */
  lemma LetterInk(p: PenState, l: Letter)
    requires p.penDown
    ensures Ink(p, DrawLetter(l)) == Outline(p.pos, Path(l))
    ensures |Ink(p, DrawLetter(l))| == |Path(l)|
  {
    DrawPathInk(p, Path(l));
  }

  /** A has 8 strokes and O has 4, so they become 16 and 8 commands. */
  lemma StrokeCounts()
    ensures |DrawLetter(A)| == 16 && |DrawLetter(O)| == 8
  {
    DrawPathShape(Path(A));
    DrawPathShape(Path(O));
  }

  /** O drawn with the pen down is the rectangle (0,0) -> (0,5) -> (3,5) -> (3,0) -> (0,0) in units. */
  lemma OTracesRectangle(p: PenState)
    requires p.penDown
    ensures Ink(p, DrawLetter(O)) ==
      [Segment(p.pos, Place(p.pos, Point(0, 5))), Segment(Place(p.pos, Point(0, 5)), Place(p.pos, Point(3, 5))),
       Segment(Place(p.pos, Point(3, 5)), Place(p.pos, Point(3, 0))), Segment(Place(p.pos, Point(3, 0)), p.pos)]
  {
    DrawPathInk(p, Path(O));
    CornersOfO();
    var cs := Corners(Path(O));
    assert CornerAt(Path(O), 0) == cs[0] && CornerAt(Path(O), 1) == cs[1] && CornerAt(Path(O), 2) == cs[2];
    assert CornerAt(Path(O), 3) == cs[3] && CornerAt(Path(O), 4) == cs[4];
    FourSegments(p.pos, Path(O), Point(0, 0), Point(0, 5), Point(3, 5), Point(3, 0), Point(0, 0));
    assert Place(p.pos, Point(0, 0)) == p.pos;
  }

  /** The outline of a four-stroke path, spelled out from its corners. */
  lemma FourSegments(o: Point, path: seq<Stroke>, c0: Point, c1: Point, c2: Point, c3: Point, c4: Point)
    requires |path| == 4
    requires CornerAt(path, 0) == c0 && CornerAt(path, 1) == c1 && CornerAt(path, 2) == c2
    requires CornerAt(path, 3) == c3 && CornerAt(path, 4) == c4
    ensures Outline(o, path) ==
      [Segment(Place(o, c0), Place(o, c1)), Segment(Place(o, c1), Place(o, c2)),
       Segment(Place(o, c2), Place(o, c3)), Segment(Place(o, c3), Place(o, c4))]
  {
    OutlineAt(o, path, 0);
    OutlineAt(o, path, 1);
    OutlineAt(o, path, 2);
    OutlineAt(o, path, 3);
  }
}
