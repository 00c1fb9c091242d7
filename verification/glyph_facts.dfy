/** Facts about the letter table itself, in units: the corners each letter
    passes through, which letters close, and how far each one reaches.
 */
module GlyphFacts {
  import opened Turtle
  import opened Glyphs

  /** The corners A passes through, traced from its origin. */
  lemma CornersOfA()
    ensures Corners(Path(A)) == [Point(0, 0), Point(0, 5), Point(3, 5), Point(3, 0), Point(2, 0), Point(2, 2), Point(1, 2), Point(1, 0), Point(0, 0)]
  {
    var p := Path(A);
    assert CornerAt(p, 1) == Point(0, 5);
    assert CornerAt(p, 2) == Point(3, 5);
    assert CornerAt(p, 3) == Point(3, 0);
    assert CornerAt(p, 4) == Point(2, 0);
    assert CornerAt(p, 5) == Point(2, 2);
    assert CornerAt(p, 6) == Point(1, 2);
    assert CornerAt(p, 7) == Point(1, 0);
    assert CornerAt(p, 8) == Point(0, 0);
  }

  /** The corners E passes through, traced from its origin. */
  lemma CornersOfE()
    ensures Corners(Path(E)) == [Point(0, 0), Point(0, 5), Point(3, 5), Point(3, 4), Point(2, 4), Point(2, 3), Point(3, 3), Point(3, 2), Point(2, 2), Point(2, 1), Point(3, 1), Point(3, 0), Point(0, 0)]
  {
    var p := Path(E);
    assert CornerAt(p, 1) == Point(0, 5);
    assert CornerAt(p, 2) == Point(3, 5);
    assert CornerAt(p, 3) == Point(3, 4);
    assert CornerAt(p, 4) == Point(2, 4);
    assert CornerAt(p, 5) == Point(2, 3);
    assert CornerAt(p, 6) == Point(3, 3);
    assert CornerAt(p, 7) == Point(3, 2);
    assert CornerAt(p, 8) == Point(2, 2);
    assert CornerAt(p, 9) == Point(2, 1);
    assert CornerAt(p, 10) == Point(3, 1);
    assert CornerAt(p, 11) == Point(3, 0);
    assert CornerAt(p, 12) == Point(0, 0);
  }

  /** The corners G passes through, traced from its origin. */
  lemma CornersOfG()
    ensures Corners(Path(G)) == [Point(0, 0), Point(0, 5), Point(4, 5), Point(4, 4), Point(1, 4), Point(1, 1), Point(3, 1), Point(3, 2), Point(2, 2), Point(2, 3), Point(4, 3), Point(4, 0), Point(0, 0)]
  {
    var p := Path(G);
    assert CornerAt(p, 1) == Point(0, 5);
    assert CornerAt(p, 2) == Point(4, 5);
    assert CornerAt(p, 3) == Point(4, 4);
    assert CornerAt(p, 4) == Point(1, 4);
    assert CornerAt(p, 5) == Point(1, 1);
    assert CornerAt(p, 6) == Point(3, 1);
    assert CornerAt(p, 7) == Point(3, 2);
    assert CornerAt(p, 8) == Point(2, 2);
    assert CornerAt(p, 9) == Point(2, 3);
    assert CornerAt(p, 10) == Point(4, 3);
    assert CornerAt(p, 11) == Point(4, 0);
    assert CornerAt(p, 12) == Point(0, 0);
  }

  /** The corners H passes through, traced from its origin. */
  lemma CornersOfH()
    ensures Corners(Path(H)) == [Point(0, 0), Point(0, 5), Point(1, 5), Point(1, 3), Point(2, 3), Point(2, 5), Point(3, 5), Point(3, 0), Point(2, 0), Point(2, 2), Point(1, 2), Point(1, 0), Point(0, 0)]
  {
    var p := Path(H);
    assert CornerAt(p, 1) == Point(0, 5);
    assert CornerAt(p, 2) == Point(1, 5);
    assert CornerAt(p, 3) == Point(1, 3);
    assert CornerAt(p, 4) == Point(2, 3);
    assert CornerAt(p, 5) == Point(2, 5);
    assert CornerAt(p, 6) == Point(3, 5);
    assert CornerAt(p, 7) == Point(3, 0);
    assert CornerAt(p, 8) == Point(2, 0);
    assert CornerAt(p, 9) == Point(2, 2);
    assert CornerAt(p, 10) == Point(1, 2);
    assert CornerAt(p, 11) == Point(1, 0);
    assert CornerAt(p, 12) == Point(0, 0);
  }

  /** The corners I passes through, traced from its origin. */
  lemma CornersOfI()
    ensures Corners(Path(I)) == [Point(0, 0), Point(0, 1), Point(1, 1), Point(1, 4), Point(0, 4), Point(0, 5), Point(3, 5), Point(3, 4), Point(2, 4), Point(2, 1), Point(3, 1), Point(3, 0), Point(0, 0)]
  {
    var p := Path(I);
    assert CornerAt(p, 1) == Point(0, 1);
    assert CornerAt(p, 2) == Point(1, 1);
    assert CornerAt(p, 3) == Point(1, 4);
    assert CornerAt(p, 4) == Point(0, 4);
    assert CornerAt(p, 5) == Point(0, 5);
    assert CornerAt(p, 6) == Point(3, 5);
    assert CornerAt(p, 7) == Point(3, 4);
    assert CornerAt(p, 8) == Point(2, 4);
    assert CornerAt(p, 9) == Point(2, 1);
    assert CornerAt(p, 10) == Point(3, 1);
    assert CornerAt(p, 11) == Point(3, 0);
    assert CornerAt(p, 12) == Point(0, 0);
  }

  /** The corners M passes through, traced from its origin. */
  lemma CornersOfM()
    ensures Corners(Path(M)) == [Point(0, 0), Point(0, 5), Point(5, 5), Point(5, 0), Point(4, 0), Point(4, 2), Point(3, 2), Point(3, 1), Point(2, 1), Point(2, 2), Point(1, 2), Point(1, 0), Point(0, 0)]
  {
    var p := Path(M);
    assert CornerAt(p, 1) == Point(0, 5);
    assert CornerAt(p, 2) == Point(5, 5);
    assert CornerAt(p, 3) == Point(5, 0);
    assert CornerAt(p, 4) == Point(4, 0);
    assert CornerAt(p, 5) == Point(4, 2);
    assert CornerAt(p, 6) == Point(3, 2);
    assert CornerAt(p, 7) == Point(3, 1);
    assert CornerAt(p, 8) == Point(2, 1);
    assert CornerAt(p, 9) == Point(2, 2);
    assert CornerAt(p, 10) == Point(1, 2);
    assert CornerAt(p, 11) == Point(1, 0);
    assert CornerAt(p, 12) == Point(0, 0);
  }

  /** The corners N passes through, traced from its origin. */
  lemma CornersOfN()
    ensures Corners(Path(N)) == [Point(0, 0), Point(0, 5), Point(3, 5), Point(3, 0), Point(2, 0), Point(2, 2), Point(1, 2), Point(1, 0), Point(0, 0)]
  {
    var p := Path(N);
    assert CornerAt(p, 1) == Point(0, 5);
    assert CornerAt(p, 2) == Point(3, 5);
    assert CornerAt(p, 3) == Point(3, 0);
    assert CornerAt(p, 4) == Point(2, 0);
    assert CornerAt(p, 5) == Point(2, 2);
    assert CornerAt(p, 6) == Point(1, 2);
    assert CornerAt(p, 7) == Point(1, 0);
    assert CornerAt(p, 8) == Point(0, 0);
  }

  /** The corners O passes through, traced from its origin. */
  lemma CornersOfO()
    ensures Corners(Path(O)) == [Point(0, 0), Point(0, 5), Point(3, 5), Point(3, 0), Point(0, 0)]
  {
    var p := Path(O);
    assert CornerAt(p, 1) == Point(0, 5);
    assert CornerAt(p, 2) == Point(3, 5);
    assert CornerAt(p, 3) == Point(3, 0);
    assert CornerAt(p, 4) == Point(0, 0);
  }

  /** The corners S passes through, traced from its origin. */
  lemma CornersOfS()
    ensures Corners(Path(S)) == [Point(0, 0), Point(0, 1), Point(2, 1), Point(2, 2), Point(0, 2), Point(0, 5), Point(3, 5), Point(3, 4), Point(2, 4), Point(2, 3), Point(3, 3), Point(3, 0), Point(0, 0)]
  {
    var p := Path(S);
    assert CornerAt(p, 1) == Point(0, 1);
    assert CornerAt(p, 2) == Point(2, 1);
    assert CornerAt(p, 3) == Point(2, 2);
    assert CornerAt(p, 4) == Point(0, 2);
    assert CornerAt(p, 5) == Point(0, 5);
    assert CornerAt(p, 6) == Point(3, 5);
    assert CornerAt(p, 7) == Point(3, 4);
    assert CornerAt(p, 8) == Point(2, 4);
    assert CornerAt(p, 9) == Point(2, 3);
    assert CornerAt(p, 10) == Point(3, 3);
    assert CornerAt(p, 11) == Point(3, 0);
    assert CornerAt(p, 12) == Point(0, 0);
  }

  /** The corners T passes through, traced from its origin. */
  lemma CornersOfT()
    ensures Corners(Path(T)) == [Point(0, 0), Point(1, 0), Point(1, 4), Point(0, 4), Point(0, 5), Point(3, 5), Point(3, 4), Point(2, 4), Point(2, 0), Point(1, 0)]
  {
    var p := Path(T);
    assert CornerAt(p, 1) == Point(1, 0);
    assert CornerAt(p, 2) == Point(1, 4);
    assert CornerAt(p, 3) == Point(0, 4);
    assert CornerAt(p, 4) == Point(0, 5);
    assert CornerAt(p, 5) == Point(3, 5);
    assert CornerAt(p, 6) == Point(3, 4);
    assert CornerAt(p, 7) == Point(2, 4);
    assert CornerAt(p, 8) == Point(2, 0);
    assert CornerAt(p, 9) == Point(1, 0);
  }

  /** The corners W passes through, traced from its origin. */
  lemma CornersOfW()
    ensures Corners(Path(W)) == [Point(0, 0), Point(0, 5), Point(1, 5), Point(1, 3), Point(2, 3), Point(2, 4), Point(3, 4), Point(3, 3), Point(4, 3), Point(4, 5), Point(5, 5), Point(5, 0), Point(0, 0)]
  {
    var p := Path(W);
    assert CornerAt(p, 1) == Point(0, 5);
    assert CornerAt(p, 2) == Point(1, 5);
    assert CornerAt(p, 3) == Point(1, 3);
    assert CornerAt(p, 4) == Point(2, 3);
    assert CornerAt(p, 5) == Point(2, 4);
    assert CornerAt(p, 6) == Point(3, 4);
    assert CornerAt(p, 7) == Point(3, 3);
    assert CornerAt(p, 8) == Point(4, 3);
    assert CornerAt(p, 9) == Point(4, 5);
    assert CornerAt(p, 10) == Point(5, 5);
    assert CornerAt(p, 11) == Point(5, 0);
    assert CornerAt(p, 12) == Point(0, 0);
  }

  /** Tracing a letter's path returns to its origin for every letter except T,
      which ends one unit to the right of where it started. */
  lemma LetterClosure(l: Letter)
    ensures End(Path(l)) == Origin <==> l != T
    ensures l == T ==> End(Path(l)) == Point(1, 0)
  {
    var cs := Corners(Path(l));
    assert End(Path(l)) == cs[|Path(l)|];
    match l
    case A => CornersOfA();
    case E => CornersOfE();
    case G => CornersOfG();
    case H => CornersOfH();
    case I => CornersOfI();
    case M => CornersOfM();
    case N => CornersOfN();
    case O => CornersOfO();
    case S => CornersOfS();
    case T => CornersOfT();
    case W => CornersOfW();
  }

  /** The bounding box of the corners A passes through. */
  lemma ExtentOfA()
    ensures IsBoundingBox([Point(0, 0), Point(0, 5), Point(3, 5), Point(3, 0), Point(2, 0), Point(2, 2), Point(1, 2), Point(1, 0), Point(0, 0)], Box(Origin, Point(3, 5)))
  {
    var cs := [Point(0, 0), Point(0, 5), Point(3, 5), Point(3, 0), Point(2, 0), Point(2, 2), Point(1, 2), Point(1, 0), Point(0, 0)];
    assert cs[0].x == 0 && cs[2].x == 3;
    assert cs[0].y == 0 && cs[1].y == 5;
  }

  /** The bounding box of the corners E passes through. */
  lemma ExtentOfE()
    ensures IsBoundingBox([Point(0, 0), Point(0, 5), Point(3, 5), Point(3, 4), Point(2, 4), Point(2, 3), Point(3, 3), Point(3, 2), Point(2, 2), Point(2, 1), Point(3, 1), Point(3, 0), Point(0, 0)], Box(Origin, Point(3, 5)))
  {
    var cs := [Point(0, 0), Point(0, 5), Point(3, 5), Point(3, 4), Point(2, 4), Point(2, 3), Point(3, 3), Point(3, 2), Point(2, 2), Point(2, 1), Point(3, 1), Point(3, 0), Point(0, 0)];
    assert cs[0].x == 0 && cs[2].x == 3;
    assert cs[0].y == 0 && cs[1].y == 5;
  }

  /** The bounding box of the corners G passes through. */
  lemma ExtentOfG()
    ensures IsBoundingBox([Point(0, 0), Point(0, 5), Point(4, 5), Point(4, 4), Point(1, 4), Point(1, 1), Point(3, 1), Point(3, 2), Point(2, 2), Point(2, 3), Point(4, 3), Point(4, 0), Point(0, 0)], Box(Origin, Point(4, 5)))
  {
    var cs := [Point(0, 0), Point(0, 5), Point(4, 5), Point(4, 4), Point(1, 4), Point(1, 1), Point(3, 1), Point(3, 2), Point(2, 2), Point(2, 3), Point(4, 3), Point(4, 0), Point(0, 0)];
    assert cs[0].x == 0 && cs[2].x == 4;
    assert cs[0].y == 0 && cs[1].y == 5;
  }

  /** The bounding box of the corners H passes through. */
  lemma ExtentOfH()
    ensures IsBoundingBox([Point(0, 0), Point(0, 5), Point(1, 5), Point(1, 3), Point(2, 3), Point(2, 5), Point(3, 5), Point(3, 0), Point(2, 0), Point(2, 2), Point(1, 2), Point(1, 0), Point(0, 0)], Box(Origin, Point(3, 5)))
  {
    var cs := [Point(0, 0), Point(0, 5), Point(1, 5), Point(1, 3), Point(2, 3), Point(2, 5), Point(3, 5), Point(3, 0), Point(2, 0), Point(2, 2), Point(1, 2), Point(1, 0), Point(0, 0)];
    assert cs[0].x == 0 && cs[6].x == 3;
    assert cs[0].y == 0 && cs[1].y == 5;
  }

  /** The bounding box of the corners I passes through. */
  lemma ExtentOfI()
    ensures IsBoundingBox([Point(0, 0), Point(0, 1), Point(1, 1), Point(1, 4), Point(0, 4), Point(0, 5), Point(3, 5), Point(3, 4), Point(2, 4), Point(2, 1), Point(3, 1), Point(3, 0), Point(0, 0)], Box(Origin, Point(3, 5)))
  {
    var cs := [Point(0, 0), Point(0, 1), Point(1, 1), Point(1, 4), Point(0, 4), Point(0, 5), Point(3, 5), Point(3, 4), Point(2, 4), Point(2, 1), Point(3, 1), Point(3, 0), Point(0, 0)];
    assert cs[0].x == 0 && cs[6].x == 3;
    assert cs[0].y == 0 && cs[5].y == 5;
  }

  /** The bounding box of the corners M passes through. */
  lemma ExtentOfM()
    ensures IsBoundingBox([Point(0, 0), Point(0, 5), Point(5, 5), Point(5, 0), Point(4, 0), Point(4, 2), Point(3, 2), Point(3, 1), Point(2, 1), Point(2, 2), Point(1, 2), Point(1, 0), Point(0, 0)], Box(Origin, Point(5, 5)))
  {
    var cs := [Point(0, 0), Point(0, 5), Point(5, 5), Point(5, 0), Point(4, 0), Point(4, 2), Point(3, 2), Point(3, 1), Point(2, 1), Point(2, 2), Point(1, 2), Point(1, 0), Point(0, 0)];
    assert cs[0].x == 0 && cs[2].x == 5;
    assert cs[0].y == 0 && cs[1].y == 5;
  }

  /** The bounding box of the corners O passes through. */
  lemma ExtentOfO()
    ensures IsBoundingBox([Point(0, 0), Point(0, 5), Point(3, 5), Point(3, 0), Point(0, 0)], Box(Origin, Point(3, 5)))
  {
    var cs := [Point(0, 0), Point(0, 5), Point(3, 5), Point(3, 0), Point(0, 0)];
    assert cs[0].x == 0 && cs[2].x == 3;
    assert cs[0].y == 0 && cs[1].y == 5;
  }

  /** The bounding box of the corners S passes through. */
  lemma ExtentOfS()
    ensures IsBoundingBox([Point(0, 0), Point(0, 1), Point(2, 1), Point(2, 2), Point(0, 2), Point(0, 5), Point(3, 5), Point(3, 4), Point(2, 4), Point(2, 3), Point(3, 3), Point(3, 0), Point(0, 0)], Box(Origin, Point(3, 5)))
  {
    var cs := [Point(0, 0), Point(0, 1), Point(2, 1), Point(2, 2), Point(0, 2), Point(0, 5), Point(3, 5), Point(3, 4), Point(2, 4), Point(2, 3), Point(3, 3), Point(3, 0), Point(0, 0)];
    assert cs[0].x == 0 && cs[6].x == 3;
    assert cs[0].y == 0 && cs[5].y == 5;
  }

  /** The bounding box of the corners T passes through. */
  lemma ExtentOfT()
    ensures IsBoundingBox([Point(0, 0), Point(1, 0), Point(1, 4), Point(0, 4), Point(0, 5), Point(3, 5), Point(3, 4), Point(2, 4), Point(2, 0), Point(1, 0)], Box(Origin, Point(3, 5)))
  {
    var cs := [Point(0, 0), Point(1, 0), Point(1, 4), Point(0, 4), Point(0, 5), Point(3, 5), Point(3, 4), Point(2, 4), Point(2, 0), Point(1, 0)];
    assert cs[0].x == 0 && cs[5].x == 3;
    assert cs[0].y == 0 && cs[4].y == 5;
  }

  /** The bounding box of the corners W passes through. */
  lemma ExtentOfW()
    ensures IsBoundingBox([Point(0, 0), Point(0, 5), Point(1, 5), Point(1, 3), Point(2, 3), Point(2, 4), Point(3, 4), Point(3, 3), Point(4, 3), Point(4, 5), Point(5, 5), Point(5, 0), Point(0, 0)], Box(Origin, Point(5, 5)))
  {
    var cs := [Point(0, 0), Point(0, 5), Point(1, 5), Point(1, 3), Point(2, 3), Point(2, 4), Point(3, 4), Point(3, 3), Point(4, 3), Point(4, 5), Point(5, 5), Point(5, 0), Point(0, 0)];
    assert cs[0].x == 0 && cs[10].x == 5;
    assert cs[0].y == 0 && cs[1].y == 5;
  }

  /** Every letter is 5 units tall and starts at its origin's column; it is exactly
      its declared width wide, except T, which is 3 units wide although its width is 2. */
  lemma LetterExtent(l: Letter)
    ensures l != T ==> IsBoundingBox(Corners(Path(l)), Box(Origin, Point(Width(l), 5)))
    ensures l == T ==> IsBoundingBox(Corners(Path(l)), Box(Origin, Point(3, 5))) && Width(l) == 2
  {
    match l
    case A => CornersOfA(); ExtentOfA();
    case E => CornersOfE(); ExtentOfE();
    case G => CornersOfG(); ExtentOfG();
    case H => CornersOfH(); ExtentOfH();
    case I => CornersOfI(); ExtentOfI();
    case M => CornersOfM(); ExtentOfM();
    case N => CornersOfN(); ExtentOfA();
    case O => CornersOfO(); ExtentOfO();
    case S => CornersOfS(); ExtentOfS();
    case T => CornersOfT(); ExtentOfT();
    case W => CornersOfW(); ExtentOfW();
  }

  /** N is drawn with exactly A's strokes and width, so the two letters look the same. */
  lemma NDrawnAsA()
    ensures Path(N) == Path(A) && Width(N) == Width(A)
  {
  }
}
