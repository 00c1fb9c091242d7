/** The letter catalog of the word turtle: each letter is a declared
    advance width and a hand-written path of axis-aligned strokes, measured
    in abstract units (one unit is `Multiplier` pixels once drawn).
 */
module Glyphs {
  import opened Turtle

  /** The four stroke directions of a letter path. */
  datatype Direction = Up | Down | Left | Right

  /** The absolute heading each direction is drawn with. Left and Right share
      heading 90: a Left stroke is drawn by moving backwards at heading 90. */
  function HeadingOf(d: Direction): (h: Heading) {
    match d
    case Up => 0
    case Down => 180
    case Left => 90
    case Right => 90
  }

  /** The unit vector a stroke in direction `d` is meant to travel, written
      independently of the headings: Left is -x, Right is +x. */
  function Unit(d: Direction): (v: Point) {
    match d
    case Up => Point(0, 1)
    case Down => Point(0, -1)
    case Left => Point(-1, 0)
    case Right => Point(1, 0)
  }

  /** One stroke of a letter path: a direction and a whole number of units. */
  datatype Stroke = Stroke(dir: Direction, distance: nat)

  /** The displacement a stroke is meant to make, in units. */
  function Displacement(s: Stroke): (v: Point) {
    Point(Unit(s.dir).x * s.distance, Unit(s.dir).y * s.distance)
  }

  datatype Letter = A | E | G | H | I | M | N | O | S | T | W

  /** The declared advance width of each letter, in units. */
  function Width(l: Letter): (w: nat) {
    match l
    case A => 3
    case E => 3
    case G => 4
    case H => 3
    case I => 3
    case M => 5
    case N => 3
    case O => 3
    case S => 3
    case T => 2
    case W => 5
  }

  /** The stroke path of each letter, traced from the letter's lower-left corner. */
  function Path(l: Letter): (strokes: seq<Stroke>) {
    match l
    case A => [Stroke(Up, 5), Stroke(Right, 3), Stroke(Down, 5), Stroke(Left, 1),
               Stroke(Up, 2), Stroke(Left, 1), Stroke(Down, 2), Stroke(Left, 1)]
    case E => [Stroke(Up, 5), Stroke(Right, 3), Stroke(Down, 1), Stroke(Left, 1),
               Stroke(Down, 1), Stroke(Right, 1), Stroke(Down, 1), Stroke(Left, 1),
               Stroke(Down, 1), Stroke(Right, 1), Stroke(Down, 1), Stroke(Left, 3)]
    case G => [Stroke(Up, 5), Stroke(Right, 4), Stroke(Down, 1), Stroke(Left, 3),
               Stroke(Down, 3), Stroke(Right, 2), Stroke(Up, 1), Stroke(Left, 1),
               Stroke(Up, 1), Stroke(Right, 2), Stroke(Down, 3), Stroke(Left, 4)]
    case H => [Stroke(Up, 5), Stroke(Right, 1), Stroke(Down, 2), Stroke(Right, 1),
               Stroke(Up, 2), Stroke(Right, 1), Stroke(Down, 5), Stroke(Left, 1),
               Stroke(Up, 2), Stroke(Left, 1), Stroke(Down, 2), Stroke(Left, 1)]
    case I => [Stroke(Up, 1), Stroke(Right, 1), Stroke(Up, 3), Stroke(Left, 1),
               Stroke(Up, 1), Stroke(Right, 3), Stroke(Down, 1), Stroke(Left, 1),
               Stroke(Down, 3), Stroke(Right, 1), Stroke(Down, 1), Stroke(Left, 3)]
    case M => [Stroke(Up, 5), Stroke(Right, 5), Stroke(Down, 5), Stroke(Left, 1),
               Stroke(Up, 2), Stroke(Left, 1), Stroke(Down, 1), Stroke(Left, 1),
               Stroke(Up, 1), Stroke(Left, 1), Stroke(Down, 2), Stroke(Left, 1)]
    case N => [Stroke(Up, 5), Stroke(Right, 3), Stroke(Down, 5), Stroke(Left, 1),
               Stroke(Up, 2), Stroke(Left, 1), Stroke(Down, 2), Stroke(Left, 1)]
    case O => [Stroke(Up, 5), Stroke(Right, 3), Stroke(Down, 5), Stroke(Left, 3)]
    case S => [Stroke(Up, 1), Stroke(Right, 2), Stroke(Up, 1), Stroke(Left, 2),
               Stroke(Up, 3), Stroke(Right, 3), Stroke(Down, 1), Stroke(Left, 1),
               Stroke(Down, 1), Stroke(Right, 1), Stroke(Down, 3), Stroke(Left, 3)]
    case T => [Stroke(Right, 1), Stroke(Up, 4), Stroke(Left, 1), Stroke(Up, 1),
               Stroke(Right, 3), Stroke(Down, 1), Stroke(Left, 1), Stroke(Down, 4),
               Stroke(Left, 1)]
    case W => [Stroke(Up, 5), Stroke(Right, 1), Stroke(Down, 2), Stroke(Right, 1),
               Stroke(Up, 1), Stroke(Right, 1), Stroke(Down, 1), Stroke(Right, 1),
               Stroke(Up, 2), Stroke(Right, 1), Stroke(Down, 5), Stroke(Left, 5)]
  }

  /** The enum constant's name. */
  function Name(l: Letter): (c: char) {
    match l
    case A => 'A'
    case E => 'E'
    case G => 'G'
    case H => 'H'
    case I => 'I'
    case M => 'M'
    case N => 'N'
    case O => 'O'
    case S => 'S'
    case T => 'T'
    case W => 'W'
  }

  datatype LookupResult = Found(letter: Letter) | UnknownGlyph(c: char)

  /** The letter named `c`, or UnknownGlyph when the catalog has no such letter. */
  function Lookup(c: char): (r: LookupResult)
    ensures r.Found? <==> c in "AEGHIMNOSTW"
    ensures r.Found? ==> Name(r.letter) == c
    ensures r.UnknownGlyph? ==> r.c == c
  {
    match c
    case 'A' => Found(A)
    case 'E' => Found(E)
    case 'G' => Found(G)
    case 'H' => Found(H)
    case 'I' => Found(I)
    case 'M' => Found(M)
    case 'N' => Found(N)
    case 'O' => Found(O)
    case 'S' => Found(S)
    case 'T' => Found(T)
    case 'W' => Found(W)
    case _ => UnknownGlyph(c)
  }

  /** Looking a letter up by its name gives the letter back, and no two letters share a name. */
  lemma LookupName(l: Letter)
    ensures Lookup(Name(l)) == Found(l)
    ensures forall l' :: Name(l') == Name(l) ==> l' == l
  {
  }

  /** The `k`-th corner of a path traced from the letter origin, in units:
      corner 0 is the origin and corner `k` is where the `k`-th stroke ends. */
  function CornerAt(path: seq<Stroke>, k: int): (c: Point)
    requires 0 <= k <= |path|
  {
    if k <= 0 then Origin
    else
      var c := CornerAt(path, k - 1);
      var d := Displacement(path[k - 1]);
      Point(c.x + d.x, c.y + d.y)
  }

  /** All corners of a path, from the origin to where the path ends. */
  function Corners(path: seq<Stroke>): (cs: seq<Point>)
    ensures |cs| == |path| + 1
  {
    seq(|path| + 1, k requires 0 <= k <= |path| => CornerAt(path, k))
  }

  /** Where tracing a path from the letter origin ends, in units. */
  function End(path: seq<Stroke>): (e: Point) {
    CornerAt(path, |path|)
  }

  /** Extending a path by one stroke moves its end by that stroke's displacement. */
  lemma EndSnoc(path: seq<Stroke>)
    requires path != []
    ensures var e := End(path[..|path| - 1]); var d := Displacement(path[|path| - 1]);
      End(path) == Point(e.x + d.x, e.y + d.y)
  {
    CornerAtPrefix(path, |path| - 1, |path| - 1);
  }

  /** A corner depends only on the strokes before it. */
  lemma {:induction false} CornerAtPrefix(path: seq<Stroke>, m: nat, k: nat)
    requires k <= m <= |path|
    ensures CornerAt(path[..m], k) == CornerAt(path, k)
    decreases k
  {
    if k > 0 {
      CornerAtPrefix(path, m, k - 1);
      assert path[..m][k - 1] == path[k - 1];
    }
  }
}
