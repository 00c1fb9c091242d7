/** `WordTurtle.draw`: the word layout loop. Each letter of a word is drawn,
    then the pen is lifted and carried right by the letter's width plus one
    unit; after each word the pen drops 6 units and is carried back left by
    the word's accumulated offset, which starts at 1.
 */
module WordLayout {
  import opened Turtle
  import opened Glyphs
  import opened GlyphFacts
  import opened LetterDrawing

  /** Where drawing starts, in pixels, and the pen colour (java.awt.Color.RED). */
  const StartX: int := -500
  const StartY: int := 200
  const Red: int := 0xFF0000

  /** How far each line is below the previous one, in units. */
  const LineDrop: nat := 6

  type Word = seq<Letter>

  const Something: Word := [S, O, M, E, T, H, I, N, G]
  const Awesome: Word := [A, W, E, S, O, M, E]

  /** The words the turtle draws, one per line. */
  const Words: seq<Word> := [Something, Awesome]

  /** The move to the next letter's origin: pen up, face right, advance
      `width + 1` units, pen down. */
  function Advance(l: Letter): (cmds: seq<Command>) {
    [PenUp, SetHeading(HeadingOf(Right)), Forward((Width(l) + 1) * Multiplier), PenDown]
  }

  /** The commands for the letters of a word, each followed by its advance. */
  function LettersCommands(w: Word): (cmds: seq<Command>)
    decreases |w|
  {
    if w == [] then [] else LettersCommands(w[..|w| - 1]) + DrawLetter(w[|w| - 1]) + Advance(w[|w| - 1])
  }

  /** The sum of `width + 1` over the letters of a word. */
  function SumAdvance(w: Word): (n: nat)
    decreases |w|
  {
    if w == [] then 0 else SumAdvance(w[..|w| - 1]) + Width(w[|w| - 1]) + 1
  }

  /** How far right of its origin each letter ends, in units: 1 for T, 0 for the others. */
  function EndX(l: Letter): (x: int) {
    End(Path(l)).x
  }

  /** The sum of the letters' end offsets over a word. */
  function Drift(w: Word): (n: int)
    decreases |w|
  {
    if w == [] then 0 else Drift(w[..|w| - 1]) + EndX(w[|w| - 1])
  }

  /** The return to the next line: pen up, drop `LineDrop` units, carry the pen
      back `totalOffset` units at the Left heading, pen down. */
  function LineWrap(totalOffset: int): (cmds: seq<Command>) {
    [PenUp, SetHeading(HeadingOf(Down)), Forward(LineDrop * Multiplier),
     SetHeading(HeadingOf(Left)), Back(totalOffset * Multiplier), PenDown]
  }

  /** One word: its letters with their advances, then the return to the next line. */
  function WordCommands(w: Word): (cmds: seq<Command>) {
    LettersCommands(w) + LineWrap(1 + SumAdvance(w))
  }

  /** The words in order, each on its own line. */
  function WordsCommands(ws: seq<Word>): (cmds: seq<Command>)
    decreases |ws|
  {
    if ws == [] then [] else WordsCommands(ws[..|ws| - 1]) + WordCommands(ws[|ws| - 1])
  }

  /** Everything the turtle is told: go to the start, set the turtle's colour to red, draw the words. */
  function Program(ws: seq<Word>): (cmds: seq<Command>) {
    [SetX(StartX), SetY(StartY), SetColor(Red)] + WordsCommands(ws)
  }

  /** One more letter extends the command list and the offset sum by that letter. */
  lemma LettersCommandsSnoc(w: Word, j: nat)
    requires j < |w|
    ensures LettersCommands(w[..j + 1]) == LettersCommands(w[..j]) + DrawLetter(w[j]) + Advance(w[j])
    ensures SumAdvance(w[..j + 1]) == SumAdvance(w[..j]) + Width(w[j]) + 1
  {
    assert w[..j + 1][..j] == w[..j];
  }

  /** The last letter of a word comes last in its command list. */
  lemma LettersCommandsLast(w: Word)
    requires w != []
    ensures LettersCommands(w) == LettersCommands(w[..|w| - 1]) + (DrawLetter(w[|w| - 1]) + Advance(w[|w| - 1]))
  {
  }

  /** The commands built by the per-word loop are the word's command list. */
  lemma WordAssembled(base: seq<Command>, letters: seq<Command>, cmds: seq<Command>, w: Word, totalOffset: int)
    requires letters == base + LettersCommands(w)
    requires cmds == letters + LineWrap(totalOffset)
    requires totalOffset == 1 + SumAdvance(w)
    ensures cmds == base + WordCommands(w)
  {
    WordCommandsWith(w, totalOffset);
    assert cmds == base + (LettersCommands(w) + LineWrap(totalOffset));
  }

  /** The commands appended for one letter are its drawing followed by its advance. */
  lemma CellAssembled(before: seq<Command>, letter: seq<Command>, l: Letter, cmds: seq<Command>)
    requires cmds == before + letter + [PenUp, SetHeading(HeadingOf(Right))] + [Forward((Width(l) + 1) * Multiplier), PenDown]
    ensures cmds == before + (letter + Advance(l))
  {
  }

  /** A word's command list, with the offset the loop has accumulated. */
  lemma WordCommandsWith(w: Word, totalOffset: int)
    requires totalOffset == 1 + SumAdvance(w)
    ensures WordCommands(w) == LettersCommands(w) + LineWrap(totalOffset)
  {
  }

  /** The loop's prefix at its end is the whole word. */
  lemma WholeWord(w: Word)
    ensures LettersCommands(w[..|w|]) == LettersCommands(w)
    ensures SumAdvance(w[..|w|]) == SumAdvance(w)
  {
    assert w[..|w|] == w;
  }

  /** One more word extends the program by that word's commands. */
  lemma ProgramSnoc(ws: seq<Word>, i: nat)
    requires i < |ws|
    ensures Program(ws[..i + 1]) == Program(ws[..i]) + WordCommands(ws[i])
  {
    assert ws[..i + 1][..i] == ws[..i];
  }

  /** The advance after a letter carries the pen `width + 1` units right with
      the pen up, inking nothing, and leaves it down and facing right. */
  lemma AdvanceEffect(p: PenState, l: Letter)
    ensures Run(p, Advance(l)) ==
      p.(pos := Point(p.pos.x + (Width(l) + 1) * Multiplier, p.pos.y), heading := HeadingOf(Right), penDown := true)
    ensures Ink(p, Advance(l)) == []
  {
    var a := [PenUp, SetHeading(HeadingOf(Right))];
    var b := [Forward((Width(l) + 1) * Multiplier), PenDown];
    assert Advance(l) == a + b;
    RunAppend(p, a, b);
    InkAppend(p, a, b);
    RunTwo(p, PenUp, SetHeading(HeadingOf(Right)));
    RunTwo(Run(p, a), Forward((Width(l) + 1) * Multiplier), PenDown);
  }

  /** The return after a word drops the pen `LineDrop` units and carries it
      `totalOffset` units left with the pen up, inking nothing, and leaves it
      down and facing right. */
  lemma LineWrapEffect(p: PenState, totalOffset: int)
    ensures Run(p, LineWrap(totalOffset)) ==
      p.(pos := Point(p.pos.x - totalOffset * Multiplier, p.pos.y - LineDrop * Multiplier),
         heading := HeadingOf(Left), penDown := true)
    ensures Ink(p, LineWrap(totalOffset)) == []
  {
    var drop := [PenUp, SetHeading(HeadingOf(Down)), Forward(LineDrop * Multiplier)];
    var back := [SetHeading(HeadingOf(Left)), Back(totalOffset * Multiplier), PenDown];
    assert LineWrap(totalOffset) == drop + back;
    RunAppend(p, drop, back);
    InkAppend(p, drop, back);
    RunThree(p, drop[0], drop[1], drop[2]);
    RunThree(Run(p, drop), back[0], back[1], back[2]);
  }

  /** Every letter ends on its baseline: where it started, or one unit to the right for T. */
  lemma EndOnBaseline(l: Letter)
    ensures End(Path(l)) == Point(EndX(l), 0)
    ensures EndX(l) == if l == T then 1 else 0
  {
    LetterClosure(l);
  }

  /** A letter followed by its advance moves the pen right by the letter's end
      offset plus `width + 1` units, and leaves it down and facing right. */
  lemma CellEffect(p: PenState, l: Letter)
    ensures Run(p, DrawLetter(l) + Advance(l)) ==
      p.(pos := Point(p.pos.x + Multiplier * (EndX(l) + Width(l) + 1), p.pos.y),
         heading := HeadingOf(Right), penDown := true)
    ensures Ink(p, DrawLetter(l) + Advance(l)) == if p.penDown then Outline(p.pos, Path(l)) else []
  {
    RunAppend(p, DrawLetter(l), Advance(l));
    InkAppend(p, DrawLetter(l), Advance(l));
    DrawPathRun(p, Path(l));
    DrawPathInk(p, Path(l));
    EndOnBaseline(l);
    AdvanceEffect(Run(p, DrawLetter(l)), l);
  }

  /** The letters of a word, each with its advance, move the pen right by the
      word's end offsets plus the sum of `width + 1`, on the same baseline. */
  lemma {:induction false} LettersRun(p: PenState, w: Word)
    ensures Run(p, LettersCommands(w)) ==
      if w == [] then p
      else p.(pos := Point(p.pos.x + Multiplier * (Drift(w) + SumAdvance(w)), p.pos.y),
              heading := HeadingOf(Right), penDown := true)
    decreases |w|
  {
    if w != [] {
      var n := |w|;
      var prefix := w[..n - 1];
      var l := w[n - 1];
      LettersRun(p, prefix);
      LettersCommandsLast(w);
      RunAppend(p, LettersCommands(prefix), DrawLetter(l) + Advance(l));
      var q := Run(p, LettersCommands(prefix));
      assert q.pos == Point(p.pos.x + Multiplier * (Drift(prefix) + SumAdvance(prefix)), p.pos.y);
      assert q.color == p.color;
      CellEffect(q, l);
      assert Drift(w) + SumAdvance(w) == Drift(prefix) + SumAdvance(prefix) + (EndX(l) + Width(l) + 1);
    }
  }

  /** For a word without a T, `totalOffset - 1` is exactly how far right the
      letters have carried the pen; each T carries it one unit further. */
  lemma OffsetTracksPen(p: PenState, w: Word, totalOffset: int)
    requires totalOffset == 1 + SumAdvance(w)
    ensures T !in w ==> Run(p, LettersCommands(w)).pos == Point(p.pos.x + Multiplier * (totalOffset - 1), p.pos.y)
    ensures Run(p, LettersCommands(w)).pos.x == p.pos.x + Multiplier * (totalOffset - 1 + multiset(w)[T])
  {
    LettersRun(p, w);
    DriftCountsT(w);
  }

  /** After a whole word and its return, the pen is `LineDrop` units lower and
      `Drift(w) - 1` units right of where the word started: the return carries
      it back one unit further than the advances carried it forward. */
  lemma WordRun(p: PenState, w: Word)
    ensures Run(p, WordCommands(w)) ==
      p.(pos := Point(p.pos.x + Multiplier * (Drift(w) - 1), p.pos.y - LineDrop * Multiplier),
         heading := HeadingOf(Left), penDown := true)
  {
    RunAppend(p, LettersCommands(w), LineWrap(1 + SumAdvance(w)));
    LettersRun(p, w);
    LineWrapEffect(Run(p, LettersCommands(w)), 1 + SumAdvance(w));
  }

  /** A word's end offsets add up to the number of T's in it. */
  lemma {:induction false} DriftCountsT(w: Word)
    ensures Drift(w) == multiset(w)[T]
    decreases |w|
  {
    if w != [] {
      var n := |w|;
      DriftCountsT(w[..n - 1]);
      assert w == w[..n - 1] + [w[n - 1]];
      EndOnBaseline(w[n - 1]);
    }
  }

  /** Each line starts one unit left of the line above it, plus one unit
      right for every T in the word above; so a line after a word with exactly
      one T starts directly below it. */
  lemma LineShift(p: PenState, w: Word)
    ensures Run(p, WordCommands(w)).pos ==
      Point(p.pos.x + Multiplier * (multiset(w)[T] as int - 1), p.pos.y - LineDrop * Multiplier)
    ensures multiset(w)[T] == 1 <==> Run(p, WordCommands(w)).pos.x == p.pos.x
  {
    WordRun(p, w);
    DriftCountsT(w);
  }

  /** Where the `k`-th letter of a word is drawn from, in pixels, for a word
      drawn from `o`: right of `o` by the advances and end offsets of the
      letters before it. */
  function LetterOrigin(o: Point, w: Word, k: nat): (q: Point)
    requires k <= |w|
  {
    Point(o.x + Multiplier * (Drift(w[..k]) + SumAdvance(w[..k])), o.y)
  }

  /** The ink of a word drawn from `o`: each letter's outline, placed at its origin. */
  function WordOutline(o: Point, w: Word): (segs: seq<Segment>)
    decreases |w|
  {
    if w == [] then []
    else WordOutline(o, w[..|w| - 1]) + Outline(LetterOrigin(o, w, |w| - 1), Path(w[|w| - 1]))
  }

  /** Drawing the letters of a word with the pen down leaves exactly the
      outlines of its letters at their origins, and no other ink. */
  lemma {:induction false} LettersInk(p: PenState, w: Word)
    requires p.penDown
    ensures Ink(p, LettersCommands(w)) == WordOutline(p.pos, w)
    decreases |w|
  {
    if w != [] {
      LettersInk(p, w[..|w| - 1]);
      LastLetterInk(p, w);
    }
  }

  /** The last letter of a word adds its outline, at its origin, to the ink of the letters before it. */
  lemma LastLetterInk(p: PenState, w: Word)
    requires p.penDown && w != []
    ensures Ink(p, LettersCommands(w)) ==
      Ink(p, LettersCommands(w[..|w| - 1])) + Outline(LetterOrigin(p.pos, w, |w| - 1), Path(w[|w| - 1]))
  {
    var n := |w|;
    var l := w[n - 1];
    var before := LettersCommands(w[..n - 1]);
    var q := Run(p, before);
    PenAtLetterOrigin(p, w, n - 1);
    LettersCommandsLast(w);
    InkAppend(p, before, DrawLetter(l) + Advance(l));
    CellEffect(q, l);
  }

  /** When the `k`-th letter of a word starts, the pen is at that letter's
      origin, and down unless nothing has been drawn yet. */
  lemma PenAtLetterOrigin(p: PenState, w: Word, k: nat)
    requires k <= |w|
    ensures Run(p, LettersCommands(w[..k])).pos == LetterOrigin(p.pos, w, k)
    ensures Run(p, LettersCommands(w[..k])).penDown == (p.penDown || k > 0)
  {
    LettersRun(p, w[..k]);
  }

  /** A whole word, return included, inks exactly its letters' outlines: the
      advances and the return are all made with the pen up. */
  lemma WordInk(p: PenState, w: Word)
    requires p.penDown
    ensures Ink(p, WordCommands(w)) == WordOutline(p.pos, w)
  {
    InkAppend(p, LettersCommands(w), LineWrap(1 + SumAdvance(w)));
    LettersInk(p, w);
    LineWrapEffect(Run(p, LettersCommands(w)), 1 + SumAdvance(w));
  }

  /** The sum of `Drift(w) - 1` over the words drawn so far: how far, in
      units, the next line starts right of the first. */
  function Carry(ws: seq<Word>): (n: int)
    decreases |ws|
  {
    if ws == [] then 0 else Carry(ws[..|ws| - 1]) + Drift(ws[|ws| - 1]) - 1
  }

  /** Where the line after the words `ws` starts, for a document begun at `o`. */
  function LineOrigin(o: Point, ws: seq<Word>): (q: Point) {
    Point(o.x + Multiplier * Carry(ws), o.y - |ws| * LineDrop * Multiplier)
  }

  /** Before any word, the line origin is the start itself. */
  lemma LineOriginEmpty(o: Point)
    ensures LineOrigin(o, []) == o
  {
  }

  /** The ink of a document begun at `o`: each word's outline, on its own line. */
  function DocumentOutline(o: Point, ws: seq<Word>): (segs: seq<Segment>)
    decreases |ws|
  {
    if ws == [] then [] else DocumentOutline(o, ws[..|ws| - 1]) + WordOutline(LineOrigin(o, ws[..|ws| - 1]), ws[|ws| - 1])
  }

  /** The last word comes last in the command list. */
  lemma WordsCommandsLast(ws: seq<Word>)
    requires ws != []
    ensures WordsCommands(ws) == WordsCommands(ws[..|ws| - 1]) + WordCommands(ws[|ws| - 1])
  {
  }

  /** Each word moves the pen to the start of the next line. */
  lemma {:induction false} WordsRun(q: PenState, ws: seq<Word>)
    ensures Run(q, WordsCommands(ws)) ==
      if ws == [] then q else q.(pos := LineOrigin(q.pos, ws), heading := HeadingOf(Left), penDown := true)
    decreases |ws|
  {
    if ws != [] {
      var prefix := ws[..|ws| - 1];
      WordsRun(q, prefix);
      WordsCommandsLast(ws);
      RunAppend(q, WordsCommands(prefix), WordCommands(ws[|ws| - 1]));
      var r := Run(q, WordsCommands(prefix));
      WordRun(r, ws[|ws| - 1]);
      assert r.pos == LineOrigin(q.pos, prefix);
      assert Carry(ws) == Carry(prefix) + Drift(ws[|ws| - 1]) - 1;
      assert |ws| * LineDrop * Multiplier == |prefix| * LineDrop * Multiplier + LineDrop * Multiplier;
      assert Run(r, WordCommands(ws[|ws| - 1])).pos == LineOrigin(q.pos, ws);
    }
  }

  /** With the pen down, the words leave exactly their outlines, each on its line. */
  lemma {:induction false} WordsInk(q: PenState, ws: seq<Word>)
    requires q.penDown
    ensures Ink(q, WordsCommands(ws)) == DocumentOutline(q.pos, ws)
    decreases |ws|
  {
    if ws != [] {
      var prefix := ws[..|ws| - 1];
      WordsInk(q, prefix);
      WordsRun(q, prefix);
      WordsCommandsLast(ws);
      InkAppend(q, WordsCommands(prefix), WordCommands(ws[|ws| - 1]));
      var r := Run(q, WordsCommands(prefix));
      if prefix == [] {
        LineOriginEmpty(q.pos);
      }
      assert r.pos == LineOrigin(q.pos, prefix) && r.penDown;
      WordInk(r, ws[|ws| - 1]);
    }
  }

  const Start := Point(StartX, StartY)

  /** The set-up commands move the pen to the start and set the turtle's colour to red, inking nothing. */
  lemma SetupEffect(p: PenState)
    ensures Run(p, [SetX(StartX), SetY(StartY), SetColor(Red)]) == p.(pos := Start, color := Red)
    ensures Ink(p, [SetX(StartX), SetY(StartY), SetColor(Red)]) == []
  {
    var a := [SetX(StartX), SetY(StartY)];
    var b := [SetColor(Red)];
    assert [SetX(StartX), SetY(StartY), SetColor(Red)] == a + b;
    RunAppend(p, a, b);
    InkAppend(p, a, b);
    RunTwo(p, a[0], a[1]);
    var q := Run(p, a);
    assert b[1..] == [];
    assert Run(q, b) == Run(Step(q, b[0]), []);
    assert Ink(q, b) == StepInk(q, b[0]) + Ink(Step(q, b[0]), []);
  }

  /** The whole drawing ends at the start of the line after the last word, in red. */
  lemma ProgramRun(p: PenState, ws: seq<Word>)
    ensures Run(p, Program(ws)).pos == LineOrigin(Start, ws)
    ensures Run(p, Program(ws)).color == Red
    ensures ws != [] ==> Run(p, Program(ws)).penDown
  {
    SetupEffect(p);
    RunAppend(p, [SetX(StartX), SetY(StartY), SetColor(Red)], WordsCommands(ws));
    WordsRun(p.(pos := Start, color := Red), ws);
  }

  /** Starting with the pen down, the whole drawing is exactly the document's
      outline from (-500, 200): letter outlines, and nothing drawn between them. */
  lemma ProgramInk(p: PenState, ws: seq<Word>)
    requires p.penDown
    ensures Ink(p, Program(ws)) == DocumentOutline(Start, ws)
  {
    SetupEffect(p);
    InkAppend(p, [SetX(StartX), SetY(StartY), SetColor(Red)], WordsCommands(ws));
    WordsInk(p.(pos := Start, color := Red), ws);
  }

  /** "something" has exactly one T and "awesome" none, so "awesome" starts
      directly below "something", 6 units down, and the pen ends one unit left
      of the start, 12 units down. */
  lemma WordsLayout()
    ensures Drift(Something) == 1 && Drift(Awesome) == 0
    ensures LineOrigin(Start, Words[..1]) == Point(-500, 80)
    ensures LineOrigin(Start, Words) == Point(-520, -40)
  {
    SomethingHasOneT();
    AwesomeHasNoT();
    var first := Words[..1];
    assert first == [Something];
    assert first[..0] == [];
    assert Carry(first) == 0;
    assert Words[..1] == first;
    assert Carry(Words) == -1;
  }

  /** "something" has one T, so its end offsets add up to 1. */
  lemma SomethingHasOneT()
    ensures Drift(Something) == 1
  {
    var a, b := [S, O, M, E], [H, I, N, G];
    assert Something == a + [T] + b;
    DriftAppend(a + [T], b);
    DriftAppend(a, [T]);
    DriftWithoutT(a);
    DriftWithoutT(b);
    assert [T][..0] == [];
    EndOnBaseline(T);
  }

  /** "awesome" has no T, so its end offsets add up to 0. */
  lemma AwesomeHasNoT()
    ensures Drift(Awesome) == 0
  {
    DriftWithoutT(Awesome);
  }

  /** A word's end offsets add up across a split. */
  lemma {:induction false} DriftAppend(a: Word, b: Word)
    ensures Drift(a + b) == Drift(a) + Drift(b)
    decreases |b|
  {
    if b == [] {
      assert a + b == a;
    } else {
      var n := |b|;
      DriftAppend(a, b[..n - 1]);
      assert (a + b)[..|a + b| - 1] == a + b[..n - 1];
    }
  }

  /** A word without a T ends where it began. */
  lemma DriftWithoutT(w: Word)
    requires T !in w
    ensures Drift(w) == 0
  {
    DriftCountsT(w);
  }

  /** The total number of strokes in a word's letters. */
  function StrokeTotal(w: Word): (n: nat)
    decreases |w|
  {
    if w == [] then 0 else StrokeTotal(w[..|w| - 1]) + |Path(w[|w| - 1])|
  }

  /** A word is two commands per stroke, four per advance and six for the
      return; its ink is one segment per stroke. */
  lemma {:induction false} WordCounts(o: Point, w: Word)
    ensures |WordCommands(w)| == 2 * StrokeTotal(w) + 4 * |w| + 6
    ensures |WordOutline(o, w)| == StrokeTotal(w)
    decreases |w|
  {
    if w != [] {
      WordCounts(o, w[..|w| - 1]);
      DrawPathShape(Path(w[|w| - 1]));
    }
  }

  /** One pass of the layout loop: the letters of one word, each followed by
      its advance while `totalOffset` accumulates, then the return to the next line. */
  method DrawWord(w: Word) returns (cmds: seq<Command>)
    ensures cmds == WordCommands(w)
  {
    cmds := [];
    var totalOffset := 1;
    var j := 0;
    while j < |w|
      invariant 0 <= j <= |w|
      invariant totalOffset == 1 + SumAdvance(w[..j])
      invariant cmds == LettersCommands(w[..j])
    {
      ghost var before := cmds;
      var l := w[j];
      cmds := cmds + DrawLetter(l);
      cmds := cmds + [PenUp, SetHeading(HeadingOf(Right))];
      var positionOffset := Width(l) + 1;
      totalOffset := totalOffset + positionOffset;
      cmds := cmds + [Forward(positionOffset * Multiplier), PenDown];
      CellAssembled(before, DrawLetter(l), l, cmds);
      LettersCommandsSnoc(w, j);
      j := j + 1;
    }
    WholeWord(w);
    assert cmds == LettersCommands(w) && totalOffset == 1 + SumAdvance(w);
    ghost var letters := cmds;
    cmds := cmds + [PenUp, SetHeading(HeadingOf(Down)), Forward(LineDrop * Multiplier)];
    cmds := cmds + [SetHeading(HeadingOf(Left)), Back(totalOffset * Multiplier), PenDown];
    WordAssembled([], letters, cmds, w, totalOffset);
  }

  /** The layout loop as the drawing routine runs it: go to the start, set
      the turtle's colour to red, then lay out each word on its own line. */
  method Draw(ws: seq<Word>) returns (cmds: seq<Command>)
    ensures cmds == Program(ws)
  {
    cmds := [SetX(StartX), SetY(StartY), SetColor(Red)];
    var i := 0;
    while i < |ws|
      invariant 0 <= i <= |ws|
      invariant cmds == Program(ws[..i])
    {
      var wordCmds := DrawWord(ws[i]);
      cmds := cmds + wordCmds;
      ProgramSnoc(ws, i);
      i := i + 1;
    }
    assert ws[..i] == ws;
  }
}
