# Word turtle: a verified model of the letter-path font

The word turtle writes words on a turtle-graphics canvas using a hand-made
block font. Each letter is a declared advance width and a path of
axis-aligned strokes (up, down, left or right by a whole number of units).
`drawLetter` turns every stroke into a heading change followed by a move
of `distance × 20` pixels. The move is backwards for a LEFT stroke, because
LEFT and RIGHT share heading 90. The layout loop in `WordTurtle.draw` does
the following:

- it starts at (-500, 200) and sets the turtle's colour to red;
- after each letter it lifts the pen, moves `width + 1` units right, puts the pen down and adds that to `totalOffset`, which starts at 1;
- after each word it drops 6 units and backs up `totalOffset` units.

The model has five modules:

| module | file | contents |
|---|---|---|
| `Turtle` | `turtle.dfy` | An abstract pen: its position in whole pixels, a right-angle heading (0 is +y, 90 is +x), the pen flag and the colour. The turtle commands and their effect (`Run`), the positions the pen passes through (`Visited`), the ink it leaves (`Ink`), and bounding boxes. |
| `Glyphs` | `glyphs.dfy` | `Direction` with its headings, the `Letter` table (widths and stroke paths exactly as declared), and the name lookup. Reference geometry: each stroke's intended displacement and the corners a path passes through. |
| `GlyphFacts` | `glyph_facts.dfy` | Every letter's corners, spelled out. Which letters close, and every letter's extent. |
| `LetterDrawing` | `letter_drawing.dfy` | `drawLetter` as a command list. What running it does to the pen, where the pen goes, and what ink it leaves. |
| `WordLayout` | `word_layout.dfy` | The `draw` loop as a method over the command list, and the layout it produces for one word, for many words, and for the two words the turtle actually writes. |

The doc comment on `Letter` says three things:

- every letter ends where it started;
- widths "could be calculated";
- letters are 5 units tall.

The model proves these letter by letter, and finds that T breaks the first two:

- T ends one unit to the right of its origin.
- T reaches x = 3 although its declared width is 2.

The table also declares N with exactly A's strokes and width, so the N of "something" is drawn as an A.

The layout lemmas follow this through. Each line starts `1 - (number of T's in the word above)` units left of the line above it. "something" has exactly one T, so "awesome" starts directly below it, at (-500, 80). The pen finishes at (-520, -40).

## Model

Paths are relative to the repository root. All rows cite `src/main/kotlin/com/nerdery/jvm/turtle/actors/WordTurtle.kt`.

| member | source | states |
|---|---|---|
| Glyphs.Lookup | src/main/kotlin/com/nerdery/jvm/turtle/actors/WordTurtle.kt:69 | The name lookup of the `Letter` enum. A character is found exactly when it names one of the eleven letters A E G H I M N O S T W. The letter found carries that name. Any other character is reported as an unknown glyph, with the character kept. |
| Glyphs.LookupName | src/main/kotlin/com/nerdery/jvm/turtle/actors/WordTurtle.kt:69-209 | Looking up a letter's own name gives the letter back, and no two letters share a name. |
| GlyphFacts.CornersOfA | src/main/kotlin/com/nerdery/jvm/turtle/actors/WordTurtle.kt:71-79 | The corners A's path passes through, from (0,0) back to (0,0). |
| GlyphFacts.CornersOfE | src/main/kotlin/com/nerdery/jvm/turtle/actors/WordTurtle.kt:81-93 | The corners E's path passes through, from (0,0) back to (0,0). |
| GlyphFacts.CornersOfG | src/main/kotlin/com/nerdery/jvm/turtle/actors/WordTurtle.kt:95-107 | The corners G's path passes through, from (0,0) back to (0,0). |
| GlyphFacts.CornersOfH | src/main/kotlin/com/nerdery/jvm/turtle/actors/WordTurtle.kt:109-121 | The corners H's path passes through, from (0,0) back to (0,0). |
| GlyphFacts.CornersOfI | src/main/kotlin/com/nerdery/jvm/turtle/actors/WordTurtle.kt:123-135 | The corners I's path passes through, from (0,0) back to (0,0). |
| GlyphFacts.CornersOfM | src/main/kotlin/com/nerdery/jvm/turtle/actors/WordTurtle.kt:137-149 | The corners M's path passes through, from (0,0) back to (0,0). |
| GlyphFacts.CornersOfN | src/main/kotlin/com/nerdery/jvm/turtle/actors/WordTurtle.kt:154-162 | The corners N's path passes through, from (0,0) back to (0,0). |
| GlyphFacts.CornersOfO | src/main/kotlin/com/nerdery/jvm/turtle/actors/WordTurtle.kt:164-168 | O's corners are the rectangle (0,0), (0,5), (3,5), (3,0), (0,0). |
| GlyphFacts.CornersOfS | src/main/kotlin/com/nerdery/jvm/turtle/actors/WordTurtle.kt:170-182 | The corners S's path passes through, from (0,0) back to (0,0). |
| GlyphFacts.CornersOfT | src/main/kotlin/com/nerdery/jvm/turtle/actors/WordTurtle.kt:184-193 | The corners T's path passes through: from (0,0), out to x = 3, ending at (1,0). |
| GlyphFacts.CornersOfW | src/main/kotlin/com/nerdery/jvm/turtle/actors/WordTurtle.kt:195-207 | The corners W's path passes through, from (0,0) back to (0,0). |
| GlyphFacts.NDrawnAsA | src/main/kotlin/com/nerdery/jvm/turtle/actors/WordTurtle.kt:154-162 | N's stroke list and width are exactly A's. |
| GlyphFacts.LetterClosure | src/main/kotlin/com/nerdery/jvm/turtle/actors/WordTurtle.kt:65 | A letter's path ends at its origin if and only if the letter is not T. T ends at (1,0). |
| GlyphFacts.LetterExtent | src/main/kotlin/com/nerdery/jvm/turtle/actors/WordTurtle.kt:64-67 | Except for T, every letter's corners have the bounding box (0,0)-(width,5). So x is never negative, the height is exactly 5, and the width is exactly the declared one. T's box is (0,0)-(3,5) although its width is 2. |
| LetterDrawing.DrawPathShape | src/main/kotlin/com/nerdery/jvm/turtle/actors/WordTurtle.kt:53-61 | Drawing a path issues exactly two commands per stroke, in stroke order: the stroke's heading, then its move. The move is `back` by `distance × 20` for LEFT and `forward` otherwise. |
| LetterDrawing.StrokeEffect | src/main/kotlin/com/nerdery/jvm/turtle/actors/WordTurtle.kt:54-59 | One stroke's two commands move the pen by exactly the stroke's intended displacement, scaled by 20, so a LEFT stroke goes towards -x. They leave the heading of the stroke's direction and change neither the pen flag nor the colour. With the pen down they ink one segment from the old position to the new one. |
| LetterDrawing.StrokeDirection | src/main/kotlin/com/nerdery/jvm/turtle/actors/WordTurtle.kt:54-63 | The heading table and the move a stroke issues, per direction: UP sets heading 0 and moves 20 px per unit towards +y, DOWN sets 180 and moves towards -y, RIGHT sets 90 and moves towards +x, and LEFT sets 90 too but moves backwards, so it goes towards -x. |
| LetterDrawing.StrokeMove | src/main/kotlin/com/nerdery/jvm/turtle/actors/WordTurtle.kt:56-59 | The move half of a stroke, made at its heading, goes exactly the stroke's displacement, including the backward move for LEFT. |
| LetterDrawing.DrawPathRun | src/main/kotlin/com/nerdery/jvm/turtle/actors/WordTurtle.kt:53-61 | Drawing a path leaves the pen at the path's end point, scaled and placed at the start. The heading is the last stroke's, and the pen flag and colour are kept. |
| LetterDrawing.DrawPathVisits | src/main/kotlin/com/nerdery/jvm/turtle/actors/WordTurtle.kt:53-61 | The pen passes through exactly the path's corners, placed at the start and scaled by 20, and nothing else. Position i is corner i / 2, because each corner is held while the next stroke's heading is set. |
| LetterDrawing.OutlineAt | src/main/kotlin/com/nerdery/jvm/turtle/actors/WordTurtle.kt:53-61 | The k-th segment of a letter's outline joins corner k to corner k+1. |
| LetterDrawing.DrawPathInk | src/main/kotlin/com/nerdery/jvm/turtle/actors/WordTurtle.kt:53-61 | With the pen down, a path inks exactly its outline, one segment per stroke. With the pen up it inks nothing. |
| LetterDrawing.LetterReturns | src/main/kotlin/com/nerdery/jvm/turtle/actors/WordTurtle.kt:65 | Drawing a letter brings the pen back to where it started exactly when the letter is not T. T leaves it 20 pixels to the right. The pen flag and colour are unchanged. |
| LetterDrawing.LetterBox | src/main/kotlin/com/nerdery/jvm/turtle/actors/WordTurtle.kt:67 | The bounding box of everywhere the pen goes while drawing a letter is the start plus (width × 20, 5 × 20). For T it is the start plus (60, 100). |
| LetterDrawing.LetterInk | src/main/kotlin/com/nerdery/jvm/turtle/actors/WordTurtle.kt:53-61 | A letter drawn with the pen down inks its outline at the pen: one segment per stroke. |
| LetterDrawing.StrokeCounts | src/main/kotlin/com/nerdery/jvm/turtle/actors/WordTurtle.kt:71-79 | A (8 strokes) becomes 16 commands and O (4 strokes) becomes 8. |
| LetterDrawing.OTracesRectangle | src/main/kotlin/com/nerdery/jvm/turtle/actors/WordTurtle.kt:164-168 | O drawn with the pen down inks the four sides of a 60 × 100 pixel rectangle, clockwise, starting up its left side. |
| WordLayout.AdvanceEffect | src/main/kotlin/com/nerdery/jvm/turtle/actors/WordTurtle.kt:32-37 | The advance after a letter moves the pen `(width + 1) × 20` pixels right and inks nothing, since the pen is up. It leaves the pen down and facing heading 90. |
| WordLayout.LineWrapEffect | src/main/kotlin/com/nerdery/jvm/turtle/actors/WordTurtle.kt:42-48 | The return after a word moves the pen 120 pixels down and `totalOffset × 20` pixels left, and inks nothing. It leaves the pen down. |
| WordLayout.EndOnBaseline | src/main/kotlin/com/nerdery/jvm/turtle/actors/WordTurtle.kt:65 | Every letter ends on its baseline: at its origin, or one unit right of it for T. |
| WordLayout.CellEffect | src/main/kotlin/com/nerdery/jvm/turtle/actors/WordTurtle.kt:28-37 | A letter and its advance move the pen right by the letter's end offset plus `width + 1` units, on the same baseline. If the pen was down, the ink is exactly the letter's outline. |
| WordLayout.LettersRun | src/main/kotlin/com/nerdery/jvm/turtle/actors/WordTurtle.kt:27-38 | The letters of a word move the pen right by the sum of `width + 1` plus the letters' end offsets, on the same baseline. The pen ends down. |
| WordLayout.OffsetTracksPen | src/main/kotlin/com/nerdery/jvm/turtle/actors/WordTurtle.kt:24-36 | With `totalOffset = 1 + Σ(width + 1)`, the letters carry the pen `totalOffset - 1` units right, plus one unit per T. For a word without T it is exactly `totalOffset - 1`. |
| WordLayout.DriftCountsT | src/main/kotlin/com/nerdery/jvm/turtle/actors/WordTurtle.kt:184-193 | The letters' end offsets add up to the number of T's in the word. |
| WordLayout.WordRun | src/main/kotlin/com/nerdery/jvm/turtle/actors/WordTurtle.kt:21-49 | After a word and its return, the pen is 6 units lower and `(sum of end offsets) - 1` units right of the word's start. It is down and faces heading 90. This holds for the empty word too. |
| WordLayout.LineShift | src/main/kotlin/com/nerdery/jvm/turtle/actors/WordTurtle.kt:42-48 | The next line starts `#T - 1` units right of the word's start. So it starts directly below the word if and only if the word has exactly one T. |
| WordLayout.PenAtLetterOrigin | src/main/kotlin/com/nerdery/jvm/turtle/actors/WordTurtle.kt:29-37 | When the k-th letter of a word starts, the pen stands at that letter's origin. It is down for every letter after the first, and for the first if it was down at the start. |
| WordLayout.LettersInk | src/main/kotlin/com/nerdery/jvm/turtle/actors/WordTurtle.kt:27-38 | With the pen down, a word's letters ink exactly each letter's outline at its origin, in order, and nothing between them. |
| WordLayout.LastLetterInk | src/main/kotlin/com/nerdery/jvm/turtle/actors/WordTurtle.kt:29-37 | The last letter of a word adds exactly its outline, at its origin, to the ink of the letters before it. |
| WordLayout.WordInk | src/main/kotlin/com/nerdery/jvm/turtle/actors/WordTurtle.kt:21-49 | A whole word, return included, inks exactly its letters' outlines. |
| WordLayout.WordsRun | src/main/kotlin/com/nerdery/jvm/turtle/actors/WordTurtle.kt:21-49 | After any number of words, the pen is at the next line's origin: `6 × (number of words)` units down, and right by the sum of `(end offsets - 1)` over the words. |
| WordLayout.WordsInk | src/main/kotlin/com/nerdery/jvm/turtle/actors/WordTurtle.kt:21-49 | With the pen down, the words ink exactly each word's outline on its own line, and nothing else. |
| WordLayout.SetupEffect | src/main/kotlin/com/nerdery/jvm/turtle/actors/WordTurtle.kt:16-18 | The set-up puts the pen at (-500, 200) with colour red, and inks nothing. |
| WordLayout.ProgramRun | src/main/kotlin/com/nerdery/jvm/turtle/actors/WordTurtle.kt:15-50 | The whole drawing ends, in red, at the origin of the line after the last word, counted from (-500, 200). |
| WordLayout.ProgramInk | src/main/kotlin/com/nerdery/jvm/turtle/actors/WordTurtle.kt:15-50 | Started with the pen down, the whole drawing inks exactly the document outline from (-500, 200): the letter outlines, line by line. |
| WordLayout.WordsLayout | src/main/kotlin/com/nerdery/jvm/turtle/actors/WordTurtle.kt:13 | For the two words drawn, "awesome" starts at (-500, 80), directly below "something". The pen ends at (-520, -40). |
| WordLayout.SomethingHasOneT | src/main/kotlin/com/nerdery/jvm/turtle/actors/WordTurtle.kt:211-220 | The end offsets of "something" sum to 1, from its single T. |
| WordLayout.AwesomeHasNoT | src/main/kotlin/com/nerdery/jvm/turtle/actors/WordTurtle.kt:222-229 | The end offsets of "awesome" sum to 0. |
| WordLayout.WordCounts | src/main/kotlin/com/nerdery/jvm/turtle/actors/WordTurtle.kt:21-49 | A word is `2 × strokes + 4 × letters + 6` commands. Its ink is one segment per stroke. |
| WordLayout.DrawWord | src/main/kotlin/com/nerdery/jvm/turtle/actors/WordTurtle.kt:21-49 | The per-word loop, with `totalOffset` starting at 1 and growing by `width + 1` per letter (its loop invariant), issues exactly the letters-then-return command list. |
| WordLayout.Draw | src/main/kotlin/com/nerdery/jvm/turtle/actors/WordTurtle.kt:15-50 | The drawing routine issues the set-up followed by each word's commands in order. |

## Left out

- The other classes of the repository are not part of this model. These are the actor-system start-up and window plumbing, the actor message shim, and the other turtles (snowflake, star spiral, square). They are I/O or floating-point geometry over an external library.
- The real turtle library is represented by an abstract integer pen. Headings are limited to the four right angles. The font itself uses only 0, 90 and 180. `setX` and `setY` are taken to reposition the pen without drawing. Animation, speed and windows are left out.
- Colours are an RGB integer: `Color.RED` is `0xFF0000`. Nothing about rendering colour is modelled.
- Kotlin `Double` arithmetic is left out. Every stroke distance in the table is a whole number and the multiplier is 20, so integer pixels are exact.
- Glyphs.Lookup: takes one character rather than a string, so multi-character names (which the enum lookup also rejects) are not modelled.
- WordLayout.DrawWord: `totalOffset` is a local variable in the source and is not returned. Its value is stated as the loop invariant `1 + Σ(width + 1)`, and its effect is proved by LineWrapEffect and WordRun.
- For an empty word the code still carries the pen back `totalOffset = 1` unit after the 6-unit drop. WordRun covers the empty word.
- The turtle is modelled as belonging to `WordTurtle.draw` alone. The actor start-up in `TurtleChallenge.kt` can hand one shared turtle to several actors at once, and their commands may then interleave with the heading-and-move pairs issued here. WordLayout.ProgramRun, WordLayout.ProgramInk, WordLayout.WordsRun and WordLayout.WordsInk hold only when `draw` has the turtle to itself. Concurrency is not modelled.
